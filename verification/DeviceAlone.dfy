/** A request that nobody else disturbs is answered, from whatever state a run
    has reached, and its answer is the one the specification gives. */
module DeviceAlone {
  import opened Base
  import opened Engine
  import opened Objects
  import Metadata
  import opened Device
  import opened DeviceSpec
  import opened DeviceReads
  import opened DeviceDecide
  import DevicePuts
  import opened DeviceRuns
  import opened DeviceAudit
  import opened DeviceGets
  import opened DeviceDrafts
  import opened DeviceTheorems
  import opened DevicePaths
  import opened Decisions

  /** Everything is on disk, and the request's name is held by the Object. */
  ghost predicate Held(c: Config, s: Sys, rid: nat, id: nat) {
    && rid in s.reqs && Calm(c, s, s.reqs[rid].name)
    && s.reqs[rid].name in s.names && s.names[s.reqs[rid].name] == Slot.Found(id)
    && id in s.objs && s.objs[id].stat.state == Active && s.objs[id].stat.name == s.reqs[rid].name
  }

  lemma HeldAt(c: Config, s: Sys, rid: nat, id: nat, pc: Pc)
    requires Held(c, s, rid, id)
    ensures Held(c, At(s, rid, pc), rid, id)
  {
  }

  lemma AtTwice(s: Sys, rid: nat, pc: Pc, later: Pc)
    requires rid in s.reqs
    ensures At(At(s, rid, pc), rid, later) == At(s, rid, later)
  {
    assert s.reqs[rid := s.reqs[rid].(pc := pc)][rid := s.reqs[rid].(pc := later)] == s.reqs[rid := s.reqs[rid].(pc := later)];
  }

  /** One step of a read. */
  lemma ReadOne(c: Config, origin: Names, s: Sys, rid: nat)
    requires Inv(c, origin, s) && rid in s.reqs && s.reqs[rid].pc.Reading? && !Waiting(c, s, rid)
    requires WellFormed(s) ==> Deciding(c, s, rid).None?
    ensures WellFormed(s)
    ensures Leads(c, rid, s, [AdvanceStep(rid, 0)], StepReading(c, s, rid)) && Inv(c, origin, StepReading(c, s, rid))
  {
    hide Inv, WellFormed, Leads, StepReading, Waiting, Separate;
    NothingDangles(c, origin, s);
    OneLeads(c, origin, rid, s, AdvanceStep(rid, 0));
  }

  lemma ServeOne(c: Config, origin: Names, s: Sys, rid: nat)
    requires Inv(c, origin, s) && rid in s.reqs && s.reqs[rid].pc.Serving? && s.reqs[rid].task.Get?
    ensures WellFormed(s)
    ensures Leads(c, rid, s, [AdvanceStep(rid, 0)], StepServing(c, s, rid)) && Inv(c, origin, StepServing(c, s, rid))
  {
    hide Inv, WellFormed, Leads, StepServing, Separate;
    NothingDangles(c, origin, s);
    OneLeads(c, origin, rid, s, AdvanceStep(rid, 0));
  }

  // ----- the metadata -----

  function ReadingAt(s: Sys, rid: nat, id: nat, call: MetaCall): Sys
    requires rid in s.reqs && id in s.objs
  {
    At(s, rid, Reading(id, s.objs[id].version, 0, call))
  }

  predicate IsReading(s: Sys, rid: nat, id: nat, call: MetaCall) {
    rid in s.reqs && id in s.objs && s.reqs[rid].pc == Reading(id, s.objs[id].version, 0, call)
  }

  predicate Succeeds(call: MetaCall, next: MetaCall, done: nat) {
    match call
    case SyncCall => next == SyncWait(done)
    case SyncWait(_) => next == MetaFetch([])
    case MetaFetch(data) => next.MetaAt? && next.data == data
    case MetaAt(data, _) => next.MetaCheck? && next.data == data
    case MetaCheck(data, _, _) => next.MetaBack? && next.data == data
    case MetaBack(_, _) => false
  }

  /** One step of the read. The Object has not been retired, so a check succeeds. */
  lemma MetaOne(c: Config, origin: Names, s: Sys, rid: nat, id: nat, call: MetaCall) returns (next: MetaCall)
    requires Inv(c, origin, s) && Held(c, s, rid, id) && IsReading(s, rid, id, call)
    requires !call.MetaBack? && (call.SyncWait? ==> call.local <= Length(s.journal))
    ensures Leads(c, rid, s, [AdvanceStep(rid, 0)], ReadingAt(s, rid, id, next)) && Inv(c, origin, ReadingAt(s, rid, id, next))
    ensures Succeeds(call, next, s.objs[id].done)
  {
    hide Inv, WellFormed, Leads, ChecksOut, Slice, Visible, AddressOf;
    ReadOne(c, origin, s, rid);
    if call.MetaCheck? && Misses(s, s.reqs[rid].pc) { GivesUp(c, origin, s, rid); }
    next := StepReading(c, s, rid).reqs[rid].pc.call;
  }

  /** Two steps, one after the other. */
  lemma MetaOn(c: Config, origin: Names, s: Sys, rid: nat, id: nat, before: seq<Step>, call: MetaCall) returns (path: seq<Step>, next: MetaCall)
    requires rid in s.reqs && id in s.objs && Held(c, s, rid, id)
    requires Leads(c, rid, s, before, ReadingAt(s, rid, id, call)) && Inv(c, origin, ReadingAt(s, rid, id, call))
    requires !call.MetaBack? && (call.SyncWait? ==> call.local <= Length(s.journal))
    ensures Leads(c, rid, s, path, ReadingAt(s, rid, id, next)) && Inv(c, origin, ReadingAt(s, rid, id, next))
    ensures Succeeds(call, next, s.objs[id].done)
  {
    hide Inv, Leads;
    var r := ReadingAt(s, rid, id, call);
    HeldAt(c, s, rid, id, r.reqs[rid].pc);
    next := MetaOne(c, origin, r, rid, id, call);
    AtTwice(s, rid, r.reqs[rid].pc, Reading(id, s.objs[id].version, 0, next));
    LeadsOn(c, rid, s, before, r, [AdvanceStep(rid, 0)], ReadingAt(s, rid, id, next));
    path := before + [AdvanceStep(rid, 0)];
  }

  /** How much of the header is still to be read. */
  function Unread(s: Sys, id: nat, data: Bytes): nat {
    if id in s.objs && s.objs[id].inode in s.journal.recs && |s.journal.recs[s.objs[id].inode].header| > |data|
    then |s.journal.recs[s.objs[id].inode].header| - |data| else 0
  }

  lemma ChunkReads(c: Config, origin: Names, s: Sys, rid: nat, id: nat, data: Bytes, chunk: Bytes)
    requires Inv(c, origin, s) && IsReading(s, rid, id, MetaBack(data, chunk))
    ensures c.chunk > 0 && (|chunk| >= c.chunk ==> Unread(s, id, data + chunk) < Unread(s, id, data))
  {
    hide Inv;
    InvBasics(c, origin, s);
    ReqIsFine(c, origin, s, rid);
  }

  /** A chunk at a time, to the last. */
  lemma {:induction false} MetaRest(c: Config, origin: Names, s: Sys, rid: nat, id: nat, before: seq<Step>, data: Bytes)
    returns (path: seq<Step>, whole: Bytes, chunk: Bytes)
    requires rid in s.reqs && id in s.objs && Held(c, s, rid, id)
    requires Leads(c, rid, s, before, ReadingAt(s, rid, id, MetaFetch(data))) && Inv(c, origin, ReadingAt(s, rid, id, MetaFetch(data)))
    ensures Leads(c, rid, s, path, ReadingAt(s, rid, id, MetaBack(whole, chunk)))
    ensures Inv(c, origin, ReadingAt(s, rid, id, MetaBack(whole, chunk))) && |chunk| < c.chunk
    decreases Unread(s, id, data)
  {
    hide Inv, Leads, Unread, Held, WellFormed;
    var next: MetaCall;
    path, next := MetaOn(c, origin, s, rid, id, before, MetaFetch(data));
    path, next := MetaOn(c, origin, s, rid, id, path, next);
    path, next := MetaOn(c, origin, s, rid, id, path, next);
    whole, chunk := data, next.chunk;
    var r := ReadingAt(s, rid, id, next);
    ChunkReads(c, origin, r, rid, id, data, chunk);
    if |chunk| >= c.chunk {
      ReadOne(c, origin, r, rid);
      AtTwice(s, rid, r.reqs[rid].pc, Reading(id, s.objs[id].version, 0, MetaFetch(data + chunk)));
      LeadsOn(c, rid, s, path, r, [AdvanceStep(rid, 0)], ReadingAt(s, rid, id, MetaFetch(data + chunk)));
      SameUnread(s, r, id, data);
      SameUnread(s, r, id, data + chunk);
      path, whole, chunk := MetaRest(c, origin, s, rid, id, path + [AdvanceStep(rid, 0)], data + chunk);
    }
  }

  lemma SameUnread(s: Sys, t: Sys, id: nat, data: Bytes)
    requires t.objs == s.objs && t.journal == s.journal
    ensures Unread(s, id, data) == Unread(t, id, data)
  {
  }

  lemma DoneKnown(c: Config, origin: Names, s: Sys, id: nat)
    requires Inv(c, origin, s) && id in s.objs
    ensures s.objs[id].done <= Length(s.journal)
  {
    assert ObjFine(s, id);
  }

  /** read_metadata comes to its end, and the Object's version has not moved. */
  lemma MetaAll(c: Config, origin: Names, s: Sys, rid: nat, id: nat) returns (path: seq<Step>, whole: Bytes, chunk: Bytes)
    requires Inv(c, origin, s) && Held(c, s, rid, id) && IsReading(s, rid, id, SyncCall)
    ensures Leads(c, rid, s, path, ReadingAt(s, rid, id, MetaBack(whole, chunk)))
    ensures Inv(c, origin, ReadingAt(s, rid, id, MetaBack(whole, chunk))) && |chunk| < c.chunk
  {
    hide Inv, Leads, Held;
    Already(c, rid, s);
    assert ReadingAt(s, rid, id, SyncCall) == s;
    DoneKnown(c, origin, s, id);
    var next: MetaCall;
    path, next := MetaOn(c, origin, s, rid, id, [], SyncCall);
    path, next := MetaOn(c, origin, s, rid, id, path, next);
    path, whole, chunk := MetaRest(c, origin, s, rid, id, path, []);
  }

  // ----- the body -----

  function ServingAt(s: Sys, rid: nat, id: nat, offset: nat, out: Bytes, call: BodyCall): Sys
    requires rid in s.reqs
  {
    At(s, rid, Serving(id, offset, out, 0, call))
  }

  lemma BodyOn(c: Config, origin: Names, s: Sys, rid: nat, id: nat, offset: nat, out: Bytes, before: seq<Step>, call: BodyCall)
    returns (path: seq<Step>, next: BodyCall)
    requires rid in s.reqs && s.reqs[rid].task.Get? && Held(c, s, rid, id) && !call.BodyBack?
    requires Leads(c, rid, s, before, ServingAt(s, rid, id, offset, out, call)) && Inv(c, origin, ServingAt(s, rid, id, offset, out, call))
    ensures Leads(c, rid, s, path, ServingAt(s, rid, id, offset, out, next)) && Inv(c, origin, ServingAt(s, rid, id, offset, out, next))
    ensures match call case BodyFetch => next.BodyAt? case BodyAt(_) => next.BodyCheck? case _ => next.BodyBack?
  {
    hide Inv, Leads, WellFormed, ChecksOut, Slice, Visible, AddressOf, ReadSize;
    var r := ServingAt(s, rid, id, offset, out, call);
    ServeOne(c, origin, r, rid);
    if call.BodyCheck? && Misses(r, r.reqs[rid].pc) { GivesUp(c, origin, r, rid); }
    next := StepServing(c, r, rid).reqs[rid].pc.bodyCall;
    AtTwice(s, rid, r.reqs[rid].pc, Serving(id, offset, out, 0, next));
    LeadsOn(c, rid, s, before, r, [AdvanceStep(rid, 0)], ServingAt(s, rid, id, offset, out, next));
    path := before + [AdvanceStep(rid, 0)];
  }

  /** How much of the data is beyond the offset. */
  function Ahead(s: Sys, id: nat, offset: nat): nat {
    if id in s.objs && s.objs[id].inode in s.journal.recs && |s.journal.recs[s.objs[id].inode].data| > offset
    then |s.journal.recs[s.objs[id].inode].data| - offset else 0
  }

  lemma ChunkServes(c: Config, origin: Names, s: Sys, rid: nat, id: nat, offset: nat, out: Bytes, chunk: Bytes)
    requires Inv(c, origin, s) && rid in s.reqs && s.reqs[rid].pc == Serving(id, offset, out, 0, BodyBack(chunk))
    ensures chunk != [] ==> Ahead(s, id, offset + |chunk|) < Ahead(s, id, offset)
  {
    hide Inv;
    ReqIsFine(c, origin, s, rid);
  }

  lemma SameAhead(s: Sys, t: Sys, id: nat, offset: nat)
    requires t.objs == s.objs && t.journal == s.journal
    ensures Ahead(s, id, offset) == Ahead(t, id, offset)
  {
  }

  lemma {:induction false} BodyRest(c: Config, origin: Names, s: Sys, rid: nat, id: nat, offset: nat, out: Bytes, before: seq<Step>)
    returns (path: seq<Step>, outcome: Outcome)
    requires rid in s.reqs && s.reqs[rid].task.Get? && Held(c, s, rid, id)
    requires Leads(c, rid, s, before, ServingAt(s, rid, id, offset, out, BodyFetch)) && Inv(c, origin, ServingAt(s, rid, id, offset, out, BodyFetch))
    ensures Leads(c, rid, s, path, At(s, rid, Finished(outcome))) && outcome.Served?
    decreases Ahead(s, id, offset)
  {
    hide Inv, Leads, Held, Ahead, WellFormed, ReadSize;
    var next: BodyCall;
    path, next := BodyOn(c, origin, s, rid, id, offset, out, before, BodyFetch);
    path, next := BodyOn(c, origin, s, rid, id, offset, out, path, next);
    path, next := BodyOn(c, origin, s, rid, id, offset, out, path, next);
    var chunk := next.chunk;
    var r := ServingAt(s, rid, id, offset, out, next);
    ServeOne(c, origin, r, rid);
    var pc := StepServing(c, r, rid).reqs[rid].pc;
    AtTwice(s, rid, r.reqs[rid].pc, pc);
    LeadsOn(c, rid, s, path, r, [AdvanceStep(rid, 0)], At(s, rid, pc));
    path := path + [AdvanceStep(rid, 0)];
    if pc.Finished? {
      outcome := pc.outcome;
    } else {
      ChunkServes(c, origin, r, rid, id, offset, out, chunk);
      SameAhead(s, r, id, offset);
      SameAhead(s, r, id, offset + |chunk|);
      path, outcome := BodyRest(c, origin, s, rid, id, offset + |chunk|, out + chunk, path);
    }
  }

  // ----- a GET -----

  /** The Object that holds the name is read to the end. */
  lemma ReadsIt(c: Config, origin: Names, s: Sys, rid: nat, id: nat) returns (path: seq<Step>, outcome: Outcome)
    requires Inv(c, origin, s) && Held(c, s, rid, id) && s.reqs[rid].task.Get? && IsReading(s, rid, id, SyncCall)
    ensures Leads(c, rid, s, path, At(s, rid, Finished(outcome)))
  {
    hide Inv, Leads, WellFormed, Held;
    var whole, chunk;
    path, whole, chunk := MetaAll(c, origin, s, rid, id);
    var r := ReadingAt(s, rid, id, MetaBack(whole, chunk));
    ReadOne(c, origin, r, rid);
    var pc := StepReading(c, r, rid).reqs[rid].pc;
    AtTwice(s, rid, r.reqs[rid].pc, pc);
    LeadsOn(c, rid, s, path, r, [AdvanceStep(rid, 0)], At(s, rid, pc));
    path := path + [AdvanceStep(rid, 0)];
    if pc.Finished? {
      outcome := pc.outcome;
    } else {
      path, outcome := BodyRest(c, origin, s, rid, id, s.reqs[rid].task.start, [], path);
    }
  }

  /** The request finds who holds the name, with everything about it on disk. */
  lemma Arrives(c: Config, origin: Names, rid: nat, s: Sys) returns (path: seq<Step>, t: Sys)
    requires Inv(c, origin, s) && Ended(s) && rid in s.reqs && s.reqs[rid].pc == Opening
    ensures Leads(c, rid, s, path, t) && Inv(c, origin, t) && Calm(c, t, s.reqs[rid].name)
    ensures t.reqs == s.reqs && t.journal == s.journal && t.decided == s.decided && t.cuts == s.cuts && s.next <= t.next
    ensures forall id :: id in s.objs && s.objs[id].stat.state != PreSearch ==> id in t.objs && t.objs[id] == s.objs[id]
    ensures s.reqs[rid].name in t.names && t.names[s.reqs[rid].name].Found?
  {
    hide Inv, Leads, Ended;
    var u, rest;
    path, u := Settles(c, origin, rid, s, s.reqs[rid].name);
    rest, t := Finds(c, origin, rid, u);
    LeadsOn(c, rid, s, path, u, rest, t);
    path := path + rest;
  }

  /** A GET that has just begun comes to an answer, and nothing is decided meanwhile. */
  lemma GetEnds(c: Config, origin: Names, rid: nat, s: Sys) returns (path: seq<Step>, t: Sys)
    requires Inv(c, origin, s) && Ended(s) && rid in s.reqs && s.reqs[rid].task.Get? && s.reqs[rid].pc == Opening
    ensures Leads(c, rid, s, path, t) && t.decided == s.decided
    ensures rid in t.reqs && t.reqs[rid].pc.Finished? && t.reqs[rid] == s.reqs[rid].(pc := t.reqs[rid].pc)
  {
    hide Inv, Leads, WellFormed, Ended;
    var u;
    path, u := Arrives(c, origin, rid, s);
    var id := u.names[s.reqs[rid].name].id;
    SlotState(c, origin, u, s.reqs[rid].name);
    NothingDangles(c, origin, u);
    OneLeads(c, origin, rid, u, AdvanceStep(rid, 0));
    var v := At(u, rid, Opened(id));
    LeadsOn(c, rid, s, path, u, [AdvanceStep(rid, 0)], v);
    NothingDangles(c, origin, v);
    OneLeads(c, origin, rid, v, AdvanceStep(rid, 0));
    var w := Do(c, v, AdvanceStep(rid, 0));
    LeadsOn(c, rid, s, path + [AdvanceStep(rid, 0)], v, [AdvanceStep(rid, 0)], w);
    path := path + [AdvanceStep(rid, 0)] + [AdvanceStep(rid, 0)];
    if w.reqs[rid].pc.Finished? {
      t := w;
    } else {
      var rest, outcome := ReadsIt(c, origin, w, rid, id);
      t := At(w, rid, Finished(outcome));
      LeadsOn(c, rid, s, path, w, rest, t);
      path := path + rest;
    }
  }

  // ----- a put, a delete or a POST -----

  /** What is expected of the clock stays true until the decision. */
  lemma SeparateStill(c: Config, origin: Names, s: Sys, t: Sys, rid: nat, estimate: nat)
    requires Inv(c, origin, s) && rid in s.reqs && rid in t.reqs && t.reqs[rid].name == s.reqs[rid].name && t.reqs[rid].task == s.reqs[rid].task
    requires t.journal == s.journal && s.next <= t.next
    requires s.reqs[rid].task.Put? ==>
               var id := s.reqs[rid].task.id; id in s.objs && id in t.objs && t.objs[id] == s.objs[id]
    requires Separate(s, rid, estimate)
    ensures Separate(t, rid, estimate)
  {
    RecsBefore(c, origin, s);
    hide Inv;
  }

  lemma RecsBefore(c: Config, origin: Names, s: Sys)
    requires Inv(c, origin, s)
    ensures forall i :: i in s.journal.recs ==> i < s.next
  {
  }

  /** From the decision to the answer: the transaction lands, is committed, and is confirmed. */
  lemma Confirmed(c: Config, origin: Names, rid: nat, s: Sys) returns (path: seq<Step>, t: Sys)
    requires Inv(c, origin, s) && Ended(s) && rid in s.reqs && s.reqs[rid].pc.Confirming?
    ensures Leads(c, rid, s, path, t) && t.decided == s.decided
    ensures rid in t.reqs && t.reqs[rid] == s.reqs[rid].(pc := Finished(Done))
  {
    hide Inv, Leads, WellFormed;
    var id := s.reqs[rid].pc.id;
    ConfirmedId(c, origin, s, rid);
    DoneKnown(c, origin, s, id);
    NothingDangles(c, origin, s);
    OneLeads(c, origin, rid, s, AdvanceStep(rid, 0));
    var u := At(s, rid, Settling(id, s.objs[id].done));
    EndedStill(s, u);
    var rest, v := Settles(c, origin, rid, u, s.reqs[rid].name);
    LeadsOn(c, rid, s, [AdvanceStep(rid, 0)], u, rest, v);
    path := [AdvanceStep(rid, 0)] + rest;
    NothingDangles(c, origin, v);
    OneLeads(c, origin, rid, v, AdvanceStep(rid, 0));
    t := At(v, rid, Finished(Done));
    LeadsOn(c, rid, s, path, v, [AdvanceStep(rid, 0)], t);
    path := path + [AdvanceStep(rid, 0)];
  }

  predicate Ruled(t: Sys, rid: nat) { rid in t.reqs && (t.reqs[rid].pc.Confirming? || t.reqs[rid].pc.Finished?) }

  lemma HandRuled(s: Sys, rid: nat, id: nat, prev: nat, ts: nat, header: Bytes, e: Event)
    requires rid in s.reqs && id in s.objs && prev in s.objs
    ensures Ruled(HandName(s, rid, id, prev, ts, header, e), rid)
  {
    hide Marked, PutJournal, PutNext;
  }

  lemma PostRuled(c: Config, s: Sys, rid: nat, prev: nat, got: Option<Metadata.Got>)
    requires rid in s.reqs && s.reqs[rid].task.Post? && prev in s.objs
    ensures Ruled(DecidePost(c, s, rid, prev, got), rid)
  {
    hide Marked, Metadata.Post;
  }

  lemma DecideRuled(c: Config, s: Sys, rid: nat, prev: nat, got: Option<Metadata.Got>, estimate: nat)
    requires rid in s.reqs && !s.reqs[rid].task.Get? && prev in s.objs
    requires s.reqs[rid].task.Put? ==> s.reqs[rid].task.id in s.objs
    ensures Ruled(Decide(c, s, rid, prev, got, estimate), rid)
  {
    hide HandName, DecidePost, Ruled;
    var r := s.reqs[rid];
    match r.task
    case Put(id, ts, meta) =>
      var inode := s.objs[id].inode;
      var data := if inode in s.journal.recs then s.journal.recs[inode].data else [];
      HandRuled(s, rid, id, prev, ts, c.encode(Metadata.Put(got, meta)), HandedName(rid, r.name, ts, false, data, meta));
    case Delete(ts, tombstone) =>
      var t := s.(journal := Registered(s.journal, s.next, r.name, estimate),
                  objs := s.objs[s.next := TombstoneObj(s, r.name, estimate)], next := s.next + 1);
      HandRuled(t, rid, s.next, prev, ts, c.encode(Metadata.Delete(got, ts, tombstone)),
                HandedName(rid, r.name, ts, true, [], Metadata.TombstoneHeaders(ts, tombstone)));
    case Post(_) => PostRuled(c, s, rid, prev, got);
  }

  lemma DecidedWaits(c: Config, origin: Names, s: Sys, rid: nat, estimate: nat)
    requires Inv(c, origin, s) && Enabled(c, s, AdvanceStep(rid, estimate)) && Deciding(c, s, rid).Some?
    ensures Ruled(Advance(c, s, rid, estimate), rid)
  {
    hide Inv, WellFormed, Decide, Ruled, Separate, Deciding, Waiting, StepReading, StepServing, StepOpening;
    var (prev, got) := Deciding(c, s, rid).value;
    DecidingSees(c, origin, s, rid);
    SeesKnown(c, origin, s, s.reqs[rid].name, prev, got);
    if s.reqs[rid].task.Put? { DevicePuts.PutsKnown(c, origin, s, rid); }
    DecideRuled(c, s, rid, prev, got, estimate);
  }

  /** Once it knows the holder, the request takes its decision and is answered. */
  lemma DecidesNow(c: Config, origin: Names, rid: nat, s: Sys, estimate: nat) returns (path: seq<Step>, t: Sys, e: Event)
    requires Inv(c, origin, s) && Ended(s) && WellFormed(s) && rid in s.reqs && Deciding(c, s, rid).Some?
    requires !Waiting(c, s, rid) && Separate(s, rid, estimate) && !s.reqs[rid].pc.Serving?
    ensures Leads(c, rid, s, path, t) && t.decided == s.decided + [e] && e.rid == rid
    ensures rid in t.reqs && t.reqs[rid].pc.Finished? && t.reqs[rid] == s.reqs[rid].(pc := t.reqs[rid].pc)
    ensures Matches(e, s.reqs[rid]) && t.reqs[rid].pc == Finished(Reply(c, Fold(c, origin, s.decided), e))
  {
    hide Inv, Leads, WellFormed, Deciding, Waiting, Separate, Advance, Fold, Reply, Matches, Ended;
    var decide := AdvanceStep(rid, estimate);
    OneLeads(c, origin, rid, s, decide);
    StepEnded(c, origin, s, decide);
    DecideDecides(c, origin, s, rid, estimate);
    DecidedWaits(c, origin, s, rid, estimate);
    path, t := [decide], Advance(c, s, rid, estimate);
    e :| Decides(c, origin, s, t, rid, e);
    if !t.reqs[rid].pc.Finished? {
      var rest, u := Confirmed(c, origin, rid, t);
      LeadsOn(c, rid, s, path, t, rest, u);
      path, t := path + rest, u;
    }
  }

  /** The request comes to know who holds its name, and with what metadata. */
  lemma WriteKnows(c: Config, origin: Names, rid: nat, s: Sys) returns (path: seq<Step>, t: Sys)
    requires Inv(c, origin, s) && Ended(s) && rid in s.reqs && !s.reqs[rid].task.Get? && s.reqs[rid].pc == Opening
    ensures Leads(c, rid, s, path, t) && Inv(c, origin, t) && WellFormed(t)
    ensures t.journal == s.journal && t.decided == s.decided && s.next <= t.next
    ensures forall id :: id in s.objs && s.objs[id].stat.state != PreSearch ==> id in t.objs && t.objs[id] == s.objs[id]
    ensures rid in t.reqs && t.reqs[rid] == s.reqs[rid].(pc := t.reqs[rid].pc)
    ensures !t.reqs[rid].pc.Serving? && !Waiting(c, t, rid) && Deciding(c, t, rid).Some?
  {
    hide Inv, Leads, WellFormed, Ended;
    path, t := Arrives(c, origin, rid, s);
    var id := t.names[s.reqs[rid].name].id;
    SlotState(c, origin, t, s.reqs[rid].name);
    NothingDangles(c, origin, t);
    if t.objs[id].stat.state == Active {
      OneLeads(c, origin, rid, t, AdvanceStep(rid, 0));
      var u := At(t, rid, Reading(id, t.objs[id].version, 0, SyncCall));
      LeadsOn(c, rid, s, path, t, [AdvanceStep(rid, 0)], u);
      var rest, whole, chunk := MetaAll(c, origin, u, rid, id);
      var v := ReadingAt(u, rid, id, MetaBack(whole, chunk));
      LeadsOn(c, rid, s, path + [AdvanceStep(rid, 0)], u, rest, v);
      path, t := path + [AdvanceStep(rid, 0)] + rest, v;
      NothingDangles(c, origin, t);
    }
  }

  /** A write that has just begun takes one decision and is answered. */
  lemma WriteEnds(c: Config, origin: Names, rid: nat, s: Sys, estimate: nat) returns (path: seq<Step>, t: Sys, e: Event)
    requires Inv(c, origin, s) && Ended(s) && rid in s.reqs && !s.reqs[rid].task.Get? && s.reqs[rid].pc == Opening
    requires (s.reqs[rid].task.Put? ==> s.reqs[rid].task.id in s.objs) && Separate(s, rid, estimate)
    ensures Leads(c, rid, s, path, t) && t.decided == s.decided + [e] && e.rid == rid
    ensures rid in t.reqs && t.reqs[rid].pc.Finished? && t.reqs[rid] == s.reqs[rid].(pc := t.reqs[rid].pc)
    ensures Matches(e, s.reqs[rid]) && t.reqs[rid].pc == Finished(Reply(c, Fold(c, origin, s.decided), e))
  {
    hide Inv, Leads, WellFormed, Separate, Fold, Reply, Matches, Ended, Deciding, Waiting;
    var u, rest;
    path, u := WriteKnows(c, origin, rid, s);
    LeadsEnded(c, origin, rid, s, path, u);
    PutsDraft(c, origin, s, rid);
    SeparateStill(c, origin, s, u, rid, estimate);
    rest, t, e := DecidesNow(c, origin, rid, u, estimate);
    LeadsOn(c, rid, s, path, u, rest, t);
    path := path + rest;
    MatchesTask(e, u.reqs[rid], s.reqs[rid]);
  }

  lemma PutsDraft(c: Config, origin: Names, s: Sys, rid: nat)
    requires Inv(c, origin, s) && rid in s.reqs && s.reqs[rid].pc == Opening
    ensures s.reqs[rid].task.Put? ==> s.reqs[rid].task.id in s.objs && s.objs[s.reqs[rid].task.id].stat.state != PreSearch
  {
    hide Inv;
    ReqIsFine(c, origin, s, rid);
  }

  // ----- over runs -----

  /** What a GET is to be told of a name. */
  predicate Told(shown: Option<Version>, start: nat, stop: Option<nat>, outcome: Outcome) {
    match shown
    case None => outcome == NotFound
    case Some(v) =>
      if v.deleted then outcome == Deleted
      else outcome.Served? && outcome.body == Slice(v.data, start, stop.GetOr(|v.data|))
  }

  lemma {:induction false} RequestsStay(c: Config, origin: Names, states: seq<Sys>, steps: seq<Step>, rid: nat, k: nat, n: nat)
    requires Run(c, origin, states, steps) && k <= n < |states| && rid in states[k].reqs
    ensures rid in states[n].reqs
    decreases n
  {
    hide Inv, Initial, Enabled, Do;
    if k < n {
      RequestsStay(c, origin, states, steps, rid, k, n - 1);
      RunKeeps(c, origin, states, steps, n - 1);
      StaysIn(c, origin, states[n - 1], steps[n - 1], rid);
    }
  }

  lemma StaysIn(c: Config, origin: Names, s: Sys, step: Step, rid: nat)
    requires Inv(c, origin, s) && Enabled(c, s, step) && rid in s.reqs
    ensures rid in Do(c, s, step).reqs
  {
    hide Inv, WellFormed, Advance, Separate, WriteChunk, Release, Pins, Waiting, Deciding;
    if step.AdvanceStep? && step.rid == rid { TaskSame(c, origin, s, rid, step.estimate); } else { OthersSame(c, origin, s, step, rid); }
  }

  /** Where nothing is decided after the request has begun, nothing its name shows changes. */
  lemma Unmoved(c: Config, origin: Names, before: seq<Sys>, states: seq<Sys>, steps: seq<Step>, rid: nat, m: nat)
    requires Run(c, origin, states, steps) && |before| > 0 && before <= states && m < |states|
    requires rid !in Last(before).reqs && rid in states[m].reqs && Last(states).decided == Last(before).decided
    ensures states[m].decided == Last(before).decided
  {
    hide Run, Inv;
    assert states[|before| - 1] == Last(before);
    if m < |before| { RequestsStay(c, origin, states, steps, rid, m, |before| - 1); }
    DecidedPrefix(c, origin, states, steps, |before| - 1, m);
    DecidedPrefix(c, origin, states, steps, m, |states| - 1);
  }

  /** The answer of a GET during which nothing was decided. */
  lemma AnsweredSo(c: Config, origin: Names, before: seq<Sys>, states: seq<Sys>, steps: seq<Step>, rid: nat)
    requires Run(c, origin, states, steps) && |before| > 0 && before <= states && rid !in Last(before).reqs
    requires Last(states).decided == Last(before).decided
    requires rid in Last(states).reqs && Last(states).reqs[rid].task.Get? && Last(states).reqs[rid].pc.Finished?
    ensures var r := Last(states).reqs[rid];
            Told(Lookup(Fold(c, origin, Last(before).decided), r.name), r.task.start, r.task.stop, r.pc.outcome)
  {
    hide Run, Inv, Fold, Shows;
    var n, r := |states| - 1, Last(states).reqs[rid];
    GetsLinearize(c, origin, states, steps, n, rid);
    assert states[..n + 1] == states;
    var v: Option<Version> := None;
    match r.pc.outcome {
      case NotFound =>
      case Deleted =>
        var w: Version :| w.deleted && Shown(states, rid, r.name, Some(w));
        v := Some(w);
      case Served(_, body) =>
        var w: Version :| BodyOf(w, body, r.task.start, r.task.stop) && Shown(states, rid, r.name, Some(w));
        v := Some(w);
      case Failed =>
        var m: nat, k: nat, i: nat :| TakenMeanwhile(c, origin, states, rid, r.name, m, k, i);
        Unmoved(c, origin, before, states, steps, rid, m);
        Unmoved(c, origin, before, states, steps, rid, k);
      case _ =>
    }
    var m :| 0 <= m < |states| && ShownAt(states[m], rid, r.name, v);
    Unmoved(c, origin, before, states, steps, rid, m);
    Linearizable(c, origin, states, steps, m, r.name);
  }

  /** From any state a run has reached, a GET that is left alone is answered with
      what the decisions before it have made of its name. */
  lemma AGetIsAnswered(c: Config, origin: Names, states: seq<Sys>, steps: seq<Step>, rid: nat, name: string, start: nat, stop: Option<nat>)
    returns (more: seq<Sys>, path: seq<Step>)
    requires Run(c, origin, states, steps) && |states| > 0 && rid !in Last(states).reqs
    ensures Run(c, origin, more, steps + [BeginStep(rid, name, Get(start, stop))] + path) && states <= more
    ensures forall step :: step in path ==> ByItself(rid, step)
    ensures Last(more).decided == Last(states).decided
    ensures Only(Last(states), Last(more), rid)
    ensures Last(more).reqs[rid].pc.Finished? && Last(more).reqs[rid] == Req(name, Get(start, stop), Last(more).reqs[rid].pc)
    ensures Told(Lookup(Fold(c, origin, Last(states).decided), name), start, stop, Last(more).reqs[rid].pc.outcome)
  {
    hide Run, Inv, WellFormed, Leads, Fold, Told, Ended;
    RunNow(c, origin, states, steps);
    RunEnded(c, origin, states, steps, |states| - 1);
    var s, begin := Last(states), BeginStep(rid, name, Get(start, stop));
    RunOn(c, origin, states, steps, begin);
    StepOk(c, origin, s, begin);
    StepEnded(c, origin, s, begin);
    var u := Do(c, s, begin);
    var t;
    path, t := GetEnds(c, origin, rid, u);
    LeadsOwn(c, rid, u, path, t);
    LeadsOnly(c, origin, rid, u, path, t);
    more := Follow(c, origin, rid, states + [u], steps + [begin], path, t);
    assert states <= states + [u];
    AnsweredSo(c, origin, states, more, steps + [begin] + path, rid);
  }

  /** From any state a run has reached, a put, delete or POST that is left alone
      takes one decision, on what it asked for, and is told what follows from it. */
  lemma AWriteIsAnswered(c: Config, origin: Names, states: seq<Sys>, steps: seq<Step>, rid: nat, name: string, task: Task, estimate: nat)
    returns (more: seq<Sys>, path: seq<Step>, e: Event)
    requires Run(c, origin, states, steps) && |states| > 0 && !task.Get? && Enabled(c, Last(states), BeginStep(rid, name, task))
    requires Separate(Do(c, Last(states), BeginStep(rid, name, task)), rid, estimate)
    ensures Run(c, origin, more, steps + [BeginStep(rid, name, task)] + path) && states <= more
    ensures forall step :: step in path ==> ByItself(rid, step)
    ensures Last(more).decided == Last(states).decided + [e] && e.rid == rid && Matches(e, Req(name, task, Opening))
    ensures Only(Last(states), Last(more), rid)
    ensures Last(more).reqs[rid] == Req(name, task, Finished(Reply(c, Fold(c, origin, Last(states).decided), e)))
  {
    hide Run, Inv, WellFormed, Leads, Fold, Ended, Separate, Reply, Matches;
    RunNow(c, origin, states, steps);
    RunEnded(c, origin, states, steps, |states| - 1);
    var s, begin := Last(states), BeginStep(rid, name, task);
    RunOn(c, origin, states, steps, begin);
    StepOk(c, origin, s, begin);
    StepEnded(c, origin, s, begin);
    var u := Do(c, s, begin);
    var t;
    path, t, e := WriteEnds(c, origin, rid, u, estimate);
    LeadsOwn(c, rid, u, path, t);
    LeadsOnly(c, origin, rid, u, path, t);
    more := Follow(c, origin, rid, states + [u], steps + [begin], path, t);
    assert states <= states + [u];
  }

  // ----- what is written is served -----

  lemma {:induction false} SentBefore(steps: seq<Step>, rest: seq<Step>, id: nat)
    requires forall step :: step in rest ==> !step.WriteStep?
    ensures Sent(steps + rest, id) == Sent(steps, id)
    decreases |rest|
  {
    if rest == [] {
      assert steps + rest == steps;
    } else {
      SentBefore(steps, rest[..|rest| - 1], id);
      assert (steps + rest)[..|steps + rest| - 1] == steps + rest[..|rest| - 1];
      assert Last(steps + rest) == Last(rest);
    }
  }

  lemma NewerHolds(c: Config, names: Names, e: Event)
    requires e.HandedName? && e.ts > HeldTs(Lookup(names, e.name))
    ensures Reply(c, names, e) == Done
    ensures Lookup(SpecStep(c, names, e), e.name) ==
            Some(Version(e.ts, e.deleted, e.data, c.encode(Metadata.Put(GotOf(c, Lookup(names, e.name)), e.meta))))
  {
  }

  /** From any state a run has reached: a PUT that is newer than what holds its
      name, and is left alone, is told Done, and a GET after it is served all the
      bytes that were written to the Object, in the order in which they were. */
  lemma WhatIsWrittenIsServed(c: Config, origin: Names, states: seq<Sys>, steps: seq<Step>, put: nat, get: nat,
                              name: string, task: Task, start: nat, stop: Option<nat>)
    returns (more: seq<Sys>, taken: seq<Step>)
    requires Run(c, origin, states, steps) && |states| > 0 && task.Put? && Enabled(c, Last(states), BeginStep(put, name, task))
    requires Separate(Do(c, Last(states), BeginStep(put, name, task)), put, 0)
    requires task.ts > HeldTs(Lookup(Fold(c, origin, Last(states).decided), name))
    requires get !in Last(states).reqs && get != put
    ensures Run(c, origin, more, taken) && states <= more && steps <= taken
    ensures put in Last(more).reqs && Last(more).reqs[put] == Req(name, task, Finished(Done))
    ensures get in Last(more).reqs && Last(more).reqs[get].pc.Finished? && Last(more).reqs[get].task == Get(start, stop)
    ensures var outcome, sent := Last(more).reqs[get].pc.outcome, Sent(steps, task.id);
            outcome.Served? && outcome.body == Slice(sent, start, stop.GetOr(|sent|))
  {
    hide Run, Inv, WellFormed, Fold, Separate, Enabled, Do, Sent, SpecStep;
    var before, names := Last(states).decided, Fold(c, origin, Last(states).decided);
    var one, path, e := AWriteIsAnswered(c, origin, states, steps, put, name, task, 0);
    NewerHolds(c, names, e);
    var begin := BeginStep(put, name, task);
    taken := steps + [begin] + path;
    PutCarries(c, origin, one, taken, put);
    assert taken == steps + ([begin] + path);
    SentBefore(steps, [begin] + path, task.id);
    FoldAppend(c, origin, before, e);
    var rest;
    more, rest := AGetIsAnswered(c, origin, one, taken, get, name, start, stop);
    taken := taken + [BeginStep(get, name, Get(start, stop))] + rest;
  }

  lemma PutCarries(c: Config, origin: Names, states: seq<Sys>, steps: seq<Step>, rid: nat)
    requires Run(c, origin, states, steps) && |states| > 0 && rid in Last(states).reqs && Last(states).reqs[rid].pc.Finished?
    requires |Last(states).decided| > 0 && Last(Last(states).decided).rid == rid && Last(states).reqs[rid].task.Put?
    ensures Last(Last(states).decided).HandedName? && Last(Last(states).decided).data == Sent(steps, Last(states).reqs[rid].task.id)
  {
    hide Run, Fold, Reply, Matches, SpecStep, Sent;
    RunLength(c, origin, states, steps);
    AnswersAgree(c, origin, states, steps, |states| - 1, rid);
    assert steps[..|states| - 1] == steps;
    var i := |Last(states).decided| - 1;
    assert Last(states).decided[i].rid == rid;
  }
}
