/** GETs over whole runs: an answer is what the name showed at some moment
    while the request was running, and a body is one version's bytes. */
module DeviceGets {
  import opened Base
  import opened Engine
  import opened Journals
  import opened Objects
  import opened Transactions
  import opened Metadata
  import opened Device
  import opened DeviceSpec
  import opened DeviceReads
  import opened DeviceSteps
  import opened DeviceWrites
  import opened DeviceDecide
  import opened DevicePuts
  import opened DeviceRuns
  import opened DeviceAudit
  import opened DeviceDurable
  import HandOver

  // ----- what a step leaves of a version and of the Object a GET reads -----

  /** The Object is the same one, of the same entry, though it may have been retired. */
  predicate SameObject(o: Obj, p: Obj) {
    && p.inode == o.inode && p.stat.deleted == o.stat.deleted && p.stat.name == o.stat.name && p.stat.ts == o.stat.ts
    && (o.stat.state == Missing <==> p.stat.state == Missing)
    && p.stat.state in {Missing, Active, Old}
  }

  ghost predicate KeepsData(j: Journal, k: Journal) {
    forall i :: i in j.recs && j.recs[i].handed.Some? ==> i in k.recs && k.recs[i].data == j.recs[i].data
  }

  /** The data of all versions, those that have not taken their name too. */
  ghost predicate KeepsAll(j: Journal, k: Journal) {
    forall i :: i in j.recs ==> i in k.recs && k.recs[i].data == j.recs[i].data
  }

  ghost predicate KeepsObjects(s: Sys, t: Sys) {
    forall id :: id in s.objs && s.objs[id].stat.state in {Missing, Active, Old} && id in t.objs ==> SameObject(s.objs[id], t.objs[id])
  }

  lemma MarkKeeps(c: Config, origin: Names, s: Sys, id: nat, header: Bytes, name: string)
    requires Inv(c, origin, s) && id in s.objs && s.objs[id].stat.state in {PreWrite, InWrite}
    ensures KeepsAll(s.journal, MarkNew(s, id, header, name).journal) && KeepsObjects(s, MarkNew(s, id, header, name))
    ensures forall q :: q in s.objs ==> q in MarkNew(s, id, header, name).objs
  {
    hide Inv, MarkNew;
    MarkNewShape(c, origin, s, id, header, name);
  }

  lemma HandKeeps(c: Config, origin: Names, s: Sys, rid: nat, id: nat, prev: nat, got: Option<Got>, ts: nat, header: Bytes, e: Event)
    requires Inv(c, origin, s) && rid in s.reqs && !Decided(s.reqs[rid]) && !s.reqs[rid].task.Get?
    requires s.reqs[rid].task.Put? ==> s.reqs[rid].task.id == id
    requires id in s.objs && s.objs[id].stat.state in {PreWrite, InWrite} && s.objs[id].stat.name == s.reqs[rid].name
    requires Sees(c, origin, s, s.reqs[rid].name, prev, got) && Handing(c, s, id, got, ts, header, e)
    requires Device.NoOtherEstimate(s.journal.recs, s.objs[id].inode, s.reqs[rid].name, ts)
    ensures var t := HandName(s, rid, id, prev, ts, header, e);
            KeepsAll(s.journal, t.journal) && KeepsObjects(s, t) && (forall q :: q in s.objs ==> q in t.objs)
  {
    hide Inv, MarkNew, HandName, Fold, Hands, Device.NoOtherEstimate, KeepsObjects, KeepsAll, PutJournal, PutNext, Sees, Handing, Retired;
    var m := MarkNew(s, id, header, s.reqs[rid].name);
    SeesKnown(c, origin, s, s.reqs[rid].name, prev, got);
    var t := HandName(s, rid, id, prev, ts, header, e);
    MarkKeeps(c, origin, s, id, header, s.reqs[rid].name);
    MarkNewShape(c, origin, s, id, header, s.reqs[rid].name);
    HandNameShape(c, origin, s, rid, id, prev, got, ts, header, e);
    if ts > s.objs[prev].stat.ts {
      HandNameHands(c, origin, s, rid, id, prev, got, ts, header, e);
      HandsKeepData(c, origin, s.journal, m, t, rid, id, prev, ts);
      PutKeepsObjects(s, t, id, prev, s.objs[prev]);
    } else {
      SameObjs(s, m, t);
    }
  }

  lemma HandsKeepData(c: Config, origin: Names, j: Journal, m: Sys, t: Sys, rid: nat, id: nat, prev: nat, ts: nat)
    requires Inv(c, origin, m) && Hands(c, origin, m, t, rid, id, prev, ts) && KeepsAll(j, m.journal)
    ensures KeepsAll(j, t.journal)
  {
    hide Inv, Hands, HandOver.PutEffect, SameExcept, JournalInv, MicroInv, ObjOk;
    HandsKnown(c, origin, m, t, rid, id, prev, ts);
    HandJournal(c, origin, m, t, rid, id, prev, ts);
  }

  lemma HandsKnown(c: Config, origin: Names, m: Sys, t: Sys, rid: nat, id: nat, prev: nat, ts: nat)
    requires Hands(c, origin, m, t, rid, id, prev, ts)
    ensures rid in m.reqs && id in m.objs && prev in m.objs && m.objs[id].inode in m.journal.recs
    ensures id in t.objs && prev in t.objs
  {
  }

  lemma SameObjs(s: Sys, m: Sys, t: Sys)
    requires KeepsObjects(s, m) && t.objs == m.objs
    ensures KeepsObjects(s, t)
  {
  }

  lemma PutKeepsObjects(s: Sys, t: Sys, id: nat, prev: nat, p: Obj)
    requires id in s.objs && s.objs[id].stat.state in {PreWrite, InWrite} && prev in s.objs && p == s.objs[prev] && id != prev
    requires id in t.objs && prev in t.objs && p.stat.state in {Missing, Active}
    requires t.objs == s.objs[prev := p.(stat := Retired(p.stat))][id := t.objs[id]]
    ensures KeepsObjects(s, t)
  {
  }

  lemma PostKeeps(c: Config, origin: Names, s: Sys, rid: nat, prev: nat, got: Option<Got>)
    requires Inv(c, origin, s) && rid in s.reqs && !Decided(s.reqs[rid]) && s.reqs[rid].task.Post?
    requires Sees(c, origin, s, s.reqs[rid].name, prev, got)
    ensures var t := DecidePost(c, s, rid, prev, got);
            KeepsAll(s.journal, t.journal) && KeepsObjects(s, t) && (forall q :: q in s.objs ==> q in t.objs)
  {
    hide Inv, JournalInv, Quiet, Fold, ObjOk, Metadata.Post;
    if Metadata.Post(got, s.reqs[rid].task.post).Rewrite? {
      PostReposts(c, origin, s, rid, prev, got);
      hide DecidePost;
    }
  }

  lemma DeleteKeeps(c: Config, origin: Names, s: Sys, rid: nat, prev: nat, got: Option<Got>, estimate: nat)
    requires Inv(c, origin, s) && rid in s.reqs && !Decided(s.reqs[rid]) && s.reqs[rid].task.Delete?
    requires Sees(c, origin, s, s.reqs[rid].name, prev, got) && prev in s.objs
    requires Device.FreshStamp(s.journal.recs, s.reqs[rid].name, estimate)
    requires Device.NoOtherEstimate(s.journal.recs, s.next, s.reqs[rid].name, s.reqs[rid].task.ts)
    ensures var t := DecideDelete(c, s, rid, prev, got, estimate);
            KeepsAll(s.journal, t.journal) && KeepsObjects(s, t) && (forall q :: q in s.objs ==> q in t.objs)
  {
    hide Inv, Fold, Sees, HandName, Device.FreshStamp;
    var r := s.reqs[rid];
    var t := Entered(s, r.name, estimate, true);
    EnteredOk(c, origin, s, r.name, estimate, true);
    EnteredSees(c, origin, s, r.name, estimate, prev, got);
    HandKeeps(c, origin, t, rid, s.next, prev, got, r.task.ts, c.encode(Metadata.Delete(got, r.task.ts, r.task.tombstone)),
              HandedName(rid, r.name, r.task.ts, true, [], TombstoneHeaders(r.task.ts, r.task.tombstone)));
  }

  lemma PutKeeps(c: Config, origin: Names, s: Sys, rid: nat, prev: nat, got: Option<Got>)
    requires Inv(c, origin, s) && rid in s.reqs && !Decided(s.reqs[rid]) && s.reqs[rid].task.Put? && s.reqs[rid].task.id in s.objs
    requires Sees(c, origin, s, s.reqs[rid].name, prev, got) && prev in s.objs
    requires Device.NoOtherEstimate(s.journal.recs, s.objs[s.reqs[rid].task.id].inode, s.reqs[rid].name, s.reqs[rid].task.ts)
    ensures var t := DecidePut(c, s, rid, prev, got);
            KeepsAll(s.journal, t.journal) && KeepsObjects(s, t) && (forall q :: q in s.objs ==> q in t.objs)
  {
    hide Inv, Fold, Sees, HandName, MetaCallFine, BodyCallFine, KeepsAll, KeepsObjects, Device.NoOtherEstimate, ObjOk;
    var r := s.reqs[rid];
    ReqIsFine(c, origin, s, rid);
    ObjOkOf(c, origin, s, r.task.id);
    ObjInode(s.journal, s.objs[r.task.id]);
    var e := HandedName(rid, r.name, r.task.ts, false, s.journal.recs[s.objs[r.task.id].inode].data, r.task.meta);
    HandKeeps(c, origin, s, rid, r.task.id, prev, got, r.task.ts, c.encode(Metadata.Put(got, r.task.meta)), e);
  }

  lemma DecideKeeps(c: Config, origin: Names, s: Sys, rid: nat, estimate: nat)
    requires Inv(c, origin, s) && Enabled(c, s, AdvanceStep(rid, estimate)) && Deciding(c, s, rid).Some?
    ensures var t := Advance(c, s, rid, estimate);
            KeepsAll(s.journal, t.journal) && KeepsObjects(s, t) && (forall q :: q in s.objs ==> q in t.objs)
  {
    hide Inv, WellFormed, Fold, Sees, StepReading, StepServing, StepOpening, HandName, Device.FreshStamp, Device.NoOtherEstimate, KeepsAll, KeepsObjects;
    var (prev, got) := Deciding(c, s, rid).value;
    DecidingSees(c, origin, s, rid);
    SeesKnown(c, origin, s, s.reqs[rid].name, prev, got);
    hide Deciding, DecidePut, DecideDelete, DecidePost;
    match s.reqs[rid].task {
      case Put(_, _, _) =>
        DevicePuts.PutsKnown(c, origin, s, rid);
        PutKeeps(c, origin, s, rid, prev, got);
      case Delete(_, _) => DeleteKeeps(c, origin, s, rid, prev, got, estimate);
      case Post(_) => PostKeeps(c, origin, s, rid, prev, got);
    }
  }

  lemma WriteKeeps(c: Config, origin: Names, s: Sys, id: nat, bytes: Bytes)
    requires Inv(c, origin, s) && id in s.objs && s.objs[id].stat.state in {PreWrite, InWrite}
    ensures KeepsData(s.journal, WriteChunk(s, id, bytes).journal) && KeepsObjects(s, WriteChunk(s, id, bytes))
  {
    hide Inv, JournalInv, Quiet, ObjOk, MicroInv, Wrote;
    InvBasics(c, origin, s);
    ObjOkOf(c, origin, s, id);
    WroteOk(s.journal, s.objs[id], bytes);
    WroteShape(s.journal, s.objs[id], bytes);
    WritingHolds(s.journal, s.objs[id]);
  }

  lemma ReleaseKeeps(c: Config, origin: Names, s: Sys, id: nat)
    requires Inv(c, origin, s) && id in s.objs
    ensures KeepsAll(s.journal, Release(s, id).journal) && KeepsObjects(s, Release(s, id))
  {
    hide Inv, JournalInv, Quiet, ObjOk, MicroInv;
    if s.objs[id].stat.state in {InWrite, Old} {
      InvBasics(c, origin, s);
      ObjOkOf(c, origin, s, id);
      RemovedOk(s.journal, s.objs[id]);
      hide Removed;
    }
  }

  lemma CreateKeeps(c: Config, origin: Names, s: Sys, name: string, estimate: nat)
    requires Inv(c, origin, s)
    ensures KeepsAll(s.journal, Create(s, name, estimate).journal) && KeepsObjects(s, Create(s, name, estimate))
  {
    hide Inv;
    NextIsNew(c, origin, s);
  }

  lemma LoadKeeps(c: Config, origin: Names, s: Sys, name: string)
    requires Inv(c, origin, s) && Enabled(c, s, LoadStep(name))
    ensures KeepsAll(s.journal, SearchLoad(s, name).journal) && KeepsObjects(s, SearchLoad(s, name))
  {
    hide Inv;
    InvParts(c, origin, s);
    SlotIsFine(s, name);
  }

  lemma AdvanceKeeps(c: Config, origin: Names, s: Sys, rid: nat, estimate: nat)
    requires Inv(c, origin, s) && Enabled(c, s, AdvanceStep(rid, estimate)) && Deciding(c, s, rid).None?
    ensures var t := Advance(c, s, rid, estimate);
            KeepsAll(s.journal, t.journal) && KeepsObjects(s, t) && (forall q :: q in s.objs ==> q in t.objs)
  {
    hide Inv, Advance, WellFormed, Separate, Waiting, Deciding;
    AdvanceShape(c, origin, s, rid, estimate);
    AdvanceJournal(c, s, rid, estimate);
  }

  lemma AdvanceJournal(c: Config, s: Sys, rid: nat, estimate: nat)
    requires Enabled(c, s, AdvanceStep(rid, estimate)) && Deciding(c, s, rid).None?
    ensures Advance(c, s, rid, estimate).journal == s.journal
  {
    hide WellFormed, StepReading, StepServing, Deciding, Separate, Waiting;
    match s.reqs[rid].pc {
      case Reading(_, _, _, _) => ReadingLasts(c, s, rid);
      case Serving(_, _, _, _, _) => ServingLasts(c, s, rid);
      case _ =>
    }
  }

  /** No step changes the data of a version that has taken its name, nor takes away or
      replaces the Object a request reads. */
  lemma StepKeeps(c: Config, origin: Names, s: Sys, step: Step)
    requires Inv(c, origin, s) && Enabled(c, s, step)
    ensures var t := Do(c, s, step); KeepsData(s.journal, t.journal) && KeepsObjects(s, t)
    ensures !step.WriteStep? ==> KeepsAll(s.journal, Do(c, s, step).journal)
    ensures forall rid, id :: rid in s.reqs && id in Pins(s.reqs[rid]) && id in s.objs ==> id in Do(c, s, step).objs
  {
    hide Inv, WellFormed, Advance, Separate, WriteChunk, Release, Pins, Waiting, Deciding, SearchLoad, KeepsObjects, Create;
    match step
    case AdvanceStep(rid, estimate) =>
      if Deciding(c, s, rid).Some? { DecideKeeps(c, origin, s, rid, estimate); } else { AdvanceKeeps(c, origin, s, rid, estimate); }
    case WriteStep(id, bytes) =>
      WriteKeeps(c, origin, s, id, bytes);
      StillThere(c, origin, s, step);
    case ReleaseStep(id) =>
      ReleaseKeeps(c, origin, s, id);
      StillThere(c, origin, s, step);
    case CreateStep(name, estimate) =>
      CreateKeeps(c, origin, s, name, estimate);
      StillThere(c, origin, s, step);
    case LoadStep(name) =>
      LoadKeeps(c, origin, s, name);
      StillThere(c, origin, s, step);
    case _ => Untouched(s, Do(c, s, step));
  }

  lemma Untouched(s: Sys, t: Sys)
    requires t.objs == s.objs
    ensures KeepsObjects(s, t)
  {
  }

  lemma StillThere(c: Config, origin: Names, s: Sys, step: Step)
    requires Inv(c, origin, s) && Enabled(c, s, step) && !step.AdvanceStep?
    ensures forall rid, id :: rid in s.reqs && id in Pins(s.reqs[rid]) && id in s.objs ==> id in Do(c, s, step).objs
  {
    hide Inv, WellFormed, Wrote, Removed;
  }

  // ----- what a GET has seen -----

  /** At `a` the map held the Object that the request reads at `b`. */
  ghost predicate SawAt(a: Sys, b: Sys, rid: nat, id: nat) {
    && rid in a.reqs && !a.reqs[rid].pc.Finished? && rid in b.reqs && id in a.objs && id in b.objs
    && var name := b.reqs[rid].name;
    && name in a.names && a.names[name] == Slot.Found(id)
    && a.objs[id].stat.name == name && a.objs[id].stat.state in {Missing, Active}
    && SameObject(a.objs[id], b.objs[id])
    && (a.objs[id].stat.state == Active ==>
          var i := a.objs[id].inode;
          && i in a.journal.recs && a.journal.recs[i].handed.Some?
          && i in b.journal.recs && b.journal.recs[i].handed.Some? && b.journal.recs[i].data == a.journal.recs[i].data)
  }

  ghost predicate Saw(states: seq<Sys>, b: Sys, rid: nat, id: nat) {
    exists m :: 0 <= m < |states| && SawAt(states[m], b, rid, id)
  }

  /** The request was running at `a`, and its name showed `v` there. */
  ghost predicate ShownAt(a: Sys, rid: nat, name: string, v: Option<Version>) {
    && rid in a.reqs && !a.reqs[rid].pc.Finished? && |a.journal.stores| > 0
    && Shows(Virtual(a.journal), name) == v
  }

  /** While the request was running, its name showed `v` at some moment. */
  ghost predicate Shown(states: seq<Sys>, rid: nat, name: string, v: Option<Version>) {
    exists m :: 0 <= m < |states| && ShownAt(states[m], rid, name, v)
  }

  ghost predicate BodyOf(v: Version, body: Bytes, start: nat, stop: Option<nat>) {
    !v.deleted && body == Slice(v.data, start, stop.GetOr(|v.data|))
  }

  /** While the request was running, its name came to show a newer version. */
  ghost predicate Replaced(states: seq<Sys>, rid: nat, name: string) {
    exists m, k, v, w :: ReplacedAt(states, rid, name, m, k, v, w)
  }

  ghost predicate ReplacedAt(states: seq<Sys>, rid: nat, name: string, m: nat, k: nat, v: Version, w: Version) {
    && m <= k < |states| && v.ts < w.ts
    && ShownAt(states[m], rid, name, Some(v)) && ShownAt(states[k], rid, name, Some(w))
  }

  /** What a GET's progress or answer says of the past. */
  ghost predicate GetOk(states: seq<Sys>, b: Sys, rid: nat)
    requires rid in b.reqs && b.reqs[rid].task.Get?
  {
    var r := b.reqs[rid];
    match r.pc
    case Opened(id) => Saw(states, b, rid, id)
    case Reading(id, _, _, _) => Saw(states, b, rid, id)
    case Serving(id, _, _, _, _) => Saw(states, b, rid, id) && id in b.objs && !b.objs[id].stat.deleted
    case Finished(NotFound) => Shown(states, rid, r.name, None)
    case Finished(Deleted) => exists v: Version :: v.deleted && Shown(states, rid, r.name, Some(v))
    case Finished(Served(_, body)) =>
      exists v: Version :: BodyOf(v, body, r.task.start, r.task.stop) && Shown(states, rid, r.name, Some(v))
    case Finished(Failed) => Replaced(states, rid, r.name)
    case Opening => true
    case _ => false
  }

  lemma SawFirst(c: Config, origin: Names, states: seq<Sys>, s: Sys, rid: nat)
    requires Inv(c, origin, s) && |states| > 0 && Last(states) == s
    requires rid in s.reqs && !s.reqs[rid].pc.Finished? && s.reqs[rid].name in s.names && s.names[s.reqs[rid].name].Found?
    ensures s.names[s.reqs[rid].name].id in s.objs && Saw(states, s, rid, s.names[s.reqs[rid].name].id)
  {
    hide Inv;
    SlotState(c, origin, s, s.reqs[rid].name);
    PinnedFacts(c, origin, s, s.names[s.reqs[rid].name].id);
    assert SawAt(states[|states| - 1], s, rid, s.names[s.reqs[rid].name].id);
  }

  lemma SawStays(c: Config, origin: Names, states: seq<Sys>, s: Sys, t: Sys, rid: nat, id: nat)
    requires Inv(c, origin, s) && Inv(c, origin, t) && Saw(states, s, rid, id)
    requires KeepsData(s.journal, t.journal) && KeepsObjects(s, t) && id in t.objs
    requires rid in t.reqs && rid in s.reqs && t.reqs[rid].name == s.reqs[rid].name
    ensures Saw(states, t, rid, id)
  {
    hide Inv;
    var m :| 0 <= m < |states| && SawAt(states[m], s, rid, id);
    PinnedFacts(c, origin, t, id);
    assert SawAt(states[m], t, rid, id);
  }

  lemma ShownLater(states: seq<Sys>, t: Sys, rid: nat, name: string, v: Option<Version>)
    requires Shown(states, rid, name, v)
    ensures Shown(states + [t], rid, name, v)
  {
    var m :| 0 <= m < |states| && ShownAt(states[m], rid, name, v);
    assert (states + [t])[m] == states[m];
  }

  lemma ReplacedLater(states: seq<Sys>, t: Sys, rid: nat, name: string)
    requires Replaced(states, rid, name)
    ensures Replaced(states + [t], rid, name)
  {
    hide ShownAt;
    var m, k, v, w :| ReplacedAt(states, rid, name, m, k, v, w);
    assert ReplacedAt(states + [t], rid, name, m, k, v, w);
  }

  lemma SawLater(states: seq<Sys>, t: Sys, b: Sys, rid: nat, id: nat)
    requires Saw(states, b, rid, id)
    ensures Saw(states + [t], b, rid, id)
  {
    var m :| 0 <= m < |states| && SawAt(states[m], b, rid, id);
    assert (states + [t])[m] == states[m];
  }

  lemma GetLater(states: seq<Sys>, b: Sys, rid: nat)
    requires rid in b.reqs && b.reqs[rid].task.Get? && GetOk(states, b, rid)
    ensures GetOk(states + [b], b, rid)
  {
    hide Saw, Shown, BodyOf;
    var r := b.reqs[rid];
    match r.pc
    case Opened(id) => SawLater(states, b, b, rid, id);
    case Reading(id, _, _, _) => SawLater(states, b, b, rid, id);
    case Serving(id, _, _, _, _) => SawLater(states, b, b, rid, id);
    case Finished(NotFound) => ShownLater(states, b, rid, r.name, None);
    case Finished(Deleted) =>
      var v: Version :| v.deleted && Shown(states, rid, r.name, Some(v));
      ShownLater(states, b, rid, r.name, Some(v));
    case Finished(Served(_, body)) =>
      var v: Version :| BodyOf(v, body, r.task.start, r.task.stop) && Shown(states, rid, r.name, Some(v));
      ShownLater(states, b, rid, r.name, Some(v));
    case Finished(Failed) => ReplacedLater(states, b, rid, r.name);
    case _ =>
  }

  // ----- from what it saw to what it answers -----

  lemma SawMissing(c: Config, origin: Names, states: seq<Sys>, s: Sys, rid: nat, id: nat)
    requires forall k :: 0 <= k < |states| ==> Inv(c, origin, states[k])
    requires Saw(states, s, rid, id) && id in s.objs && s.objs[id].stat.state == Missing
    ensures rid in s.reqs && Shown(states, rid, s.reqs[rid].name, None)
  {
    hide Inv, Shows;
    var m :| 0 <= m < |states| && SawAt(states[m], s, rid, id);
    InvBasics(c, origin, states[m]);
    SlotState(c, origin, states[m], s.reqs[rid].name);
    ShowsMissing(states[m].journal, s.reqs[rid].name);
    assert ShownAt(states[m], rid, s.reqs[rid].name, None);
  }

  lemma SawVersion(c: Config, origin: Names, states: seq<Sys>, s: Sys, rid: nat, id: nat) returns (v: Version)
    requires forall k :: 0 <= k < |states| ==> Inv(c, origin, states[k])
    requires Saw(states, s, rid, id) && id in s.objs && s.objs[id].stat.state != Missing
    ensures rid in s.reqs && Shown(states, rid, s.reqs[rid].name, Some(v))
    ensures s.objs[id].inode in s.journal.recs && v.data == s.journal.recs[s.objs[id].inode].data && v.deleted == s.objs[id].stat.deleted
  {
    hide Inv, Shows, ObjOk, MicroInv, JournalInv;
    var m :| 0 <= m < |states| && SawAt(states[m], s, rid, id);
    InvBasics(c, origin, states[m]);
    ObjOkOf(c, origin, states[m], id);
    ShowsActive(states[m].journal, states[m].objs[id]);
    var o := states[m].objs[id];
    v := Version(o.stat.ts, o.stat.deleted, states[m].journal.recs[o.inode].data, states[m].journal.recs[o.inode].header);
    assert ShownAt(states[m], rid, s.reqs[rid].name, Some(v));
  }

  /** A retired Object's name shows a newer version. */
  lemma RetiredShows(c: Config, origin: Names, s: Sys, id: nat) returns (w: Version)
    requires Inv(c, origin, s) && id in s.objs && s.objs[id].stat.state == Old
    ensures |s.journal.stores| > 0 && Shows(Virtual(s.journal), s.objs[id].stat.name) == Some(w) && w.ts > s.objs[id].stat.ts
  {
    InvBasics(c, origin, s);
    ObjOkOf(c, origin, s, id);
    hide Inv;
    w := HolderNewer(s.journal, s.objs[id]);
  }

  /** The entry under a name says what is recorded of it. */
  lemma HolderStamp(j: Journal, name: string)
    requires JournalInv(j) && Ordinary(name) in Virtual(j)
    ensures var e := Virtual(j)[Ordinary(name)];
            && e.attrs.Some? && e.inode in j.recs && j.recs[e.inode].name == name
            && j.recs[e.inode].ts == Some(e.attrs.value.ts)
  {
    hide NeverHeld, Newest, Journals.Distinct;
    var at, k := Ordinary(name), |j.stores| - 1;
    assert EntryTidy(at, Virtual(j)[at], j.recs);
    VisibleSound(j, k, at);
    assert RecOk(j, Virtual(j)[at].inode);
  }

  lemma HolderNewer(j: Journal, o: Obj) returns (w: Version)
    requires JournalInv(j) && MicroInv(j) && ObjOk(j, o) && o.stat.state == Old
    ensures Shows(Virtual(j), o.stat.name) == Some(w) && w.ts > o.stat.ts
  {
    var at := Ordinary(o.stat.name);
    HandOver.OldNewest(j, o.inode);
    hide JournalInv, MicroInv;
    HolderStamp(j, o.stat.name);
    var e := Virtual(j)[at];
    if e.inode == o.inode { OneVirtualPlace(j, at, AddressOf(o.stat)); }
    if e.attrs.value.ts == o.stat.ts { SameStamp(j, e.inode, o.inode, o.stat.ts); }
    w := Version(e.attrs.value.ts, e.attrs.value.deleted, e.data, e.header);
  }

  lemma SawReplaced(c: Config, origin: Names, states: seq<Sys>, s: Sys, rid: nat, id: nat)
    requires forall k :: 0 <= k < |states| ==> Inv(c, origin, states[k])
    requires |states| > 0 && Last(states) == s && rid in s.reqs && !s.reqs[rid].pc.Finished?
    requires Saw(states, s, rid, id) && id in s.objs && s.objs[id].stat.state == Old && s.objs[id].stat.name == s.reqs[rid].name
    ensures Replaced(states, rid, s.reqs[rid].name)
  {
    hide Inv, Shows, ObjOk, MicroInv, JournalInv;
    var name := s.reqs[rid].name;
    var m :| 0 <= m < |states| && SawAt(states[m], s, rid, id);
    InvBasics(c, origin, states[m]);
    ObjOkOf(c, origin, states[m], id);
    ShowsActive(states[m].journal, states[m].objs[id]);
    var o := states[m].objs[id];
    var v := Version(o.stat.ts, o.stat.deleted, states[m].journal.recs[o.inode].data, states[m].journal.recs[o.inode].header);
    assert s == states[|states| - 1];
    var w := RetiredShows(c, origin, s, id);
    assert ReplacedAt(states, rid, name, m, |states| - 1, v, w);
  }

  /** The step ends a read whose check fails. */
  predicate Misses(s: Sys, pc: Pc)
    requires WellFormed(s) && (pc.Reading? || pc.Serving? ==> pc.id in s.objs)
  {
    match pc
    case Reading(id, _, _, MetaCheck(_, at, header)) => !(header.Some? && ChecksOut(s, id, at))
    case Serving(id, _, _, _, BodyCheck(at, bytes)) => !(bytes.Some? && ChecksOut(s, id, at))
    case _ => false
  }

  lemma FailedMisses(c: Config, s: Sys, rid: nat)
    requires WellFormed(s) && rid in s.reqs && (s.reqs[rid].pc.Reading? || (s.reqs[rid].pc.Serving? && s.reqs[rid].task.Get?))
    requires s.reqs[rid].pc.id in s.objs
    requires var t := if s.reqs[rid].pc.Reading? then StepReading(c, s, rid) else StepServing(c, s, rid);
             rid in t.reqs && t.reqs[rid].pc == Finished(Failed)
    ensures Misses(s, s.reqs[rid].pc)
  {
    hide WellFormed, ChecksOut, Slice, Visible, AddressOf, Pins;
  }

  lemma AtAddress(c: Config, s: Sys, rid: nat)
    requires s.applied < |s.journal.stores| && rid in s.reqs && ReqFine(c, s, rid)
    requires var pc := s.reqs[rid].pc; (pc.Reading? && pc.call.MetaCheck?) || (pc.Serving? && pc.bodyCall.BodyCheck?)
    ensures var pc := s.reqs[rid].pc;
            && ReadsFrom(s, s.reqs[rid], pc.id) && Arrived(s.journal, s.objs[pc.id].inode, s.applied)
            && Addresses(s.objs[pc.id].stat, if pc.Reading? then pc.call.at else pc.bodyCall.at)
            && GoneOnly(s.objs[pc.id], if pc.Reading? then pc.call.header else pc.bodyCall.bytes)
  {
    hide Slice;
  }

  /** A read gives up only on an Object that has been retired. */
  lemma GivesUp(c: Config, origin: Names, s: Sys, rid: nat)
    requires Inv(c, origin, s) && WellFormed(s) && rid in s.reqs && (s.reqs[rid].pc.Reading? || s.reqs[rid].pc.Serving?)
    requires s.reqs[rid].pc.id in s.objs && Misses(s, s.reqs[rid].pc)
    ensures var id := s.reqs[rid].pc.id; s.objs[id].stat.state == Old && s.objs[id].stat.name == s.reqs[rid].name
  {
    hide Inv, ReqFine, Readable, WellFormed, Addresses;
    var id := s.reqs[rid].pc.id;
    ReqIsFine(c, origin, s, rid);
    AtAddress(c, s, rid);
    if s.objs[id].stat.state == Active {
      IsReadable(c, origin, s, id);
      HolderChecks(s, id, if s.reqs[rid].pc.Reading? then s.reqs[rid].pc.call.at else s.reqs[rid].pc.bodyCall.at);
    }
  }

  lemma ReadingLeads(c: Config, s: Sys, rid: nat)
    requires WellFormed(s) && rid in s.reqs && s.reqs[rid].pc.Reading? && s.reqs[rid].task.Get? && s.reqs[rid].pc.id in s.objs
    ensures rid in StepReading(c, s, rid).reqs
    ensures var pc := StepReading(c, s, rid).reqs[rid].pc;
            var id := s.reqs[rid].pc.id;
            || (pc.Reading? && pc.id == id) || pc == Finished(Failed)
            || (s.objs[id].stat.deleted && pc == Finished(Deleted))
            || (!s.objs[id].stat.deleted && ((pc.Serving? && pc.id == id) || (pc.Finished? && pc.outcome.Served? && pc.outcome.inode == s.objs[id].inode)))
  {
    hide WellFormed, ChecksOut, Slice, Visible, AddressOf, Pins;
  }

  lemma ServingLeads(c: Config, s: Sys, rid: nat)
    requires WellFormed(s) && rid in s.reqs && s.reqs[rid].pc.Serving? && s.reqs[rid].task.Get? && s.reqs[rid].pc.id in s.objs
    ensures rid in StepServing(c, s, rid).reqs
    ensures var pc := StepServing(c, s, rid).reqs[rid].pc;
            var id := s.reqs[rid].pc.id;
            || (pc.Serving? && pc.id == id) || pc == Finished(Failed)
            || (pc.Finished? && pc.outcome.Served? && pc.outcome.inode == s.objs[id].inode)
  {
    hide WellFormed, ChecksOut, Slice, Visible, AddressOf, Pins, ReadSize;
  }

  lemma ServedShown(c: Config, origin: Names, states: seq<Sys>, s: Sys, t: Sys, rid: nat, id: nat)
    requires forall k :: 0 <= k < |states| ==> Inv(c, origin, states[k])
    requires Saw(states, s, rid, id) && id in s.objs && s.objs[id].stat.state != Missing && !s.objs[id].stat.deleted
    requires Inv(c, origin, t) && t.journal == s.journal && rid in t.reqs && rid in s.reqs
    requires t.reqs[rid].name == s.reqs[rid].name && t.reqs[rid].task.Get?
    requires t.reqs[rid].pc.Finished? && t.reqs[rid].pc.outcome.Served? && t.reqs[rid].pc.outcome.inode == s.objs[id].inode
    ensures GetOk(states, t, rid)
  {
    hide Inv, Shown, Saw, Slice;
    var v := SawVersion(c, origin, states, s, rid, id);
    ReqIsFine(c, origin, t, rid);
    assert BodyOf(v, t.reqs[rid].pc.outcome.body, t.reqs[rid].task.start, t.reqs[rid].task.stop);
  }

  lemma GetReads(c: Config, origin: Names, states: seq<Sys>, s: Sys, t: Sys, rid: nat, id: nat)
    requires forall k :: 0 <= k < |states| ==> Inv(c, origin, states[k])
    requires Inv(c, origin, s) && Inv(c, origin, t) && WellFormed(s) && rid in s.reqs && s.reqs[rid].task.Get?
    requires (s.reqs[rid].pc.Reading? && t == StepReading(c, s, rid)) || (s.reqs[rid].pc.Serving? && t == StepServing(c, s, rid))
    requires s.reqs[rid].pc.id == id && id in s.objs && s.objs[id].stat.state != Missing
    requires GetOk(states, s, rid) && |states| > 0 && Last(states) == s
    ensures rid in t.reqs && t.reqs[rid].task.Get? && GetOk(states, t, rid)
  {
    hide Inv, WellFormed, StepReading, StepServing, Saw, Shown, BodyOf, Replaced;
    if s.reqs[rid].pc.Reading? {
      ReadingLeads(c, s, rid);
      ReadingLasts(c, s, rid);
      ReadingUndecided(c, s, rid);
    } else {
      ServingLeads(c, s, rid);
      ServingLasts(c, s, rid);
      ServingUndecided(c, s, rid);
    }
    Untouched(s, t);
    var pc := t.reqs[rid].pc;
    if pc.Reading? || pc.Serving? {
      SawStays(c, origin, states, s, t, rid, id);
    } else if pc == Finished(Deleted) {
      var v := SawVersion(c, origin, states, s, rid, id);
    } else if pc.outcome.Served? {
      ServedShown(c, origin, states, s, t, rid, id);
    } else if pc == Finished(Failed) {
      FailedMisses(c, s, rid);
      GivesUp(c, origin, s, rid);
      SawReplaced(c, origin, states, s, rid, id);
    }
  }

  lemma GetOpens(c: Config, origin: Names, states: seq<Sys>, s: Sys, t: Sys, rid: nat)
    requires Inv(c, origin, s) && Inv(c, origin, t) && |states| > 0 && Last(states) == s
    requires WellFormed(s) && rid in s.reqs && s.reqs[rid].task.Get? && s.reqs[rid].pc == Opening && t == StepOpening(s, rid)
    requires s.reqs[rid].name in s.names ==> s.names[s.reqs[rid].name].Found?
    ensures rid in t.reqs && t.reqs[rid].task.Get? && GetOk(states, t, rid)
  {
    hide Inv, WellFormed, Saw, Shown, BodyOf;
    if s.reqs[rid].name in s.names {
      SawFirst(c, origin, states, s, rid);
      Untouched(s, t);
      SawStays(c, origin, states, s, t, rid, s.names[s.reqs[rid].name].id);
    }
  }

  lemma GetAdvances(c: Config, origin: Names, states: seq<Sys>, s: Sys, rid: nat, estimate: nat)
    requires forall k :: 0 <= k < |states| ==> Inv(c, origin, states[k])
    requires |states| > 0 && Last(states) == s && Inv(c, origin, s) && Enabled(c, s, AdvanceStep(rid, estimate))
    requires Inv(c, origin, Advance(c, s, rid, estimate)) && s.reqs[rid].task.Get? && GetOk(states, s, rid)
    ensures var t := Advance(c, s, rid, estimate);
            rid in t.reqs && t.reqs[rid].task.Get? && GetOk(states, t, rid)
  {
    hide Inv, WellFormed, StepReading, StepServing, StepOpening, Saw, Shown, BodyOf;
    var t := Advance(c, s, rid, estimate);
    ReqIsFine(c, origin, s, rid);
    hide MetaCallFine, BodyCallFine, Slice;
    match s.reqs[rid].pc
    case Opening => GetOpens(c, origin, states, s, t, rid);
    case Opened(id) =>
      if s.objs[id].stat.state == Missing {
        SawMissing(c, origin, states, s, rid, id);
      } else {
        Untouched(s, t);
        SawStays(c, origin, states, s, t, rid, id);
      }
    case Reading(id, _, _, _) => GetReads(c, origin, states, s, t, rid, id);
    case Serving(id, _, _, _, _) => GetReads(c, origin, states, s, t, rid, id);
    case _ =>
  }

  /** Someone else's step. */
  lemma GetStays(c: Config, origin: Names, states: seq<Sys>, s: Sys, t: Sys, rid: nat)
    requires Inv(c, origin, s) && Inv(c, origin, t) && rid in s.reqs && s.reqs[rid].task.Get? && GetOk(states, s, rid)
    requires KeepsData(s.journal, t.journal) && KeepsObjects(s, t)
    requires forall id :: id in Pins(s.reqs[rid]) && id in s.objs ==> id in t.objs
    requires rid in t.reqs && t.reqs[rid] == s.reqs[rid]
    ensures GetOk(states, t, rid)
  {
    hide Inv, Shown, BodyOf;
    match s.reqs[rid].pc
    case Opened(id) => SawStays(c, origin, states, s, t, rid, id);
    case Reading(id, _, _, _) => SawStays(c, origin, states, s, t, rid, id);
    case Serving(id, _, _, _, _) =>
      GetServed(c, origin, s, rid, id);
      SawStays(c, origin, states, s, t, rid, id);
    case _ =>
  }

  lemma GetServed(c: Config, origin: Names, s: Sys, rid: nat, id: nat)
    requires Inv(c, origin, s) && rid in s.reqs && s.reqs[rid].pc.Serving? && s.reqs[rid].pc.id == id
    ensures id in s.objs && s.objs[id].stat.state in {Active, Old}
  {
    hide Inv;
    ReqIsFine(c, origin, s, rid);
  }

  /** The requests other than the one that takes the step stay as they are. */
  lemma OthersSame(c: Config, origin: Names, s: Sys, step: Step, rid: nat)
    requires Inv(c, origin, s) && Enabled(c, s, step) && rid in s.reqs && (step.AdvanceStep? ==> step.rid != rid)
    ensures rid in Do(c, s, step).reqs && Do(c, s, step).reqs[rid] == s.reqs[rid]
  {
    hide Inv, WellFormed, Advance, Separate, WriteChunk, Release, Pins, Waiting, Deciding;
    if step.AdvanceStep? {
      if Deciding(c, s, step.rid).Some? {
        DecideDecides(c, origin, s, step.rid, step.estimate);
        hide Fold, Reply, Matches;
      } else {
        AdvanceShape(c, origin, s, step.rid, step.estimate);
      }
    } else {
      OtherLasts(c, origin, s, step);
    }
  }

  /** A request that is new has only begun. */
  lemma NewRequest(c: Config, origin: Names, s: Sys, step: Step, rid: nat)
    requires Inv(c, origin, s) && Enabled(c, s, step) && rid in Do(c, s, step).reqs && rid !in s.reqs
    ensures Do(c, s, step).reqs[rid].pc == Opening
  {
    hide Inv, WellFormed, Advance, Separate, Wrote, Removed, Pins, Waiting, Deciding;
    if step.AdvanceStep? {
      if Deciding(c, s, step.rid).Some? {
        DecideDecides(c, origin, s, step.rid, step.estimate);
        hide Fold, Reply, Matches;
      } else {
        AdvanceShape(c, origin, s, step.rid, step.estimate);
      }
    }
  }

  lemma GetStep(c: Config, origin: Names, states: seq<Sys>, s: Sys, step: Step, rid: nat)
    requires forall k :: 0 <= k < |states| ==> Inv(c, origin, states[k])
    requires |states| > 0 && Last(states) == s && Enabled(c, s, step)
    requires rid in Do(c, s, step).reqs && Do(c, s, step).reqs[rid].task.Get?
    requires rid in s.reqs && s.reqs[rid].task.Get? ==> GetOk(states, s, rid)
    ensures GetOk(states, Do(c, s, step), rid)
  {
    hide Inv, WellFormed, Advance, Separate, WriteChunk, Release, Pins, Waiting, Deciding, GetOk, Do;
    var t := Do(c, s, step);
    assert s == states[|states| - 1];
    StepOk(c, origin, s, step);
    if rid !in s.reqs {
      NewRequest(c, origin, s, step, rid);
      NewGet(states, t, rid);
    } else if step.AdvanceStep? && step.rid == rid {
      OwnGet(c, origin, states, s, step, rid);
    } else {
      OthersSame(c, origin, s, step, rid);
      StepKeeps(c, origin, s, step);
      GetStays(c, origin, states, s, t, rid);
    }
  }

  lemma NewGet(states: seq<Sys>, t: Sys, rid: nat)
    requires rid in t.reqs && t.reqs[rid].task.Get? && t.reqs[rid].pc == Opening
    ensures GetOk(states, t, rid)
  {
  }

  lemma OwnGet(c: Config, origin: Names, states: seq<Sys>, s: Sys, step: Step, rid: nat)
    requires forall k :: 0 <= k < |states| ==> Inv(c, origin, states[k])
    requires |states| > 0 && Last(states) == s && Inv(c, origin, s) && Enabled(c, s, step) && step.AdvanceStep? && step.rid == rid
    requires Inv(c, origin, Do(c, s, step)) && rid in Do(c, s, step).reqs && Do(c, s, step).reqs[rid].task.Get?
    requires s.reqs[rid].task.Get? ==> GetOk(states, s, rid)
    ensures GetOk(states, Do(c, s, step), rid)
  {
    hide Inv, WellFormed, Advance, Separate, GetOk, Deciding;
    TaskSame(c, origin, s, rid, step.estimate);
    GetAdvances(c, origin, states, s, rid, step.estimate);
  }

  lemma TaskSame(c: Config, origin: Names, s: Sys, rid: nat, estimate: nat)
    requires Inv(c, origin, s) && Enabled(c, s, AdvanceStep(rid, estimate))
    ensures rid in Advance(c, s, rid, estimate).reqs && Advance(c, s, rid, estimate).reqs[rid].task == s.reqs[rid].task
  {
    hide Inv, WellFormed, Advance, Separate, Deciding;
    if Deciding(c, s, rid).Some? {
      DecideDecides(c, origin, s, rid, estimate);
      hide Fold, Reply, Matches;
    } else {
      AdvanceUndecided(c, s, rid, estimate);
    }
  }

  // ----- whole runs -----

  lemma {:induction false} RunGets(c: Config, origin: Names, states: seq<Sys>, steps: seq<Step>, n: nat)
    requires Run(c, origin, states, steps) && n < |states|
    ensures forall rid :: rid in states[n].reqs && states[n].reqs[rid].task.Get? ==> GetOk(states[..n + 1], states[n], rid)
    decreases n
  {
    hide Inv, Initial, Enabled, Do, GetOk;
    if n == 0 {
      InitialRequests(c, origin, states[0]);
    } else {
      RunGets(c, origin, states, steps, n - 1);
      forall k | 0 <= k < n ensures Inv(c, origin, states[k]) {
        RunKeeps(c, origin, states, steps, k);
      }
      forall rid | rid in states[n].reqs && states[n].reqs[rid].task.Get? ensures GetOk(states[..n + 1], states[n], rid) {
        GetStep(c, origin, states[..n], states[n - 1], steps[n - 1], rid);
        GetLater(states[..n], states[n], rid);
        assert states[..n] + [states[n]] == states[..n + 1];
      }
    }
  }

  lemma InitialRequests(c: Config, origin: Names, s: Sys)
    requires Initial(c, origin, s)
    ensures s.reqs == map[]
  {
  }

  // ----- when a put, delete or POST fails -----

  /** What the progress of one says of the past. It fails by its decision, or
      because the metadata it reads is of an Object that has been retired. */
  ghost predicate WriteOk(states: seq<Sys>, b: Sys, rid: nat)
    requires rid in b.reqs && !b.reqs[rid].task.Get?
  {
    var r := b.reqs[rid];
    match r.pc
    case Reading(id, _, _, _) => Saw(states, b, rid, id)
    case Finished(Failed) => HasEvent(b, rid) || Replaced(states, rid, r.name)
    case _ => true
  }

  lemma WriteLater(states: seq<Sys>, b: Sys, rid: nat)
    requires rid in b.reqs && !b.reqs[rid].task.Get? && WriteOk(states, b, rid)
    ensures WriteOk(states + [b], b, rid)
  {
    hide Saw, Replaced, HasEvent;
    match b.reqs[rid].pc
    case Reading(id, _, _, _) => SawLater(states, b, b, rid, id);
    case Finished(Failed) => if Replaced(states, rid, b.reqs[rid].name) { ReplacedLater(states, b, rid, b.reqs[rid].name); }
    case _ =>
  }

  lemma EventStays(s: Sys, t: Sys, rid: nat)
    requires HasEvent(s, rid) && s.decided <= t.decided
    ensures HasEvent(t, rid)
  {
    var i :| 0 <= i < |s.decided| && s.decided[i].rid == rid;
    assert t.decided[i] == s.decided[i];
  }

  lemma WriteReadsOn(c: Config, s: Sys, rid: nat)
    requires WellFormed(s) && rid in s.reqs && s.reqs[rid].pc.Reading? && !s.reqs[rid].task.Get? && s.reqs[rid].pc.id in s.objs
    ensures rid in StepReading(c, s, rid).reqs
    ensures var pc := StepReading(c, s, rid).reqs[rid].pc;
            (pc.Reading? && pc.id == s.reqs[rid].pc.id) || pc == Finished(Failed) || pc == Opening
  {
    hide WellFormed, ChecksOut, Slice, Visible, AddressOf, Pins;
  }

  lemma WriteReads(c: Config, origin: Names, states: seq<Sys>, s: Sys, t: Sys, rid: nat)
    requires forall k :: 0 <= k < |states| ==> Inv(c, origin, states[k])
    requires Inv(c, origin, s) && Inv(c, origin, t) && WellFormed(s) && |states| > 0 && Last(states) == s
    requires rid in s.reqs && !s.reqs[rid].task.Get? && s.reqs[rid].pc.Reading? && t == StepReading(c, s, rid)
    requires WriteOk(states, s, rid)
    ensures rid in t.reqs && !t.reqs[rid].task.Get? && WriteOk(states, t, rid)
  {
    hide Inv, WellFormed, StepReading, Saw, Replaced, HasEvent;
    var id := s.reqs[rid].pc.id;
    ReqIsFine(c, origin, s, rid);
    WriteReadsOn(c, s, rid);
    ReadingLasts(c, s, rid);
    ReadingUndecided(c, s, rid);
    Untouched(s, t);
    if t.reqs[rid].pc.Reading? {
      SawStays(c, origin, states, s, t, rid, id);
    } else if t.reqs[rid].pc == Finished(Failed) {
      FailedMisses(c, s, rid);
      GivesUp(c, origin, s, rid);
      SawReplaced(c, origin, states, s, rid, id);
    }
  }

  lemma WriteOpens(c: Config, origin: Names, states: seq<Sys>, s: Sys, t: Sys, rid: nat)
    requires Inv(c, origin, s) && Inv(c, origin, t) && |states| > 0 && Last(states) == s
    requires WellFormed(s) && rid in s.reqs && !s.reqs[rid].task.Get? && s.reqs[rid].pc == Opening && t == StepOpening(s, rid)
    requires s.reqs[rid].name in s.names ==> s.names[s.reqs[rid].name].Found?
    ensures rid in t.reqs && !t.reqs[rid].task.Get? && WriteOk(states, t, rid)
  {
    hide Inv, WellFormed, Saw, Replaced, HasEvent;
    if s.reqs[rid].name in s.names {
      SawFirst(c, origin, states, s, rid);
      Untouched(s, t);
      SawStays(c, origin, states, s, t, rid, s.names[s.reqs[rid].name].id);
    }
  }

  lemma WriteDecides(c: Config, origin: Names, states: seq<Sys>, s: Sys, rid: nat, estimate: nat)
    requires Inv(c, origin, s) && Enabled(c, s, AdvanceStep(rid, estimate)) && Deciding(c, s, rid).Some?
    ensures var t := Advance(c, s, rid, estimate); rid in t.reqs && !t.reqs[rid].task.Get? && WriteOk(states, t, rid)
  {
    hide Inv, WellFormed, Advance, Separate, Deciding, Fold, Reply, Matches;
    DecideDecides(c, origin, s, rid, estimate);
    var t := Advance(c, s, rid, estimate);
    assert t.decided[|s.decided|].rid == rid;
    WhoDecides(c, s, rid);
  }

  lemma WhoDecides(c: Config, s: Sys, rid: nat)
    requires WellFormed(s) && rid in s.reqs && Deciding(c, s, rid).Some?
    ensures !s.reqs[rid].task.Get?
  {
    hide WellFormed;
  }

  lemma WriteNotOpened(c: Config, origin: Names, s: Sys, rid: nat)
    requires Inv(c, origin, s) && rid in s.reqs && !s.reqs[rid].task.Get?
    ensures !s.reqs[rid].pc.Opened? && !s.reqs[rid].pc.Serving?
  {
    hide Inv;
    ReqIsFine(c, origin, s, rid);
  }

  lemma OwnWrite(c: Config, origin: Names, states: seq<Sys>, s: Sys, rid: nat, estimate: nat)
    requires forall k :: 0 <= k < |states| ==> Inv(c, origin, states[k])
    requires |states| > 0 && Last(states) == s && Inv(c, origin, s) && Enabled(c, s, AdvanceStep(rid, estimate))
    requires Inv(c, origin, Advance(c, s, rid, estimate)) && !s.reqs[rid].task.Get? && WriteOk(states, s, rid)
    ensures var t := Advance(c, s, rid, estimate);
            rid in t.reqs && !t.reqs[rid].task.Get? && WriteOk(states, t, rid)
  {
    hide Inv, WellFormed, StepReading, StepOpening, Saw, Replaced, HasEvent, Deciding, Decide, Separate;
    if Deciding(c, s, rid).Some? {
      WriteDecides(c, origin, states, s, rid, estimate);
    } else {
      var t := Advance(c, s, rid, estimate);
      WriteNotOpened(c, origin, s, rid);
      match s.reqs[rid].pc
      case Opening => WriteOpens(c, origin, states, s, t, rid);
      case Reading(_, _, _, _) => WriteReads(c, origin, states, s, t, rid);
      case _ =>
    }
  }

  lemma WriteStays(c: Config, origin: Names, states: seq<Sys>, s: Sys, t: Sys, rid: nat)
    requires Inv(c, origin, s) && Inv(c, origin, t) && rid in s.reqs && !s.reqs[rid].task.Get? && WriteOk(states, s, rid)
    requires KeepsData(s.journal, t.journal) && KeepsObjects(s, t) && s.decided <= t.decided
    requires forall id :: id in Pins(s.reqs[rid]) && id in s.objs ==> id in t.objs
    requires rid in t.reqs && t.reqs[rid] == s.reqs[rid]
    ensures WriteOk(states, t, rid)
  {
    hide Inv, Replaced, HasEvent, Saw;
    match s.reqs[rid].pc
    case Reading(id, _, _, _) =>
      ReqIsFine(c, origin, s, rid);
      assert id in Pins(s.reqs[rid]);
      SawStays(c, origin, states, s, t, rid, id);
    case Finished(Failed) => if HasEvent(s, rid) { EventStays(s, t, rid); }
    case _ =>
  }

  lemma WriteGoesOn(c: Config, origin: Names, states: seq<Sys>, s: Sys, step: Step, rid: nat)
    requires forall k :: 0 <= k < |states| ==> Inv(c, origin, states[k])
    requires |states| > 0 && Last(states) == s && Enabled(c, s, step) && s.decided <= Do(c, s, step).decided
    requires rid in Do(c, s, step).reqs && !Do(c, s, step).reqs[rid].task.Get?
    requires rid in s.reqs && !s.reqs[rid].task.Get? ==> WriteOk(states, s, rid)
    ensures WriteOk(states, Do(c, s, step), rid)
  {
    hide Inv, WellFormed, Advance, Separate, WriteChunk, Release, Pins, Waiting, Deciding, WriteOk, Do;
    var t := Do(c, s, step);
    assert s == states[|states| - 1];
    StepOk(c, origin, s, step);
    if rid !in s.reqs {
      NewRequest(c, origin, s, step, rid);
      NewWrite(states, t, rid);
    } else if step.AdvanceStep? && step.rid == rid {
      WriteAdvances(c, origin, states, s, step, rid);
    } else {
      OthersSame(c, origin, s, step, rid);
      StepKeeps(c, origin, s, step);
      WriteStays(c, origin, states, s, t, rid);
    }
  }

  lemma NewWrite(states: seq<Sys>, t: Sys, rid: nat)
    requires rid in t.reqs && !t.reqs[rid].task.Get? && t.reqs[rid].pc == Opening
    ensures WriteOk(states, t, rid)
  {
  }

  lemma WriteAdvances(c: Config, origin: Names, states: seq<Sys>, s: Sys, step: Step, rid: nat)
    requires forall k :: 0 <= k < |states| ==> Inv(c, origin, states[k])
    requires |states| > 0 && Last(states) == s && Inv(c, origin, s) && Enabled(c, s, step) && step.AdvanceStep? && step.rid == rid
    requires Inv(c, origin, Do(c, s, step)) && rid in Do(c, s, step).reqs && !Do(c, s, step).reqs[rid].task.Get?
    requires !s.reqs[rid].task.Get? ==> WriteOk(states, s, rid)
    ensures WriteOk(states, Do(c, s, step), rid)
  {
    hide Inv, WellFormed, Advance, Separate, WriteOk, Deciding;
    TaskSame(c, origin, s, rid, step.estimate);
    OwnWrite(c, origin, states, s, rid, step.estimate);
  }
}
