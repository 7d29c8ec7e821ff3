/** Requests and decisions match one to one: a request that was answered took
    exactly one decision, between its start and its answer, and the answer is
    what the specification gives for it at that point. */
module DeviceAudit {
  import opened Base
  import opened Engine
  import opened Journals
  import opened Objects
  import opened Transactions
  import opened Metadata
  import opened Device
  import opened DeviceSpec
  import opened DeviceReads
  import opened DeviceWrites
  import opened DeviceDecide
  import opened DevicePuts
  import opened DeviceRuns

  /** A tombstone has the metadata handed in, or else its own time and nothing more. */
  predicate IsTombstone(ts: nat, given: Option<Headers>, meta: Headers) {
    match given
    case Some(own) => meta == own
    case None => meta.time == FromRaw(ts) && meta.ctype == None && meta.ctypeTime == None && meta.items == map[]
  }

  /** The decision is about what the request asked for. */
  predicate Matches(e: Event, r: Req) {
    && e.name == r.name
    && match r.task
       case Put(_, ts, meta) => e.HandedName? && e.ts == ts && !e.deleted && e.meta == meta
       case Delete(ts, tombstone) => e.HandedName? && e.ts == ts && e.deleted && e.data == [] && IsTombstone(ts, tombstone, e.meta)
       case Post(post) => e == Posted(e.rid, r.name, post)
       case Get(_, _) => false
  }

  /** What a client is to be told, given what the names were just before the decision. */
  function Reply(c: Config, names: Names, e: Event): Outcome {
    var cur := Lookup(names, e.name);
    match e
    case HandedName(_, _, ts, _, _, _) => if ts <= (if cur.Some? then cur.value.ts else 0) then Conflict else Done
    case Posted(_, _, post) =>
      match Metadata.Post(GotOf(c, cur), post)
      case Unchanged => Dropped
      case KeyError => Failed
      case Rewrite(_) => Done
  }

  /** The request has been given this answer, or is waiting for its transaction to give it. */
  predicate Answered(r: Req, outcome: Outcome) {
    ((r.pc.Confirming? || r.pc.Settling?) && outcome == Done) || r.pc == Finished(outcome)
  }

  /** Answers that are only given to a request that took a decision. */
  predicate MustHaveDecided(r: Req) {
    !r.task.Get? && (r.pc.Confirming? || r.pc.Settling? || (r.pc.Finished? && r.pc.outcome in {Done, Conflict, Dropped}))
  }

  ghost predicate EventFine(c: Config, origin: Names, s: Sys, i: nat)
    requires i < |s.decided|
  {
    var e := s.decided[i];
    && e.rid in s.reqs && Matches(e, s.reqs[e.rid])
    && Answered(s.reqs[e.rid], Reply(c, Fold(c, origin, s.decided[..i]), e))
  }

  ghost predicate OneEach(s: Sys) {
    forall i, k :: 0 <= i < k < |s.decided| ==> s.decided[i].rid != s.decided[k].rid
  }

  ghost predicate HasEvent(s: Sys, rid: nat) {
    exists i :: 0 <= i < |s.decided| && s.decided[i].rid == rid
  }

  ghost predicate Audit(c: Config, origin: Names, s: Sys) {
    && |s.ends| == |s.decided|
    && (forall i :: 0 <= i < |s.decided| ==> EventFine(c, origin, s, i))
    && OneEach(s)
    && (forall rid :: rid in s.reqs && MustHaveDecided(s.reqs[rid]) ==> HasEvent(s, rid))
  }

  // ----- steps that decide nothing -----

  predicate Progress(r: Req, q: Req) {
    && q.name == r.name && q.task == r.task
    && (|| q.pc == r.pc
        || (!Decided(r) && !MustHaveDecided(q))
        || (r.pc.Confirming? && q.pc.Settling?)
        || (r.pc.Settling? && q.pc == Finished(Done)))
  }

  ghost predicate Undecided(s: Sys, t: Sys) {
    && t.decided == s.decided && t.ends == s.ends
    && (forall rid :: rid in s.reqs ==> rid in t.reqs && Progress(s.reqs[rid], t.reqs[rid]))
    && (forall rid :: rid in t.reqs && rid !in s.reqs ==> t.reqs[rid].pc == Opening)
  }

  lemma UndecidedKeeps(c: Config, origin: Names, s: Sys, t: Sys)
    requires Audit(c, origin, s) && Undecided(s, t)
    ensures Audit(c, origin, t)
  {
    hide Fold, Reply, Matches;
    forall i | 0 <= i < |t.decided| ensures EventFine(c, origin, t, i) {
      assert EventFine(c, origin, s, i);
      MatchesTask(t.decided[i], s.reqs[t.decided[i].rid], t.reqs[t.decided[i].rid]);
    }
    hide EventFine;
    forall rid | rid in t.reqs && MustHaveDecided(t.reqs[rid]) ensures HasEvent(t, rid) {
      assert HasEvent(s, rid);
    }
  }

  lemma MatchesTask(e: Event, r: Req, q: Req)
    requires Matches(e, r) && q.name == r.name && q.task == r.task
    ensures Matches(e, q)
  {
  }

  lemma AtUndecided(s: Sys, rid: nat, pc: Pc)
    requires rid in s.reqs && Progress(s.reqs[rid], s.reqs[rid].(pc := pc))
    ensures Undecided(s, At(s, rid, pc))
  {
  }

  lemma ServeOnMoves(s: Sys, rid: nat, id: nat, offset: nat, out: Bytes)
    requires rid in s.reqs && s.reqs[rid].task.Get? && id in s.objs && !Decided(s.reqs[rid])
    ensures Undecided(s, ServeOn(s, rid, id, offset, out))
  {
  }

  lemma MetaRetryMoves(s: Sys, rid: nat, id: nat, tries: nat)
    requires rid in s.reqs && id in s.objs && !Decided(s.reqs[rid])
    ensures Undecided(s, MetaRetry(s, rid, id, tries))
  {
  }

  lemma Pinned(s: Sys, rid: nat, id: nat)
    requires WellFormed(s) && rid in s.reqs && (s.reqs[rid].pc.Reading? || s.reqs[rid].pc.Serving?) && s.reqs[rid].pc.id == id
    ensures id in s.objs && s.applied < |s.journal.stores|
  {
    assert id in Pins(s.reqs[rid]);
  }

  lemma ReadingUndecided(c: Config, s: Sys, rid: nat)
    requires WellFormed(s) && rid in s.reqs && s.reqs[rid].pc.Reading?
    ensures Undecided(s, StepReading(c, s, rid))
  {
    hide WellFormed, ChecksOut, Slice, Undecided, At, ServeOn, MetaRetry, Visible, Pins, AddressOf;
    var r := s.reqs[rid];
    var Reading(id, version, tries, call) := r.pc;
    Pinned(s, rid, id);
    var o := s.objs[id];
    match call
    case SyncCall => AtUndecided(s, rid, r.pc.(call := SyncWait(o.done)));
    case SyncWait(_) => AtUndecided(s, rid, r.pc.(call := MetaFetch([])));
    case MetaFetch(data) => AtUndecided(s, rid, r.pc.(call := MetaAt(data, AddressOf(o.stat))));
    case MetaAt(data, at) =>
      AtUndecided(s, rid, r.pc.(call := MetaCheck(data, at, if at in Visible(s) then Some(Visible(s)[at].header) else None)));
    case MetaCheck(data, at, header) =>
      if header.Some? && ChecksOut(s, id, at) {
        AtUndecided(s, rid, r.pc.(call := MetaBack(data, Slice(header.value, |data|, |data| + c.chunk))));
      } else {
        MetaRetryMoves(s, rid, id, tries);
      }
    case MetaBack(data, chunk) =>
      AtUndecided(s, rid, Reading(id, o.version, tries, SyncCall));
      AtUndecided(s, rid, r.pc.(call := MetaFetch(data + chunk)));
      AtUndecided(s, rid, Opening);
      AtUndecided(s, rid, Finished(Deleted));
      if r.task.Get? { ServeOnMoves(s, rid, id, r.task.start, []); }
  }

  lemma ServingUndecided(c: Config, s: Sys, rid: nat)
    requires WellFormed(s) && rid in s.reqs && s.reqs[rid].pc.Serving? && s.reqs[rid].task.Get?
    ensures Undecided(s, StepServing(c, s, rid))
  {
    hide WellFormed, ChecksOut, Slice, Undecided, At, ServeOn, Visible, ReadSize, Pins, AddressOf;
    var r := s.reqs[rid];
    var Serving(id, offset, out, tries, call) := r.pc;
    Pinned(s, rid, id);
    match call
    case BodyFetch => AtUndecided(s, rid, r.pc.(bodyCall := BodyAt(AddressOf(s.objs[id].stat))));
    case BodyAt(at) =>
      AtUndecided(s, rid, r.pc.(bodyCall := BodyCheck(at,
        if at in Visible(s) then Some(Slice(Visible(s)[at].data, offset, offset + ReadSize(c, offset, r.task.stop))) else None)));
    case BodyCheck(at, bytes) =>
      if bytes.Some? { AtUndecided(s, rid, r.pc.(bodyCall := BodyBack(bytes.value))); }
      AtUndecided(s, rid, Serving(id, offset, out, tries + 1, BodyFetch));
      AtUndecided(s, rid, Finished(Failed));
    case BodyBack(chunk) =>
      AtUndecided(s, rid, Finished(Served(s.objs[id].inode, out + chunk)));
      ServeOnMoves(s, rid, id, offset + |chunk|, out + chunk);
  }

  lemma AdvanceUndecided(c: Config, s: Sys, rid: nat, estimate: nat)
    requires Enabled(c, s, AdvanceStep(rid, estimate)) && Deciding(c, s, rid).None?
    ensures Undecided(s, Advance(c, s, rid, estimate))
  {
    hide WellFormed, StepReading, StepServing, Deciding, Separate;
    match s.reqs[rid].pc
    case Reading(_, _, _, _) => ReadingUndecided(c, s, rid);
    case Serving(_, _, _, _, _) => ServingUndecided(c, s, rid);
    case _ =>
  }

  // ----- a decision -----

  ghost predicate Decides(c: Config, origin: Names, s: Sys, t: Sys, rid: nat, e: Event) {
    && rid in s.reqs && !Decided(s.reqs[rid])
    && t.decided == s.decided + [e] && |t.ends| == |s.ends| + 1 && e.rid == rid
    && rid in t.reqs && t.reqs == s.reqs[rid := s.reqs[rid].(pc := t.reqs[rid].pc)]
    && Matches(e, s.reqs[rid])
    && Answered(t.reqs[rid], Reply(c, Fold(c, origin, s.decided), e))
  }

  lemma OldEventFine(c: Config, origin: Names, s: Sys, t: Sys, rid: nat, e: Event, i: nat)
    requires Decides(c, origin, s, t, rid, e) && i < |s.decided| && EventFine(c, origin, s, i)
    ensures EventFine(c, origin, t, i) && s.decided[i].rid != rid
  {
    hide Fold, Reply, Matches;
    assert t.decided[i] == s.decided[i];
    assert t.decided[..i] == s.decided[..i];
  }

  lemma DecidesKeeps(c: Config, origin: Names, s: Sys, t: Sys, rid: nat, e: Event)
    requires Audit(c, origin, s) && Decides(c, origin, s, t, rid, e)
    ensures Audit(c, origin, t)
  {
    hide Fold, Reply, Matches;
    assert t.decided[..|s.decided|] == s.decided;
    MatchesTask(e, s.reqs[rid], t.reqs[rid]);
    assert EventFine(c, origin, t, |s.decided|);
    hide EventFine;
    forall i | 0 <= i < |s.decided| ensures EventFine(c, origin, t, i) && s.decided[i].rid != rid {
      assert EventFine(c, origin, s, i);
      OldEventFine(c, origin, s, t, rid, e, i);
    }
    forall r | r in t.reqs && MustHaveDecided(t.reqs[r]) ensures HasEvent(t, r) {
      if r == rid {
        assert t.decided[|s.decided|].rid == rid;
      } else {
        assert HasEvent(s, r);
        var i :| 0 <= i < |s.decided| && s.decided[i].rid == r;
        assert t.decided[i].rid == r;
      }
    }
  }

  lemma HandDecides(c: Config, origin: Names, s: Sys, rid: nat, id: nat, prev: nat, got: Option<Got>, ts: nat, header: Bytes, e: Event)
    requires rid in s.reqs && !Decided(s.reqs[rid]) && id in s.objs && id != prev && e.rid == rid && e.HandedName? && e.ts == ts
    requires Sees(c, origin, s, s.reqs[rid].name, prev, got) && Matches(e, s.reqs[rid])
    ensures Decides(c, origin, s, HandName(s, rid, id, prev, ts, header, e), rid, e)
  {
    hide Fold, Marked, PutJournal, PutNext;
  }

  lemma PostDecides(c: Config, origin: Names, s: Sys, rid: nat, prev: nat, got: Option<Got>)
    requires rid in s.reqs && !Decided(s.reqs[rid]) && s.reqs[rid].task.Post?
    requires Sees(c, origin, s, s.reqs[rid].name, prev, got)
    ensures Decides(c, origin, s, DecidePost(c, s, rid, prev, got), rid, Posted(rid, s.reqs[rid].name, s.reqs[rid].task.post))
  {
    hide Fold, Marked, Metadata.Post;
  }

  lemma DeleteDecides(c: Config, origin: Names, s: Sys, rid: nat, prev: nat, got: Option<Got>, estimate: nat)
    requires Inv(c, origin, s) && rid in s.reqs && !Decided(s.reqs[rid]) && s.reqs[rid].task.Delete?
    requires Sees(c, origin, s, s.reqs[rid].name, prev, got)
    ensures var r := s.reqs[rid];
            Decides(c, origin, s, DecideDelete(c, s, rid, prev, got, estimate), rid,
                    HandedName(rid, r.name, r.task.ts, true, [], TombstoneHeaders(r.task.ts, r.task.tombstone)))
  {
    hide Inv, Fold, HandName, Sees;
    var r := s.reqs[rid];
    var t := Entered(s, r.name, estimate, true);
    EnteredSees(c, origin, s, r.name, estimate, prev, got);
    SeesKnown(c, origin, s, r.name, prev, got);
    HandDecides(c, origin, t, rid, s.next, prev, got, r.task.ts, c.encode(Metadata.Delete(got, r.task.ts, r.task.tombstone)),
                HandedName(rid, r.name, r.task.ts, true, [], TombstoneHeaders(r.task.ts, r.task.tombstone)));
  }

  lemma SeesKnown(c: Config, origin: Names, s: Sys, name: string, prev: nat, got: Option<Got>)
    requires Sees(c, origin, s, name, prev, got)
    ensures prev in s.objs && s.objs[prev].stat.state in {Missing, Active}
  {
  }

  lemma PutDecides(c: Config, origin: Names, s: Sys, rid: nat, prev: nat, got: Option<Got>)
    requires Inv(c, origin, s) && rid in s.reqs && !Decided(s.reqs[rid]) && s.reqs[rid].task.Put? && s.reqs[rid].task.id in s.objs
    requires Sees(c, origin, s, s.reqs[rid].name, prev, got)
    ensures exists e :: Decides(c, origin, s, DecidePut(c, s, rid, prev, got), rid, e)
  {
    hide Inv, Fold, HandName, Sees, MetaCallFine, BodyCallFine;
    var r := s.reqs[rid];
    SeesKnown(c, origin, s, r.name, prev, got);
    ReqIsFine(c, origin, s, rid);
    var inode := s.objs[r.task.id].inode;
    var data := if inode in s.journal.recs then s.journal.recs[inode].data else [];
    var e := HandedName(rid, r.name, r.task.ts, false, data, r.task.meta);
    HandDecides(c, origin, s, rid, r.task.id, prev, got, r.task.ts, c.encode(Metadata.Put(got, r.task.meta)), e);
    assert DecidePut(c, s, rid, prev, got) == HandName(s, rid, r.task.id, prev, r.task.ts, c.encode(Metadata.Put(got, r.task.meta)), e);
    assert Decides(c, origin, s, DecidePut(c, s, rid, prev, got), rid, e);
  }

  lemma DecideDecides(c: Config, origin: Names, s: Sys, rid: nat, estimate: nat)
    requires Inv(c, origin, s) && Enabled(c, s, AdvanceStep(rid, estimate)) && Deciding(c, s, rid).Some?
    ensures exists e :: Decides(c, origin, s, Advance(c, s, rid, estimate), rid, e)
  {
    hide Inv, WellFormed, Fold, Separate, Sees, Decides, StepReading, StepServing, StepOpening;
    var (prev, got) := Deciding(c, s, rid).value;
    DecidingSees(c, origin, s, rid);
    hide Deciding, DecidePut, DecideDelete, DecidePost;
    match s.reqs[rid].task
    case Put(_, _, _) =>
      DevicePuts.PutsKnown(c, origin, s, rid);
      SeesKnown(c, origin, s, s.reqs[rid].name, prev, got);
      PutDecides(c, origin, s, rid, prev, got);
      assert Advance(c, s, rid, estimate) == DecidePut(c, s, rid, prev, got);
    case Delete(_, _) =>
      SeesKnown(c, origin, s, s.reqs[rid].name, prev, got);
      DeleteDecides(c, origin, s, rid, prev, got, estimate);
      assert Advance(c, s, rid, estimate) == DecideDelete(c, s, rid, prev, got, estimate);
    case Post(_) =>
      SeesKnown(c, origin, s, s.reqs[rid].name, prev, got);
      PostDecides(c, origin, s, rid, prev, got);
      assert Advance(c, s, rid, estimate) == DecidePost(c, s, rid, prev, got);
  }

  // ----- every step -----

  lemma AuditKept(c: Config, origin: Names, s: Sys, step: Step)
    requires Inv(c, origin, s) && Audit(c, origin, s) && Enabled(c, s, step)
    ensures Audit(c, origin, Do(c, s, step))
  {
    hide Inv, WellFormed, Advance, Separate, Audit, Decides, Wrote, Removed;
    if step.AdvanceStep? && Deciding(c, s, step.rid).Some? {
      DecideDecides(c, origin, s, step.rid, step.estimate);
      var e :| Decides(c, origin, s, Advance(c, s, step.rid, step.estimate), step.rid, e);
      DecidesKeeps(c, origin, s, Do(c, s, step), step.rid, e);
    } else {
      if step.AdvanceStep? { AdvanceUndecided(c, s, step.rid, step.estimate); }
      UndecidedKeeps(c, origin, s, Do(c, s, step));
    }
  }
}
