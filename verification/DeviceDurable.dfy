/** A request that is told its change is done: the change's transaction is
    within what its collection keeps over a crash. */
module DeviceDurable {
  import opened Base
  import opened Engine
  import opened Journals
  import opened Objects
  import opened Metadata
  import opened Device
  import opened DeviceSpec
  import opened DeviceReads
  import opened DeviceSteps
  import opened DeviceWrites
  import opened DeviceDecide
  import opened DevicePuts
  import opened DeviceRuns
  import opened DeviceAudit
  import opened DeviceCuts

  /** What the request waits for, or has seen durable, includes its decision. */
  ghost predicate Kept(c: Config, s: Sys, i: nat)
    requires i < |s.decided| && |s.ends| == |s.decided| && s.decided[i].rid in s.reqs
  {
    var r := s.reqs[s.decided[i].rid];
    match r.pc
    case Confirming(id) => id in s.objs && s.ends[i] <= s.objs[id].done
    case Settling(_, local) => s.ends[i] <= local
    case Finished(Done) => s.ends[i] <= DurableOf(c, s, r.name)
    case _ => true
  }

  ghost predicate AllKept(c: Config, s: Sys) {
    && |s.ends| == |s.decided|
    && (forall i :: 0 <= i < |s.decided| ==> s.decided[i].rid in s.reqs && Kept(c, s, i))
  }

  /** Durable operations stay durable, and an Object a request waits for stays and only gains transactions. */
  ghost predicate Lasts(c: Config, s: Sys, t: Sys) {
    && |s.decided| <= |t.decided| && t.decided[..|s.decided|] == s.decided
    && |s.ends| <= |t.ends| && t.ends[..|s.ends|] == s.ends
    && (forall name :: DurableOf(c, s, name) <= DurableOf(c, t, name))
    && (forall rid :: rid in s.reqs && s.reqs[rid].pc.Confirming? && s.reqs[rid].pc.id in s.objs ==>
          s.reqs[rid].pc.id in t.objs && s.objs[s.reqs[rid].pc.id].done <= t.objs[s.reqs[rid].pc.id].done)
  }

  lemma KeptStays(c: Config, s: Sys, t: Sys, i: nat)
    requires Lasts(c, s, t) && AllKept(c, s) && i < |s.decided| && |t.ends| == |t.decided|
    requires s.decided[i].rid in t.reqs && t.reqs[s.decided[i].rid] == s.reqs[s.decided[i].rid]
    ensures t.decided[i].rid in t.reqs && Kept(c, t, i)
  {
    hide DurableOf;
    assert t.decided[i] == t.decided[..|s.decided|][i] && t.ends[i] == t.ends[..|s.ends|][i];
    assert Kept(c, s, i);
  }

  // ----- steps that decide nothing -----

  lemma NoEventYet(c: Config, origin: Names, s: Sys, i: nat)
    requires Audit(c, origin, s) && i < |s.decided|
    ensures s.decided[i].rid in s.reqs && Decided(s.reqs[s.decided[i].rid])
  {
    hide Fold, Reply, Matches;
    assert EventFine(c, origin, s, i);
  }

  /** The request itself: it takes note of the Object's latest transaction, and waits for that one. */
  lemma OwnKept(c: Config, origin: Names, s: Sys, rid: nat, estimate: nat, i: nat)
    requires Audit(c, origin, s) && AllKept(c, s) && Enabled(c, s, AdvanceStep(rid, estimate)) && Deciding(c, s, rid).None?
    requires i < |s.decided| && s.decided[i].rid == rid
    ensures var t := Advance(c, s, rid, estimate);
            t.decided == s.decided && t.ends == s.ends && rid in t.reqs && Kept(c, t, i)
  {
    hide Audit, WellFormed, Separate, StepOpening, StepReading, StepServing;
    NoEventYet(c, origin, s, i);
    assert Kept(c, s, i);
  }

  lemma ReadingLasts(c: Config, s: Sys, rid: nat)
    requires WellFormed(s) && rid in s.reqs && s.reqs[rid].pc.Reading?
    ensures var t := StepReading(c, s, rid); t == s.(reqs := t.reqs) && rid in t.reqs && t.reqs == s.reqs[rid := t.reqs[rid]]
  {
    hide WellFormed, ChecksOut, Slice, Visible, AddressOf, Pins;
  }

  lemma ServingLasts(c: Config, s: Sys, rid: nat)
    requires WellFormed(s) && rid in s.reqs && s.reqs[rid].pc.Serving? && s.reqs[rid].task.Get?
    ensures var t := StepServing(c, s, rid); t == s.(reqs := t.reqs) && rid in t.reqs && t.reqs == s.reqs[rid := t.reqs[rid]]
  {
    hide WellFormed, ChecksOut, Slice, Visible, AddressOf, Pins, ReadSize;
  }

  lemma AdvanceShape(c: Config, origin: Names, s: Sys, rid: nat, estimate: nat)
    requires Inv(c, origin, s) && Enabled(c, s, AdvanceStep(rid, estimate)) && Deciding(c, s, rid).None?
    ensures var t := Advance(c, s, rid, estimate);
            && t.decided == s.decided && t.ends == s.ends && t.durable == s.durable
            && (forall id :: id in s.objs ==> id in t.objs && t.objs[id] == s.objs[id])
            && rid in t.reqs && t.reqs == s.reqs[rid := t.reqs[rid]]
  {
    hide Inv, WellFormed, StepReading, StepServing, Deciding, Separate, Waiting;
    NextIsNew(c, origin, s);
    match s.reqs[rid].pc {
      case Reading(_, _, _, _) => ReadingLasts(c, s, rid);
      case Serving(_, _, _, _, _) => ServingLasts(c, s, rid);
      case _ =>
    }
  }

  lemma AdvanceKept(c: Config, origin: Names, s: Sys, rid: nat, estimate: nat)
    requires Inv(c, origin, s) && Audit(c, origin, s) && AllKept(c, s)
    requires Enabled(c, s, AdvanceStep(rid, estimate)) && Deciding(c, s, rid).None?
    ensures AllKept(c, Advance(c, s, rid, estimate))
  {
    hide Inv, Audit, Advance, Kept, Deciding, WellFormed, Separate, Waiting;
    var t := Advance(c, s, rid, estimate);
    AdvanceShape(c, origin, s, rid, estimate);
    assert t.decided[..|s.decided|] == s.decided && t.ends[..|s.ends|] == s.ends;
    forall i | 0 <= i < |t.decided| ensures t.decided[i].rid in t.reqs && Kept(c, t, i) {
      if s.decided[i].rid == rid {
        OwnKept(c, origin, s, rid, estimate, i);
      } else {
        KeptStays(c, s, t, i);
      }
    }
  }

  // ----- a decision -----

  lemma HandLasts(c: Config, origin: Names, s: Sys, rid: nat, id: nat, prev: nat, got: Option<Got>, ts: nat, header: Bytes, e: Event)
    requires Inv(c, origin, s) && rid in s.reqs && !Decided(s.reqs[rid]) && e.rid == rid
    requires id in s.objs && s.objs[id].stat.state in {PreWrite, InWrite}
    requires Sees(c, origin, s, s.reqs[rid].name, prev, got)
    ensures var t := HandName(s, rid, id, prev, ts, header, e);
            && rid in t.reqs && t.reqs == s.reqs[rid := t.reqs[rid]]
            && Lasts(c, s, t) && |t.decided| == |s.decided| + 1 && |t.ends| == |s.ends| + 1 && t.decided[|s.decided|] == e
            && (t.reqs[rid].pc == Confirming(id) || t.reqs[rid].pc == Finished(Conflict))
            && (t.reqs[rid].pc.Confirming? ==> id in t.objs && Last(t.ends) == t.objs[id].done)
  {
    hide Inv, Fold, MarkNew, PutJournal, HandName;
    var m := MarkNew(s, id, header, s.reqs[rid].name);
    var t := HandName(s, rid, id, prev, ts, header, e);
    MarkNewDone(s, id, header, s.reqs[rid].name);
    MarkNewNames(s, id, header, s.reqs[rid].name);
    MarkNewShape(c, origin, s, id, header, s.reqs[rid].name);
    HandNameShape(c, origin, s, rid, id, prev, got, ts, header, e);
    HandedShape(s, rid, id, prev, ts, header, e);
    MarkPrepares(s, id, header, s.reqs[rid].name);
    PutGrows(m.journal, m.objs[id], s.objs[prev].stat, ts);
    ObjIsFine(c, origin, s, id);
    assert t.decided[..|s.decided|] == s.decided && t.ends[..|s.ends|] == s.ends;
  }

  lemma MarkNewDone(s: Sys, id: nat, header: Bytes, name: string)
    requires id in s.objs
    ensures var m := MarkNew(s, id, header, name);
            id in m.objs && m.objs[id].done == Length(m.journal) && m.ends == s.ends && m.decided == s.decided
  {
    hide HeaderOps, Prepare;
  }

  lemma PutGrows(j: Journal, next: Obj, prev: Stat, ts: nat)
    ensures Length(PutJournal(j, next, prev, ts)) >= Length(j)
  {
    PrepareGrows(Stamped(j, next, ts), PutOps(next.stat, prev, ts));
  }

  lemma PostLasts(c: Config, origin: Names, s: Sys, rid: nat, prev: nat, got: Option<Got>)
    requires Inv(c, origin, s) && rid in s.reqs && !Decided(s.reqs[rid]) && s.reqs[rid].task.Post?
    requires Sees(c, origin, s, s.reqs[rid].name, prev, got)
    ensures var t := DecidePost(c, s, rid, prev, got);
            && rid in t.reqs && t.reqs == s.reqs[rid := t.reqs[rid]]
            && Lasts(c, s, t) && |t.decided| == |s.decided| + 1 && |t.ends| == |s.ends| + 1 && t.decided[|s.decided|].rid == rid
            && (t.reqs[rid].pc == Confirming(prev) || (t.reqs[rid].pc.Finished? && t.reqs[rid].pc != Finished(Done)))
            && (t.reqs[rid].pc.Confirming? ==> prev in t.objs && Last(t.ends) == t.objs[prev].done)
  {
    hide Inv, Fold, Prepare, HeaderOps, Metadata.Post;
    var t := DecidePost(c, s, rid, prev, got);
    ObjIsFine(c, origin, s, prev);
    var res := Metadata.Post(got, s.reqs[rid].task.post);
    if res.Rewrite? {
      PrepareGrows(s.journal, HeaderOps(s.objs[prev].stat, s.objs[prev].inode, c.encode(res.blob)));
    }
    assert t.decided[..|s.decided|] == s.decided && t.ends[..|s.ends|] == s.ends;
  }

  /** What the lemmas above say of any decision. */
  ghost predicate DecidesKept(c: Config, s: Sys, t: Sys, rid: nat) {
    && rid in s.reqs && rid in t.reqs && t.reqs == s.reqs[rid := t.reqs[rid]]
    && Lasts(c, s, t) && |t.decided| == |s.decided| + 1 && |t.ends| == |s.ends| + 1 && t.decided[|s.decided|].rid == rid
    && (t.reqs[rid].pc.Confirming? || (t.reqs[rid].pc.Finished? && t.reqs[rid].pc != Finished(Done)))
    && (t.reqs[rid].pc.Confirming? ==> t.reqs[rid].pc.id in t.objs && Last(t.ends) == t.objs[t.reqs[rid].pc.id].done)
  }

  lemma DecideKept(c: Config, origin: Names, s: Sys, t: Sys, rid: nat)
    requires Audit(c, origin, s) && AllKept(c, s) && DecidesKept(c, s, t, rid) && !Decided(s.reqs[rid])
    ensures AllKept(c, t)
  {
    hide Audit, Lasts, DurableOf;
    forall i | 0 <= i < |t.decided| ensures t.decided[i].rid in t.reqs && Kept(c, t, i) {
      if i < |s.decided| {
        NoEventYet(c, origin, s, i);
        KeptStays(c, s, t, i);
      }
    }
  }

  lemma DeleteLasts(c: Config, origin: Names, s: Sys, rid: nat, prev: nat, got: Option<Got>, estimate: nat)
    requires Inv(c, origin, s) && rid in s.reqs && !Decided(s.reqs[rid]) && s.reqs[rid].task.Delete?
    requires Sees(c, origin, s, s.reqs[rid].name, prev, got) && prev in s.objs
    requires Device.FreshStamp(s.journal.recs, s.reqs[rid].name, estimate)
    ensures DecidesKept(c, s, DecideDelete(c, s, rid, prev, got, estimate), rid)
  {
    hide Inv, Fold, Sees, HandName, Device.FreshStamp;
    var r := s.reqs[rid];
    var t := Entered(s, r.name, estimate, true);
    EnteredOk(c, origin, s, r.name, estimate, true);
    EnteredSees(c, origin, s, r.name, estimate, prev, got);
    HandLasts(c, origin, t, rid, s.next, prev, got, r.task.ts, c.encode(Metadata.Delete(got, r.task.ts, r.task.tombstone)),
              HandedName(rid, r.name, r.task.ts, true, [], TombstoneHeaders(r.task.ts, r.task.tombstone)));
  }

  lemma PutLasts(c: Config, origin: Names, s: Sys, rid: nat, prev: nat, got: Option<Got>)
    requires Inv(c, origin, s) && rid in s.reqs && !Decided(s.reqs[rid]) && s.reqs[rid].task.Put? && s.reqs[rid].task.id in s.objs
    requires Sees(c, origin, s, s.reqs[rid].name, prev, got) && prev in s.objs
    ensures DecidesKept(c, s, DecidePut(c, s, rid, prev, got), rid)
  {
    hide Inv, Fold, Sees, HandName, MetaCallFine, BodyCallFine, Lasts;
    var r := s.reqs[rid];
    ReqIsFine(c, origin, s, rid);
    var inode := s.objs[r.task.id].inode;
    var e := HandedName(rid, r.name, r.task.ts, false, if inode in s.journal.recs then s.journal.recs[inode].data else [], r.task.meta);
    HandLasts(c, origin, s, rid, r.task.id, prev, got, r.task.ts, c.encode(Metadata.Put(got, r.task.meta)), e);
  }

  lemma DecisionKept(c: Config, origin: Names, s: Sys, rid: nat, estimate: nat)
    requires Inv(c, origin, s) && Audit(c, origin, s) && AllKept(c, s)
    requires Enabled(c, s, AdvanceStep(rid, estimate)) && Deciding(c, s, rid).Some?
    ensures AllKept(c, Advance(c, s, rid, estimate))
  {
    hide Inv, Audit, AllKept, WellFormed, Fold, Sees, StepReading, StepServing, StepOpening, HandName, Device.FreshStamp, Device.NoOtherEstimate, Lasts;
    var (prev, got) := Deciding(c, s, rid).value;
    var t := Advance(c, s, rid, estimate);
    DecidingSees(c, origin, s, rid);
    SeesKnown(c, origin, s, s.reqs[rid].name, prev, got);
    hide Deciding, DecidePut, DecideDelete, DecidePost;
    match s.reqs[rid].task {
      case Put(_, _, _) =>
        DevicePuts.PutsKnown(c, origin, s, rid);
        PutLasts(c, origin, s, rid, prev, got);
      case Delete(_, _) => DeleteLasts(c, origin, s, rid, prev, got, estimate);
      case Post(_) => PostLasts(c, origin, s, rid, prev, got);
    }
    DecideKept(c, origin, s, t, rid);
  }

  // ----- every other step -----

  lemma OtherLasts(c: Config, origin: Names, s: Sys, step: Step)
    requires Inv(c, origin, s) && Enabled(c, s, step) && !step.AdvanceStep?
    ensures Lasts(c, s, Do(c, s, step))
    ensures forall rid :: rid in s.reqs ==> rid in Do(c, s, step).reqs && Do(c, s, step).reqs[rid] == s.reqs[rid]
    ensures Do(c, s, step).decided == s.decided && Do(c, s, step).ends == s.ends
  {
    hide Inv, WellFormed, WriteOps, RemoveOps, Prepare;
    var t := Do(c, s, step);
    assert s.decided[..|s.decided|] == s.decided && s.ends[..|s.ends|] == s.ends;
    NextIsNew(c, origin, s);
    if step.WriteStep? {
      PrepareGrows(s.journal, WriteOps(s.objs[step.id].stat, s.objs[step.id].inode, s.objs[step.id].written, step.bytes));
      ObjIsFine(c, origin, s, step.id);
    }
    if step.ReleaseStep? {
      forall rid | rid in s.reqs && s.reqs[rid].pc.Confirming? ensures s.reqs[rid].pc.id != step.id {
        assert step.id !in Pins(s.reqs[rid]);
      }
    }
  }

  lemma KeptKept(c: Config, origin: Names, s: Sys, step: Step)
    requires Inv(c, origin, s) && Audit(c, origin, s) && AllKept(c, s) && Enabled(c, s, step)
    ensures AllKept(c, Do(c, s, step))
  {
    hide Inv, Audit, WellFormed, Advance, Separate, Kept, Lasts, Release, WriteChunk;
    if step.AdvanceStep? {
      if Deciding(c, s, step.rid).Some? {
        DecisionKept(c, origin, s, step.rid, step.estimate);
      } else {
        AdvanceKept(c, origin, s, step.rid, step.estimate);
      }
    } else {
      var t := Do(c, s, step);
      OtherLasts(c, origin, s, step);
      forall i | 0 <= i < |t.decided| ensures t.decided[i].rid in t.reqs && Kept(c, t, i) {
        KeptStays(c, s, t, i);
      }
    }
  }
}
