/** What clients send: in every run, what a PUT's decision carries is all the
    bytes written to its Object, in the order in which they were. */
module DeviceDrafts {
  import opened Base
  import opened Engine
  import opened Journals
  import opened Objects
  import opened Transactions
  import opened Metadata
  import opened Device
  import opened DeviceSpec
  import opened DeviceReads
  import opened DeviceSteps
  import opened DeviceWrites
  import opened DeviceDecide
  import opened DevicePuts
  import opened DeviceAudit
  import opened DeviceDurable
  import opened DeviceGets

  /** The bytes of one step for an Object. */
  function Written(step: Step, id: nat): Bytes {
    if step.WriteStep? && step.id == id then step.bytes else []
  }

  /** All the bytes that were written to an Object. */
  function Sent(steps: seq<Step>, id: nat): Bytes {
    if steps == [] then [] else Sent(steps[..|steps| - 1], id) + Written(Last(steps), id)
  }

  predicate Drafted(o: Obj) { o.stat.state in {PreWrite, InWrite} }

  /** An Object being written has the data that was written to it. */
  ghost predicate HasSent(s: Sys, steps: seq<Step>, id: nat)
    requires id in s.objs
  {
    var i := s.objs[id].inode;
    i in s.journal.recs && s.journal.recs[i].data == Sent(steps, id)
  }

  ghost predicate Drafts(s: Sys, steps: seq<Step>) {
    && (forall id :: id in s.objs && Drafted(s.objs[id]) ==> HasSent(s, steps, id))
    && (forall id :: id >= s.next ==> Sent(steps, id) == [])
  }

  /** What was decided for a PUT has them, too. */
  ghost predicate PutsSent(s: Sys, steps: seq<Step>) {
    forall i :: 0 <= i < |s.decided| && s.decided[i].HandedName? && s.decided[i].rid in s.reqs && s.reqs[s.decided[i].rid].task.Put? ==>
      s.decided[i].data == Sent(steps, s.reqs[s.decided[i].rid].task.id)
  }

  // ----- where Objects being written come from -----

  /** It was being written before, or it is new and empty. */
  ghost predicate DraftFrom(s: Sys, t: Sys, id: nat)
    requires id in t.objs
  {
    var i := t.objs[id].inode;
    || (id in s.objs && Drafted(s.objs[id]) && s.objs[id].inode == i)
    || (id >= s.next && i in t.journal.recs && t.journal.recs[i].data == [])
  }

  ghost predicate DraftsFrom(s: Sys, t: Sys) {
    s.next <= t.next && forall id :: id in t.objs && Drafted(t.objs[id]) ==> DraftFrom(s, t, id)
  }

  lemma UndecidedFrom(c: Config, origin: Names, s: Sys, rid: nat, estimate: nat)
    requires Inv(c, origin, s) && Enabled(c, s, AdvanceStep(rid, estimate)) && Deciding(c, s, rid).None?
    ensures DraftsFrom(s, Advance(c, s, rid, estimate))
  {
    hide Inv, WellFormed, StepReading, StepServing, Deciding, Separate, Waiting;
    match s.reqs[rid].pc {
      case Reading(_, _, _, _) => ReadingLasts(c, s, rid);
      case Serving(_, _, _, _, _) => ServingLasts(c, s, rid);
      case _ =>
    }
  }

  lemma HandFrom(c: Config, origin: Names, s: Sys, rid: nat, id: nat, prev: nat, got: Option<Got>, ts: nat, header: Bytes, e: Event)
    requires Inv(c, origin, s) && rid in s.reqs && id in s.objs && Drafted(s.objs[id])
    requires Sees(c, origin, s, s.reqs[rid].name, prev, got)
    ensures DraftsFrom(s, HandName(s, rid, id, prev, ts, header, e))
  {
    hide Inv, MarkNew, HandName, Fold, PutJournal, Sees;
    SeesKnown(c, origin, s, s.reqs[rid].name, prev, got);
    MarkNewShape(c, origin, s, id, header, s.reqs[rid].name);
    HandNameShape(c, origin, s, rid, id, prev, got, ts, header, e);
  }

  lemma PostFrom(c: Config, origin: Names, s: Sys, rid: nat, prev: nat, got: Option<Got>)
    requires Inv(c, origin, s) && rid in s.reqs && !Decided(s.reqs[rid]) && s.reqs[rid].task.Post?
    requires Sees(c, origin, s, s.reqs[rid].name, prev, got)
    ensures DraftsFrom(s, DecidePost(c, s, rid, prev, got))
  {
    hide Inv, JournalInv, Quiet, Fold, ObjOk, Metadata.Post;
    if Metadata.Post(got, s.reqs[rid].task.post).Rewrite? {
      PostReposts(c, origin, s, rid, prev, got);
      hide DecidePost;
    }
  }

  lemma DeleteFrom(c: Config, origin: Names, s: Sys, rid: nat, prev: nat, got: Option<Got>, estimate: nat)
    requires Inv(c, origin, s) && rid in s.reqs && !Decided(s.reqs[rid]) && s.reqs[rid].task.Delete?
    requires Sees(c, origin, s, s.reqs[rid].name, prev, got) && prev in s.objs
    requires Device.FreshStamp(s.journal.recs, s.reqs[rid].name, estimate)
    requires Device.NoOtherEstimate(s.journal.recs, s.next, s.reqs[rid].name, s.reqs[rid].task.ts)
    ensures DraftsFrom(s, DecideDelete(c, s, rid, prev, got, estimate))
  {
    hide Inv, Fold, Sees, HandName, Device.FreshStamp;
    var r := s.reqs[rid];
    var m := Entered(s, r.name, estimate, true);
    NextIsNew(c, origin, s);
    EnteredOk(c, origin, s, r.name, estimate, true);
    EnteredSees(c, origin, s, r.name, estimate, prev, got);
    var header, e := c.encode(Metadata.Delete(got, r.task.ts, r.task.tombstone)), HandedName(rid, r.name, r.task.ts, true, [], TombstoneHeaders(r.task.ts, r.task.tombstone));
    HandFrom(c, origin, m, rid, s.next, prev, got, r.task.ts, header, e);
    HandKeeps(c, origin, m, rid, s.next, prev, got, r.task.ts, header, e);
    EnteredFrom(s, m, DecideDelete(c, s, rid, prev, got, estimate), r.name, estimate);
  }

  lemma EnteredFrom(s: Sys, m: Sys, t: Sys, name: string, estimate: nat)
    requires m == Entered(s, name, estimate, true) && DraftsFrom(m, t) && KeepsAll(m.journal, t.journal)
    ensures DraftsFrom(s, t)
  {
  }

  lemma DecideFrom(c: Config, origin: Names, s: Sys, rid: nat, estimate: nat)
    requires Inv(c, origin, s) && Enabled(c, s, AdvanceStep(rid, estimate)) && Deciding(c, s, rid).Some?
    ensures DraftsFrom(s, Advance(c, s, rid, estimate))
  {
    hide Inv, WellFormed, Fold, Sees, StepReading, StepServing, StepOpening, HandName, Device.FreshStamp, Device.NoOtherEstimate, DraftsFrom;
    var (prev, got) := Deciding(c, s, rid).value;
    DecidingSees(c, origin, s, rid);
    SeesKnown(c, origin, s, s.reqs[rid].name, prev, got);
    hide Deciding, DecideDelete, DecidePost;
    match s.reqs[rid].task {
      case Put(_, _, _) =>
        DevicePuts.PutsKnown(c, origin, s, rid);
        ReqIsFine(c, origin, s, rid);
        PutFrom(c, origin, s, rid, prev, got);
      case Delete(_, _) => DeleteFrom(c, origin, s, rid, prev, got, estimate);
      case Post(_) => PostFrom(c, origin, s, rid, prev, got);
    }
  }

  lemma PutFrom(c: Config, origin: Names, s: Sys, rid: nat, prev: nat, got: Option<Got>)
    requires Inv(c, origin, s) && rid in s.reqs && !Decided(s.reqs[rid]) && s.reqs[rid].task.Put? && s.reqs[rid].task.id in s.objs
    requires Sees(c, origin, s, s.reqs[rid].name, prev, got) && prev in s.objs
    ensures DraftsFrom(s, DecidePut(c, s, rid, prev, got))
  {
    hide Inv, Fold, Sees, HandName, MetaCallFine, BodyCallFine, DraftsFrom;
    var r := s.reqs[rid];
    ReqIsFine(c, origin, s, rid);
    var inode := s.objs[r.task.id].inode;
    var data := if inode in s.journal.recs then s.journal.recs[inode].data else [];
    HandFrom(c, origin, s, rid, r.task.id, prev, got, r.task.ts, c.encode(Metadata.Put(got, r.task.meta)),
             HandedName(rid, r.name, r.task.ts, false, data, r.task.meta));
  }

  lemma StepFrom(c: Config, origin: Names, s: Sys, step: Step)
    requires Inv(c, origin, s) && Enabled(c, s, step)
    ensures DraftsFrom(s, Do(c, s, step))
  {
    hide Inv, WellFormed, Separate, Waiting, Deciding;
    match step
    case AdvanceStep(rid, estimate) =>
      hide Advance, DraftsFrom;
      if Deciding(c, s, rid).Some? { DecideFrom(c, origin, s, rid, estimate); } else { UndecidedFrom(c, origin, s, rid, estimate); }
    case WriteStep(id, bytes) =>
      hide Wrote;
      WroteShape(s.journal, s.objs[id], bytes);
    case LoadStep(name) =>
    case _ => hide Removed;
  }

  // ----- what one step makes of the data -----

  /** A write adds its bytes to its Object's data; no other step changes any. */
  lemma StepWrites(c: Config, origin: Names, s: Sys, step: Step, id: nat)
    requires Inv(c, origin, s) && Enabled(c, s, step) && id in s.objs && Drafted(s.objs[id]) && s.objs[id].inode in s.journal.recs
    ensures var i, t := s.objs[id].inode, Do(c, s, step);
            i in t.journal.recs && t.journal.recs[i].data == s.journal.recs[i].data + Written(step, id)
  {
    hide Inv, WellFormed, Advance, Separate, Release, Create, SearchLoad;
    StepKeeps(c, origin, s, step);
    if step.WriteStep? {
      WriteAdds(c, origin, s, step.id, step.bytes);
      if id != step.id { DifferentInode(c, origin, s, id, step.id); }
    }
  }

  lemma WriteAdds(c: Config, origin: Names, s: Sys, id: nat, bytes: Bytes)
    requires Inv(c, origin, s) && id in s.objs && Drafted(s.objs[id])
    ensures var i, recs := s.objs[id].inode, WriteChunk(s, id, bytes).journal.recs;
            i in s.journal.recs && i in recs && recs[i].data == s.journal.recs[i].data + bytes && recs == s.journal.recs[i := recs[i]]
  {
    hide Inv, JournalInv, Quiet, ObjOk, MicroInv, Wrote;
    InvBasics(c, origin, s);
    ObjOkOf(c, origin, s, id);
    ObjInode(s.journal, s.objs[id]);
    WroteOk(s.journal, s.objs[id], bytes);
    WroteShape(s.journal, s.objs[id], bytes);
  }

  // ----- whole runs -----

  lemma SentMore(steps: seq<Step>, step: Step, id: nat)
    ensures Sent(steps + [step], id) == Sent(steps, id) + Written(step, id)
  {
    assert (steps + [step])[..|steps|] == steps;
  }

  lemma DraftsKept(c: Config, origin: Names, s: Sys, steps: seq<Step>, step: Step)
    requires Inv(c, origin, s) && Enabled(c, s, step) && Drafts(s, steps)
    ensures Drafts(Do(c, s, step), steps + [step])
  {
    hide Inv, Enabled, Do, Sent;
    var t := Do(c, s, step);
    StepFrom(c, origin, s, step);
    KnownId(c, origin, s, step);
    forall id ensures Sent(steps + [step], id) == Sent(steps, id) + Written(step, id) { SentMore(steps, step, id); }
    forall id | id in t.objs && Drafted(t.objs[id]) ensures HasSent(t, steps + [step], id) {
      assert DraftFrom(s, t, id);
      if id in s.objs && Drafted(s.objs[id]) && s.objs[id].inode == t.objs[id].inode {
        assert HasSent(s, steps, id);
        StepWrites(c, origin, s, step, id);
      }
    }
  }

  lemma KnownId(c: Config, origin: Names, s: Sys, step: Step)
    requires Inv(c, origin, s) && Enabled(c, s, step)
    ensures forall id :: id >= s.next ==> Written(step, id) == []
    ensures step.WriteStep? ==> forall r :: r in s.reqs && s.reqs[r].task.Put? ==> s.reqs[r].task.id != step.id
  {
    hide Inv, WellFormed;
    if step.WriteStep? { ObjIsFine(c, origin, s, step.id); }
  }

  /** The decision a step takes for a PUT is on its Object's data. */
  lemma DecidedData(c: Config, origin: Names, s: Sys, rid: nat, estimate: nat)
    requires Inv(c, origin, s) && Enabled(c, s, AdvanceStep(rid, estimate)) && Deciding(c, s, rid).Some? && s.reqs[rid].task.Put?
    ensures s.reqs[rid].task.id in s.objs && Drafted(s.objs[s.reqs[rid].task.id])
    ensures var t, i := Advance(c, s, rid, estimate), s.objs[s.reqs[rid].task.id].inode;
            |t.decided| > 0 && Last(t.decided).HandedName? && (i in s.journal.recs ==> Last(t.decided).data == s.journal.recs[i].data)
  {
    hide Inv, WellFormed, Fold, Sees, StepReading, StepServing, StepOpening, MetaCallFine, BodyCallFine, Marked, PutJournal, PutNext, Deciding, Separate;
    DecidingSees(c, origin, s, rid);
    DevicePuts.PutsKnown(c, origin, s, rid);
    ReqIsFine(c, origin, s, rid);
    var (prev, got) := Deciding(c, s, rid).value;
    SeesKnown(c, origin, s, s.reqs[rid].name, prev, got);
  }

  /** A step takes no decision, or one; and no request's task changes. */
  lemma StepDecided(c: Config, origin: Names, s: Sys, step: Step)
    requires Inv(c, origin, s) && Enabled(c, s, step)
    ensures var t := Do(c, s, step);
            && (forall rid :: rid in s.reqs ==> rid in t.reqs && t.reqs[rid].task == s.reqs[rid].task)
            && (|| t.decided == s.decided
                || (&& step.AdvanceStep? && step.rid in s.reqs && Deciding(c, s, step.rid).Some?
                    && |t.decided| == |s.decided| + 1 && t.decided[..|s.decided|] == s.decided && Last(t.decided).rid == step.rid))
  {
    hide Inv, WellFormed, Advance, Separate, Deciding, Wrote, Removed;
    if step.AdvanceStep? {
      if Deciding(c, s, step.rid).Some? {
        DecideDecides(c, origin, s, step.rid, step.estimate);
        hide Fold, Reply, Matches;
      } else {
        AdvanceUndecided(c, s, step.rid, step.estimate);
      }
    } else {
      OtherLasts(c, origin, s, step);
    }
  }

  lemma OldRequests(c: Config, origin: Names, s: Sys)
    requires Audit(c, origin, s)
    ensures forall i :: 0 <= i < |s.decided| ==> s.decided[i].rid in s.reqs
  {
    forall i | 0 <= i < |s.decided| ensures s.decided[i].rid in s.reqs {
      assert EventFine(c, origin, s, i);
    }
  }

  lemma PutsSentKept(c: Config, origin: Names, s: Sys, steps: seq<Step>, step: Step)
    requires Inv(c, origin, s) && Audit(c, origin, s) && Enabled(c, s, step) && Drafts(s, steps) && PutsSent(s, steps)
    ensures PutsSent(Do(c, s, step), steps + [step])
  {
    hide Inv, Audit, Sent, Enabled, Do, Advance, Deciding;
    var t := Do(c, s, step);
    KnownId(c, origin, s, step);
    StepDecided(c, origin, s, step);
    OldRequests(c, origin, s);
    forall id ensures Sent(steps + [step], id) == Sent(steps, id) + Written(step, id) { SentMore(steps, step, id); }
    if t.decided != s.decided && s.reqs[step.rid].task.Put? { DecisionSent(c, origin, s, steps, step.rid, step.estimate); }
    forall i | 0 <= i < |t.decided| && t.decided[i].HandedName? && t.decided[i].rid in t.reqs && t.reqs[t.decided[i].rid].task.Put?
      ensures t.decided[i].data == Sent(steps + [step], t.reqs[t.decided[i].rid].task.id)
    {
      if i < |s.decided| { assert t.decided[i] == s.decided[i]; }
    }
  }

  lemma DecisionSent(c: Config, origin: Names, s: Sys, steps: seq<Step>, rid: nat, estimate: nat)
    requires Inv(c, origin, s) && Drafts(s, steps) && rid in s.reqs && s.reqs[rid].task.Put?
    requires Enabled(c, s, AdvanceStep(rid, estimate)) && Deciding(c, s, rid).Some?
    ensures var t := Do(c, s, AdvanceStep(rid, estimate));
            |t.decided| > 0 && Last(t.decided).data == Sent(steps, s.reqs[rid].task.id)
  {
    hide Inv, Sent, Enabled, Advance, Deciding;
    DecidedData(c, origin, s, rid, estimate);
    assert HasSent(s, steps, s.reqs[rid].task.id);
  }
}
