/** Transaction ends. The store at the end of any transaction is a tidy one that
    shows the names as some prefix of the decisions left them, and a request is
    told its change is done only when that change is within what is durable. */
module DeviceCuts {
  import opened Base
  import opened Engine
  import opened Journals
  import opened Objects
  import opened Transactions
  import opened Metadata
  import opened Device
  import opened DeviceSpec
  import opened DeviceReads
  import opened DeviceSteps
  import opened DeviceWrites
  import opened DeviceDecide
  import opened DevicePuts
  import opened DeviceRuns
  import opened DeviceAudit

  /** address(load(entry)) is the entry's own address, for every entry, and
      only temporary ones are marked as retired. */
  ghost predicate TidyAddresses(store: Store) {
    forall at :: at in store ==>
      && store[at].attrs.Some? && AddressOf(Load(at, store[at].attrs.value)) == at
      && (!at.temp ==> !store[at].attrs.value.retired)
  }

  ghost predicate CutFine(c: Config, origin: Names, s: Sys, cut: Cut) {
    && cut.end < |s.journal.stores| && cut.decisions <= |s.decided|
    && TidyAddresses(s.journal.stores[cut.end])
    && (forall name :: Shows(s.journal.stores[cut.end], name) == Lookup(Fold(c, origin, s.decided[..cut.decisions]), name))
  }

  /** The decision prepared a transaction. */
  ghost predicate Carries(c: Config, origin: Names, s: Sys, i: nat)
    requires i < |s.decided|
  {
    Reply(c, Fold(c, origin, s.decided[..i]), s.decided[i]) == Done
  }

  /** A transaction that ends where the decision's own does, or later, carries it out. */
  ghost predicate CutsAfter(c: Config, origin: Names, s: Sys, i: nat)
    requires i < |s.decided| && |s.ends| == |s.decided|
  {
    && s.ends[i] <= Length(s.journal)
    && (Carries(c, origin, s, i) ==>
          && s.ends[i] > 0
          && (forall cut :: cut in s.cuts && s.ends[i] <= cut.end ==> i < cut.decisions))
  }

  /** The mounted store, before any transaction. */
  const START: Cut := Cut("", 0, 0)

  ghost predicate IsCut(s: Sys, end: nat) { exists cut :: cut in s.cuts && cut.end == end }

  ghost predicate CutsOk(c: Config, origin: Names, s: Sys) {
    && |s.ends| == |s.decided|
    && CutFine(c, origin, s, START)
    && (forall cut :: cut in s.cuts ==> CutFine(c, origin, s, cut))
    && (forall i :: 0 <= i < |s.decided| ==> CutsAfter(c, origin, s, i))
    && (forall n :: n in s.durable ==> IsCut(s, s.durable[n]))
  }

  // ----- the shapes a step can have -----

  ghost predicate Extends(s: Sys, t: Sys) {
    && |s.journal.stores| <= |t.journal.stores| && (forall k :: 0 <= k < |s.journal.stores| ==> t.journal.stores[k] == s.journal.stores[k])
    && Length(s.journal) <= Length(t.journal)
    && |s.decided| <= |t.decided| && t.decided[..|s.decided|] == s.decided
    && |s.ends| <= |t.ends| && t.ends[..|s.ends|] == s.ends
    && (forall n :: n in t.durable ==> (n in s.durable && t.durable[n] == s.durable[n]) || IsCut(s, t.durable[n]))
  }

  lemma CutStays(c: Config, origin: Names, s: Sys, t: Sys, cut: Cut)
    requires Extends(s, t) && CutFine(c, origin, s, cut)
    ensures CutFine(c, origin, t, cut)
  {
    assert t.decided[..cut.decisions] == s.decided[..cut.decisions];
  }

  lemma CarriesStays(c: Config, origin: Names, s: Sys, t: Sys, i: nat)
    requires Extends(s, t) && i < |s.decided|
    ensures Carries(c, origin, t, i) == Carries(c, origin, s, i)
  {
    assert t.decided[..i] == s.decided[..i];
    assert t.decided[i] == s.decided[i];
  }

  /** Between transactions the store shows what was decided. */
  lemma NewCut(c: Config, origin: Names, t: Sys, name: string)
    requires Inv(c, origin, t)
    ensures CutFine(c, origin, t, Cut(name, Length(t.journal), |t.decided|))
  {
    hide Inv, MicroInv, Fold, Shows, JournalOk, ObjsOk, TempsOk, NamesOk, ReqsOk;
    InvParts(c, origin, t);
    InvBasics(c, origin, t);
    assert t.decided[..|t.decided|] == t.decided;
    forall n ensures Shows(Virtual(t.journal), n) == Lookup(Fold(c, origin, t.decided), n) {
      SpecAt(c, origin, t, n);
    }
    TidyNow(t.journal);
  }

  lemma TidyNow(j: Journal)
    requires JournalInv(j)
    ensures |j.stores| > 0 && TidyAddresses(Virtual(j))
  {
    assert TidyStore(Virtual(j), j.recs);
    forall at | at in Virtual(j)
      ensures EntryTidy(at, Virtual(j)[at], j.recs) && (!at.temp ==> !Virtual(j)[at].attrs.value.retired)
    {
      assert EntryTidy(at, Virtual(j)[at], j.recs);
      VirtualSound(j, at);
      if !at.temp { RecBounds(j, Virtual(j)[at].inode); }
    }
    hide MicroInv, EntryTidy;
  }

  /** At most one new transaction, after which the invariant holds, and no decision. */
  ghost predicate Prepares(s: Sys, t: Sys) {
    && Extends(s, t) && t.decided == s.decided && t.ends == s.ends
    && (t.cuts == s.cuts || (exists name :: t.cuts == s.cuts + [Cut(name, Length(t.journal), |t.decided|)]))
  }

  lemma PreparesKeeps(c: Config, origin: Names, s: Sys, t: Sys)
    requires CutsOk(c, origin, s) && Inv(c, origin, t) && Prepares(s, t)
    ensures CutsOk(c, origin, t)
  {
    hide Inv, Fold, Shows, TidyAddresses, CutFine, Carries;
    CutStays(c, origin, s, t, START);
    forall cut | cut in t.cuts ensures CutFine(c, origin, t, cut) {
      if cut in s.cuts { CutStays(c, origin, s, t, cut); } else { NewCut(c, origin, t, cut.name); }
    }
    forall i | 0 <= i < |t.decided| ensures CutsAfter(c, origin, t, i) {
      assert CutsAfter(c, origin, s, i);
      CarriesStays(c, origin, s, t, i);
    }
    DurableCuts(s, t);
    hide CutsAfter, IsCut;
  }

  lemma DurableCuts(s: Sys, t: Sys)
    requires Extends(s, t) && s.cuts <= t.cuts && (forall n :: n in s.durable ==> IsCut(s, s.durable[n]))
    ensures forall n :: n in t.durable ==> IsCut(t, t.durable[n])
  {
    forall n | n in t.durable ensures IsCut(t, t.durable[n]) {
      assert IsCut(s, t.durable[n]);
      var cut :| cut in s.cuts && cut.end == t.durable[n];
      assert cut in t.cuts;
    }
  }

  /** A decision: without effect and without a transaction, or with one. */
  ghost predicate Rules(c: Config, origin: Names, s: Sys, t: Sys) {
    && Extends(s, t) && |t.decided| == |s.decided| + 1 && |t.ends| == |s.ends| + 1
    && if Carries(c, origin, t, |s.decided|)
       then
         && Last(t.ends) == Length(t.journal) && Length(s.journal) < Length(t.journal)
         && (exists name :: t.cuts == s.cuts + [Cut(name, Length(t.journal), |t.decided|)])
       else Last(t.ends) <= Length(t.journal) && t.cuts == s.cuts
  }

  lemma RulesAfter(c: Config, origin: Names, s: Sys, t: Sys, i: nat)
    requires CutsOk(c, origin, s) && Rules(c, origin, s, t) && |t.ends| == |t.decided| && i < |t.decided|
    requires forall cut :: cut in s.cuts ==> cut.end <= Length(s.journal)
    ensures CutsAfter(c, origin, t, i)
  {
    hide CutFine, Carries, IsCut;
    if i < |s.decided| {
      assert CutsAfter(c, origin, s, i);
      CarriesStays(c, origin, s, t, i);
      assert t.ends[i] == t.ends[..|s.ends|][i];
    }
  }

  lemma RulesKeeps(c: Config, origin: Names, s: Sys, t: Sys)
    requires CutsOk(c, origin, s) && Inv(c, origin, s) && Inv(c, origin, t) && Rules(c, origin, s, t)
    ensures CutsOk(c, origin, t)
  {
    hide Inv, Fold, Shows, TidyAddresses, CutsAfter, Carries;
    InvBasics(c, origin, s);
    forall cut | cut in s.cuts ensures cut.end <= Length(s.journal) {
      assert CutFine(c, origin, s, cut);
    }
    hide CutFine;
    CutStays(c, origin, s, t, START);
    forall cut | cut in t.cuts ensures CutFine(c, origin, t, cut) {
      if cut in s.cuts { CutStays(c, origin, s, t, cut); } else { NewCut(c, origin, t, cut.name); }
    }
    forall i | 0 <= i < |t.decided| ensures CutsAfter(c, origin, t, i) {
      RulesAfter(c, origin, s, t, i);
    }
    DurableCuts(s, t);
    hide IsCut;
  }

  // ----- which steps have which shape -----

  lemma {:induction false} PrepareGrows(j: Journal, ops: seq<Op>)
    ensures var k := Prepare(j, ops);
            && Length(k) == Length(j) + |ops| && |j.stores| <= |k.stores|
            && (forall n :: 0 <= n < |j.stores| ==> k.stores[n] == j.stores[n])
    decreases |ops|
  {
    if ops != [] { PrepareGrows(Append(j, ops[0]), ops[1..]); }
  }

  lemma StillPrepares(s: Sys, t: Sys)
    requires t.journal.stores == s.journal.stores && t.journal.ops == s.journal.ops
    requires t.decided == s.decided && t.ends == s.ends && t.cuts == s.cuts
    requires forall n :: n in t.durable ==> (n in s.durable && t.durable[n] == s.durable[n]) || IsCut(s, t.durable[n])
    ensures Prepares(s, t)
  {
  }

  lemma WritePrepares(s: Sys, id: nat, bytes: Bytes)
    requires id in s.objs
    ensures Prepares(s, WriteChunk(s, id, bytes))
  {
    hide WriteOps, Prepare, IsCut;
    PrepareGrows(s.journal, WriteOps(s.objs[id].stat, s.objs[id].inode, s.objs[id].written, bytes));
    assert s.decided[..|s.decided|] == s.decided && s.ends[..|s.ends|] == s.ends;
  }

  lemma ReleasePrepares(s: Sys, id: nat)
    requires id in s.objs
    ensures Prepares(s, Release(s, id))
  {
    hide RemoveOps, Prepare, IsCut;
    PrepareGrows(s.journal, RemoveOps(s.objs[id].stat));
    assert s.decided[..|s.decided|] == s.decided && s.ends[..|s.ends|] == s.ends;
  }

  lemma MarkPrepares(s: Sys, id: nat, header: Bytes, name: string)
    requires id in s.objs
    ensures Prepares(s, MarkNew(s, id, header, name))
  {
    hide HeaderOps, Prepare, IsCut;
    PrepareGrows(s.journal, HeaderOps(s.objs[id].stat, s.objs[id].inode, header));
    assert s.decided[..|s.decided|] == s.decided && s.ends[..|s.ends|] == s.ends;
  }

  lemma ReadingStill(c: Config, s: Sys, rid: nat)
    requires WellFormed(s) && rid in s.reqs && s.reqs[rid].pc.Reading?
    ensures var t := StepReading(c, s, rid); t == s.(reqs := t.reqs)
  {
    hide WellFormed, ChecksOut, Slice, Visible, AddressOf, Pins;
  }

  lemma ServingStill(c: Config, s: Sys, rid: nat)
    requires WellFormed(s) && rid in s.reqs && s.reqs[rid].pc.Serving? && s.reqs[rid].task.Get?
    ensures var t := StepServing(c, s, rid); t == s.(reqs := t.reqs)
  {
    hide WellFormed, ChecksOut, Slice, Visible, AddressOf, Pins, ReadSize;
  }

  lemma AdvancePrepares(c: Config, s: Sys, rid: nat, estimate: nat)
    requires Enabled(c, s, AdvanceStep(rid, estimate)) && Deciding(c, s, rid).None?
    ensures Prepares(s, Advance(c, s, rid, estimate))
  {
    hide WellFormed, StepReading, StepServing, Deciding, Separate, Prepares, Waiting;
    match s.reqs[rid].pc {
      case Reading(_, _, _, _) => ReadingStill(c, s, rid);
      case Serving(_, _, _, _, _) => ServingStill(c, s, rid);
      case _ =>
    }
    StillPrepares(s, Advance(c, s, rid, estimate));
  }

  lemma PutRules(c: Config, origin: Names, m: Sys, t: Sys, next: Obj, prev: Stat, ts: nat, e: Event, name: string)
    requires t.journal == PutJournal(m.journal, next, prev, ts)
    requires t.decided == m.decided + [e] && t.ends == m.ends + [Length(t.journal)] && t.durable == m.durable
    requires t.cuts == m.cuts + [Cut(name, Length(t.journal), |t.decided|)]
    requires Reply(c, Fold(c, origin, m.decided), e) == Done
    ensures Rules(c, origin, m, t)
  {
    hide Prepare, IsCut, Reply, Fold;
    PrepareGrows(Stamped(m.journal, next, ts), PutOps(next.stat, prev, ts));
    assert t.decided[..|m.decided|] == m.decided && t.ends[..|m.ends|] == m.ends;
  }

  lemma RuledRules(c: Config, origin: Names, m: Sys, t: Sys, e: Event)
    requires t.journal == m.journal && t.durable == m.durable
    requires t.decided == m.decided + [e] && t.ends == m.ends + [Length(m.journal)] && t.cuts == m.cuts
    requires Reply(c, Fold(c, origin, m.decided), e) != Done
    ensures Rules(c, origin, m, t)
  {
    hide Reply, Fold, IsCut;
    assert t.decided[..|m.decided|] == m.decided && t.ends[..|m.ends|] == m.ends;
  }

  lemma HandReply(c: Config, origin: Names, s: Sys, prev: nat, got: Option<Got>, e: Event)
    requires e.HandedName? && prev in s.objs && Sees(c, origin, s, e.name, prev, got)
    ensures Reply(c, Fold(c, origin, s.decided), e) == if e.ts <= s.objs[prev].stat.ts then Conflict else Done
  {
    hide Fold;
  }

  lemma PostReply(c: Config, origin: Names, s: Sys, prev: nat, got: Option<Got>, e: Event)
    requires e.Posted? && Sees(c, origin, s, e.name, prev, got)
    ensures Reply(c, Fold(c, origin, s.decided), e) == Done <==> Metadata.Post(got, e.post).Rewrite?
  {
    hide Fold, Metadata.Post;
  }

  lemma HandedShape(s: Sys, rid: nat, id: nat, prev: nat, ts: nat, header: Bytes, e: Event)
    requires rid in s.reqs && id in s.objs && prev in s.objs
    ensures var m := MarkNew(s, id, header, s.reqs[rid].name);
            var t := HandName(s, rid, id, prev, ts, header, e);
            && id in m.objs && t.decided == m.decided + [e] && t.durable == m.durable && m.decided == s.decided
            && if ts <= s.objs[prev].stat.ts
               then t.journal == m.journal && t.ends == m.ends + [Length(m.journal)] && t.cuts == m.cuts
               else
                 && t.journal == PutJournal(m.journal, m.objs[id], s.objs[prev].stat, ts)
                 && t.ends == m.ends + [Length(t.journal)]
                 && t.cuts == m.cuts + [Cut(s.reqs[rid].name, Length(t.journal), |t.decided|)]
  {
    hide Marked, PutJournal, PutNext;
  }

  lemma HandCuts(c: Config, origin: Names, s: Sys, rid: nat, id: nat, prev: nat, got: Option<Got>, ts: nat, header: Bytes, e: Event)
    requires CutsOk(c, origin, s) && rid in s.reqs && id in s.objs && s.objs[id].stat.state in {PreWrite, InWrite}
    requires e.HandedName? && e.ts == ts && e.name == s.reqs[rid].name && Sees(c, origin, s, e.name, prev, got)
    requires Inv(c, origin, s) && Inv(c, origin, HandName(s, rid, id, prev, ts, header, e))
    ensures CutsOk(c, origin, HandName(s, rid, id, prev, ts, header, e))
  {
    hide Inv, CutsOk, Fold, Reply, Sees, HandName, MarkNew, PutJournal, Rules, Prepares;
    SeesKnown(c, origin, s, e.name, prev, got);
    var m := MarkNew(s, id, header, s.reqs[rid].name);
    var t := HandName(s, rid, id, prev, ts, header, e);
    MarkNewOk(c, origin, s, id, header, s.reqs[rid].name);
    MarkPrepares(s, id, header, s.reqs[rid].name);
    PreparesKeeps(c, origin, s, m);
    HandedShape(s, rid, id, prev, ts, header, e);
    HandReply(c, origin, s, prev, got, e);
    if ts <= s.objs[prev].stat.ts {
      RuledRules(c, origin, m, t, e);
    } else {
      PutRules(c, origin, m, t, m.objs[id], s.objs[prev].stat, ts, e, s.reqs[rid].name);
    }
    RulesKeeps(c, origin, m, t);
  }

  lemma RepostShape(c: Config, s: Sys, rid: nat, prev: nat, got: Option<Got>)
    requires rid in s.reqs && s.reqs[rid].task.Post? && prev in s.objs
    ensures var t := DecidePost(c, s, rid, prev, got);
            var res := Metadata.Post(got, s.reqs[rid].task.post);
            && t.decided == s.decided + [Posted(rid, s.reqs[rid].name, s.reqs[rid].task.post)] && t.durable == s.durable
            && if res.Rewrite?
               then
                 && t.journal == Prepare(s.journal, HeaderOps(s.objs[prev].stat, s.objs[prev].inode, c.encode(res.blob)))
                 && t.ends == s.ends + [Length(t.journal)]
                 && t.cuts == s.cuts + [Cut(s.reqs[rid].name, Length(t.journal), |t.decided|)]
               else t.journal == s.journal && t.ends == s.ends + [Length(s.journal)] && t.cuts == s.cuts
  {
    hide Metadata.Post, Prepare, HeaderOps;
  }

  lemma PostRules(c: Config, origin: Names, s: Sys, rid: nat, prev: nat, got: Option<Got>)
    requires rid in s.reqs && s.reqs[rid].task.Post?
    requires Sees(c, origin, s, s.reqs[rid].name, prev, got)
    ensures Rules(c, origin, s, DecidePost(c, s, rid, prev, got))
  {
    hide Fold, Reply, Sees, DecidePost, Metadata.Post, Prepare, HeaderOps, IsCut;
    SeesKnown(c, origin, s, s.reqs[rid].name, prev, got);
    RepostShape(c, s, rid, prev, got);
    var t := DecidePost(c, s, rid, prev, got);
    var e := Posted(rid, s.reqs[rid].name, s.reqs[rid].task.post);
    PostReply(c, origin, s, prev, got, e);
    var res := Metadata.Post(got, s.reqs[rid].task.post);
    if res.Rewrite? {
      var ops := HeaderOps(s.objs[prev].stat, s.objs[prev].inode, c.encode(res.blob));
      HeaderOpsSome(s.objs[prev].stat, s.objs[prev].inode, c.encode(res.blob));
      PrepareGrows(s.journal, ops);
      assert t.decided[..|s.decided|] == s.decided && t.ends[..|s.ends|] == s.ends;
    } else {
      RuledRules(c, origin, s, t, e);
    }
  }

  lemma HeaderOpsSome(stat: Stat, inode: nat, header: Bytes)
    ensures |HeaderOps(stat, inode, header)| > 0
  {
  }

  lemma DecideCuts(c: Config, origin: Names, s: Sys, rid: nat, estimate: nat)
    requires Inv(c, origin, s) && CutsOk(c, origin, s) && Enabled(c, s, AdvanceStep(rid, estimate)) && Deciding(c, s, rid).Some?
    ensures CutsOk(c, origin, Advance(c, s, rid, estimate))
  {
    hide Inv, CutsOk, WellFormed, Fold, Sees, StepReading, StepServing, StepOpening, HandName, Device.FreshStamp, Device.NoOtherEstimate;
    var (prev, got) := Deciding(c, s, rid).value;
    var t := Advance(c, s, rid, estimate);
    var r := s.reqs[rid];
    AdvanceOk(c, origin, s, rid, estimate);
    DecidingSees(c, origin, s, rid);
    SeesKnown(c, origin, s, r.name, prev, got);
    hide Deciding, DecidePost;
    match r.task
    case Put(id, ts, meta) =>
      DevicePuts.PutsKnown(c, origin, s, rid);
      PutCuts(c, origin, s, rid, prev, got);
    case Delete(ts, tombstone) => DeleteCuts(c, origin, s, rid, prev, got, estimate);
    case Post(_) =>
      PostRules(c, origin, s, rid, prev, got);
      RulesKeeps(c, origin, s, t);
  }

  lemma PutCuts(c: Config, origin: Names, s: Sys, rid: nat, prev: nat, got: Option<Got>)
    requires Inv(c, origin, s) && CutsOk(c, origin, s) && rid in s.reqs && !Decided(s.reqs[rid])
    requires s.reqs[rid].task.Put? && s.reqs[rid].task.id in s.objs
    requires Sees(c, origin, s, s.reqs[rid].name, prev, got) && prev in s.objs
    requires Inv(c, origin, DecidePut(c, s, rid, prev, got))
    ensures CutsOk(c, origin, DecidePut(c, s, rid, prev, got))
  {
    hide Inv, CutsOk, Fold, Sees, HandName, MetaCallFine, BodyCallFine;
    var r := s.reqs[rid];
    ReqIsFine(c, origin, s, rid);
    var inode := s.objs[r.task.id].inode;
    var e := HandedName(rid, r.name, r.task.ts, false, if inode in s.journal.recs then s.journal.recs[inode].data else [], r.task.meta);
    HandCuts(c, origin, s, rid, r.task.id, prev, got, r.task.ts, c.encode(Metadata.Put(got, r.task.meta)), e);
  }

  lemma DeleteCuts(c: Config, origin: Names, s: Sys, rid: nat, prev: nat, got: Option<Got>, estimate: nat)
    requires Inv(c, origin, s) && CutsOk(c, origin, s) && rid in s.reqs && !Decided(s.reqs[rid]) && s.reqs[rid].task.Delete?
    requires Sees(c, origin, s, s.reqs[rid].name, prev, got) && prev in s.objs
    requires Device.FreshStamp(s.journal.recs, s.reqs[rid].name, estimate)
    requires Inv(c, origin, DecideDelete(c, s, rid, prev, got, estimate))
    ensures CutsOk(c, origin, DecideDelete(c, s, rid, prev, got, estimate))
  {
    hide Inv, CutsOk, Fold, Sees, HandName, Prepares, Device.FreshStamp;
    var r := s.reqs[rid];
    var t := Entered(s, r.name, estimate, true);
    EnteredOk(c, origin, s, r.name, estimate, true);
    EnteredSees(c, origin, s, r.name, estimate, prev, got);
    StillPrepares(s, t);
    PreparesKeeps(c, origin, s, t);
    HandCuts(c, origin, t, rid, s.next, prev, got, r.task.ts, c.encode(Metadata.Delete(got, r.task.ts, r.task.tombstone)),
             HandedName(rid, r.name, r.task.ts, true, [], TombstoneHeaders(r.task.ts, r.task.tombstone)));
  }

  lemma CutsKept(c: Config, origin: Names, s: Sys, step: Step)
    requires Inv(c, origin, s) && CutsOk(c, origin, s) && Enabled(c, s, step)
    ensures CutsOk(c, origin, Do(c, s, step))
  {
    hide Inv, WellFormed, CutsOk, Advance, Separate, WriteChunk, Release, Prepares;
    if step.AdvanceStep? && Deciding(c, s, step.rid).Some? {
      DecideCuts(c, origin, s, step.rid, step.estimate);
    } else {
      StepOk(c, origin, s, step);
      match step {
        case AdvanceStep(rid, estimate) => AdvancePrepares(c, s, rid, estimate);
        case WriteStep(id, bytes) => WritePrepares(s, id, bytes);
        case ReleaseStep(id) => ReleasePrepares(s, id);
        case _ => StillPrepares(s, Do(c, s, step));
      }
      PreparesKeeps(c, origin, s, Do(c, s, step));
    }
  }
}
