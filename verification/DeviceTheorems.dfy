/** What every run of a Device guarantees. */
module DeviceTheorems {
  import opened Base
  import opened Engine
  import opened Journals
  import opened Objects
  import opened Transactions
  import opened Device
  import opened DeviceSpec
  import opened DeviceReads
  import opened DeviceSteps
  import opened DeviceDecide
  import opened DeviceRuns
  import opened DeviceAudit
  import opened DeviceCuts
  import opened DeviceDurable
  import opened DeviceGets
  import opened DeviceDrafts
  import opened Decisions

  ghost predicate Sane(c: Config, origin: Names, s: Sys) {
    Inv(c, origin, s) && Audit(c, origin, s) && CutsOk(c, origin, s) && AllKept(c, s)
  }

  lemma InitialSane(c: Config, origin: Names, s: Sys)
    requires Initial(c, origin, s)
    ensures Sane(c, origin, s)
  {
    InitialOk(c, origin, s);
    InitialCut(c, origin, s);
    hide Inv, Recovers, Swept, CutFine, Fold;
  }

  lemma InitialCut(c: Config, origin: Names, s: Sys)
    requires Initial(c, origin, s)
    ensures CutFine(c, origin, s, START)
  {
    hide Recovers, OnePlace, Shows;
  }

  lemma {:induction false} RunSane(c: Config, origin: Names, states: seq<Sys>, steps: seq<Step>, n: nat)
    requires Run(c, origin, states, steps) && n < |states|
    ensures Sane(c, origin, states[n])
    decreases n
  {
    hide Inv, Initial, Enabled, Do, Audit, CutsOk, AllKept;
    if n == 0 {
      InitialSane(c, origin, states[0]);
    } else {
      var s, step := states[n - 1], steps[n - 1];
      RunSane(c, origin, states, steps, n - 1);
      StepOk(c, origin, s, step);
      AuditKept(c, origin, s, step);
      CutsKept(c, origin, s, step);
      KeptKept(c, origin, s, step);
    }
  }

  // ----- what clients write -----

  /** In every state of every run, an Object being written has the bytes sent to
      it so far, in order, and so has the decision of a PUT. */
  lemma {:induction false} RunDrafts(c: Config, origin: Names, states: seq<Sys>, steps: seq<Step>, n: nat)
    requires Run(c, origin, states, steps) && n < |states|
    ensures Drafts(states[n], steps[..n]) && PutsSent(states[n], steps[..n])
    decreases n
  {
    hide Inv, Audit, CutsOk, AllKept, Initial, Enabled, Do, Drafts, PutsSent;
    if n == 0 {
      InitialDrafts(c, origin, states[0]);
      assert steps[..0] == [];
    } else {
      RunDrafts(c, origin, states, steps, n - 1);
      RunSane(c, origin, states, steps, n - 1);
      DraftsKept(c, origin, states[n - 1], steps[..n - 1], steps[n - 1]);
      PutsSentKept(c, origin, states[n - 1], steps[..n - 1], steps[n - 1]);
      assert steps[..n] == steps[..n - 1] + [steps[n - 1]];
    }
  }

  lemma InitialDrafts(c: Config, origin: Names, s: Sys)
    requires Initial(c, origin, s)
    ensures Drafts(s, []) && PutsSent(s, [])
  {
    hide Recovers, Swept;
  }

  // ----- writes are linearizable -----

  /** At every moment each name shows, once the queue has landed, exactly what
      the decisions so far make of it, taken in their order. */
  lemma Linearizable(c: Config, origin: Names, states: seq<Sys>, steps: seq<Step>, n: nat, name: string)
    requires Run(c, origin, states, steps) && n < |states|
    ensures |states[n].journal.stores| > 0
    ensures Shows(Virtual(states[n].journal), name) == Lookup(Fold(c, origin, states[n].decided), name)
  {
    hide Run, Inv, Fold, Shows;
    RunKeeps(c, origin, states, steps, n);
    SpecAt(c, origin, states[n], name);
  }

  ghost predicate Tells(c: Config, origin: Names, s: Sys, rid: nat, outcome: Outcome, i: nat) {
    && rid in s.reqs && i < |s.decided| && s.decided[i].rid == rid
    && Matches(s.decided[i], s.reqs[rid])
    && Reply(c, Fold(c, origin, s.decided[..i]), s.decided[i]) == outcome
  }

  /** A decision that is not answered with Done changes nothing. */
  lemma OnlyDoneChanges(c: Config, names: Names, e: Event)
    requires Reply(c, names, e) != Done
    ensures SpecStep(c, names, e) == names
    ensures Reply(c, names, e) == Failed ==> e.Posted?
  {
    hide Metadata.Post, Metadata.Put;
  }

  /** No request has more than one decision taken, and any it has is on what it
      asked for and answered as the specification says; a PUT's carries all the
      bytes written to its Object, in the order in which they were. A client told Done,
      Conflict or Dropped had one; one told Failed had none, or a POST's that
      changed nothing. */
  lemma AnswersAgree(c: Config, origin: Names, states: seq<Sys>, steps: seq<Step>, n: nat, rid: nat)
    requires Run(c, origin, states, steps) && n < |states| && rid in states[n].reqs && states[n].reqs[rid].pc.Finished?
    ensures var s, r := states[n], states[n].reqs[rid];
            && (!r.task.Get? && r.pc.outcome in {Done, Conflict, Dropped} ==> HasEvent(s, rid))
            && |states| == |steps| + 1
            && (forall i :: 0 <= i < |s.decided| && s.decided[i].rid == rid ==>
                  && Tells(c, origin, s, rid, r.pc.outcome, i)
                  && (r.pc.outcome != Done ==> SpecStep(c, Fold(c, origin, s.decided[..i]), s.decided[i]) == Fold(c, origin, s.decided[..i]))
                  && (r.pc.outcome == Failed ==> s.decided[i].Posted?)
                  && (r.task.Put? ==> s.decided[i].HandedName? && s.decided[i].data == Sent(steps[..n], r.task.id)))
            && (forall i, k :: 0 <= i < k < |s.decided| ==> s.decided[i].rid != s.decided[k].rid)
  {
    hide Run, Inv, CutsOk, AllKept, Fold, Reply, Matches, SpecStep;
    RunSane(c, origin, states, steps, n);
    RunLength(c, origin, states, steps);
    RunDrafts(c, origin, states, steps, n);
    hide Drafts, Sent;
    var s, r := states[n], states[n].reqs[rid];
    forall i | 0 <= i < |s.decided| && s.decided[i].rid == rid
      ensures Tells(c, origin, s, rid, r.pc.outcome, i)
      ensures r.pc.outcome != Done ==> SpecStep(c, Fold(c, origin, s.decided[..i]), s.decided[i]) == Fold(c, origin, s.decided[..i])
      ensures r.pc.outcome == Failed ==> s.decided[i].Posted?
      ensures r.task.Put? ==> s.decided[i].HandedName? && s.decided[i].data == Sent(steps[..n], r.task.id)
    {
      assert EventFine(c, origin, s, i);
      if r.task.Put? { PutsHand(s.decided[i], r); }
      if r.pc.outcome != Done { OnlyDoneChanges(c, Fold(c, origin, s.decided[..i]), s.decided[i]); }
    }
    hide HasEvent;
  }

  /** What the client of a put or delete asked for. */
  ghost predicate AskedFor(c: Config, task: Task, sent: Bytes, v: Version) {
    match task
    case Put(_, ts, meta) => v.ts == ts && !v.deleted && v.data == sent && c.decode(v.header).data == meta
    case Delete(ts, tombstone) => v.ts == ts && v.deleted && v.data == [] && IsTombstone(ts, tombstone, c.decode(v.header).data)
    case _ => true
  }

  lemma HandedVersion(c: Config, names: Names, e: Event)
    requires RoundTrips(c) && e.HandedName? && Reply(c, names, e) == Done
    ensures var v := Lookup(SpecStep(c, names, e), e.name);
            && v.Some? && v.value.ts == e.ts && v.value.deleted == e.deleted && v.value.data == e.data
            && c.decode(v.value.header).data == e.meta
  {
  }

  /** A put or delete that is told Done leaves under its name, at its decision,
      what its client asked for: all the bytes that were written, or none; the
      timestamp; and the metadata that was handed in. */
  lemma TakesEffect(c: Config, origin: Names, states: seq<Sys>, steps: seq<Step>, n: nat, i: nat)
    requires Run(c, origin, states, steps) && n < |states| && i < |states[n].decided| && RoundTrips(c)
    requires var s := states[n];
             && s.decided[i].rid in s.reqs && (s.reqs[s.decided[i].rid].task.Put? || s.reqs[s.decided[i].rid].task.Delete?)
             && Reply(c, Fold(c, origin, s.decided[..i]), s.decided[i]) == Done
    ensures |states| == |steps| + 1
    ensures var s := states[n];
            var r := s.reqs[s.decided[i].rid];
            var v := Lookup(Fold(c, origin, s.decided[..i + 1]), r.name);
            v.Some? && AskedFor(c, r.task, if r.task.Put? then Sent(steps[..n], r.task.id) else [], v.value)
  {
    hide Run, Inv, CutsOk, AllKept, Fold, Reply, SpecStep, RoundTrips, Drafts, Sent, IsTombstone;
    RunSane(c, origin, states, steps, n);
    RunLength(c, origin, states, steps);
    RunDrafts(c, origin, states, steps, n);
    var s := states[n];
    assert EventFine(c, origin, s, i);
    FoldAppend(c, origin, s.decided[..i], s.decided[i]);
    assert s.decided[..i + 1] == s.decided[..i] + [s.decided[i]];
    HandedVersion(c, Fold(c, origin, s.decided[..i]), s.decided[i]);
  }

  lemma PutsHand(e: Event, r: Req)
    requires Matches(e, r) && r.task.Put?
    ensures e.HandedName?
  {
  }

  lemma DecidedGrows(c: Config, origin: Names, s: Sys, step: Step)
    requires Inv(c, origin, s) && Enabled(c, s, step)
    ensures s.decided <= Do(c, s, step).decided
  {
    hide Inv, WellFormed, Advance, Separate, WriteChunk, Release, Waiting, Deciding, Lasts;
    if step.AdvanceStep? {
      if Deciding(c, s, step.rid).Some? {
        DecideDecides(c, origin, s, step.rid, step.estimate);
        hide Fold, Reply, Matches;
      } else {
        AdvanceShape(c, origin, s, step.rid, step.estimate);
      }
    } else {
      OtherLasts(c, origin, s, step);
    }
  }

  lemma {:induction false} DecidedPrefix(c: Config, origin: Names, states: seq<Sys>, steps: seq<Step>, k: nat, n: nat)
    requires Run(c, origin, states, steps) && k <= n < |states|
    ensures states[k].decided <= states[n].decided
    decreases n
  {
    hide Inv, Initial, Enabled, Do;
    if k < n {
      DecidedPrefix(c, origin, states, steps, k, n - 1);
      RunKeeps(c, origin, states, steps, n - 1);
      DecidedGrows(c, origin, states[n - 1], steps[n - 1]);
    }
  }

  /** Real-time order: what a request decides comes after every decision taken
      before the request began, and stays where it is. */
  lemma RealTimeOrder(c: Config, origin: Names, states: seq<Sys>, steps: seq<Step>, k: nat, n: nat, i: nat)
    requires Run(c, origin, states, steps) && k <= n < |states| && i < |states[n].decided|
    requires states[n].decided[i].rid !in states[k].reqs
    ensures |states[k].decided| <= i
    ensures states[k].decided == states[n].decided[..|states[k].decided|]
  {
    hide Run, Inv, CutsOk, AllKept, Fold, Reply, Matches;
    DecidedPrefix(c, origin, states, steps, k, n);
    RunSane(c, origin, states, steps, k);
    assert i < |states[k].decided| ==> EventFine(c, origin, states[k], i);
  }

  // ----- GETs are linearizable, and a body is one version's bytes -----

  /** A put or delete of the name takes effect between two moments at which the request runs. */
  ghost predicate TakenMeanwhile(c: Config, origin: Names, states: seq<Sys>, rid: nat, name: string, m: nat, k: nat, i: nat) {
    && m <= k < |states|
    && rid in states[m].reqs && !states[m].reqs[rid].pc.Finished? && rid in states[k].reqs && !states[k].reqs[rid].pc.Finished?
    && |states[m].decided| <= i < |states[k].decided|
    && var e := states[k].decided[i];
    && e.HandedName? && e.name == name && Reply(c, Fold(c, origin, states[k].decided[..i]), e) == Done
  }

  ghost predicate Overtaken(c: Config, origin: Names, states: seq<Sys>, rid: nat, name: string) {
    exists m: nat, k: nat, i: nat :: TakenMeanwhile(c, origin, states, rid, name, m, k, i)
  }

  /** Where a name's holder is newer than it was, a decision has made it so. */
  lemma {:induction false} HolderMoves(c: Config, origin: Names, events: seq<Event>, start: nat, name: string) returns (i: nat)
    requires start <= |events|
    requires HeldTs(Lookup(Fold(c, origin, events[..start]), name)) < HeldTs(Lookup(Fold(c, origin, events), name))
    ensures start <= i < |events| && events[i].HandedName? && events[i].name == name
    ensures Reply(c, Fold(c, origin, events[..i]), events[i]) == Done
    decreases |events|
  {
    assert events[..|events|] == events;
    if start < |events| {
      var before, e := events[..|events| - 1], Last(events);
      assert before[..start] == events[..start];
      if HeldTs(Lookup(Fold(c, origin, before), name)) < HeldTs(Lookup(Fold(c, origin, events), name)) {
        i := |events| - 1;
      } else {
        i := HolderMoves(c, origin, before, start, name);
        assert before[..i] == events[..i];
      }
    }
  }

  lemma ReplacedByDecision(c: Config, origin: Names, states: seq<Sys>, steps: seq<Step>, n: nat, rid: nat, name: string)
    requires Run(c, origin, states, steps) && n < |states| && Replaced(states[..n + 1], rid, name)
    ensures Overtaken(c, origin, states[..n + 1], rid, name)
  {
    hide Run, Fold, Shows, Reply;
    var m: nat, k: nat, v, w :| ReplacedAt(states[..n + 1], rid, name, m, k, v, w);
    Linearizable(c, origin, states, steps, m, name);
    Linearizable(c, origin, states, steps, k, name);
    DecidedPrefix(c, origin, states, steps, m, k);
    assert states[k].decided[..|states[m].decided|] == states[m].decided;
    var i := HolderMoves(c, origin, states[k].decided, |states[m].decided|, name);
    assert TakenMeanwhile(c, origin, states[..n + 1], rid, name, m, k, i);
  }

  lemma {:induction false} RunWrites(c: Config, origin: Names, states: seq<Sys>, steps: seq<Step>, n: nat)
    requires Run(c, origin, states, steps) && n < |states|
    ensures forall rid :: rid in states[n].reqs && !states[n].reqs[rid].task.Get? ==> WriteOk(states[..n + 1], states[n], rid)
    decreases n
  {
    hide Inv, Initial, Enabled, Do, WriteOk;
    if n == 0 {
      InitialRequests(c, origin, states[0]);
    } else {
      RunWrites(c, origin, states, steps, n - 1);
      forall k | 0 <= k < n ensures Inv(c, origin, states[k]) {
        RunKeeps(c, origin, states, steps, k);
      }
      DecidedPrefix(c, origin, states, steps, n - 1, n);
      forall rid | rid in states[n].reqs && !states[n].reqs[rid].task.Get? ensures WriteOk(states[..n + 1], states[n], rid) {
        WriteGoesOn(c, origin, states[..n], states[n - 1], steps[n - 1], rid);
        WriteLater(states[..n], states[n], rid);
        assert states[..n] + [states[n]] == states[..n + 1];
      }
    }
  }

  /** A put, delete or POST fails only by its own decision, which is then a POST's
      that changed nothing, or if a put or delete of the name took effect while it ran. */
  lemma WritesFailOvertaken(c: Config, origin: Names, states: seq<Sys>, steps: seq<Step>, n: nat, rid: nat)
    requires Run(c, origin, states, steps) && n < |states| && rid in states[n].reqs && !states[n].reqs[rid].task.Get?
    requires states[n].reqs[rid].pc == Finished(Failed)
    ensures HasEvent(states[n], rid) || Overtaken(c, origin, states[..n + 1], rid, states[n].reqs[rid].name)
  {
    hide Run, HasEvent, Replaced, Overtaken;
    RunWrites(c, origin, states, steps, n);
    assert WriteOk(states[..n + 1], states[n], rid);
    if Replaced(states[..n + 1], rid, states[n].reqs[rid].name) { ReplacedByDecision(c, origin, states, steps, n, rid, states[n].reqs[rid].name); }
  }

  /** A body is the asked range of one version that the name showed while the
      request ran; Deleted and NotFound were true at such a moment too. It fails
      only if a put or delete of the name took effect while it ran. */
  lemma GetsLinearize(c: Config, origin: Names, states: seq<Sys>, steps: seq<Step>, n: nat, rid: nat)
    requires Run(c, origin, states, steps) && n < |states| && rid in states[n].reqs && states[n].reqs[rid].task.Get?
    requires states[n].reqs[rid].pc.Finished?
    ensures var r := states[n].reqs[rid];
            match r.pc.outcome
            case NotFound => Shown(states[..n + 1], rid, r.name, None)
            case Deleted => exists v: Version :: v.deleted && Shown(states[..n + 1], rid, r.name, Some(v))
            case Served(_, body) =>
              exists v: Version :: BodyOf(v, body, r.task.start, r.task.stop) && Shown(states[..n + 1], rid, r.name, Some(v))
            case Failed => Overtaken(c, origin, states[..n + 1], rid, r.name)
            case _ => false
  {
    hide Run, Shown, BodyOf, Replaced, Overtaken;
    RunGets(c, origin, states, steps, n);
    assert GetOk(states[..n + 1], states[n], rid);
    if states[n].reqs[rid].pc.outcome == Failed { ReplacedByDecision(c, origin, states, steps, n, rid, states[n].reqs[rid].name); }
  }

  /** Metadata is never torn and never out of date: a read that ends at the
      version it began with returns the one latest header prepared for its Object. */
  lemma MetadataIsCurrent(c: Config, origin: Names, states: seq<Sys>, steps: seq<Step>, n: nat, rid: nat)
    requires Run(c, origin, states, steps) && n < |states| && rid in states[n].reqs
    requires states[n].reqs[rid].pc.Reading? && states[n].reqs[rid].pc.call.MetaBack?
    requires states[n].reqs[rid].pc.id in states[n].objs
    requires states[n].objs[states[n].reqs[rid].pc.id].version == states[n].reqs[rid].pc.version
    requires |states[n].reqs[rid].pc.call.chunk| < c.chunk
    ensures var s, o := states[n], states[n].objs[states[n].reqs[rid].pc.id];
            && o.inode in s.journal.recs
            && s.reqs[rid].pc.call.data + s.reqs[rid].pc.call.chunk == s.journal.recs[o.inode].header
            && (o.stat.state == Active ==>
                  Lookup(Fold(c, origin, s.decided), o.stat.name) ==
                  Some(Version(o.stat.ts, o.stat.deleted, s.journal.recs[o.inode].data, s.reqs[rid].pc.call.data + s.reqs[rid].pc.call.chunk)))
  {
    hide Run, Inv, Fold, ReqFine, Shows, ObjOk;
    var s := states[n];
    RunKeeps(c, origin, states, steps, n);
    ReqIsFine(c, origin, s, rid);
    ReadIsWhole(c, s, rid);
    var o := s.objs[s.reqs[rid].pc.id];
    if o.stat.state == Active {
      InvBasics(c, origin, s);
      ObjOkOf(c, origin, s, s.reqs[rid].pc.id);
      ShowsActive(s.journal, o);
      SpecAt(c, origin, s, o.stat.name);
    }
  }

  // ----- the queue -----

  /** Every operation in the queue can be applied when its turn comes. */
  lemma QueueApplies(c: Config, origin: Names, states: seq<Sys>, steps: seq<Step>, n: nat, k: nat)
    requires Run(c, origin, states, steps) && n < |states| && states[n].applied <= k < |states[n].journal.ops|
    ensures var j := states[n].journal;
            |j.stores| == |j.ops| + 1 && Applicable(j.stores[k], j.ops[k]) && j.stores[k + 1] == Apply(j.stores[k], j.ops[k])
  {
    hide Run;
    RunKeeps(c, origin, states, steps, n);
  }

  ghost predicate Owns(s: Sys, id: nat, at: Address)
    requires |s.journal.stores| > 0
  {
    && id in s.objs && HasEntry(s.objs[id]) && at in Virtual(s.journal)
    && Virtual(s.journal)[at].inode == s.objs[id].inode
  }

  /** Each Object with an entry owns exactly one, where its state says; no two
      share one; and every temporary entry has an owner. */
  lemma OneOwnerEach(c: Config, origin: Names, states: seq<Sys>, steps: seq<Step>, n: nat)
    requires Run(c, origin, states, steps) && n < |states|
    ensures |states[n].journal.stores| > 0
    ensures forall id, at :: Owns(states[n], id, at) ==> at == AddressOf(states[n].objs[id].stat)
    ensures forall id :: id in states[n].objs && HasEntry(states[n].objs[id]) ==> Owns(states[n], id, AddressOf(states[n].objs[id].stat))
    ensures forall a, b, at :: Owns(states[n], a, at) && Owns(states[n], b, at) ==> a == b
    ensures forall at :: at in Virtual(states[n].journal) && at.temp ==> exists id :: Owns(states[n], id, at)
    ensures forall name :: name in states[n].names && states[n].names[name].Found? ==>
              var id := states[n].names[name].id;
              id in states[n].objs && (Ordinary(name) in Virtual(states[n].journal) <==> Owns(states[n], id, Ordinary(name)))
  {
    hide Run, Inv, MicroInv, JournalInv, ObjsOk, TempsOk, NamesOk, ReqsOk, ObjOk, ObjFine;
    var s := states[n];
    RunKeeps(c, origin, states, steps, n);
    InvParts(c, origin, s);
    forall id | id in s.objs && HasEntry(s.objs[id]) ensures Owns(s, id, AddressOf(s.objs[id].stat)) {
      ObjOkOf(c, origin, s, id);
      HasItsEntry(s.journal, s.objs[id]);
    }
    forall id, at | Owns(s, id, at) ensures at == AddressOf(s.objs[id].stat) {
      OneVirtualPlace(s.journal, at, AddressOf(s.objs[id].stat));
    }
    forall a, b, at | Owns(s, a, at) && Owns(s, b, at) ensures a == b {
      if a != b { DifferentInode(c, origin, s, a, b); }
    }
    forall at | at in Virtual(s.journal) && at.temp ensures exists id :: Owns(s, id, at) {
      TempOwner(s, at);
    }
    forall name | name in s.names && s.names[name].Found?
      ensures s.names[name].id in s.objs && (Ordinary(name) in Virtual(s.journal) <==> Owns(s, s.names[name].id, Ordinary(name)))
    {
      SlotState(c, origin, s, name);
    }
  }

  lemma HasItsEntry(j: Journal, o: Obj)
    requires |j.stores| > 0 && ObjOk(j, o) && HasEntry(o)
    ensures AddressOf(o.stat) in Virtual(j) && Virtual(j)[AddressOf(o.stat)].inode == o.inode
  {
  }

  lemma TempOwner(s: Sys, at: Address)
    requires |s.journal.stores| > 0 && TempsOk(s) && at in Virtual(s.journal) && at.temp
    ensures exists id :: Owns(s, id, at)
  {
    assert TempOwned(s, at);
    var id :| id in s.objs && s.objs[id].stat.state in {InWrite, Old} && s.objs[id].inode == Virtual(s.journal)[at].inode;
    assert Owns(s, id, at);
  }

  // ----- durability -----

  /** Told Done, a change survives every crash from then on. */
  lemma DoneIsDurable(c: Config, origin: Names, states: seq<Sys>, steps: seq<Step>, n: nat, rid: nat)
    requires Run(c, origin, states, steps) && n < |states| && rid in states[n].reqs && !states[n].reqs[rid].task.Get?
    requires states[n].reqs[rid].pc == Finished(Done)
    ensures exists i: nat :: Tells(c, origin, states[n], rid, Done, i) && i < |states[n].ends| &&
              states[n].ends[i] <= DurableOf(c, states[n], states[n].reqs[rid].name)
  {
    hide Run, Inv, Audit, CutsOk, Fold, Reply, Matches;
    RunSane(c, origin, states, steps, n);
    AnswersAgree(c, origin, states, steps, n, rid);
    var i: nat :| i < |states[n].decided| && states[n].decided[i].rid == rid;
    assert Tells(c, origin, states[n], rid, Done, i);
    assert Kept(c, states[n], i);
  }
}
