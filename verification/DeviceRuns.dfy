/** Whole runs: every step keeps the invariant, from any mounted store. */
module DeviceRuns {
  import opened Base
  import opened Engine
  import opened Journals
  import opened Objects
  import opened Metadata
  import opened Device
  import opened DeviceSpec
  import opened DeviceReads
  import opened DeviceSteps
  import opened DeviceWrites
  import opened DeviceDecide
  import opened DevicePuts

  // ----- one step -----

  lemma SlotKnown(s: Sys, name: string)
    requires |s.journal.stores| > 0 && NamesOk(s) && name in s.names
    ensures s.names[name].id in s.objs
  {
    assert SlotFine(s, name);
  }

  lemma PinsKnown(c: Config, s: Sys, rid: nat, id: nat)
    requires s.applied < |s.journal.stores| && rid in s.reqs && ReqFine(c, s, rid) && id in Pins(s.reqs[rid])
    ensures id in s.objs
  {
    hide MetaCallFine, BodyCallFine, Slice;
  }

  /** No reference dangles: what the map and the requests hold is alive. */
  lemma NothingDangles(c: Config, origin: Names, s: Sys)
    requires Inv(c, origin, s)
    ensures WellFormed(s)
  {
    hide Inv, MicroInv, JournalInv, JournalOk, ObjsOk, NamesOk, TempsOk, ReqsOk, ReqFine, Pins;
    InvParts(c, origin, s);
    forall name | name in s.names ensures s.names[name].id in s.objs {
      SlotKnown(s, name);
    }
    forall rid, id | rid in s.reqs && id in Pins(s.reqs[rid]) ensures id in s.objs {
      ReqIsFine(c, origin, s, rid);
      PinsKnown(c, s, rid, id);
    }
  }

  lemma OpensSlot(c: Config, origin: Names, s: Sys, rid: nat, id: nat)
    requires Inv(c, origin, s) && rid in s.reqs && s.reqs[rid].pc == Opening && s.reqs[rid].task.Get?
    requires id in s.objs && s.objs[id].stat.state in {Missing, Active} && s.objs[id].stat.name == s.reqs[rid].name
    ensures Inv(c, origin, At(s, rid, Opened(id)))
  {
    hide Inv;
    ReqIsFine(c, origin, s, rid);
    AtKeeps(c, origin, s, rid, Opened(id));
  }

  lemma OpeningOk(c: Config, origin: Names, s: Sys, rid: nat)
    requires Inv(c, origin, s) && WellFormed(s) && rid in s.reqs && s.reqs[rid].pc == Opening
    requires !Waiting(c, s, rid) && Deciding(c, s, rid).None?
    ensures Inv(c, origin, StepOpening(s, rid))
  {
    hide Inv;
    var r := s.reqs[rid];
    if r.name !in s.names {
      StartSearchOk(c, origin, s, r.name);
    } else {
      var id := s.names[r.name].id;
      SlotState(c, origin, s, r.name);
      if r.task.Get? {
        OpensSlot(c, origin, s, rid, id);
      } else {
        StartReadingOk(c, origin, s, rid, id, 0);
      }
    }
  }

  lemma ConfirmedId(c: Config, origin: Names, s: Sys, rid: nat)
    requires Inv(c, origin, s) && rid in s.reqs && s.reqs[rid].pc.Confirming?
    ensures s.reqs[rid].pc.id in s.objs
  {
    hide Inv;
    ReqIsFine(c, origin, s, rid);
  }

  lemma AdvanceOk(c: Config, origin: Names, s: Sys, rid: nat, estimate: nat)
    requires Inv(c, origin, s) && Enabled(c, s, AdvanceStep(rid, estimate))
    ensures Inv(c, origin, Advance(c, s, rid, estimate))
  {
    hide Inv, WellFormed, StepOpening, StepReading, StepServing, Decide, Separate;
    if Deciding(c, s, rid).Some? {
      DecidingSees(c, origin, s, rid);
      if s.reqs[rid].task.Put? { PutsKnown(c, origin, s, rid); }
      DecideOk(c, origin, s, rid, estimate);
    } else {
      match s.reqs[rid].pc
      case Opening => OpeningOk(c, origin, s, rid);
      case Opened(_) => OpenedOk(c, origin, s, rid);
      case Reading(_, _, _, _) => StepReadingOk(c, origin, s, rid);
      case Serving(_, _, _, _, _) => StepServingOk(c, origin, s, rid);
      case Confirming(_) =>
        ConfirmedId(c, origin, s, rid);
        ConfirmingOk(c, origin, s, rid);
      case Settling(_, _) => SettlingOk(c, origin, s, rid);
      case Finished(_) =>
    }
  }

  /** Whatever step is taken next, the invariant holds after it. */
  lemma StepOk(c: Config, origin: Names, s: Sys, step: Step)
    requires Inv(c, origin, s) && Enabled(c, s, step)
    ensures Inv(c, origin, Do(c, s, step))
  {
    hide Inv, WellFormed, Advance, Separate;
    match step
    case LandStep => LandOk(c, origin, s);
    case CommitStep(collection, end) => CommitOk(c, origin, s, collection, end);
    case CreateStep(name, estimate) => CreateOk(c, origin, s, name, estimate);
    case WriteStep(id, bytes) => WriteChunkOk(c, origin, s, id, bytes);
    case ReleaseStep(id) => ReleaseOk(c, origin, s, id);
    case LoadStep(name) => LoadOk(c, origin, s, name);
    case FoundStep(name) => FoundOk(c, origin, s, name);
    case BeginStep(rid, name, task) => BeginOk(c, origin, s, rid, name, task);
    case AdvanceStep(rid, estimate) => AdvanceOk(c, origin, s, rid, estimate);
  }

  // ----- mounting -----

  /** A store with nothing in the temporary space. */
  ghost predicate Swept(store: Store) {
    && OnePlace(store)
    && (forall at :: at in store ==> at == Ordinary(at.name) && store[at].attrs.Some? && !store[at].attrs.value.retired)
  }

  function Found(e: Entry, name: string): Rec
    requires e.attrs.Some?
  {
    Rec(name, None, Some(e.attrs.value.ts), e.attrs.value.deleted, e.data, e.header, 0, 0, Some(0))
  }

  ghost predicate Recovers(store: Store, recs: map<nat, Rec>)
    requires Swept(store)
  {
    && (forall at :: at in store ==> store[at].inode in recs && recs[store[at].inode] == Found(store[at], at.name))
    && (forall i :: i in recs ==> exists at :: at in store && store[at].inode == i)
  }

  /** The state right after mounting: no Objects, no requests, nothing queued. */
  ghost predicate Initial(c: Config, origin: Names, s: Sys) {
    && c.chunk > 0
    && |s.journal.stores| == 1 && s.journal.ops == [] && Swept(s.journal.stores[0])
    && Recovers(s.journal.stores[0], s.journal.recs)
    && s == Sys(s.journal, 0, map[], map[], map[], map[], s.next, [], [], [])
    && (forall i :: i in s.journal.recs ==> i < s.next)
    && (forall name :: Lookup(origin, name) == Shows(s.journal.stores[0], name))
  }

  lemma InitialMicro(s: Sys)
    requires |s.journal.stores| == 1 && s.journal.ops == [] && Swept(s.journal.stores[0])
    requires Recovers(s.journal.stores[0], s.journal.recs)
    ensures MicroInv(s.journal)
  {
    var j := s.journal;
    assert forall i :: i in j.recs ==> RecOk(j, i);
  }

  lemma InitialJournal(s: Sys)
    requires |s.journal.stores| == 1 && s.journal.ops == [] && Swept(s.journal.stores[0])
    requires Recovers(s.journal.stores[0], s.journal.recs)
    ensures JournalInv(s.journal)
  {
    InitialMicro(s);
    hide MicroInv;
  }

  lemma InitialOk(c: Config, origin: Names, s: Sys)
    requires Initial(c, origin, s)
    ensures Inv(c, origin, s)
  {
    InitialJournal(s);
    hide JournalInv, MicroInv;
  }

  // ----- runs -----

  ghost predicate Run(c: Config, origin: Names, states: seq<Sys>, steps: seq<Step>) {
    && |states| == |steps| + 1
    && Initial(c, origin, states[0])
    && (forall k :: 0 <= k < |steps| ==> Enabled(c, states[k], steps[k]) && states[k + 1] == Do(c, states[k], steps[k]))
  }

  lemma RunLength(c: Config, origin: Names, states: seq<Sys>, steps: seq<Step>)
    requires Run(c, origin, states, steps)
    ensures |states| == |steps| + 1
  {
    hide Initial, Enabled, Do;
  }

  lemma {:induction false} RunKeeps(c: Config, origin: Names, states: seq<Sys>, steps: seq<Step>, n: nat)
    requires Run(c, origin, states, steps) && n < |states|
    ensures Inv(c, origin, states[n])
    decreases n
  {
    hide Inv, Initial, Enabled, Do;
    if n == 0 {
      InitialOk(c, origin, states[0]);
    } else {
      RunKeeps(c, origin, states, steps, n - 1);
      StepOk(c, origin, states[n - 1], steps[n - 1]);
    }
  }

  /** One more step of a run. */
  lemma RunOn(c: Config, origin: Names, states: seq<Sys>, steps: seq<Step>, step: Step)
    requires Run(c, origin, states, steps) && Enabled(c, Last(states), step)
    ensures Run(c, origin, states + [Do(c, Last(states), step)], steps + [step])
  {
    hide Initial, Enabled, Do;
    var more, all := states + [Do(c, Last(states), step)], steps + [step];
    assert more[0] == states[0];
    forall k | 0 <= k < |all| ensures Enabled(c, more[k], all[k]) && more[k + 1] == Do(c, more[k], all[k]) {
      if k < |steps| {
        assert more[k] == states[k] && more[k + 1] == states[k + 1] && all[k] == steps[k];
      } else {
        assert more[k] == Last(states) && all[k] == step;
      }
    }
  }

  lemma RunNow(c: Config, origin: Names, states: seq<Sys>, steps: seq<Step>)
    requires Run(c, origin, states, steps)
    ensures Inv(c, origin, Last(states)) && WellFormed(Last(states))
  {
    hide Run, Inv, WellFormed;
    RunLength(c, origin, states, steps);
    RunKeeps(c, origin, states, steps, |states| - 1);
    NothingDangles(c, origin, Last(states));
  }
}
