/** How often a read is tried: a call whose check misses starts again, four
    times, and a request gives up with the fifth miss in one call. */
module DeviceRetries {
  import opened Base
  import opened Engine
  import opened Device
  import opened DeviceSpec
  import opened DeviceReads
  import opened DeviceRuns
  import opened DeviceAudit
  import opened DeviceGets
  import opened DeviceTheorems

  ghost predicate OwnMiss(s: Sys, rid: nat) {
    && WellFormed(s) && rid in s.reqs && (s.reqs[rid].pc.Reading? || s.reqs[rid].pc.Serving?)
    && s.reqs[rid].pc.id in s.objs && Misses(s, s.reqs[rid].pc)
  }

  /** The request's own step does not continue a read that it was in: there was none, or it returned. */
  predicate CallEnds(before: Pc, after: Pc) {
    match before
    case Reading(_, _, _, MetaBack(_, _)) => !after.Reading?
    case Reading(_, _, _, _) => false
    case Serving(_, _, _, _, call) => call.BodyBack?
    case _ => true
  }

  /** The misses after a step, given those before it. */
  ghost function MissedAfter(s: Sys, step: Step, t: Sys, rid: nat, missed: nat): nat {
    if rid !in s.reqs || rid !in t.reqs then 0
    else if step.AdvanceStep? && step.rid == rid then
      if CallEnds(s.reqs[rid].pc, t.reqs[rid].pc) then 0 else missed + (if OwnMiss(s, rid) then 1 else 0)
    else missed
  }

  /** How many checks the read that the request is in has missed. */
  ghost function Missed(states: seq<Sys>, steps: seq<Step>, rid: nat, n: nat): nat
    requires n < |states| && n <= |steps|
  {
    if n == 0 then 0
    else MissedAfter(states[n - 1], steps[n - 1], states[n], rid, Missed(states, steps, rid, n - 1))
  }

  /** The request counts its misses, and stops at the fifth. */
  ghost predicate Counted(s: Sys, rid: nat, missed: nat)
    requires rid in s.reqs
  {
    match s.reqs[rid].pc
    case Reading(_, _, tries, _) => missed == tries <= 4
    case Serving(_, _, _, tries, _) => missed == tries <= 4
    case Finished(Failed) => missed == 5 || (missed == 0 && HasEvent(s, rid))
    case Finished(_) => missed <= 4
    case _ => missed <= 4
  }

  lemma ReadCounts(c: Config, s: Sys, rid: nat, missed: nat)
    requires WellFormed(s) && rid in s.reqs && s.reqs[rid].pc.Reading? && s.reqs[rid].pc.id in s.objs && Counted(s, rid, missed)
    ensures var t := StepReading(c, s, rid);
            && rid in t.reqs
            && Counted(t, rid, if CallEnds(s.reqs[rid].pc, t.reqs[rid].pc) then 0 else missed + (if OwnMiss(s, rid) then 1 else 0))
  {
    hide WellFormed, ChecksOut, Slice, Visible, AddressOf, HasEvent;
  }

  lemma ServeCounts(c: Config, s: Sys, rid: nat, missed: nat)
    requires WellFormed(s) && rid in s.reqs && s.reqs[rid].pc.Serving? && s.reqs[rid].task.Get?
    requires s.reqs[rid].pc.id in s.objs && Counted(s, rid, missed)
    ensures var t := StepServing(c, s, rid);
            && rid in t.reqs
            && Counted(t, rid, if CallEnds(s.reqs[rid].pc, t.reqs[rid].pc) then 0 else missed + (if OwnMiss(s, rid) then 1 else 0))
  {
    hide WellFormed, ChecksOut, Slice, Visible, AddressOf, HasEvent, ReadSize;
  }

  lemma DecisionCounts(c: Config, origin: Names, s: Sys, rid: nat, estimate: nat)
    requires Inv(c, origin, s) && Enabled(c, s, AdvanceStep(rid, estimate)) && Deciding(c, s, rid).Some?
    ensures var t := Advance(c, s, rid, estimate);
            rid in t.reqs && Counted(t, rid, 0) && CallEnds(s.reqs[rid].pc, t.reqs[rid].pc)
  {
    hide Inv, WellFormed, Separate, Fold, Reply, Matches, HasEvent, Waiting, Advance;
    DecideDecides(c, origin, s, rid, estimate);
    var t := Advance(c, s, rid, estimate);
    var e :| Decides(c, origin, s, t, rid, e);
    assert HasEvent(t, rid) by { EventThere(s, t, e); }
  }

  lemma EventThere(s: Sys, t: Sys, e: Event)
    requires t.decided == s.decided + [e]
    ensures HasEvent(t, e.rid)
  {
    assert t.decided[|s.decided|] == e;
  }

  /** The request's own step. */
  lemma OwnCounts(c: Config, origin: Names, s: Sys, rid: nat, estimate: nat, missed: nat)
    requires Inv(c, origin, s) && Enabled(c, s, AdvanceStep(rid, estimate)) && Counted(s, rid, missed)
    ensures var t := Advance(c, s, rid, estimate);
            && rid in t.reqs
            && Counted(t, rid, if CallEnds(s.reqs[rid].pc, t.reqs[rid].pc) then 0 else missed + (if OwnMiss(s, rid) then 1 else 0))
  {
    hide Inv, WellFormed, StepReading, StepServing, StepOpening, Separate, HasEvent, Deciding, OwnMiss, Decide, Counted, Waiting;
    if Deciding(c, s, rid).Some? {
      DecisionCounts(c, origin, s, rid, estimate);
    } else {
      ReqIsFine(c, origin, s, rid);
      match s.reqs[rid].pc
      case Reading(_, _, _, _) => ReadCounts(c, s, rid, missed);
      case Serving(_, _, _, _, _) => ServeCounts(c, s, rid, missed);
      case _ => FreshCounts(c, s, rid, estimate);
    }
  }

  lemma FreshCounts(c: Config, s: Sys, rid: nat, estimate: nat)
    requires Enabled(c, s, AdvanceStep(rid, estimate)) && Deciding(c, s, rid).None?
    requires !s.reqs[rid].pc.Reading? && !s.reqs[rid].pc.Serving?
    ensures var t := Advance(c, s, rid, estimate); rid in t.reqs && Counted(t, rid, 0)
  {
    hide WellFormed, Separate, HasEvent, Deciding;
  }

  lemma OthersCounted(s: Sys, t: Sys, rid: nat, missed: nat)
    requires rid in s.reqs && rid in t.reqs && t.reqs[rid] == s.reqs[rid] && s.decided <= t.decided && Counted(s, rid, missed)
    ensures Counted(t, rid, missed)
  {
    hide HasEvent;
    if HasEvent(s, rid) { EventStays(s, t, rid); }
  }

  lemma StepCounts(c: Config, origin: Names, s: Sys, step: Step, rid: nat, missed: nat)
    requires Inv(c, origin, s) && Enabled(c, s, step) && rid in Do(c, s, step).reqs
    requires rid in s.reqs ==> Counted(s, rid, missed)
    ensures Counted(Do(c, s, step), rid, MissedAfter(s, step, Do(c, s, step), rid, missed))
  {
    hide Inv, Enabled, Do, Counted, OwnMiss, CallEnds;
    if rid !in s.reqs {
      NewRequest(c, origin, s, step, rid);
      NewCounted(Do(c, s, step), rid);
    } else if step.AdvanceStep? && step.rid == rid {
      OwnAdvance(c, s, rid, step.estimate);
      OwnCounts(c, origin, s, rid, step.estimate, missed);
    } else {
      OthersSame(c, origin, s, step, rid);
      DecidedGrows(c, origin, s, step);
      OthersCounted(s, Do(c, s, step), rid, missed);
    }
  }

  lemma {:induction false} RunCounts(c: Config, origin: Names, states: seq<Sys>, steps: seq<Step>, n: nat, rid: nat)
    requires Run(c, origin, states, steps) && n < |states| && rid in states[n].reqs
    ensures |states| == |steps| + 1 && Counted(states[n], rid, Missed(states, steps, rid, n))
    decreases n
  {
    hide Inv, Initial, Enabled, Do, Counted, MissedAfter;
    RunLength(c, origin, states, steps);
    if n == 0 {
      InitialRequests(c, origin, states[0]);
    } else {
      RunKeeps(c, origin, states, steps, n - 1);
      if rid in states[n - 1].reqs { RunCounts(c, origin, states, steps, n - 1, rid); }
      StepCounts(c, origin, states[n - 1], steps[n - 1], rid, Missed(states, steps, rid, n - 1));
    }
  }

  lemma NewCounted(s: Sys, rid: nat)
    requires rid in s.reqs && s.reqs[rid].pc == Opening
    ensures Counted(s, rid, 0)
  {
  }

  lemma OwnAdvance(c: Config, s: Sys, rid: nat, estimate: nat)
    requires Enabled(c, s, AdvanceStep(rid, estimate))
    ensures WellFormed(s) && rid in s.reqs && (s.reqs[rid].pc.Serving? ==> s.reqs[rid].task.Get?)
    ensures Do(c, s, AdvanceStep(rid, estimate)) == Advance(c, s, rid, estimate)
  {
    hide WellFormed, Advance, Waiting, Deciding, Separate;
  }

  /** A request is never told Failed before the fifth miss of one read, unless
      its POST was refused, and always with it. */
  lemma GivesUpAtTheFifth(c: Config, origin: Names, states: seq<Sys>, steps: seq<Step>, n: nat, rid: nat)
    requires Run(c, origin, states, steps) && n < |states| && rid in states[n].reqs
    ensures |states| == |steps| + 1
    ensures var missed, pc := Missed(states, steps, rid, n), states[n].reqs[rid].pc;
            && missed <= 5
            && (missed == 5 ==> pc == Finished(Failed))
            && (pc == Finished(Failed) ==> missed == 5 || HasEvent(states[n], rid))
  {
    hide Run, HasEvent;
    RunCounts(c, origin, states, steps, n, rid);
  }
}
