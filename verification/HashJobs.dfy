/** What __get_hashes answers: every suffix it was asked for, by the file, by the
    caller or by a listing, has kept its hash, has a new one, could not be hashed,
    or is gone; and there is no other. */
module HashJobs {
  import opened HashCache
  import opened HashRuns

  /** The process is at an attempt, or has just answered with it. */
  predicate Working(pc: Pc) {
    match pc
    case Computing(_, _, _, _, _) => true
    case Hashing(_, _, _, _, _, _) => true
    case Writing(_, _, _) => true
    case Comparing(_, _, _) => true
    case Leaving(next) => next.Returned? && next.job.Some?
    case Returned(job, _) => job.Some?
    case _ => false
  }

  /** The attempt began at step a, and the process has been at it since. */
  ghost predicate Attempt(states: seq<Sys>, steps: seq<Step>, a: nat, n: nat, id: nat) {
    && a < n <= |steps| && n < |states|
    && steps[a].id == id && id in states[a].pcs && (states[a].pcs[id].Got? || states[a].pcs[id].Reread?)
    && (forall j :: a < j <= n ==> id in states[j].pcs && Working(states[j].pcs[id]))
  }

  /** The suffix is in the file that was read, is to be recalculated, or was listed. */
  predicate Asked(pc: Pc, step: Step, x: string)
    requires pc.Got? || pc.Reread?
  {
    || x in pc.task.recalculate
    || (pc.Got? && x in pc.orig.sums)
    || (step.List? && |x| == 3 && x in step.names)
  }

  /** The hashing of the suffix has ended so since step a. */
  ghost predicate Ended(states: seq<Sys>, steps: seq<Step>, a: nat, n: nat, id: nat, x: string, outcome: Outcome) {
    n <= |steps| && n < |states| && exists m :: EndedAt(states, steps, a, n, id, x, outcome, m)
  }

  ghost predicate EndedAt(states: seq<Sys>, steps: seq<Step>, a: nat, n: nat, id: nat, x: string, outcome: Outcome, m: nat)
    requires n <= |steps| && n < |states|
  {
    && a < m < n && steps[m] == End(id, outcome) && id in states[m].pcs
    && states[m].pcs[id].Hashing? && states[m].pcs[id].suffix == x
  }

  predicate Unset(sums: Sums, x: string) { x in sums && (sums[x].None? || sums[x].value.value == "") }

  /** What has come of a suffix that was asked for. */
  ghost predicate Settled(states: seq<Sys>, steps: seq<Step>, a: nat, n: nat, id: nat, x: string, sums: Sums)
    requires a < |states| && id in states[a].pcs && (states[a].pcs[id].Got? || states[a].pcs[id].Reread?)
  {
    var pc := states[a].pcs[id];
    || (&& pc.Got? && x !in pc.task.recalculate && x in pc.orig.sums && !Unset(pc.orig.sums, x)
        && x in sums && sums[x] == pc.orig.sums[x])
    || (exists value :: Ended(states, steps, a, n, id, x, Hashed(value)) && x in sums && sums[x].Some? && sums[x].value.value == value)
    || (Ended(states, steps, a, n, id, x, NotDir) && x !in sums)
    || (Ended(states, steps, a, n, id, x, OsError) && Unset(sums, x))
  }

  ghost predicate Answers(states: seq<Sys>, steps: seq<Step>, a: nat, n: nat, id: nat, x: string, sums: Sums)
    requires a < |states| && a < |steps| && id in states[a].pcs && (states[a].pcs[id].Got? || states[a].pcs[id].Reread?)
  {
    if Asked(states[a].pcs[id], steps[a], x) then Settled(states, steps, a, n, id, x, sums) else x !in sums
  }

  /** Where the attempt is with a suffix: still to do, or settled. */
  ghost predicate WorkOk(states: seq<Sys>, steps: seq<Step>, a: nat, n: nat, id: nat, x: string, pc: Pc)
    requires a < |states| && a < |steps| && id in states[a].pcs && (states[a].pcs[id].Got? || states[a].pcs[id].Reread?)
  {
    match pc
    case Computing(_, _, hashes, todo, _) =>
      if x in todo then Asked(states[a].pcs[id], steps[a], x) && Unset(hashes.sums, x)
      else Answers(states, steps, a, n, id, x, hashes.sums)
    case Hashing(_, _, hashes, todo, suffix, _) =>
      && suffix !in todo
      && if x in todo || x == suffix then Asked(states[a].pcs[id], steps[a], x) && Unset(hashes.sums, x)
         else Answers(states, steps, a, n, id, x, hashes.sums)
    case Writing(_, _, hashes) => Answers(states, steps, a, n, id, x, hashes.sums)
    case Comparing(_, _, hashes) => Answers(states, steps, a, n, id, x, hashes.sums)
    case Leaving(next) => next.Returned? ==> Answers(states, steps, a, n, id, x, next.hashes.sums)
    case Returned(_, hashes) => Answers(states, steps, a, n, id, x, hashes.sums)
    case _ => true
  }

  ghost predicate AttemptOk(states: seq<Sys>, steps: seq<Step>, a: nat, n: nat, id: nat) {
    Attempt(states, steps, a, n, id) && forall x :: WorkOk(states, steps, a, n, id, x, states[n].pcs[id])
  }

  // ----- one step -----

  lemma EndedLater(states: seq<Sys>, steps: seq<Step>, a: nat, n: nat, id: nat, x: string, outcome: Outcome)
    requires Ended(states, steps, a, n, id, x, outcome) && n + 1 <= |steps| && n + 1 < |states|
    ensures Ended(states, steps, a, n + 1, id, x, outcome)
  {
    var m :| EndedAt(states, steps, a, n, id, x, outcome, m);
    assert EndedAt(states, steps, a, n + 1, id, x, outcome, m);
  }

  lemma AnswersLater(states: seq<Sys>, steps: seq<Step>, a: nat, n: nat, id: nat, x: string, sums: Sums)
    requires a < |states| && a < |steps| && id in states[a].pcs && (states[a].pcs[id].Got? || states[a].pcs[id].Reread?)
    requires Answers(states, steps, a, n, id, x, sums) && n + 1 <= |steps| && n + 1 < |states|
    ensures Answers(states, steps, a, n + 1, id, x, sums)
  {
    forall outcome | Ended(states, steps, a, n, id, x, outcome) ensures Ended(states, steps, a, n + 1, id, x, outcome) {
      EndedLater(states, steps, a, n, id, x, outcome);
    }
    hide Ended, Unset;
  }

  lemma WorkLater(states: seq<Sys>, steps: seq<Step>, a: nat, n: nat, id: nat, x: string, pc: Pc)
    requires a < |states| && a < |steps| && id in states[a].pcs && (states[a].pcs[id].Got? || states[a].pcs[id].Reread?)
    requires WorkOk(states, steps, a, n, id, x, pc) && n + 1 <= |steps| && n + 1 < |states|
    ensures WorkOk(states, steps, a, n + 1, id, x, pc)
  {
    hide Answers, Unset, Asked;
    match pc
    case Computing(_, _, hashes, todo, _) => if x !in todo { AnswersLater(states, steps, a, n, id, x, hashes.sums); }
    case Hashing(_, _, hashes, todo, suffix, _) => if x !in todo && x != suffix { AnswersLater(states, steps, a, n, id, x, hashes.sums); }
    case Writing(_, _, hashes) => AnswersLater(states, steps, a, n, id, x, hashes.sums);
    case Comparing(_, _, hashes) => AnswersLater(states, steps, a, n, id, x, hashes.sums);
    case Leaving(next) => if next.Returned? { AnswersLater(states, steps, a, n, id, x, next.hashes.sums); }
    case Returned(_, hashes) => AnswersLater(states, steps, a, n, id, x, hashes.sums);
    case _ =>
  }

  /** An attempt begins with every suffix it is asked for: those with a hash are settled. */
  lemma StartOk(states: seq<Sys>, steps: seq<Step>, n: nat, x: string)
    requires Steps(states, steps, n)
    requires var pc := states[n].pcs[steps[n].id]; (pc.Got? || pc.Reread?) && states[n + 1].pcs[steps[n].id].Computing?
    ensures WorkOk(states, steps, n, n + 1, steps[n].id, x, states[n + 1].pcs[steps[n].id])
  {
    hide Ended, Read, Merge, ValidSuffix;
  }

  /** A suffix is hashed. */
  lemma EndSettles(states: seq<Sys>, steps: seq<Step>, a: nat, n: nat, x: string)
    requires Steps(states, steps, n) && steps[n].End? && AttemptOk(states, steps, a, n, steps[n].id)
    ensures WorkOk(states, steps, a, n + 1, steps[n].id, x, states[n + 1].pcs[steps[n].id])
  {
    var id := steps[n].id;
    var pc := states[n].pcs[id];
    assert WorkOk(states, steps, a, n, id, x, pc);
    if x == pc.suffix {
      assert EndedAt(states, steps, a, n + 1, id, x, steps[n].outcome, n);
      assert Ended(states, steps, a, n + 1, id, x, steps[n].outcome);
      hide EndedAt, Ended;
    } else if x !in pc.todo {
      AnswersLater(states, steps, a, n, id, x, pc.hashes.sums);
      OtherSums(states, steps, a, n + 1, id, x, pc.hashes.sums, states[n + 1].pcs[id].hashes.sums);
      hide Answers;
    }
  }

  lemma OtherSums(states: seq<Sys>, steps: seq<Step>, a: nat, n: nat, id: nat, x: string, sums: Sums, later: Sums)
    requires a < |states| && a < |steps| && id in states[a].pcs && (states[a].pcs[id].Got? || states[a].pcs[id].Reread?)
    requires Answers(states, steps, a, n, id, x, sums) && (x in sums <==> x in later) && (x in sums ==> sums[x] == later[x])
    ensures Answers(states, steps, a, n, id, x, later)
  {
    hide Ended, Asked;
  }

  lemma OwnWork(states: seq<Sys>, steps: seq<Step>, a: nat, n: nat, x: string)
    requires Steps(states, steps, n) && AttemptOk(states, steps, a, n, steps[n].id) && Working(states[n + 1].pcs[steps[n].id])
    ensures WorkOk(states, steps, a, n + 1, steps[n].id, x, states[n + 1].pcs[steps[n].id])
  {
    var id := steps[n].id;
    assert WorkOk(states, steps, a, n, id, x, states[n].pcs[id]);
    if steps[n].End? {
      EndSettles(states, steps, a, n, x);
    } else {
      WorkLater(states, steps, a, n, id, x, states[n].pcs[id]);
    }
    hide Answers, Unset, Asked, Read, Merge, Relevant, ValidSuffix;
  }

  // ----- whole runs -----

  lemma {:induction false} RunWork(states: seq<Sys>, steps: seq<Step>, n: nat, id: nat) returns (a: nat)
    requires Run(states, steps) && n < |states| && id in states[n].pcs && Working(states[n].pcs[id])
    ensures AttemptOk(states, steps, a, n, id)
    decreases n
  {
    hide Enabled, Do, WorkOk, Working, Init, AllFrom;
    if n == 0 {
      NotWorking(states[0], id);
    } else {
      var s := states[n - 1];
      if steps[n - 1].id == id {
        RunFrom(states, steps, n - 1);
        LeavesWhere(states, steps, n - 1, id);
        Before(s, steps[n - 1]);
        if Working(s.pcs[id]) {
          a := RunWork(states, steps, n - 1, id);
          forall x ensures WorkOk(states, steps, a, n, id, x, states[n].pcs[id]) { OwnWork(states, steps, a, n - 1, x); }
        } else {
          a := n - 1;
          forall x ensures WorkOk(states, steps, a, n, id, x, states[n].pcs[id]) { StartOk(states, steps, n - 1, x); }
        }
      } else {
        OthersStay(s, steps[n - 1], id);
        a := RunWork(states, steps, n - 1, id);
        forall x ensures WorkOk(states, steps, a, n, id, x, states[n].pcs[id]) { WorkLater(states, steps, a, n - 1, id, x, s.pcs[id]); }
      }
    }
  }

  lemma NotWorking(s: Sys, id: nat)
    requires Init(s) && id in s.pcs
    ensures !Working(s.pcs[id])
  {
    hide Read;
  }

  lemma LeavesWhere(states: seq<Sys>, steps: seq<Step>, n: nat, id: nat)
    requires n < |states| && AllFrom(states, steps, n)
    ensures id in states[n].pcs && states[n].pcs[id].Leaving? ==> LeavesTo(states[n].pcs[id].next)
  {
    hide From, Read;
    if id in states[n].pcs { assert PcFrom(states, steps, n, id, states[n].pcs[id]); }
  }

  /** An attempt goes on, or begins. */
  lemma Before(s: Sys, step: Step)
    requires Enabled(s, step) && Working(Do(s, step).pcs[step.id])
    requires step.id in s.pcs && s.pcs[step.id].Leaving? ==> LeavesTo(s.pcs[step.id].next)
    ensures step.id in s.pcs
    ensures !Working(s.pcs[step.id]) ==>
              (s.pcs[step.id].Got? || s.pcs[step.id].Reread?) && Do(s, step).pcs[step.id].Computing?
  {
    hide Read, Merge, Written, Reset, Listed, Unhashed, Relevant;
  }

  /** When __get_hashes answers, each suffix it was asked for has kept its hash,
      has one computed in this attempt, or is there without a hash or not at all
      because the hashing of it ended so; and no other suffix is there. */
  lemma EverySuffixIsSettled(states: seq<Sys>, steps: seq<Step>, n: nat, id: nat) returns (a: nat)
    requires Run(states, steps) && n < |states| && id in states[n].pcs
    requires states[n].pcs[id].Returned? && states[n].pcs[id].job.Some?
    ensures Attempt(states, steps, a, n, id)
    ensures forall x :: Answers(states, steps, a, n, id, x, states[n].pcs[id].hashes.sums)
  {
    hide Run, Answers;
    a := RunWork(states, steps, n, id);
    forall x ensures Answers(states, steps, a, n, id, x, states[n].pcs[id].hashes.sums) {
      assert WorkOk(states, steps, a, n, id, x, states[n].pcs[id]);
    }
  }

  // ----- what is answered is what is stored -----

  ghost predicate WasStored(states: seq<Sys>, n: nat, sums: Sums) {
    exists w :: 0 <= w <= n && w < |states| && Read(states[w].file).sums == sums
  }

  /** What the file held, where the process goes on from that. */
  ghost predicate Stays(states: seq<Sys>, n: nat, pc: Pc) {
    match pc
    case Got(_, orig) => WasStored(states, n, orig.sums)
    case Leaving(next) => Stays(states, n, next)
    case Computing(task, orig, hashes, todo, modified) =>
      !modified ==> WasStored(states, n, orig.sums) && hashes.sums == Reset(orig.sums, task.recalculate) && todo == Unhashed(hashes.sums)
    case Returned(job, hashes) => job.Some? ==> WasStored(states, n, hashes.sums)
    case _ => true
  }

  lemma NothingToDo(sums: Sums, recalculate: seq<string>)
    requires Unhashed(Reset(sums, recalculate)) == {}
    ensures Reset(sums, recalculate) == sums
  {
    var after := Reset(sums, recalculate);
    forall x | x in after ensures x !in recalculate && x in sums {
      assert x !in Unhashed(after);
    }
  }

  lemma StaysLater(states: seq<Sys>, n: nat, pc: Pc)
    requires Stays(states, n, pc)
    ensures Stays(states, n + 1, pc)
  {
    if pc.Leaving? { StaysLater(states, n, pc.next); }
    hide Read, Reset, Unhashed;
  }

  lemma OwnStays(states: seq<Sys>, steps: seq<Step>, n: nat)
    requires Steps(states, steps, n) && Inv(states[n]) && Stays(states, n, states[n].pcs[steps[n].id])
    ensures Stays(states, n + 1, states[n + 1].pcs[steps[n].id])
  {
    var s, id := states[n], steps[n].id;
    assert PcOk(s, s.pcs[id]);
    if s.pcs[id].Computing? && !s.pcs[id].modified && s.pcs[id].todo == {} { NothingToDo(s.pcs[id].orig.sums, s.pcs[id].task.recalculate); }
    if s.pcs[id].Comparing? { ReadWritten(s.pcs[id].hashes, s.stamp + 1); }
    hide Inv, Read, Merge, Reset, Listed, Unhashed, Relevant, SumsFresh, SumsCurrent, ValidSuffix, Pending, Written;
    if s.pcs[id].Clearing? { assert WasStored(states, n + 1, s.pcs[id].hashes.sums); }
    if s.pcs[id].Comparing? { assert Read(s.file) == s.pcs[id].orig ==> Read(states[n + 1].file).sums == s.pcs[id].hashes.sums; }
    StaysLater(states, n, s.pcs[id]);
  }

  lemma {:induction false} RunStays(states: seq<Sys>, steps: seq<Step>, n: nat)
    requires Run(states, steps) && n < |states|
    ensures forall id :: id in states[n].pcs ==> Stays(states, n, states[n].pcs[id])
    decreases n
  {
    hide Enabled, Do, Inv, Stays;
    if n == 0 {
      forall id | id in states[0].pcs ensures Stays(states, 0, states[0].pcs[id]) { IdleStays(states, id); }
    } else {
      RunStays(states, steps, n - 1);
      RunInv(states, steps, n - 1);
      forall id | id in states[n].pcs ensures Stays(states, n, states[n].pcs[id]) {
        if id == steps[n - 1].id {
          StepsKnown(states[n - 1], steps[n - 1]);
          OwnStays(states, steps, n - 1);
        } else {
          OthersStay(states[n - 1], steps[n - 1], id);
          StaysLater(states, n - 1, states[n - 1].pcs[id]);
        }
      }
    }
  }

  lemma StepsKnown(s: Sys, step: Step)
    requires Enabled(s, step)
    ensures step.id in s.pcs
  {
  }

  lemma IdleStays(states: seq<Sys>, id: nat)
    requires |states| > 0 && Init(states[0]) && id in states[0].pcs
    ensures Stays(states, 0, states[0].pcs[id])
  {
    hide Read;
  }

  /** What __get_hashes answers is what the file held at some moment. */
  lemma AnswerWasStored(states: seq<Sys>, steps: seq<Step>, n: nat, id: nat)
    requires Run(states, steps) && n < |states| && id in states[n].pcs
    requires states[n].pcs[id].Returned? && states[n].pcs[id].job.Some?
    ensures WasStored(states, n, states[n].pcs[id].hashes.sums)
  {
    hide Run, WasStored;
    RunStays(states, steps, n);
    assert Stays(states, n, states[n].pcs[id]);
  }
}
