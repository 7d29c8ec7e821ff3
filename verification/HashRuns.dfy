/** Whole runs of the processes at the suffix hashes: where every hash comes
    from, and what each suffix asked for has come to when the answer is given. */
module HashRuns {
  import opened Base
  import opened HashCache

  // ----- taking in the invalidations -----

  predicate Names(lines: seq<Line>, suffix: string) {
    ValidSuffix(suffix) && exists i :: 0 <= i < |lines| && lines[i].suffix == suffix
  }

  /** Exactly the suffixes that are named lose their hashes, or are new without one. */
  lemma {:induction false} MergeIs(sums: Sums, lines: seq<Line>, x: string)
    ensures x in Merge(sums, lines) <==> x in sums || Names(lines, x)
    ensures x in Merge(sums, lines) ==> Merge(sums, lines)[x] == if Names(lines, x) then None else sums[x]
    decreases |lines|
  {
    hide ValidSuffix;
    if lines != [] {
      var before, line := lines[..|lines| - 1], Last(lines);
      MergeIs(sums, before, x);
      assert lines == before + [line];
      NamesMore(before, line, x);
    }
  }

  lemma NamesMore(lines: seq<Line>, line: Line, x: string)
    ensures Names(lines + [line], x) <==> Names(lines, x) || (ValidSuffix(x) && line.suffix == x)
  {
    hide ValidSuffix;
    var all := lines + [line];
    assert all[|lines|] == line;
    if Names(lines, x) {
      var i :| 0 <= i < |lines| && lines[i].suffix == x;
      assert all[i].suffix == x;
    }
  }

  // ----- where a hash comes from -----

  /** Process `id` began to hash the suffix at step k, and did nothing else since. */
  ghost predicate Began(states: seq<Sys>, steps: seq<Step>, n: nat, id: nat, x: string, at: nat, k: nat) {
    && k < n <= |steps| && n < |states|
    && steps[k] == Begin(id, x) && states[k].clock == at
    && (forall j :: k < j < n ==> steps[j].id != id)
  }

  /** And at step m it ended, with this value. */
  ghost predicate Computed(states: seq<Sys>, steps: seq<Step>, n: nat, x: string, sum: Sum) {
    exists k, m :: ComputedAt(states, steps, n, x, sum, k, m)
  }

  ghost predicate ComputedAt(states: seq<Sys>, steps: seq<Step>, n: nat, x: string, sum: Sum, k: nat, m: nat) {
    && k < m < n <= |steps| && n < |states|
    && Began(states, steps, m, steps[m].id, x, sum.at, k) && steps[m] == End(steps[m].id, Hashed(sum.value))
  }

  ghost predicate Stored(states: seq<Sys>, x: string, sum: Sum) {
    && |states| > 0
    && var sums := Read(states[0].file).sums;
    x in sums && sums[x] == Some(sum)
  }

  /** Every hash was in the starting file, or was computed since for its suffix. */
  ghost predicate From(states: seq<Sys>, steps: seq<Step>, n: nat, sums: Sums) {
    forall x :: x in sums && sums[x].Some? ==> Stored(states, x, sums[x].value) || Computed(states, steps, n, x, sums[x].value)
  }

  /** What there is to do for a process that gives the lock back. */
  predicate LeavesTo(next: Pc) { next.Idle? || next.Returned? || next.Got? || next.Consolidating? || next.Rereading? }

  ghost predicate PcFrom(states: seq<Sys>, steps: seq<Step>, n: nat, id: nat, pc: Pc) {
    match pc
    case Merged(_, hashes, _, _) => From(states, steps, n, hashes.sums)
    case Clearing(_, hashes, _) => From(states, steps, n, hashes.sums)
    case Leaving(next) => LeavesTo(next) && PcFrom(states, steps, n, id, next)
    case Got(_, orig) => From(states, steps, n, orig.sums)
    case Computing(_, _, hashes, _, _) => From(states, steps, n, hashes.sums)
    case Hashing(_, _, hashes, _, suffix, at) =>
      From(states, steps, n, hashes.sums) && exists k :: Began(states, steps, n, id, suffix, at, k)
    case Writing(_, _, hashes) => From(states, steps, n, hashes.sums)
    case Comparing(_, _, hashes) => From(states, steps, n, hashes.sums)
    case Returned(_, hashes) => From(states, steps, n, hashes.sums)
    case _ => true
  }

  /** No hash is in the one that is not in the other. */
  ghost predicate Sub(some: Sums, all: Sums) {
    forall x :: x in some && some[x].Some? ==> x in all && all[x] == some[x]
  }

  lemma SubFrom(states: seq<Sys>, steps: seq<Step>, n: nat, some: Sums, all: Sums)
    requires Sub(some, all) && From(states, steps, n, all)
    ensures From(states, steps, n, some)
  {
    hide Stored, Computed;
  }

  lemma FromLater(states: seq<Sys>, steps: seq<Step>, n: nat, sums: Sums)
    requires From(states, steps, n, sums) && n + 1 <= |steps| && n + 1 < |states|
    ensures From(states, steps, n + 1, sums)
  {
    hide Stored, Began;
    forall x | x in sums && sums[x].Some? && Computed(states, steps, n, x, sums[x].value) ensures Computed(states, steps, n + 1, x, sums[x].value) {
      var k, m :| ComputedAt(states, steps, n, x, sums[x].value, k, m);
      assert ComputedAt(states, steps, n + 1, x, sums[x].value, k, m);
    }
  }

  lemma PcFromLater(states: seq<Sys>, steps: seq<Step>, n: nat, id: nat, pc: Pc)
    requires PcFrom(states, steps, n, id, pc) && n + 1 <= |steps| && n + 1 < |states|
    requires pc.Hashing? || (pc.Leaving? && pc.next.Hashing?) ==> steps[n].id != id
    requires pc.Leaving? ==> !pc.next.Leaving?
    ensures PcFrom(states, steps, n + 1, id, pc)
    decreases pc
  {
    hide From;
    match pc
    case Merged(_, hashes, _, _) => FromLater(states, steps, n, hashes.sums);
    case Clearing(_, hashes, _) => FromLater(states, steps, n, hashes.sums);
    case Leaving(next) => PcFromLater(states, steps, n, id, next);
    case Got(_, orig) => FromLater(states, steps, n, orig.sums);
    case Computing(_, _, hashes, _, _) => FromLater(states, steps, n, hashes.sums);
    case Hashing(_, _, hashes, _, suffix, at) =>
      FromLater(states, steps, n, hashes.sums);
      var k :| Began(states, steps, n, id, suffix, at, k);
      assert Began(states, steps, n + 1, id, suffix, at, k);
    case Writing(_, _, hashes) => FromLater(states, steps, n, hashes.sums);
    case Comparing(_, _, hashes) => FromLater(states, steps, n, hashes.sums);
    case Returned(_, hashes) => FromLater(states, steps, n, hashes.sums);
    case _ =>
  }

  // ----- one step -----

  ghost predicate Steps(states: seq<Sys>, steps: seq<Step>, n: nat) {
    && n + 1 <= |steps| && n + 1 < |states|
    && Enabled(states[n], steps[n]) && states[n + 1] == Do(states[n], steps[n])
  }

  lemma Carry(states: seq<Sys>, steps: seq<Step>, n: nat, some: Sums, all: Sums)
    requires n + 1 <= |steps| && n + 1 < |states| && Sub(some, all) && From(states, steps, n, all)
    ensures From(states, steps, n + 1, some)
  {
    hide From, Sub;
    SubFrom(states, steps, n, some, all);
    FromLater(states, steps, n, some);
  }

  lemma SubSame(sums: Sums)
    ensures Sub(sums, sums)
  {
  }

  lemma ReadSub(hashes: Hashes, stamp: int)
    ensures Sub(Read(Written(hashes, stamp)).sums, hashes.sums)
  {
  }

  lemma MergeSub(sums: Sums, lines: seq<Line>)
    ensures Sub(Merge(sums, lines), sums)
  {
    forall x ensures x in Merge(sums, lines) && Merge(sums, lines)[x].Some? ==> x in sums && sums[x] == Merge(sums, lines)[x] {
      MergeIs(sums, lines, x);
    }
  }

  lemma StartSub(sums: Sums, recalculate: seq<string>, names: seq<string>)
    ensures Sub(Reset(sums, recalculate), sums) && Sub(Reset(Listed(sums, names), recalculate), sums)
  {
  }

  /** What the process that takes the step has afterwards. */
  lemma OwnFrom(states: seq<Sys>, steps: seq<Step>, n: nat)
    requires Steps(states, steps, n) && From(states, steps, n, Read(states[n].file).sums)
    requires PcFrom(states, steps, n, steps[n].id, states[n].pcs[steps[n].id])
    requires states[n].pcs[steps[n].id].Leaving? ==> !Holds(states[n].pcs[steps[n].id].next)
    ensures PcFrom(states, steps, n + 1, steps[n].id, states[n + 1].pcs[steps[n].id])
  {
    hide From, Sub, Began, Read, Merge, Reset, Listed, Unhashed;
    var s, id := states[n], steps[n].id;
    var sums := Read(s.file).sums;
    match steps[n]
    case Go(_) => OwnGo(states, steps, n);
    case List(_, names) =>
      match s.pcs[id] {
        case Got(task, orig) =>
          StartSub(orig.sums, task.recalculate, names);
          Carry(states, steps, n, Reset(Listed(orig.sums, names), task.recalculate), orig.sums);
        case Reread(task, _) =>
          StartSub(map[], task.recalculate, names);
          assert From(states, steps, n, map[]) by { NothingFrom(states, steps, n); }
          Carry(states, steps, n, Reset(Listed(map[], names), task.recalculate), map[]);
      }
    case Begin(_, suffix) =>
      SubSame(s.pcs[id].hashes.sums);
      Carry(states, steps, n, s.pcs[id].hashes.sums, s.pcs[id].hashes.sums);
      assert Began(states, steps, n + 1, id, suffix, s.clock, n) by { BeganNow(states, steps, n, id, suffix); }
    case End(_, outcome) => EndFrom(states, steps, n);
    case _ =>
  }

  lemma NothingFrom(states: seq<Sys>, steps: seq<Step>, n: nat)
    ensures From(states, steps, n, map[])
  {
  }

  lemma BeganNow(states: seq<Sys>, steps: seq<Step>, n: nat, id: nat, suffix: string)
    requires n + 1 <= |steps| && n + 1 < |states| && steps[n] == Begin(id, suffix)
    ensures Began(states, steps, n + 1, id, suffix, states[n].clock, n)
  {
  }

  lemma OwnGo(states: seq<Sys>, steps: seq<Step>, n: nat)
    requires Steps(states, steps, n) && steps[n].Go? && From(states, steps, n, Read(states[n].file).sums)
    requires PcFrom(states, steps, n, steps[n].id, states[n].pcs[steps[n].id])
    requires states[n].pcs[steps[n].id].Leaving? ==> !Holds(states[n].pcs[steps[n].id].next)
    ensures PcFrom(states, steps, n + 1, steps[n].id, states[n + 1].pcs[steps[n].id])
  {
    hide From, Sub, Began, Read, Merge, Reset, Listed, Unhashed, Relevant;
    var s, id := states[n], steps[n].id;
    match s.pcs[id]
    case Reading(_) =>
      MergeSub(Read(s.file).sums, s.lines);
      Carry(states, steps, n, Merge(Read(s.file).sums, s.lines), Read(s.file).sums);
    case Got(task, orig) =>
      StartSub(orig.sums, task.recalculate, []);
      if orig.valid { Carry(states, steps, n, Reset(orig.sums, task.recalculate), orig.sums); }
    case Leaving(next) => PcFromLater(states, steps, n, id, s.pcs[id]);
    case Merged(_, hashes, _, _) => Same(states, steps, n, hashes.sums);
    case Clearing(_, hashes, _) => Same(states, steps, n, hashes.sums);
    case Computing(_, _, hashes, _, _) => Same(states, steps, n, hashes.sums);
    case Writing(_, _, hashes) => Same(states, steps, n, hashes.sums);
    case Comparing(_, _, hashes) => Same(states, steps, n, hashes.sums);
    case _ =>
  }

  lemma Same(states: seq<Sys>, steps: seq<Step>, n: nat, sums: Sums)
    requires n + 1 <= |steps| && n + 1 < |states| && From(states, steps, n, sums)
    ensures From(states, steps, n + 1, sums)
  {
    FromLater(states, steps, n, sums);
    hide From;
  }

  /** A hash that has been computed is from its computation. */
  lemma EndFrom(states: seq<Sys>, steps: seq<Step>, n: nat)
    requires Steps(states, steps, n) && steps[n].End?
    requires PcFrom(states, steps, n, steps[n].id, states[n].pcs[steps[n].id])
    ensures PcFrom(states, steps, n + 1, steps[n].id, states[n + 1].pcs[steps[n].id])
  {
    hide Began, Stored;
    var id := steps[n].id;
    var Hashing(_, _, hashes, _, suffix, at) := states[n].pcs[id];
    FromLater(states, steps, n, hashes.sums);
    var k :| Began(states, steps, n, id, suffix, at, k);
    if steps[n].outcome.Hashed? {
      var sum := Sum(steps[n].outcome.value, at);
      BeganBefore(states, steps, n, id, suffix, at, k);
      assert ComputedAt(states, steps, n + 1, suffix, sum, k, n);
    }
    hide Computed;
  }

  lemma BeganBefore(states: seq<Sys>, steps: seq<Step>, n: nat, id: nat, suffix: string, at: nat, k: nat)
    requires Began(states, steps, n, id, suffix, at, k)
    ensures k < n
  {
  }

  /** The file is as it was, or holds what the process had. */
  lemma FileFrom(states: seq<Sys>, steps: seq<Step>, n: nat)
    requires Steps(states, steps, n) && From(states, steps, n, Read(states[n].file).sums)
    requires PcFrom(states, steps, n, steps[n].id, states[n].pcs[steps[n].id])
    ensures From(states, steps, n + 1, Read(states[n + 1].file).sums)
  {
    hide From, Sub, Began, Read, Written;
    var s, t, id := states[n], states[n + 1], steps[n].id;
    if t.file == s.file {
      Same(states, steps, n, Read(s.file).sums);
    } else {
      ReadSub(s.pcs[id].hashes, s.stamp + 1);
      Carry(states, steps, n, Read(Written(s.pcs[id].hashes, s.stamp + 1)).sums, s.pcs[id].hashes.sums);
    }
  }

  // ----- whole runs -----

  ghost predicate AllFrom(states: seq<Sys>, steps: seq<Step>, n: nat)
    requires n < |states|
  {
    && From(states, steps, n, Read(states[n].file).sums)
    && forall id :: id in states[n].pcs ==> PcFrom(states, steps, n, id, states[n].pcs[id])
  }

  lemma {:induction false} RunFrom(states: seq<Sys>, steps: seq<Step>, n: nat)
    requires Run(states, steps) && n < |states|
    ensures AllFrom(states, steps, n)
    decreases n
  {
    hide Enabled, Do, Inv, PcFrom, From;
    if n == 0 {
      StartFrom(states, steps);
    } else {
      RunFrom(states, steps, n - 1);
      RunInv(states, steps, n - 1);
      MoreFrom(states, steps, n - 1);
    }
  }

  lemma StartFrom(states: seq<Sys>, steps: seq<Step>)
    requires |states| > 0 && Init(states[0])
    ensures AllFrom(states, steps, 0)
  {
    hide Read;
  }

  lemma LeavesOnce(s: Sys, id: nat)
    requires Inv(s) && id in s.pcs && s.pcs[id].Leaving?
    ensures !Holds(s.pcs[id].next)
  {
    assert PcOk(s, s.pcs[id]);
  }

  lemma MoreFrom(states: seq<Sys>, steps: seq<Step>, n: nat)
    requires Steps(states, steps, n) && Inv(states[n]) && AllFrom(states, steps, n)
    ensures AllFrom(states, steps, n + 1)
  {
    hide Inv, PcFrom, From, Read;
    var s, t, id := states[n], states[n + 1], steps[n].id;
    if s.pcs[id].Leaving? { LeavesOnce(s, id); }
    OwnFrom(states, steps, n);
    FileFrom(states, steps, n);
    forall other | other in t.pcs && other != id ensures PcFrom(states, steps, n + 1, other, t.pcs[other]) {
      OthersStay(s, steps[n], other);
      if s.pcs[other].Leaving? { LeavesOnce(s, other); }
      PcFromLater(states, steps, n, other, s.pcs[other]);
    }
  }

  lemma OthersStay(s: Sys, step: Step, other: nat)
    requires Enabled(s, step) && other in Do(s, step).pcs && other != step.id
    ensures other in s.pcs && Do(s, step).pcs[other] == s.pcs[other]
  {
    hide Read, Merge, Written, Reset, Listed, Unhashed, Relevant;
  }

  /** Every hash in the file, and every hash a process returns, was in the file at
      the start, or is what a computation of that same suffix gave, with the time
      at which that computation began. */
  lemma HashesAreComputed(states: seq<Sys>, steps: seq<Step>, n: nat, id: nat)
    requires Run(states, steps) && n < |states|
    ensures From(states, steps, n, Read(states[n].file).sums)
    ensures id in states[n].pcs && states[n].pcs[id].Returned? ==> From(states, steps, n, states[n].pcs[id].hashes.sums)
  {
    hide From, Run, Read;
    RunFrom(states, steps, n);
  }
}
