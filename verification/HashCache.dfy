/** The suffix-hash cache of a partition (bs_diskfile.py): hashes.pkl, the log
    of invalidations beside it, and any number of processes that invalidate,
    consolidate and rehash under one lock, or read without it. */
module HashCache {
  import opened Base

  const HEX: string := "0123456789abcdef"

  predicate ValidSuffix(value: string) { |value| == 3 && forall i :: 0 <= i < 3 ==> value[i] in HEX }

  /** A suffix's hash. `at` is when its computation began. */
  datatype Sum = Sum(value: string, at: nat)

  /** One line of hashes.invalid. `at` is when it was appended. */
  datatype Line = Line(suffix: string, at: nat)

  type Sums = map<string, Option<Sum>>

  /** What is on disk: something unreadable, or a dictionary. */
  datatype File = Broken | Dict(valid: Option<bool>, updated: Option<int>, sums: Sums)

  /** What read_hashes returns. Bad keys hide even the stamp. */
  datatype Hashes = Hashes(valid: bool, updated: Option<int>, sums: Sums)

  function Read(file: File): Hashes {
    match file
    case Broken => Hashes(false, Some(-1), map[])
    case Dict(valid, updated, sums) =>
      if exists key :: key in sums && !ValidSuffix(key) then Hashes(false, None, map[])
      else Hashes(valid.GetOr(true), Some(updated.GetOr(-1)), sums)
  }

  function Written(hashes: Hashes, stamp: int): File { Dict(Some(hashes.valid), Some(stamp), hashes.sums) }

  /** The invalidations, taken into the hashes. */
  function Merge(sums: Sums, lines: seq<Line>): Sums {
    if lines == [] then sums
    else
      var before, line := Merge(sums, lines[..|lines| - 1]), Last(lines);
      if ValidSuffix(line.suffix) then before[line.suffix := None] else before
  }

  predicate Relevant(lines: seq<Line>) { exists i :: 0 <= i < |lines| && ValidSuffix(lines[i].suffix) }

  // ----- the processes -----

  /** What __get_hashes was called with. */
  datatype Job = Job(recalculate: seq<string>, listdir: bool)

  datatype Outcome = Hashed(value: string) | NotDir | OsError

  datatype Pc =
    | Idle
    | Invalidating(suffix: string)
    | Appending(suffix: string)
    | Consolidating(job: Option<Job>)
    | Reading(job: Option<Job>)
    | Merged(job: Option<Job>, hashes: Hashes, changed: bool, found: bool)
    | Clearing(job: Option<Job>, hashes: Hashes, found: bool)
    | Leaving(next: Pc)
    | Got(task: Job, orig: Hashes)
    | Rereading(task: Job)
    | Reread(task: Job, orig: Hashes)
    | Computing(task: Job, orig: Hashes, hashes: Hashes, todo: set<string>, modified: bool)
    | Hashing(task: Job, orig: Hashes, hashes: Hashes, todo: set<string>, suffix: string, at: nat)
    | Writing(task: Job, orig: Hashes, hashes: Hashes)
    | Comparing(task: Job, orig: Hashes, hashes: Hashes)
    | Returned(job: Option<Job>, hashes: Hashes)

  datatype Sys = Sys(
    file: File,
    lines: seq<Line>,
    lock: Option<nat>,
    clock: nat,
    stamp: int,          // the latest time.time() put into the file
    log: set<Line>,      // every invalidation there has been
    pcs: map<nat, Pc>)

  predicate Holds(pc: Pc) { pc.Appending? || pc.Reading? || pc.Merged? || pc.Clearing? || pc.Leaving? || pc.Comparing? }

  datatype Step =
    | Invalidate(id: nat, suffix: string)
    | Consolidate(id: nat)
    | GetHashes(id: nat, task: Job)
    | Go(id: nat)
    | Fail(id: nat)                            // consolidate_hashes raised
    | List(id: nat, names: seq<string>)        // os.listdir, where it is asked for
    | Begin(id: nat, suffix: string)           // _hash_suffix starts
    | End(id: nat, outcome: Outcome)           // and ends

  /** Invalid hashes, and those that a listing is asked for, are listed. */
  predicate WantsListing(pc: Pc) { pc.Reread? || (pc.Got? && pc.orig.valid && pc.task.listdir) }

  predicate Enabled(s: Sys, step: Step) {
    && step.id in s.pcs
    && var pc := s.pcs[step.id];
    match step
    case Invalidate(_, _) => pc.Idle?
    case Consolidate(_) => pc.Idle?
    case GetHashes(_, _) => pc.Idle?
    case Go(_) =>
      (match pc
       case Invalidating(_) => s.lock == None
       case Consolidating(_) => s.lock == None
       case Writing(_, _, _) => s.lock == None
       case Got(_, _) => !WantsListing(pc)
       case Rereading(_) => true
       case Computing(_, _, _, todo, _) => todo == {}
       case Appending(_) => true
       case Reading(_) => true
       case Merged(_, _, _, _) => true
       case Clearing(_, _, _) => true
       case Leaving(_) => true
       case Comparing(_, _, _) => true
       case _ => false)
    case Fail(_) => (pc.Consolidating? || pc.Reading? || pc.Merged? || pc.Clearing?) && pc.job.Some?
    case List(_, _) => WantsListing(pc)
    case Begin(_, suffix) => pc.Computing? && suffix in pc.todo
    case End(_, outcome) => pc.Hashing? && (!ValidSuffix(pc.suffix) ==> outcome == NotDir)
  }

  function At(s: Sys, id: nat, pc: Pc): Sys { s.(pcs := s.pcs[id := pc]) }

  /** hashes.update((suffix, None) for suffix in recalculate), and what then has no hash. */
  function Reset(sums: Sums, recalculate: seq<string>): Sums {
    map key | key in sums.Keys + (set x | x in recalculate) ::
      if key in recalculate || key !in sums then None else sums[key]
  }

  function Unhashed(sums: Sums): set<string> { set key | key in sums && (sums[key].None? || sums[key].value.value == "") }

  /** hashes.setdefault(suff, None) for what is as long as a suffix. */
  function Listed(sums: Sums, names: seq<string>): Sums {
    map key | key in sums.Keys + (set x | x in names && |x| == 3) :: if key in sums then sums[key] else None
  }

  function Starting(task: Job, orig: Hashes, hashes: Hashes, modified: bool): Pc {
    var sums := Reset(hashes.sums, task.recalculate);
    Computing(task, orig, hashes.(sums := sums), Unhashed(sums), modified)
  }

  function Go(s: Sys, id: nat): Sys
    requires Enabled(s, Step.Go(id))
  {
    match s.pcs[id]
    case Invalidating(suffix) => At(s.(lock := Some(id)), id, Appending(suffix))
    case Appending(suffix) =>
      var line := Line(suffix, s.clock + 1);
      At(s.(lines := s.lines + [line], log := s.log + {line}, clock := s.clock + 1), id, Leaving(Idle))
    case Consolidating(job) => At(s.(lock := Some(id)), id, Reading(job))
    case Reading(job) =>
      var hashes := Read(s.file);
      At(s, id, Merged(job, hashes.(sums := Merge(hashes.sums, s.lines)), Relevant(s.lines), s.lines != []))
    case Merged(job, hashes, changed, found) =>
      if changed then
        var stamped := hashes.(updated := Some(s.stamp + 1));
        At(s.(file := Written(hashes, s.stamp + 1), stamp := s.stamp + 1), id, Clearing(job, stamped, found))
      else At(s, id, Clearing(job, hashes, found))
    case Clearing(job, hashes, found) =>
      var next := match job case None => Returned(None, hashes) case Some(task) => Got(task, hashes);
      At(if found then s.(lines := []) else s, id, Leaving(next))
    case Leaving(next) => At(s.(lock := None), id, next)
    case Got(task, orig) =>
      if orig.valid then At(s, id, Starting(task, orig, orig, false)) else At(s, id, Rereading(task))
    case Rereading(task) => At(s, id, Reread(task, Read(s.file)))
    case Computing(task, orig, hashes, _, modified) =>
      At(s, id, if modified then Writing(task, orig, hashes) else Returned(Some(task), hashes))
    case Writing(task, orig, hashes) => At(s.(lock := Some(id)), id, Comparing(task, orig, hashes))
    case Comparing(task, orig, hashes) =>
      if Read(s.file) == orig then
        At(s.(file := Written(hashes, s.stamp + 1), stamp := s.stamp + 1), id,
           Leaving(Returned(Some(task), hashes.(updated := Some(s.stamp + 1)))))
      else At(s, id, Leaving(Consolidating(Some(task))))
    case _ => s
  }

  function Do(s: Sys, step: Step): Sys
    requires Enabled(s, step)
  {
    var id := step.id;
    match step
    case Invalidate(_, suffix) => At(s, id, Invalidating(suffix))
    case Consolidate(_) => At(s, id, Consolidating(None))
    case GetHashes(_, task) => At(s, id, Consolidating(Some(task)))
    case Go(_) => Go(s, id)
    case Fail(_) =>
      var next := Rereading(s.pcs[id].job.value);
      At(s, id, if Holds(s.pcs[id]) then Leaving(next) else next)
    case List(_, names) =>
      (match s.pcs[id]
       case Got(task, orig) => At(s, id, Starting(task, orig, orig.(sums := Listed(orig.sums, names)), true))
       case Reread(task, orig) =>
         var all := task.(listdir := true);
         At(s, id, Starting(all, orig, Hashes(true, None, Listed(map[], names)), true))
       case _ => s)
    case Begin(_, suffix) =>
      var Computing(task, orig, hashes, todo, _) := s.pcs[id];
      At(s, id, Hashing(task, orig, hashes, todo - {suffix}, suffix, s.clock))
    case End(_, outcome) =>
      var Hashing(task, orig, hashes, todo, suffix, at) := s.pcs[id];
      var sums := match outcome
                  case Hashed(value) => hashes.sums[suffix := Some(Sum(value, at))]
                  case NotDir => hashes.sums - {suffix}
                  case OsError => hashes.sums;
      At(s, id, Computing(task, orig, hashes.(sums := sums), todo, true))
  }

  // ----- the invariant -----

  /** What is left of the log for good: a process about to clear it has taken it in. */
  function Pending(s: Sys): seq<Line> {
    if s.lock.Some? && s.lock.value in s.pcs && s.pcs[s.lock.value].Clearing? && s.pcs[s.lock.value].found then [] else s.lines
  }

  /** Every invalidation of the suffix that its computation may have missed is still listed. */
  ghost predicate Fresh(s: Sys, suffix: string, at: nat) {
    forall line :: line in s.log && line.suffix == suffix && line.at > at ==> line in Pending(s)
  }

  ghost predicate SumsFresh(s: Sys, sums: Sums) {
    forall x :: x in sums && ValidSuffix(x) && sums[x].Some? ==> Fresh(s, x, sums[x].value.at)
  }

  /** There is no such invalidation at all. */
  ghost predicate SumsCurrent(s: Sys, sums: Sums) {
    forall x, line :: x in sums && ValidSuffix(x) && sums[x].Some? && line in s.log && line.suffix == x ==> line.at <= sums[x].value.at
  }

  ghost predicate Proper(sums: Sums) { forall x :: x in sums ==> ValidSuffix(x) }

  /** A write since would show: no stamp in use is newer than the latest. */
  ghost predicate Known(s: Sys, orig: Hashes) {
    (orig.updated.Some? ==> orig.updated.value <= s.stamp) && (orig.updated.None? ==> orig.sums == map[])
  }

  /** If the file is still as it was read, these sums may be written. */
  ghost predicate MayWrite(s: Sys, orig: Hashes, sums: Sums) {
    Known(s, orig) && (Read(s.file) == orig ==> SumsFresh(s, sums))
  }

  ghost predicate PcOk(s: Sys, pc: Pc) {
    match pc
    case Merged(_, hashes, changed, found) =>
      && SumsCurrent(s, hashes.sums) && Proper(hashes.sums) && (!changed ==> Known(s, hashes))
      && changed == Relevant(s.lines) && found == (s.lines != []) && (!changed ==> hashes == Read(s.file))
    case Clearing(_, hashes, found) =>
      && SumsCurrent(s, hashes.sums) && Proper(hashes.sums) && Known(s, hashes) && hashes == Read(s.file)
      && found == (s.lines != [])
    case Leaving(next) => !Holds(next) && PcOk(s, next)
    case Got(_, orig) => MayWrite(s, orig, orig.sums) && Proper(orig.sums)
    case Reread(_, orig) => Known(s, orig)
    case Computing(_, orig, hashes, todo, _) =>
      && MayWrite(s, orig, hashes.sums) && (forall x :: x in hashes.sums && !ValidSuffix(x) ==> x in todo)
      && (forall x :: x in todo ==> x in hashes.sums)
    case Hashing(_, orig, hashes, todo, suffix, at) =>
      && MayWrite(s, orig, hashes.sums) && (forall x :: x in hashes.sums && !ValidSuffix(x) ==> x in todo || x == suffix)
      && (forall x :: x in todo ==> x in hashes.sums && x != suffix)
      && (Read(s.file) == orig && ValidSuffix(suffix) ==> Fresh(s, suffix, at))
    case Writing(_, orig, hashes) => MayWrite(s, orig, hashes.sums) && Proper(hashes.sums)
    case Comparing(_, orig, hashes) => MayWrite(s, orig, hashes.sums) && Proper(hashes.sums)
    case _ => true
  }

  ghost predicate Locked(s: Sys) {
    && (forall id :: id in s.pcs ==> (Holds(s.pcs[id]) <==> s.lock == Some(id)))
    && (s.lock.Some? ==> s.lock.value in s.pcs)
  }

  ghost predicate Inv(s: Sys) {
    && Locked(s)
    && (forall line :: line in s.log ==> line.at <= s.clock) && (forall line :: line in s.lines ==> line in s.log)
    && s.stamp >= -1 && Known(s, Read(s.file))
    && SumsFresh(s, Read(s.file).sums)
    && (forall id :: id in s.pcs ==> PcOk(s, s.pcs[id]))
  }

  // ----- what a step leaves alone -----

  /** Nothing about the file, the log or what is pending changes. */
  ghost predicate Calm(s: Sys, t: Sys) {
    && t.file == s.file && t.lines == s.lines && t.log == s.log && t.clock == s.clock && t.stamp == s.stamp
    && (forall line :: line in Pending(s) ==> line in Pending(t))
  }

  lemma CalmPc(s: Sys, t: Sys, pc: Pc)
    requires Calm(s, t) && PcOk(s, pc)
    ensures PcOk(t, pc)
    decreases pc
  {
    if pc.Leaving? { CalmPc(s, t, pc.next); }
    hide Pending, Relevant, Read, ValidSuffix;
  }

  lemma CalmInv(s: Sys, t: Sys, id: nat)
    requires Inv(s) && Calm(s, t) && Locked(t) && id in t.pcs && PcOk(t, t.pcs[id])
    requires forall other :: other in t.pcs && other != id ==> other in s.pcs && t.pcs[other] == s.pcs[other]
    ensures Inv(t)
  {
    hide PcOk, Locked, Pending, Read, ValidSuffix;
    forall other | other in t.pcs ensures PcOk(t, t.pcs[other]) {
      if other != id { CalmPc(s, t, s.pcs[other]); }
    }
  }

  /** The lock is taken, kept or left, and nothing is about to be cleared that was not. */
  lemma LockedPending(s: Sys, t: Sys, id: nat, pc: Pc)
    requires Locked(s) && id in s.pcs && t.lines == s.lines && t.pcs == s.pcs[id := pc]
    requires t.lock == if Holds(pc) then Some(id) else if Holds(s.pcs[id]) then None else s.lock
    requires Holds(pc) && !Holds(s.pcs[id]) ==> s.lock == None
    ensures Locked(t)
    ensures !pc.Clearing? ==> forall line :: line in Pending(s) ==> line in Pending(t)
  {
  }

  // ----- taking in the invalidations -----

  lemma {:induction false} MergeOk(sums: Sums, lines: seq<Line>)
    requires Proper(sums)
    ensures Proper(Merge(sums, lines))
    ensures forall i :: 0 <= i < |lines| && ValidSuffix(lines[i].suffix) ==> lines[i].suffix in Merge(sums, lines) && Merge(sums, lines)[lines[i].suffix] == None
    ensures forall x :: x in Merge(sums, lines) && Merge(sums, lines)[x].Some? ==> x in sums && sums[x] == Merge(sums, lines)[x]
    ensures !Relevant(lines) ==> Merge(sums, lines) == sums
    decreases |lines|
  {
    if lines != [] {
      var rest := lines[..|lines| - 1];
      MergeOk(sums, rest);
      assert Relevant(rest) ==> Relevant(lines) by {
        if Relevant(rest) { var i :| 0 <= i < |rest| && ValidSuffix(rest[i].suffix); assert ValidSuffix(lines[i].suffix); }
      }
      assert ValidSuffix(lines[|lines| - 1].suffix) ==> Relevant(lines);
    }
  }

  lemma ReadProper(file: File)
    ensures Proper(Read(file).sums)
  {
  }

  /** After the merge, no stored hash has an invalidation it may have missed. */
  lemma MergeCurrent(s: Sys)
    requires Inv(s) && Pending(s) == s.lines
    ensures var sums := Merge(Read(s.file).sums, s.lines); SumsCurrent(s, sums) && Proper(sums)
    ensures !Relevant(s.lines) ==> Merge(Read(s.file).sums, s.lines) == Read(s.file).sums
  {
    hide PcOk, Locked, Read, ValidSuffix, Pending;
    var sums := Merge(Read(s.file).sums, s.lines);
    ReadProper(s.file);
    MergeOk(Read(s.file).sums, s.lines);
    forall x, line | x in sums && ValidSuffix(x) && sums[x].Some? && line in s.log && line.suffix == x
      ensures line.at <= sums[x].value.at
    {
      assert Fresh(s, x, sums[x].value.at);
    }
  }

  lemma CurrentFresh(s: Sys, sums: Sums)
    requires SumsCurrent(s, sums)
    ensures SumsFresh(s, sums)
  {
    hide Pending, ValidSuffix;
  }

  // ----- the steps that change the disk -----

  lemma AppendPc(s: Sys, t: Sys, pc: Pc, line: Line)
    requires PcOk(s, pc) && !Holds(pc) && t.file == s.file && t.stamp == s.stamp
    requires t.log == s.log + {line} && line in Pending(t) && (forall l :: l in Pending(s) ==> l in Pending(t))
    ensures PcOk(t, pc)
  {
    hide Pending, Relevant, Read, ValidSuffix;
  }

  lemma AppendOk(s: Sys, id: nat)
    requires Inv(s) && Enabled(s, Step.Go(id)) && s.pcs[id].Appending?
    ensures Inv(Go(s, id))
  {
    var t := Go(s, id);
    var line := Line(s.pcs[id].suffix, s.clock + 1);
    assert Pending(s) == s.lines && Pending(t) == s.lines + [line];
    assert Locked(t);
    hide PcOk, Locked, Pending, Read, ValidSuffix;
    LeavingIdle(t);
    forall other | other in t.pcs ensures PcOk(t, t.pcs[other]) {
      if other != id {
        NotHolding(s, id, other);
        AppendPc(s, t, s.pcs[other], line);
      }
    }
  }

  lemma LeavingIdle(s: Sys)
    ensures PcOk(s, Leaving(Idle))
  {
  }

  lemma NotHolding(s: Sys, id: nat, other: nat)
    requires Locked(s) && id in s.pcs && other in s.pcs && id != other && Holds(s.pcs[id])
    ensures !Holds(s.pcs[other])
  {
  }

  /** A write of the file is seen by everyone who read it before. */
  lemma WrittenPc(s: Sys, t: Sys, pc: Pc, hashes: Hashes)
    requires PcOk(s, pc) && !Holds(pc) && Proper(hashes.sums)
    requires t.file == Written(hashes, s.stamp + 1) && t.stamp == s.stamp + 1
    ensures PcOk(t, pc)
  {
    ReadWritten(hashes, s.stamp + 1);
    hide Pending, Relevant, Read, ValidSuffix, SumsFresh;
  }

  lemma ReadWritten(hashes: Hashes, stamp: int)
    requires Proper(hashes.sums)
    ensures Read(Written(hashes, stamp)) == Hashes(hashes.valid, Some(stamp), hashes.sums)
  {
  }

  lemma WriteInv(s: Sys, t: Sys, id: nat, hashes: Hashes)
    requires Inv(s) && id in s.pcs && Holds(s.pcs[id]) && Proper(hashes.sums) && id in t.pcs && t.pcs == s.pcs[id := t.pcs[id]]
    requires t == s.(file := Written(hashes, s.stamp + 1), stamp := s.stamp + 1, pcs := t.pcs)
    requires Holds(t.pcs[id]) && PcOk(t, t.pcs[id]) && SumsFresh(t, hashes.sums)
    ensures Inv(t)
  {
    ReadWritten(hashes, s.stamp + 1);
    assert Locked(t);
    hide PcOk, Locked, Pending, Read, ValidSuffix;
    forall other | other in t.pcs ensures PcOk(t, t.pcs[other]) {
      if other != id {
        NotHolding(s, id, other);
        WrittenPc(s, t, s.pcs[other], hashes);
      }
    }
  }

  lemma MergedChangedOk(s: Sys, id: nat)
    requires Inv(s) && Enabled(s, Step.Go(id)) && s.pcs[id].Merged? && s.pcs[id].changed
    ensures Inv(Go(s, id))
  {
    var t := Go(s, id);
    var hashes := s.pcs[id].hashes;
    assert PcOk(s, s.pcs[id]);
    ReadWritten(hashes, s.stamp + 1);
    hide Inv, Pending, Read, ValidSuffix, Relevant, Locked;
    assert SumsCurrent(t, hashes.sums);
    CurrentFresh(t, hashes.sums);
    WriteInv(s, t, id, hashes);
  }

  /** Without a line that names a suffix, nothing is waiting for the file. */
  lemma IrrelevantPc(s: Sys, t: Sys, pc: Pc)
    requires PcOk(s, pc) && !Holds(pc) && t.file == s.file && t.stamp == s.stamp && t.log == s.log
    requires !Relevant(s.lines) && (forall line :: line in Pending(s) ==> line in s.lines)
    ensures PcOk(t, pc)
  {
    assert forall line :: line in Pending(s) ==> !ValidSuffix(line.suffix);
    hide Pending, Relevant, Read, ValidSuffix;
  }

  lemma MergedSameOk(s: Sys, id: nat)
    requires Inv(s) && Enabled(s, Step.Go(id)) && s.pcs[id].Merged? && !s.pcs[id].changed
    ensures Inv(Go(s, id))
  {
    var t := Go(s, id);
    var hashes := s.pcs[id].hashes;
    assert PcOk(s, s.pcs[id]);
    assert Pending(s) == s.lines;
    assert Locked(t);
    hide Pending, Read, ValidSuffix, Relevant, Locked;
    assert SumsCurrent(t, hashes.sums);
    CurrentFresh(t, hashes.sums);
    assert PcOk(t, t.pcs[id]);
    hide PcOk;
    forall other | other in t.pcs ensures PcOk(t, t.pcs[other]) {
      if other != id {
        NotHolding(s, id, other);
        IrrelevantPc(s, t, s.pcs[other]);
      }
    }
  }

  lemma ReadingOk(s: Sys, id: nat)
    requires Inv(s) && Enabled(s, Step.Go(id)) && s.pcs[id].Reading?
    ensures Inv(Go(s, id))
  {
    var t := Go(s, id);
    LockedPending(s, t, id, t.pcs[id]);
    MergeCurrent(s);
    hide Pending, Read, ValidSuffix, Relevant, Locked, Merge;
    assert PcOk(t, t.pcs[id]);
    CalmInv(s, t, id);
  }

  lemma ClearingOk(s: Sys, id: nat)
    requires Inv(s) && Enabled(s, Step.Go(id)) && s.pcs[id].Clearing?
    ensures Inv(Go(s, id))
  {
    var t := Go(s, id);
    var hashes := s.pcs[id].hashes;
    assert PcOk(s, s.pcs[id]);
    assert Pending(t) == Pending(s) == [];
    assert Locked(t);
    hide Pending, Read, ValidSuffix, Relevant, Locked;
    assert SumsCurrent(t, hashes.sums);
    CurrentFresh(t, hashes.sums);
    assert PcOk(t, t.pcs[id]);
    hide PcOk;
    forall other | other in t.pcs ensures PcOk(t, t.pcs[other]) {
      if other != id {
        NotHolding(s, id, other);
        ClearedPc(s, t, s.pcs[other]);
      }
    }
  }

  lemma ClearedPc(s: Sys, t: Sys, pc: Pc)
    requires PcOk(s, pc) && !Holds(pc) && t.file == s.file && t.stamp == s.stamp && t.log == s.log && Pending(t) == Pending(s)
    ensures PcOk(t, pc)
  {
    hide Pending, Relevant, Read, ValidSuffix;
  }

  lemma ComparingOk(s: Sys, id: nat)
    requires Inv(s) && Enabled(s, Step.Go(id)) && s.pcs[id].Comparing?
    ensures Inv(Go(s, id))
  {
    var t := Go(s, id);
    var Comparing(_, orig, hashes) := s.pcs[id];
    assert PcOk(s, s.pcs[id]);
    if Read(s.file) == orig {
      assert Pending(t) == Pending(s);
      hide Pending, Read, ValidSuffix, Relevant, Locked, Inv;
      SameFresh(s, t, hashes.sums);
      WriteInv(s, t, id, hashes);
    } else {
      LockedPending(s, t, id, t.pcs[id]);
      hide Pending, Read, ValidSuffix, Relevant, Locked, Inv;
      KnownCalm(s, t, id);
    }
  }

  lemma SameFresh(s: Sys, t: Sys, sums: Sums)
    requires SumsFresh(s, sums) && t.log == s.log && Pending(t) == Pending(s)
    ensures SumsFresh(t, sums)
  {
    hide Pending, ValidSuffix;
  }

  lemma KnownCalm(s: Sys, t: Sys, id: nat)
    requires Inv(s) && Locked(t) && id in s.pcs && id in t.pcs && t.pcs == s.pcs[id := t.pcs[id]] && PcOk(t, t.pcs[id])
    requires t == s.(lock := t.lock, pcs := t.pcs) && (forall line :: line in Pending(s) ==> line in Pending(t))
    ensures Inv(t)
  {
    hide Inv, PcOk, Locked, Pending;
    CalmInv(s, t, id);
  }

  lemma LeavingOk(s: Sys, id: nat)
    requires Inv(s) && Enabled(s, Step.Go(id)) && s.pcs[id].Leaving?
    ensures Inv(Go(s, id))
  {
    var t := Go(s, id);
    assert PcOk(s, s.pcs[id]);
    LockedPending(s, t, id, s.pcs[id].next);
    assert Calm(s, t);
    CalmPc(s, t, s.pcs[id].next);
    hide Inv, PcOk, Locked, Pending;
    KnownCalm(s, t, id);
  }

  // ----- the steps of one process -----

  lemma ResetFresh(s: Sys, sums: Sums, recalculate: seq<string>)
    requires SumsFresh(s, sums)
    ensures SumsFresh(s, Reset(sums, recalculate))
  {
    hide Fresh, ValidSuffix;
  }

  lemma StartingOk(s: Sys, task: Job, orig: Hashes, hashes: Hashes, modified: bool)
    requires MayWrite(s, orig, hashes.sums)
    requires forall x :: x in hashes.sums && !ValidSuffix(x) ==> hashes.sums[x] == None
    ensures PcOk(s, Starting(task, orig, hashes, modified))
  {
    if Read(s.file) == orig { ResetFresh(s, hashes.sums, task.recalculate); }
    hide SumsFresh, Read, ValidSuffix;
  }

  lemma ListedFresh(s: Sys, sums: Sums, names: seq<string>)
    requires SumsFresh(s, sums)
    ensures SumsFresh(s, Listed(sums, names))
  {
    hide Fresh, ValidSuffix;
  }

  lemma NothingFresh(s: Sys, names: seq<string>)
    ensures SumsFresh(s, Listed(map[], names))
    ensures forall x :: x in Listed(map[], names) ==> Listed(map[], names)[x] == None
  {
  }

  lemma ListOk(s: Sys, id: nat, names: seq<string>)
    requires Inv(s) && Enabled(s, Step.List(id, names))
    ensures Inv(Do(s, Step.List(id, names)))
  {
    var t := Do(s, Step.List(id, names));
    assert PcOk(s, s.pcs[id]);
    LockedPending(s, t, id, t.pcs[id]);
    match s.pcs[id] {
      case Got(task, orig) =>
        if Read(s.file) == orig { ListedFresh(s, orig.sums, names); }
        StartingOk(s, task, orig, orig.(sums := Listed(orig.sums, names)), true);
      case Reread(task, orig) =>
        NothingFresh(s, names);
        StartingOk(s, task.(listdir := true), orig, Hashes(true, None, Listed(map[], names)), true);
    }
    assert PcOk(s, t.pcs[id]);
    hide Inv, PcOk, Locked, Pending, Starting;
    CalmPc(s, t, t.pcs[id]);
    KnownCalm(s, t, id);
  }

  lemma EndSums(s: Sys, sums: Sums, suffix: string, at: nat, value: string)
    requires SumsFresh(s, sums) && (ValidSuffix(suffix) ==> Fresh(s, suffix, at))
    ensures SumsFresh(s, sums[suffix := Some(Sum(value, at))]) && SumsFresh(s, sums - {suffix})
  {
    hide Fresh, ValidSuffix;
  }

  lemma EndOk(s: Sys, id: nat, outcome: Outcome)
    requires Inv(s) && Enabled(s, Step.End(id, outcome))
    ensures Inv(Do(s, Step.End(id, outcome)))
  {
    var t := Do(s, Step.End(id, outcome));
    assert PcOk(s, s.pcs[id]);
    LockedPending(s, t, id, t.pcs[id]);
    var Hashing(_, orig, hashes, _, suffix, at) := s.pcs[id];
    if Read(s.file) == orig { EndSums(s, hashes.sums, suffix, at, if outcome.Hashed? then outcome.value else ""); }
    hide Inv, Locked, Pending, SumsFresh, Read, Fresh, ValidSuffix;
    assert PcOk(s, t.pcs[id]);
    hide PcOk;
    CalmPc(s, t, t.pcs[id]);
    KnownCalm(s, t, id);
  }

  lemma BeginOk(s: Sys, id: nat, suffix: string)
    requires Inv(s) && Enabled(s, Step.Begin(id, suffix))
    ensures Inv(Do(s, Step.Begin(id, suffix)))
  {
    var t := Do(s, Step.Begin(id, suffix));
    assert PcOk(s, s.pcs[id]);
    LockedPending(s, t, id, t.pcs[id]);
    assert Fresh(s, suffix, s.clock);
    hide Inv, Locked, Pending, SumsFresh, Read, Fresh, ValidSuffix;
    assert PcOk(s, t.pcs[id]);
    hide PcOk;
    CalmPc(s, t, t.pcs[id]);
    KnownCalm(s, t, id);
  }

  /** A process moves on by itself: it takes the lock, gives up, or decides what to do. */
  lemma MovesOk(s: Sys, t: Sys, id: nat)
    requires Inv(s) && id in s.pcs && id in t.pcs && t == s.(lock := t.lock, pcs := s.pcs[id := t.pcs[id]])
    requires t.lock == if Holds(t.pcs[id]) then Some(id) else if Holds(s.pcs[id]) then None else s.lock
    requires Holds(t.pcs[id]) && !Holds(s.pcs[id]) ==> s.lock == None
    requires !t.pcs[id].Clearing? && PcOk(s, t.pcs[id])
    ensures Inv(t)
  {
    LockedPending(s, t, id, t.pcs[id]);
    hide Inv, PcOk, Locked, Pending;
    CalmPc(s, t, t.pcs[id]);
    KnownCalm(s, t, id);
  }

  lemma GoOk(s: Sys, id: nat)
    requires Inv(s) && Enabled(s, Step.Go(id))
    ensures Inv(Go(s, id))
  {
    var pc := s.pcs[id];
    if pc.Appending? {
      AppendOk(s, id);
    } else if pc.Reading? {
      ReadingOk(s, id);
    } else if pc.Merged? {
      if pc.changed { MergedChangedOk(s, id); } else { MergedSameOk(s, id); }
    } else if pc.Clearing? {
      ClearingOk(s, id);
    } else if pc.Leaving? {
      LeavingOk(s, id);
    } else if pc.Comparing? {
      ComparingOk(s, id);
    } else {
      assert PcOk(s, s.pcs[id]);
      NextPcOk(s, id);
      hide Inv, PcOk, Locked, Pending, Starting;
      MovesOk(s, Go(s, id), id);
    }
  }

  lemma NextPcOk(s: Sys, id: nat)
    requires Enabled(s, Step.Go(id)) && PcOk(s, s.pcs[id]) && Known(s, Read(s.file))
    requires var pc := s.pcs[id]; pc.Invalidating? || pc.Consolidating? || pc.Got? || pc.Rereading? || pc.Computing? || pc.Writing?
    ensures PcOk(s, Go(s, id).pcs[id])
  {
    if s.pcs[id].Got? && s.pcs[id].orig.valid {
      StartingOk(s, s.pcs[id].task, s.pcs[id].orig, s.pcs[id].orig, false);
    }
    hide SumsFresh, Read, ValidSuffix, Starting;
  }

  lemma StepOk(s: Sys, step: Step)
    requires Inv(s) && Enabled(s, step)
    ensures Inv(Do(s, step))
  {
    match step
    case Go(id) => GoOk(s, id);
    case List(id, names) => ListOk(s, id, names);
    case Begin(id, suffix) => BeginOk(s, id, suffix);
    case End(id, outcome) => EndOk(s, id, outcome);
    case _ =>
      hide Inv, Locked, Pending;
      MovesOk(s, Do(s, step), step.id);
  }

  // ----- whole runs -----

  /** Any file, readable or not, and any lines; nobody at work. What the file
      holds, and is not listed as invalid, is current. */
  ghost predicate Init(s: Sys) {
    && (forall id :: id in s.pcs ==> s.pcs[id].Idle?) && s.lock == None
    && (forall line :: line in s.log <==> line in s.lines) && (forall line :: line in s.log ==> line.at <= s.clock)
    && s.stamp >= -1 && (Read(s.file).updated.Some? ==> Read(s.file).updated.value <= s.stamp)
  }

  ghost predicate Run(states: seq<Sys>, steps: seq<Step>) {
    && |states| == |steps| + 1 && Init(states[0])
    && (forall k :: 0 <= k < |steps| ==> Enabled(states[k], steps[k]) && states[k + 1] == Do(states[k], steps[k]))
  }

  lemma {:induction false} RunInv(states: seq<Sys>, steps: seq<Step>, n: nat)
    requires Run(states, steps) && n < |states|
    ensures Inv(states[n])
    decreases n
  {
    hide Inv, Enabled, Do, Init;
    if n == 0 {
      InitOk(states[0]);
    } else {
      RunInv(states, steps, n - 1);
      StepOk(states[n - 1], steps[n - 1]);
    }
  }

  lemma InitOk(s: Sys)
    requires Init(s)
    ensures Inv(s)
  {
    assert Pending(s) == s.lines;
    hide Read;
    ReadKnown(s.file);
  }

  lemma ReadKnown(file: File)
    ensures Read(file).updated.None? ==> Read(file).sums == map[]
  {
  }

  /** No invalidation is ever lost: whenever a stored hash may have missed one,
      because its computation began before it, that one is still listed; unless
      a process holds the lock to clear the list, and then none was missed. */
  lemma NoLostInvalidation(states: seq<Sys>, steps: seq<Step>, n: nat, suffix: string, line: Line)
    requires Run(states, steps) && n < |states| && ValidSuffix(suffix)
    requires suffix in Read(states[n].file).sums && Read(states[n].file).sums[suffix].Some?
    requires line in states[n].log && line.suffix == suffix
    ensures line.at <= Read(states[n].file).sums[suffix].value.at || line in Pending(states[n])
    ensures line in Pending(states[n]) ==> line in states[n].lines
  {
    RunInv(states, steps, n);
    hide PcOk, Read, ValidSuffix, Run;
    assert Fresh(states[n], suffix, Read(states[n].file).sums[suffix].value.at);
  }

  // ----- the code under the lock -----

  class Partition {
    var file: File
    var lines: seq<Line>
    var stamp: int

    constructor (file: File, lines: seq<Line>, stamp: int)
      ensures this.file == file && this.lines == lines && this.stamp == stamp
    {
      this.file, this.lines, this.stamp := file, lines, stamp;
    }

    /** consolidate_hashes: what Reading, Merged and Clearing do one after the other. */
    method ConsolidateHashes() returns (hashes: Hashes)
      modifies this
      ensures lines == []
      ensures hashes.valid == Read(old(file)).valid && hashes.sums == Merge(Read(old(file)).sums, old(lines))
      ensures Relevant(old(lines)) ==> stamp > old(stamp) && hashes.updated == Some(stamp) && file == Written(hashes, stamp)
      ensures !Relevant(old(lines)) ==> hashes == Read(old(file)).(sums := hashes.sums) && file == old(file) && stamp == old(stamp)
    {
      hashes := Read(file);
      var found, updated := false, false;
      for i := 0 to |lines|
        invariant lines == old(lines) && file == old(file) && stamp == old(stamp)
        invariant found == (i > 0) && updated == Relevant(lines[..i])
        invariant hashes == Read(file).(sums := Merge(Read(file).sums, lines[..i]))
      {
        found := true;
        assert lines[..i + 1][..i] == lines[..i];
        RelevantAppend(lines[..i], lines[i]);
        assert lines[..i] + [lines[i]] == lines[..i + 1];
        if ValidSuffix(lines[i].suffix) {
          updated := true;
          hashes := hashes.(sums := hashes.sums[lines[i].suffix := None]);
        }
      }
      assert lines[..|lines|] == lines;
      if updated {
        stamp := stamp + 1;
        hashes := hashes.(updated := Some(stamp));
        file := Written(hashes, stamp);
      }
      if found { lines := []; }
    }

    /** invalidate_hash. */
    method InvalidateHash(suffix: string, now: nat)
      modifies this`lines
      ensures lines == old(lines) + [Line(suffix, now)]
    {
      lines := lines + [Line(suffix, now)];
    }
  }

  lemma RelevantAppend(lines: seq<Line>, line: Line)
    ensures Relevant(lines + [line]) <==> Relevant(lines) || ValidSuffix(line.suffix)
  {
    var all := lines + [line];
    assert all[|lines|] == line;
    if Relevant(lines) {
      var i :| 0 <= i < |lines| && ValidSuffix(lines[i].suffix);
      assert ValidSuffix(all[i].suffix);
    }
  }
}
