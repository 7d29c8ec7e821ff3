/** From requests to views: what a Device shows under a name, in any run, is
    what the reference backend shows after the same operations in the order the
    Device took its decisions. */
module DeviceBridge {
  import opened Base
  import opened Engine
  import opened Journals
  import opened Metadata
  import opened Device
  import opened DeviceSpec
  import opened DeviceAudit
  import opened DeviceCuts
  import opened DeviceDurable
  import opened DeviceRuns
  import opened DeviceTheorems
  import opened Crash
  import opened Filesets
  import opened Bridge
  import Sweep

  /** Callers hand a put or delete the ticks of the X-Timestamp in its metadata,
      where it has metadata of its own. */
  ghost predicate CallersTick(s: Sys) {
    forall rid :: rid in s.reqs ==>
      match s.reqs[rid].task
      case Put(_, ts, meta) => ts == Raw(meta.time)
      case Delete(ts, tombstone) => tombstone.Some? ==> ts == Raw(tombstone.value.time)
      case _ => true
  }

  /** Puts and deletes are decided at the ticks of their own X-Timestamp. */
  ghost predicate Ticked(events: seq<Event>) {
    forall i :: 0 <= i < |events| && events[i].HandedName? ==> events[i].ts == Raw(events[i].meta.time)
  }

  lemma DecidedTick(c: Config, origin: Names, s: Sys)
    requires Audit(c, origin, s) && CallersTick(s)
    ensures Ticked(s.decided)
  {
    forall i | 0 <= i < |s.decided| && s.decided[i].HandedName? ensures s.decided[i].ts == Raw(s.decided[i].meta.time) {
      assert EventFine(c, origin, s, i);
      Ticks(s.decided[i].ts);
    }
    hide Raw, FromRaw, Fold, Reply;
  }

  function OperationFor(e: Event): Operation {
    match e
    case HandedName(_, _, _, deleted, _, meta) => if deleted then DeleteOp(meta) else PutOp(meta)
    case Posted(_, _, post) => PostOp(post)
  }

  function OperationsOn(events: seq<Event>, name: string): seq<Operation> {
    if events == [] then []
    else
      var before := OperationsOn(events[..|events| - 1], name);
      if Last(events).name == name then before + [OperationFor(Last(events))] else before
  }

  function HeldIn(c: Config, v: Option<Version>): Option<Held> {
    match v
    case None => None
    case Some(version) => Some(Held(version.deleted, c.decode(version.header)))
  }

  ghost predicate Timed(c: Config, v: Option<Version>) {
    v.Some? ==> v.value.ts == Raw(c.decode(v.value.header).data.time)
  }

  lemma StepIsBlob(c: Config, names: Names, e: Event, name: string)
    requires RoundTrips(c) && Timed(c, Lookup(names, name)) && (e.HandedName? ==> e.ts == Raw(e.meta.time))
    ensures var now := Lookup(SpecStep(c, names, e), name);
            && Timed(c, now)
            && HeldIn(c, now) == if e.name == name then BlobStep(HeldIn(c, Lookup(names, name)), OperationFor(e)) else HeldIn(c, Lookup(names, name))
  {
    hide Raw, Merged;
  }

  /** What the mounted store has of a name is what these operations made of it:
      none, for a name that is not there. */
  ghost predicate Remembers(c: Config, origin: Names, name: string, before: seq<Operation>) {
    Timed(c, Lookup(origin, name)) && HeldIn(c, Lookup(origin, name)) == BlobFold(before)
  }

  lemma NothingHeld(c: Config, origin: Names, name: string)
    ensures name !in origin <==> Remembers(c, origin, name, [])
  {
  }

  /** The Device's specification, name by name, is the blob's fold. */
  lemma {:induction false} FoldIsBlob(c: Config, origin: Names, before: seq<Operation>, events: seq<Event>, name: string)
    requires RoundTrips(c) && Ticked(events) && Remembers(c, origin, name, before)
    ensures Remembers(c, Fold(c, origin, events), name, before + OperationsOn(events, name))
    decreases |events|
  {
    hide RoundTrips, Timed, HeldIn, SpecStep, BlobStep;
    if events == [] {
      assert before + [] == before;
    } else {
      var earlier, e := events[..|events| - 1], Last(events);
      FoldIsBlob(c, origin, before, earlier, name);
      StepIsBlob(c, Fold(c, origin, earlier), e, name);
      var ops := before + OperationsOn(earlier, name);
      assert (ops + [OperationFor(e)])[..|ops|] == ops;
      assert before + (OperationsOn(earlier, name) + [OperationFor(e)]) == ops + [OperationFor(e)];
    }
  }

  /** In every run, every name shows what the reference shows after the same
      operations, its directory cleaned after each; `before` are those of earlier
      mounts. */
  lemma DeviceMatchesReference(c: Config, origin: Names, states: seq<Sys>, steps: seq<Step>, n: nat, name: string,
                               before: seq<Operation>, content: Content)
    requires RoundTrips(c) && Run(c, origin, states, steps) && n < |states| && Remembers(c, origin, name, before)
    requires CallersTick(states[n])
    requires var ops := before + OperationsOn(states[n].decided, name);
             Sensible(ops) && Stored(ops, content) && ops != [] && Writes(ops[0])
    ensures |states[n].journal.stores| > 0
    ensures BlobView(HeldIn(c, DeviceSpec.Shows(Virtual(states[n].journal), name))) ==
              FilesView(Chosen(CleanedFold(before + OperationsOn(states[n].decided, name))), content)
  {
    hide Run, RoundTrips, Sensible, Stored, Ticked, CallersTick, BlobView, FilesView, Chosen, HeldIn, Timed, Inv, Audit, CutsOk, AllKept;
    Linearizable(c, origin, states, steps, n, name);
    RunSane(c, origin, states, steps, n);
    DecidedTick(c, origin, states[n]);
    FoldIsBlob(c, origin, before, states[n].decided, name);
    BackendsAgree(before + OperationsOn(states[n].decided, name), content);
  }

  /** What the next mount has of a name, after any crash, is what the operations
      it kept made of it. So the reference goes on from there, mount after mount. */
  lemma NextMountRemembers(c: Config, origin: Names, s: Sys, keep: Keep, queue: seq<Op>, name: string, before: seq<Operation>) returns (d: nat)
    requires RoundTrips(c) && Remembers(c, origin, name, before) && CallersTick(s)
    requires Sane(c, origin, s) && CanKeep(s, keep)
    requires |s.journal.stores| > 0 && Sweep.Sweeps(Crashed(c, keep, s.journal), queue)
    ensures d <= |s.decided| && (forall i :: 0 <= i < |s.decided| && s.decided[i].name == name && Confirmed(s, i) ==> i < d)
    ensures var mount := Sweep.SweptBy(Crashed(c, keep, s.journal), queue);
            && |mount.stores| > 0 && Swept(Virtual(mount))
            && Remembers(c, Sweep.Origin(Virtual(mount)), name, before + OperationsOn(s.decided[..d], name))
  {
    hide RoundTrips, Ticked, CallersTick, Inv, Audit, CutsOk, AllKept, CanKeep, Crashed, Timed, HeldIn, Fold, Sweep.Sweeps, Swept, Sweep.SweptBy, Sweep.Origin, Sweep.Mounted, Initial;
    d := Sweep.Recovery(c, origin, s, keep, queue, name);
    DecidedTick(c, origin, s);
    TickedPrefix(s.decided, d);
    FoldIsBlob(c, origin, before, s.decided[..d], name);
  }

  lemma TickedPrefix(events: seq<Event>, n: nat)
    requires Ticked(events) && n <= |events|
    ensures Ticked(events[..n])
  {
  }
}
