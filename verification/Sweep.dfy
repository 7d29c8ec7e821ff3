/** Backend::clean, run when a store is mounted: the batched scan of each
    collection, stopping at the first ordinary entry, queues a removal for
    exactly the temporary entries. With it, a crashed store becomes one the
    Device starts from. */
module Sweep {
  import opened Base
  import opened Engine
  import opened Journals
  import opened Device
  import opened DeviceSpec
  import opened DeviceRuns
  import opened DeviceCuts
  import opened DeviceTheorems
  import opened Crash

  /** How many entries collection_list is asked for. */
  const BATCH: nat := 1024

  /** One collection in listing order: temporary entries come first. */
  ghost predicate Lists(store: Store, list: seq<Address>, mine: Address -> bool) {
    && (forall at :: at in list <==> at in store && mine(at))
    && (forall i, k :: 0 <= i < k < |list| ==> list[i] != list[k])
    && (forall i, k :: 0 <= i < k < |list| && list[k].temp ==> list[i].temp)
  }

  /** What clean prepares for the entries it visits, those of the temporary space. */
  function Removals(store: Store, visited: seq<Address>): seq<Op>
    requires forall at :: at in visited ==> at in store && store[at].attrs.Some?
  {
    if visited == [] then []
    else
      var at := Last(visited);
      var before := Removals(store, visited[..|visited| - 1]);
      if at.temp then before + [Remove(AddressOf(Load(at, store[at].attrs.value)))] else before
  }

  ghost predicate Readable(store: Store, list: seq<Address>) { forall at :: at in list ==> at in store && store[at].attrs.Some? }

  lemma RemovalsAppend(store: Store, visited: seq<Address>, at: Address)
    requires Readable(store, visited + [at]) && Readable(store, visited)
    ensures Removals(store, visited + [at]) ==
              Removals(store, visited) + (if at.temp then [Remove(AddressOf(Load(at, store[at].attrs.value)))] else [])
  {
    assert (visited + [at])[..|visited|] == visited;
  }

  lemma {:induction false} RemovalsJoin(store: Store, a: seq<Address>, b: seq<Address>)
    requires Readable(store, a) && Readable(store, b) && Readable(store, a + b)
    ensures Removals(store, a + b) == Removals(store, a) + Removals(store, b)
    decreases |b|
  {
    if b == [] {
      assert a + b == a;
    } else {
      var before := b[..|b| - 1];
      assert (a + b)[..|a + b| - 1] == a + before;
      RemovalsJoin(store, a, before);
    }
  }

  /** The callback over one batch. It fails on an entry without attributes, and
      an ordinary entry ends the collection. */
  method CleanBatch(store: Store, batch: seq<Address>) returns (ok: bool, visited: seq<Address>, queue: seq<Op>, nextCollection: bool)
    requires forall at :: at in batch ==> at in store
    ensures visited <= batch && Readable(store, visited) && queue == Removals(store, visited)
    ensures forall i :: 0 <= i < |visited| - 1 ==> visited[i].temp
    ensures nextCollection <==> |visited| > 0 && !Last(visited).temp
    ensures ok && !nextCollection ==> visited == batch
    ensures !ok ==> !nextCollection && |visited| < |batch| && store[batch[|visited|]].attrs.None?
  {
    hide AddressOf, Removals;
    visited, queue, nextCollection := [], [], false;
    assert queue == Removals(store, visited) by { NoRemovals(store); }
    var i := 0;
    while i < |batch| && !nextCollection
      invariant i <= |batch| && visited == batch[..i] && Readable(store, visited) && queue == Removals(store, visited)
      invariant nextCollection <==> |visited| > 0 && !Last(visited).temp
      invariant forall m :: 0 <= m < |visited| - 1 ==> visited[m].temp
    {
      var at := batch[i];
      if store[at].attrs.None? { return false, visited, queue, false; }
      assert batch[..i + 1] == visited + [at];
      RemovalsAppend(store, visited, at);
      var stat := Load(at, store[at].attrs.value);
      if stat.state == Active {
        nextCollection := true;
      } else {
        queue := queue + [Remove(AddressOf(stat))];
      }
      visited := visited + [at];
      i := i + 1;
    }
    ok := true;
  }

  lemma NoRemovals(store: Store)
    ensures Removals(store, []) == []
  {
  }

  /** What has been visited and queued when `next` entries have been listed. */
  ghost predicate Visiting(store: Store, list: seq<Address>, next: nat, visited: seq<Address>, queue: seq<Op>, nextCollection: bool) {
    && next <= |list| && visited <= list && Readable(store, visited) && queue == Removals(store, visited)
    && (forall i :: 0 <= i < |visited| - 1 ==> visited[i].temp)
    && (nextCollection <==> |visited| > 0 && !Last(visited).temp)
    && (!nextCollection ==> |visited| == next)
  }

  /** Batches are visited one after the other. */
  lemma BatchVisited(store: Store, list: seq<Address>, next: nat, end: nat, visited: seq<Address>, queue: seq<Op>, some: seq<Address>, nextCollection: bool)
    requires Visiting(store, list, next, visited, queue, false) && next <= end <= |list|
    requires some <= list[next..end] && Readable(store, some)
    requires forall i :: 0 <= i < |some| - 1 ==> some[i].temp
    requires nextCollection <==> |some| > 0 && !Last(some).temp
    ensures visited + some <= list && Readable(store, visited + some)
    ensures queue + Removals(store, some) == Removals(store, visited + some)
    ensures forall i :: 0 <= i < |visited + some| - 1 ==> (visited + some)[i].temp
    ensures some == list[next..end] || nextCollection ==> Visiting(store, list, end, visited + some, queue + Removals(store, some), nextCollection)
    ensures |visited + some| == next + |some|
  {
    assert visited == list[..next] && some == list[next..end][..|some|];
    assert visited + some == list[..next + |some|];
    RemovalsJoin(store, visited, some);
    hide Removals;
  }

  /** The scan of one collection with clean's callback. */
  method CleanCollection(store: Store, list: seq<Address>) returns (ok: bool, visited: seq<Address>, queue: seq<Op>)
    requires forall at :: at in list ==> at in store
    ensures visited <= list && Readable(store, visited) && queue == Removals(store, visited)
    ensures forall i :: 0 <= i < |visited| - 1 ==> visited[i].temp
    ensures ok ==> visited == list || (|visited| > 0 && !Last(visited).temp)
    ensures !ok ==> |visited| < |list| && store[list[|visited|]].attrs.None?
  {
    hide Removals, Visiting;
    visited, queue := [], [];
    NothingVisited(store, list);
    var next, nextCollection := 0, false;
    while !nextCollection && next < |list|
      invariant Visiting(store, list, next, visited, queue, nextCollection) && next <= |list|
      decreases |list| - next, !nextCollection
    {
      var end := if |list| - next < BATCH then |list| else next + BATCH;
      var batch := list[next..end];
      var some, removals;
      ok, some, removals, nextCollection := CleanBatch(store, batch);
      BatchVisited(store, list, next, end, visited, queue, some, nextCollection);
      assert !ok ==> list[next + |some|] == batch[|some|];
      visited, queue, next := visited + some, queue + removals, end;
      if !ok { return; }
    }
    AllVisited(store, list, next, visited, queue, nextCollection);
    ok := true;
  }

  lemma NothingVisited(store: Store, list: seq<Address>)
    ensures Visiting(store, list, 0, [], [], false)
  {
    NoRemovals(store);
  }

  lemma AllVisited(store: Store, list: seq<Address>, next: nat, visited: seq<Address>, queue: seq<Op>, nextCollection: bool)
    requires Visiting(store, list, next, visited, queue, nextCollection) && (nextCollection || next == |list|)
    ensures visited <= list && Readable(store, visited) && queue == Removals(store, visited)
    ensures forall i :: 0 <= i < |visited| - 1 ==> visited[i].temp
    ensures visited == list || (|visited| > 0 && !Last(visited).temp)
  {
    hide Removals;
  }

  // ----- what the queue does -----

  function Cleaned(store: Store): Store { map at | at in store && !at.temp :: store[at] }

  /** One removal for each temporary entry, and nothing else. */
  ghost predicate Sweeps(store: Store, queue: seq<Op>) {
    && (forall op :: op in queue ==> op.Remove? && op.at.temp && op.at in store)
    && (forall at :: at in store && at.temp ==> Remove(at) in queue)
    && (forall i, k :: 0 <= i < k < |queue| ==> queue[i] != queue[k])
  }

  /** The mount's journal with the queue in it. */
  function SweptBy(store: Store, queue: seq<Op>): Journal { Prepare(Journal([store], [], map[]), queue) }

  lemma {:induction false} PrepareMore(j: Journal, ops: seq<Op>, op: Op)
    ensures Prepare(j, ops + [op]) == Append(Prepare(j, ops), op)
    decreases |ops|
  {
    if ops == [] {
      assert ops + [op] == [op] && [op][1..] == [];
    } else {
      assert (ops + [op])[1..] == ops[1..] + [op];
      PrepareMore(Append(j, ops[0]), ops[1..], op);
    }
  }

  function LeftBy(store: Store, queue: seq<Op>): Store { map at | at in store && Remove(at) !in queue :: store[at] }

  lemma LeftByMore(store: Store, queue: seq<Op>, op: Op)
    requires op.Remove? && op.at in store && op !in queue
    ensures Applicable(LeftBy(store, queue), op) && Apply(LeftBy(store, queue), op) == LeftBy(store, queue + [op])
  {
  }

  lemma NthRemoval(store: Store, queue: seq<Op>, n: nat)
    requires Sweeps(store, queue) && 0 < n <= |queue|
    ensures var op := queue[n - 1];
            op.Remove? && op.at in store && op !in queue[..n - 1] && queue[..n] == queue[..n - 1] + [op]
  {
    assert queue[n - 1] in queue;
  }

  /** What is left when the first n removals have landed. */
  lemma {:induction false} SweepSoFar(store: Store, queue: seq<Op>, n: nat)
    requires Sweeps(store, queue) && n <= |queue|
    ensures var j := SweptBy(store, queue[..n]);
            Replayed(j) && j.ops == queue[..n] && Virtual(j) == LeftBy(store, queue[..n])
    decreases n
  {
    if n == 0 {
      assert LeftBy(store, []) == store;
    } else {
      hide Sweeps, Prepare, LeftBy, Applicable, Apply, Append, Replayed;
      var before, op := queue[..n - 1], queue[n - 1];
      var j := SweptBy(store, before);
      SweepSoFar(store, queue, n - 1);
      NthRemoval(store, queue, n);
      LeftByMore(store, before, op);
      AppendReplayed(j, op);
      PrepareMore(Journal([store], [], map[]), before, op);
    }
  }

  lemma AppendReplayed(j: Journal, op: Op)
    requires Replayed(j) && Applicable(Virtual(j), op)
    ensures Replayed(Append(j, op)) && Append(j, op).ops == j.ops + [op] && Virtual(Append(j, op)) == Apply(Virtual(j), op)
  {
    hide Applicable, Apply, Noted;
    var k := Append(j, op);
    forall i | 0 <= i < |k.ops| ensures Applicable(k.stores[i], k.ops[i]) && k.stores[i + 1] == Apply(k.stores[i], k.ops[i]) {
      if i < |j.ops| {
        assert k.stores[i] == j.stores[i] && k.stores[i + 1] == j.stores[i + 1] && k.ops[i] == j.ops[i];
      }
    }
  }

  /** Each removal can be applied in its turn, and when all have been exactly the
      temporary entries are gone and the ordinary ones are as they were. */
  lemma SweepLands(store: Store, queue: seq<Op>)
    requires Sweeps(store, queue)
    ensures Replayed(SweptBy(store, queue)) && SweptBy(store, queue).ops == queue
    ensures Virtual(SweptBy(store, queue)) == Cleaned(store)
  {
    assert queue[..|queue|] == queue;
    SweepSoFar(store, queue, |queue|);
    assert LeftBy(store, queue) == Cleaned(store);
    hide Replayed, SweptBy;
  }

  /** Although the scan stops at the first ordinary entry, it has met every temporary one. */
  lemma VisitsTemporaries(store: Store, list: seq<Address>, mine: Address -> bool, visited: seq<Address>)
    requires Lists(store, list, mine) && visited <= list
    requires visited == list || (|visited| > 0 && !Last(visited).temp)
    ensures forall at :: at in store && mine(at) && at.temp ==> at in visited
    ensures forall at :: at in visited ==> at in store && mine(at)
  {
    forall at | at in store && mine(at) && at.temp ensures at in visited {
      assert at in list;
      var k :| 0 <= k < |list| && list[k] == at;
      assert visited != list ==> list[|visited| - 1] == Last(visited);
      assert k < |visited|;
      assert visited[k] == at;
    }
  }

  /** The removals queued are those of the temporary entries visited, each once. */
  lemma {:induction false} RemovalsAre(store: Store, visited: seq<Address>)
    requires TidyAddresses(store) && Readable(store, visited)
    requires forall i, k :: 0 <= i < k < |visited| ==> visited[i] != visited[k]
    ensures forall op :: op in Removals(store, visited) <==> op.Remove? && op.at.temp && op.at in visited
    ensures forall i, k :: 0 <= i < k < |Removals(store, visited)| ==> Removals(store, visited)[i] != Removals(store, visited)[k]
    decreases |visited|
  {
    if visited != [] {
      var before, at := visited[..|visited| - 1], Last(visited);
      assert visited == before + [at];
      assert at !in before;
      RemovalsAre(store, before);
      assert AddressOf(Load(at, store[at].attrs.value)) == at;
    }
    hide AddressOf;
  }

  /** The sweep so far: the collections before n are done. */
  ghost predicate SweepsBelow(store: Store, queue: seq<Op>, collection: Address -> nat, n: nat) {
    && (forall op :: op in queue <==> op.Remove? && op.at.temp && op.at in store && collection(op.at) < n)
    && (forall i, k :: 0 <= i < k < |queue| ==> queue[i] != queue[k])
  }

  lemma OneMoreCollection(store: Store, list: seq<Address>, visited: seq<Address>, queue: seq<Op>, collection: Address -> nat, n: nat)
    requires TidyAddresses(store) && Lists(store, list, at => collection(at) == n) && Readable(store, visited)
    requires visited <= list && (visited == list || (|visited| > 0 && !Last(visited).temp))
    requires SweepsBelow(store, queue, collection, n)
    ensures SweepsBelow(store, queue + Removals(store, visited), collection, n + 1)
  {
    var removals := Removals(store, visited);
    VisitsTemporaries(store, list, at => collection(at) == n, visited);
    RemovalsAre(store, visited);
    hide TidyAddresses, Removals;
    forall op ensures op in queue + removals <==> op.Remove? && op.at.temp && op.at in store && collection(op.at) < n + 1 {
      assert op in removals <==> op.Remove? && op.at.temp && op.at in store && collection(op.at) == n;
    }
    var all := queue + removals;
    forall i, k | 0 <= i < k < |all| ensures all[i] != all[k] {
      if i < |queue| <= k { assert all[i] in queue && all[k] in removals; }
    }
  }

  /** The whole sweep: it queues one removal for each temporary entry, and nothing
      else. Each can be applied in its turn, and together they leave the ordinary
      entries, as they were. */
  method Clean(store: Store, lists: seq<seq<Address>>, collection: Address -> nat) returns (ok: bool, queue: seq<Op>)
    requires TidyAddresses(store)
    requires forall n :: 0 <= n < |lists| ==> Lists(store, lists[n], at => collection(at) == n)
    requires forall at :: at in store ==> collection(at) < |lists|
    ensures ok && Sweeps(store, queue)
    ensures Replayed(SweptBy(store, queue)) && SweptBy(store, queue).ops == queue
    ensures Virtual(SweptBy(store, queue)) == Cleaned(store)
  {
    hide TidyAddresses, Replayed;
    var n := 0;
    queue := [];
    while n < |lists|
      invariant n <= |lists| && SweepsBelow(store, queue, collection, n)
    {
      var visited, removals;
      assert Lists(store, lists[n], at => collection(at) == n);
      ok, visited, removals := CleanCollection(store, lists[n]);
      assert ok by { AllReadable(store); }
      OneMoreCollection(store, lists[n], visited, queue, collection, n);
      queue, n := queue + removals, n + 1;
    }
    SweepLands(store, queue);
    ok := true;
  }

  lemma AllReadable(store: Store)
    requires TidyAddresses(store)
    ensures forall at :: at in store ==> store[at].attrs.Some?
  {
  }

  // ----- mounting again -----

  lemma CleanedIsSwept(store: Store)
    requires TidyAddresses(store) && OnePlace(store)
    ensures Swept(Cleaned(store))
    ensures forall name :: Shows(Cleaned(store), name) == Shows(store, name)
  {
  }

  /** What the Device knows of a store it is mounted on. */
  ghost function Mounted(store: Store, next: nat): (s: Sys)
    requires Swept(store)
  {
    var recs := map at | at in store :: store[at].inode := DeviceRuns.Found(store[at], at.name);
    Sys(Journal([store], [], recs), 0, map[], map[], map[], map[], next, [], [], [])
  }

  ghost function Origin(store: Store): (origin: Names)
    requires Swept(store)
    ensures forall name :: Lookup(origin, name) == Shows(store, name)
  {
    map at | at in store :: at.name := Version(store[at].attrs.value.ts, store[at].attrs.value.deleted, store[at].data, store[at].header)
  }

  lemma MountedInitial(c: Config, store: Store, next: nat)
    requires c.chunk > 0 && Swept(store) && (forall at :: at in store ==> store[at].inode < next)
    ensures Initial(c, Origin(store), Mounted(store, next))
  {
    var s := Mounted(store, next);
    forall i | i in s.journal.recs ensures exists at :: at in store && store[at].inode == i {
    }
    forall at | at in store ensures store[at].inode in s.journal.recs && s.journal.recs[store[at].inode] == DeviceRuns.Found(store[at], at.name) {
    }
    assert Recovers(store, s.journal.recs);
  }

  lemma SaneParts(c: Config, origin: Names, s: Sys)
    requires Sane(c, origin, s)
    ensures Inv(c, origin, s) && c.chunk > 0
  {
  }

  /** After any crash, what the mount's sweep leaves is a store the Device starts
      from, so that all that is proved of runs holds again; and each name starts
      with what the first `d` decisions made of it, every confirmed one among them. */
  lemma Recovery(c: Config, origin: Names, s: Sys, keep: Keep, queue: seq<Op>, name: string) returns (d: nat)
    requires Sane(c, origin, s) && CanKeep(s, keep)
    requires |s.journal.stores| > 0 && Sweeps(Crashed(c, keep, s.journal), queue)
    ensures var mount := SweptBy(Crashed(c, keep, s.journal), queue);
            && Replayed(mount) && Swept(Virtual(mount)) && Initial(c, Origin(Virtual(mount)), Mounted(Virtual(mount), s.next))
            && d <= |s.decided| && Lookup(Origin(Virtual(mount)), name) == Lookup(Fold(c, origin, s.decided[..d]), name)
    ensures forall i :: 0 <= i < |s.decided| && s.decided[i].name == name && Confirmed(s, i) ==> i < d
  {
    hide Sane, Fold, Crashed, Shows, TidyAddresses, OnePlace, Initial, Swept, Mounted, CanKeep, Sweeps, SweptBy, Replayed;
    SaneParts(c, origin, s);
    CrashTidy(c, origin, s, keep);
    var crashed := Crashed(c, keep, s.journal);
    SweepLands(crashed, queue);
    CleanedIsSwept(crashed);
    MountedInitial(c, Cleaned(crashed), s.next);
    d := CrashConsistent(c, origin, s, keep, name);
  }
}
