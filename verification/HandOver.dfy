/** Backend::put: handing a name over is one transaction that can always be
    applied, and after it the name is held by the new Object and no other. */
module HandOver {
  import opened Base
  import opened Engine
  import opened Journals
  import opened Objects
  import opened Transactions

  /** No write in progress was stamped by the clock with the timestamp it is put with. */
  predicate NoOtherEstimate(j: Journal, inode: nat, name: string, ts: nat) {
    forall i :: i in j.recs && i != inode && j.recs[i].name == name ==> j.recs[i].estimate != Some(ts)
  }

  ghost predicate CanPut(j: Journal, next: Obj, prev: Obj, ts: nat) {
    && JournalInv(j) && ObjOk(j, next) && ObjOk(j, prev)
    && next.stat.state == InWrite && prev.stat.state in {Active, Missing}
    && next.stat.name == prev.stat.name
    && (prev.stat.state == Missing ==> Ordinary(next.stat.name) !in Virtual(j))
    && prev.stat.ts < ts
    && NoOtherEstimate(j, next.inode, next.stat.name, ts)
  }

  lemma PutFresh(j: Journal, next: Obj, prev: Obj, ts: nat)
    requires CanPut(j, next, prev, ts)
    ensures FreshStamp(j, next.inode, next.stat.name, ts)
    ensures forall i :: i in j.recs && j.recs[i].handed.Some? && j.recs[i].name == next.stat.name ==>
              j.recs[i].ts.Some? && j.recs[i].ts.value < ts
  {
    forall i | i in j.recs && j.recs[i].ts.Some? && j.recs[i].name == next.stat.name
      ensures j.recs[i].ts.value < ts
    {
      assert Newest(j, i);
    }
    forall i | i in j.recs && j.recs[i].handed.Some? ensures j.recs[i].ts.Some? {
      assert RecOk(j, i);
    }
  }

  lemma StampedOk(j: Journal, o: Obj, ts: nat)
    requires MicroInv(j) && o.inode in j.recs && j.recs[o.inode].handed.None? && j.recs[o.inode].ts.None?
    requires j.recs[o.inode].name == o.stat.name && FreshStamp(j, o.inode, o.stat.name, ts)
    ensures MicroInv(Stamped(j, o, ts))
  {
    var k := Stamped(j, o, ts);
    forall n | 0 <= n < |k.stores| ensures SoundStore(k.stores[n], k.recs, n) && OnePlace(k.stores[n]) {
      assert SoundStore(j.stores[n], j.recs, n);
      forall at | at in k.stores[n] ensures Sound(at, k.stores[n][at], k.recs, n) {
        assert Sound(at, j.stores[n][at], j.recs, n);
      }
    }
    forall i | i in k.recs ensures RecOk(k, i) {
      assert RecOk(j, i);
      if k.recs[i].handed.Some? { assert NeverReturns(j, i); assert NeverReturns(k, i); }
    }
  }

  /** The address a holder retires to is free. */
  lemma RetiredFree(j: Journal, prev: Obj)
    requires MicroInv(j) && ObjOk(j, prev)
    ensures prev.stat.state == Active ==> AddressOf(Retired(prev.stat)) !in Virtual(j)
  {
    if prev.stat.state == Active {
      var gone := AddressOf(Retired(prev.stat));
      assert IsStamp(j.recs[prev.inode], prev.stat.ts);
      if gone in Virtual(j) {
        VirtualSound(j, gone);
        OneVirtualPlace(j, gone, AddressOf(prev.stat));
      }
    }
  }

  /** The holder moves out: its address in the temporary space is free. */
  lemma RetireOk(j: Journal, prev: Obj)
    requires MicroInv(j) && ObjOk(j, prev) && prev.stat.state == Active
    ensures var gone := Retired(prev.stat);
            var k := Append(Append(j, Rename(AddressOf(prev.stat), AddressOf(gone))), SetAttrs(AddressOf(gone), AttrsOf(gone)));
            && MicroInv(k) && k.recs == j.recs
            && |k.stores| == |j.stores| + 2 && k.stores[..|j.stores|] == j.stores
            && AddressOf(gone) !in Virtual(j)
            && Virtual(k) == (Virtual(j) - {AddressOf(prev.stat)})[AddressOf(gone) := Virtual(j)[AddressOf(prev.stat)].(attrs := Some(AttrsOf(gone)))]
  {
    hide MicroInv, AddressOf, AttrsOf, Retired, ObjOk, OpOk;
    RetireMoves(j, prev);
    var to, attrs := AddressOf(Retired(prev.stat)), AttrsOf(Retired(prev.stat));
    AttrsSet(Append(j, Rename(AddressOf(prev.stat), to)), to, attrs);
  }

  lemma AttrsSet(j: Journal, at: Address, attrs: Attrs)
    requires MicroInv(j) && OpOk(j, SetAttrs(at, attrs))
    ensures var k := Append(j, SetAttrs(at, attrs));
            && MicroInv(k) && k.recs == j.recs && at in Virtual(j)
            && |k.stores| == |j.stores| + 1 && k.stores[..|j.stores|] == j.stores
            && Virtual(k) == Virtual(j)[at := Virtual(j)[at].(attrs := Some(attrs))]
  {
    AppendOk(j, SetAttrs(at, attrs));
    hide MicroInv;
  }

  lemma RetireMoves(j: Journal, prev: Obj)
    requires MicroInv(j) && ObjOk(j, prev) && prev.stat.state == Active
    ensures var from, to, attrs := AddressOf(prev.stat), AddressOf(Retired(prev.stat)), AttrsOf(Retired(prev.stat));
            var m := Append(j, Rename(from, to));
            && from in Virtual(j) && to !in Virtual(j)
            && MicroInv(m) && m.recs == j.recs && OpOk(m, SetAttrs(to, attrs))
            && |m.stores| == |j.stores| + 1 && m.stores[..|j.stores|] == j.stores
            && Virtual(m) == (Virtual(j) - {from})[to := Virtual(j)[from]]
  {
    RetiredFree(j, prev);
    AppendOk(j, Rename(AddressOf(prev.stat), AddressOf(Retired(prev.stat))));
  }

  /** The new Object moves in. */
  lemma TakeOk(j: Journal, next: Stat, inode: nat, ts: nat)
    requires MicroInv(j) && next.state == InWrite && AddressOf(next) in Virtual(j) && Virtual(j)[AddressOf(next)].inode == inode
    requires inode in j.recs && j.recs[inode].handed.None? && j.recs[inode].ts == Some(ts) && j.recs[inode].name == next.name
    requires Ordinary(next.name) !in Virtual(j)
    ensures var settled := Settled(next, ts);
            var k := Append(Append(j, Rename(AddressOf(next), AddressOf(settled))), SetAttrs(AddressOf(settled), AttrsOf(settled)));
            && MicroInv(k) && k.recs == j.recs
            && |k.stores| == |j.stores| + 2 && k.stores[..|j.stores|] == j.stores
            && Virtual(k) == (Virtual(j) - {AddressOf(next)})[AddressOf(settled) := Virtual(j)[AddressOf(next)].(attrs := Some(AttrsOf(settled)))]
  {
    var settled := Settled(next, ts);
    AppendOk(j, Rename(AddressOf(next), AddressOf(settled)));
    var m := Append(j, Rename(AddressOf(next), AddressOf(settled)));
    AppendOk(m, SetAttrs(AddressOf(settled), AttrsOf(settled)));
  }

  ghost predicate Taken(j: Journal, next: Stat, inode: nat, ts: nat) {
    && MicroInv(j) && inode in j.recs && j.recs[inode].handed.None? && j.recs[inode].ts == Some(ts)
    && j.recs[inode].name == next.name && j.recs[inode].deleted == next.deleted
    && HeldBy(Virtual(j), next.name, inode) && Virtual(j)[Ordinary(next.name)].attrs == Some(AttrsOf(Settled(next, ts)))
  }

  lemma HandedSound(j: Journal, next: Stat, inode: nat, ts: nat, n: nat)
    requires Taken(j, next, inode, ts) && n < |j.stores|
    ensures SoundStore(j.stores[n], HandedOver(j, inode).recs, n)
  {
    assert SoundStore(j.stores[n], j.recs, n);
    forall at | at in j.stores[n] ensures Sound(at, j.stores[n][at], HandedOver(j, inode).recs, n) {
      assert Sound(at, j.stores[n][at], j.recs, n);
    }
  }

  lemma HandedRec(j: Journal, next: Stat, inode: nat, ts: nat, i: nat)
    requires Taken(j, next, inode, ts) && i in j.recs
    ensures RecOk(HandedOver(j, inode), i)
  {
    var k := HandedOver(j, inode);
    assert RecOk(j, i);
    if k.recs[i].handed.Some? {
      if i != inode { assert NeverReturns(j, i); }
      assert NeverReturns(k, i);
    }
  }

  lemma HandedOk(j: Journal, next: Stat, inode: nat, ts: nat)
    requires Taken(j, next, inode, ts)
    ensures MicroInv(HandedOver(j, inode))
  {
    var k := HandedOver(j, inode);
    forall n | 0 <= n < |k.stores| ensures SoundStore(k.stores[n], k.recs, n) && OnePlace(k.stores[n]) {
      HandedSound(j, next, inode, ts, n);
      assert OnePlace(j.stores[n]);
    }
    forall i | i in k.recs ensures RecOk(k, i) {
      HandedRec(j, next, inode, ts, i);
    }
    hide RecOk, SoundStore, OnePlace;
  }

  /** Everything a hand-over changes in the virtual store. */
  function PutStore(store: Store, next: Stat, prev: Stat, ts: nat): Store
    requires AddressOf(next) in store && (prev.state == Active ==> AddressOf(prev) in store)
    requires prev.state == Active ==> AddressOf(next) != AddressOf(prev) && AddressOf(next) != AddressOf(Retired(prev))
  {
    var gone := Retired(prev);
    var settled := Settled(next, ts);
    var out := if prev.state == Active
               then (store - {AddressOf(prev)})[AddressOf(gone) := store[AddressOf(prev)].(attrs := Some(AttrsOf(gone)))]
               else store;
    (out - {AddressOf(next)})[AddressOf(settled) := store[AddressOf(next)].(attrs := Some(AttrsOf(settled)))]
  }

  lemma PutApart(j: Journal, next: Obj, prev: Obj, ts: nat)
    requires CanPut(j, next, prev, ts)
    ensures prev.stat.state == Active ==>
              && next.inode != prev.inode
              && AddressOf(next.stat) != AddressOf(prev.stat) && AddressOf(next.stat) != AddressOf(Retired(prev.stat))
  {
    if prev.stat.state == Active {
      assert IsStamp(j.recs[prev.inode], prev.stat.ts);
      assert IsStamp(j.recs[next.inode], next.stat.ts);
    }
  }

  lemma PutSteps(j: Journal, next: Obj, prev: Obj, ts: nat)
    requires CanPut(j, next, prev, ts)
    requires prev.stat.state == Active ==>
              && next.inode != prev.inode
              && AddressOf(next.stat) != AddressOf(prev.stat) && AddressOf(next.stat) != AddressOf(Retired(prev.stat))
    ensures var l := Prepare(Stamped(j, next, ts), PutOps(next.stat, prev.stat, ts));
            && Taken(l, next.stat, next.inode, ts)
            && l.recs == Stamped(j, next, ts).recs
            && |l.stores| >= |j.stores| && l.stores[..|j.stores|] == j.stores
            && Virtual(l) == PutStore(Virtual(j), next.stat, prev.stat, ts)
  {
    hide MicroInv, JournalInv, NoOtherEstimate, RecOk;
    PutFresh(j, next, prev, ts);
    PutPre(j, next, prev, ts);
    var s := Stamped(j, next, ts);
    StampedOk(j, next, ts);
    var settled := Settled(next.stat, ts);
    var take, mark := Rename(AddressOf(next.stat), AddressOf(settled)), SetAttrs(AddressOf(settled), AttrsOf(settled));
    if prev.stat.state == Active {
      var gone := Retired(prev.stat);
      var leave, note := Rename(AddressOf(prev.stat), AddressOf(gone)), SetAttrs(AddressOf(gone), AttrsOf(gone));
      RetireOk(s, prev);
      var m := Append(Append(s, leave), note);
      TakeOk(m, next.stat, next.inode, ts);
      PrepareFour(s, leave, note, take, mark);
      assert PutOps(next.stat, prev.stat, ts) == [leave, note, take, mark];
    } else {
      TakeOk(s, next.stat, next.inode, ts);
      PrepareTwo(s, take, mark);
      assert PutOps(next.stat, prev.stat, ts) == [take, mark];
    }
  }

  lemma PutPre(j: Journal, next: Obj, prev: Obj, ts: nat)
    requires CanPut(j, next, prev, ts)
    ensures MicroInv(j) && j.recs[next.inode].handed.None? && j.recs[next.inode].ts.None?
    ensures j.recs[next.inode].name == next.stat.name
    ensures prev.stat.state == Active && next.inode != prev.inode ==> ObjOk(Stamped(j, next, ts), prev)
  {
  }

  // ----- exactly when a hand-over can be applied -----

  predicate Applies(store: Store, ops: seq<Op>)
    decreases |ops|
  {
    ops != [] ==> Applicable(store, ops[0]) && Applies(Apply(store, ops[0]), ops[1..])
  }

  /** Between entries that are there, a put can be applied exactly if nothing
      sits where the holder retires to. */
  lemma PutAppliesExactly(store: Store, next: Stat, prev: Stat, ts: nat)
    requires next.state == InWrite && AddressOf(next) in store && next.name == prev.name
    requires prev.state in {Active, Missing} && (prev.state == Active <==> Ordinary(prev.name) in store)
    ensures Applies(store, PutOps(next, prev, ts)) <==> (prev.state == Active ==> Temporary(prev.name, prev.ts) !in store)
  {
    var ops := PutOps(next, prev, ts);
    if prev.state == Active {
      var from, gone := Ordinary(prev.name), Temporary(prev.name, prev.ts);
      assert ops[0] == Rename(from, gone) && ops[1] == SetAttrs(gone, AttrsOf(Retired(prev)));
      if gone !in store {
        var out := Apply(Apply(store, ops[0]), ops[1]);
        assert from !in out && AddressOf(next) in out;
        TakeApplies(out, next, ts, ops[2..]);
        assert ops[1..][1..] == ops[2..];
      }
    } else {
      TakeApplies(store, next, ts, ops);
    }
  }

  lemma TakeApplies(store: Store, next: Stat, ts: nat, ops: seq<Op>)
    requires next.state == InWrite && AddressOf(next) in store && Ordinary(next.name) !in store
    requires var settled := Settled(next, ts);
             ops == [Rename(AddressOf(next), AddressOf(settled)), SetAttrs(AddressOf(settled), AttrsOf(settled))]
    ensures Applies(store, ops)
  {
    assert ops[1..][1..] == [];
  }

  /** So an estimate that equals the holder's timestamp loses the transaction:
      both are generations of the same space. */
  lemma EstimateCollides(store: Store, next: Stat, prev: Stat, ts: nat)
    requires next.state == InWrite && AddressOf(next) in store && next.name == prev.name && next.ts == prev.ts
    requires prev.state == Active && Ordinary(prev.name) in store
    ensures !Applies(store, PutOps(next, prev, ts))
  {
    PutAppliesExactly(store, next, prev, ts);
  }

  // ----- the invariants after a hand-over -----

  ghost predicate PutReady(store: Store, next: Obj, prev: Obj) {
    && AddressOf(next.stat) in store && store[AddressOf(next.stat)].inode == next.inode
    && next.stat.state == InWrite && next.stat.name == prev.stat.name && prev.stat.state in {Active, Missing}
    && (prev.stat.state == Missing ==> Ordinary(next.stat.name) !in store)
    && (prev.stat.state == Active ==>
          && next.inode != prev.inode
          && AddressOf(next.stat) != AddressOf(prev.stat) && AddressOf(next.stat) != AddressOf(Retired(prev.stat))
          && AddressOf(prev.stat) in store && store[AddressOf(prev.stat)].inode == prev.inode
          && AddressOf(Retired(prev.stat)) !in store)
  }

  lemma PutIsReady(j: Journal, next: Obj, prev: Obj, ts: nat)
    requires CanPut(j, next, prev, ts)
    ensures PutReady(Virtual(j), next, prev)
  {
    PutApart(j, next, prev, ts);
    RetiredFree(j, prev);
    hide MicroInv, JournalInv, NoOtherEstimate;
  }

  lemma PutOther(store: Store, next: Obj, prev: Obj, ts: nat, at: Address)
    requires PutReady(store, next, prev)
    ensures var w := PutStore(store, next.stat, prev.stat, ts);
            var inodes := Touched(next, prev);
            && (at in store && store[at].inode !in inodes ==> at in w && w[at] == store[at])
            && (at in w && w[at].inode !in inodes ==> at in store && w[at] == store[at])
  {
  }

  lemma PutOthers(j: Journal, next: Obj, prev: Obj, ts: nat)
    requires CanPut(j, next, prev, ts)
    ensures PutReady(Virtual(j), next, prev)
    ensures var w := PutStore(Virtual(j), next.stat, prev.stat, ts);
            var inodes := Touched(next, prev);
            && (forall at :: at in Virtual(j) && Virtual(j)[at].inode !in inodes ==> at in w && w[at] == Virtual(j)[at])
            && (forall at :: at in w && w[at].inode !in inodes ==> at in Virtual(j) && w[at] == Virtual(j)[at])
  {
    PutIsReady(j, next, prev, ts);
    hide MicroInv, JournalInv, NoOtherEstimate, PutStore, CanPut;
    var w := PutStore(Virtual(j), next.stat, prev.stat, ts);
    forall at | at in Virtual(j) && Virtual(j)[at].inode !in Touched(next, prev) ensures at in w && w[at] == Virtual(j)[at] {
      PutOther(Virtual(j), next, prev, ts, at);
    }
    forall at | at in w && w[at].inode !in Touched(next, prev) ensures at in Virtual(j) && w[at] == Virtual(j)[at] {
      PutOther(Virtual(j), next, prev, ts, at);
    }
  }

  function Touched(next: Obj, prev: Obj): set<nat> {
    if prev.stat.state == Active then {next.inode, prev.inode} else {next.inode}
  }

  ghost predicate PutEffect(j: Journal, k: Journal, next: Obj, prev: Obj, ts: nat)
    requires CanPut(j, next, prev, ts)
  {
    && MicroInv(k) && SameExcept(j, k, Touched(next, prev))
    && (prev.stat.state == Active ==>
          && next.inode != prev.inode
          && AddressOf(next.stat) != AddressOf(prev.stat) && AddressOf(next.stat) != AddressOf(Retired(prev.stat)))
    && Virtual(k) == PutStore(Virtual(j), next.stat, prev.stat, ts)
    && k.recs == j.recs[next.inode := j.recs[next.inode].(ts := Some(ts), deleted := next.stat.deleted, handed := Some(Length(k)))]
  }

  lemma PutEffectOk(j: Journal, next: Obj, prev: Obj, ts: nat)
    requires CanPut(j, next, prev, ts)
    ensures PutEffect(j, PutJournal(j, next, prev.stat, ts), next, prev, ts)
  {
    hide MicroInv, JournalInv, NoOtherEstimate, PutStore, ObjOk;
    PutApart(j, next, prev, ts);
    PutPre(j, next, prev, ts);
    PutSteps(j, next, prev, ts);
    PutOthers(j, next, prev, ts);
    var l := Prepare(Stamped(j, next, ts), PutOps(next.stat, prev.stat, ts));
    HandedOk(l, next.stat, next.inode, ts);
    RecBounds(j, next.inode);
    RecBounds(l, next.inode);
    forall n | 0 <= n < |j.stores| ensures l.stores[n] == j.stores[n] {
      assert l.stores[..|j.stores|][n] == j.stores[n];
    }
  }

  lemma PutEntryTidy(j: Journal, k: Journal, next: Obj, prev: Obj, ts: nat, at: Address)
    requires CanPut(j, next, prev, ts) && PutEffect(j, k, next, prev, ts) && at in Virtual(k)
    requires at in Virtual(j) ==> EntryTidy(at, Virtual(j)[at], j.recs)
    ensures EntryTidy(at, Virtual(k)[at], k.recs)
  {
    hide MicroInv, SameExcept, NoOtherEstimate, JournalInv;
  }

  lemma PutTidy(j: Journal, k: Journal, next: Obj, prev: Obj, ts: nat)
    requires CanPut(j, next, prev, ts) && PutEffect(j, k, next, prev, ts)
    ensures TidyStore(Virtual(k), k.recs)
  {
    assert TidyStore(Virtual(j), j.recs);
    hide MicroInv, SameExcept, NoOtherEstimate, JournalInv, CanPut, PutStore, EntryTidy;
    forall at | at in Virtual(k) ensures EntryTidy(at, Virtual(k)[at], k.recs) {
      PutEntryTidy(j, k, next, prev, ts, at);
    }
  }

  lemma PutHolders(j: Journal, k: Journal, next: Obj, prev: Obj, ts: nat, name: string)
    requires CanPut(j, next, prev, ts) && PutEffect(j, k, next, prev, ts)
    ensures name != next.stat.name ==>
              && (Ordinary(name) in Virtual(k) <==> Ordinary(name) in Virtual(j))
              && (Ordinary(name) in Virtual(j) ==> Virtual(k)[Ordinary(name)] == Virtual(j)[Ordinary(name)])
    ensures name == next.stat.name ==> HeldBy(Virtual(k), name, next.inode)
  {
    hide MicroInv, SameExcept, NoOtherEstimate, JournalInv;
  }

  /** The operations of a put are about one name. */
  lemma PutNeverHeld(j: Journal, next: Obj, prev: Obj, ts: nat, name: string)
    requires CanPut(j, next, prev, ts) && name != next.stat.name && NeverHeld(j, name)
    ensures NeverHeld(PutJournal(j, next, prev.stat, ts), name)
  {
    hide MicroInv, NoOtherEstimate, JournalInv, Prepare;
    PrepareNeverHeld(Stamped(j, next, ts), PutOps(next.stat, prev.stat, ts), name);
  }

  lemma {:induction false} PrepareNeverHeld(j: Journal, ops: seq<Op>, name: string)
    requires NeverHeld(j, name)
    requires forall op :: op in ops && op.Rename? ==> op.to != Ordinary(name)
    requires forall op :: op in ops ==> !op.Touch?
    ensures NeverHeld(Prepare(j, ops), name)
    decreases |ops|
  {
    if ops != [] {
      var k := Append(j, ops[0]);
      forall n | 0 <= n < |k.stores| ensures Ordinary(name) !in k.stores[n] {
        if n == |j.stores| { assert Ordinary(name) !in j.stores[n - 1]; }
      }
      PrepareNeverHeld(k, ops[1..], name);
    }
  }

  lemma OldNewest(j: Journal, i: nat)
    requires JournalInv(j) && i in j.recs && j.recs[i].handed.Some?
    ensures j.recs[i].ts.Some? && Newest(j, i)
  {
    assert RecOk(j, i);
  }

  lemma PutNewest(j: Journal, k: Journal, next: Obj, prev: Obj, ts: nat, i: nat)
    requires CanPut(j, next, prev, ts) && PutEffect(j, k, next, prev, ts)
    requires i in k.recs && k.recs[i].handed.Some?
    ensures k.recs[i].ts.Some? && Newest(k, i)
  {
    hide JournalInv, MicroInv, SameExcept, PutStore, NoOtherEstimate, ObjOk;
    PutFresh(j, next, prev, ts);
    PutPre(j, next, prev, ts);
    PutHolders(j, k, next, prev, ts, k.recs[i].name);
    if i != next.inode {
      OldNewest(j, i);
    }
  }

  lemma PutHistory(j: Journal, k: Journal, next: Obj, prev: Obj, ts: nat)
    requires CanPut(j, next, prev, ts) && PutEffect(j, k, next, prev, ts)
    ensures forall i :: i in k.recs && k.recs[i].handed.None? ==> k.recs[i].ts.None?
  {
    hide PutStore, MicroInv, SameExcept, NoOtherEstimate, ObjOk;
  }

  lemma PutInv(j: Journal, next: Obj, prev: Obj, ts: nat)
    requires CanPut(j, next, prev, ts) && PutEffect(j, PutJournal(j, next, prev.stat, ts), next, prev, ts)
    ensures JournalInv(PutJournal(j, next, prev.stat, ts))
  {
    hide PutStore, SameExcept, NoOtherEstimate, ObjOk, NeverHeld, Newest;
    var k := PutJournal(j, next, prev.stat, ts);
    PutTidy(j, k, next, prev, ts);
    forall name | Ordinary(name) !in Virtual(k) ensures NeverHeld(k, name) {
      PutHolders(j, k, next, prev, ts, name);
      assert Ordinary(name) !in Virtual(j);
      PutNeverHeld(j, next, prev, ts, name);
    }
    forall i | i in k.recs && k.recs[i].handed.Some? ensures k.recs[i].ts.Some? && Newest(k, i) {
      PutNewest(j, k, next, prev, ts, i);
    }
    PutHistory(j, k, next, prev, ts);
    hide MicroInv, PutJournal, CanPut;
  }

  lemma PutObjs(j: Journal, k: Journal, next: Obj, prev: Obj, ts: nat)
    requires CanPut(j, next, prev, ts) && PutEffect(j, k, next, prev, ts)
    ensures forall done :: ObjOk(k, next.(stat := Settled(next.stat, ts), done := done))
    ensures ObjOk(k, prev.(stat := Retired(prev.stat)))
  {
    hide MicroInv, SameExcept, NoOtherEstimate, JournalInv;
  }

  /** After the transaction of a put: the invariants, both Objects, and the record of the hand-over. */
  lemma PutOk(j: Journal, next: Obj, prev: Obj, ts: nat)
    requires CanPut(j, next, prev, ts)
    ensures var k := PutJournal(j, next, prev.stat, ts);
            && JournalInv(k) && PutEffect(j, k, next, prev, ts)
            && ObjOk(k, PutNext(j, next, prev.stat, ts))
            && ObjOk(k, prev.(stat := Retired(prev.stat)))
  {
    PutEffectOk(j, next, prev, ts);
    PutInv(j, next, prev, ts);
    PutObjs(j, PutJournal(j, next, prev.stat, ts), next, prev, ts);
  }
}
