/** Every transaction the engine prepares can be applied, and keeps the journal
    and its Objects in step. */
module Transactions {
  import opened Base
  import opened Engine
  import opened Journals
  import opened Objects

  lemma PrepareOne(j: Journal, a: Op)
    ensures Prepare(j, [a]) == Append(j, a)
  {
  }

  lemma PrepareTwo(j: Journal, a: Op, b: Op)
    ensures Prepare(j, [a, b]) == Append(Append(j, a), b)
  {
    assert [a, b][1..] == [b];
    assert Prepare(Append(j, a), [b]) == Append(Append(j, a), b);
  }

  lemma PrepareThree(j: Journal, a: Op, b: Op, c: Op)
    ensures Prepare(j, [a, b, c]) == Append(Append(Append(j, a), b), c)
  {
    assert [a, b, c][1..] == [b, c];
    PrepareTwo(Append(j, a), b, c);
  }

  lemma PrepareFour(j: Journal, a: Op, b: Op, c: Op, d: Op)
    ensures Prepare(j, [a, b, c, d]) == Append(Append(Append(Append(j, a), b), c), d)
  {
    assert [a, b, c, d][1..] == [b, c, d];
    PrepareThree(Append(j, a), b, c, d);
  }

  /** The same names are held, by the same entries, in every store since `j`. */
  ghost predicate SameHolders(j: Journal, k: Journal)
    requires |j.stores| > 0 && |k.stores| > 0
  {
    && (forall n, name :: |j.stores| <= n < |k.stores| ==> (Ordinary(name) in k.stores[n] <==> Ordinary(name) in Virtual(j)))
    && (forall name :: Ordinary(name) in Virtual(j) <==> Ordinary(name) in Virtual(k))
    && (forall name :: Ordinary(name) in Virtual(j) && Ordinary(name) in Virtual(k) ==>
          Virtual(k)[Ordinary(name)].inode == Virtual(j)[Ordinary(name)].inode)
  }

  ghost predicate SameHistory(j: Journal, k: Journal) {
    forall i :: i in k.recs ==>
      if i in j.recs then k.recs[i].name == j.recs[i].name && k.recs[i].ts == j.recs[i].ts && k.recs[i].handed == j.recs[i].handed
      else k.recs[i].handed.None? && k.recs[i].ts.None?
  }

  lemma SameNeverHeld(j: Journal, k: Journal, inodes: set<nat>, name: string)
    requires |j.stores| > 0 && (Ordinary(name) !in Virtual(j) ==> NeverHeld(j, name))
    requires SameExcept(j, k, inodes) && SameHolders(j, k) && Ordinary(name) !in Virtual(k)
    ensures NeverHeld(k, name)
  {
  }

  lemma SameNewest(j: Journal, k: Journal, i: nat)
    requires |j.stores| > 0 && |k.stores| > 0 && SameHolders(j, k) && SameHistory(j, k)
    requires i in j.recs && i in k.recs && j.recs[i].ts.Some? && Newest(j, i)
    requires forall h :: h in j.recs ==> h in k.recs
    ensures Newest(k, i)
  {
  }

  lemma SameHoldersInv(j: Journal, k: Journal, inodes: set<nat>)
    requires JournalInv(j) && MicroInv(k) && SameExcept(j, k, inodes) && SameHolders(j, k) && SameHistory(j, k)
    requires TidyStore(Virtual(k), k.recs)
    ensures JournalInv(k)
  {
    forall name | Ordinary(name) !in Virtual(k) ensures NeverHeld(k, name) {
      SameNeverHeld(j, k, inodes, name);
    }
    forall i | i in k.recs && k.recs[i].handed.Some? ensures Newest(k, i) {
      assert RecOk(j, i);
      SameNewest(j, k, i);
    }
  }

  // ----- one operation other than a rename -----

  function Target(j: Journal, op: Op): nat
    requires |j.stores| > 0 && (op.Touch? || op.at in Virtual(j))
  {
    if op.Touch? then op.inode else Virtual(j)[op.at].inode
  }

  lemma StepAt(j: Journal, op: Op, at: Address)
    requires |j.stores| > 0 && OpOk(j, op) && !op.Rename?
    ensures var v, w, t := Virtual(j), Virtual(Append(j, op)), Target(j, op);
            && (at in v && v[at].inode != t ==> at in w && w[at] == v[at])
            && (at in w && w[at].inode != t ==> at in v && w[at] == v[at])
  {
    assert Virtual(Append(j, op)) == Apply(Virtual(j), op);
  }

  lemma StepOldStores(j: Journal, op: Op)
    requires |j.stores| > 0 && OpOk(j, op) && !op.Rename?
    ensures |Append(j, op).stores| == |j.stores| + 1
    ensures forall n :: 0 <= n < |j.stores| ==> Append(j, op).stores[n] == j.stores[n]
    ensures forall i :: i in j.recs ==> i in Append(j, op).recs && (i != Target(j, op) ==> Append(j, op).recs[i] == j.recs[i])
  {
  }

  lemma StepSame(j: Journal, op: Op)
    requires MicroInv(j) && |j.stores| > 0 && OpOk(j, op) && !op.Rename?
    ensures SameExcept(j, Append(j, op), {Target(j, op)})
    ensures MicroInv(Append(j, op))
  {
    hide MicroInv;
    AppendOk(j, op);
    StepOldStores(j, op);
    hide OpOk, Append;
    var k := Append(j, op);
    forall at | at in Virtual(j) && Virtual(j)[at].inode != Target(j, op)
      ensures at in Virtual(k) && Virtual(k)[at] == Virtual(j)[at]
    {
      StepAt(j, op, at);
    }
    forall at | at in Virtual(k) && Virtual(k)[at].inode != Target(j, op)
      ensures at in Virtual(j) && Virtual(k)[at] == Virtual(j)[at]
    {
      StepAt(j, op, at);
    }
  }

  lemma StepHolder(j: Journal, op: Op, name: string)
    requires |j.stores| > 0 && OpOk(j, op) && !op.Rename?
    ensures Ordinary(name) in Virtual(Append(j, op)) <==> Ordinary(name) in Virtual(j)
    ensures Ordinary(name) in Virtual(j) ==> Virtual(Append(j, op))[Ordinary(name)].inode == Virtual(j)[Ordinary(name)].inode
  {
  }

  lemma StepHolders(j: Journal, op: Op)
    requires MicroInv(j) && |j.stores| > 0 && OpOk(j, op) && !op.Rename?
    ensures SameHolders(j, Append(j, op)) && SameHistory(j, Append(j, op))
  {
    hide MicroInv;
    StepOldStores(j, op);
    var k := Append(j, op);
    forall i | i in k.recs
      ensures i in j.recs && k.recs[i].name == j.recs[i].name && k.recs[i].ts == j.recs[i].ts && k.recs[i].handed == j.recs[i].handed
    {
      NotedKeeps(j, op, i);
    }
    forall name ensures Ordinary(name) in Virtual(k) <==> Ordinary(name) in Virtual(j)
      ensures Ordinary(name) in Virtual(j) ==> Virtual(k)[Ordinary(name)].inode == Virtual(j)[Ordinary(name)].inode
    {
      StepHolder(j, op, name);
    }
    hide OpOk, Append;
  }

  lemma SameExceptTrans(j: Journal, k: Journal, l: Journal, inodes: set<nat>)
    requires SameExcept(j, k, inodes) && SameExcept(k, l, inodes)
    ensures SameExcept(j, l, inodes)
  {
    forall n | 0 <= n < |j.stores| ensures l.stores[n] == j.stores[n] {
      assert l.stores[n] == k.stores[n];
    }
  }

  lemma SameHoldersTrans(j: Journal, k: Journal, l: Journal, inodes: set<nat>)
    requires SameExcept(j, k, inodes) && SameExcept(k, l, inodes)
    requires SameHolders(j, k) && SameHolders(k, l) && SameHistory(j, k) && SameHistory(k, l)
    requires forall i :: i in j.recs ==> i in k.recs
    ensures SameHolders(j, l) && SameHistory(j, l)
  {
    forall n, name | |j.stores| <= n < |l.stores|
      ensures Ordinary(name) in l.stores[n] <==> Ordinary(name) in Virtual(j)
    {
      if n < |k.stores| {
        assert l.stores[n] == k.stores[n];
      }
    }
  }

  ghost predicate Quiet(j: Journal, k: Journal, inodes: set<nat>) {
    SameExcept(j, k, inodes) && SameHolders(j, k) && SameHistory(j, k) && MicroInv(k)
  }

  lemma Opened(j: Journal)
    requires JournalInv(j)
    ensures MicroInv(j) && |j.stores| > 0
  {
  }

  lemma QuietMicro(j: Journal, k: Journal, inodes: set<nat>)
    requires Quiet(j, k, inodes)
    ensures MicroInv(k) && |k.stores| > 0
    ensures SameExcept(j, k, inodes) && SameHolders(j, k) && SameHistory(j, k)
  {
  }

  lemma RecBounds(j: Journal, i: nat)
    requires MicroInv(j) && i in j.recs
    ensures j.recs[i].wrote <= Length(j) && j.recs[i].marked <= Length(j)
    ensures j.recs[i].handed.Some? ==> j.recs[i].wrote <= j.recs[i].handed.value <= Length(j)
    ensures |j.stores| == |j.ops| + 1
  {
    assert RecOk(j, i);
  }

  lemma QuietStep(j: Journal, op: Op)
    requires MicroInv(j) && OpOk(j, op) && !op.Rename?
    ensures Quiet(j, Append(j, op), {Target(j, op)})
  {
    assert |j.stores| > 0;
    hide MicroInv, OpOk, Append, SameExcept, SameHolders, SameHistory;
    StepSame(j, op);
    StepHolders(j, op);
  }

  lemma QuietTrans(j: Journal, k: Journal, l: Journal, inodes: set<nat>)
    requires Quiet(j, k, inodes) && Quiet(k, l, inodes)
    ensures Quiet(j, l, inodes)
  {
    SameExceptTrans(j, k, l, inodes);
    SameHoldersTrans(j, k, l, inodes);
  }

  // ----- creating, writing and marking an Object -----

  predicate FreshStamp(j: Journal, inode: nat, name: string, ts: nat) {
    forall i :: i in j.recs && i != inode && j.recs[i].name == name ==> !IsStamp(j.recs[i], ts)
  }

  lemma RegisteredMicro(j: Journal, inode: nat, name: string, estimate: nat)
    requires MicroInv(j) && inode !in j.recs && FreshStamp(j, inode, name, estimate)
    ensures MicroInv(Registered(j, inode, name, estimate))
  {
    var k := Registered(j, inode, name, estimate);
    forall n | 0 <= n < |k.stores| ensures SoundStore(k.stores[n], k.recs, n) && OnePlace(k.stores[n]) {
      assert SoundStore(j.stores[n], j.recs, n);
      forall at | at in k.stores[n] ensures Sound(at, k.stores[n][at], k.recs, n) {
        assert Sound(at, j.stores[n][at], j.recs, n);
      }
    }
    forall i | i in k.recs ensures RecOk(k, i) {
      if i != inode {
        assert RecOk(j, i);
        if k.recs[i].handed.Some? { assert NeverReturns(j, i); assert NeverReturns(k, i); }
      }
    }
  }

  lemma RegisteredHeld(j: Journal, inode: nat, name: string, estimate: nat, other: string)
    requires NeverHeld(j, other)
    ensures NeverHeld(Registered(j, inode, name, estimate), other)
  {
  }

  lemma RegisteredNewest(j: Journal, inode: nat, name: string, estimate: nat, i: nat)
    requires |j.stores| > 0 && inode !in j.recs && i in j.recs && j.recs[i].ts.Some? && Newest(j, i)
    ensures Newest(Registered(j, inode, name, estimate), i)
  {
  }

  lemma RegisteredTidy(j: Journal, inode: nat, name: string, estimate: nat, at: Address)
    requires MicroInv(j) && inode !in j.recs && at in Virtual(j) && EntryTidy(at, Virtual(j)[at], j.recs)
    ensures EntryTidy(at, Virtual(j)[at], Registered(j, inode, name, estimate).recs)
    ensures Virtual(j)[at].inode != inode
  {
    VirtualSound(j, at);
  }

  lemma HandedHasTs(j: Journal, i: nat)
    requires MicroInv(j) && i in j.recs && j.recs[i].handed.Some?
    ensures j.recs[i].ts.Some?
  {
    assert RecOk(j, i);
  }

  lemma RegisteredOk(j: Journal, inode: nat, name: string, estimate: nat)
    requires JournalInv(j) && inode !in j.recs && FreshStamp(j, inode, name, estimate)
    ensures var k := Registered(j, inode, name, estimate);
            JournalInv(k) && SameExcept(j, k, {}) && ObjOk(k, Created(name, estimate, inode))
  {
    var k := Registered(j, inode, name, estimate);
    var v := Virtual(j);
    Opened(j);
    hide MicroInv, NeverHeld, Newest, EntryTidy, FreshStamp;
    RegisteredMicro(j, inode, name, estimate);
    forall name' | Ordinary(name') !in Virtual(k) ensures NeverHeld(k, name') {
      RegisteredHeld(j, inode, name, estimate, name');
    }
    forall i | i in k.recs && k.recs[i].handed.Some? ensures k.recs[i].ts.Some? && Newest(k, i) {
      HandedHasTs(j, i);
      RegisteredNewest(j, inode, name, estimate, i);
    }
    forall at | at in v ensures EntryTidy(at, v[at], k.recs) && v[at].inode != inode {
      RegisteredTidy(j, inode, name, estimate, at);
    }
  }

  lemma VirtualSound(j: Journal, at: Address)
    requires MicroInv(j) && at in Virtual(j)
    ensures Sound(at, Virtual(j)[at], j.recs, |j.stores| - 1)
    ensures Virtual(j)[at].data == j.recs[Virtual(j)[at].inode].data
    ensures Virtual(j)[at].header == j.recs[Virtual(j)[at].inode].header
  {
    assert SoundStore(j.stores[|j.stores| - 1], j.recs, |j.stores| - 1);
    assert RecOk(j, Virtual(j)[at].inode);
  }

  /** The first operation of a write: the entry is made. */
  lemma TouchOk(j: Journal, o: Obj)
    requires JournalInv(j) && ObjOk(j, o) && o.stat.state == PreWrite
    ensures var k := Append(j, Touch(AddressOf(o.stat), o.inode));
            && Quiet(j, k, {o.inode}) && k.recs == j.recs
            && Virtual(k) == Virtual(j)[AddressOf(o.stat) := Entry(o.inode, [], None, [])]
  {
    var at := AddressOf(o.stat);
    var op := Touch(at, o.inode);
    if at in Virtual(j) {
      VirtualSound(j, at);
      assert IsStamp(j.recs[o.inode], at.generation);
    }
    QuietStep(j, op);
  }

  lemma AttrsOk(j: Journal, o: Obj)
    requires MicroInv(j) && HasEntry(o) && AddressOf(o.stat) in Virtual(j)
    requires Virtual(j)[AddressOf(o.stat)].inode == o.inode
    requires o.inode in j.recs && j.recs[o.inode].name == o.stat.name && IsStamp(j.recs[o.inode], o.stat.ts)
    requires o.stat.state == Active ==> j.recs[o.inode].ts == Some(o.stat.ts) && j.recs[o.inode].deleted == o.stat.deleted
    ensures var k := Append(j, SetAttrs(AddressOf(o.stat), AttrsOf(o.stat)));
            && Quiet(j, k, {o.inode}) && k.recs == j.recs
            && Virtual(k) == Virtual(j)[AddressOf(o.stat) := Virtual(j)[AddressOf(o.stat)].(attrs := Some(AttrsOf(o.stat)))]
  {
    QuietStep(j, SetAttrs(AddressOf(o.stat), AttrsOf(o.stat)));
  }

  lemma OtherTidy(j: Journal, k: Journal, inodes: set<nat>, at: Address)
    requires |j.stores| > 0 && SameExcept(j, k, inodes) && SameHistory(j, k)
    requires TidyStore(Virtual(j), j.recs)
    requires at in Virtual(k) && Virtual(k)[at].inode !in inodes
    ensures EntryTidy(at, Virtual(k)[at], k.recs)
  {
    assert Virtual(k)[at] == Virtual(j)[at];
    assert EntryTidy(at, Virtual(j)[at], j.recs);
  }

  lemma HereTidy(j: Journal, k: Journal, o: Obj)
    requires JournalInv(j) && Quiet(j, k, {o.inode})
    requires HasEntry(o) && AddressOf(o.stat) in Virtual(k)
    requires Virtual(k)[AddressOf(o.stat)].inode == o.inode
    requires Virtual(k)[AddressOf(o.stat)].attrs == Some(AttrsOf(o.stat))
    ensures EntryTidy(AddressOf(o.stat), Virtual(k)[AddressOf(o.stat)], k.recs)
  {
    var at := AddressOf(o.stat);
    VirtualSound(k, at);
    if o.stat.state == Active {
      assert Ordinary(o.stat.name) in Virtual(j);
      assert EntryTidy(at, Virtual(j)[at], j.recs);
    }
  }

  lemma OneVirtualPlace(j: Journal, at: Address, other: Address)
    requires MicroInv(j) && at in Virtual(j) && other in Virtual(j) && Virtual(j)[at].inode == Virtual(j)[other].inode
    ensures at == other
  {
    assert OnePlace(j.stores[|j.stores| - 1]);
  }

  lemma QuietTidy(j: Journal, k: Journal, o: Obj)
    requires JournalInv(j) && Quiet(j, k, {o.inode})
    requires HasEntry(o) && AddressOf(o.stat) in Virtual(k)
    requires Virtual(k)[AddressOf(o.stat)].inode == o.inode
    requires Virtual(k)[AddressOf(o.stat)].attrs == Some(AttrsOf(o.stat))
    ensures TidyStore(Virtual(k), k.recs)
  {
    forall at | at in Virtual(k) ensures EntryTidy(at, Virtual(k)[at], k.recs) {
      if Virtual(k)[at].inode == o.inode {
        OneVirtualPlace(k, at, AddressOf(o.stat));
        HereTidy(j, k, o);
      } else {
        OtherTidy(j, k, {o.inode}, at);
      }
    }
  }

  lemma QuietInv(j: Journal, k: Journal, o: Obj)
    requires JournalInv(j) && Quiet(j, k, {o.inode})
    requires HasEntry(o) && AddressOf(o.stat) in Virtual(k)
    requires Virtual(k)[AddressOf(o.stat)].inode == o.inode
    requires Virtual(k)[AddressOf(o.stat)].attrs == Some(AttrsOf(o.stat))
    ensures JournalInv(k)
  {
    QuietTidy(j, k, o);
    SameHoldersInv(j, k, {o.inode});
  }

  lemma DataOk(j: Journal, o: Obj, bytes: Bytes)
    requires MicroInv(j) && ObjOk(j, o) && o.stat.state == InWrite
    ensures var k := Append(j, Engine.Write(AddressOf(o.stat), o.written, bytes));
            && Quiet(j, k, {o.inode})
            && k.recs == j.recs[o.inode := j.recs[o.inode].(data := j.recs[o.inode].data + bytes, wrote := |j.stores|)]
            && ObjOk(k, o.(written := o.written + |bytes|))
  {
    var op := Engine.Write(AddressOf(o.stat), o.written, bytes);
    assert |j.stores| > 0;
    hide MicroInv, Quiet;
    VirtualSound(j, AddressOf(o.stat));
    QuietStep(j, op);
    var data := j.recs[o.inode].data;
    assert data[..|data|] == data;
    assert Overwrite(data, |data|, bytes) == data + bytes;
    assert Virtual(Append(j, op)) == Apply(Virtual(j), op);
  }

  lemma StartOk(j: Journal, o: Obj)
    requires JournalInv(j) && ObjOk(j, o) && o.stat.state == PreWrite
    ensures var started := o.(stat := StartedStat(o.stat));
            var k := Append(Append(j, Touch(AddressOf(o.stat), o.inode)), SetAttrs(AddressOf(o.stat), AttrsOf(started.stat)));
            Quiet(j, k, {o.inode}) && k.recs == j.recs && ObjOk(k, started)
  {
    var started := o.(stat := StartedStat(o.stat));
    TouchOk(j, o);
    var m := Append(j, Touch(AddressOf(o.stat), o.inode));
    AttrsOk(m, started);
    QuietTrans(j, m, Append(m, SetAttrs(AddressOf(o.stat), AttrsOf(started.stat))), {o.inode});
  }

  lemma WroteOk(j: Journal, o: Obj, bytes: Bytes)
    requires JournalInv(j) && ObjOk(j, o) && o.stat.state in {PreWrite, InWrite}
    ensures var (k, p) := Wrote(j, o, bytes);
            && JournalInv(k) && Quiet(j, k, {o.inode}) && ObjOk(k, p)
            && o.inode in k.recs
            && k.recs == j.recs[o.inode := j.recs[o.inode].(data := j.recs[o.inode].data + bytes, wrote := k.recs[o.inode].wrote)]
  {
    hide MicroInv, Quiet, JournalInv;
    Opened(j);
    var at := AddressOf(o.stat);
    var started := o.(stat := StartedStat(o.stat));
    var write := Engine.Write(at, o.written, bytes);
    if o.stat.state == PreWrite {
      var touch, attrs := Touch(at, o.inode), SetAttrs(at, AttrsOf(started.stat));
      StartOk(j, o);
      var m := Append(Append(j, touch), attrs);
      QuietMicro(j, m, {o.inode});
      DataOk(m, started, bytes);
      assert WriteOps(o.stat, o.inode, o.written, bytes) == [touch, attrs, write];
      PrepareThree(j, touch, attrs, write);
      QuietTrans(j, m, Append(m, write), {o.inode});
    } else {
      DataOk(j, o, bytes);
      assert WriteOps(o.stat, o.inode, o.written, bytes) == [write];
      PrepareOne(j, write);
    }
    var (k, p) := Wrote(j, o, bytes);
    QuietInv(j, k, p);
  }

  lemma HeaderOk(j: Journal, o: Obj, at: Address, header: Bytes)
    requires MicroInv(j) && at in Virtual(j) && o.inode in j.recs && Virtual(j)[at].inode == o.inode
    ensures var k := Append(j, SetHeader(at, header));
            && Quiet(j, k, {o.inode})
            && k.recs == j.recs[o.inode := j.recs[o.inode].(header := header, marked := |j.stores|)]
            && Virtual(k) == Virtual(j)[at := Virtual(j)[at].(header := header)]
  {
    QuietStep(j, SetHeader(at, header));
  }

  lemma HeaderAttrsOk(j: Journal, o: Obj, header: Bytes)
    requires MicroInv(j) && HasEntry(o) && AddressOf(o.stat) in Virtual(j)
    requires Virtual(j)[AddressOf(o.stat)].inode == o.inode
    requires o.inode in j.recs && j.recs[o.inode].name == o.stat.name && IsStamp(j.recs[o.inode], o.stat.ts)
    requires o.stat.state == Active ==> j.recs[o.inode].ts == Some(o.stat.ts) && j.recs[o.inode].deleted == o.stat.deleted
    ensures var at := AddressOf(o.stat);
            var k := Append(Append(j, SetHeader(at, header)), SetAttrs(at, AttrsOf(o.stat)));
            && Quiet(j, k, {o.inode})
            && k.recs == j.recs[o.inode := j.recs[o.inode].(header := header, marked := |j.stores|)]
            && Virtual(k) == Virtual(j)[at := Virtual(j)[at].(header := header, attrs := Some(AttrsOf(o.stat)))]
  {
    hide MicroInv, Quiet;
    var at := AddressOf(o.stat);
    HeaderOk(j, o, at, header);
    var m := Append(j, SetHeader(at, header));
    QuietMicro(j, m, {o.inode});
    AttrsOk(m, o);
    QuietTrans(j, m, Append(m, SetAttrs(at, AttrsOf(o.stat))), {o.inode});
  }

  lemma MarkedQuiet(j: Journal, o: Obj, header: Bytes)
    requires MicroInv(j) && JournalInv(j) && ObjOk(j, o) && o.stat.state in {PreWrite, InWrite, Active}
    ensures var (k, p) := Marked(j, o, header);
            && Quiet(j, k, {o.inode}) && ObjOk(k, p)
            && o.inode in k.recs
            && k.recs == j.recs[o.inode := j.recs[o.inode].(header := header, marked := k.recs[o.inode].marked)]
  {
    hide MicroInv, Quiet, JournalInv;
    var at := AddressOf(o.stat);
    var started := o.(stat := StartedStat(o.stat));
    var mark, attrs := SetHeader(at, header), SetAttrs(at, AttrsOf(started.stat));
    if o.stat.state == PreWrite {
      var touch := Touch(at, o.inode);
      TouchOk(j, o);
      var m := Append(j, touch);
      QuietMicro(j, m, {o.inode});
      HeaderAttrsOk(m, started, header);
      assert HeaderOps(o.stat, o.inode, header) == [touch, mark, attrs];
      PrepareThree(j, touch, mark, attrs);
      QuietTrans(j, m, Append(Append(m, mark), attrs), {o.inode});
    } else {
      HeaderAttrsOk(j, o, header);
      assert HeaderOps(o.stat, o.inode, header) == [mark, attrs];
      PrepareTwo(j, mark, attrs);
    }
  }

  /** A new Object's metadata, or an update of the metadata of the one holding the name. */
  lemma MarkedOk(j: Journal, o: Obj, header: Bytes)
    requires JournalInv(j) && ObjOk(j, o) && o.stat.state in {PreWrite, InWrite, Active}
    ensures var (k, p) := Marked(j, o, header);
            && JournalInv(k) && Quiet(j, k, {o.inode}) && ObjOk(k, p)
            && o.inode in k.recs
            && k.recs == j.recs[o.inode := j.recs[o.inode].(header := header, marked := k.recs[o.inode].marked)]
  {
    hide MicroInv, Quiet, JournalInv;
    Opened(j);
    MarkedQuiet(j, o, header);
    var (k, p) := Marked(j, o, header);
    QuietInv(j, k, p);
  }

  /** Letting go of an Object being written, or of a retired one. */
  lemma RemovedOk(j: Journal, o: Obj)
    requires JournalInv(j) && ObjOk(j, o) && o.stat.state in {InWrite, Old}
    ensures var k := Removed(j, o);
            && JournalInv(k) && Quiet(j, k, {o.inode}) && k.recs == j.recs
            && (forall at :: at in Virtual(k) ==> Virtual(k)[at].inode != o.inode)
  {
    var at := AddressOf(o.stat);
    var op := Engine.Remove(at);
    hide MicroInv, Quiet;
    assert RemoveOps(o.stat) == [op];
    PrepareOne(j, op);
    RemoveStep(j, o);
    QuietMicro(j, Append(j, op), {o.inode});
    RemoveTidy(j, o);
    SameHoldersInv(j, Append(j, op), {o.inode});
  }

  lemma RemoveStep(j: Journal, o: Obj)
    requires MicroInv(j) && ObjOk(j, o) && o.stat.state in {InWrite, Old}
    ensures var k := Append(j, Engine.Remove(AddressOf(o.stat)));
            && Quiet(j, k, {o.inode}) && k.recs == j.recs && Virtual(k) == Virtual(j) - {AddressOf(o.stat)}
  {
    QuietStep(j, Engine.Remove(AddressOf(o.stat)));
  }

  lemma RemoveTidy(j: Journal, o: Obj)
    requires JournalInv(j) && ObjOk(j, o) && o.stat.state in {InWrite, Old}
    requires Quiet(j, Append(j, Engine.Remove(AddressOf(o.stat))), {o.inode})
    ensures var k := Append(j, Engine.Remove(AddressOf(o.stat)));
            && TidyStore(Virtual(k), k.recs)
            && (forall at :: at in Virtual(k) ==> Virtual(k)[at].inode != o.inode)
  {
    var at := AddressOf(o.stat);
    var k := Append(j, Engine.Remove(at));
    RemoveStep(j, o);
    QuietMicro(j, k, {o.inode});
    hide MicroInv, Quiet;
    forall a | a in Virtual(k) ensures Virtual(k)[a].inode != o.inode && EntryTidy(a, Virtual(k)[a], k.recs) {
      if Virtual(k)[a].inode == o.inode { OneVirtualPlace(j, a, at); }
      OtherTidy(j, k, {o.inode}, a);
    }
  }
}
