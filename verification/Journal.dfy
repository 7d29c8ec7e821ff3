/** The store as BlueStore sees it: every operation prepared since the mount, in
    order, with the store each of them leaves. `stores[0]` is the mounted store,
    `stores[k]` the store once the first k operations have landed, and the last
    one the virtual store, where the whole queue has landed. */
module Journals {
  import opened Base
  import opened Engine

  /** What has been decided about one entry. `wrote`, `marked` and `handed` say
      how many operations must have landed for its data and its header to be
      the recorded ones, and for it to have taken its name. */
  datatype Rec = Rec(
    name: string,
    estimate: Option<nat>,   // the clock's stamp, for an entry made since the mount
    ts: Option<nat>,         // the settled timestamp, once put
    deleted: bool,
    data: Bytes,
    header: Bytes,
    wrote: nat,
    marked: nat,
    handed: Option<nat>)

  datatype Journal = Journal(stores: seq<Store>, ops: seq<Op>, recs: map<nat, Rec>)

  function Virtual(j: Journal): Store
    requires |j.stores| > 0
  {
    Last(j.stores)
  }

  function Noted(recs: map<nat, Rec>, store: Store, op: Op, k: nat): map<nat, Rec>
    requires Applicable(store, op)
  {
    match op
    case Write(at, offset, bytes) =>
      var i := store[at].inode;
      if i in recs then
        recs[i := recs[i].(data := Overwrite(store[at].data, offset, bytes), wrote := k)]
      else
        recs
    case SetHeader(at, header) =>
      var i := store[at].inode;
      if i in recs then recs[i := recs[i].(header := header, marked := k)] else recs
    case _ => recs
  }

  /** An operation that is not applicable has no outcome: BlueStore dies on it. */
  function Append(j: Journal, op: Op): Journal {
    if |j.stores| > 0 && Applicable(Virtual(j), op) then
      j.(stores := j.stores + [Apply(Virtual(j), op)], ops := j.ops + [op],
         recs := Noted(j.recs, Virtual(j), op, |j.stores|))
    else
      j.(ops := j.ops + [op])
  }

  /** impl::prepare: one more transaction in the queue. */
  function Prepare(j: Journal, ops: seq<Op>): Journal
    decreases |ops|
  {
    if ops == [] then j else Prepare(Append(j, ops[0]), ops[1..])
  }

  // ----- what holds after every single operation -----

  predicate IsStamp(r: Rec, ts: nat) { r.estimate == Some(ts) || r.ts == Some(ts) }

  ghost predicate HeldBy(store: Store, name: string, inode: nat) {
    Ordinary(name) in store && store[Ordinary(name)].inode == inode
  }

  ghost predicate Sound(at: Address, e: Entry, recs: map<nat, Rec>, k: nat) {
    && e.inode in recs
    && var r := recs[e.inode];
    && r.name == at.name
    && (at.temp ==> IsStamp(r, at.generation))
    && (!at.temp ==> at == Ordinary(at.name))
    && (e.attrs.Some? ==> IsStamp(r, e.attrs.value.ts))
    && (k >= r.wrote ==> e.data == r.data)
    && (k >= r.marked ==> e.header == r.header)
    && (!at.temp && r.handed.Some? && k >= r.handed.value ==>
          r.ts.Some? && e.attrs == Some(Attrs(r.ts.value, r.deleted, false)))
  }

  ghost predicate SoundStore(store: Store, recs: map<nat, Rec>, k: nat) {
    forall at :: at in store ==> Sound(at, store[at], recs, k)
  }

  /** No entry is at two addresses. */
  ghost predicate OnePlace(store: Store) {
    forall a, b :: a in store && b in store && store[a].inode == store[b].inode ==> a == b
  }

  ghost predicate Replayed(j: Journal) {
    && |j.stores| == |j.ops| + 1
    && forall k :: 0 <= k < |j.ops| ==> Applicable(j.stores[k], j.ops[k]) && j.stores[k + 1] == Apply(j.stores[k], j.ops[k])
  }

  ghost predicate AllSound(j: Journal) {
    forall k :: 0 <= k < |j.stores| ==> SoundStore(j.stores[k], j.recs, k) && OnePlace(j.stores[k])
  }

  /** No two versions of a name share an estimate or a settled timestamp. */
  ghost predicate Distinct(recs: map<nat, Rec>) {
    forall a, b, ts :: a in recs && b in recs && a != b && recs[a].name == recs[b].name && IsStamp(recs[a], ts) ==> !IsStamp(recs[b], ts)
  }

  /** An entry that took its name and lost it never holds it again. */
  ghost predicate NeverReturns(j: Journal, i: nat)
    requires i in j.recs && j.recs[i].handed.Some?
  {
    forall k, l :: j.recs[i].handed.value <= k <= l < |j.stores| && HeldBy(j.stores[l], j.recs[i].name, i) ==>
      HeldBy(j.stores[k], j.recs[i].name, i)
  }

  ghost predicate RecOk(j: Journal, i: nat)
    requires i in j.recs
  {
    var r := j.recs[i];
    && r.wrote < |j.stores| && r.marked < |j.stores|
    && (r.handed.Some? ==>
          && r.ts.Some?
          && r.handed.value < |j.stores|
          && HeldBy(j.stores[r.handed.value], r.name, i)
          && r.wrote <= r.handed.value
          && NeverReturns(j, i))
  }

  ghost predicate MicroInv(j: Journal) {
    && Replayed(j)
    && AllSound(j)
    && Distinct(j.recs)
    && (forall i :: i in j.recs ==> RecOk(j, i))
  }

  // ----- one operation keeps it -----

  ghost predicate OpOk(j: Journal, op: Op)
    requires |j.stores| > 0
  {
    var v := Virtual(j);
    && Applicable(v, op)
    && (!op.Touch? ==> v[op.at].inode in j.recs)
    && match op
       case Touch(at, i) =>
         && at !in v && at.temp && i in j.recs
         && j.recs[i].name == at.name && IsStamp(j.recs[i], at.generation)
         && j.recs[i].data == [] && j.recs[i].header == []
         && (forall a :: a in v ==> v[a].inode != i)
       case Write(at, _, _) => j.recs[v[at].inode].handed.None?
       case SetHeader(_, _) => true
       case SetAttrs(at, attrs) =>
         var r := j.recs[v[at].inode];
         && IsStamp(r, attrs.ts)
         && (!at.temp && r.handed.Some? ==> r.ts.Some? && attrs == Attrs(r.ts.value, r.deleted, false))
       case Rename(at, to) =>
         var r := j.recs[v[at].inode];
         && at.name == to.name
         && (to.temp ==> IsStamp(r, to.generation))
         && (!to.temp ==> to == Ordinary(to.name) && r.handed.None?)
       case Remove(at) => at.temp
  }

  lemma NotedKeeps(j: Journal, op: Op, i: nat)
    requires MicroInv(j) && OpOk(j, op) && i in j.recs
    ensures var r, s := j.recs[i], Append(j, op).recs[i];
            && s == r.(data := s.data, wrote := s.wrote, header := s.header, marked := s.marked)
            && ((s.data == r.data && s.wrote == r.wrote) || s.wrote == |j.stores|)
            && ((s.header == r.header && s.marked == r.marked) || s.marked == |j.stores|)
  {
  }

  lemma OldStoresSound(j: Journal, op: Op, k: nat)
    requires MicroInv(j) && OpOk(j, op) && k < |j.stores|
    ensures SoundStore(j.stores[k], Append(j, op).recs, k)
  {
    assert SoundStore(j.stores[k], j.recs, k);
    forall at | at in j.stores[k] ensures Sound(at, j.stores[k][at], Append(j, op).recs, k) {
      NotedKeeps(j, op, j.stores[k][at].inode);
    }
  }

  lemma NewEntrySound(j: Journal, op: Op, at: Address)
    requires MicroInv(j) && OpOk(j, op) && at in Apply(Virtual(j), op)
    ensures Sound(at, Apply(Virtual(j), op)[at], Append(j, op).recs, |j.stores|)
  {
    var v := Virtual(j);
    assert SoundStore(v, j.recs, |j.stores| - 1) && OnePlace(v);
    var e := Apply(v, op)[at];
    NotedKeeps(j, op, e.inode);
    if op.Rename? && at == op.to {
      assert Sound(op.at, v[op.at], j.recs, |j.stores| - 1);
    } else if at in v {
      assert Sound(at, v[at], j.recs, |j.stores| - 1);
    }
  }

  lemma NewStoreOnePlace(j: Journal, op: Op)
    requires MicroInv(j) && OpOk(j, op)
    ensures OnePlace(Apply(Virtual(j), op))
  {
    var v := Virtual(j);
    assert OnePlace(j.stores[|j.stores| - 1]);
    var w := Apply(v, op);
    forall a, b | a in w && b in w && w[a].inode == w[b].inode ensures a == b {
      var a' := if op.Rename? && a == op.to then op.at else a;
      var b' := if op.Rename? && b == op.to then op.at else b;
      if a' in v && b' in v {
        assert v[a'].inode == v[b'].inode;
      }
    }
  }

  lemma AppendSound(j: Journal, op: Op)
    requires MicroInv(j) && OpOk(j, op)
    ensures AllSound(Append(j, op))
  {
    var next := Append(j, op);
    forall k | 0 <= k < |next.stores|
      ensures SoundStore(next.stores[k], next.recs, k) && OnePlace(next.stores[k])
    {
      if k < |j.stores| {
        assert OnePlace(j.stores[k]);
        OldStoresSound(j, op, k);
      } else {
        NewStoreOnePlace(j, op);
        forall at | at in next.stores[k] ensures Sound(at, next.stores[k][at], next.recs, k) {
          NewEntrySound(j, op, at);
        }
      }
    }
  }

  /** No operation brings an entry that has taken its name to an ordinary address. */
  lemma NotBroughtBack(j: Journal, op: Op, i: nat)
    requires |j.stores| > 0 && OpOk(j, op) && i in j.recs && j.recs[i].handed.Some?
    requires HeldBy(Apply(Virtual(j), op), j.recs[i].name, i)
    ensures HeldBy(Virtual(j), j.recs[i].name, i)
  {
  }

  lemma StillNeverReturns(j: Journal, op: Op, i: nat)
    requires |j.stores| > 0 && OpOk(j, op) && i in j.recs && j.recs[i].handed.Some? && NeverReturns(j, i)
    requires j.recs[i].handed.value < |j.stores|
    requires i in Append(j, op).recs
    requires Append(j, op).recs[i].handed == j.recs[i].handed && Append(j, op).recs[i].name == j.recs[i].name
    ensures NeverReturns(Append(j, op), i)
  {
    var next := Append(j, op);
    var r := j.recs[i];
    forall k, l | r.handed.value <= k <= l < |next.stores| && HeldBy(next.stores[l], r.name, i)
      ensures HeldBy(next.stores[k], r.name, i)
    {
      if l == |j.stores| && k < l {
        NotBroughtBack(j, op, i);
        assert HeldBy(j.stores[l - 1], r.name, i);
      }
    }
  }

  lemma AppendRec(j: Journal, op: Op, i: nat)
    requires MicroInv(j) && OpOk(j, op) && i in Append(j, op).recs
    ensures RecOk(Append(j, op), i)
  {
    assert RecOk(j, i);
    NotedKeeps(j, op, i);
    if j.recs[i].handed.Some? {
      StillNeverReturns(j, op, i);
    }
  }

  lemma AppendRecs(j: Journal, op: Op)
    requires MicroInv(j) && OpOk(j, op)
    ensures forall i :: i in Append(j, op).recs ==> RecOk(Append(j, op), i)
  {
    forall i | i in Append(j, op).recs ensures RecOk(Append(j, op), i) {
      AppendRec(j, op, i);
    }
  }

  lemma AppendOk(j: Journal, op: Op)
    requires MicroInv(j) && OpOk(j, op)
    ensures MicroInv(Append(j, op))
  {
    AppendSound(j, op);
    AppendRecs(j, op);
    var next := Append(j, op);
    forall k | 0 <= k < |next.ops|
      ensures Applicable(next.stores[k], next.ops[k]) && next.stores[k + 1] == Apply(next.stores[k], next.ops[k])
    {
      if k == |j.ops| {
        assert next.stores[k] == Virtual(j);
      }
    }
  }
}
