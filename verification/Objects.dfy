/** What each call on an Object does (object.cpp, backend.cpp): the change to
    the Object and the transaction prepared with it, as one step. */
module Objects {
  import opened Base
  import opened Engine
  import opened Journals

  /** `done` is how many operations must have landed for the Object's latest
      transaction to be complete, 0 if it has none; `version` is the number of
      POSTs the Device has made to it. */
  datatype Obj = Obj(stat: Stat, inode: nat, written: nat, done: nat, version: nat)

  function Length(j: Journal): nat { |j.ops| }

  /** Backend::create: nothing is on disk yet. */
  function Registered(j: Journal, inode: nat, name: string, estimate: nat): Journal {
    j.(recs := j.recs[inode := Rec(name, Some(estimate), None, false, [], [], 0, 0, None)])
  }

  function Created(name: string, estimate: nat, inode: nat): Obj {
    Obj(Stat(name, estimate, false, PreWrite), inode, 0, 0, 0)
  }

  function StartedStat(stat: Stat): Stat {
    if stat.state == PreWrite then stat.(state := InWrite) else stat
  }

  function Wrote(j: Journal, o: Obj, bytes: Bytes): (Journal, Obj) {
    var k := Prepare(j, WriteOps(o.stat, o.inode, o.written, bytes));
    (k, o.(stat := StartedStat(o.stat), written := o.written + |bytes|, done := Length(k)))
  }

  function Marked(j: Journal, o: Obj, header: Bytes): (Journal, Obj) {
    var k := Prepare(j, HeaderOps(o.stat, o.inode, header));
    (k, o.(stat := StartedStat(o.stat), done := Length(k)))
  }

  /** The record of a hand-over: the settled timestamp, and when it is complete. */
  function Stamped(j: Journal, o: Obj, ts: nat): Journal {
    if o.inode in j.recs then
      j.(recs := j.recs[o.inode := j.recs[o.inode].(ts := Some(ts), deleted := o.stat.deleted)])
    else j
  }

  function HandedOver(j: Journal, inode: nat): Journal {
    if inode in j.recs && |j.stores| > 0 then
      j.(recs := j.recs[inode := j.recs[inode].(handed := Some(|j.stores| - 1))])
    else j
  }

  /** Backend::put, once `next` is known to be newer than `prev`. */
  function PutJournal(j: Journal, next: Obj, prev: Stat, ts: nat): Journal {
    HandedOver(Prepare(Stamped(j, next, ts), PutOps(next.stat, prev, ts)), next.inode)
  }

  function PutNext(j: Journal, next: Obj, prev: Stat, ts: nat): Obj {
    next.(stat := Settled(next.stat, ts), done := Length(PutJournal(j, next, prev, ts)))
  }

  /** The destructor: an entry only its holder could find is removed with it. */
  function Removed(j: Journal, o: Obj): Journal {
    if o.stat.state in {InWrite, Old} then Prepare(j, RemoveOps(o.stat)) else j
  }

  // ----- what holds between transactions -----

  ghost predicate EntryTidy(at: Address, e: Entry, recs: map<nat, Rec>) {
    && e.attrs.Some?
    && AddressOf(Load(at, e.attrs.value)) == at
    && (!at.temp ==> e.inode in recs && recs[e.inode].handed.Some?)
  }

  ghost predicate TidyStore(store: Store, recs: map<nat, Rec>) {
    forall at :: at in store ==> EntryTidy(at, store[at], recs)
  }

  /** A name nothing holds has never been held. */
  ghost predicate NeverHeld(j: Journal, name: string) {
    forall k :: 0 <= k < |j.stores| ==> Ordinary(name) !in j.stores[k]
  }

  ghost predicate Newest(j: Journal, i: nat)
    requires |j.stores| > 0 && i in j.recs && j.recs[i].ts.Some?
  {
    var at := Ordinary(j.recs[i].name);
    && at in Virtual(j)
    && Virtual(j)[at].inode in j.recs
    && var h := j.recs[Virtual(j)[at].inode];
    && h.ts.Some? && j.recs[i].ts.value <= h.ts.value
  }

  ghost predicate JournalInv(j: Journal) {
    && MicroInv(j)
    && TidyStore(Virtual(j), j.recs)
    && (forall name :: Ordinary(name) !in Virtual(j) ==> NeverHeld(j, name))
    && (forall i :: i in j.recs && j.recs[i].handed.Some? ==> Newest(j, i))
    && (forall i :: i in j.recs && j.recs[i].handed.None? ==> j.recs[i].ts.None?)
  }

  predicate HasEntry(o: Obj) { o.stat.state in {InWrite, Active, Old} }

  predicate HasInode(o: Obj) { o.stat.state in {PreWrite, InWrite, Active, Old} }

  /** The virtual store agrees with what an Object says of itself. */
  ghost predicate ObjOk(j: Journal, o: Obj)
    requires |j.stores| > 0
  {
    && (o.stat.state == Missing ==> o.stat.ts == 0)
    && (HasInode(o) ==> o.inode in j.recs && j.recs[o.inode].name == o.stat.name)
    && (HasEntry(o) ==>
          && AddressOf(o.stat) in Virtual(j)
          && var e := Virtual(j)[AddressOf(o.stat)];
          e.inode == o.inode && e.attrs == Some(AttrsOf(o.stat)))
    && match o.stat.state
       case PreWrite =>
         && o.written == 0
         && j.recs[o.inode] == Rec(o.stat.name, Some(o.stat.ts), None, false, [], [], 0, 0, None)
         && (forall at :: at in Virtual(j) ==> Virtual(j)[at].inode != o.inode)
       case InWrite =>
         && o.written == |Virtual(j)[AddressOf(o.stat)].data|
         && j.recs[o.inode].estimate == Some(o.stat.ts)
         && j.recs[o.inode].handed.None?
       case Active | Old =>
         && j.recs[o.inode].ts == Some(o.stat.ts)
         && j.recs[o.inode].handed.Some?
         && j.recs[o.inode].deleted == o.stat.deleted
       case _ => true
  }

  /** Nothing but these entries is touched between two journals. */
  ghost predicate SameExcept(j: Journal, k: Journal, inodes: set<nat>) {
    && 0 < |j.stores| <= |k.stores|
    && (forall n :: 0 <= n < |j.stores| ==> k.stores[n] == j.stores[n])
    && (forall i :: i in j.recs ==> i in k.recs && (i !in inodes ==> k.recs[i] == j.recs[i]))
    && (forall at :: at in Virtual(j) && Virtual(j)[at].inode !in inodes ==> at in Virtual(k) && Virtual(k)[at] == Virtual(j)[at])
    && (forall at :: at in Virtual(k) && Virtual(k)[at].inode !in inodes ==> at in Virtual(j) && Virtual(k)[at] == Virtual(j)[at])
  }

  lemma SameKeepsObj(j: Journal, k: Journal, inodes: set<nat>, o: Obj)
    requires SameExcept(j, k, inodes) && ObjOk(j, o) && (HasInode(o) ==> o.inode !in inodes)
    ensures ObjOk(k, o)
  {
  }
}
