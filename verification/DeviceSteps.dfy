/** The steps that are not decisions: landing, committing, searching, writing a
    new Object, letting go of one. */
module DeviceSteps {
  import opened Base
  import opened Engine
  import opened Journals
  import opened Objects
  import opened Transactions
  import opened Device
  import opened DeviceSpec
  import opened DeviceReads
  import opened DeviceFrame

  // ----- carrying the other Objects, names and temporary entries over -----

  /** The requests of `s` still wait for what they waited for. */
  ghost predicate KeepsWaiting(s: Sys, t: Sys) {
    forall r :: r in s.reqs ==> r in t.reqs && t.reqs[r] == s.reqs[r]
  }

  lemma CarriedObj(s: Sys, t: Sys, id: nat)
    requires |s.journal.stores| > 0 && |t.journal.stores| > 0 && id in s.objs && ObjFine(s, id)
    requires id in t.objs && t.objs[id] == s.objs[id] && ObjOk(t.journal, t.objs[id])
    requires s.applied <= t.applied && Length(s.journal) <= Length(t.journal) && s.next <= t.next
    requires HasInode(s.objs[id]) && s.objs[id].inode in s.journal.recs ==>
               s.objs[id].inode in t.journal.recs && t.journal.recs[s.objs[id].inode] == s.journal.recs[s.objs[id].inode]
    requires s.objs[id].stat.name in s.names && s.names[s.objs[id].stat.name].id == id ==>
               s.objs[id].stat.name in t.names && t.names[s.objs[id].stat.name].id == id
    requires KeepsWaiting(s, t)
    ensures ObjFine(t, id)
  {
    var o := s.objs[id];
    if o.stat.state == Active && o.done > t.applied {
      var r :| r in s.reqs && Confirms(s.reqs[r], id, o.done);
      assert Confirms(t.reqs[r], id, o.done);
    }
  }

  /** The facts CarriedReq needs of the Objects a request reads. */
  lemma PinnedFacts(c: Config, origin: Names, s: Sys, id: nat)
    requires Inv(c, origin, s) && id in s.objs
    ensures s.objs[id].stat.state in {Active, Old} ==>
              && s.objs[id].inode in s.journal.recs && s.journal.recs[s.objs[id].inode].handed.Some?
              && s.journal.recs[s.objs[id].inode].name == s.objs[id].stat.name
  {
    assert ObjFine(s, id);
  }

  lemma CarriedReqs(c: Config, origin: Names, s: Sys, t: Sys)
    requires Inv(c, origin, s) && Grows(s, t) && MicroInv(t.journal) && t.reqs == s.reqs
    requires forall r, id :: r in s.reqs && id in Pins(s.reqs[r]) && id in s.objs ==> Carried(s, t, id)
    ensures t.applied < |t.journal.stores| && ReqsOk(c, t)
  {
    hide Inv, MicroInv, Grows, ReqFine, Carried, Pins;
    GrowsApplied(s, t);
    InvReqs(c, origin, s);
    forall r | r in t.reqs ensures ReqFine(c, t, r) {
      forall id | id in Pins(s.reqs[r]) && id in s.objs && s.objs[id].stat.state in {Active, Old}
        ensures s.objs[id].inode in s.journal.recs && s.journal.recs[s.objs[id].inode].handed.Some?
        ensures s.journal.recs[s.objs[id].inode].name == s.objs[id].stat.name
      {
        PinnedFacts(c, origin, s, id);
      }
      CarriedReq(c, s, t, r);
    }
  }

  lemma InvReqs(c: Config, origin: Names, s: Sys)
    requires Inv(c, origin, s)
    ensures s.applied < |s.journal.stores| && ReqsOk(c, s)
  {
  }

  // ----- landing and committing -----

  lemma LandObjs(c: Config, origin: Names, s: Sys)
    requires Inv(c, origin, s) && s.applied < |s.journal.stores| - 1
    ensures ObjsOk(Land(s))
  {
    var t := Land(s);
    forall id | id in t.objs ensures ObjFine(t, id) {
      assert ObjFine(s, id);
      CarriedObj(s, t, id);
    }
    hide ObjFine, JournalOk, TempsOk, NamesOk, ReqsOk, SpecOk;
  }

  lemma LandNames(s: Sys)
    requires |s.journal.stores| > 0 && NamesOk(s)
    ensures NamesOk(Land(s))
  {
    var t := Land(s);
    forall name | name in t.names ensures SlotFine(t, name) {
      assert SlotFine(s, name);
    }
    forall name | name !in t.names || t.names[name].Searching? ensures Quiescent(t, name) {
      assert Quiescent(s, name);
    }
  }

  lemma SameTemps(s: Sys, t: Sys)
    requires |s.journal.stores| > 0 && TempsOk(s) && t.journal == s.journal
    requires forall id :: id in s.objs && s.objs[id].stat.state in {InWrite, Old} ==> id in t.objs && t.objs[id] == s.objs[id]
    ensures TempsOk(t)
  {
    forall at | at in Virtual(t.journal) && at.temp ensures TempOwned(t, at) {
      assert TempOwned(s, at);
    }
  }

  lemma LandOk(c: Config, origin: Names, s: Sys)
    requires Inv(c, origin, s) && s.applied < |s.journal.stores| - 1
    ensures Inv(c, origin, Land(s))
  {
    var t := Land(s);
    LandObjs(c, origin, s);
    LandNames(s);
    SameTemps(s, t);
    assert Grows(s, t);
    forall r, id | r in s.reqs && id in Pins(s.reqs[r]) && id in s.objs ensures Carried(s, t, id) {
    }
    CarriedReqs(c, origin, s, t);
    hide JournalInv, ObjsOk, TempsOk, NamesOk, ReqsOk, Grows;
  }

  /** A step of Objects, the map or bookkeeping: the store and the decisions stay. */
  ghost predicate SameStore(s: Sys, t: Sys) {
    t.journal == s.journal && t.applied == s.applied && t.decided == s.decided && s.next <= t.next
  }

  lemma SameStoreInv(c: Config, origin: Names, s: Sys, t: Sys)
    requires Inv(c, origin, s) && SameStore(s, t)
    requires forall n :: n in t.durable ==> t.durable[n] <= t.applied
    requires |t.journal.stores| > 0 && ObjsOk(t) && TempsOk(t) && NamesOk(t)
    requires t.applied < |t.journal.stores| && ReqsOk(c, t)
    ensures Inv(c, origin, t)
  {
    hide JournalInv, ObjsOk, TempsOk, NamesOk, ReqsOk;
  }

  lemma CommitObjs(s: Sys, collection: nat, end: nat)
    requires |s.journal.stores| > 0 && ObjsOk(s)
    ensures ObjsOk(Commit(s, collection, end))
  {
    var t := Commit(s, collection, end);
    forall id | id in t.objs ensures ObjFine(t, id) {
      assert ObjFine(s, id);
      CarriedObj(s, t, id);
    }
    hide ObjFine;
  }

  lemma CommitNames(s: Sys, collection: nat, end: nat)
    requires |s.journal.stores| > 0 && NamesOk(s)
    ensures NamesOk(Commit(s, collection, end))
  {
    var t := Commit(s, collection, end);
    forall name | name in t.names ensures SlotFine(t, name) {
      assert SlotFine(s, name);
    }
    forall name | name !in t.names || t.names[name].Searching? ensures Quiescent(t, name) {
      assert Quiescent(s, name);
    }
  }

  lemma InvParts(c: Config, origin: Names, s: Sys)
    requires Inv(c, origin, s)
    ensures s.applied < |s.journal.stores| && JournalOk(c, s) && ObjsOk(s) && TempsOk(s) && NamesOk(s) && ReqsOk(c, s)
    ensures MicroInv(s.journal) && JournalInv(s.journal)
  {
  }

  lemma CommitOk(c: Config, origin: Names, s: Sys, collection: nat, end: nat)
    requires Inv(c, origin, s) && end <= s.applied
    ensures Inv(c, origin, Commit(s, collection, end))
  {
    hide Inv, ObjsOk, TempsOk, NamesOk, ReqsOk, MicroInv, JournalInv;
    InvParts(c, origin, s);
    var t := Commit(s, collection, end);
    CommitObjs(s, collection, end);
    CommitNames(s, collection, end);
    SameTemps(s, t);
    forall r, id | r in s.reqs && id in Pins(s.reqs[r]) && id in s.objs ensures Carried(s, t, id) {
    }
    CarriedReqs(c, origin, s, t);
    SameStoreInv(c, origin, s, t);
  }

  // ----- a new request -----

  function Begun(s: Sys, rid: nat, name: string, task: Task): Sys {
    s.(reqs := s.reqs[rid := Req(name, task, Opening)])
  }

  lemma BegunObjs(s: Sys, rid: nat, name: string, task: Task)
    requires |s.journal.stores| > 0 && ObjsOk(s) && rid !in s.reqs
    ensures ObjsOk(Begun(s, rid, name, task))
  {
    var t := Begun(s, rid, name, task);
    forall id | id in t.objs ensures ObjFine(t, id) {
      assert ObjFine(s, id);
      CarriedObj(s, t, id);
    }
    hide ObjFine;
  }

  lemma BegunNames(s: Sys, rid: nat, name: string, task: Task)
    requires |s.journal.stores| > 0 && NamesOk(s)
    ensures NamesOk(Begun(s, rid, name, task))
  {
    var t := Begun(s, rid, name, task);
    forall n | n in t.names ensures SlotFine(t, n) {
      assert SlotFine(s, n);
    }
    forall n | n !in t.names || t.names[n].Searching? ensures Quiescent(t, n) {
      assert Quiescent(s, n);
    }
  }

  lemma BegunReq(c: Config, s: Sys, rid: nat, name: string, task: Task, other: nat)
    requires s.applied < |s.journal.stores| && rid !in s.reqs && other in s.reqs && ReqFine(c, s, other)
    ensures ReqFine(c, Begun(s, rid, name, task), other)
  {
  }

  lemma BegunReqs(c: Config, s: Sys, rid: nat, name: string, task: Task)
    requires s.applied < |s.journal.stores| && ReqsOk(c, s) && Enabled(c, s, BeginStep(rid, name, task))
    ensures ReqsOk(c, Begun(s, rid, name, task))
  {
    hide WellFormed;
    var t := Begun(s, rid, name, task);
    assert ReqFine(c, t, rid);
    hide ReqFine;
    forall other | other in t.reqs ensures ReqFine(c, t, other) {
      if other != rid { BegunReq(c, s, rid, name, task, other); }
    }
  }

  lemma BeginOk(c: Config, origin: Names, s: Sys, rid: nat, name: string, task: Task)
    requires Inv(c, origin, s) && Enabled(c, s, BeginStep(rid, name, task))
    ensures Inv(c, origin, Begun(s, rid, name, task))
  {
    hide Inv, ObjsOk, TempsOk, NamesOk, ReqsOk, MicroInv, JournalInv;
    InvParts(c, origin, s);
    var t := Begun(s, rid, name, task);
    BegunObjs(s, rid, name, task);
    BegunNames(s, rid, name, task);
    SameTemps(s, t);
    BegunReqs(c, s, rid, name, task);
    SameStoreInv(c, origin, s, t);
  }

  // ----- searching for a name -----

  lemma StartSearchObjs(s: Sys, name: string)
    requires |s.journal.stores| > 0 && ObjsOk(s) && name !in s.names && s.next !in s.objs
    ensures ObjsOk(StartSearch(s, name))
  {
    var t := StartSearch(s, name);
    forall id | id in t.objs ensures ObjFine(t, id) {
      if id in s.objs {
        assert ObjFine(s, id);
        CarriedObj(s, t, id);
      }
    }
    hide ObjFine;
  }

  lemma StartSearchNames(s: Sys, name: string)
    requires |s.journal.stores| > 0 && NamesOk(s) && name !in s.names && s.next !in s.objs
    ensures NamesOk(StartSearch(s, name))
  {
    var t := StartSearch(s, name);
    forall n | n in t.names ensures SlotFine(t, n) {
      if n != name { assert SlotFine(s, n); }
    }
    forall n | n !in t.names || t.names[n].Searching? ensures Quiescent(t, n) {
      assert Quiescent(s, n);
    }
  }

  lemma NextIsNew(c: Config, origin: Names, s: Sys)
    requires Inv(c, origin, s)
    ensures s.next !in s.objs && s.next !in s.journal.recs
  {
    forall id | id in s.objs ensures id < s.next {
      assert ObjFine(s, id);
    }
  }

  lemma StartSearchOk(c: Config, origin: Names, s: Sys, name: string)
    requires Inv(c, origin, s) && name !in s.names
    ensures Inv(c, origin, StartSearch(s, name))
  {
    hide Inv, ObjsOk, TempsOk, NamesOk, ReqsOk, MicroInv, JournalInv;
    InvParts(c, origin, s);
    NextIsNew(c, origin, s);
    var t := StartSearch(s, name);
    StartSearchObjs(s, name);
    StartSearchNames(s, name);
    SameTemps(s, t);
    forall r, id | r in s.reqs && id in Pins(s.reqs[r]) && id in s.objs ensures Carried(s, t, id) {
    }
    assert Grows(s, t);
    CarriedReqs(c, origin, s, t);
    SameStoreInv(c, origin, s, t);
  }

  /** What the search finds is what the virtual store holds: the queue has nothing about the name. */
  lemma SearchSees(c: Config, origin: Names, s: Sys, name: string)
    requires Inv(c, origin, s) && Quiescent(s, name)
    ensures Ordinary(name) in Visible(s) <==> Ordinary(name) in Virtual(s.journal)
    ensures Ordinary(name) in Visible(s) ==>
              && Visible(s)[Ordinary(name)].inode == Virtual(s.journal)[Ordinary(name)].inode
              && Visible(s)[Ordinary(name)].attrs == Virtual(s.journal)[Ordinary(name)].attrs
              && Visible(s)[Ordinary(name)].attrs.Some?
  {
    var j := s.journal;
    var at := Ordinary(name);
    if at in Virtual(j) {
      var i := Virtual(j)[at].inode;
      VisibleSound(j, |j.stores| - 1, at);
      StillHeld(j, i, s.applied, |j.stores| - 1);
      VisibleSound(j, s.applied, at);
    } else {
      assert NeverHeld(j, name);
    }
  }

  lemma InodeElsewhere(j: Journal, o: Obj, name: string)
    requires MicroInv(j) && ObjOk(j, o) && HasInode(o) && Ordinary(name) in Virtual(j) && Virtual(j)[Ordinary(name)].inode == o.inode
    ensures o.stat.state == Active && o.stat.name == name
  {
    VirtualSound(j, Ordinary(name));
    if HasEntry(o) { OneVirtualPlace(j, Ordinary(name), AddressOf(o.stat)); }
  }

  ghost predicate LoadReady(s: Sys, name: string)
    requires |s.journal.stores| > 0
  {
    && WellFormed(s) && name in s.names && s.names[name].Searching? && !s.names[name].loaded
    && SlotFine(s, name) && Quiescent(s, name)
  }

  lemma LoadedActive(s: Sys, o: Obj, name: string)
    requires MicroInv(s.journal) && JournalInv(s.journal) && s.applied < |s.journal.stores|
    requires Ordinary(name) in Virtual(s.journal) && Quiescent(s, name)
    requires o.stat.state == Active && o.stat.name == name && o.inode == Virtual(s.journal)[Ordinary(name)].inode
    requires Virtual(s.journal)[Ordinary(name)].attrs.Some? && o.stat == Load(Ordinary(name), Virtual(s.journal)[Ordinary(name)].attrs.value)
    ensures ObjOk(s.journal, o) && Within(s.journal, o.inode, s.applied)
  {
    var at := Ordinary(name);
    VirtualSound(s.journal, at);
    HandedHasTs(s.journal, Virtual(s.journal)[at].inode);
    RecBounds(s.journal, Virtual(s.journal)[at].inode);
    hide MicroInv, JournalInv;
  }

  /** The Object a search ends with. */
  function Loaded(s: Sys, name: string): Obj
    requires WellFormed(s) && name in s.names
  {
    SearchLoad(s, name).objs[s.names[name].id]
  }

  ghost predicate LoadedFine(s: Sys, o: Obj, name: string)
    requires |s.journal.stores| > 0
  {
    && o.stat.state in {Missing, Active} && o.stat.name == name && o.done == 0
    && ObjOk(s.journal, o)
    && (o.stat.state == Missing ==> Ordinary(name) !in Virtual(s.journal))
    && (o.stat.state == Active ==>
          && Ordinary(name) in Virtual(s.journal) && Virtual(s.journal)[Ordinary(name)].inode == o.inode
          && Within(s.journal, o.inode, s.applied))
  }

  lemma LoadedIsFine(c: Config, origin: Names, s: Sys, name: string)
    requires Inv(c, origin, s) && LoadReady(s, name)
    ensures LoadedFine(s, Loaded(s, name), name)
  {
    InvParts(c, origin, s);
    var at := Ordinary(name);
    SearchSees(c, origin, s, name);
    hide Inv, MicroInv, JournalInv, Quiescent, WellFormed, ObjsOk, NamesOk, TempsOk, ReqsOk;
    if at in Virtual(s.journal) {
      LoadedActive(s, Loaded(s, name), name);
    }
  }

  lemma LoadedObj(c: Config, origin: Names, s: Sys, name: string)
    requires Inv(c, origin, s) && LoadReady(s, name)
    ensures LoadedFine(s, Loaded(s, name), name)
    ensures ObjFine(SearchLoad(s, name), s.names[name].id)
  {
    hide Inv, MicroInv, JournalInv, Quiescent, WellFormed, ObjOk, ObjsOk, NamesOk, TempsOk, ReqsOk, Slice;
    InvParts(c, origin, s);
    ObjIsFine(c, origin, s, s.names[name].id);
    LoadedIsFine(c, origin, s, name);
  }

  lemma LoadObjs(c: Config, origin: Names, s: Sys, name: string)
    requires Inv(c, origin, s) && LoadReady(s, name)
    ensures ObjsOk(SearchLoad(s, name))
  {
    var t := SearchLoad(s, name);
    var id := s.names[name].id;
    InvParts(c, origin, s);
    hide Inv, MicroInv, JournalInv;
    LoadedObj(c, origin, s, name);
    forall q | q in t.objs && q != id
      ensures ObjFine(t, q) && (HasInode(t.objs[q]) && HasInode(t.objs[id]) ==> t.objs[q].inode != t.objs[id].inode)
    {
      assert ObjFine(s, q);
      CarriedObj(s, t, q);
      if HasInode(t.objs[q]) && HasInode(t.objs[id]) && t.objs[q].inode == t.objs[id].inode {
        InodeElsewhere(s.journal, s.objs[q], name);
      }
    }
    hide ObjFine, SearchLoad;
  }

  lemma LoadNames(c: Config, origin: Names, s: Sys, name: string)
    requires Inv(c, origin, s) && LoadReady(s, name)
    ensures NamesOk(SearchLoad(s, name))
  {
    hide Inv, MicroInv, JournalInv;
    InvParts(c, origin, s);
    LoadedObj(c, origin, s, name);
    var t := SearchLoad(s, name);
    forall n | n in t.names ensures SlotFine(t, n) {
      assert SlotFine(s, n);
    }
    forall n | n !in t.names || t.names[n].Searching? ensures Quiescent(t, n) {
      assert Quiescent(s, n);
    }
  }

  /** Nothing but its search knows an Object that has not been found yet. */
  lemma PinnedIsOpen(c: Config, s: Sys, r: nat, id: nat)
    requires s.applied < |s.journal.stores| && r in s.reqs && ReqFine(c, s, r) && id in Pins(s.reqs[r])
    ensures id in s.objs && s.objs[id].stat.state != PreSearch
  {
  }

  lemma LoadOk(c: Config, origin: Names, s: Sys, name: string)
    requires Inv(c, origin, s) && Enabled(c, s, LoadStep(name))
    ensures Inv(c, origin, SearchLoad(s, name))
  {
    hide Inv, ObjsOk, TempsOk, NamesOk, ReqsOk, MicroInv, JournalInv, ReqFine, Pins, WellFormed;
    InvParts(c, origin, s);
    SlotIsFine(s, name);
    var t := SearchLoad(s, name);
    LoadObjs(c, origin, s, name);
    LoadNames(c, origin, s, name);
    SameTemps(s, t);
    forall r, id | r in s.reqs && id in Pins(s.reqs[r]) && id in s.objs ensures Carried(s, t, id) {
      ReqIsFine(c, origin, s, r);
      PinnedIsOpen(c, s, r, id);
    }
    assert Grows(s, t);
    CarriedReqs(c, origin, s, t);
    SameStoreInv(c, origin, s, t);
  }

  lemma SlotIsFine(s: Sys, name: string)
    requires |s.journal.stores| > 0 && NamesOk(s) && name in s.names
    ensures SlotFine(s, name) && (s.names[name].Searching? ==> Quiescent(s, name))
  {
  }

  // ----- the search is over -----

  lemma FoundObjs(s: Sys, name: string)
    requires |s.journal.stores| > 0 && ObjsOk(s) && name in s.names
    ensures ObjsOk(SearchDone(s, name))
  {
    var t := SearchDone(s, name);
    forall id | id in t.objs ensures ObjFine(t, id) {
      assert ObjFine(s, id);
      CarriedObj(s, t, id);
    }
    hide ObjFine;
  }

  lemma FoundNames(s: Sys, name: string)
    requires |s.journal.stores| > 0 && NamesOk(s) && name in s.names && s.names[name].Searching? && s.names[name].loaded
    ensures NamesOk(SearchDone(s, name))
  {
    var t := SearchDone(s, name);
    forall n | n in t.names ensures SlotFine(t, n) {
      assert SlotFine(s, n);
    }
    forall n | n !in t.names || t.names[n].Searching? ensures Quiescent(t, n) {
      assert Quiescent(s, n);
    }
  }

  lemma FoundOk(c: Config, origin: Names, s: Sys, name: string)
    requires Inv(c, origin, s) && Enabled(c, s, FoundStep(name))
    ensures Inv(c, origin, SearchDone(s, name))
  {
    hide Inv, ObjsOk, TempsOk, NamesOk, ReqsOk, MicroInv, JournalInv, ReqFine, Pins, WellFormed;
    InvParts(c, origin, s);
    var t := SearchDone(s, name);
    FoundObjs(s, name);
    FoundNames(s, name);
    SameTemps(s, t);
    forall r, id | r in s.reqs && id in Pins(s.reqs[r]) && id in s.objs ensures Carried(s, t, id) {
    }
    assert Grows(s, t);
    CarriedReqs(c, origin, s, t);
    SameStoreInv(c, origin, s, t);
  }
}
