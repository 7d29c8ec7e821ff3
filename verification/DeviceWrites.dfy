/** Steps that prepare transactions about entries that hold no name: creating,
    writing and letting go of an Object. */
module DeviceWrites {
  import opened Base
  import opened Engine
  import opened Journals
  import opened Objects
  import opened Transactions
  import opened Device
  import opened DeviceSpec
  import opened DeviceReads
  import opened DeviceFrame
  import opened DeviceSteps

  ghost predicate NoHolder(j: Journal, inodes: set<nat>)
    requires |j.stores| > 0
  {
    forall at :: at in Virtual(j) && !at.temp ==> Virtual(j)[at].inode !in inodes
  }

  /** Only entries that hold no name are touched. */
  ghost predicate Aside(s: Sys, t: Sys, inodes: set<nat>) {
    && JournalInv(s.journal) && JournalInv(t.journal)
    && SameExcept(s.journal, t.journal, inodes)
    && NoHolder(s.journal, inodes) && NoHolder(t.journal, inodes)
    && s.applied < |s.journal.stores|
    && t.applied == s.applied && t.decided == s.decided && t.durable == s.durable && s.next <= t.next
    && (forall i :: i in t.journal.recs ==> i < t.next)
    && (forall i :: i in inodes && i in s.journal.recs && s.journal.recs[i].handed.Some? ==>
          i in t.journal.recs && t.journal.recs[i] == s.journal.recs[i])
  }

  lemma AsideHolders(s: Sys, t: Sys, inodes: set<nat>, name: string)
    requires Aside(s, t, inodes)
    ensures Ordinary(name) in Virtual(t.journal) <==> Ordinary(name) in Virtual(s.journal)
    ensures Ordinary(name) in Virtual(s.journal) ==> Virtual(t.journal)[Ordinary(name)] == Virtual(s.journal)[Ordinary(name)]
  {
    hide JournalInv;
    assert Ordinary(name) in Virtual(s.journal) ==> Virtual(s.journal)[Ordinary(name)].inode !in inodes;
    assert Ordinary(name) in Virtual(t.journal) ==> Virtual(t.journal)[Ordinary(name)].inode !in inodes;
  }

  lemma AsideSpec(c: Config, origin: Names, s: Sys, t: Sys, inodes: set<nat>)
    requires Aside(s, t, inodes) && SpecOk(c, origin, s)
    ensures SpecOk(c, origin, t)
  {
    hide Aside;
    AsideBasics(s, t, inodes);
    forall name ensures Shows(Virtual(t.journal), name) == Lookup(Fold(c, origin, t.decided), name) {
      AsideHolders(s, t, inodes, name);
    }
  }

  lemma AsideBasics(s: Sys, t: Sys, inodes: set<nat>)
    requires Aside(s, t, inodes)
    ensures 0 < |s.journal.stores| <= |t.journal.stores| && t.applied == s.applied < |s.journal.stores| && t.decided == s.decided
    ensures Length(s.journal) <= Length(t.journal) && s.next <= t.next
    ensures MicroInv(s.journal) && MicroInv(t.journal) && Grows(s, t)
    ensures SameExcept(s.journal, t.journal, inodes)
  {
    hide AllSound, Journals.Distinct, NeverHeld, Newest, EntryTidy, TidyStore, NoHolder;
  }

  lemma HolderKnown(j: Journal, name: string)
    requires JournalInv(j) && Ordinary(name) in Virtual(j)
    ensures Virtual(j)[Ordinary(name)].inode in j.recs
    ensures j.recs[Virtual(j)[Ordinary(name)].inode].handed.Some?
  {
    assert EntryTidy(Ordinary(name), Virtual(j)[Ordinary(name)], j.recs);
  }

  lemma AsideQuiescent(s: Sys, t: Sys, inodes: set<nat>, name: string)
    requires Aside(s, t, inodes) && Quiescent(s, name)
    ensures Quiescent(t, name)
  {
    AsideHolders(s, t, inodes, name);
    if Ordinary(name) in Virtual(s.journal) { HolderKnown(s.journal, name); }
    hide JournalInv;
  }

  lemma AsideNames(s: Sys, t: Sys, inodes: set<nat>)
    requires Aside(s, t, inodes) && NamesOk(s)
    requires t.names == s.names
    requires forall name :: name in s.names ==> s.names[name].id in t.objs && (s.names[name].id in s.objs ==> t.objs[s.names[name].id] == s.objs[s.names[name].id])
    ensures NamesOk(t)
  {
    hide Aside, Quiescent;
    AsideBasics(s, t, inodes);
    forall name | name in t.names ensures SlotFine(t, name) {
      assert SlotFine(s, name);
      AsideHolders(s, t, inodes, name);
    }
    forall name | name !in t.names || t.names[name].Searching? ensures Quiescent(t, name) {
      AsideQuiescent(s, t, inodes, name);
    }
  }

  lemma AsideTemps(s: Sys, t: Sys, inodes: set<nat>)
    requires Aside(s, t, inodes) && TempsOk(s)
    requires forall id :: id in s.objs && s.objs[id].stat.state in {InWrite, Old} && s.objs[id].inode !in inodes ==>
               id in t.objs && t.objs[id] == s.objs[id]
    requires forall at :: at in Virtual(t.journal) && at.temp && Virtual(t.journal)[at].inode in inodes ==> TempOwned(t, at)
    ensures TempsOk(t)
  {
    hide Aside;
    AsideBasics(s, t, inodes);
    forall at | at in Virtual(t.journal) && at.temp ensures TempOwned(t, at) {
      if Virtual(t.journal)[at].inode !in inodes {
        assert Virtual(t.journal)[at] == Virtual(s.journal)[at];
        assert TempOwned(s, at);
      }
    }
  }

  /** An Object of another entry. */
  lemma AsideObj(s: Sys, t: Sys, inodes: set<nat>, id: nat)
    requires Aside(s, t, inodes) && id in s.objs && ObjFine(s, id) && id in t.objs && t.objs[id] == s.objs[id]
    requires HasInode(s.objs[id]) ==> s.objs[id].inode !in inodes
    requires t.names == s.names && t.reqs == s.reqs
    ensures ObjFine(t, id)
  {
    AsideBasics(s, t, inodes);
    hide Aside;
    SameKeepsObj(s.journal, t.journal, inodes, s.objs[id]);
    CarriedObj(s, t, id);
  }

  lemma AsideInv(c: Config, origin: Names, s: Sys, t: Sys, inodes: set<nat>)
    requires Inv(c, origin, s) && Aside(s, t, inodes) && t.reqs == s.reqs
    requires |t.journal.stores| > 0 && ObjsOk(t) && TempsOk(t) && NamesOk(t)
    requires forall r, id :: r in s.reqs && id in Pins(s.reqs[r]) && id in s.objs ==> Carried(s, t, id)
    ensures Inv(c, origin, t)
  {
    AsideSpec(c, origin, s, t, inodes);
    AsideBasics(s, t, inodes);
    CarriedReqs(c, origin, s, t);
    hide JournalInv, ObjsOk, TempsOk, NamesOk, ReqsOk, SpecOk, MicroInv, Grows;
  }

  // ----- a new Object -----

  /** Backend::create, for a put or, with `deleted` set, for a delete's tombstone. */
  function Entered(s: Sys, name: string, estimate: nat, deleted: bool): Sys {
    var o := Created(name, estimate, s.next);
    s.(journal := Registered(s.journal, s.next, name, estimate),
       objs := s.objs[s.next := o.(stat := o.stat.(deleted := deleted))],
       next := s.next + 1)
  }

  lemma EnteredObjs(s: Sys, name: string, estimate: nat, deleted: bool)
    requires var t := Entered(s, name, estimate, deleted);
             Aside(s, t, {}) && ObjOk(t.journal, t.objs[s.next])
    requires ObjsOk(s) && s.next !in s.objs && s.next !in s.journal.recs
    ensures ObjsOk(Entered(s, name, estimate, deleted))
  {
    var t := Entered(s, name, estimate, deleted);
    AsideBasics(s, t, {});
    hide Aside, Carried, MicroInv, Grows, SameExcept;
    forall id | id in s.objs
      ensures ObjFine(t, id) && (HasInode(s.objs[id]) ==> s.objs[id].inode != s.next)
    {
      assert ObjFine(s, id);
      AsideObj(s, t, {}, id);
    }
    assert ObjFine(t, s.next);
    hide ObjFine;
  }

  lemma EnteredAside(c: Config, origin: Names, s: Sys, name: string, estimate: nat, deleted: bool)
    requires Inv(c, origin, s) && Device.FreshStamp(s.journal.recs, name, estimate)
    ensures var t := Entered(s, name, estimate, deleted);
            Aside(s, t, {}) && ObjOk(t.journal, t.objs[s.next])
  {
    NextIsNew(c, origin, s);
    RegisteredOk(s.journal, s.next, name, estimate);
    hide JournalInv, SameExcept, ObjsOk, NamesOk, ReqsOk, TempsOk;
  }

  lemma EnteredOk(c: Config, origin: Names, s: Sys, name: string, estimate: nat, deleted: bool)
    requires Inv(c, origin, s) && Device.FreshStamp(s.journal.recs, name, estimate)
    ensures Inv(c, origin, Entered(s, name, estimate, deleted))
  {
    hide Inv, Aside, JournalInv, ObjsOk, TempsOk, NamesOk, ReqsOk, SpecOk, MicroInv, ObjOk, Pins;
    InvParts(c, origin, s);
    NextIsNew(c, origin, s);
    EnteredAside(c, origin, s, name, estimate, deleted);
    var t := Entered(s, name, estimate, deleted);
    AsideBasics(s, t, {});
    EnteredObjs(s, name, estimate, deleted);
    AsideTemps(s, t, {});
    SlotsKnown(s);
    AsideNames(s, t, {});
    forall r, id | r in s.reqs && id in Pins(s.reqs[r]) && id in s.objs ensures Carried(s, t, id) {
    }
    AsideInv(c, origin, s, t, {});
  }

  lemma CreateOk(c: Config, origin: Names, s: Sys, name: string, estimate: nat)
    requires Inv(c, origin, s) && Device.FreshStamp(s.journal.recs, name, estimate)
    ensures Inv(c, origin, Create(s, name, estimate))
  {
    hide Inv, Device.FreshStamp;
    EnteredOk(c, origin, s, name, estimate, false);
    assert Create(s, name, estimate) == Entered(s, name, estimate, false);
  }

  lemma SlotsKnown(s: Sys)
    requires |s.journal.stores| > 0 && NamesOk(s)
    ensures forall name :: name in s.names ==> s.names[name].id in s.objs
  {
    forall name | name in s.names ensures s.names[name].id in s.objs {
      assert SlotFine(s, name);
    }
  }

  // ----- writing to a new Object -----

  /** One transaction about the entry of an Object being written. */
  ghost predicate Writes(s: Sys, t: Sys, id: nat) {
    && id in s.objs && s.objs[id].stat.state in {PreWrite, InWrite}
    && 0 < |s.journal.stores|
    && t == s.(journal := t.journal, objs := t.objs, cuts := t.cuts)
    && id in t.objs && t.objs == s.objs[id := t.objs[id]]
    && var o, p := s.objs[id], t.objs[id];
    && o.inode in s.journal.recs
    && p.inode == o.inode && p.version == o.version && p.stat == StartedStat(o.stat)
    && p.done <= Length(t.journal)
    && JournalInv(t.journal) && Quiet(s.journal, t.journal, {o.inode}) && ObjOk(t.journal, p)
    && t.journal.recs == s.journal.recs[o.inode := t.journal.recs[o.inode]]
  }

  lemma WritesAside(c: Config, origin: Names, s: Sys, t: Sys, id: nat)
    requires Inv(c, origin, s) && id in s.objs && Writes(s, t, id)
    ensures Aside(s, t, {s.objs[id].inode})
  {
    hide Inv, JournalInv, MicroInv, SameExcept, ObjsOk, NamesOk, ReqsOk, TempsOk, ObjOk, SpecOk, Quiet, NoHolder;
    InvParts(c, origin, s);
    ObjIsFine(c, origin, s, id);
    WritingHolds(s.journal, s.objs[id]);
    WritingHolds(t.journal, t.objs[id]);
    QuietMicro(s.journal, t.journal, {s.objs[id].inode});
  }

  /** An Object being written holds no name. */
  lemma WritingHolds(j: Journal, o: Obj)
    requires JournalInv(j) && ObjOk(j, o) && o.stat.state in {PreWrite, InWrite}
    ensures NoHolder(j, {o.inode}) && j.recs[o.inode].handed.None?
  {
    forall at | at in Virtual(j) && !at.temp ensures Virtual(j)[at].inode != o.inode {
      if o.stat.state == InWrite && Virtual(j)[at].inode == o.inode {
        OneVirtualPlace(j, at, AddressOf(o.stat));
      }
    }
  }

  lemma WritesObjs(c: Config, origin: Names, s: Sys, t: Sys, id: nat)
    requires Inv(c, origin, s) && id in s.objs && Writes(s, t, id) && Aside(s, t, {s.objs[id].inode})
    ensures ObjsOk(t)
  {
    hide Inv, Aside, JournalInv, MicroInv, SameExcept, NamesOk, ReqsOk, TempsOk, SpecOk, Quiet, ObjOk;
    InvParts(c, origin, s);
    AsideBasics(s, t, {s.objs[id].inode});
    forall q | q in s.objs && q != id ensures ObjFine(t, q) {
      assert ObjFine(s, q);
      AsideObj(s, t, {s.objs[id].inode}, q);
    }
    assert ObjFine(s, id);
    assert ObjFine(t, id);
    hide ObjFine;
  }

  lemma WritesTemps(c: Config, origin: Names, s: Sys, t: Sys, id: nat)
    requires Inv(c, origin, s) && id in s.objs && Writes(s, t, id) && Aside(s, t, {s.objs[id].inode})
    ensures TempsOk(t)
  {
    hide Inv, Aside, JournalInv, MicroInv, SameExcept, NamesOk, ReqsOk, SpecOk, Quiet, ObjOk;
    InvParts(c, origin, s);
    AsideBasics(s, t, {s.objs[id].inode});
    AsideTemps(s, t, {s.objs[id].inode});
  }

  lemma WritesOk(c: Config, origin: Names, s: Sys, t: Sys, id: nat)
    requires Inv(c, origin, s) && id in s.objs && Writes(s, t, id)
    ensures Inv(c, origin, t)
  {
    hide Inv, Aside, JournalInv, ObjsOk, TempsOk, NamesOk, ReqsOk, SpecOk, MicroInv, ObjOk, Pins, Quiet, SameExcept;
    InvParts(c, origin, s);
    WritesAside(c, origin, s, t, id);
    AsideBasics(s, t, {s.objs[id].inode});
    WritesObjs(c, origin, s, t, id);
    WritesTemps(c, origin, s, t, id);
    SlotsKnown(s);
    forall name | name in s.names ensures s.names[name].id != id {
      SlotIsFine(s, name);
    }
    AsideNames(s, t, {s.objs[id].inode});
    forall r, q | r in s.reqs && q in Pins(s.reqs[r]) && q in s.objs ensures Carried(s, t, q) {
      OtherInode(c, origin, s, t, id, q);
    }
    AsideInv(c, origin, s, t, {s.objs[id].inode});
  }

  lemma OtherInode(c: Config, origin: Names, s: Sys, t: Sys, id: nat, q: nat)
    requires Inv(c, origin, s) && id in s.objs && q in s.objs && Writes(s, t, id)
    ensures Carried(s, t, q)
  {
    hide Inv, JournalInv, TempsOk, NamesOk, ReqsOk, SpecOk, MicroInv, ObjOk, Quiet, SameExcept;
    InvParts(c, origin, s);
    ObjIsFine(c, origin, s, q);
    ObjInode(s.journal, s.objs[q]);
    hide ObjFine;
  }

  lemma ObjInode(j: Journal, o: Obj)
    requires |j.stores| > 0 && ObjOk(j, o)
    ensures HasInode(o) ==> o.inode in j.recs
  {
  }

  lemma WriteChunkOk(c: Config, origin: Names, s: Sys, id: nat, bytes: Bytes)
    requires Inv(c, origin, s) && id in s.objs && s.objs[id].stat.state in {PreWrite, InWrite}
    ensures Inv(c, origin, WriteChunk(s, id, bytes))
  {
    hide Inv, JournalInv, ObjsOk, TempsOk, NamesOk, ReqsOk, SpecOk, MicroInv, Quiet, SameExcept, Wrote, ObjOk;
    InvParts(c, origin, s);
    ObjIsFine(c, origin, s, id);
    WroteOk(s.journal, s.objs[id], bytes);
    ObjInode(s.journal, s.objs[id]);
    WroteShape(s.journal, s.objs[id], bytes);
    WritesOk(c, origin, s, WriteChunk(s, id, bytes), id);
  }

  lemma WroteShape(j: Journal, o: Obj, bytes: Bytes)
    ensures var (k, p) := Wrote(j, o, bytes);
            p == o.(stat := StartedStat(o.stat), written := o.written + |bytes|, done := Length(k))
  {
  }

  lemma MarkedShape(j: Journal, o: Obj, header: Bytes)
    ensures var (k, p) := Marked(j, o, header);
            p == o.(stat := StartedStat(o.stat), done := Length(k))
  {
  }

  /** A new Object is given its metadata. */
  function MarkNew(s: Sys, id: nat, header: Bytes, name: string): Sys
    requires id in s.objs
  {
    var (j, o) := Marked(s.journal, s.objs[id], header);
    Noting(s.(journal := j, objs := s.objs[id := o]), name)
  }

  lemma MarkNewOk(c: Config, origin: Names, s: Sys, id: nat, header: Bytes, name: string)
    requires Inv(c, origin, s) && id in s.objs && s.objs[id].stat.state in {PreWrite, InWrite}
    ensures Inv(c, origin, MarkNew(s, id, header, name))
    ensures s.objs[id].inode in s.journal.recs && s.objs[id].inode in MarkNew(s, id, header, name).journal.recs
    ensures MarkNew(s, id, header, name).journal.recs[s.objs[id].inode].header == header
    ensures MarkNew(s, id, header, name).journal.recs[s.objs[id].inode].data == s.journal.recs[s.objs[id].inode].data
  {
    hide Inv, JournalInv, ObjsOk, TempsOk, NamesOk, ReqsOk, SpecOk, MicroInv, Quiet, SameExcept, Marked, ObjOk;
    InvParts(c, origin, s);
    ObjIsFine(c, origin, s, id);
    MarkedOk(s.journal, s.objs[id], header);
    ObjInode(s.journal, s.objs[id]);
    MarkedShape(s.journal, s.objs[id], header);
    WritesOk(c, origin, s, MarkNew(s, id, header, name), id);
  }

  // ----- letting go -----

  ghost predicate Unheld(s: Sys, id: nat) {
    && id in s.objs
    && (forall r :: r in s.reqs ==> id !in Pins(s.reqs[r]))
    && (forall n :: n in s.names && s.names[n].Searching? ==> s.names[n].id != id)
  }

  lemma UnheldDone(s: Sys, id: nat)
    requires Unheld(s, id) && |s.journal.stores| > 0 && ObjFine(s, id) && s.objs[id].stat.state == Active
    ensures s.objs[id].done <= s.applied
  {
    forall r | r in s.reqs ensures !Confirms(s.reqs[r], id, s.objs[id].done) {
      assert id !in Pins(s.reqs[r]);
    }
  }

  /** When the map forgets an Object, nothing about its name is in the queue. */
  lemma ForgottenQuiescent(s: Sys, id: nat)
    requires |s.journal.stores| > 0 && Unheld(s, id) && ObjFine(s, id)
    requires s.objs[id].stat.name in s.names && s.names[s.objs[id].stat.name] == Found(id) && SlotFine(s, s.objs[id].stat.name)
    ensures Quiescent(s, s.objs[id].stat.name)
  {
    if s.objs[id].stat.state == Active {
      UnheldDone(s, id);
    }
  }

  lemma NoSlot(s: Sys, name: string)
    requires |s.journal.stores| > 0 && NamesOk(s) && (name !in s.names || s.names[name].Searching?)
    ensures Quiescent(s, name)
  {
  }

  lemma ForgetNames(s: Sys, id: nat)
    requires |s.journal.stores| > 0 && NamesOk(s) && id in s.objs && Unheld(s, id) && ObjFine(s, id)
    requires s.objs[id].stat.state !in {InWrite, Old}
    ensures NamesOk(Release(s, id))
  {
    hide Unheld, ObjFine;
    var n := s.objs[id].stat.name;
    var t := Release(s, id);
    forall name | name in t.names ensures SlotFine(t, name) {
      SlotIsFine(s, name);
      if s.names[name].id == id { ForgottenSlot(s, id, name); }
    }
    forall name | name !in t.names || t.names[name].Searching? ensures Quiescent(t, name) {
      if name in s.names && s.names[name].Found? {
        SlotIsFine(s, n);
        ForgottenQuiescent(s, id);
      } else {
        NoSlot(s, name);
      }
    }
  }

  lemma ForgottenSlot(s: Sys, id: nat, name: string)
    requires |s.journal.stores| > 0 && Unheld(s, id) && name in s.names && SlotFine(s, name) && s.names[name].id == id
    ensures s.names[name] == Found(id) && name == s.objs[id].stat.name
  {
  }

  lemma ForgetObjs(s: Sys, id: nat)
    requires |s.journal.stores| > 0 && ObjsOk(s) && id in s.objs && s.objs[id].stat.state !in {InWrite, Old}
    ensures ObjsOk(Release(s, id))
  {
    var t := Release(s, id);
    forall q | q in t.objs ensures ObjFine(t, q) {
      assert ObjFine(s, q);
      CarriedObj(s, t, q);
    }
    hide ObjFine;
  }

  lemma ForgetOk(c: Config, origin: Names, s: Sys, id: nat)
    requires Inv(c, origin, s) && Unheld(s, id) && s.objs[id].stat.state !in {InWrite, Old}
    ensures Inv(c, origin, Release(s, id))
  {
    hide Inv, ObjsOk, TempsOk, NamesOk, ReqsOk, MicroInv, JournalInv, Pins;
    InvParts(c, origin, s);
    ObjIsFine(c, origin, s, id);
    var t := Release(s, id);
    ForgetObjs(s, id);
    ForgetNames(s, id);
    SameTemps(s, t);
    assert Grows(s, t);
    forall r, q | r in s.reqs && q in Pins(s.reqs[r]) && q in s.objs ensures Carried(s, t, q) {
    }
    CarriedReqs(c, origin, s, t);
    SameStoreInv(c, origin, s, t);
  }

  lemma TempHolds(j: Journal, o: Obj)
    requires JournalInv(j) && ObjOk(j, o) && o.stat.state in {InWrite, Old}
    ensures NoHolder(j, {o.inode})
  {
    forall at | at in Virtual(j) && !at.temp ensures Virtual(j)[at].inode != o.inode {
      if Virtual(j)[at].inode == o.inode {
        OneVirtualPlace(j, at, AddressOf(o.stat));
      }
    }
  }

  ghost predicate DropsEntry(s: Sys, t: Sys, id: nat) {
    && id in s.objs && s.objs[id].stat.state in {InWrite, Old}
    && t == s.(journal := t.journal, objs := s.objs - {id}, cuts := t.cuts)
    && JournalInv(t.journal) && Quiet(s.journal, t.journal, {s.objs[id].inode}) && t.journal.recs == s.journal.recs
    && |t.journal.stores| > 0
    && (forall at :: at in Virtual(t.journal) ==> Virtual(t.journal)[at].inode != s.objs[id].inode)
  }

  lemma DropIsDrop(c: Config, origin: Names, s: Sys, id: nat)
    requires Inv(c, origin, s) && id in s.objs && s.objs[id].stat.state in {InWrite, Old}
    ensures DropsEntry(s, Release(s, id), id)
  {
    hide Inv, ObjsOk, TempsOk, ReqsOk, MicroInv, JournalInv, ObjOk, Quiet, SameExcept;
    InvParts(c, origin, s);
    ObjIsFine(c, origin, s, id);
    RemovedOk(s.journal, s.objs[id]);
    Transactions.Opened(Removed(s.journal, s.objs[id]));
    TempSlot(s, id);
  }

  /** The map never holds an Object of the temporary space. */
  lemma TempSlot(s: Sys, id: nat)
    requires |s.journal.stores| > 0 && NamesOk(s) && id in s.objs && s.objs[id].stat.state in {InWrite, Old}
    ensures forall name :: name in s.names ==> s.names[name].id != id
  {
    forall name | name in s.names ensures s.names[name].id != id {
      SlotIsFine(s, name);
    }
  }

  lemma DropAside(c: Config, origin: Names, s: Sys, t: Sys, id: nat)
    requires Inv(c, origin, s) && DropsEntry(s, t, id)
    ensures Aside(s, t, {s.objs[id].inode})
  {
    hide Inv, JournalInv, MicroInv, SameExcept, ObjsOk, NamesOk, ReqsOk, TempsOk, ObjOk, SpecOk, Quiet, NoHolder;
    InvParts(c, origin, s);
    ObjIsFine(c, origin, s, id);
    TempHolds(s.journal, s.objs[id]);
    DroppedHolds(s, t, id);
    QuietMicro(s.journal, t.journal, {s.objs[id].inode});
  }

  lemma DroppedHolds(s: Sys, t: Sys, id: nat)
    requires DropsEntry(s, t, id)
    ensures NoHolder(t.journal, {s.objs[id].inode})
  {
  }

  lemma DropObjs(c: Config, origin: Names, s: Sys, t: Sys, id: nat)
    requires Inv(c, origin, s) && DropsEntry(s, t, id) && Aside(s, t, {s.objs[id].inode})
    ensures ObjsOk(t)
  {
    hide Inv, Aside, JournalInv, MicroInv, SameExcept, NamesOk, ReqsOk, TempsOk, SpecOk, Quiet, ObjOk;
    InvParts(c, origin, s);
    AsideBasics(s, t, {s.objs[id].inode});
    forall q | q in t.objs ensures ObjFine(t, q) {
      assert ObjFine(s, q);
      AsideObj(s, t, {s.objs[id].inode}, q);
    }
    hide ObjFine;
  }

  lemma DropOk(c: Config, origin: Names, s: Sys, id: nat)
    requires Inv(c, origin, s) && Unheld(s, id) && s.objs[id].stat.state in {InWrite, Old}
    ensures Inv(c, origin, Release(s, id))
  {
    hide Inv, Aside, JournalInv, ObjsOk, TempsOk, NamesOk, ReqsOk, SpecOk, MicroInv, ObjOk, Pins, Quiet, SameExcept, Release;
    var t := Release(s, id);
    InvParts(c, origin, s);
    ObjIsFine(c, origin, s, id);
    hide ObjFine;
    DropIsDrop(c, origin, s, id);
    DropAside(c, origin, s, t, id);
    AsideBasics(s, t, {s.objs[id].inode});
    DropObjs(c, origin, s, t, id);
    SameInodeSame(s, id);
    AsideTemps(s, t, {s.objs[id].inode});
    SlotsKnown(s);
    TempSlot(s, id);
    AsideNames(s, t, {s.objs[id].inode});
    forall r, q | r in s.reqs && q in Pins(s.reqs[r]) && q in s.objs ensures Carried(s, t, q) {
    }
    AsideInv(c, origin, s, t, {s.objs[id].inode});
  }

  lemma SameInodeSame(s: Sys, id: nat)
    requires |s.journal.stores| > 0 && ObjsOk(s) && id in s.objs && HasInode(s.objs[id])
    ensures forall q :: q in s.objs && HasInode(s.objs[q]) && s.objs[q].inode == s.objs[id].inode ==> q == id
  {
    hide ObjFine;
  }

  lemma ReleaseOk(c: Config, origin: Names, s: Sys, id: nat)
    requires Inv(c, origin, s) && Enabled(c, s, ReleaseStep(id))
    ensures Inv(c, origin, Release(s, id))
  {
    hide Inv, Release, WellFormed, Pins;
    if s.objs[id].stat.state in {InWrite, Old} {
      DropOk(c, origin, s, id);
    } else {
      ForgetOk(c, origin, s, id);
    }
  }
}
