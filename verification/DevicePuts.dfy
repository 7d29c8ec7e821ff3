/** Decisions that hand a name over: a put or a delete that is newer than the
    holder takes the name, and one that is not changes nothing. */
module DevicePuts {
  import opened Base
  import opened Engine
  import opened Journals
  import opened Objects
  import opened Transactions
  import opened HandOver
  import opened Metadata
  import opened Device
  import opened DeviceSpec
  import opened DeviceReads
  import opened DeviceFrame
  import opened DeviceSteps
  import opened DeviceWrites
  import opened DeviceDecide

  /** From `s`, where the new Object has its metadata, to `t`, where it has the name. */
  ghost predicate Hands(c: Config, origin: Names, s: Sys, t: Sys, rid: nat, id: nat, prev: nat, ts: nat) {
    && rid in s.reqs && !Decided(s.reqs[rid]) && !s.reqs[rid].task.Get?
    && (s.reqs[rid].task.Put? ==> s.reqs[rid].task.id == id)
    && id in s.objs && prev in s.objs && id != prev
    && var name, o, p := s.reqs[rid].name, s.objs[id], s.objs[prev];
    && o.stat.name == name && name in s.names && s.names[name] == Found(prev)
    && CanPut(s.journal, o, p, ts)
    && var k := PutJournal(s.journal, o, p.stat, ts);
    && o.inode in s.journal.recs
    && t == s.(journal := k,
               objs := s.objs[prev := p.(stat := Retired(p.stat))][id := PutNext(s.journal, o, p.stat, ts)],
               names := s.names[name := Found(id)],
               reqs := s.reqs[rid := s.reqs[rid].(pc := Confirming(id))],
               decided := t.decided, ends := t.ends, cuts := t.cuts)
    && (forall n :: Lookup(Fold(c, origin, t.decided), n) ==
          if n == name
          then Some(Version(ts, o.stat.deleted, s.journal.recs[o.inode].data, s.journal.recs[o.inode].header))
          else Lookup(Fold(c, origin, s.decided), n))
  }

  /** What the later lemmas need of the transaction. */
  lemma HandJournal(c: Config, origin: Names, s: Sys, t: Sys, rid: nat, id: nat, prev: nat, ts: nat)
    requires Inv(c, origin, s) && Hands(c, origin, s, t, rid, id, prev, ts)
    ensures var o, p := s.objs[id], s.objs[prev];
            && MicroInv(s.journal) && JournalInv(t.journal) && MicroInv(t.journal)
            && PutEffect(s.journal, t.journal, o, p, ts)
            && SameExcept(s.journal, t.journal, Touched(o, p))
            && 0 < |s.journal.stores| <= |t.journal.stores|
            && ObjOk(t.journal, t.objs[id]) && ObjOk(t.journal, t.objs[prev])
            && t.journal.recs == s.journal.recs[o.inode := s.journal.recs[o.inode].(ts := Some(ts), deleted := o.stat.deleted, handed := Some(Length(t.journal)))]
            && s.journal.recs[o.inode].handed.None?
            && t.objs[id].done == Length(t.journal)
            && t.objs[id].stat == Settled(o.stat, ts) && t.objs[id].inode == o.inode && t.objs[prev].inode == p.inode
  {
    hide Inv, JournalInv, MicroInv, Fold, ObjOk, SameExcept, PutStore, HandOver.NoOtherEstimate, PutJournal;
    InvParts(c, origin, s);
    PutOk(s.journal, s.objs[id], s.objs[prev], ts);
    PutPre(s.journal, s.objs[id], s.objs[prev], ts);
    SameLonger(s.journal, t.journal, Touched(s.objs[id], s.objs[prev]));
  }

  lemma SameLonger(j: Journal, k: Journal, inodes: set<nat>)
    requires SameExcept(j, k, inodes)
    ensures 0 < |j.stores| <= |k.stores|
  {
  }

  lemma HandGrows(c: Config, origin: Names, s: Sys, t: Sys, rid: nat, id: nat, prev: nat, ts: nat)
    requires Inv(c, origin, s) && Hands(c, origin, s, t, rid, id, prev, ts)
    ensures Grows(s, t) && Length(s.journal) <= Length(t.journal) && t.applied < |t.journal.stores|
    ensures JournalOk(c, t)
  {
    hide Inv, JournalInv, MicroInv, Fold, ObjOk, PutStore, HandOver.NoOtherEstimate, PutJournal, CanPut, ObjsOk, TempsOk, NamesOk, ReqsOk, PutEffect;
    InvParts(c, origin, s);
    HandJournal(c, origin, s, t, rid, id, prev, ts);
    RecBounds(s.journal, s.objs[id].inode);
    RecBounds(t.journal, s.objs[id].inode);
  }

  // ----- the Objects -----

  lemma TakerFine(c: Config, origin: Names, s: Sys, t: Sys, rid: nat, id: nat, prev: nat, ts: nat)
    requires Inv(c, origin, s) && Hands(c, origin, s, t, rid, id, prev, ts)
    ensures |t.journal.stores| > 0 && ObjFine(t, id)
  {
    hide Inv, JournalInv, MicroInv, Fold, ObjOk, PutStore, HandOver.NoOtherEstimate, PutJournal, CanPut, ObjsOk, TempsOk, NamesOk, ReqsOk, PutEffect, SameExcept;
    InvParts(c, origin, s);
    HandJournal(c, origin, s, t, rid, id, prev, ts);
    RecBounds(t.journal, s.objs[id].inode);
    ObjIsFine(c, origin, s, id);
    assert Confirms(t.reqs[rid], id, t.objs[id].done);
  }

  lemma LeaverFine(c: Config, origin: Names, s: Sys, t: Sys, rid: nat, id: nat, prev: nat, ts: nat)
    requires Inv(c, origin, s) && Hands(c, origin, s, t, rid, id, prev, ts)
    ensures |t.journal.stores| > 0 && ObjFine(t, prev)
  {
    hide Inv, JournalInv, MicroInv, Fold, ObjOk, PutStore, HandOver.NoOtherEstimate, PutJournal, ObjsOk, TempsOk, NamesOk, ReqsOk, PutEffect, SameExcept;
    InvParts(c, origin, s);
    HandJournal(c, origin, s, t, rid, id, prev, ts);
    HandGrows(c, origin, s, t, rid, id, prev, ts);
    DifferentInode(c, origin, s, id, prev);
    ObjIsFine(c, origin, s, prev);
  }

  /** Only one Object of a name is ACTIVE, and the map holds it. */
  lemma OtherActive(c: Config, origin: Names, s: Sys, name: string, prev: nat, q: nat)
    requires Inv(c, origin, s) && name in s.names && s.names[name] == Found(prev) && q in s.objs && q != prev
    ensures s.objs[q].stat.state == Active ==> s.objs[q].stat.name != name
  {
    assert ObjFine(s, q);
  }

  lemma BystanderFine(c: Config, origin: Names, s: Sys, t: Sys, rid: nat, id: nat, prev: nat, ts: nat, q: nat)
    requires Inv(c, origin, s) && Hands(c, origin, s, t, rid, id, prev, ts) && q in s.objs && q != id && q != prev
    ensures |t.journal.stores| > 0 && ObjFine(t, q)
  {
    hide Inv, JournalInv, MicroInv, Fold, ObjOk, PutStore, HandOver.NoOtherEstimate, PutJournal, CanPut, ObjsOk, TempsOk, NamesOk, ReqsOk, PutEffect, SameExcept, ObjFine, Grows, JournalOk;
    InvParts(c, origin, s);
    HandJournal(c, origin, s, t, rid, id, prev, ts);
    HandGrows(c, origin, s, t, rid, id, prev, ts);
    Separates(c, origin, s, t, rid, id, prev, ts, q);
    ObjIsFine(c, origin, s, q);
    ObjOkOf(c, origin, s, q);
    OtherActive(c, origin, s, s.reqs[rid].name, prev, q);
    SameKeepsObj(s.journal, t.journal, Touched(s.objs[id], s.objs[prev]), s.objs[q]);
    CarriedWaiting(s, t, rid, q);
  }

  lemma Separates(c: Config, origin: Names, s: Sys, t: Sys, rid: nat, id: nat, prev: nat, ts: nat, q: nat)
    requires Inv(c, origin, s) && Hands(c, origin, s, t, rid, id, prev, ts) && q in s.objs && q != id && q != prev
    ensures HasInode(s.objs[q]) ==> s.objs[q].inode != s.objs[id].inode && s.objs[q].inode !in Touched(s.objs[id], s.objs[prev])
  {
    hide Inv, JournalInv, MicroInv, Fold, ObjOk, PutStore, HandOver.NoOtherEstimate, PutJournal;
    DifferentInode(c, origin, s, id, q);
    DifferentInode(c, origin, s, prev, q);
  }

  lemma HandInodes(c: Config, origin: Names, s: Sys, t: Sys, rid: nat, id: nat, prev: nat, ts: nat)
    requires Inv(c, origin, s) && Hands(c, origin, s, t, rid, id, prev, ts)
    ensures forall a, b :: a in t.objs && b in t.objs && a != b && HasInode(t.objs[a]) && HasInode(t.objs[b]) ==>
              t.objs[a].inode != t.objs[b].inode
  {
    hide Inv, JournalInv, MicroInv, Fold, ObjOk, PutStore, HandOver.NoOtherEstimate, PutJournal;
    forall a, b | a in t.objs && b in t.objs && a != b && HasInode(t.objs[a]) && HasInode(t.objs[b])
      ensures t.objs[a].inode != t.objs[b].inode
    {
      DifferentInode(c, origin, s, a, b);
    }
  }

  lemma HandObjs(c: Config, origin: Names, s: Sys, t: Sys, rid: nat, id: nat, prev: nat, ts: nat)
    requires Inv(c, origin, s) && Hands(c, origin, s, t, rid, id, prev, ts)
    ensures |t.journal.stores| > 0 && ObjsOk(t)
  {
    hide Inv, ObjFine, JournalInv, MicroInv, Fold, ObjOk, PutStore, HandOver.NoOtherEstimate, PutJournal, CanPut;
    TakerFine(c, origin, s, t, rid, id, prev, ts);
    LeaverFine(c, origin, s, t, rid, id, prev, ts);
    HandInodes(c, origin, s, t, rid, id, prev, ts);
    forall q | q in t.objs ensures ObjFine(t, q) {
      if q != id && q != prev { BystanderFine(c, origin, s, t, rid, id, prev, ts, q); }
    }
  }

  // ----- the map and the temporary space -----

  lemma HandOther(c: Config, origin: Names, s: Sys, t: Sys, rid: nat, id: nat, prev: nat, ts: nat, name: string)
    requires Inv(c, origin, s) && Hands(c, origin, s, t, rid, id, prev, ts) && name != s.reqs[rid].name
    ensures |s.journal.stores| > 0 && |t.journal.stores| > 0
    ensures Ordinary(name) in Virtual(t.journal) <==> Ordinary(name) in Virtual(s.journal)
    ensures Ordinary(name) in Virtual(s.journal) ==> Virtual(t.journal)[Ordinary(name)] == Virtual(s.journal)[Ordinary(name)]
    ensures Shows(Virtual(t.journal), name) == Shows(Virtual(s.journal), name)
  {
    hide Inv, JournalInv, MicroInv, Fold, ObjOk, PutStore, HandOver.NoOtherEstimate, PutJournal, CanPut, PutEffect, SameExcept;
    HandJournal(c, origin, s, t, rid, id, prev, ts);
    PutHolders(s.journal, t.journal, s.objs[id], s.objs[prev], ts, name);
  }

  lemma HandSlot(c: Config, origin: Names, s: Sys, t: Sys, rid: nat, id: nat, prev: nat, ts: nat, name: string)
    requires Inv(c, origin, s) && Hands(c, origin, s, t, rid, id, prev, ts) && name in t.names
    ensures |t.journal.stores| > 0 && SlotFine(t, name)
  {
    hide Inv, JournalInv, MicroInv, Fold, ObjOk, PutStore, HandOver.NoOtherEstimate, PutJournal, PutEffect, SameExcept, ObjsOk, TempsOk, ReqsOk, NamesOk, JournalOk;
    InvParts(c, origin, s);
    HandJournal(c, origin, s, t, rid, id, prev, ts);
    if name != s.reqs[rid].name {
      SlotIsFine(s, name);
      HandOther(c, origin, s, t, rid, id, prev, ts, name);
    }
  }

  /** The holder's record is the same afterwards, unless it is the new Object's. */
  lemma HolderNotNew(j: Journal, o: Obj, name: string)
    requires JournalInv(j) && ObjOk(j, o) && o.stat.state == InWrite && Ordinary(name) in Virtual(j)
    ensures Virtual(j)[Ordinary(name)].inode != o.inode
  {
    if Virtual(j)[Ordinary(name)].inode == o.inode {
      OneVirtualPlace(j, Ordinary(name), AddressOf(o.stat));
    }
  }

  lemma HandNames(c: Config, origin: Names, s: Sys, t: Sys, rid: nat, id: nat, prev: nat, ts: nat)
    requires Inv(c, origin, s) && Hands(c, origin, s, t, rid, id, prev, ts)
    ensures |t.journal.stores| > 0 && NamesOk(t)
  {
    hide Inv, JournalInv, MicroInv, Fold, ObjOk, PutStore, HandOver.NoOtherEstimate, PutJournal, PutEffect, SameExcept, ObjsOk, TempsOk, ReqsOk, JournalOk, SlotFine, Quiescent;
    InvParts(c, origin, s);
    HandJournal(c, origin, s, t, rid, id, prev, ts);
    forall name | name in t.names ensures SlotFine(t, name) {
      HandSlot(c, origin, s, t, rid, id, prev, ts, name);
    }
    forall name | name !in t.names || t.names[name].Searching? ensures Quiescent(t, name) {
      NoSlot(s, name);
      HandOther(c, origin, s, t, rid, id, prev, ts, name);
      if Ordinary(name) in Virtual(s.journal) {
        HolderNotNew(s.journal, s.objs[id], name);
      }
      StillQuiescent(s, t, name);
    }
  }

  lemma HandTemp(c: Config, origin: Names, s: Sys, t: Sys, rid: nat, id: nat, prev: nat, ts: nat, at: Address)
    requires Inv(c, origin, s) && Hands(c, origin, s, t, rid, id, prev, ts)
    requires |t.journal.stores| > 0 && at in Virtual(t.journal) && at.temp
    ensures TempOwned(t, at)
  {
    hide Inv, JournalInv, MicroInv, Fold, ObjOk, PutStore, HandOver.NoOtherEstimate, PutJournal, PutEffect, ObjsOk, ReqsOk, NamesOk, JournalOk;
    InvParts(c, origin, s);
    HandJournal(c, origin, s, t, rid, id, prev, ts);
    var i := Virtual(t.journal)[at].inode;
    if i == s.objs[id].inode {
      ActiveNotTemp(t.journal, t.objs[id], at);
    } else if i in Touched(s.objs[id], s.objs[prev]) {
      assert prev in t.objs && t.objs[prev].stat.state == Old && t.objs[prev].inode == i;
    } else {
      assert Virtual(t.journal)[at] == Virtual(s.journal)[at];
      assert TempOwned(s, at);
      var q :| q in s.objs && s.objs[q].stat.state in {InWrite, Old} && s.objs[q].inode == i;
      assert q in t.objs && t.objs[q] == s.objs[q];
    }
  }

  // ----- the requests -----

  /** Only the request that puts an Object being written holds it. */
  lemma OnlyWriter(c: Config, s: Sys, r: nat, id: nat)
    requires s.applied < |s.journal.stores| && r in s.reqs && ReqFine(c, s, r) && id in Pins(s.reqs[r])
    requires id in s.objs && s.objs[id].stat.state in {PreWrite, InWrite}
    ensures s.reqs[r].task.Put? && s.reqs[r].task.id == id && !Decided(s.reqs[r])
  {
    hide MetaCallFine, BodyCallFine, Slice;
  }

  lemma NotPinned(c: Config, origin: Names, s: Sys, t: Sys, rid: nat, id: nat, prev: nat, ts: nat, r: nat)
    requires Inv(c, origin, s) && Hands(c, origin, s, t, rid, id, prev, ts) && r in s.reqs && r != rid
    requires forall q :: q in s.reqs && q != rid && s.reqs[q].task.Put? && !Decided(s.reqs[q]) ==> s.reqs[q].task.id != id
    ensures id !in Pins(s.reqs[r])
  {
    hide Inv, JournalInv, MicroInv, Fold, ObjOk, PutStore, HandOver.NoOtherEstimate, PutJournal, ReqFine, Pins;
    ReqIsFine(c, origin, s, r);
    if id in Pins(s.reqs[r]) {
      OnlyWriter(c, s, r, id);
    }
  }

  lemma HandCarried(c: Config, origin: Names, s: Sys, t: Sys, rid: nat, id: nat, prev: nat, ts: nat, q: nat)
    requires Inv(c, origin, s) && Hands(c, origin, s, t, rid, id, prev, ts) && q in s.objs && q != id
    ensures Carried(s, t, q)
  {
    hide Inv, JournalInv, MicroInv, Fold, ObjOk, PutStore, HandOver.NoOtherEstimate, PutJournal, PutEffect, SameExcept;
    HandJournal(c, origin, s, t, rid, id, prev, ts);
    DifferentInode(c, origin, s, id, q);
  }

  lemma HandReq(c: Config, origin: Names, s: Sys, t: Sys, rid: nat, id: nat, prev: nat, ts: nat, r: nat)
    requires Inv(c, origin, s) && Hands(c, origin, s, t, rid, id, prev, ts) && r in s.reqs
    requires forall q :: q in s.reqs && q != rid && s.reqs[q].task.Put? && !Decided(s.reqs[q]) ==> s.reqs[q].task.id != id
    ensures t.applied < |t.journal.stores| && r in t.reqs && ReqFine(c, t, r)
  {
    hide Inv, JournalInv, MicroInv, Fold, ObjOk, PutStore, HandOver.NoOtherEstimate, PutJournal, PutEffect, SameExcept, Grows, JournalOk, CanPut, ObjsOk, NamesOk, TempsOk;
    InvParts(c, origin, s);
    HandJournal(c, origin, s, t, rid, id, prev, ts);
    HandGrows(c, origin, s, t, rid, id, prev, ts);
    if r != rid {
      hide ReqFine, Pins;
      NotPinned(c, origin, s, t, rid, id, prev, ts, r);
      forall q | q in Pins(s.reqs[r]) && q in s.objs ensures Carried(s, t, q) {
        HandCarried(c, origin, s, t, rid, id, prev, ts, q);
      }
      forall q | q in Pins(s.reqs[r]) && q in s.objs && s.objs[q].stat.state in {Active, Old}
        ensures s.objs[q].inode in s.journal.recs && s.journal.recs[s.objs[q].inode].handed.Some?
        ensures s.journal.recs[s.objs[q].inode].name == s.objs[q].stat.name
      {
        PinnedFacts(c, origin, s, q);
      }
      ReqIsFine(c, origin, s, r);
      CarriedReq(c, s, t, r);
    }
  }

  lemma HandReqs(c: Config, origin: Names, s: Sys, t: Sys, rid: nat, id: nat, prev: nat, ts: nat)
    requires Inv(c, origin, s) && Hands(c, origin, s, t, rid, id, prev, ts)
    requires forall q :: q in s.reqs && q != rid && s.reqs[q].task.Put? && !Decided(s.reqs[q]) ==> s.reqs[q].task.id != id
    ensures t.applied < |t.journal.stores| && ReqsOk(c, t)
  {
    hide Inv, JournalInv, MicroInv, Fold, ObjOk, PutStore, HandOver.NoOtherEstimate, PutJournal, JournalOk, CanPut, ObjsOk, NamesOk, TempsOk, ReqFine;
    InvParts(c, origin, s);
    forall r | r in t.reqs ensures t.applied < |t.journal.stores| && ReqFine(c, t, r) {
      HandReq(c, origin, s, t, rid, id, prev, ts, r);
    }
    HandReq(c, origin, s, t, rid, id, prev, ts, rid);
  }

  // ----- the specification -----

  lemma HandSpec(c: Config, origin: Names, s: Sys, t: Sys, rid: nat, id: nat, prev: nat, ts: nat)
    requires Inv(c, origin, s) && Hands(c, origin, s, t, rid, id, prev, ts)
    ensures |t.journal.stores| > 0 && SpecOk(c, origin, t)
  {
    hide Inv, JournalInv, MicroInv, Fold, ObjOk, PutStore, HandOver.NoOtherEstimate, PutJournal, PutEffect, SameExcept, CanPut, Shows;
    HandJournal(c, origin, s, t, rid, id, prev, ts);
    ShowsActive(t.journal, t.objs[id]);
    forall n ensures Shows(Virtual(t.journal), n) == Lookup(Fold(c, origin, t.decided), n) {
      if n != s.reqs[rid].name {
        SpecAt(c, origin, s, n);
        HandOther(c, origin, s, t, rid, id, prev, ts, n);
      }
    }
  }

  lemma HandsOk(c: Config, origin: Names, s: Sys, t: Sys, rid: nat, id: nat, prev: nat, ts: nat)
    requires Inv(c, origin, s) && Hands(c, origin, s, t, rid, id, prev, ts)
    requires forall q :: q in s.reqs && q != rid && s.reqs[q].task.Put? && !Decided(s.reqs[q]) ==> s.reqs[q].task.id != id
    ensures Inv(c, origin, t)
  {
    HandGrows(c, origin, s, t, rid, id, prev, ts);
    HandObjs(c, origin, s, t, rid, id, prev, ts);
    forall at | at in Virtual(t.journal) && at.temp ensures TempOwned(t, at) {
      HandTemp(c, origin, s, t, rid, id, prev, ts, at);
    }
    assert TempsOk(t);
    HandNames(c, origin, s, t, rid, id, prev, ts);
    HandReqs(c, origin, s, t, rid, id, prev, ts);
    HandSpec(c, origin, s, t, rid, id, prev, ts);
    hide JournalOk, ObjsOk, TempsOk, NamesOk, ReqsOk, SpecOk, Hands, Grows, TempOwned;
  }

  // ----- the shape of what is marked -----

  lemma MarkNewShape(c: Config, origin: Names, s: Sys, id: nat, header: Bytes, name: string)
    requires Inv(c, origin, s) && id in s.objs && s.objs[id].stat.state in {PreWrite, InWrite}
    ensures var m := MarkNew(s, id, header, name);
            && m.objs == s.objs[id := m.objs[id]]
            && m.objs[id].inode == s.objs[id].inode && m.objs[id].stat == StartedStat(s.objs[id].stat)
            && m.objs[id].inode in s.journal.recs && m.objs[id].inode in m.journal.recs
            && m.journal.recs == s.journal.recs[m.objs[id].inode := s.journal.recs[m.objs[id].inode].(header := header, marked := m.journal.recs[m.objs[id].inode].marked)]
  {
    hide Inv, JournalInv, MicroInv, ObjOk, Marked, SameExcept, Quiet;
    InvParts(c, origin, s);
    ObjOkOf(c, origin, s, id);
    hide ObjsOk, NamesOk, TempsOk, ReqsOk, JournalOk;
    MarkedShape(s.journal, s.objs[id], header);
    MarkedOk(s.journal, s.objs[id], header);
    ObjInode(s.journal, s.objs[id]);
  }

  lemma NoEstimateStill(j: Journal, k: Journal, inode: nat, name: string, ts: nat)
    requires inode in j.recs && inode in k.recs && k.recs == j.recs[inode := k.recs[inode]]
    requires Device.NoOtherEstimate(j.recs, inode, name, ts)
    ensures HandOver.NoOtherEstimate(k, inode, name, ts)
  {
  }

  /** The new Object has its metadata, and can be put. */
  lemma MarkedReady(c: Config, origin: Names, s: Sys, id: nat, header: Bytes, name: string, prev: nat, got: Option<Got>, ts: nat)
    requires Inv(c, origin, s) && Sees(c, origin, s, name, prev, got)
    requires id in s.objs && s.objs[id].stat.state in {PreWrite, InWrite} && s.objs[id].stat.name == name
    requires Device.NoOtherEstimate(s.journal.recs, s.objs[id].inode, name, ts)
    requires s.objs[prev].stat.ts < ts
    ensures var m := MarkNew(s, id, header, name);
            && id != prev && Inv(c, origin, m) && CanPut(m.journal, m.objs[id], m.objs[prev], ts)
  {
    hide Inv, JournalInv, MicroInv, Fold, ObjOk, MarkNew, HandOver.NoOtherEstimate, Device.NoOtherEstimate;
    var m := MarkNew(s, id, header, name);
    MarkNewOk(c, origin, s, id, header, name);
    MarkNewShape(c, origin, s, id, header, name);
    MarkNewNames(s, id, header, name);
    InvBasics(c, origin, m);
    ObjOkOf(c, origin, m, id);
    ObjOkOf(c, origin, m, prev);
    NoEstimateStill(s.journal, m.journal, s.objs[id].inode, name, ts);
    SlotState(c, origin, m, name);
  }

  lemma MarkNewNames(s: Sys, id: nat, header: Bytes, name: string)
    requires id in s.objs
    ensures var m := MarkNew(s, id, header, name);
            m == s.(journal := m.journal, objs := m.objs, cuts := m.cuts)
  {
  }

  // ----- the decisions themselves -----

  /** An event the Device can decide for a put or delete of `id` on what it has seen. */
  ghost predicate Handing(c: Config, s: Sys, id: nat, got: Option<Got>, ts: nat, header: Bytes, event: Event)
    requires id in s.objs
  {
    && event.HandedName? && event.name == s.objs[id].stat.name && event.ts == ts && event.deleted == s.objs[id].stat.deleted
    && s.objs[id].inode in s.journal.recs && event.data == s.journal.recs[s.objs[id].inode].data
    && header == c.encode(Metadata.Put(got, event.meta))
  }

  lemma HandedSpec(c: Config, origin: Names, s: Sys, id: nat, prev: nat, got: Option<Got>, ts: nat, header: Bytes, event: Event)
    requires id in s.objs && Handing(c, s, id, got, ts, header, event)
    requires Sees(c, origin, s, s.objs[id].stat.name, prev, got) && ts > s.objs[prev].stat.ts
    ensures forall n :: Lookup(Fold(c, origin, s.decided + [event]), n) ==
              if n == s.objs[id].stat.name
              then Some(Version(ts, s.objs[id].stat.deleted, s.journal.recs[s.objs[id].inode].data, header))
              else Lookup(Fold(c, origin, s.decided), n)
  {
    hide Fold;
    FoldAppend(c, origin, s.decided, event);
  }

  lemma LostSpec(c: Config, origin: Names, s: Sys, id: nat, prev: nat, got: Option<Got>, ts: nat, header: Bytes, event: Event)
    requires id in s.objs && Handing(c, s, id, got, ts, header, event)
    requires Sees(c, origin, s, s.objs[id].stat.name, prev, got) && ts <= s.objs[prev].stat.ts
    ensures SpecStep(c, Fold(c, origin, s.decided), event) == Fold(c, origin, s.decided)
  {
    hide Fold;
  }

  lemma HandNameHands(c: Config, origin: Names, s: Sys, rid: nat, id: nat, prev: nat, got: Option<Got>, ts: nat, header: Bytes, event: Event)
    requires Inv(c, origin, s) && rid in s.reqs && !Decided(s.reqs[rid]) && !s.reqs[rid].task.Get?
    requires s.reqs[rid].task.Put? ==> s.reqs[rid].task.id == id
    requires id in s.objs && s.objs[id].stat.state in {PreWrite, InWrite} && s.objs[id].stat.name == s.reqs[rid].name
    requires Sees(c, origin, s, s.reqs[rid].name, prev, got) && Handing(c, s, id, got, ts, header, event)
    requires Device.NoOtherEstimate(s.journal.recs, s.objs[id].inode, s.reqs[rid].name, ts) && ts > s.objs[prev].stat.ts
    ensures var m := MarkNew(s, id, header, s.reqs[rid].name);
            Inv(c, origin, m) && Hands(c, origin, m, HandName(s, rid, id, prev, ts, header, event), rid, id, prev, ts)
  {
    hide Inv, Fold, Sees, MicroInv, JournalInv, CanPut, Device.NoOtherEstimate;
    MarkedReady(c, origin, s, id, header, s.reqs[rid].name, prev, got, ts);
    MarkNewShape(c, origin, s, id, header, s.reqs[rid].name);
    HandedSpec(c, origin, s, id, prev, got, ts, header, event);
    HandNameShape(c, origin, s, rid, id, prev, got, ts, header, event);
    hide HandName, MarkNew;
  }

  /** HandName is MarkNew and then the put. */
  lemma HandNameShape(c: Config, origin: Names, s: Sys, rid: nat, id: nat, prev: nat, got: Option<Got>, ts: nat, header: Bytes, event: Event)
    requires rid in s.reqs && id in s.objs && Sees(c, origin, s, s.reqs[rid].name, prev, got) && id != prev
    ensures var m := MarkNew(s, id, header, s.reqs[rid].name);
            var t := HandName(s, rid, id, prev, ts, header, event);
            var name, o, p := s.reqs[rid].name, m.objs[id], s.objs[prev];
            && m == s.(journal := m.journal, objs := m.objs, cuts := m.cuts) && prev in m.objs && m.objs[prev] == p
            && name in s.names && s.names[name] == Found(prev)
            && t.decided == s.decided + [event]
            && if ts <= p.stat.ts then t == At(Ruled(m, event), rid, Finished(Conflict))
               else
                 t == m.(journal := PutJournal(m.journal, o, p.stat, ts),
                         objs := m.objs[prev := p.(stat := Retired(p.stat))][id := PutNext(m.journal, o, p.stat, ts)],
                         names := s.names[name := Found(id)],
                         reqs := s.reqs[rid := s.reqs[rid].(pc := Confirming(id))],
                         decided := t.decided, ends := t.ends, cuts := t.cuts)
  {
    hide Fold, Marked, PutJournal, PutNext;
  }

  lemma HandNameOk(c: Config, origin: Names, s: Sys, rid: nat, id: nat, prev: nat, got: Option<Got>, ts: nat, header: Bytes, event: Event)
    requires Inv(c, origin, s) && rid in s.reqs && !Decided(s.reqs[rid]) && !s.reqs[rid].task.Get?
    requires s.reqs[rid].task.Put? ==> s.reqs[rid].task.id == id
    requires forall q :: q in s.reqs && q != rid && s.reqs[q].task.Put? && !Decided(s.reqs[q]) ==> s.reqs[q].task.id != id
    requires id in s.objs && s.objs[id].stat.state in {PreWrite, InWrite} && s.objs[id].stat.name == s.reqs[rid].name
    requires Sees(c, origin, s, s.reqs[rid].name, prev, got) && Handing(c, s, id, got, ts, header, event)
    requires Device.NoOtherEstimate(s.journal.recs, s.objs[id].inode, s.reqs[rid].name, ts)
    ensures Inv(c, origin, HandName(s, rid, id, prev, ts, header, event))
  {
    hide Inv, Fold, JournalInv, MicroInv, Hands, MarkNew, Device.NoOtherEstimate, HandName, SpecStep;
    var m := MarkNew(s, id, header, s.reqs[rid].name);
    MarkNewOk(c, origin, s, id, header, s.reqs[rid].name);
    HandNameShape(c, origin, s, rid, id, prev, got, ts, header, event);
    if ts <= s.objs[prev].stat.ts {
      LostSpec(c, origin, s, id, prev, got, ts, header, event);
      RuledOut(c, origin, m, rid, event, Conflict);
    } else {
      HandNameHands(c, origin, s, rid, id, prev, got, ts, header, event);
      HandsOk(c, origin, m, HandName(s, rid, id, prev, ts, header, event), rid, id, prev, ts);
    }
  }

  lemma DecidePutOk(c: Config, origin: Names, s: Sys, rid: nat, prev: nat, got: Option<Got>)
    requires Inv(c, origin, s) && rid in s.reqs && !Decided(s.reqs[rid]) && s.reqs[rid].task.Put?
    requires Sees(c, origin, s, s.reqs[rid].name, prev, got) && s.reqs[rid].task.id in s.objs
    requires Device.NoOtherEstimate(s.journal.recs, s.objs[s.reqs[rid].task.id].inode, s.reqs[rid].name, s.reqs[rid].task.ts)
    ensures Inv(c, origin, DecidePut(c, s, rid, prev, got))
  {
    hide Inv, Fold, JournalInv, MicroInv, MarkNew, Device.NoOtherEstimate, HandName, Sees, ObjOk;
    var r := s.reqs[rid];
    InvParts(c, origin, s);
    ReqIsFine(c, origin, s, rid);
    ObjOkOf(c, origin, s, r.task.id);
    ObjInode(s.journal, s.objs[r.task.id]);
    hide ObjsOk, TempsOk, NamesOk, JournalOk, MetaCallFine, BodyCallFine;
    HandNameOk(c, origin, s, rid, r.task.id, prev, got, r.task.ts, c.encode(Metadata.Put(got, r.task.meta)),
               HandedName(rid, r.name, r.task.ts, false, s.journal.recs[s.objs[r.task.id].inode].data, r.task.meta));
  }

  lemma EnteredSees(c: Config, origin: Names, s: Sys, name: string, estimate: nat, prev: nat, got: Option<Got>)
    requires Inv(c, origin, s) && Sees(c, origin, s, name, prev, got)
    ensures Sees(c, origin, Entered(s, name, estimate, true), name, prev, got)
    ensures s.next !in s.objs && s.next !in s.journal.recs
  {
    hide Inv, Fold;
    NextIsNew(c, origin, s);
  }

  lemma PutsKnown(c: Config, origin: Names, s: Sys, q: nat)
    requires Inv(c, origin, s) && q in s.reqs && s.reqs[q].task.Put? && !Decided(s.reqs[q])
    ensures s.reqs[q].task.id in s.objs
  {
    hide Inv, MetaCallFine, BodyCallFine;
    ReqIsFine(c, origin, s, q);
  }

  lemma DecideDeleteOk(c: Config, origin: Names, s: Sys, rid: nat, prev: nat, got: Option<Got>, estimate: nat)
    requires Inv(c, origin, s) && rid in s.reqs && !Decided(s.reqs[rid]) && s.reqs[rid].task.Delete?
    requires Sees(c, origin, s, s.reqs[rid].name, prev, got)
    requires Device.FreshStamp(s.journal.recs, s.reqs[rid].name, estimate)
    requires Device.NoOtherEstimate(s.journal.recs, s.next, s.reqs[rid].name, s.reqs[rid].task.ts)
    ensures Inv(c, origin, DecideDelete(c, s, rid, prev, got, estimate))
  {
    hide Inv, Fold, JournalInv, MicroInv, MarkNew, HandName, Sees, ObjOk;
    var r := s.reqs[rid];
    var t := Entered(s, r.name, estimate, true);
    EnteredOk(c, origin, s, r.name, estimate, true);
    EnteredSees(c, origin, s, r.name, estimate, prev, got);
    forall q | q in s.reqs && q != rid && s.reqs[q].task.Put? && !Decided(s.reqs[q]) ensures s.reqs[q].task.id != s.next {
      PutsKnown(c, origin, s, q);
    }
    HandNameOk(c, origin, t, rid, s.next, prev, got, r.task.ts, c.encode(Metadata.Delete(got, r.task.ts, r.task.tombstone)),
               HandedName(rid, r.name, r.task.ts, true, [], TombstoneHeaders(r.task.ts, r.task.tombstone)));
  }

  /** Every decision keeps the invariant. */
  lemma DecideOk(c: Config, origin: Names, s: Sys, rid: nat, estimate: nat)
    requires Inv(c, origin, s) && WellFormed(s) && rid in s.reqs && Deciding(c, s, rid).Some?
    requires (s.reqs[rid].task.Put? ==> s.reqs[rid].task.id in s.objs) && Separate(s, rid, estimate)
    ensures var d := Deciding(c, s, rid).value;
            d.0 in s.objs && !s.reqs[rid].task.Get? && Inv(c, origin, Decide(c, s, rid, d.0, d.1, estimate))
  {
    hide Inv, Fold, WellFormed, Device.NoOtherEstimate, Device.FreshStamp;
    var (prev, got) := Deciding(c, s, rid).value;
    DecidingSees(c, origin, s, rid);
    hide Deciding, DecidePut, DecideDelete, DecidePost;
    match s.reqs[rid].task
    case Put(_, _, _) => DecidePutOk(c, origin, s, rid, prev, got);
    case Delete(_, _) => DecideDeleteOk(c, origin, s, rid, prev, got, estimate);
    case Post(_) => DecidePostOk(c, origin, s, rid, prev, got);
  }
}
