/** Decisions: a put, a delete or a POST changes exactly what one step of the
    specification changes. */
module DeviceDecide {
  import opened Base
  import opened Engine
  import opened Journals
  import opened Objects
  import opened Transactions
  import HandOver
  import opened Metadata
  import opened Device
  import opened DeviceSpec
  import opened DeviceReads
  import opened DeviceFrame
  import opened DeviceSteps
  import opened DeviceWrites

  // ----- what a decision is taken on -----

  /** The Object in the map and the metadata read are those of the version that
      virtually holds the name. */
  ghost predicate Sees(c: Config, origin: Names, s: Sys, name: string, prev: nat, got: Option<Got>) {
    && name in s.names && s.names[name] == Found(prev) && prev in s.objs
    && s.objs[prev].stat.state in {Missing, Active} && s.objs[prev].stat.name == name
    && var cur := Lookup(Fold(c, origin, s.decided), name);
    && got == GotOf(c, cur)
    && (s.objs[prev].stat.state == Missing ==> cur == None && s.objs[prev].stat.ts == 0)
    && (s.objs[prev].stat.state == Active ==>
          && s.objs[prev].inode in s.journal.recs
          && var r := s.journal.recs[s.objs[prev].inode];
          && cur == Some(Version(s.objs[prev].stat.ts, s.objs[prev].stat.deleted, r.data, r.header)))
  }

  lemma ShowsActive(j: Journal, o: Obj)
    requires MicroInv(j) && ObjOk(j, o) && o.stat.state == Active
    ensures o.inode in j.recs
    ensures Shows(Virtual(j), o.stat.name) == Some(Version(o.stat.ts, o.stat.deleted, j.recs[o.inode].data, j.recs[o.inode].header))
  {
    VirtualSound(j, AddressOf(o.stat));
  }

  lemma ShowsMissing(j: Journal, name: string)
    requires |j.stores| > 0 && Ordinary(name) !in Virtual(j)
    ensures Shows(Virtual(j), name) == None
  {
  }

  lemma SpecAt(c: Config, origin: Names, s: Sys, name: string)
    requires Inv(c, origin, s)
    ensures |s.journal.stores| > 0 && Shows(Virtual(s.journal), name) == Lookup(Fold(c, origin, s.decided), name)
  {
  }

  lemma SlotState(c: Config, origin: Names, s: Sys, name: string)
    requires Inv(c, origin, s) && name in s.names && s.names[name].Found?
    ensures s.names[name].id in s.objs
    ensures var o := s.objs[s.names[name].id];
            && o.stat.name == name && o.stat.state in {Missing, Active}
            && (o.stat.state == Missing ==> |s.journal.stores| > 0 && Ordinary(name) !in Virtual(s.journal) && o.stat.ts == 0)
  {
    assert SlotFine(s, name);
    assert ObjFine(s, s.names[name].id);
  }

  /** A metadata read that ends with the version it began with returns the latest metadata. */
  lemma ReadIsWhole(c: Config, s: Sys, rid: nat)
    requires s.applied < |s.journal.stores| && rid in s.reqs && ReqFine(c, s, rid)
    requires s.reqs[rid].pc.Reading? && s.reqs[rid].pc.call.MetaBack?
    requires s.reqs[rid].pc.id in s.objs && s.objs[s.reqs[rid].pc.id].version == s.reqs[rid].pc.version
    requires |s.reqs[rid].pc.call.chunk| < c.chunk
    ensures s.objs[s.reqs[rid].pc.id].inode in s.journal.recs
    ensures s.reqs[rid].pc.call.data + s.reqs[rid].pc.call.chunk == s.journal.recs[s.objs[s.reqs[rid].pc.id].inode].header
  {
  }

  lemma DecidingSees(c: Config, origin: Names, s: Sys, rid: nat)
    requires Inv(c, origin, s) && WellFormed(s) && rid in s.reqs && Deciding(c, s, rid).Some?
    ensures var (prev, got) := Deciding(c, s, rid).value; Sees(c, origin, s, s.reqs[rid].name, prev, got)
    ensures !s.reqs[rid].task.Get? && !Decided(s.reqs[rid])
  {
    hide Inv, WellFormed, ReqFine, ObjOk, MicroInv, JournalInv;
    var name := s.reqs[rid].name;
    var (prev, got) := Deciding(c, s, rid).value;
    InvParts(c, origin, s);
    SpecAt(c, origin, s, name);
    SlotState(c, origin, s, name);
    ObjIsFine(c, origin, s, prev);
    ReqIsFine(c, origin, s, rid);
    hide ObjFine, ObjsOk, NamesOk, TempsOk, ReqsOk;
    if s.objs[prev].stat.state == Missing {
      ShowsMissing(s.journal, name);
      NotReading(c, s, rid, prev);
    } else {
      ObjOkOf(c, origin, s, prev);
      ShowsActive(s.journal, s.objs[prev]);
      ReadIsWhole(c, s, rid);
    }
  }

  lemma ObjOkOf(c: Config, origin: Names, s: Sys, id: nat)
    requires Inv(c, origin, s) && id in s.objs
    ensures |s.journal.stores| > 0 && ObjOk(s.journal, s.objs[id])
  {
    assert ObjFine(s, id);
  }

  lemma NotReading(c: Config, s: Sys, rid: nat, id: nat)
    requires s.applied < |s.journal.stores| && rid in s.reqs && ReqFine(c, s, rid)
    requires id in s.objs && s.objs[id].stat.state == Missing
    ensures s.reqs[rid].pc.Reading? ==> s.reqs[rid].pc.id != id
  {
  }

  // ----- decisions that change nothing in the store -----

  function Ruled(s: Sys, event: Event): Sys {
    s.(decided := s.decided + [event], ends := s.ends + [Length(s.journal)])
  }

  lemma RuledOk(c: Config, origin: Names, s: Sys, event: Event)
    requires Inv(c, origin, s)
    requires forall name :: Lookup(SpecStep(c, Fold(c, origin, s.decided), event), name) == Lookup(Fold(c, origin, s.decided), name)
    ensures Inv(c, origin, Ruled(s, event))
  {
    hide SpecStep, Shows, Fold, JournalInv;
    var t := Ruled(s, event);
    FoldAppend(c, origin, s.decided, event);
    assert SpecOk(c, origin, t);
    hide SpecOk;
    InvParts(c, origin, s);
    RuledObjs(s, event);
    RuledNames(s, event);
    SameTemps(s, t);
    RuledReqs(c, s, event);
    hide ObjsOk, NamesOk, TempsOk, ReqsOk;
  }

  lemma RuledObjs(s: Sys, event: Event)
    requires |s.journal.stores| > 0 && ObjsOk(s)
    ensures ObjsOk(Ruled(s, event))
  {
    var t := Ruled(s, event);
    forall id | id in t.objs ensures ObjFine(t, id) {
      assert ObjFine(s, id);
      CarriedObj(s, t, id);
    }
    hide ObjFine;
  }

  lemma RuledNames(s: Sys, event: Event)
    requires |s.journal.stores| > 0 && NamesOk(s)
    ensures NamesOk(Ruled(s, event))
  {
    var t := Ruled(s, event);
    forall name | name in t.names ensures SlotFine(t, name) {
      assert SlotFine(s, name);
    }
    forall name | name !in t.names || t.names[name].Searching? ensures Quiescent(t, name) {
      assert Quiescent(s, name);
    }
  }

  lemma RuledReq(c: Config, s: Sys, event: Event, r: nat)
    requires s.applied < |s.journal.stores| && r in s.reqs && ReqFine(c, s, r)
    ensures ReqFine(c, Ruled(s, event), r)
  {
  }

  lemma RuledReqs(c: Config, s: Sys, event: Event)
    requires s.applied < |s.journal.stores| && ReqsOk(c, s)
    ensures ReqsOk(c, Ruled(s, event))
  {
    hide ReqFine;
    forall r | r in s.reqs ensures ReqFine(c, Ruled(s, event), r) {
      RuledReq(c, s, event, r);
    }
  }

  /** A decision without effect: the request is finished. */
  lemma RuledOut(c: Config, origin: Names, s: Sys, rid: nat, event: Event, outcome: Outcome)
    requires Inv(c, origin, s) && rid in s.reqs && !Decided(s.reqs[rid]) && !outcome.Served?
    requires forall name :: Lookup(SpecStep(c, Fold(c, origin, s.decided), event), name) == Lookup(Fold(c, origin, s.decided), name)
    ensures Inv(c, origin, At(Ruled(s, event), rid, Finished(outcome)))
  {
    hide Inv, SpecStep, Fold;
    RuledOk(c, origin, s, event);
    GiveUpOk(c, origin, Ruled(s, event), rid, outcome);
  }

  // ----- a POST that rewrites the metadata -----

  ghost predicate Reposts(c: Config, origin: Names, s: Sys, t: Sys, rid: nat, prev: nat, header: Bytes) {
    && rid in s.reqs && !Decided(s.reqs[rid]) && s.reqs[rid].task.Post? && prev in s.objs
    && s.objs[prev].stat.state == Active && s.objs[prev].stat.name == s.reqs[rid].name
    && |t.journal.stores| > 0
    && prev in t.objs && t.objs == s.objs[prev := t.objs[prev]]
    && t.reqs == s.reqs[rid := s.reqs[rid].(pc := Confirming(prev))]
    && t == s.(journal := t.journal, objs := t.objs, reqs := t.reqs, decided := t.decided, ends := t.ends, cuts := t.cuts)
    && var o, p := s.objs[prev], t.objs[prev];
    && p == o.(done := Length(t.journal), version := o.version + 1)
    && o.inode in s.journal.recs && o.inode in t.journal.recs
    && JournalInv(t.journal) && Quiet(s.journal, t.journal, {o.inode}) && ObjOk(t.journal, p)
    && t.journal.recs == s.journal.recs[o.inode := s.journal.recs[o.inode].(header := header, marked := t.journal.recs[o.inode].marked)]
    && (forall name :: Lookup(Fold(c, origin, t.decided), name) ==
          if name == s.reqs[rid].name
          then Some(Version(o.stat.ts, o.stat.deleted, s.journal.recs[o.inode].data, header))
          else Lookup(Fold(c, origin, s.decided), name))
  }

  lemma RepostSpec(c: Config, origin: Names, s: Sys, t: Sys, rid: nat, prev: nat, header: Bytes)
    requires Inv(c, origin, s) && Reposts(c, origin, s, t, rid, prev, header)
    ensures SpecOk(c, origin, t)
  {
    var name := s.reqs[rid].name;
    InvParts(c, origin, s);
    QuietMicro(s.journal, t.journal, {s.objs[prev].inode});
    ObjOkOf(c, origin, s, prev);
    hide Inv, MicroInv, JournalInv, Quiet, Fold, ObjOk, ObjsOk, NamesOk, TempsOk, ReqsOk;
    ShowsActive(t.journal, t.objs[prev]);
    forall n ensures Shows(Virtual(t.journal), n) == Lookup(Fold(c, origin, t.decided), n) {
      if n != name {
        SpecAt(c, origin, s, n);
        OtherName(s.journal, t.journal, s.objs[prev], n);
      }
    }
  }

  /** Nothing under another name is touched. */
  lemma OtherName(j: Journal, k: Journal, o: Obj, name: string)
    requires MicroInv(j) && MicroInv(k) && ObjOk(j, o) && o.stat.state == Active && name != o.stat.name
    requires SameExcept(j, k, {o.inode}) && SameHolders(j, k)
    ensures Shows(Virtual(k), name) == Shows(Virtual(j), name)
    ensures Ordinary(name) in Virtual(k) <==> Ordinary(name) in Virtual(j)
    ensures Ordinary(name) in Virtual(j) ==> Virtual(k)[Ordinary(name)] == Virtual(j)[Ordinary(name)] && Virtual(j)[Ordinary(name)].inode != o.inode
  {
    if Ordinary(name) in Virtual(j) {
      VirtualSound(j, Ordinary(name));
    }
    hide MicroInv;
  }

  lemma RepostGrows(c: Config, origin: Names, s: Sys, t: Sys, rid: nat, prev: nat, header: Bytes)
    requires Inv(c, origin, s) && Reposts(c, origin, s, t, rid, prev, header)
    ensures Grows(s, t) && Length(s.journal) <= Length(t.journal) && t.applied < |t.journal.stores|
    ensures JournalOk(c, t)
  {
    hide Inv, MicroInv, JournalInv, Quiet, Fold, ObjOk, ObjsOk, NamesOk, TempsOk, ReqsOk, SameHolders, SameHistory;
    InvParts(c, origin, s);
    QuietMicro(s.journal, t.journal, {s.objs[prev].inode});
    RecBounds(s.journal, s.objs[prev].inode);
    RecBounds(t.journal, s.objs[prev].inode);
  }

  lemma RepostedFine(c: Config, origin: Names, s: Sys, t: Sys, rid: nat, prev: nat, header: Bytes)
    requires Reposts(c, origin, s, t, rid, prev, header) && |s.journal.stores| > 0 && ObjFine(s, prev)
    requires t.journal.recs[s.objs[prev].inode].marked <= Length(t.journal) && Length(s.journal) <= Length(t.journal)
    ensures |t.journal.stores| > 0 && ObjFine(t, prev)
  {
    hide JournalInv, Quiet, Fold, ObjOk;
    assert Confirms(t.reqs[rid], prev, t.objs[prev].done);
  }

  lemma RepostObj(c: Config, origin: Names, s: Sys, t: Sys, rid: nat, prev: nat, header: Bytes, id: nat)
    requires Inv(c, origin, s) && Reposts(c, origin, s, t, rid, prev, header) && id in s.objs
    ensures |t.journal.stores| > 0 && ObjFine(t, id)
  {
    hide Inv, MicroInv, JournalInv, Quiet, Fold, ObjOk, ObjsOk, NamesOk, TempsOk, ReqsOk, SameHolders, SameHistory, SameExcept, Grows, JournalOk, ObjFine;
    InvParts(c, origin, s);
    ObjIsFine(c, origin, s, id);
    ObjIsFine(c, origin, s, prev);
    RepostGrows(c, origin, s, t, rid, prev, header);
    QuietMicro(s.journal, t.journal, {s.objs[prev].inode});
    RecBounds(t.journal, s.objs[prev].inode);
    ObjOkOf(c, origin, s, id);
    if id == prev {
      RepostedFine(c, origin, s, t, rid, prev, header);
    } else {
      DifferentInode(c, origin, s, prev, id);
      SameKeepsObj(s.journal, t.journal, {s.objs[prev].inode}, s.objs[id]);
      CarriedWaiting(s, t, rid, id);
    }
  }

  lemma DifferentInode(c: Config, origin: Names, s: Sys, a: nat, b: nat)
    requires Inv(c, origin, s) && a in s.objs && b in s.objs && a != b
    ensures HasInode(s.objs[a]) && HasInode(s.objs[b]) ==> s.objs[a].inode != s.objs[b].inode
  {
  }

  /** Another Object, when request `rid` goes from undecided to decided. */
  lemma CarriedWaiting(s: Sys, t: Sys, rid: nat, id: nat)
    requires |s.journal.stores| > 0 && |t.journal.stores| > 0 && id in s.objs && ObjFine(s, id)
    requires id in t.objs && t.objs[id] == s.objs[id] && ObjOk(t.journal, t.objs[id])
    requires s.applied == t.applied && Length(s.journal) <= Length(t.journal) && s.next <= t.next
    requires HasInode(s.objs[id]) && s.objs[id].inode in s.journal.recs ==>
               s.objs[id].inode in t.journal.recs && t.journal.recs[s.objs[id].inode] == s.journal.recs[s.objs[id].inode]
    requires s.objs[id].stat.state == Active && s.objs[id].stat.name in s.names ==>
               s.objs[id].stat.name in t.names && t.names[s.objs[id].stat.name] == s.names[s.objs[id].stat.name]
    requires rid in s.reqs && !Decided(s.reqs[rid]) && (forall r :: r in s.reqs ==> r in t.reqs && (r != rid ==> t.reqs[r] == s.reqs[r]))
    ensures ObjFine(t, id)
  {
    var o := s.objs[id];
    if o.stat.state == Active && o.done > t.applied {
      var r :| r in s.reqs && Confirms(s.reqs[r], id, o.done);
      assert r != rid;
      assert Confirms(t.reqs[r], id, o.done);
    }
  }

  lemma RepostNames(c: Config, origin: Names, s: Sys, t: Sys, rid: nat, prev: nat, header: Bytes)
    requires Inv(c, origin, s) && Reposts(c, origin, s, t, rid, prev, header)
    requires s.objs[prev].stat.name in s.names && s.names[s.objs[prev].stat.name] == Found(prev)
    ensures |t.journal.stores| > 0 && NamesOk(t)
  {
    hide Inv, MicroInv, JournalInv, Quiet, Fold, ObjOk, ObjsOk, TempsOk, ReqsOk, SameExcept, SameHolders, SameHistory, Quiescent;
    InvParts(c, origin, s);
    QuietMicro(s.journal, t.journal, {s.objs[prev].inode});
    ObjOkOf(c, origin, s, prev);
    forall name | name in t.names ensures SlotFine(t, name) {
      SlotIsFine(s, name);
      if name != s.objs[prev].stat.name { OtherName(s.journal, t.journal, s.objs[prev], name); }
    }
    forall name | name !in t.names || t.names[name].Searching? ensures Quiescent(t, name) {
      NoSlot(s, name);
      OtherName(s.journal, t.journal, s.objs[prev], name);
      StillQuiescent(s, t, name);
    }
  }

  lemma StillQuiescent(s: Sys, t: Sys, name: string)
    requires |s.journal.stores| > 0 && |t.journal.stores| > 0 && Quiescent(s, name) && s.applied <= t.applied
    requires Ordinary(name) in Virtual(t.journal) ==>
               && Ordinary(name) in Virtual(s.journal)
               && var i := Virtual(s.journal)[Ordinary(name)].inode;
               && Virtual(t.journal)[Ordinary(name)].inode == i
               && (i in s.journal.recs ==> i in t.journal.recs && t.journal.recs[i] == s.journal.recs[i])
    ensures Quiescent(t, name)
  {
  }

  lemma RepostTemps(c: Config, origin: Names, s: Sys, t: Sys, rid: nat, prev: nat, header: Bytes)
    requires Inv(c, origin, s) && Reposts(c, origin, s, t, rid, prev, header)
    ensures |t.journal.stores| > 0 && TempsOk(t)
  {
    hide Inv, MicroInv, JournalInv, Quiet, Fold, ObjOk, ObjsOk, NamesOk, ReqsOk, SameHolders, SameHistory;
    InvParts(c, origin, s);
    QuietMicro(s.journal, t.journal, {s.objs[prev].inode});
    forall at | at in Virtual(t.journal) && at.temp ensures TempOwned(t, at) {
      if Virtual(t.journal)[at].inode == s.objs[prev].inode {
        ActiveNotTemp(t.journal, t.objs[prev], at);
      } else {
        assert Virtual(t.journal)[at] == Virtual(s.journal)[at];
        assert TempOwned(s, at);
        var id :| id in s.objs && s.objs[id].stat.state in {InWrite, Old} && s.objs[id].inode == Virtual(s.journal)[at].inode;
        assert id in t.objs && t.objs[id] == s.objs[id];
      }
    }
  }

  lemma ActiveNotTemp(j: Journal, o: Obj, at: Address)
    requires MicroInv(j) && ObjOk(j, o) && o.stat.state == Active && at in Virtual(j) && Virtual(j)[at].inode == o.inode
    ensures !at.temp
  {
    OneVirtualPlace(j, at, AddressOf(o.stat));
  }

  lemma RepostCarried(c: Config, origin: Names, s: Sys, t: Sys, rid: nat, prev: nat, header: Bytes, id: nat)
    requires Inv(c, origin, s) && Reposts(c, origin, s, t, rid, prev, header) && id in s.objs
    ensures Carried(s, t, id)
  {
    hide Inv, JournalInv, Quiet, Fold, ObjOk;
    if id != prev {
      DifferentInode(c, origin, s, prev, id);
    }
  }

  lemma RepostReqs(c: Config, origin: Names, s: Sys, t: Sys, rid: nat, prev: nat, header: Bytes)
    requires Inv(c, origin, s) && Reposts(c, origin, s, t, rid, prev, header)
    ensures t.applied < |t.journal.stores| && ReqsOk(c, t)
  {
    hide Inv, MicroInv, JournalInv, Quiet, Fold, ObjOk, ObjsOk, NamesOk, TempsOk, SameHolders, SameHistory, SameExcept, Grows, JournalOk, ReqFine, Pins;
    InvParts(c, origin, s);
    RepostGrows(c, origin, s, t, rid, prev, header);
    QuietMicro(s.journal, t.journal, {s.objs[prev].inode});
    forall r | r in t.reqs ensures ReqFine(c, t, r) {
      if r == rid {
        RepostReq(c, origin, s, t, rid, prev, header);
      } else {
        forall id | id in Pins(s.reqs[r]) && id in s.objs ensures Carried(s, t, id) {
          RepostCarried(c, origin, s, t, rid, prev, header, id);
        }
        forall id | id in Pins(s.reqs[r]) && id in s.objs && s.objs[id].stat.state in {Active, Old}
          ensures s.objs[id].inode in s.journal.recs && s.journal.recs[s.objs[id].inode].handed.Some?
          ensures s.journal.recs[s.objs[id].inode].name == s.objs[id].stat.name
        {
          PinnedFacts(c, origin, s, id);
        }
        CarriedReq(c, s, t, r);
      }
    }
  }

  lemma RepostReq(c: Config, origin: Names, s: Sys, t: Sys, rid: nat, prev: nat, header: Bytes)
    requires Reposts(c, origin, s, t, rid, prev, header) && t.applied < |t.journal.stores|
    ensures ReqFine(c, t, rid)
  {
    hide JournalInv, Quiet, Fold, ObjOk;
  }

  lemma RepostObjs(c: Config, origin: Names, s: Sys, t: Sys, rid: nat, prev: nat, header: Bytes)
    requires Inv(c, origin, s) && Reposts(c, origin, s, t, rid, prev, header)
    ensures |t.journal.stores| > 0 && ObjsOk(t)
  {
    hide Inv, MicroInv, JournalInv, Quiet, Fold, ObjOk, ObjFine, NamesOk, TempsOk, ReqsOk;
    InvParts(c, origin, s);
    forall id | id in t.objs ensures |t.journal.stores| > 0 && ObjFine(t, id) {
      RepostObj(c, origin, s, t, rid, prev, header, id);
    }
  }

  lemma RepostOk(c: Config, origin: Names, s: Sys, t: Sys, rid: nat, prev: nat, header: Bytes)
    requires Inv(c, origin, s) && Reposts(c, origin, s, t, rid, prev, header)
    requires s.objs[prev].stat.name in s.names && s.names[s.objs[prev].stat.name] == Found(prev)
    ensures Inv(c, origin, t)
  {
    RepostGrows(c, origin, s, t, rid, prev, header);
    RepostObjs(c, origin, s, t, rid, prev, header);
    RepostTemps(c, origin, s, t, rid, prev, header);
    RepostNames(c, origin, s, t, rid, prev, header);
    RepostReqs(c, origin, s, t, rid, prev, header);
    RepostSpec(c, origin, s, t, rid, prev, header);
    hide JournalOk, ObjsOk, TempsOk, NamesOk, ReqsOk, SpecOk, Reposts, Grows;
  }

  lemma RewriteSpec(c: Config, origin: Names, s: Sys, rid: nat, prev: nat, got: Option<Got>, post: Headers)
    requires rid in s.reqs && Sees(c, origin, s, s.reqs[rid].name, prev, got) && Metadata.Post(got, post).Rewrite?
    ensures s.objs[prev].stat.state == Active && s.objs[prev].inode in s.journal.recs
    ensures var name, o := s.reqs[rid].name, s.objs[prev];
            forall n :: Lookup(Fold(c, origin, s.decided + [Posted(rid, name, post)]), n) ==
              if n == name
              then Some(Version(o.stat.ts, o.stat.deleted, s.journal.recs[o.inode].data, c.encode(Metadata.Post(got, post).blob)))
              else Lookup(Fold(c, origin, s.decided), n)
  {
    hide Fold;
    FoldAppend(c, origin, s.decided, Posted(rid, s.reqs[rid].name, post));
  }

  lemma PostReposts(c: Config, origin: Names, s: Sys, rid: nat, prev: nat, got: Option<Got>)
    requires Inv(c, origin, s) && rid in s.reqs && !Decided(s.reqs[rid]) && s.reqs[rid].task.Post?
    requires Sees(c, origin, s, s.reqs[rid].name, prev, got) && Metadata.Post(got, s.reqs[rid].task.post).Rewrite?
    ensures Reposts(c, origin, s, DecidePost(c, s, rid, prev, got), rid, prev, c.encode(Metadata.Post(got, s.reqs[rid].task.post).blob))
  {
    hide Inv, JournalInv, MicroInv, ObjOk, Quiet, Fold, Marked, SameExcept;
    var header := c.encode(Metadata.Post(got, s.reqs[rid].task.post).blob);
    InvParts(c, origin, s);
    ObjOkOf(c, origin, s, prev);
    RewriteSpec(c, origin, s, rid, prev, got, s.reqs[rid].task.post);
    MarkedOk(s.journal, s.objs[prev], header);
    MarkedShape(s.journal, s.objs[prev], header);
    hide Metadata.Post, Lookup, Sees, ObjsOk, NamesOk, TempsOk, ReqsOk, JournalOk;
    var (k, o) := Marked(s.journal, s.objs[prev], header);
    QuietMicro(s.journal, k, {s.objs[prev].inode});
    VersionFree(k, o, o.version + 1);
  }

  /** ObjOk does not speak of the version. */
  lemma VersionFree(j: Journal, o: Obj, version: nat)
    requires |j.stores| > 0 && ObjOk(j, o)
    ensures ObjOk(j, o.(version := version))
  {
  }

  lemma DroppedSpec(c: Config, origin: Names, s: Sys, rid: nat, prev: nat, got: Option<Got>, post: Headers)
    requires rid in s.reqs && Sees(c, origin, s, s.reqs[rid].name, prev, got) && !Metadata.Post(got, post).Rewrite?
    ensures SpecStep(c, Fold(c, origin, s.decided), Posted(rid, s.reqs[rid].name, post)) == Fold(c, origin, s.decided)
  {
    hide Fold;
  }

  lemma DecidePostOk(c: Config, origin: Names, s: Sys, rid: nat, prev: nat, got: Option<Got>)
    requires Inv(c, origin, s) && rid in s.reqs && !Decided(s.reqs[rid]) && s.reqs[rid].task.Post?
    requires Sees(c, origin, s, s.reqs[rid].name, prev, got)
    ensures Inv(c, origin, DecidePost(c, s, rid, prev, got))
  {
    hide Inv, Reposts, Fold, SpecStep, Lookup;
    var post := s.reqs[rid].task.post;
    if Metadata.Post(got, post).Rewrite? {
      PostReposts(c, origin, s, rid, prev, got);
      RepostOk(c, origin, s, DecidePost(c, s, rid, prev, got), rid, prev, c.encode(Metadata.Post(got, post).blob));
    } else {
      DroppedSpec(c, origin, s, rid, prev, got, post);
      RuledOut(c, origin, s, rid, Posted(rid, s.reqs[rid].name, post), if Metadata.Post(got, post).KeyError? then Failed else Dropped);
    }
  }
}
