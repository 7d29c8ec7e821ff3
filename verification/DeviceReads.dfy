/** Steps of requests that change nothing but how far a request is: reading
    metadata, reading a body, waiting for a transaction. */
module DeviceReads {
  import opened Base
  import opened Engine
  import opened Journals
  import opened Objects
  import opened Metadata
  import opened Device
  import opened DeviceSpec

  /** A request that stops waiting leaves no Object's transaction unwaited for. */
  ghost predicate KeepsConfirming(s: Sys, rid: nat, pc: Pc)
    requires rid in s.reqs
  {
    forall id :: id in s.objs && Confirms(s.reqs[rid], id, s.objs[id].done) && s.objs[id].done > s.applied ==>
      Confirms(s.reqs[rid].(pc := pc), id, s.objs[id].done)
  }

  lemma OtherReqFine(c: Config, s: Sys, rid: nat, pc: Pc, other: nat)
    requires rid in s.reqs && s.applied < |s.journal.stores|
    requires other in s.reqs && other != rid && ReqFine(c, s, other)
    ensures ReqFine(c, At(s, rid, pc), other)
  {
  }

  lemma ObjStillFine(s: Sys, rid: nat, pc: Pc, id: nat)
    requires rid in s.reqs && |s.journal.stores| > 0 && id in s.objs && ObjFine(s, id)
    requires KeepsConfirming(s, rid, pc)
    ensures ObjFine(At(s, rid, pc), id)
  {
    var t := At(s, rid, pc);
    var o := s.objs[id];
    if o.stat.state == Active && o.done > s.applied {
      var r :| r in s.reqs && Confirms(s.reqs[r], id, o.done);
      assert Confirms(t.reqs[r], id, o.done);
    }
  }

  lemma AtObjs(s: Sys, rid: nat, pc: Pc)
    requires |s.journal.stores| > 0 && ObjsOk(s) && rid in s.reqs && KeepsConfirming(s, rid, pc)
    ensures ObjsOk(At(s, rid, pc))
  {
    hide KeepsConfirming, ObjFine;
    forall id | id in s.objs ensures ObjFine(At(s, rid, pc), id) {
      ObjStillFine(s, rid, pc, id);
    }
  }

  lemma AtTemps(s: Sys, rid: nat, pc: Pc)
    requires |s.journal.stores| > 0 && TempsOk(s) && rid in s.reqs
    ensures TempsOk(At(s, rid, pc))
  {
    var t := At(s, rid, pc);
    forall at | at in Virtual(t.journal) && at.temp ensures TempOwned(t, at) {
      assert TempOwned(s, at);
    }
  }

  lemma AtNames(s: Sys, rid: nat, pc: Pc)
    requires |s.journal.stores| > 0 && NamesOk(s) && rid in s.reqs
    ensures NamesOk(At(s, rid, pc))
  {
    var t := At(s, rid, pc);
    forall name | name in t.names ensures SlotFine(t, name) {
      assert SlotFine(s, name);
    }
    forall name | name !in t.names || t.names[name].Searching? ensures Quiescent(t, name) {
      assert Quiescent(s, name);
    }
  }

  lemma AtReqs(c: Config, s: Sys, rid: nat, pc: Pc)
    requires s.applied < |s.journal.stores| && ReqsOk(c, s) && rid in s.reqs
    requires ReqFine(c, At(s, rid, pc), rid)
    ensures ReqsOk(c, At(s, rid, pc))
  {
    hide ReqFine;
    forall other | other in s.reqs ensures ReqFine(c, At(s, rid, pc), other) {
      if other != rid { OtherReqFine(c, s, rid, pc, other); }
    }
  }

  /** A request's own progress keeps every invariant that it does not break itself. */
  lemma AtKeeps(c: Config, origin: Names, s: Sys, rid: nat, pc: Pc)
    requires Inv(c, origin, s) && rid in s.reqs && KeepsConfirming(s, rid, pc)
    requires s.applied < |s.journal.stores| && ReqFine(c, At(s, rid, pc), rid)
    ensures Inv(c, origin, At(s, rid, pc))
  {
    hide KeepsConfirming, ReqFine, JournalInv, ObjsOk, TempsOk, NamesOk, ReqsOk;
    AtObjs(s, rid, pc);
    AtTemps(s, rid, pc);
    AtNames(s, rid, pc);
    AtReqs(c, s, rid, pc);
  }

  // ----- what an access to the store sees -----

  lemma VisibleSound(j: Journal, k: nat, at: Address)
    requires MicroInv(j) && k < |j.stores| && at in j.stores[k]
    ensures Sound(at, j.stores[k][at], j.recs, k)
  {
    assert SoundStore(j.stores[k], j.recs, k);
  }

  lemma SameStamp(j: Journal, a: nat, b: nat, ts: nat)
    requires MicroInv(j) && a in j.recs && b in j.recs && j.recs[a].name == j.recs[b].name
    requires IsStamp(j.recs[a], ts) && IsStamp(j.recs[b], ts)
    ensures a == b
  {
  }

  lemma StillHeld(j: Journal, i: nat, k: nat, l: nat)
    requires MicroInv(j) && i in j.recs && j.recs[i].handed.Some?
    requires j.recs[i].handed.value <= k <= l < |j.stores| && HeldBy(j.stores[l], j.recs[i].name, i)
    ensures HeldBy(j.stores[k], j.recs[i].name, i)
  {
    assert RecOk(j, i);
    assert NeverReturns(j, i);
  }

  ghost predicate Readable(s: Sys, id: nat) {
    && MicroInv(s.journal) && s.applied < |s.journal.stores|
    && id in s.objs && s.objs[id].stat.state in {Active, Old} && ObjOk(s.journal, s.objs[id])
    && Arrived(s.journal, s.objs[id].inode, s.applied)
  }

  lemma IsReadable(c: Config, origin: Names, s: Sys, id: nat)
    requires Inv(c, origin, s) && id in s.objs && s.objs[id].stat.state in {Active, Old}
    requires Arrived(s.journal, s.objs[id].inode, s.applied)
    ensures Readable(s, id)
  {
    assert ObjFine(s, id);
  }

  /** What sits at an Object's own address once its hand-over has landed. */
  lemma OwnAddress(s: Sys, id: nat)
    requires Readable(s, id)
    ensures var o, at := s.objs[id], AddressOf(s.objs[id].stat);
            at in Visible(s) ==> Visible(s)[at].inode == o.inode
  {
    var o := s.objs[id];
    var at := AddressOf(o.stat);
    var j := s.journal;
    if at in Visible(s) {
      VisibleSound(j, s.applied, at);
      if o.stat.state == Active {
        StillHeld(j, o.inode, s.applied, |j.stores| - 1);
      } else {
        SameStamp(j, o.inode, Visible(s)[at].inode, o.stat.ts);
      }
    }
  }

  lemma OwnContent(s: Sys, id: nat, at: Address)
    requires Readable(s, id) && at in Visible(s) && Visible(s)[at].inode == s.objs[id].inode
    ensures Visible(s)[at].data == s.journal.recs[s.objs[id].inode].data
    ensures s.journal.recs[s.objs[id].inode].marked <= s.applied ==> Visible(s)[at].header == s.journal.recs[s.objs[id].inode].header
  {
    VisibleSound(s.journal, s.applied, at);
    assert RecOk(s.journal, s.objs[id].inode);
  }

  /** A header or a piece of the data, read at the address the Object has, or
      at the one it had when that was computed. */
  lemma FetchRight(s: Sys, id: nat, at: Address, start: nat, stop: nat)
    requires Readable(s, id) && Addresses(s.objs[id].stat, at)
    ensures var i := s.objs[id].inode;
            && ReadRight(s, id, at, if at in Visible(s) then Some(Slice(Visible(s)[at].data, start, stop)) else None, Slice(s.journal.recs[i].data, start, stop))
            && (s.journal.recs[i].marked <= s.applied ==>
                  ReadRight(s, id, at, if at in Visible(s) then Some(Visible(s)[at].header) else None, s.journal.recs[i].header))
  {
    OwnAddress(s, id);
    if at in Visible(s) && Visible(s)[at].inode == s.objs[id].inode { OwnContent(s, id, at); }
  }

  /** An Object that still holds its name is found at its address, and passes the check. */
  lemma HolderChecks(s: Sys, id: nat, at: Address)
    requires Readable(s, id) && Addresses(s.objs[id].stat, at) && s.objs[id].stat.state == Active
    ensures at in Visible(s) && Visible(s)[at].attrs.Some? && Visible(s)[at].attrs.value.ts == s.objs[id].stat.ts
  {
    var j := s.journal;
    StillHeld(j, s.objs[id].inode, s.applied, |j.stores| - 1);
    VisibleSound(j, s.applied, at);
  }

  lemma FetchFinds(s: Sys, id: nat, at: Address)
    requires Readable(s, id) && Addresses(s.objs[id].stat, at)
    ensures at !in Visible(s) ==> s.objs[id].stat.state == Old
  {
    if s.objs[id].stat.state == Active { HolderChecks(s, id, at); }
    hide MicroInv, ObjOk, Arrived;
  }

  /** The check after a read: with the timestamp unchanged, what was read is what was wanted. */
  lemma CheckRight(s: Sys, id: nat, at: Address, got: Option<Bytes>, want: Bytes)
    requires WellFormed(s) && Readable(s, id) && ReadRight(s, id, at, got, want)
    requires got.Some? && ChecksOut(s, id, at)
    ensures got.value == want
  {
    var o := s.objs[id];
    VisibleSound(s.journal, s.applied, at);
    SameStamp(s.journal, o.inode, Visible(s)[at].inode, o.stat.ts);
  }

  // ----- the steps -----

  lemma InvBasics(c: Config, origin: Names, s: Sys)
    requires Inv(c, origin, s)
    ensures JournalInv(s.journal) && MicroInv(s.journal) && s.applied < |s.journal.stores| && c.chunk > 0
    ensures |s.journal.stores| == |s.journal.ops| + 1
  {
  }

  lemma ObjIsFine(c: Config, origin: Names, s: Sys, id: nat)
    requires Inv(c, origin, s) && id in s.objs
    ensures s.applied < |s.journal.stores| && ObjFine(s, id)
  {
  }

  lemma ReqIsFine(c: Config, origin: Names, s: Sys, rid: nat)
    requires Inv(c, origin, s) && rid in s.reqs
    ensures s.applied < |s.journal.stores| && ReqFine(c, s, rid)
  {
  }

  /** read_metadata starts, or starts again: it notes the version first. */
  lemma StartReadingOk(c: Config, origin: Names, s: Sys, rid: nat, id: nat, tries: nat)
    requires Inv(c, origin, s) && rid in s.reqs && ReadsFrom(s, s.reqs[rid], id)
    requires !Decided(s.reqs[rid])
    ensures Inv(c, origin, At(s, rid, Reading(id, s.objs[id].version, tries, SyncCall)))
  {
    hide Inv;
    ReqIsFine(c, origin, s, rid);
    ObjIsFine(c, origin, s, id);
    AtKeeps(c, origin, s, rid, Reading(id, s.objs[id].version, tries, SyncCall));
  }

  lemma GiveUpOk(c: Config, origin: Names, s: Sys, rid: nat, outcome: Outcome)
    requires Inv(c, origin, s) && rid in s.reqs && !outcome.Served?
    requires !Decided(s.reqs[rid])
    ensures Inv(c, origin, At(s, rid, Finished(outcome)))
  {
    hide Inv;
    ReqIsFine(c, origin, s, rid);
    AtKeeps(c, origin, s, rid, Finished(outcome));
  }

  lemma SyncCallOk(c: Config, origin: Names, s: Sys, rid: nat)
    requires Inv(c, origin, s) && WellFormed(s) && rid in s.reqs && s.reqs[rid].pc.Reading? && s.reqs[rid].pc.call.SyncCall?
    requires Deciding(c, s, rid).None?
    ensures Inv(c, origin, StepReading(c, s, rid))
  {
    hide Inv;
    var r := s.reqs[rid];
    ReqIsFine(c, origin, s, rid);
    ObjIsFine(c, origin, s, r.pc.id);
    AtKeeps(c, origin, s, rid, r.pc.(call := SyncWait(s.objs[r.pc.id].done)));
  }

  lemma DurableApplied(c: Config, origin: Names, s: Sys, name: string)
    requires Inv(c, origin, s)
    ensures DurableOf(c, s, name) <= s.applied
  {
  }

  lemma SyncWaitOk(c: Config, origin: Names, s: Sys, rid: nat)
    requires Inv(c, origin, s) && WellFormed(s) && rid in s.reqs && s.reqs[rid].pc.Reading? && s.reqs[rid].pc.call.SyncWait?
    requires !Waiting(c, s, rid)
    ensures Inv(c, origin, StepReading(c, s, rid))
  {
    hide Inv;
    var r := s.reqs[rid];
    ReqIsFine(c, origin, s, rid);
    DurableApplied(c, origin, s, r.name);
    AtKeeps(c, origin, s, rid, r.pc.(call := MetaFetch([])));
  }

  lemma MetaFetchOk(c: Config, origin: Names, s: Sys, rid: nat)
    requires Inv(c, origin, s) && WellFormed(s) && rid in s.reqs && s.reqs[rid].pc.Reading? && s.reqs[rid].pc.call.MetaFetch?
    ensures Inv(c, origin, StepReading(c, s, rid))
  {
    hide Inv;
    var r := s.reqs[rid];
    ReqIsFine(c, origin, s, rid);
    AtKeeps(c, origin, s, rid, r.pc.(call := MetaAt(r.pc.call.data, AddressOf(s.objs[r.pc.id].stat))));
  }

  function FetchedPc(s: Sys, pc: Pc): Pc
    requires pc.Reading? && pc.call.MetaAt? && s.applied < |s.journal.stores|
  {
    var at := pc.call.at;
    pc.(call := MetaCheck(pc.call.data, at, if at in Visible(s) then Some(Visible(s)[at].header) else None))
  }

  lemma MetaAtFine(c: Config, s: Sys, rid: nat)
    requires s.applied < |s.journal.stores| && rid in s.reqs && s.reqs[rid].pc.Reading? && s.reqs[rid].pc.call.MetaAt?
    requires ReqFine(c, s, rid) && Readable(s, s.reqs[rid].pc.id)
    ensures ReqFine(c, At(s, rid, FetchedPc(s, s.reqs[rid].pc)), rid)
  {
    hide Readable, Slice;
    FetchRight(s, s.reqs[rid].pc.id, s.reqs[rid].pc.call.at, 0, 0);
    FetchFinds(s, s.reqs[rid].pc.id, s.reqs[rid].pc.call.at);
  }

  lemma MetaAtStep(c: Config, s: Sys, rid: nat)
    requires WellFormed(s) && rid in s.reqs && s.reqs[rid].pc.Reading? && s.reqs[rid].pc.call.MetaAt?
    ensures StepReading(c, s, rid) == At(s, rid, FetchedPc(s, s.reqs[rid].pc))
  {
    hide Visible;
  }

  lemma MetaAtOk(c: Config, origin: Names, s: Sys, rid: nat)
    requires Inv(c, origin, s) && WellFormed(s) && rid in s.reqs && s.reqs[rid].pc.Reading? && s.reqs[rid].pc.call.MetaAt?
    ensures Inv(c, origin, StepReading(c, s, rid))
  {
    hide Inv, WellFormed, MetaCallFine, Readable, StepReading;
    ReqIsFine(c, origin, s, rid);
    MetaArrived(c, s, rid);
    MetaAtStep(c, s, rid);
    IsReadable(c, origin, s, s.reqs[rid].pc.id);
    MetaAtFine(c, s, rid);
    hide ReqFine, At;
    AtKeeps(c, origin, s, rid, FetchedPc(s, s.reqs[rid].pc));
  }

  function CheckedPc(c: Config, pc: Pc): Pc
    requires pc.Reading? && pc.call.MetaCheck? && pc.call.header.Some?
  {
    pc.(call := MetaBack(pc.call.data, Slice(pc.call.header.value, |pc.call.data|, |pc.call.data| + c.chunk)))
  }

  lemma MetaCheckFine(c: Config, s: Sys, rid: nat)
    requires WellFormed(s) && rid in s.reqs && s.reqs[rid].pc.Reading? && s.reqs[rid].pc.call.MetaCheck?
    requires ReqFine(c, s, rid) && Readable(s, s.reqs[rid].pc.id)
    requires s.reqs[rid].pc.call.header.Some? && ChecksOut(s, s.reqs[rid].pc.id, s.reqs[rid].pc.call.at)
    ensures ReqFine(c, At(s, rid, CheckedPc(c, s.reqs[rid].pc)), rid)
  {
    hide Readable, ChecksOut, ReadRight, Slice, WellFormed;
    var Reading(id, version, tries, MetaCheck(data, at, got)) := s.reqs[rid].pc;
    if Current(s, id, version) {
      CheckRight(s, id, at, got, s.journal.recs[s.objs[id].inode].header);
    }
  }

  lemma MetaArrived(c: Config, s: Sys, rid: nat)
    requires s.applied < |s.journal.stores| && rid in s.reqs && ReqFine(c, s, rid) && s.reqs[rid].pc.Reading?
    ensures s.reqs[rid].pc.id in s.objs
    ensures s.reqs[rid].pc.call.MetaFetch? || s.reqs[rid].pc.call.MetaAt? || s.reqs[rid].pc.call.MetaCheck? || s.reqs[rid].pc.call.MetaBack? ==>
              Arrived(s.journal, s.objs[s.reqs[rid].pc.id].inode, s.applied)
  {
  }

  lemma MetaCheckOk(c: Config, origin: Names, s: Sys, rid: nat)
    requires Inv(c, origin, s) && WellFormed(s) && rid in s.reqs && s.reqs[rid].pc.Reading? && s.reqs[rid].pc.call.MetaCheck?
    ensures Inv(c, origin, StepReading(c, s, rid))
  {
    hide Inv, WellFormed, Readable, ChecksOut, MetaCallFine;
    var Reading(id, version, tries, MetaCheck(data, at, got)) := s.reqs[rid].pc;
    ReqIsFine(c, origin, s, rid);
    MetaArrived(c, s, rid);
    if got.Some? && ChecksOut(s, id, at) {
      IsReadable(c, origin, s, id);
      MetaCheckFine(c, s, rid);
      hide ReqFine;
      AtKeeps(c, origin, s, rid, CheckedPc(c, s.reqs[rid].pc));
    } else if tries < RETRIES {
      StartReadingOk(c, origin, s, rid, id, tries + 1);
    } else {
      GiveUpOk(c, origin, s, rid, Failed);
    }
  }

  ghost predicate ServesFrom(s: Sys, rid: nat, id: nat, offset: nat, out: Bytes)
    requires rid in s.reqs
  {
    var r := s.reqs[rid];
    && r.task.Get? && ReadsFrom(s, r, id)
    && Arrived(s.journal, s.objs[id].inode, s.applied)
    && s.journal.recs[s.objs[id].inode].name == r.name
    && r.task.start <= offset && (r.task.stop.Some? && offset != r.task.start ==> offset <= r.task.stop.value)
    && out == Slice(s.journal.recs[s.objs[id].inode].data, r.task.start, offset)
  }

  lemma ServeOnFine(c: Config, s: Sys, rid: nat, id: nat, offset: nat, out: Bytes)
    requires s.applied < |s.journal.stores| && rid in s.reqs && ServesFrom(s, rid, id, offset, out)
    ensures ServeOn(s, rid, id, offset, out) == At(s, rid, ServeOn(s, rid, id, offset, out).reqs[rid].pc)
    ensures ReqFine(c, ServeOn(s, rid, id, offset, out), rid)
  {
  }

  lemma ServeOnOk(c: Config, origin: Names, s: Sys, rid: nat, id: nat, offset: nat, out: Bytes)
    requires Inv(c, origin, s) && rid in s.reqs && ServesFrom(s, rid, id, offset, out) && !Decided(s.reqs[rid])
    ensures Inv(c, origin, ServeOn(s, rid, id, offset, out))
  {
    hide Inv;
    InvBasics(c, origin, s);
    ServeOnFine(c, s, rid, id, offset, out);
    hide MicroInv, JournalInv, ReqFine, ServesFrom, ServeOn, At;
    AtKeeps(c, origin, s, rid, ServeOn(s, rid, id, offset, out).reqs[rid].pc);
  }

  lemma NameOf(c: Config, origin: Names, s: Sys, id: nat)
    requires Inv(c, origin, s) && id in s.objs && s.objs[id].stat.state in {Active, Old}
    ensures s.objs[id].inode in s.journal.recs && s.journal.recs[s.objs[id].inode].name == s.objs[id].stat.name
  {
    assert ObjFine(s, id);
  }

  lemma MetaBackOk(c: Config, origin: Names, s: Sys, rid: nat)
    requires Inv(c, origin, s) && WellFormed(s) && rid in s.reqs && s.reqs[rid].pc.Reading? && s.reqs[rid].pc.call.MetaBack?
    ensures Inv(c, origin, StepReading(c, s, rid))
  {
    hide Inv;
    var r := s.reqs[rid];
    var Reading(id, version, tries, MetaBack(data, chunk)) := r.pc;
    ReqIsFine(c, origin, s, rid);
    if s.objs[id].version != version {
      StartReadingOk(c, origin, s, rid, id, tries);
    } else if |chunk| >= c.chunk {
      var header := s.journal.recs[s.objs[id].inode].header;
      assert data + chunk <= header;
      AtKeeps(c, origin, s, rid, r.pc.(call := MetaFetch(data + chunk)));
    } else if !r.task.Get? {
      AtKeeps(c, origin, s, rid, Opening);
    } else if s.objs[id].stat.deleted {
      GiveUpOk(c, origin, s, rid, Deleted);
    } else {
      NameOf(c, origin, s, id);
      ServeOnOk(c, origin, s, rid, id, r.task.start, []);
    }
  }

  lemma StepReadingOk(c: Config, origin: Names, s: Sys, rid: nat)
    requires Inv(c, origin, s) && WellFormed(s) && rid in s.reqs && s.reqs[rid].pc.Reading?
    requires !Waiting(c, s, rid) && Deciding(c, s, rid).None?
    ensures Inv(c, origin, StepReading(c, s, rid))
  {
    hide Inv;
    match s.reqs[rid].pc.call
    case SyncCall => SyncCallOk(c, origin, s, rid);
    case SyncWait(_) => SyncWaitOk(c, origin, s, rid);
    case MetaFetch(_) => MetaFetchOk(c, origin, s, rid);
    case MetaAt(_, _) => MetaAtOk(c, origin, s, rid);
    case MetaCheck(_, _, _) => MetaCheckOk(c, origin, s, rid);
    case MetaBack(_, _) => MetaBackOk(c, origin, s, rid);
  }

  lemma ServingBase(c: Config, s: Sys, rid: nat)
    requires s.applied < |s.journal.stores| && rid in s.reqs && ReqFine(c, s, rid) && s.reqs[rid].pc.Serving?
    ensures var pc := s.reqs[rid].pc;
            && ReadsFrom(s, s.reqs[rid], pc.id) && s.reqs[rid].task.Get?
            && Arrived(s.journal, s.objs[pc.id].inode, s.applied)
            && s.reqs[rid].task.start <= pc.offset
            && (s.reqs[rid].task.stop.Some? ==> pc.offset < s.reqs[rid].task.stop.value)
            && pc.out == Slice(s.journal.recs[s.objs[pc.id].inode].data, s.reqs[rid].task.start, pc.offset)
            && BodyCallFine(c, s, s.reqs[rid], pc.id, pc.offset, pc.bodyCall)
  {
  }

  lemma ServingFine(c: Config, s: Sys, rid: nat, tries: nat, call: BodyCall)
    requires s.applied < |s.journal.stores| && rid in s.reqs && ReqFine(c, s, rid) && s.reqs[rid].pc.Serving?
    requires s.reqs[rid].task.Get? && s.reqs[rid].pc.id in s.objs && s.objs[s.reqs[rid].pc.id].inode in s.journal.recs
    requires BodyCallFine(c, s, s.reqs[rid], s.reqs[rid].pc.id, s.reqs[rid].pc.offset, call)
    ensures ReqFine(c, At(s, rid, s.reqs[rid].pc.(tries := tries, bodyCall := call)), rid)
  {
    hide Slice;
  }

  lemma BodyFetchOk(c: Config, origin: Names, s: Sys, rid: nat)
    requires Inv(c, origin, s) && WellFormed(s) && rid in s.reqs && s.reqs[rid].pc.Serving? && s.reqs[rid].pc.bodyCall.BodyFetch?
    requires s.reqs[rid].task.Get?
    ensures Inv(c, origin, StepServing(c, s, rid))
  {
    hide Inv, WellFormed, ReqFine;
    var r := s.reqs[rid];
    ReqIsFine(c, origin, s, rid);
    ServingBase(c, s, rid);
    var call := BodyAt(AddressOf(s.objs[r.pc.id].stat));
    ServingFine(c, s, rid, r.pc.tries, call);
    AtKeeps(c, origin, s, rid, r.pc.(bodyCall := call));
  }

  lemma BodyAtOk(c: Config, origin: Names, s: Sys, rid: nat)
    requires Inv(c, origin, s) && WellFormed(s) && rid in s.reqs && s.reqs[rid].pc.Serving? && s.reqs[rid].pc.bodyCall.BodyAt?
    requires s.reqs[rid].task.Get?
    ensures Inv(c, origin, StepServing(c, s, rid))
  {
    hide Inv, WellFormed, ReqFine, Readable;
    var r := s.reqs[rid];
    var id := r.pc.id;
    ReqIsFine(c, origin, s, rid);
    ServingBase(c, s, rid);
    IsReadable(c, origin, s, id);
    var size := ReadSize(c, r.pc.offset, r.task.stop);
    var at := r.pc.bodyCall.at;
    FetchRight(s, id, at, r.pc.offset, r.pc.offset + size);
    FetchFinds(s, id, at);
    var call := BodyCheck(at, if at in Visible(s) then Some(Slice(Visible(s)[at].data, r.pc.offset, r.pc.offset + size)) else None);
    ServingFine(c, s, rid, r.pc.tries, call);
    AtKeeps(c, origin, s, rid, r.pc.(bodyCall := call));
  }

  lemma BodyCheckOk(c: Config, origin: Names, s: Sys, rid: nat)
    requires Inv(c, origin, s) && WellFormed(s) && rid in s.reqs && s.reqs[rid].pc.Serving? && s.reqs[rid].pc.bodyCall.BodyCheck?
    requires s.reqs[rid].task.Get?
    ensures Inv(c, origin, StepServing(c, s, rid))
  {
    hide Inv, WellFormed, ReqFine, Readable, ChecksOut;
    var r := s.reqs[rid];
    var Serving(id, offset, out, tries, BodyCheck(at, bytes)) := r.pc;
    ReqIsFine(c, origin, s, rid);
    ServingBase(c, s, rid);
    if bytes.Some? && ChecksOut(s, id, at) {
      IsReadable(c, origin, s, id);
      CheckRight(s, id, at, bytes, Slice(s.journal.recs[s.objs[id].inode].data, offset, offset + ReadSize(c, offset, r.task.stop)));
      ServingFine(c, s, rid, tries, BodyBack(bytes.value));
      AtKeeps(c, origin, s, rid, r.pc.(bodyCall := BodyBack(bytes.value)));
    } else if tries < RETRIES {
      ServingFine(c, s, rid, tries + 1, BodyFetch);
      AtKeeps(c, origin, s, rid, Serving(id, offset, out, tries + 1, BodyFetch));
    } else {
      GiveUpOk(c, origin, s, rid, Failed);
    }
  }

  /** Two neighbouring slices join; a short one is the last. */
  lemma SlicesJoin(data: Bytes, start: nat, offset: nat, size: nat)
    requires start <= offset && size > 0
    ensures var chunk := Slice(data, offset, offset + size);
            && Slice(data, start, offset) + chunk == Slice(data, start, offset + size)
            && |chunk| <= size
            && (|chunk| != size ==> |data| < offset + size && Slice(data, start, offset) + chunk == Slice(data, start, |data|))
  {
  }

  lemma BodyBackServes(c: Config, s: Sys, rid: nat)
    requires c.chunk > 0 && s.applied < |s.journal.stores| && rid in s.reqs && s.reqs[rid].pc.Serving? && s.reqs[rid].pc.bodyCall.BodyBack?
    requires ReqFine(c, s, rid) && s.reqs[rid].pc.id in s.objs && s.objs[s.reqs[rid].pc.id].inode in s.journal.recs
    requires s.journal.recs[s.objs[s.reqs[rid].pc.id].inode].name == s.reqs[rid].name
    requires s.reqs[rid].task.Get?
    ensures var Serving(id, offset, out, _, BodyBack(chunk)) := s.reqs[rid].pc;
            if |chunk| != ReadSize(c, offset, s.reqs[rid].task.stop)
            then IsRange(s.journal, s.reqs[rid].name, s.objs[id].inode, out + chunk, s.reqs[rid].task.start, s.reqs[rid].task.stop)
            else ServesFrom(s, rid, id, offset + |chunk|, out + chunk)
  {
    hide Slice;
    var r := s.reqs[rid];
    var Serving(id, offset, out, _, BodyBack(chunk)) := r.pc;
    var data := s.journal.recs[s.objs[id].inode].data;
    SlicesJoin(data, r.task.start, offset, ReadSize(c, offset, r.task.stop));
    if |chunk| != ReadSize(c, offset, r.task.stop) && r.task.stop.Some? {
      SliceStops(data, r.task.start, offset, ReadSize(c, offset, r.task.stop), r.task.stop.value);
    }
  }

  lemma SliceStops(data: Bytes, start: nat, offset: nat, size: nat, stop: nat)
    requires start <= offset && offset + size <= stop && |data| < offset + size
    ensures Slice(data, start, stop) == Slice(data, start, |data|)
  {
  }

  lemma BodyBackOk(c: Config, origin: Names, s: Sys, rid: nat)
    requires Inv(c, origin, s) && WellFormed(s) && rid in s.reqs && s.reqs[rid].pc.Serving? && s.reqs[rid].pc.bodyCall.BodyBack?
    requires s.reqs[rid].task.Get?
    ensures Inv(c, origin, StepServing(c, s, rid))
  {
    hide Inv, WellFormed, ReqFine, Readable, Slice, ServesFrom, MicroInv, JournalInv, IsRange;
    var r := s.reqs[rid];
    var Serving(id, offset, out, tries, BodyBack(chunk)) := r.pc;
    InvBasics(c, origin, s);
    ReqIsFine(c, origin, s, rid);
    ServingBase(c, s, rid);
    NameOf(c, origin, s, id);
    BodyBackServes(c, s, rid);
    if |chunk| != ReadSize(c, offset, r.task.stop) {
      ServedFine(c, s, rid, s.objs[id].inode, out + chunk);
      AtKeeps(c, origin, s, rid, Finished(Served(s.objs[id].inode, out + chunk)));
    } else {
      ServeOnOk(c, origin, s, rid, id, offset + |chunk|, out + chunk);
    }
  }

  lemma ServedFine(c: Config, s: Sys, rid: nat, i: nat, body: Bytes)
    requires s.applied < |s.journal.stores| && rid in s.reqs && s.reqs[rid].task.Get?
    requires IsRange(s.journal, s.reqs[rid].name, i, body, s.reqs[rid].task.start, s.reqs[rid].task.stop)
    ensures ReqFine(c, At(s, rid, Finished(Served(i, body))), rid)
  {
  }

  lemma StepServingOk(c: Config, origin: Names, s: Sys, rid: nat)
    requires Inv(c, origin, s) && WellFormed(s) && rid in s.reqs && s.reqs[rid].pc.Serving? && s.reqs[rid].task.Get?
    ensures Inv(c, origin, StepServing(c, s, rid))
  {
    hide Inv;
    match s.reqs[rid].pc.bodyCall
    case BodyFetch => BodyFetchOk(c, origin, s, rid);
    case BodyAt(_) => BodyAtOk(c, origin, s, rid);
    case BodyCheck(_, _) => BodyCheckOk(c, origin, s, rid);
    case BodyBack(_) => BodyBackOk(c, origin, s, rid);
  }

  lemma OpenedOk(c: Config, origin: Names, s: Sys, rid: nat)
    requires Inv(c, origin, s) && WellFormed(s) && rid in s.reqs && s.reqs[rid].pc.Opened?
    ensures Inv(c, origin, Advance(c, s, rid, 0))
  {
    hide Inv, WellFormed;
    var id := s.reqs[rid].pc.id;
    ReqIsFine(c, origin, s, rid);
    if s.objs[id].stat.state == Missing {
      GiveUpOk(c, origin, s, rid, NotFound);
    } else {
      StartReadingOk(c, origin, s, rid, id, 0);
    }
  }

  /** The last sync: what it waits for is the latest transaction of that moment. */
  lemma ConfirmingOk(c: Config, origin: Names, s: Sys, rid: nat)
    requires Inv(c, origin, s) && rid in s.reqs && s.reqs[rid].pc.Confirming? && s.reqs[rid].pc.id in s.objs
    ensures var id := s.reqs[rid].pc.id; Inv(c, origin, At(s, rid, Settling(id, s.objs[id].done)))
  {
    hide Inv;
    ReqIsFine(c, origin, s, rid);
    AtKeeps(c, origin, s, rid, Settling(s.reqs[rid].pc.id, s.objs[s.reqs[rid].pc.id].done));
  }

  lemma SettlingOk(c: Config, origin: Names, s: Sys, rid: nat)
    requires Inv(c, origin, s) && rid in s.reqs && s.reqs[rid].pc.Settling? && !Waiting(c, s, rid)
    ensures Inv(c, origin, At(s, rid, Finished(Done)))
  {
    hide Inv;
    ReqIsFine(c, origin, s, rid);
    DurableApplied(c, origin, s, s.reqs[rid].name);
    AtKeeps(c, origin, s, rid, Finished(Done));
  }
}
