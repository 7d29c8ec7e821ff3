/** What one step leaves alone: the facts about the other Objects, names and
    requests carry over. */
module DeviceFrame {
  import opened Base
  import opened Engine
  import opened Journals
  import opened Objects
  import opened Metadata
  import opened Device
  import opened DeviceSpec
  import opened DeviceReads

  /** A version that has taken its name changes in nothing but its metadata. */
  predicate SameVersion(r: Rec, t: Rec) {
    t == r.(header := t.header, marked := t.marked)
  }

  ghost predicate Grows(s: Sys, t: Sys) {
    && s.applied <= t.applied < |t.journal.stores|
    && |s.journal.stores| <= |t.journal.stores|
    && (forall k :: 0 <= k < |s.journal.stores| ==> t.journal.stores[k] == s.journal.stores[k])
    && (forall i :: i in s.journal.recs && s.journal.recs[i].handed.Some? ==>
          i in t.journal.recs && SameVersion(s.journal.recs[i], t.journal.recs[i]))
  }

  /** An Object a request reads is the same entry afterwards, possibly retired,
      and its metadata is the same unless its version has moved. */
  ghost predicate Carried(s: Sys, t: Sys, id: nat)
    requires id in s.objs
  {
    && id in t.objs
    && var o, p := s.objs[id], t.objs[id];
    && p.inode == o.inode
    && (|| p.stat == o.stat
        || (o.stat.state == Active && p.stat == Retired(o.stat))
        || (o.stat.state == PreWrite && p.stat == StartedStat(o.stat)))
    && o.version <= p.version
    && (p.version == o.version && o.stat.state in {Active, Old} && o.inode in s.journal.recs ==>
          o.inode in t.journal.recs && t.journal.recs[o.inode] == s.journal.recs[o.inode])
  }

  lemma CarriedArrives(s: Sys, t: Sys, i: nat, b: nat, d: nat)
    requires Grows(s, t) && b <= d && Arrived(s.journal, i, b)
    ensures Arrived(t.journal, i, d)
    ensures SameVersion(s.journal.recs[i], t.journal.recs[i])
  {
  }

  lemma CarriedRight(s: Sys, t: Sys, id: nat, at: Address, got: Option<Bytes>, want: Bytes)
    requires Grows(s, t) && MicroInv(t.journal) && id in s.objs && Carried(s, t, id)
    requires s.applied < |s.journal.stores| && ReadRight(s, id, at, got, want)
    requires s.objs[id].stat.state in {Active, Old} && Arrived(s.journal, s.objs[id].inode, s.applied)
    requires s.journal.recs[s.objs[id].inode].name == s.objs[id].stat.name
    ensures ReadRight(t, id, at, got, want)
  {
    var o := s.objs[id];
    if at == Ordinary(o.stat.name) && !HeldBy(Visible(s), o.stat.name, o.inode) && HeldBy(Visible(t), o.stat.name, o.inode) {
      StillHeld(t.journal, o.inode, s.applied, t.applied);
    }
  }

  lemma CarriedMeta(c: Config, s: Sys, t: Sys, id: nat, version: nat, call: MetaCall)
    requires Grows(s, t) && MicroInv(t.journal) && id in s.objs && Carried(s, t, id)
    requires s.applied < |s.journal.stores| && s.objs[id].inode in s.journal.recs && s.objs[id].inode in t.journal.recs
    requires s.objs[id].stat.state in {Active, Old} && version <= s.objs[id].version
    requires s.journal.recs[s.objs[id].inode].name == s.objs[id].stat.name
    requires MetaCallFine(c, s, id, version, call)
    ensures MetaCallFine(c, t, id, version, call)
  {
    hide MicroInv, Grows;
    var i := s.objs[id].inode;
    GrowsApplied(s, t);
    match call
    case SyncCall =>
    case SyncWait(local) => CarriedArrives(s, t, i, Max(local, s.applied), Max(local, t.applied));
    case MetaFetch(data) => CarriedArrives(s, t, i, s.applied, t.applied);
    case MetaAt(data, at) => CarriedArrives(s, t, i, s.applied, t.applied);
    case MetaCheck(data, at, got) =>
      CarriedArrives(s, t, i, s.applied, t.applied);
      if Current(t, id, version) {
        CarriedRight(s, t, id, at, got, s.journal.recs[i].header);
      }
    case MetaBack(data, chunk) => CarriedArrives(s, t, i, s.applied, t.applied);
  }

  lemma GrowsApplied(s: Sys, t: Sys)
    requires Grows(s, t)
    ensures s.applied <= t.applied < |t.journal.stores|
  {
  }

  lemma CarriedBody(c: Config, s: Sys, t: Sys, r: Req, id: nat, offset: nat, call: BodyCall)
    requires Grows(s, t) && MicroInv(t.journal) && id in s.objs && Carried(s, t, id) && r.task.Get?
    requires s.applied < |s.journal.stores| && s.objs[id].inode in s.journal.recs && s.objs[id].inode in t.journal.recs
    requires s.objs[id].stat.state in {Active, Old} && Arrived(s.journal, s.objs[id].inode, s.applied)
    requires s.journal.recs[s.objs[id].inode].name == s.objs[id].stat.name
    requires BodyCallFine(c, s, r, id, offset, call)
    ensures BodyCallFine(c, t, r, id, offset, call)
    ensures t.journal.recs[s.objs[id].inode].data == s.journal.recs[s.objs[id].inode].data
  {
    hide MicroInv, Grows, Slice;
    GrowsApplied(s, t);
    CarriedArrives(s, t, s.objs[id].inode, s.applied, t.applied);
    if call.BodyCheck? {
      CarriedRight(s, t, id, call.at, call.bytes, Slice(s.journal.recs[s.objs[id].inode].data, offset, offset + ReadSize(c, offset, r.task.stop)));
    }
  }

  /** A request the step is not about. */
  lemma CarriedReq(c: Config, s: Sys, t: Sys, rid: nat)
    requires Grows(s, t) && MicroInv(t.journal) && s.applied < |s.journal.stores|
    requires rid in s.reqs && rid in t.reqs && t.reqs[rid] == s.reqs[rid] && ReqFine(c, s, rid)
    requires forall id :: id in Pins(s.reqs[rid]) && id in s.objs ==> Carried(s, t, id)
    requires forall id :: id in Pins(s.reqs[rid]) && id in s.objs && s.objs[id].stat.state in {Active, Old} ==>
               && s.objs[id].inode in s.journal.recs && s.journal.recs[s.objs[id].inode].handed.Some?
               && s.journal.recs[s.objs[id].inode].name == s.objs[id].stat.name
    ensures ReqFine(c, t, rid)
  {
    hide MicroInv, MetaCallFine, BodyCallFine, Slice;
    var r := s.reqs[rid];
    assert r.task.Put? && !Decided(r) ==> r.task.id in Pins(r);
    match r.pc
    case Reading(id, version, _, call) =>
      assert id in Pins(r);
      CarriedMeta(c, s, t, id, version, call);
    case Serving(id, offset, out, _, call) =>
      assert id in Pins(r);
      CarriedBody(c, s, t, r, id, offset, call);
    case Opened(id) => assert id in Pins(r);
    case Confirming(id) => assert id in Pins(r);
    case Settling(id, _) => assert id in Pins(r);
    case _ =>
  }
}
