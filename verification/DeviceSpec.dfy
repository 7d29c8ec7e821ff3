/** What a Device is meant to be: a map from names to versions, changed by one
    decision at a time. And the invariants that make the system one. */
module DeviceSpec {
  import opened Base
  import opened Engine
  import opened Journals
  import opened Objects
  import opened Metadata
  import opened Device

  datatype Version = Version(ts: nat, deleted: bool, data: Bytes, header: Bytes)

  type Names = map<string, Version>

  function Lookup(names: Names, name: string): Option<Version> {
    if name in names then Some(names[name]) else None
  }

  /** What a store holds under a name. */
  function Shows(store: Store, name: string): Option<Version> {
    var at := Ordinary(name);
    if at in store && store[at].attrs.Some? then
      Some(Version(store[at].attrs.value.ts, store[at].attrs.value.deleted, store[at].data, store[at].header))
    else None
  }

  /** JSON keeps what it is given. */
  ghost predicate RoundTrips(c: Config) { forall blob :: c.decode(c.encode(blob)) == blob }

  function GotOf(c: Config, v: Option<Version>): Option<Got> {
    match v
    case None => None
    case Some(version) => Some(Metadata.Get(c.decode(version.header)))
  }

  function SpecStep(c: Config, names: Names, event: Event): Names {
    var cur := Lookup(names, event.name);
    match event
    case HandedName(_, name, ts, deleted, data, meta) =>
      if ts <= (if cur.Some? then cur.value.ts else 0) then names
      else names[name := Version(ts, deleted, data, c.encode(Metadata.Put(GotOf(c, cur), meta)))]
    case Posted(_, name, post) =>
      if cur.None? then names
      else match Metadata.Post(GotOf(c, cur), post)
        case Rewrite(blob) => names[name := cur.value.(header := c.encode(blob))]
        case _ => names
  }

  function Fold(c: Config, origin: Names, events: seq<Event>): Names {
    if events == [] then origin
    else SpecStep(c, Fold(c, origin, events[..|events| - 1]), Last(events))
  }

  lemma FoldAppend(c: Config, origin: Names, events: seq<Event>, event: Event)
    ensures Fold(c, origin, events + [event]) == SpecStep(c, Fold(c, origin, events), event)
  {
    assert (events + [event])[..|events|] == events;
  }

  // ----- the invariants -----

  /** A version's hand-over, data and latest metadata are all within the first `bound` operations. */
  ghost predicate Within(j: Journal, i: nat, bound: nat) {
    && i in j.recs && j.recs[i].handed.Some?
    && j.recs[i].handed.value <= bound && j.recs[i].wrote <= bound && j.recs[i].marked <= bound
  }

  ghost predicate Arrived(j: Journal, i: nat, bound: nat) {
    && i in j.recs && j.recs[i].handed.Some?
    && j.recs[i].handed.value <= bound
  }

  function Max(a: nat, b: nat): nat { if a < b then b else a }

  ghost predicate JournalOk(c: Config, s: Sys) {
    && JournalInv(s.journal)
    && s.applied < |s.journal.stores|
    && (forall i :: i in s.journal.recs ==> i < s.next)
    && (forall n :: n in s.durable ==> s.durable[n] <= s.applied)
  }

  ghost predicate ObjFine(s: Sys, id: nat)
    requires |s.journal.stores| > 0 && id in s.objs
  {
    var o := s.objs[id];
    && id < s.next
    && ObjOk(s.journal, o)
    && o.done <= Length(s.journal)
    && (o.stat.state in {Active, Old} ==> Within(s.journal, o.inode, Max(o.done, s.applied)))
    && (o.stat.state == Active ==> o.stat.name in s.names && s.names[o.stat.name].id == id)
    && (o.stat.state == Active && o.done > s.applied ==> exists r :: r in s.reqs && Confirms(s.reqs[r], id, o.done))
  }

  /** The request will not let go of the Object before its latest transaction has landed. */
  predicate Confirms(r: Req, id: nat, done: nat) {
    r.pc == Confirming(id) || (r.pc.Settling? && r.pc.id == id && r.pc.local >= done)
  }

  ghost predicate ObjsOk(s: Sys)
    requires |s.journal.stores| > 0
  {
    && (forall id :: id in s.objs ==> ObjFine(s, id))
    && (forall a, b :: a in s.objs && b in s.objs && a != b && HasInode(s.objs[a]) && HasInode(s.objs[b]) ==>
          s.objs[a].inode != s.objs[b].inode)
  }

  /** Everything in the temporary space belongs to one live Object. */
  ghost predicate TempOwned(s: Sys, at: Address)
    requires |s.journal.stores| > 0 && at in Virtual(s.journal)
  {
    exists id :: id in s.objs && s.objs[id].stat.state in {InWrite, Old} && s.objs[id].inode == Virtual(s.journal)[at].inode
  }

  ghost predicate TempsOk(s: Sys)
    requires |s.journal.stores| > 0
  {
    forall at :: at in Virtual(s.journal) && at.temp ==> TempOwned(s, at)
  }

  ghost predicate SlotFine(s: Sys, name: string)
    requires |s.journal.stores| > 0 && name in s.names
  {
    var slot := s.names[name];
    && slot.id in s.objs
    && var o := s.objs[slot.id];
    && o.stat.name == name
    && (if slot.Searching? && !slot.loaded then o.stat.state == PreSearch && o.stat.ts == 0 && !o.stat.deleted && o.done == 0
        else o.stat.state in {Missing, Active})
    && (o.stat.state == Missing ==> Ordinary(name) !in Virtual(s.journal))
  }

  /** While no Object can take a decision on a name, nothing about it is in the queue. */
  ghost predicate Quiescent(s: Sys, name: string)
    requires |s.journal.stores| > 0
  {
    Ordinary(name) in Virtual(s.journal) ==> Within(s.journal, Virtual(s.journal)[Ordinary(name)].inode, s.applied)
  }

  ghost predicate NamesOk(s: Sys)
    requires |s.journal.stores| > 0
  {
    && (forall name :: name in s.names ==> SlotFine(s, name))
    && (forall name :: name !in s.names || s.names[name].Searching? ==> Quiescent(s, name))
  }

  /** A request reads a version that held, or holds, its name. */
  ghost predicate ReadsFrom(s: Sys, r: Req, id: nat) {
    id in s.objs && s.objs[id].stat.state in {Active, Old} && s.objs[id].stat.name == r.name
  }

  /** `version` has not been overtaken: no POST was made since it was read. */
  ghost predicate Current(s: Sys, id: nat, version: nat)
    requires id in s.objs
  {
    s.objs[id].version == version
  }

  ghost predicate HasMarked(s: Sys, id: nat, version: nat, bound: nat)
    requires id in s.objs
  {
    var i := s.objs[id].inode;
    Current(s, id, version) ==> i in s.journal.recs && s.journal.recs[i].marked <= bound
  }

  /** The Object's address, or the one it had before it was retired. */
  predicate Addresses(stat: Stat, at: Address) { at == AddressOf(stat) || at == Ordinary(stat.name) }

  /** What was read at an address is the wanted content, or the check after it will fail. */
  ghost predicate ReadRight(s: Sys, id: nat, at: Address, got: Option<Bytes>, want: Bytes)
    requires id in s.objs && s.applied < |s.journal.stores|
  {
    var o := s.objs[id];
    && Addresses(o.stat, at)
    && (got.None? || got.value == want || (at == Ordinary(o.stat.name) && !HeldBy(Visible(s), o.stat.name, o.inode)))
  }

  /** Nothing is found only at the address of an Object that has been retired. */
  predicate GoneOnly(o: Obj, got: Option<Bytes>) { got.None? ==> o.stat.state == Old }

  ghost predicate MetaCallFine(c: Config, s: Sys, id: nat, version: nat, call: MetaCall)
    requires id in s.objs && s.applied < |s.journal.stores| && s.objs[id].inode in s.journal.recs
  {
    var i := s.objs[id].inode;
    var header := s.journal.recs[i].header;
    match call
    case SyncCall => true
    case SyncWait(local) => Arrived(s.journal, i, Max(local, s.applied)) && HasMarked(s, id, version, Max(local, s.applied))
    case MetaFetch(data) =>
      && Arrived(s.journal, i, s.applied) && HasMarked(s, id, version, s.applied)
      && (Current(s, id, version) ==> data <= header)
    case MetaAt(data, at) =>
      && Arrived(s.journal, i, s.applied) && HasMarked(s, id, version, s.applied)
      && (Current(s, id, version) ==> data <= header)
      && Addresses(s.objs[id].stat, at)
    case MetaCheck(data, at, got) =>
      && Arrived(s.journal, i, s.applied) && HasMarked(s, id, version, s.applied)
      && (Current(s, id, version) ==> data <= header)
      && Addresses(s.objs[id].stat, at) && GoneOnly(s.objs[id], got)
      && (Current(s, id, version) ==> ReadRight(s, id, at, got, header))
    case MetaBack(data, chunk) =>
      && Arrived(s.journal, i, s.applied) && HasMarked(s, id, version, s.applied)
      && (Current(s, id, version) ==> data <= header && chunk == Slice(header, |data|, |data| + c.chunk))
  }

  ghost predicate BodyCallFine(c: Config, s: Sys, r: Req, id: nat, offset: nat, call: BodyCall)
    requires id in s.objs && s.applied < |s.journal.stores| && s.objs[id].inode in s.journal.recs && r.task.Get?
  {
    var want := Slice(s.journal.recs[s.objs[id].inode].data, offset, offset + ReadSize(c, offset, r.task.stop));
    match call
    case BodyFetch => true
    case BodyAt(at) => Addresses(s.objs[id].stat, at)
    case BodyCheck(at, got) => ReadRight(s, id, at, got, want) && GoneOnly(s.objs[id], got)
    case BodyBack(chunk) => chunk == want
  }

  /** The bytes of a range of one version that has held the name. */
  ghost predicate IsRange(j: Journal, name: string, i: nat, body: Bytes, start: nat, stop: Option<nat>) {
    && i in j.recs && j.recs[i].handed.Some? && j.recs[i].name == name
    && body == Slice(j.recs[i].data, start, stop.GetOr(|j.recs[i].data|))
  }

  /** A decision's last sync is of the Object it was about. */
  ghost predicate Awaits(s: Sys, r: Req, id: nat) {
    !r.task.Get? && id in s.objs && s.objs[id].stat.state in {Active, Old} && (r.task.Put? ==> id == r.task.id)
  }

  ghost predicate ReqFine(c: Config, s: Sys, rid: nat)
    requires rid in s.reqs && s.applied < |s.journal.stores|
  {
    var r := s.reqs[rid];
    && (r.task.Put? && !Decided(r) ==>
          && r.task.id in s.objs && s.objs[r.task.id].stat.state in {PreWrite, InWrite}
          && s.objs[r.task.id].stat.name == r.name && !s.objs[r.task.id].stat.deleted)
    && match r.pc
       case Opening => true
       case Opened(id) => r.task.Get? && id in s.objs && s.objs[id].stat.state in {Missing, Active, Old} && s.objs[id].stat.name == r.name
       case Reading(id, version, _, call) =>
         && ReadsFrom(s, r, id) && s.objs[id].inode in s.journal.recs && version <= s.objs[id].version
         && MetaCallFine(c, s, id, version, call)
       case Serving(id, offset, out, _, call) =>
         && r.task.Get? && ReadsFrom(s, r, id) && Arrived(s.journal, s.objs[id].inode, s.applied)
         && r.task.start <= offset && (r.task.stop.Some? ==> offset < r.task.stop.value)
         && out == Slice(s.journal.recs[s.objs[id].inode].data, r.task.start, offset)
         && BodyCallFine(c, s, r, id, offset, call)
       case Confirming(id) => Awaits(s, r, id)
       case Settling(id, local) => Awaits(s, r, id)
       case Finished(Served(i, body)) => r.task.Get? && IsRange(s.journal, r.name, i, body, r.task.start, r.task.stop)
       case Finished(_) => true
  }

  /** The request has taken its decision, or given up before it. */
  predicate Decided(r: Req) { r.pc.Confirming? || r.pc.Settling? || r.pc.Finished? }

  ghost predicate ReqsOk(c: Config, s: Sys)
    requires s.applied < |s.journal.stores|
  {
    && (forall rid :: rid in s.reqs ==> ReqFine(c, s, rid))
    && (forall a, b :: a in s.reqs && b in s.reqs && a != b && s.reqs[a].task.Put? && s.reqs[b].task.Put? ==>
          s.reqs[a].task.id != s.reqs[b].task.id)
  }

  /** The virtual store is the fold of the decisions. */
  ghost predicate SpecOk(c: Config, origin: Names, s: Sys)
    requires |s.journal.stores| > 0
  {
    forall name :: Shows(Virtual(s.journal), name) == Lookup(Fold(c, origin, s.decided), name)
  }

  ghost predicate Inv(c: Config, origin: Names, s: Sys) {
    && c.chunk > 0
    && JournalOk(c, s)
    && ObjsOk(s)
    && TempsOk(s)
    && NamesOk(s)
    && ReqsOk(c, s)
    && SpecOk(c, origin, s)
  }
}
