/** The Device (device.py, reader.py) and the engine under it as a transition
    system. A step is what runs between two yield points: code on the hub, one
    call's access to the store in a pool thread, one operation of a queued
    transaction landing, or a commit. */
module Device {
  import opened Base
  import opened Engine
  import opened Journals
  import opened Objects
  import opened Metadata

  /** JSON, `disk_chunk_size` and the choice of a collection are given. */
  datatype Config = Config(encode: Blob -> Bytes, decode: Bytes -> Blob, chunk: nat, collection: string -> nat)

  /** What the map holds for a name: an Object, or a search still in progress. */
  datatype Slot = Found(id: nat) | Searching(id: nat, loaded: bool)

  datatype Task =
    | Put(id: nat, ts: nat, meta: Headers)
    | Delete(ts: nat, tombstone: Option<Headers>)
    | Post(post: Headers)
    | Get(start: nat, stop: Option<nat>)

  /** Inside read_metadata: syncing, then a chunk at a time. For a chunk a pool
      thread computes the address, reads the header there, and then the
      attributes it is checked by; the hub may come in between each of these. */
  datatype MetaCall =
    | SyncCall
    | SyncWait(local: nat)
    | MetaFetch(data: Bytes)
    | MetaAt(data: Bytes, at: Address)
    | MetaCheck(data: Bytes, at: Address, header: Option<Bytes>)
    | MetaBack(data: Bytes, chunk: Bytes)

  datatype BodyCall =
    | BodyFetch
    | BodyAt(at: Address)
    | BodyCheck(at: Address, bytes: Option<Bytes>)
    | BodyBack(chunk: Bytes)

  datatype Outcome =
    | Done          // the transaction is durable
    | Conflict      // a put or delete that lost to a newer one
    | Dropped       // a POST that changes nothing
    | Failed        // ChangedError or KeyError reached the caller
    | NotFound
    | Deleted
    | Served(inode: nat, body: Bytes)

  datatype Pc =
    | Opening
    | Opened(id: nat)
    | Reading(id: nat, version: nat, tries: nat, call: MetaCall)
    | Serving(id: nat, offset: nat, out: Bytes, tries: nat, bodyCall: BodyCall)
    | Confirming(id: nat)
    | Settling(id: nat, local: nat)
    | Finished(outcome: Outcome)

  datatype Req = Req(name: string, task: Task, pc: Pc)

  /** One decision, in the order they are taken. */
  datatype Event =
    | HandedName(rid: nat, name: string, ts: nat, deleted: bool, data: Bytes, meta: Headers)
    | Posted(rid: nat, name: string, post: Headers)

  /** The end of a transaction: its name, how many operations there are up to
      it, and how many decisions they carry out. */
  datatype Cut = Cut(name: string, end: nat, decisions: nat)

  datatype Sys = Sys(
    journal: Journal,
    applied: nat,              // operations BlueStore has been handed and applied
    durable: map<nat, nat>,    // per collection, operations that survive a crash
    objs: map<nat, Obj>,
    names: map<string, Slot>,  // the Device's map
    reqs: map<nat, Req>,
    next: nat,                 // the next unused identity
    decided: seq<Event>,
    ends: seq<nat>,            // operations prepared by the end of each decision
    cuts: seq<Cut>)

  function DurableOf(c: Config, s: Sys, name: string): nat {
    if c.collection(name) in s.durable then s.durable[c.collection(name)] else 0
  }

  predicate WellFormed(s: Sys) {
    && s.applied < |s.journal.stores|
    && (forall n :: n in s.names ==> s.names[n].id in s.objs)
    && (forall r :: r in s.reqs ==> forall id :: id in Pins(s.reqs[r]) ==> id in s.objs)
  }

  function Visible(s: Sys): Store
    requires s.applied < |s.journal.stores|
  {
    s.journal.stores[s.applied]
  }

  /** The Objects a request keeps alive. */
  function Pins(r: Req): set<nat> {
    (if r.task.Put? && !r.pc.Finished? then {r.task.id} else {}) +
    (match r.pc
     case Opening | Finished(_) => {}
     case Opened(id) => {id}
     case Reading(id, _, _, _) => {id}
     case Serving(id, _, _, _, _) => {id}
     case Confirming(id) => {id}
     case Settling(id, _) => {id})
  }

  function At(s: Sys, rid: nat, pc: Pc): Sys
    requires rid in s.reqs
  {
    s.(reqs := s.reqs[rid := s.reqs[rid].(pc := pc)])
  }

  // ----- the store's own steps -----

  function Land(s: Sys): Sys { s.(applied := s.applied + 1) }

  function Commit(s: Sys, collection: nat, end: nat): Sys { s.(durable := s.durable[collection := end]) }

  // ----- writers -----

  function Create(s: Sys, name: string, estimate: nat): Sys {
    s.(journal := Registered(s.journal, s.next, name, estimate),
       objs := s.objs[s.next := Created(name, estimate, s.next)],
       next := s.next + 1)
  }

  /** A transaction's end is noted with the number of decisions taken so far. */
  function Noting(s: Sys, name: string): Sys {
    s.(cuts := s.cuts + [Cut(name, Length(s.journal), |s.decided|)])
  }

  function WriteChunk(s: Sys, id: nat, bytes: Bytes): Sys
    requires id in s.objs
  {
    var (j, o) := Wrote(s.journal, s.objs[id], bytes);
    Noting(s.(journal := j, objs := s.objs[id := o]), o.stat.name)
  }

  /** The last holder lets go: the Object is destroyed and the map forgets it. */
  function Release(s: Sys, id: nat): Sys
    requires id in s.objs
  {
    var o := s.objs[id];
    var n := o.stat.name;
    var t := s.(journal := Removed(s.journal, o), objs := s.objs - {id},
                names := if n in s.names && s.names[n] == Found(id) then s.names - {n} else s.names);
    if o.stat.state in {InWrite, Old} then Noting(t, n) else t
  }

  // ----- searching -----

  function StartSearch(s: Sys, name: string): Sys {
    s.(objs := s.objs[s.next := Obj(Stat(name, 0, false, PreSearch), 0, 0, 0, 0)],
       names := s.names[name := Searching(s.next, false)],
       next := s.next + 1)
  }

  /** Object::open: what BlueStore has been handed says whether the name is held. */
  function SearchLoad(s: Sys, name: string): Sys
    requires WellFormed(s) && name in s.names
  {
    var id := s.names[name].id;
    var o := s.objs[id];
    var at := Ordinary(name);
    var found := if at in Visible(s) && Visible(s)[at].attrs.Some?
                 then o.(stat := Load(at, Visible(s)[at].attrs.value), inode := Visible(s)[at].inode)
                 else o.(stat := o.stat.(state := Missing));
    s.(objs := s.objs[id := found], names := s.names[name := Searching(id, true)])
  }

  function SearchDone(s: Sys, name: string): Sys
    requires name in s.names
  {
    s.(names := s.names[name := Found(s.names[name].id)])
  }

  // ----- decisions -----

  /** Backend::put by the request: the name goes to `id`, unless it is not newer. */
  function HandName(s: Sys, rid: nat, id: nat, prev: nat, ts: nat, header: Bytes, event: Event): Sys
    requires rid in s.reqs && id in s.objs && prev in s.objs
  {
    var n := s.reqs[rid].name;
    var (j, o) := Marked(s.journal, s.objs[id], header);
    var marked := Noting(s.(journal := j, objs := s.objs[id := o]), n);
    var decided := marked.(decided := s.decided + [event], ends := s.ends + [Length(j)]);
    var p := s.objs[prev];
    if ts <= p.stat.ts then
      At(decided, rid, Finished(Conflict))
    else
      var k := PutJournal(j, o, p.stat, ts);
      var handed := decided.(journal := k, ends := s.ends + [Length(k)],
                             objs := marked.objs[prev := p.(stat := Retired(p.stat))][id := PutNext(j, o, p.stat, ts)],
                             names := s.names[n := Found(id)]);
      At(Noting(handed, n), rid, Confirming(id))
  }

  function TombstoneObj(s: Sys, name: string, estimate: nat): Obj {
    var o := Created(name, estimate, s.next);
    o.(stat := o.stat.(deleted := true))
  }

  function DecidePut(c: Config, s: Sys, rid: nat, prev: nat, got: Option<Got>): Sys
    requires rid in s.reqs && s.reqs[rid].task.Put? && s.reqs[rid].task.id in s.objs && prev in s.objs
  {
    var r := s.reqs[rid];
    var inode := s.objs[r.task.id].inode;
    var data := if inode in s.journal.recs then s.journal.recs[inode].data else [];
    HandName(s, rid, r.task.id, prev, r.task.ts, c.encode(Metadata.Put(got, r.task.meta)),
             HandedName(rid, r.name, r.task.ts, false, data, r.task.meta))
  }

  function DecideDelete(c: Config, s: Sys, rid: nat, prev: nat, got: Option<Got>, estimate: nat): Sys
    requires rid in s.reqs && s.reqs[rid].task.Delete? && prev in s.objs
  {
    var r := s.reqs[rid];
    var t := s.(journal := Registered(s.journal, s.next, r.name, estimate),
                objs := s.objs[s.next := TombstoneObj(s, r.name, estimate)], next := s.next + 1);
    HandName(t, rid, s.next, prev, r.task.ts, c.encode(Metadata.Delete(got, r.task.ts, r.task.tombstone)),
             HandedName(rid, r.name, r.task.ts, true, [], TombstoneHeaders(r.task.ts, r.task.tombstone)))
  }

  function DecidePost(c: Config, s: Sys, rid: nat, prev: nat, got: Option<Got>): Sys
    requires rid in s.reqs && s.reqs[rid].task.Post? && prev in s.objs
  {
    var r := s.reqs[rid];
    var posted := s.(decided := s.decided + [Posted(rid, r.name, r.task.post)]);
    match Metadata.Post(got, r.task.post)
    case Unchanged => At(posted.(ends := s.ends + [Length(s.journal)]), rid, Finished(Dropped))
    case KeyError => At(posted.(ends := s.ends + [Length(s.journal)]), rid, Finished(Failed))
    case Rewrite(blob) =>
      var (j, o) := Marked(s.journal, s.objs[prev], c.encode(blob));
      var written := posted.(journal := j, ends := s.ends + [Length(j)],
                             objs := s.objs[prev := o.(version := o.version + 1)]);
      At(Noting(written, r.name), rid, Confirming(prev))
  }

  function Decide(c: Config, s: Sys, rid: nat, prev: nat, got: Option<Got>, estimate: nat): Sys
    requires rid in s.reqs && !s.reqs[rid].task.Get? && prev in s.objs
    requires s.reqs[rid].task.Put? ==> s.reqs[rid].task.id in s.objs
  {
    match s.reqs[rid].task
    case Put(_, _, _) => DecidePut(c, s, rid, prev, got)
    case Delete(_, _) => DecideDelete(c, s, rid, prev, got, estimate)
    case Post(_) => DecidePost(c, s, rid, prev, got)
  }

  // ----- a request's own steps -----

  const RETRIES: nat := 4

  /** The @retry wrapper round read_metadata: it starts again, a few times. */
  function MetaRetry(s: Sys, rid: nat, id: nat, tries: nat): Sys
    requires rid in s.reqs && id in s.objs
  {
    if tries < RETRIES then At(s, rid, Reading(id, s.objs[id].version, tries + 1, SyncCall))
    else At(s, rid, Finished(Failed))
  }

  /** impl::check: the entry at the address still has the Object's timestamp. */
  predicate ChecksOut(s: Sys, id: nat, at: Address)
    requires WellFormed(s) && id in s.objs
  {
    && at in Visible(s) && Visible(s)[at].attrs.Some?
    && Visible(s)[at].attrs.value.ts == s.objs[id].stat.ts
  }

  function ReadSize(c: Config, offset: nat, stop: Option<nat>): nat {
    if stop.Some? && stop.value > offset then Min(stop.value - offset, c.chunk) else c.chunk
  }

  /** The top of app_iter_range's loop. */
  function ServeOn(s: Sys, rid: nat, id: nat, offset: nat, out: Bytes): Sys
    requires rid in s.reqs && s.reqs[rid].task.Get? && id in s.objs
  {
    var stop := s.reqs[rid].task.stop;
    if stop.Some? && stop.value <= offset then At(s, rid, Finished(Served(s.objs[id].inode, out)))
    else At(s, rid, Serving(id, offset, out, 0, BodyFetch))
  }

  /** Whether the request's next step takes its decision, and on what: the
      Object that holds the name, and its metadata if there is any. */
  function Deciding(c: Config, s: Sys, rid: nat): Option<(nat, Option<Got>)>
    requires rid in s.reqs && WellFormed(s)
  {
    var r := s.reqs[rid];
    if r.task.Get? then None
    else match r.pc
      case Opening =>
        if r.name in s.names && s.names[r.name].Found? && s.objs[s.names[r.name].id].stat.state == Missing
        then Some((s.names[r.name].id, None)) else None
      case Reading(id, version, _, MetaBack(data, chunk)) =>
        if s.objs[id].version == version && |chunk| < c.chunk && r.name in s.names && s.names[r.name] == Found(id)
        then Some((id, Some(Metadata.Get(c.decode(data + chunk))))) else None
      case _ => None
  }

  function StepReading(c: Config, s: Sys, rid: nat): Sys
    requires WellFormed(s) && rid in s.reqs && s.reqs[rid].pc.Reading?
  {
    var r := s.reqs[rid];
    var Reading(id, version, tries, call) := r.pc;
    var o := s.objs[id];
    match call
    case SyncCall => At(s, rid, r.pc.(call := SyncWait(o.done)))
    case SyncWait(_) => At(s, rid, r.pc.(call := MetaFetch([])))
    case MetaFetch(data) => At(s, rid, r.pc.(call := MetaAt(data, AddressOf(o.stat))))
    case MetaAt(data, at) =>
      At(s, rid, r.pc.(call := MetaCheck(data, at, if at in Visible(s) then Some(Visible(s)[at].header) else None)))
    case MetaCheck(data, at, header) =>
      if header.Some? && ChecksOut(s, id, at)
      then At(s, rid, r.pc.(call := MetaBack(data, Slice(header.value, |data|, |data| + c.chunk))))
      else MetaRetry(s, rid, id, tries)
    case MetaBack(data, chunk) =>
      if o.version != version then At(s, rid, Reading(id, o.version, tries, SyncCall))
      else if |chunk| >= c.chunk then At(s, rid, r.pc.(call := MetaFetch(data + chunk)))
      else if !r.task.Get? then At(s, rid, Opening)
      else if o.stat.deleted then At(s, rid, Finished(Deleted))
      else ServeOn(s, rid, id, r.task.start, [])
  }

  function StepServing(c: Config, s: Sys, rid: nat): Sys
    requires WellFormed(s) && rid in s.reqs && s.reqs[rid].pc.Serving? && s.reqs[rid].task.Get?
  {
    var r := s.reqs[rid];
    var Serving(id, offset, out, tries, call) := r.pc;
    var size := ReadSize(c, offset, r.task.stop);
    match call
    case BodyFetch => At(s, rid, r.pc.(bodyCall := BodyAt(AddressOf(s.objs[id].stat))))
    case BodyAt(at) =>
      At(s, rid, r.pc.(bodyCall := BodyCheck(at,
        if at in Visible(s) then Some(Slice(Visible(s)[at].data, offset, offset + size)) else None)))
    case BodyCheck(at, bytes) =>
      if bytes.Some? && ChecksOut(s, id, at) then At(s, rid, r.pc.(bodyCall := BodyBack(bytes.value)))
      else if tries < RETRIES then At(s, rid, Serving(id, offset, out, tries + 1, BodyFetch))
      else At(s, rid, Finished(Failed))
    case BodyBack(chunk) =>
      if chunk == [] || |chunk| != size then At(s, rid, Finished(Served(s.objs[id].inode, out + chunk)))
      else ServeOn(s, rid, id, offset + |chunk|, out + chunk)
  }

  function StepOpening(s: Sys, rid: nat): Sys
    requires WellFormed(s) && rid in s.reqs && s.reqs[rid].pc == Opening
  {
    var r := s.reqs[rid];
    if r.name !in s.names then StartSearch(s, r.name)
    else
      var id := s.names[r.name].id;
      if r.task.Get? then At(s, rid, Opened(id))
      else At(s, rid, Reading(id, s.objs[id].version, 0, SyncCall))
  }

  function Advance(c: Config, s: Sys, rid: nat, estimate: nat): Sys
    requires WellFormed(s) && rid in s.reqs && (s.reqs[rid].pc.Serving? ==> s.reqs[rid].task.Get?)
  {
    var r := s.reqs[rid];
    var d := Deciding(c, s, rid);
    if d.Some? then Decide(c, s, rid, d.value.0, d.value.1, estimate)
    else match r.pc
      case Opening => StepOpening(s, rid)
      case Opened(id) =>
        if s.objs[id].stat.state == Missing then At(s, rid, Finished(NotFound))
        else At(s, rid, Reading(id, s.objs[id].version, 0, SyncCall))
      case Reading(_, _, _, _) => StepReading(c, s, rid)
      case Serving(_, _, _, _, _) => StepServing(c, s, rid)
      case Confirming(id) => At(s, rid, Settling(id, s.objs[id].done))
      case Settling(_, _) => At(s, rid, Finished(Done))
      case Finished(_) => s
  }

  // ----- which steps there are -----

  datatype Step =
    | LandStep
    | CommitStep(collection: nat, end: nat)
    | CreateStep(name: string, estimate: nat)
    | WriteStep(id: nat, bytes: Bytes)
    | ReleaseStep(id: nat)
    | LoadStep(name: string)
    | FoundStep(name: string)
    | BeginStep(rid: nat, name: string, task: Task)
    | AdvanceStep(rid: nat, estimate: nat)

  /** No Object of the name, other than this one, was stamped by the clock with this timestamp. */
  predicate NoOtherEstimate(recs: map<nat, Rec>, inode: nat, name: string, ts: nat) {
    forall i :: i in recs && i != inode && recs[i].name == name ==> recs[i].estimate != Some(ts)
  }

  /** No version of the name has this timestamp, estimated or settled. */
  predicate FreshStamp(recs: map<nat, Rec>, name: string, ts: nat) {
    forall i :: i in recs && recs[i].name == name ==> !IsStamp(recs[i], ts)
  }

  /** The clock never gives the timestamp of another version of the name, nor a
      request's timestamp the clock's: they share the temporary space. */
  predicate Separate(s: Sys, rid: nat, estimate: nat)
    requires rid in s.reqs && (s.reqs[rid].task.Put? ==> s.reqs[rid].task.id in s.objs)
  {
    var r := s.reqs[rid];
    && (r.task.Put? ==> NoOtherEstimate(s.journal.recs, s.objs[r.task.id].inode, r.name, r.task.ts))
    && (r.task.Delete? ==>
          && FreshStamp(s.journal.recs, r.name, estimate)
          && NoOtherEstimate(s.journal.recs, s.next, r.name, r.task.ts))
  }

  predicate Waiting(c: Config, s: Sys, rid: nat)
    requires rid in s.reqs
  {
    var r := s.reqs[rid];
    match r.pc
    case Opening => r.name in s.names && s.names[r.name].Searching?
    case Reading(_, _, _, SyncWait(local)) => local > DurableOf(c, s, r.name)
    case Settling(_, local) => local > DurableOf(c, s, r.name)
    case Finished(_) => true
    case _ => false
  }

  predicate Enabled(c: Config, s: Sys, step: Step) {
    && WellFormed(s)
    && match step
       case LandStep => s.applied < |s.journal.stores| - 1
       case CommitStep(collection, end) =>
         && (collection in s.durable ==> s.durable[collection] <= end)
         && end <= s.applied
         && (exists cut :: cut in s.cuts && cut.end == end)
       case CreateStep(name, estimate) => FreshStamp(s.journal.recs, name, estimate)
       case WriteStep(id, _) =>
         && id in s.objs && s.objs[id].stat.state in {PreWrite, InWrite} && !s.objs[id].stat.deleted
         && (forall r :: r in s.reqs ==> !(s.reqs[r].task.Put? && s.reqs[r].task.id == id))
       case ReleaseStep(id) =>
         && id in s.objs
         && (forall r :: r in s.reqs ==> id !in Pins(s.reqs[r]))
         && (forall n :: n in s.names && s.names[n].Searching? ==> s.names[n].id != id)
       case LoadStep(name) => name in s.names && s.names[name].Searching? && !s.names[name].loaded
       case FoundStep(name) => name in s.names && s.names[name].Searching? && s.names[name].loaded
       case BeginStep(rid, name, task) =>
         && rid !in s.reqs
         && (task.Put? ==>
               && task.id in s.objs && s.objs[task.id].stat.name == name
               && s.objs[task.id].stat.state in {PreWrite, InWrite} && !s.objs[task.id].stat.deleted
               && (forall r :: r in s.reqs ==> !(s.reqs[r].task.Put? && s.reqs[r].task.id == task.id)))
       case AdvanceStep(rid, estimate) =>
         && rid in s.reqs && (s.reqs[rid].pc.Serving? ==> s.reqs[rid].task.Get?)
         && !Waiting(c, s, rid)
         && (Deciding(c, s, rid).Some? ==> Separate(s, rid, estimate))
  }

  function Do(c: Config, s: Sys, step: Step): Sys
    requires Enabled(c, s, step)
  {
    match step
    case LandStep => Land(s)
    case CommitStep(collection, end) => Commit(s, collection, end)
    case CreateStep(name, estimate) => Create(s, name, estimate)
    case WriteStep(id, bytes) => WriteChunk(s, id, bytes)
    case ReleaseStep(id) => Release(s, id)
    case LoadStep(name) => SearchLoad(s, name)
    case FoundStep(name) => SearchDone(s, name)
    case BeginStep(rid, name, task) => s.(reqs := s.reqs[rid := Req(name, task, Opening)])
    case AdvanceStep(rid, estimate) => Advance(c, s, rid, estimate)
  }
}
