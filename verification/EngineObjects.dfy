/** The engine's classes (object.cpp, backend.cpp, internal.cpp) as they change
    their fields, each call proved to be the step the rest of the project is about. */
module EngineObjects {
  import opened Base
  import opened Engine
  import opened Journals
  import opened Objects

  datatype Error = StateError | ConflictError | InvalidArgument | ChangedError

  datatype Result<T> = Ok(value: T) | Err(error: Error)

  function Flatten(queue: seq<seq<Op>>): seq<Op> {
    if queue == [] then [] else Flatten(queue[..|queue| - 1]) + Last(queue)
  }

  /** Backend::impl. `store` is what BlueStore shows; `queue` holds the
      transactions prepared and not yet handed to it. `journal` is the history
      the other modules speak of. */
  class Impl {
    var store: Store
    var queue: seq<seq<Op>>
    var prepared: nat
    ghost var journal: Journal
    ghost var handed: nat

    ghost predicate Valid()
      reads this
    {
      && handed <= |journal.ops| && journal.ops[handed..] == Flatten(queue)
      && handed < |journal.stores| && journal.stores[handed] == store
      && prepared == Length(journal)
    }

    constructor (store: Store, ghost recs: map<nat, Rec>)
      ensures Valid() && queue == [] && this.store == store && journal == Journal([store], [], recs)
    {
      this.store, queue, prepared := store, [], 0;
      journal, handed := Journal([store], [], recs), 0;
    }

    method Prepare(ops: seq<Op>)
      requires Valid()
      modifies this`queue, this`prepared, this`journal
      ensures Valid() && queue == old(queue) + [ops] && journal == Journals.Prepare(old(journal), ops)
    {
      queue, prepared := queue + [ops], prepared + |ops|;
      PrepareExtends(journal, ops);
      FlattenAppend(old(queue), ops);
      journal := Journals.Prepare(journal, ops);
    }

    /** The history notes what is being put, and when it will have taken its name. */
    ghost method Note(o: Obj, ts: nat)
      requires Valid()
      modifies this`journal
      ensures Valid() && journal == Stamped(old(journal), o, ts)
    {
      journal := Stamped(journal, o, ts);
    }

    ghost method NoteHanded(inode: nat)
      requires Valid()
      modifies this`journal
      ensures Valid() && journal == HandedOver(old(journal), inode)
    {
      journal := HandedOver(journal, inode);
    }

    /** The attributes of an entry and where it sits, as a Stat; none if there is no entry. */
    method Load(at: Address) returns (stored: Option<Stat>)
      ensures stored == if at in store && store[at].attrs.Some? then Some(Engine.Load(at, store[at].attrs.value)) else None
    {
      if at !in store || store[at].attrs.None? { return None; }
      var attrs := store[at].attrs.value;
      stored := Some(Stat(at.name, attrs.ts, attrs.deleted, if !at.temp then Active else if attrs.retired then Old else InWrite));
    }
  }

  lemma FlattenAppend(queue: seq<seq<Op>>, ops: seq<Op>)
    ensures Flatten(queue + [ops]) == Flatten(queue) + ops
  {
    assert (queue + [ops])[..|queue|] == queue;
  }

  lemma {:induction false} PrepareExtends(j: Journal, ops: seq<Op>)
    ensures var k := Prepare(j, ops);
            && k.ops == j.ops + ops && |j.stores| <= |k.stores|
            && (forall n :: 0 <= n < |j.stores| ==> k.stores[n] == j.stores[n])
    decreases |ops|
  {
    if ops != [] { PrepareExtends(Append(j, ops[0]), ops[1..]); }
  }

  class Object {
    const back: Impl
    var stat: Stat
    var written: nat
    var done: nat
    var inode: nat
    ghost var version: nat

    ghost function Value(): Obj
      reads this
    {
      Obj(stat, inode, written, done, version)
    }

    /** Backend::create. */
    constructor Create(back: Impl, name: string, ts: nat, inode: nat)
      ensures Value() == Created(name, ts, inode) && this.back == back
    {
      this.back, stat, written, done := back, Stat(name, ts, false, PreWrite), 0, 0;
      this.inode, version := inode, 0;
    }

    /** Backend::find. */
    constructor Find(back: Impl, name: string)
      ensures stat == Stat(name, 0, false, PreSearch) && written == 0 && done == 0 && this.back == back
    {
      this.back, stat, written, done := back, Stat(name, 0, false, PreSearch), 0, 0;
      inode, version := 0, 0;
    }

    /** The move constructor: what `other` owned is the new Object's. */
    constructor Move(other: Object)
      modifies other
      ensures back == other.back && Value() == old(other.Value())
      ensures other.stat == Stat(old(other.stat.name), 0, false, PreSearch) && other.written == 0
    {
      back, stat, written, done := other.back, other.stat, other.written, other.done;
      inode, version := other.inode, other.version;
      new;
      other.stat := Stat(other.stat.name, 0, false, PreSearch);
      other.written := 0;
    }

    /** The destructor. Nobody can hold the Object after it. */
    method Destroy()
      requires back.Valid()
      modifies back`queue, back`prepared, back`journal
      ensures back.Valid() && back.journal == Removed(old(back.journal), Value())
      ensures back.queue == if stat.state in {InWrite, Old} then old(back.queue) + [RemoveOps(stat)] else old(back.queue)
    {
      if stat.state != InWrite && stat.state != Old { return; }
      back.Prepare([Engine.Remove(AddressOf(stat))]);
    }

    method Open() returns (r: Result<()>)
      modifies this`stat
      ensures old(stat.state) != PreSearch ==> r == Err(StateError) && stat == old(stat)
      ensures old(stat.state) == PreSearch ==>
                var at := Ordinary(old(stat.name));
                && r == Ok(())
                && stat == if at in back.store && back.store[at].attrs.Some?
                           then Engine.Load(at, back.store[at].attrs.value)
                           else old(stat).(state := Missing)
    {
      if stat.state != PreSearch { return Err(StateError); }
      stat := stat.(state := InSearch);
      var stored := back.Load(AddressOf(stat));
      match stored {
        case None => stat := stat.(state := Missing);
        case Some(found) => stat := found;
      }
      r := Ok(());
    }

    /** impl::check: whether what was read was this Object's. */
    method Check(at: Address, present: bool) returns (ok: bool)
      ensures ok <==> present && at in back.store && back.store[at].attrs.Some? && back.store[at].attrs.value.ts == stat.ts
    {
      var stored := None;
      if present { stored := back.Load(at); }
      ok := stored.Some? && stored.value.ts == stat.ts;
    }

    /** With nothing landing in between: the bytes of the entry at the Object's
        address, if it is still the Object's. */
    method Read(offset: nat, size: nat) returns (r: Result<Bytes>)
      ensures stat.state !in {Active, Old} ==> r == Err(StateError)
      ensures stat.state in {Active, Old} ==>
                var at := AddressOf(stat);
                r == if size == 0 then Ok([])
                     else if at in back.store && back.store[at].attrs.Some? && back.store[at].attrs.value.ts == stat.ts
                     then Ok(Slice(back.store[at].data, offset, offset + size))
                     else Err(ChangedError)
    {
      if stat.state != Active && stat.state != Old { return Err(StateError); }
      if size == 0 { return Ok([]); }
      var at := AddressOf(stat);
      var present := at in back.store;
      var bytes := if present then Slice(back.store[at].data, offset, offset + size) else [];
      var same := Check(at, present);
      r := if same then Ok(bytes) else Err(ChangedError);
    }

    method ReadMetadata(offset: nat, size: nat) returns (r: Result<Bytes>)
      ensures stat.state !in {Active, Old} ==> r == Err(StateError)
      ensures stat.state in {Active, Old} ==>
                var at := AddressOf(stat);
                r == if at in back.store && back.store[at].attrs.Some? && back.store[at].attrs.value.ts == stat.ts
                     then Ok(Slice(back.store[at].header, offset, offset + size))
                     else Err(ChangedError)
    {
      if stat.state != Active && stat.state != Old { return Err(StateError); }
      var at := AddressOf(stat);
      var present := at in back.store;
      var header := if present then back.store[at].header else [];
      var same := Check(at, present);
      if !same { return Err(ChangedError); }
      if offset >= |header| { return Ok([]); }
      var length := Min(size, |header| - offset);
      r := Ok(header[offset..offset + length]);
      assert r.value == Slice(header, offset, offset + size);
    }

    method Write(data: Bytes) returns (r: Result<()>)
      requires back.Valid()
      modifies this`stat, this`written, this`done, back`queue, back`prepared, back`journal
      ensures back.Valid()
      ensures old(stat.state) !in {PreWrite, InWrite} ==>
                r == Err(StateError) && Value() == old(Value()) && back.journal == old(back.journal) && back.queue == old(back.queue)
      ensures old(stat.state) in {PreWrite, InWrite} ==>
                && r == Ok(()) && (back.journal, Value()) == Wrote(old(back.journal), old(Value()), data)
                && back.queue == old(back.queue) + [WriteOps(old(stat), inode, old(written), data)]
    {
      if stat.state != PreWrite && stat.state != InWrite { return Err(StateError); }
      var at := AddressOf(stat);
      var t: seq<Op> := [];
      if stat.state == PreWrite {
        stat := stat.(state := InWrite);
        t := t + [Touch(at, inode), SetAttrs(AddressOf(stat), AttrsOf(stat))];
      }
      t := t + [Engine.Write(at, written, data)];
      assert t == WriteOps(old(stat), inode, written, data);
      written := written + |data|;
      back.Prepare(t);
      done := back.prepared;
      r := Ok(());
    }

    method WriteMetadata(data: Bytes) returns (r: Result<()>)
      requires back.Valid()
      modifies this`stat, this`done, back`queue, back`prepared, back`journal
      ensures back.Valid()
      ensures old(stat.state) !in {PreWrite, InWrite, Active} ==>
                r == Err(StateError) && Value() == old(Value()) && back.journal == old(back.journal) && back.queue == old(back.queue)
      ensures old(stat.state) in {PreWrite, InWrite, Active} ==>
                && r == Ok(()) && (back.journal, Value()) == Marked(old(back.journal), old(Value()), data)
                && back.queue == old(back.queue) + [HeaderOps(old(stat), inode, data)]
    {
      if stat.state != PreWrite && stat.state != InWrite && stat.state != Active { return Err(StateError); }
      var at := AddressOf(stat);
      var t: seq<Op> := [];
      if stat.state == PreWrite {
        stat := stat.(state := InWrite);
        t := t + [Touch(at, inode)];
      }
      t := t + [SetHeader(at, data), SetAttrs(AddressOf(stat), AttrsOf(stat))];
      assert t == HeaderOps(old(stat), inode, data);
      back.Prepare(t);
      done := back.prepared;
      r := Ok(());
    }

    /** Only an Object nothing was written to becomes a tombstone. */
    method Tombstone(data: Bytes) returns (r: Result<()>)
      requires back.Valid()
      modifies this`stat, this`done, back`queue, back`prepared, back`journal
      ensures back.Valid()
      ensures old(stat.state) != PreWrite ==>
                r == Err(StateError) && Value() == old(Value()) && back.journal == old(back.journal) && back.queue == old(back.queue)
      ensures old(stat.state) == PreWrite ==>
                && r == Ok(()) && stat == old(stat).(deleted := true, state := InWrite)
                && (back.journal, Value()) == Marked(old(back.journal), old(Value()).(stat := old(stat).(deleted := true)), data)
    {
      if stat.state != PreWrite { return Err(StateError); }
      stat := stat.(deleted := true);
      r := WriteMetadata(data);
    }
  }

  /** Backend::put. Without a timestamp the name is taken at the estimate. */
  method Put(back: Impl, next: Object, prev: Object, ts: Option<nat>) returns (r: Result<()>)
    requires back.Valid() && next != prev
    modifies next`stat, next`done, prev`stat, back`queue, back`prepared, back`journal
    ensures back.Valid()
    ensures var settled := ts.GetOr(old(next.stat.ts));
            r == if old(next.stat.state) != InWrite || old(prev.stat.state) !in {Active, Missing} then Err(StateError)
                 else if old(next.stat.name) != old(prev.stat.name) || next.back != back || prev.back != back then Err(InvalidArgument)
                 else if settled <= old(prev.stat.ts) then Err(ConflictError)
                 else Ok(())
    ensures r.Err? ==>
              && next.Value() == old(next.Value()) && prev.Value() == old(prev.Value())
              && back.queue == old(back.queue) && back.journal == old(back.journal)
    ensures r.Ok? && old(next.inode) in old(back.journal.recs) ==>
              var settled := ts.GetOr(old(next.stat.ts));
              && back.queue == old(back.queue) + [PutOps(old(next.stat), old(prev.stat), settled)]
              && back.journal == PutJournal(old(back.journal), old(next.Value()), old(prev.stat), settled)
              && next.Value() == PutNext(old(back.journal), old(next.Value()), old(prev.stat), settled)
              && prev.stat == Retired(old(prev.stat))
  {
    hide Journals.Prepare, Stamped, HandedOver, AttrsOf, AddressOf, Flatten;
    if next.stat.state != InWrite { return Err(StateError); }
    if prev.stat.state != Active && prev.stat.state != Missing { return Err(StateError); }
    if next.stat.name != prev.stat.name || next.back != back || prev.back != back { return Err(InvalidArgument); }
    var settled := match ts { case Some(t) => t case None => next.stat.ts };
    if settled <= prev.stat.ts { return Err(ConflictError); }
    var t: seq<Op> := [];
    if prev.stat.state == Active {
      var from := AddressOf(prev.stat);
      prev.stat := prev.stat.(state := Old);
      t := t + [Rename(from, AddressOf(prev.stat)), SetAttrs(AddressOf(prev.stat), AttrsOf(prev.stat))];
    }
    var from := AddressOf(next.stat);
    back.Note(next.Value(), settled);
    next.stat := next.stat.(state := Active, ts := settled);
    t := t + [Rename(from, AddressOf(next.stat)), SetAttrs(AddressOf(next.stat), AttrsOf(next.stat))];
    assert t == PutOps(old(next.stat), old(prev.stat), settled);
    back.Prepare(t);
    back.NoteHanded(next.inode);
    next.done := back.prepared;
    r := Ok(());
  }

  const TICKS: nat := 100_000   // a tick is 10 microseconds

  /** Where write estimates come from. */
  class Clock {
    var last: nat

    constructor ()
      ensures last == 0
    {
      last := 0;
    }

    /** estimate(): the time now, but always later than the last estimate. */
    method Estimate(now: nat) returns (ts: nat)
      modifies this
      ensures ts == last && ts > old(last) && ts >= now / (1_000_000 / TICKS)
      ensures ts == now / (1_000_000 / TICKS) || ts == old(last) + 1
    {
      var ticks := now / (1_000_000 / TICKS);
      last := if ticks > last + 1 then ticks else last + 1;
      ts := last;
    }
  }

  /** Estimates of one process never repeat, whatever the system's clock does. */
  method Estimates(clock: Clock, times: seq<nat>) returns (stamps: seq<nat>)
    modifies clock
    ensures |stamps| == |times|
    ensures forall i, k :: 0 <= i < k < |stamps| ==> stamps[i] < stamps[k]
    ensures forall i :: 0 <= i < |stamps| ==> old(clock.last) < stamps[i]
  {
    stamps := [];
    for i := 0 to |times|
      invariant |stamps| == i && old(clock.last) <= clock.last
      invariant forall k :: 0 <= k < i ==> old(clock.last) < stamps[k] <= clock.last
      invariant forall k, l :: 0 <= k < l < i ==> stamps[k] < stamps[l]
    {
      var ts := clock.Estimate(times[i]);
      stamps := stamps + [ts];
    }
  }
}
