/** A range read on its own (reader.py over device.py), with nobody else at
    work: the chunks are the range, in order, and none is longer than asked. */
module RangeReader {
  import opened Base
  import opened Engine
  import opened EngineObjects

  /** What Device.read's @retry allows: the waits before each further try. */
  const TRIES: nat := 5

  function Concat(chunks: seq<Bytes>): Bytes { if chunks == [] then [] else Concat(chunks[..|chunks| - 1]) + Last(chunks) }

  /** The Object's entry is there, and still the Object's. */
  ghost predicate Present(obj: Object)
    reads obj, obj.back
  {
    var at := AddressOf(obj.stat);
    && obj.stat.state in {Active, Old}
    && at in obj.back.store && obj.back.store[at].attrs.Some? && obj.back.store[at].attrs.value.ts == obj.stat.ts
  }

  ghost function Data(obj: Object): Bytes
    requires Present(obj)
    reads obj, obj.back
  {
    obj.back.store[AddressOf(obj.stat)].data
  }

  /** Device.read: one chunk, and whether it came up short. */
  method Read(obj: Object, chunkSize: nat, offset: nat, end: Option<nat>) returns (r: Result<Bytes>, eof: bool)
    requires chunkSize > 0 && (end.Some? ==> offset < end.value)
    ensures obj.stat.state in {Active, Old} && !Present(obj) ==> r == Err(ChangedError)
    ensures Present(obj) ==>
              var size := if end.Some? then Min(end.value - offset, chunkSize) else chunkSize;
              r == Ok(Slice(Data(obj), offset, offset + size)) && eof == (|r.value| != size)
  {
    var size := chunkSize;
    if end.Some? && end.value > 0 { size := Min(end.value - offset, chunkSize); }
    var tries := 0;
    r, eof := Err(ChangedError), false;
    while tries < TRIES
      invariant tries > 0 ==> !Present(obj) && (obj.stat.state in {Active, Old} ==> r == Err(ChangedError))
    {
      r := obj.Read(offset, size);
      if r != Err(ChangedError) {
        if r.Ok? { eof := |r.value| != size; }
        return;
      }
      tries := tries + 1;
    }
  }

  function SizeAt(offset: nat, stop: Option<nat>, chunkSize: nat): nat
    requires stop.Some? ==> offset < stop.value
  {
    if stop.Some? then Min(stop.value - offset, chunkSize) else chunkSize
  }

  /** One more chunk: it goes on where the last one ended, and a short one is the last. */
  lemma ChunkOk(data: Bytes, start: nat, offset: nat, stop: Option<nat>, chunkSize: nat)
    requires start <= offset && chunkSize > 0 && (stop.Some? ==> offset < stop.value)
    ensures var size := SizeAt(offset, stop, chunkSize);
            var chunk := Slice(data, offset, offset + size);
            && |chunk| <= chunkSize && (stop.Some? ==> offset + |chunk| <= stop.value)
            && Slice(data, start, offset) + chunk == Slice(data, start, offset + |chunk|)
            && (|chunk| != size || chunk == [] ==> offset + |chunk| >= |data|)
            && (chunk != [] ==> offset + |chunk| <= |data|)
  {
    var size := SizeAt(offset, stop, chunkSize);
    var end := Min(offset + size, |data|);
    if offset < end {
      assert Slice(data, offset, offset + size) == data[offset..end];
      assert Slice(data, start, offset) == data[start..offset] && Slice(data, start, end) == data[start..end];
      assert data[start..offset] + data[offset..end] == data[start..end];
    } else {
      assert Slice(data, offset, offset + size) == [];
      assert Slice(data, start, offset) + [] == Slice(data, start, offset);
    }
  }

  lemma RangeDone(data: Bytes, start: nat, offset: nat, stop: Option<nat>)
    requires start <= offset && (offset == start || stop.None? || offset <= stop.value)
    requires offset >= |data| || (stop.Some? && offset >= stop.value)
    ensures Slice(data, start, offset) == Slice(data, start, stop.GetOr(|data|))
  {
  }

  lemma ConcatAppend(chunks: seq<Bytes>, chunk: Bytes)
    ensures Concat(chunks + [chunk]) == Concat(chunks) + chunk
  {
    assert (chunks + [chunk])[..|chunks|] == chunks;
  }

  lemma NothingRead(data: Bytes, start: nat)
    ensures Slice(data, start, start) == []
  {
  }

  /** app_iter_range. */
  method AppIterRange(obj: Object, chunkSize: nat, start: Option<nat>, stop: Option<nat>) returns (r: Result<seq<Bytes>>)
    requires chunkSize > 0 && Present(obj)
    ensures r.Ok? && Concat(r.value) == Slice(Data(obj), start.GetOr(0), stop.GetOr(|Data(obj)|))
    ensures forall chunk :: chunk in r.value ==> 0 < |chunk| <= chunkSize
  {
    hide Slice, Present, Concat;
    var first := start.GetOr(0);
    var offset := first;
    var chunks: seq<Bytes> := [];
    ghost var data := Data(obj);
    NothingRead(data, first);
    assert Concat([]) == [] by { NothingYet(); }
    var more := true;
    while more && (stop.None? || offset < stop.value)
      invariant first <= offset && (offset == first || stop.None? || offset <= stop.value)
      invariant Concat(chunks) == Slice(data, first, offset)
      invariant forall chunk :: chunk in chunks ==> 0 < |chunk| <= chunkSize
      invariant !more ==> offset >= |data|
      decreases more, if offset < |data| then |data| - offset else 0
    {
      var chunk, eof := Read(obj, chunkSize, offset, stop);
      ChunkOk(data, first, offset, stop, chunkSize);
      if chunk.value == [] {
        more := false;
        break;
      }
      ConcatAppend(chunks, chunk.value);
      chunks := chunks + [chunk.value];
      offset := offset + |chunk.value|;
      more := !eof;
    }
    RangeDone(data, first, offset, stop);
    r := Ok(chunks);
  }

  lemma NothingYet()
    ensures Concat([]) == []
  {
  }
}
