/** Reading a fragment archive: whatever the chunks are, its fragments are
    checked one by one, in order, each whole. */
module ErasureReader {
  import opened Base

  // ----- the archive as fragments -----

  function Fragments(archive: Bytes, size: nat): seq<Bytes>
    requires size > 0
    decreases |archive|
  {
    if |archive| < size then [] else [archive[..size]] + Fragments(archive[size..], size)
  }

  function Rest(archive: Bytes, size: nat): (r: Bytes)
    requires size > 0
    decreases |archive|
    ensures |r| < size
  {
    if |archive| < size then archive else Rest(archive[size..], size)
  }

  /** Fragment k is the k-th slice of `size` bytes, and nothing but the rest is left over. */
  lemma {:induction false} FragmentsAre(archive: Bytes, size: nat, k: nat)
    requires size > 0 && k < |Fragments(archive, size)|
    ensures k * size + size <= |archive| && Fragments(archive, size)[k] == archive[k * size..k * size + size]
    decreases k
  {
    if k > 0 {
      var later := archive[size..];
      FragmentsAre(later, size, k - 1);
      SliceLater(archive, size, (k - 1) * size);
      OneMore(k - 1, size);
    }
  }

  lemma OneMore(n: nat, size: nat)
    ensures (n + 1) * size == n * size + size
  {
  }

  lemma SliceLater(archive: Bytes, size: nat, a: nat)
    requires size <= |archive| && a + size <= |archive[size..]|
    ensures archive[size..][a..a + size] == archive[a + size..a + size + size]
  {
  }

  lemma {:induction false} RestIs(archive: Bytes, size: nat)
    requires size > 0
    ensures var n := |Fragments(archive, size)| * size;
            n <= |archive| && Rest(archive, size) == archive[n..]
    decreases |archive|
  {
    if |archive| >= size {
      var later := archive[size..];
      RestIs(later, size);
      var n := |Fragments(later, size)|;
      assert |Fragments(archive, size)| == n + 1;
      assert (n + 1) * size == n * size + size;
      assert later[n * size..] == archive[n * size + size..];
    }
  }

  lemma {:induction false} Append(archive: Bytes, chunk: Bytes, size: nat)
    requires size > 0
    ensures Fragments(archive + chunk, size) == Fragments(archive, size) + Fragments(Rest(archive, size) + chunk, size)
    ensures Rest(archive + chunk, size) == Rest(Rest(archive, size) + chunk, size)
    decreases |archive|
  {
    if |archive| >= size {
      assert (archive + chunk)[..size] == archive[..size];
      assert (archive + chunk)[size..] == archive[size..] + chunk;
      Append(archive[size..], chunk, size);
    }
  }

  ghost predicate AllFine(corrupt: Bytes -> bool, frags: seq<Bytes>) { forall f :: f in frags ==> !corrupt(f) }

  /** The fragment at the cursor is the next of them all. */
  lemma NextFragment(buf: Bytes, cursor: nat, size: nat, checked: seq<Bytes>, all: seq<Bytes>)
    requires size > 0 && cursor + size <= |buf| && checked + Fragments(buf[cursor..], size) == all
    ensures var frag := buf[cursor..cursor + size];
            && |frag| == size && |checked| < |all| && all[|checked|] == frag && checked == all[..|checked|]
            && (checked + [frag]) + Fragments(buf[cursor + size..], size) == all
            && Rest(buf[cursor..], size) == Rest(buf[cursor + size..], size)
            && |checked + [frag]| * size == |checked| * size + size
  {
    var later := buf[cursor..];
    assert later[..size] == buf[cursor..cursor + size] && later[size..] == buf[cursor + size..];
    assert (|checked| + 1) * size == |checked| * size + size;
  }

  /** One corrupt fragment decides; a fine one adds to the fine ones. */
  lemma FineSoFar(corrupt: Bytes -> bool, checked: seq<Bytes>, frag: Bytes, all: seq<Bytes>)
    requires AllFine(corrupt, checked) && |checked| < |all| && all[|checked|] == frag
    ensures corrupt(frag) ==> !AllFine(corrupt, all)
    ensures !corrupt(frag) ==> AllFine(corrupt, checked + [frag])
  {
    assert frag in all;
  }

  /** What was checked is what comes before the first corrupt one. */
  ghost predicate StoppedAt(corrupt: Bytes -> bool, checked: seq<Bytes>, all: seq<Bytes>) {
    checked < all && AllFine(corrupt, checked) && corrupt(all[|checked|])
  }

  lemma NoMoreFragments(buf: Bytes, size: nat)
    requires |buf| < size
    ensures Fragments(buf, size) == [] && Rest(buf, size) == buf
  {
  }

  // ----- the reader -----

  datatype Result = Fine | Quarantined

  /** ECDiskFileReader's checks. `corrupt` is what the erasure-code library
      says of a fragment; `checked` lists the fragments found fine. */
  class Reader {
    const fragSize: nat
    const corrupt: Bytes -> bool
    var fragBuf: Option<Bytes>
    var fragOffset: nat
    var checked: seq<Bytes>

    constructor (fragSize: nat, corrupt: Bytes -> bool)
      ensures this.fragSize == fragSize && this.corrupt == corrupt && fragBuf == None && fragOffset == 0 && checked == []
    {
      this.fragSize, this.corrupt, fragBuf, fragOffset, checked := fragSize, corrupt, None, 0, [];
    }

    /** Only a read from the start is checked. */
    method InitChecks(startedAt0: bool)
      modifies this`fragBuf
      ensures fragBuf == if startedAt0 then Some([]) else None
    {
      fragBuf := if startedAt0 then Some([]) else None;
    }

    method CheckFrag(frag: Bytes) returns (r: Result)
      modifies this`checked
      ensures r.Quarantined? <==> frag != [] && corrupt(frag)
      ensures checked == if frag != [] && r.Fine? then old(checked) + [frag] else old(checked)
    {
      if frag == [] { return Fine; }
      if corrupt(frag) { return Quarantined; }
      checked := checked + [frag];
      r := Fine;
    }

    /** What has been read of the archive so far, and all of it fine. */
    ghost predicate Valid(archive: Bytes)
      reads this
    {
      && fragSize > 0 && fragBuf == Some(Rest(archive, fragSize)) && checked == Fragments(archive, fragSize)
      && fragOffset == |checked| * fragSize
      && AllFine(corrupt, checked)
    }

    /** One more chunk. The read is quarantined exactly if a fragment that is now
        complete is corrupt, at the offset of the first such fragment. */
    method UpdateChecks(chunk: Bytes, ghost archive: Bytes) returns (r: Result)
      requires Valid(archive)
      modifies this`fragBuf, this`fragOffset, this`checked
      ensures r.Fine? ==> Valid(archive + chunk)
      ensures r.Fine? <==> AllFine(corrupt, Fragments(archive + chunk, fragSize))
      ensures r.Quarantined? ==> StoppedAt(corrupt, checked, Fragments(archive + chunk, fragSize)) && fragOffset == |checked| * fragSize
    {
      hide Fragments, Rest, AllFine;
      var buf := fragBuf.value + chunk;
      fragBuf := Some(buf);
      ghost var all := Fragments(archive + chunk, fragSize);
      Append(archive, chunk, fragSize);
      var cursor := 0;
      assert buf[0..] == buf;
      while |buf| >= cursor + fragSize
        invariant cursor <= |buf| && fragBuf == Some(buf)
        invariant checked + Fragments(buf[cursor..], fragSize) == all
        invariant Rest(buf[cursor..], fragSize) == Rest(archive + chunk, fragSize)
        invariant fragOffset == |checked| * fragSize && AllFine(corrupt, checked)
      {
        var frag := buf[cursor..cursor + fragSize];
        NextFragment(buf, cursor, fragSize, checked, all);
        FineSoFar(corrupt, checked, frag, all);
        r := CheckFrag(frag);
        if r.Quarantined? { return; }
        cursor, fragOffset := cursor + fragSize, fragOffset + fragSize;
      }
      NoMoreFragments(buf[cursor..], fragSize);
      if cursor > 0 { fragBuf := Some(buf[cursor..]); }
      r := Fine;
    }

    /** Closing checks what is left over, if anything, as one last fragment. */
    method HandleCloseQuarantine() returns (r: Result)
      modifies this`checked
      ensures fragBuf.None? ==> r == Fine && checked == old(checked)
      ensures fragBuf.Some? ==>
                && (r.Quarantined? <==> fragBuf.value != [] && corrupt(fragBuf.value))
                && checked == if fragBuf.value != [] && r.Fine? then old(checked) + [fragBuf.value] else old(checked)
    {
      r := Fine;
      if fragBuf.Some? { r := CheckFrag(fragBuf.value); }
    }
  }

  function Concat(chunks: seq<Bytes>): Bytes { if chunks == [] then [] else Concat(chunks[..|chunks| - 1]) + Last(chunks) }

  /** The chunks of an archive, read from the start. How it is cut into chunks
      makes no difference to what is checked, nor to whether the read is quarantined. */
  method ReadArchive(reader: Reader, chunks: seq<Bytes>) returns (r: Result)
    requires reader.fragSize > 0 && reader.fragOffset == 0 && reader.checked == []
    modifies reader`fragBuf, reader`fragOffset, reader`checked
    ensures r.Fine? ==> reader.Valid(Concat(chunks))
    ensures r.Fine? <==> AllFine(reader.corrupt, Fragments(Concat(chunks), reader.fragSize))
    ensures r.Quarantined? ==> StoppedAt(reader.corrupt, reader.checked, Fragments(Concat(chunks), reader.fragSize))
  {
    reader.InitChecks(true);
    ghost var archive: Bytes := [];
    for i := 0 to |chunks|
      invariant archive == Concat(chunks[..i]) && reader.Valid(archive)
    {
      assert chunks[..i + 1][..i] == chunks[..i];
      r := reader.UpdateChecks(chunks[i], archive);
      archive := archive + chunks[i];
      if r.Quarantined? {
        ConcatMore(chunks, i + 1);
        assert archive == Concat(chunks[..i + 1]);
        FragmentsPrefix(Concat(chunks[..i + 1]), Concat(chunks), reader.fragSize);
        StoppedIn(reader.corrupt, reader.checked, Fragments(archive, reader.fragSize), Fragments(Concat(chunks), reader.fragSize));
        return;
      }
    }
    assert chunks[..|chunks|] == chunks;
    r := Fine;
  }

  lemma StoppedIn(corrupt: Bytes -> bool, checked: seq<Bytes>, some: seq<Bytes>, all: seq<Bytes>)
    requires StoppedAt(corrupt, checked, some) && some <= all
    ensures StoppedAt(corrupt, checked, all) && !AllFine(corrupt, all)
  {
    assert all[|checked|] == some[|checked|] && all[|checked|] in all;
  }

  /** The fragments, and what is left over if anything is. */
  function Pieces(archive: Bytes, size: nat): seq<Bytes>
    requires size > 0
  {
    Fragments(archive, size) + (if Rest(archive, size) != [] then [Rest(archive, size)] else [])
  }

  /** The archive is its pieces, so a whole read and its close check every byte once. */
  lemma {:induction false} PiecesJoin(archive: Bytes, size: nat)
    requires size > 0
    ensures Concat(Pieces(archive, size)) == archive
    decreases |archive|
  {
    if |archive| < size {
      FewPieces(archive, size);
    } else {
      hide Concat, Pieces;
      var first, later := archive[..size], archive[size..];
      PiecesJoin(later, size);
      MorePieces(archive, size);
      ConcatFirst(first, Pieces(later, size));
      assert first + later == archive;
    }
  }

  lemma FewPieces(archive: Bytes, size: nat)
    requires |archive| < size
    ensures Concat(Pieces(archive, size)) == archive
  {
    if archive != [] {
      assert Pieces(archive, size) == [archive] && [archive][..0] == [];
    }
  }

  lemma MorePieces(archive: Bytes, size: nat)
    requires 0 < size <= |archive|
    ensures Pieces(archive, size) == [archive[..size]] + Pieces(archive[size..], size)
  {
  }

  lemma {:induction false} ConcatFirst(first: Bytes, rest: seq<Bytes>)
    ensures Concat([first] + rest) == first + Concat(rest)
    decreases |rest|
  {
    var all := [first] + rest;
    if rest == [] {
      assert all[..0] == [];
    } else {
      ConcatFirst(first, rest[..|rest| - 1]);
      assert all[..|all| - 1] == [first] + rest[..|rest| - 1];
    }
  }

  /** A whole read with its close: every piece is checked, in order, up to the
      first corrupt one, which quarantines it. */
  method ReadAndClose(reader: Reader, chunks: seq<Bytes>) returns (r: Result)
    requires reader.fragSize > 0 && reader.fragOffset == 0 && reader.checked == []
    modifies reader`fragBuf, reader`fragOffset, reader`checked
    ensures r.Fine? <==> AllFine(reader.corrupt, Pieces(Concat(chunks), reader.fragSize))
    ensures r.Fine? ==> reader.checked == Pieces(Concat(chunks), reader.fragSize)
    ensures r.Quarantined? ==> StoppedAt(reader.corrupt, reader.checked, Pieces(Concat(chunks), reader.fragSize))
  {
    r := ReadArchive(reader, chunks);
    ghost var frags, pieces := Fragments(Concat(chunks), reader.fragSize), Pieces(Concat(chunks), reader.fragSize);
    if r.Quarantined? {
      StoppedIn(reader.corrupt, reader.checked, frags, pieces);
      return;
    }
    r := reader.HandleCloseQuarantine();
    if r.Quarantined? { StoppedIn(reader.corrupt, reader.checked, pieces, pieces); }
  }

  lemma {:induction false} ConcatMore(chunks: seq<Bytes>, n: nat)
    requires n <= |chunks|
    ensures Concat(chunks[..n]) <= Concat(chunks)
    decreases |chunks|
  {
    if n == |chunks| {
      assert chunks[..n] == chunks;
    } else {
      var before := chunks[..|chunks| - 1];
      ConcatMore(before, n);
      assert before[..n] == chunks[..n];
    }
  }

  lemma FragmentsPrefix(some: Bytes, all: Bytes, size: nat)
    requires size > 0 && some <= all
    ensures Fragments(some, size) <= Fragments(all, size)
  {
    assert all == some + all[|some|..];
    Append(some, all[|some|..], size);
  }
}
