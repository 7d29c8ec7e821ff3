/** The reference rules for which of an object's files define it
    (bs_diskfile.py, replicated policy), and which are obsolete. */
module OnDisk {
  import opened Base
  import opened Metadata

  /** What a file name parses to. Only the data files of the erasure-coded
      policy have a fragment index, and may be marked durable. */
  datatype Info = Info(name: string, ext: string, timestamp: Time, ctype: Option<Time>, frag: Option<nat>, durable: bool)

  type Exts = map<string, seq<Info>>

  const DATA: string := ".data"
  const META: string := ".meta"
  const TS: string := ".ts"

  datatype Results = Results(
    data: Option<Info>,
    meta: Option<Info>,
    ts: Option<Info>,
    ctype: Option<Info>,
    obsolete: seq<Info>,
    possibleReclaim: seq<Info>,
    unexpected: seq<string>)

  function Files(exts: Exts, ext: string): seq<Info> { if ext in exts then exts[ext] else [] }

  function Ctype(info: Info): Time { info.ctype.GetOr(0) }

  // ----- sorting and splitting -----

  datatype Key = ByTimestamp | ByCtype

  function KeyOf(key: Key, info: Info): Time {
    match key
    case ByTimestamp => info.timestamp
    case ByCtype => Ctype(info)
  }

  /** Python's sorted(..., reverse=True), which keeps equal items in their order. */
  function Insert(key: Key, info: Info, list: seq<Info>): seq<Info> {
    if list == [] || KeyOf(key, info) >= KeyOf(key, list[0]) then [info] + list
    else [list[0]] + Insert(key, info, list[1..])
  }

  function Sorted(key: Key, list: seq<Info>): seq<Info> {
    if list == [] then [] else Insert(key, list[0], Sorted(key, list[1..]))
  }

  predicate Descending(key: Key, list: seq<Info>) {
    forall i, k :: 0 <= i < k < |list| ==> KeyOf(key, list[i]) >= KeyOf(key, list[k])
  }

  lemma Prepended(key: Key, info: Info, list: seq<Info>)
    requires Descending(key, list) && (forall x :: x in list ==> KeyOf(key, info) >= KeyOf(key, x))
    ensures Descending(key, [info] + list)
  {
    var all := [info] + list;
    forall i, k | 0 <= i < k < |all| ensures KeyOf(key, all[i]) >= KeyOf(key, all[k]) {
      assert all[k] == list[k - 1];
    }
  }

  lemma {:induction false} InsertBag(key: Key, info: Info, list: seq<Info>)
    ensures multiset(Insert(key, info, list)) == multiset{info} + multiset(list)
    decreases |list|
  {
    if list != [] && KeyOf(key, info) < KeyOf(key, list[0]) {
      InsertBag(key, info, list[1..]);
      assert list == [list[0]] + list[1..];
    }
  }

  lemma SameItems(a: seq<Info>, b: multiset<Info>)
    requires multiset(a) == b
    ensures forall x :: x in a <==> x in b
  {
    forall x ensures x in a <==> x in b { assert x in a <==> x in multiset(a); }
  }

  lemma {:induction false} InsertOk(key: Key, info: Info, list: seq<Info>)
    requires Descending(key, list)
    ensures Descending(key, Insert(key, info, list))
    decreases |list|
  {
    if list == [] || KeyOf(key, info) >= KeyOf(key, list[0]) {
      forall x | x in list ensures KeyOf(key, info) >= KeyOf(key, x) {
        var i :| 0 <= i < |list| && list[i] == x;
        assert i > 0 ==> KeyOf(key, list[0]) >= KeyOf(key, list[i]);
      }
      Prepended(key, info, list);
    } else {
      var rest := Insert(key, info, list[1..]);
      InsertOk(key, info, list[1..]);
      InsertBag(key, info, list[1..]);
      SameItems(rest, multiset{info} + multiset(list[1..]));
      forall x | x in rest ensures KeyOf(key, list[0]) >= KeyOf(key, x) {
        assert x == info || x in list[1..];
      }
      hide Descending;
      Prepended(key, list[0], rest);
    }
  }

  lemma {:induction false} SortedBag(key: Key, list: seq<Info>)
    ensures multiset(Sorted(key, list)) == multiset(list)
    ensures Descending(key, Sorted(key, list))
    decreases |list|
  {
    if list != [] {
      SortedBag(key, list[1..]);
      InsertBag(key, list[0], Sorted(key, list[1..]));
      InsertOk(key, list[0], Sorted(key, list[1..]));
      assert list == [list[0]] + list[1..];
    }
    hide Descending;
  }

  lemma SortedOk(key: Key, list: seq<Info>)
    ensures Descending(key, Sorted(key, list))
    ensures multiset(Sorted(key, list)) == multiset(list)
    ensures |Sorted(key, list)| == |list|
    ensures forall x :: x in Sorted(key, list) <==> x in list
  {
    SortedBag(key, list);
    assert |multiset(Sorted(key, list))| == |multiset(list)|;
    SameItems(Sorted(key, list), multiset(list));
    SameItems(list, multiset(list));
    hide Descending, Sorted;
  }

  /** _split_list: how many leading items satisfy the condition. */
  function Leading(list: seq<Info>, holds: Info -> bool): (n: nat)
    ensures n <= |list|
  {
    if list != [] && holds(list[0]) then 1 + Leading(list[1..], holds) else 0
  }

  lemma {:induction false} LeadingOk(list: seq<Info>, holds: Info -> bool)
    ensures var n := Leading(list, holds);
            && (forall i :: 0 <= i < n ==> holds(list[i]))
            && (n < |list| ==> !holds(list[n]))
    decreases |list|
  {
    if list != [] && holds(list[0]) { LeadingOk(list[1..], holds); }
  }

  function Newer(timestamp: Time): Info -> bool { (x: Info) => x.timestamp > timestamp }

  function NotOlder(timestamp: Time): Info -> bool { (x: Info) => x.timestamp >= timestamp }

  function After(list: seq<Info>, timestamp: Time): seq<Info> { list[..Leading(list, Newer(timestamp))] }

  function NotBefore(list: seq<Info>, timestamp: Time): seq<Info> { list[..Leading(list, NotOlder(timestamp))] }

  // ----- what each step keeps -----

  /** With a tombstone: nothing as old as the newest, and no other tombstone. */
  function KeptByTombstone(tombstones: seq<Info>, ext: string, list: seq<Info>): seq<Info> {
    if tombstones == [] then list
    else if ext == TS then tombstones[..1]
    else After(list, tombstones[0].timestamp)
  }

  /** At most two .meta files stay: the newest, and one with a newer content type. */
  function RetainedMetas(metas: seq<Info>): seq<Info> {
    if |metas| < 2 then metas
    else
      var rest := Sorted(ByCtype, metas[1..]);
      if |rest| > 0 && Ctype(rest[0]) > Ctype(metas[0]) then
        if rest[0].timestamp == metas[0].timestamp then [rest[0]] else [metas[0], rest[0]]
      else
        [metas[0]]
  }

  /** Of any .meta files, newest first, at most two are retained: one that is as
      new as any, and last one with the greatest content-type timestamp. There is
      a second only if that is older and its content type newer, so files of one
      timestamp become one. */
  lemma RetainedMetasAre(metas: seq<Info>)
    requires Descending(ByTimestamp, metas) && metas != []
    ensures var r := RetainedMetas(metas);
            && 1 <= |r| <= 2 && (forall x :: x in r ==> x in metas)
            && (forall x :: x in metas ==> x.timestamp <= r[0].timestamp && Ctype(x) <= Ctype(Last(r)))
            && (|r| == 2 ==> r[1].timestamp < r[0].timestamp && Ctype(r[1]) > Ctype(r[0]))
  {
    forall x | x in metas ensures x.timestamp <= metas[0].timestamp {
      var i :| 0 <= i < |metas| && metas[i] == x;
      assert KeyOf(ByTimestamp, metas[i]) <= KeyOf(ByTimestamp, metas[0]);
    }
    if |metas| >= 2 {
      var rest := Sorted(ByCtype, metas[1..]);
      SortedOk(ByCtype, metas[1..]);
      assert metas == [metas[0]] + metas[1..];
      assert rest[0] in metas[1..] && rest[0] in metas;
      forall x | x in metas[1..] ensures Ctype(x) <= Ctype(rest[0]) {
        assert x in rest;
        var i :| 0 <= i < |rest| && rest[i] == x;
        assert KeyOf(ByCtype, rest[i]) <= KeyOf(ByCtype, rest[0]);
      }
    }
    hide Sorted, Descending;
  }

  /** With data: no older data, and nothing else as old as the newest. */
  function KeptByData(data: seq<Info>, ext: string, list: seq<Info>): seq<Info> {
    if data == [] then list
    else if ext == DATA then NotBefore(data, data[0].timestamp)
    else After(list, data[0].timestamp)
  }

  // ----- the code -----

  ghost predicate Filed(exts: Exts) {
    forall ext, x :: ext in exts && x in exts[ext] ==> x.ext == ext
  }

  /** Every file is either still there or obsolete, and listed once. */
  ghost predicate Conserved(before: Exts, after: Exts, obsolete: seq<Info>) {
    forall x: Info :: multiset(Files(before, x.ext))[x] == multiset(Files(after, x.ext))[x] + multiset(obsolete)[x]
  }

  /** The names that parse, as infos of one extension, in listing order. */
  function Parsed(files: seq<string>, parse: string -> Option<Info>, ext: string): seq<Info> {
    if files == [] then []
    else
      var info := parse(Last(files));
      var before := Parsed(files[..|files| - 1], parse, ext);
      if info.Some? && info.value.ext == ext then before + [info.value] else before
  }

  method Categorize(files: seq<string>, parse: string -> Option<Info>) returns (exts: Exts, unexpected: seq<string>)
    ensures forall ext :: Files(exts, ext) == Sorted(ByTimestamp, Parsed(files, parse, ext))
    ensures Filed(exts)
    ensures forall name :: name in unexpected <==> name in files && parse(name).None?
  {
    exts, unexpected := map[], [];
    for i := 0 to |files|
      invariant forall ext :: Files(exts, ext) == Parsed(files[..i], parse, ext)
      invariant Filed(exts)
      invariant forall name :: name in unexpected <==> name in files[..i] && parse(name).None?
    {
      assert files[..i + 1][..i] == files[..i];
      match parse(files[i]) {
        case None => unexpected := unexpected + [files[i]];
        case Some(info) => exts := exts[info.ext := Files(exts, info.ext) + [info]];
      }
    }
    assert files[..|files|] == files;
    ghost var was := exts;
    var todo := exts.Keys;
    while todo != {}
      invariant todo <= exts.Keys == was.Keys
      invariant Filed(exts)
      invariant forall ext :: ext in todo ==> exts[ext] == was[ext]
      invariant forall ext :: ext in was && ext !in todo ==> exts[ext] == Sorted(ByTimestamp, was[ext])
    {
      var ext :| ext in todo;
      SortedOk(ByTimestamp, exts[ext]);
      exts := exts[ext := Sorted(ByTimestamp, exts[ext])];
      todo := todo - {ext};
    }
  }

  lemma SplitCounts(list: seq<Info>, n: nat, x: Info)
    requires n <= |list|
    ensures multiset(list)[x] == multiset(list[..n])[x] + multiset(list[n..])[x]
  {
    assert list == list[..n] + list[n..];
  }

  method DropBeforeTombstone(exts: Exts) returns (kept: Exts, obsolete: seq<Info>)
    requires Filed(exts)
    ensures forall ext :: Files(kept, ext) == KeptByTombstone(Files(exts, TS), ext, Files(exts, ext))
    ensures Filed(kept) && Conserved(exts, kept, obsolete)
  {
    hide Conserved, Filed, Leading, Newer;
    kept, obsolete := exts, [];
    SameConserved(exts);
    var tombstones := Files(exts, TS);
    if tombstones == [] { return; }
    assert TS in exts && exts[TS] == tombstones;
    var todo := exts.Keys - {TS};
    while todo != {}
      invariant todo <= exts.Keys - {TS} && kept.Keys == exts.Keys
      invariant forall ext :: ext in exts ==> kept[ext] == if ext == TS || ext in todo then exts[ext] else KeptByTombstone(exts[TS], ext, exts[ext])
      invariant Filed(kept) && Conserved(exts, kept, obsolete)
    {
      var ext :| ext in todo;
      var n := Leading(exts[ext], Newer(tombstones[0].timestamp));
      Discard(kept, obsolete, exts, ext, n);
      kept, obsolete := kept[ext := kept[ext][..n]], obsolete + kept[ext][n..];
      todo := todo - {ext};
    }
    assert kept[TS] == tombstones;
    Discard(kept, obsolete, exts, TS, 1);
    kept, obsolete := kept[TS := kept[TS][..1]], obsolete + kept[TS][1..];
  }

  lemma SameConserved(exts: Exts)
    ensures Conserved(exts, exts, [])
  {
  }

  /** Moving the tail of one list to the obsolete files loses nothing. */
  lemma Discard(kept: Exts, obsolete: seq<Info>, exts: Exts, ext: string, n: nat)
    requires ext in kept && n <= |kept[ext]| && Filed(kept) && Conserved(exts, kept, obsolete)
    ensures Filed(kept[ext := kept[ext][..n]]) && Conserved(exts, kept[ext := kept[ext][..n]], obsolete + kept[ext][n..])
  {
    var after, gone := kept[ext := kept[ext][..n]], obsolete + kept[ext][n..];
    forall x: Info ensures multiset(Files(exts, x.ext))[x] == multiset(Files(after, x.ext))[x] + multiset(gone)[x] {
      SplitCounts(kept[ext], n, x);
      if x.ext != ext { assert x !in kept[ext][n..]; }
    }
  }

  lemma SortedSize(key: Key, list: seq<Info>)
    ensures |Sorted(key, list)| == |list| && multiset(Sorted(key, list)) == multiset(list)
  {
    SortedOk(key, list);
  }

  lemma Swapped(list: seq<Info>)
    requires |list| >= 2
    ensures multiset([list[1], list[0]] + list[2..]) == multiset(list)
  {
    assert list == [list[0], list[1]] + list[2..];
    assert multiset([list[0], list[1]]) == multiset([list[1], list[0]]);
  }

  /** The newest first, then the others by content type; how many of them stay. */
  method ArrangeMetas(newestFirst: seq<Info>) returns (metas: seq<Info>, retain: nat)
    requires newestFirst != []
    ensures multiset(metas) == multiset(newestFirst)
    ensures retain <= |metas| && metas[..retain] == RetainedMetas(newestFirst)
  {
    hide Sorted, Descending;
    metas, retain := newestFirst, 1;
    if |metas| > 1 {
      var others := Sorted(ByCtype, metas[1..]);
      SortedSize(ByCtype, metas[1..]);
      assert metas == [metas[0]] + metas[1..];
      metas := [metas[0]] + others;
      assert multiset(metas) == multiset(newestFirst);
      if Ctype(metas[1]) > Ctype(metas[0]) {
        if metas[1].timestamp == metas[0].timestamp {
          Swapped(metas);
          metas := [metas[1], metas[0]] + metas[2..];
        } else {
          retain := 2;
        }
      }
      assert metas[..retain] == if retain == 2 then [metas[0], metas[1]] else [metas[0]];
    } else {
      assert metas[..1] == metas;
    }
  }

  method RetainMetas(exts: Exts) returns (kept: Exts, obsolete: seq<Info>)
    requires Filed(exts)
    ensures forall ext :: Files(kept, ext) == if ext == META then RetainedMetas(Files(exts, META)) else Files(exts, ext)
    ensures Filed(kept) && Conserved(exts, kept, obsolete)
  {
    hide Conserved, Filed, RetainedMetas;
    kept, obsolete := exts, [];
    SameConserved(exts);
    if Files(exts, META) == [] {
      NoMetas();
      return;
    }
    var metas, retain := ArrangeMetas(Files(exts, META));
    Reordered(exts, metas);
    kept := exts[META := metas];
    Discard(kept, obsolete, exts, META, retain);
    kept, obsolete := kept[META := kept[META][..retain]], obsolete + kept[META][retain..];
  }

  lemma NoMetas()
    ensures RetainedMetas([]) == []
  {
  }

  lemma Reordered(exts: Exts, metas: seq<Info>)
    requires Filed(exts) && multiset(metas) == multiset(Files(exts, META))
    ensures Filed(exts[META := metas]) && Conserved(exts, exts[META := metas], [])
  {
    forall x | x in metas ensures x.ext == META {
      assert x in multiset(metas);
      assert x in Files(exts, META);
    }
  }

  /** The replicated policy's part. */
  method ProcessReplicated(exts: Exts) returns (kept: Exts, obsolete: seq<Info>, data: Option<Info>, possibleReclaim: seq<Info>)
    requires Filed(exts)
    ensures forall ext :: Files(kept, ext) == KeptByData(Files(exts, DATA), ext, Files(exts, ext))
    ensures Filed(kept) && Conserved(exts, kept, obsolete)
    ensures data == if Files(exts, DATA) == [] then None else Some(Files(exts, DATA)[0])
    ensures possibleReclaim == if data.None? then Files(exts, META) else []
  {
    hide Conserved, Filed;
    kept, obsolete, data, possibleReclaim := exts, [], None, [];
    SameConserved(exts);
    if Files(exts, DATA) == [] { return exts, [], None, Files(exts, META); }
    var newest := exts[DATA][0];
    var todo := exts.Keys;
    while todo != {}
      invariant todo <= exts.Keys == kept.Keys
      invariant forall ext :: ext in exts ==> kept[ext] == if ext in todo then exts[ext] else KeptByData(exts[DATA], ext, exts[ext])
      invariant Filed(kept) && Conserved(exts, kept, obsolete)
    {
      var ext :| ext in todo;
      var n := if ext == DATA then Leading(exts[ext], NotOlder(newest.timestamp))
               else Leading(exts[ext], Newer(newest.timestamp));
      Discard(kept, obsolete, exts, ext, n);
      kept, obsolete := kept[ext := kept[ext][..n]], obsolete + kept[ext][n..];
      todo := todo - {ext};
    }
    data := Some(newest);
  }

  // ----- the whole search -----

  /** What the search starts from: the files of an extension, newest first. */
  function Listed(files: seq<string>, parse: string -> Option<Info>, ext: string): seq<Info> {
    Sorted(ByTimestamp, Parsed(files, parse, ext))
  }

  function Live(files: seq<string>, parse: string -> Option<Info>, ext: string): seq<Info> {
    KeptByTombstone(Listed(files, parse, TS), ext, Listed(files, parse, ext))
  }

  function Retained(files: seq<string>, parse: string -> Option<Info>, ext: string): seq<Info> {
    if ext == META then RetainedMetas(Live(files, parse, META)) else Live(files, parse, ext)
  }

  /** What stays in the end. */
  function Kept(files: seq<string>, parse: string -> Option<Info>, ext: string): seq<Info> {
    KeptByData(Retained(files, parse, DATA), ext, Retained(files, parse, ext))
  }

  function Head(list: seq<Info>): Option<Info> { if list == [] then None else Some(list[0]) }

  /** The final choice, from what stays. A content type counts only if it is newer than the data. */
  function ChosenMeta(data: Option<Info>, metas: seq<Info>): Option<Info> { if data.None? then None else Head(metas) }

  function ChosenCtype(data: Option<Info>, metas: seq<Info>): Option<Info> {
    if data.None? || metas == [] then None
    else if Last(metas).ctype.Some? && Last(metas).ctype.value > data.value.timestamp then Some(Last(metas)) else None
  }

  predicate Verified(r: Results) {
    || (r.data.None? && r.meta.None? && r.ts.None?)
    || (r.ts.Some? && r.data.None? && r.meta.None?)
    || (r.data.Some? && r.ts.None?)
  }

  ghost predicate Accounted(files: seq<string>, parse: string -> Option<Info>, obsolete: seq<Info>) {
    forall x: Info :: multiset(Listed(files, parse, x.ext))[x] == multiset(Kept(files, parse, x.ext))[x] + multiset(obsolete)[x]
  }

  /** The final choice: .meta files only with data, a tombstone only without. */
  method Finish(exts: Exts, data: Option<Info>) returns (meta: Option<Info>, ctype: Option<Info>, ts: Option<Info>)
    ensures meta == ChosenMeta(data, Files(exts, META)) && ctype == ChosenCtype(data, Files(exts, META))
    ensures ts == if data.Some? then None else Head(Files(exts, TS))
  {
    meta, ctype, ts := None, None, None;
    if data.Some? {
      var metas := Files(exts, META);
      if metas != [] {
        meta := Some(metas[0]);
        var info := Last(metas);
        if info.ctype.Some? && info.ctype.value > data.value.timestamp { ctype := Some(info); }
      }
    } else if Files(exts, TS) != [] {
      ts := Some(Files(exts, TS)[0]);
    }
  }

  method GetOndiskFiles(files: seq<string>, parse: string -> Option<Info>) returns (r: Results)
    ensures var data := Head(Retained(files, parse, DATA));
            && r.data == data
            && r.meta == ChosenMeta(data, Kept(files, parse, META))
            && r.ctype == ChosenCtype(data, Kept(files, parse, META))
            && r.ts == (if data.Some? then None else Head(Kept(files, parse, TS)))
            && r.possibleReclaim == (if data.Some? then [] else Kept(files, parse, META))
    ensures Accounted(files, parse, r.obsolete)
    ensures forall name :: name in r.unexpected <==> name in files && parse(name).None?
    ensures Verified(r)
  {
    hide Sorted, Parsed, KeptByData, KeptByTombstone, RetainedMetas, Conserved, Filed;
    var all, unexpected := Categorize(files, parse);
    var live, older := DropBeforeTombstone(all);
    var retained, others := RetainMetas(live);
    var exts, replaced, data, possibleReclaim := ProcessReplicated(retained);
    var obsolete := older + others + replaced;
    AllConserved(all, live, retained, exts, older, others, replaced);
    assert forall ext :: Files(all, ext) == Listed(files, parse, ext);
    assert forall ext :: Files(live, ext) == Live(files, parse, ext);
    assert forall ext :: Files(retained, ext) == Retained(files, parse, ext);
    assert forall ext :: Files(exts, ext) == Kept(files, parse, ext);
    IsAccounted(all, exts, files, parse, obsolete);
    if data.None? { NothingReplaced(retained, META); }
    var meta, ctype, ts := Finish(exts, data);
    r := Results(data, meta, ts, ctype, obsolete, possibleReclaim, unexpected);
  }

  lemma NothingReplaced(exts: Exts, ext: string)
    requires Files(exts, DATA) == []
    ensures KeptByData(Files(exts, DATA), ext, Files(exts, ext)) == Files(exts, ext)
  {
  }

  lemma AllConserved(all: Exts, live: Exts, retained: Exts, exts: Exts, older: seq<Info>, others: seq<Info>, replaced: seq<Info>)
    requires Conserved(all, live, older) && Conserved(live, retained, others) && Conserved(retained, exts, replaced)
    ensures Conserved(all, exts, older + others + replaced)
  {
  }

  lemma IsAccounted(all: Exts, exts: Exts, files: seq<string>, parse: string -> Option<Info>, obsolete: seq<Info>)
    requires Conserved(all, exts, obsolete)
    requires forall ext :: Files(all, ext) == Listed(files, parse, ext)
    requires forall ext :: Files(exts, ext) == Kept(files, parse, ext)
    ensures Accounted(files, parse, obsolete)
  {
    hide Listed, Kept;
  }
}
