/** The suffix hashes of erasure-coded objects are the same whether a legacy
    .durable file or marks in the names make the fragments durable. */
module ErasureHashes {
  import opened Base
  import opened Metadata
  import opened OnDisk
  import opened ErasureFiles
  import opened ErasureRules

  /** One update of a suffix's hashes: a fragment's timestamp, or the durable mark. */
  datatype Update = Fragment(index: nat, timestamp: Time) | DurableMark(timestamp: Time)

  function UpdateOf(x: Info): Update { Fragment(FragOf(x), x.timestamp) }

  function UpdatesOf(frags: FragSet): seq<Update> { seq(|frags|, i requires 0 <= i < |frags| => UpdateOf(frags[i])) }

  function Fragments(sets: seq<FragSet>): seq<Update> {
    if sets == [] then [] else Fragments(sets[..|sets| - 1]) + UpdatesOf(Last(sets))
  }

  /** _update_suffix_hashes, after a search without preferences. */
  function Updates(scan: Scan): seq<Update> {
    Fragments(scan.sets) + (if scan.durableSet.Some? && scan.durableSet.value != [] then [DurableMark(TimeOf(scan.durableSet.value))] else [])
  }

  method UpdateSuffixHashes(scan: Scan) returns (updates: seq<Update>)
    ensures updates == Updates(scan)
  {
    updates := [];
    for i := 0 to |scan.sets|
      invariant updates == Fragments(scan.sets[..i])
    {
      var frags := scan.sets[i];
      assert scan.sets[..i + 1][..i] == scan.sets[..i];
      ghost var before := updates;
      for k := 0 to |frags|
        invariant updates == before + UpdatesOf(frags)[..k]
      {
        updates := updates + [UpdateOf(frags[k])];
      }
    }
    assert scan.sets[..|scan.sets|] == scan.sets;
    if scan.durableSet.Some? && scan.durableSet.value != [] {
      updates := updates + [DurableMark(scan.durableSet.value[0].timestamp)];
    }
  }

  // ----- the updates come in one order only -----

  /** Newest timestamp first, then by fragment index; equal updates are the same. */
  predicate NotAfter(a: Update, b: Update) {
    a == b || a.timestamp > b.timestamp || (a.timestamp == b.timestamp && a.Fragment? && b.Fragment? && a.index < b.index)
  }

  ghost predicate Ordered(list: seq<Update>) { forall i, k :: 0 <= i < k < |list| ==> NotAfter(list[i], list[k]) }

  lemma {:induction false} OrderedSame(a: seq<Update>, b: seq<Update>)
    requires Ordered(a) && Ordered(b) && multiset(a) == multiset(b)
    ensures a == b
    decreases |a|
  {
    SameSize(a, b);
    if a != [] {
      FirstSame(a, b);
      assert a == [a[0]] + a[1..] && b == [b[0]] + b[1..];
      RestOrdered(a);
      RestOrdered(b);
      hide Ordered;
      OrderedSame(a[1..], b[1..]);
    }
  }

  lemma SameSize(a: seq<Update>, b: seq<Update>)
    requires multiset(a) == multiset(b)
    ensures |a| == |b|
    ensures a != [] ==> b != [] && a[0] in b && b[0] in a
  {
    assert |multiset(a)| == |multiset(b)|;
    if a != [] { assert a[0] in multiset(b) && b[0] in multiset(a); }
  }

  lemma RestOrdered(a: seq<Update>)
    requires Ordered(a) && a != []
    ensures Ordered(a[1..]) && multiset(a[1..]) == multiset(a) - multiset{a[0]}
  {
    assert a == [a[0]] + a[1..];
  }

  lemma FirstSame(a: seq<Update>, b: seq<Update>)
    requires Ordered(a) && Ordered(b) && a != [] && b != [] && a[0] in b && b[0] in a
    ensures a[0] == b[0]
  {
    var i :| 0 <= i < |b| && b[i] == a[0];
    var k :| 0 <= k < |a| && a[k] == b[0];
    assert i > 0 ==> NotAfter(b[0], b[i]);
    assert k > 0 ==> NotAfter(a[0], a[k]);
  }

  lemma JoinOrdered(a: seq<Update>, b: seq<Update>, timestamp: Time)
    requires Ordered(a) && Ordered(b) && (forall u :: u in a ==> u.timestamp > timestamp) && (forall u :: u in b ==> u.timestamp <= timestamp)
    ensures Ordered(a + b)
  {
    var all := a + b;
    forall i, k | 0 <= i < k < |all| ensures NotAfter(all[i], all[k]) {
      if i < |a| <= k { assert all[i] in a && all[k] in b; }
    }
  }

  /** Fragments of one timestamp, by index. */
  ghost predicate WellSet(f: FragSet) { Ascending(f) && forall x :: x in f ==> x.timestamp == TimeOf(f) }

  lemma SetOrdered(frags: FragSet)
    requires WellSet(frags)
    ensures Ordered(UpdatesOf(frags)) && (forall u :: u in UpdatesOf(frags) ==> u.timestamp == TimeOf(frags))
  {
    assert forall i :: 0 <= i < |frags| ==> frags[i] in frags;
  }

  lemma {:induction false} LaterTimes(sets: seq<FragSet>, timestamp: Time)
    requires forall f :: f in sets ==> WellSet(f) && TimeOf(f) > timestamp
    ensures forall u :: u in Fragments(sets) ==> u.timestamp > timestamp
    decreases |sets|
  {
    if sets != [] {
      assert sets == sets[..|sets| - 1] + [Last(sets)];
      LaterTimes(sets[..|sets| - 1], timestamp);
      assert Last(sets) in sets;
      SetOrdered(Last(sets));
    }
  }

  lemma {:induction false} FragmentsOrdered(sets: seq<FragSet>)
    requires SetsOk(sets) && (forall f :: f in sets ==> WellSet(f))
    ensures Ordered(Fragments(sets))
    decreases |sets|
  {
    if sets != [] {
      var before, last := sets[..|sets| - 1], Last(sets);
      assert sets == before + [last];
      FragmentsOrdered(before);
      assert last in sets && WellSet(last);
      SetOrdered(last);
      forall f | f in before ensures WellSet(f) && TimeOf(f) > TimeOf(last) {
        var i :| 0 <= i < |before| && before[i] == f;
        assert sets[i] == f && TimeOf(sets[i]) > TimeOf(sets[|sets| - 1]);
      }
      LaterTimes(before, TimeOf(last));
      hide Ordered, WellSet;
      JoinOrdered(Fragments(before), UpdatesOf(last), TimeOf(last));
    }
  }

  // ----- how often each fragment is counted -----

  function IsFrag(x: Info, t: Time, index: nat): nat { if x.timestamp == t && FragOf(x) == index then 1 else 0 }

  /** How many files there are of a fragment. */
  function Count(data: seq<Info>, t: Time, index: nat): nat {
    if data == [] then 0 else IsFrag(data[0], t, index) + Count(data[1..], t, index)
  }

  lemma {:induction false} CountJoin(a: seq<Info>, b: seq<Info>, t: Time, index: nat)
    ensures Count(a + b, t, index) == Count(a, t, index) + Count(b, t, index)
    decreases |a|
  {
    if a == [] {
      assert a + b == b;
    } else {
      assert (a + b)[1..] == a[1..] + b;
      CountJoin(a[1..], b, t, index);
    }
  }

  lemma {:induction false} CountElsewhere(data: seq<Info>, t: Time, index: nat)
    requires forall x :: x in data ==> x.timestamp != t
    ensures Count(data, t, index) == 0
    decreases |data|
  {
    if data != [] {
      assert data[0] in data;
      CountElsewhere(data[1..], t, index);
    }
  }

  lemma {:induction false} CountInsert(x: Info, list: seq<Info>, t: Time, index: nat)
    ensures Count(InsertUp(x, list), t, index) == IsFrag(x, t, index) + Count(list, t, index)
    decreases |list|
  {
    if list == [] || FragOf(x) <= FragOf(list[0]) {
      assert ([x] + list)[1..] == list;
    } else {
      CountInsert(x, list[1..], t, index);
      var all := [list[0]] + InsertUp(x, list[1..]);
      assert all[1..] == InsertUp(x, list[1..]);
    }
  }

  lemma {:induction false} CountSorted(list: seq<Info>, t: Time, index: nat)
    ensures Count(SortedUp(list), t, index) == Count(list, t, index)
    decreases |list|
  {
    if list != [] {
      CountSorted(list[1..], t, index);
      CountInsert(list[0], SortedUp(list[1..]), t, index);
    }
  }

  lemma {:induction false} CountMarked(frags: FragSet, t: Time, index: nat)
    ensures Count(Marked(frags), t, index) == Count(frags, t, index)
    decreases |frags|
  {
    if frags != [] {
      assert Marked(frags)[1..] == Marked(frags[1..]);
      CountMarked(frags[1..], t, index);
    }
  }

  lemma {:induction false} CountUpdates(frags: FragSet, t: Time, index: nat)
    ensures multiset(UpdatesOf(frags))[Fragment(index, t)] == Count(frags, t, index)
    decreases |frags|
  {
    if frags != [] {
      var u := UpdatesOf(frags);
      assert u[1..] == UpdatesOf(frags[1..]);
      assert u == [UpdateOf(frags[0])] + u[1..];
      CountUpdates(frags[1..], t, index);
    } else {
      assert UpdatesOf(frags) == [];
    }
  }

  lemma {:induction false} FragmentsCons(f: FragSet, sets: seq<FragSet>)
    ensures Fragments([f] + sets) == UpdatesOf(f) + Fragments(sets)
    decreases |sets|
  {
    hide UpdatesOf;
    var all := [f] + sets;
    if sets == [] {
      assert all == [f] && all[..0] == [];
      assert Fragments(all) == Fragments([]) + UpdatesOf(f);
    } else {
      var before := sets[..|sets| - 1];
      assert all[..|sets|] == [f] + before && Last(all) == Last(sets);
      FragmentsCons(f, before);
      assert Fragments(all) == Fragments([f] + before) + UpdatesOf(Last(sets));
    }
  }

  /** The fragments of a timestamp go into the hashes. */
  predicate Counted(scan: Scan, t: Time) { scan.durableSet.None? || (scan.durable.Some? && t >= scan.durable.value.timestamp) }

  lemma GroupCount(data: seq<Info>, t: Time, index: nat)
    requires data != [] && Newestfirst(data)
    ensures Count(Group(data), t, index) == (if t >= data[0].timestamp then Count(data, t, index) else 0)
    ensures Count(data[Size(data)..], t, index) == (if t >= data[0].timestamp then 0 else Count(data, t, index))
  {
    hide Newestfirst, Size, SortedUp, Count;
    TakenIs(data);
    SplitCount(data, Size(data), t, index);
    CountSorted(data[..Size(data)], t, index);
    if t >= data[0].timestamp {
      CountElsewhere(data[Size(data)..], t, index);
    } else {
      CountElsewhere(data[..Size(data)], t, index);
    }
  }

  lemma SplitCount(data: seq<Info>, n: nat, t: Time, index: nat)
    requires n <= |data|
    ensures Count(data, t, index) == Count(data[..n], t, index) + Count(data[n..], t, index)
  {
    assert data == data[..n] + data[n..];
    CountJoin(data[..n], data[n..], t, index);
  }

  lemma {:induction false} ScanCounts(data: seq<Info>, legacy: Option<Info>, t: Time, index: nat)
    requires Newestfirst(data)
    ensures var scan := Scanned(data, legacy);
            multiset(Fragments(scan.sets))[Fragment(index, t)] == if Counted(scan, t) then Count(data, t, index) else 0
    decreases |data|
  {
    if data != [] {
      var now := Superseded(legacy, Group(data), data[0].timestamp);
      GroupCount(data, t, index);
      GroupIs(data);
      if now.Some? && now.value.timestamp == data[0].timestamp {
        CountMarked(Group(data), t, index);
        CountUpdates(Marked(Group(data)), t, index);
        FragmentsCons(Marked(Group(data)), []);
        assert Scanned(data, legacy).sets == [Marked(Group(data))] + [];
      } else {
        var older := Scanned(data[Size(data)..], now);
        ScanCounts(data[Size(data)..], now, t, index);
        CountUpdates(Group(data), t, index);
        FragmentsCons(Group(data), older.sets);
        DurableOlder(data, now);
      }
    }
    hide Group, Superseded, Size, Marked;
  }

  /** A set found among older fragments is older. */
  lemma DurableOlder(data: seq<Info>, durable: Option<Info>)
    requires data != [] && Newestfirst(data)
    ensures var older := Scanned(data[Size(data)..], durable);
            older.durableSet.Some? ==> older.durable.Some? && older.durable.value.timestamp < data[0].timestamp
  {
    var rest := data[Size(data)..];
    GroupIs(data);
    ScanOk(rest, durable);
    var older := Scanned(rest, durable);
    if older.durableSet.Some? {
      var f := older.durableSet.value;
      assert FromData(rest, f);
      assert f[0] in f;
    }
    hide Scanned, Size, Group, Newestfirst, SetsOk, DurableIs, HasTime;
  }

  // ----- what makes a timestamp durable does not matter -----

  lemma ScanOrdered(data: seq<Info>, legacy: seq<Info>)
    requires Arranged(data, legacy)
    ensures Ordered(Fragments(ScanOf(data, legacy).sets))
  {
    var scan := ScanOf(data, legacy);
    ScanOk(data, Head(legacy));
    forall f | f in scan.sets ensures WellSet(f) {
      assert FromData(data, f);
    }
    hide Scanned, Newestfirst, FromData, Ordered;
    FragmentsOrdered(scan.sets);
  }

  /** The same timestamps have data, and the same are durable. */
  ghost predicate SameState(data: seq<Info>, legacy: seq<Info>, later: seq<Info>, laterLegacy: seq<Info>) {
    && (forall t: Time :: HasData(data, t) <==> HasData(later, t))
    && (forall t: Time :: DurableAt(data, legacy, t) <==> DurableAt(later, laterLegacy, t))
  }

  lemma MarkedData(data: seq<Info>, legacy: seq<Info>, t: Time)
    requires Arranged(data, legacy)
    ensures DurableData(data, legacy, t) <==> ScanOf(data, legacy).durableSet.Some? && TimeOf(ScanOf(data, legacy).durableSet.value) == t
  {
    DurableTime(data, legacy);
    MarkIs(data, legacy, t);
    hide Arranged, ScanOf, NewestMark, HasData;
  }

  lemma CountedIs(data: seq<Info>, legacy: seq<Info>, t: Time)
    requires Arranged(data, legacy)
    ensures Counted(ScanOf(data, legacy), t) <==> Reached(data, legacy, t)
  {
    DurableTime(data, legacy);
    forall u: Time
      ensures NewestMark(data, legacy, u) <==> ScanOf(data, legacy).durable.Some? && ScanOf(data, legacy).durable.value.timestamp == u
    {
      MarkIs(data, legacy, u);
    }
    hide ScanOf, Arranged, NewestMark, DurableAt, HasData;
  }

  /** The durable mark is made exactly for the newest durable timestamp, if that
      has data; once, and after all fragments. */
  lemma MarkOnce(data: seq<Info>, legacy: seq<Info>, t: Time)
    requires Arranged(data, legacy)
    ensures var updates := Updates(ScanOf(data, legacy));
            && multiset(updates)[DurableMark(t)] == (if DurableData(data, legacy, t) then 1 else 0)
            && (DurableData(data, legacy, t) ==> updates != [] && Last(updates) == DurableMark(t))
  {
    var scan := ScanOf(data, legacy);
    OnlyFragments(scan.sets);
    MarkedData(data, legacy, t);
    DurableTime(data, legacy);
    hide Arranged, ScanOf, Fragments, DurableData;
    var tail := if scan.durableSet.Some? then [DurableMark(TimeOf(scan.durableSet.value))] else [];
    assert Updates(scan) == Fragments(scan.sets) + tail;
    assert multiset(Updates(scan)) == multiset(Fragments(scan.sets)) + multiset(tail);
  }

  /** What the updates are, said of the files: every fragment as often as there
      are files of it, if its timestamp is reached, and the durable mark. */
  lemma UpdatesAre(data: seq<Info>, legacy: seq<Info>, t: Time, i: nat)
    requires Arranged(data, legacy)
    ensures var updates := Updates(ScanOf(data, legacy));
            && multiset(updates)[Fragment(i, t)] == (if Reached(data, legacy, t) then Count(data, t, i) else 0)
            && multiset(updates)[DurableMark(t)] == (if DurableData(data, legacy, t) then 1 else 0)
            && (DurableData(data, legacy, t) ==> updates != [] && Last(updates) == DurableMark(t))
  {
    hide Arranged, ScanOf, Fragments, DurableData, Reached, Counted, Count;
    var scan := ScanOf(data, legacy);
    MarkOnce(data, legacy, t);
    CountedIs(data, legacy, t);
    FragmentCount(data, legacy, t, i);
    assert multiset(Updates(scan))[Fragment(i, t)] == multiset(Fragments(scan.sets))[Fragment(i, t)];
  }

  /** The newest durable timestamp that has data is the same in both, if there is one. */
  ghost predicate SameMark(data: seq<Info>, legacy: seq<Info>, later: seq<Info>, laterLegacy: seq<Info>) {
    forall t: Time :: DurableData(data, legacy, t) <==> DurableData(later, laterLegacy, t)
  }

  lemma SameCutoff(data: seq<Info>, legacy: seq<Info>, later: seq<Info>, laterLegacy: seq<Info>)
    requires Arranged(data, legacy) && Arranged(later, laterLegacy) && SameMark(data, legacy, later, laterLegacy)
    ensures var a, b := ScanOf(data, legacy), ScanOf(later, laterLegacy);
            && (forall t: Time :: Counted(a, t) <==> Counted(b, t))
            && (Fragments(a.sets) == Fragments(b.sets) <==> Updates(a) == Updates(b))
  {
    hide Arranged, DurableAt, HasData, ScanOf, Scanned, DurableData;
    var a, b := ScanOf(data, legacy), ScanOf(later, laterLegacy);
    DurableTime(data, legacy);
    DurableTime(later, laterLegacy);
    forall t: Time
      ensures DurableData(data, legacy, t) <==> a.durableSet.Some? && TimeOf(a.durableSet.value) == t
      ensures DurableData(later, laterLegacy, t) <==> b.durableSet.Some? && TimeOf(b.durableSet.value) == t
    {
      MarkedData(data, legacy, t);
      MarkedData(later, laterLegacy, t);
    }
    if a.durableSet.Some? { assert DurableData(later, laterLegacy, TimeOf(a.durableSet.value)); }
    if b.durableSet.Some? { assert DurableData(data, legacy, TimeOf(b.durableSet.value)); }
    var tail := if a.durableSet.Some? then [DurableMark(TimeOf(a.durableSet.value))] else [];
    assert Updates(a) == Fragments(a.sets) + tail && Updates(b) == Fragments(b.sets) + tail;
    SameFront(Fragments(a.sets), Fragments(b.sets), tail);
  }

  lemma SameFront(a: seq<Update>, b: seq<Update>, tail: seq<Update>)
    ensures a + tail == b + tail <==> a == b
  {
    if a + tail == b + tail {
      assert |a + tail| == |b + tail|;
      assert a == (a + tail)[..|a|] && b == (b + tail)[..|b|];
    }
  }

  /** Every fragment that counts has as many files in one directory as in the other. */
  ghost predicate SameCounts(data: seq<Info>, legacy: seq<Info>, later: seq<Info>) {
    forall t: Time, i: nat :: Reached(data, legacy, t) ==> Count(data, t, i) == Count(later, t, i)
  }

  /** Two directories make the same sequence of updates exactly if their newest
      durable timestamps with data agree, and every fragment at or after it has as
      many files in one as in the other. */
  lemma UpdatesAgree(data: seq<Info>, legacy: seq<Info>, later: seq<Info>, laterLegacy: seq<Info>)
    requires Arranged(data, legacy) && Arranged(later, laterLegacy)
    ensures Updates(ScanOf(data, legacy)) == Updates(ScanOf(later, laterLegacy)) <==>
              SameMark(data, legacy, later, laterLegacy) && SameCounts(data, legacy, later)
  {
    hide Updates, ScanOf, Arranged, SameCounts, DurableData;
    if SameMark(data, legacy, later, laterLegacy) {
      FragmentsAgree(data, legacy, later, laterLegacy);
    } else {
      var t: Time :| DurableData(data, legacy, t) != DurableData(later, laterLegacy, t);
      MarkOnce(data, legacy, t);
      MarkOnce(later, laterLegacy, t);
    }
  }

  lemma FragmentsAgree(data: seq<Info>, legacy: seq<Info>, later: seq<Info>, laterLegacy: seq<Info>)
    requires Arranged(data, legacy) && Arranged(later, laterLegacy) && SameMark(data, legacy, later, laterLegacy)
    ensures Updates(ScanOf(data, legacy)) == Updates(ScanOf(later, laterLegacy)) <==> SameCounts(data, legacy, later)
  {
    hide SameMark, Counted, Ordered, Fragments, Updates, Reached, ScanOf;
    var a, b := ScanOf(data, legacy), ScanOf(later, laterLegacy);
    SameCutoff(data, legacy, later, laterLegacy);
    ScanOrdered(data, legacy);
    ScanOrdered(later, laterLegacy);
    forall t: Time ensures Counted(a, t) <==> Reached(data, legacy, t) { CountedIs(data, legacy, t); }
    forall t: Time, i: nat
      ensures multiset(Fragments(a.sets))[Fragment(i, t)] == if Counted(a, t) then Count(data, t, i) else 0
      ensures multiset(Fragments(b.sets))[Fragment(i, t)] == if Counted(a, t) then Count(later, t, i) else 0
    {
      FragmentCount(data, legacy, t, i);
      FragmentCount(later, laterLegacy, t, i);
    }
    hide Arranged, Count, Scanned;
    if SameCounts(data, legacy, later) {
      OnlyFragments(a.sets);
      OnlyFragments(b.sets);
      forall u ensures multiset(Fragments(a.sets))[u] == multiset(Fragments(b.sets))[u] {
        if u.Fragment? { assert multiset(Fragments(a.sets))[Fragment(u.index, u.timestamp)] == multiset(Fragments(b.sets))[Fragment(u.index, u.timestamp)]; }
      }
      assert multiset(Fragments(a.sets)) == multiset(Fragments(b.sets));
      OrderedSame(Fragments(a.sets), Fragments(b.sets));
    } else {
      var t: Time, i: nat :| Reached(data, legacy, t) && Count(data, t, i) != Count(later, t, i);
      BagsDiffer(Fragments(a.sets), Fragments(b.sets), Fragment(i, t));
      assert Updates(a) != Updates(b);
    }
  }

  /** Each fragment is counted as often as there are files of it, if its
      timestamp is not older than the newest durable one with data. */
  lemma FragmentCount(data: seq<Info>, legacy: seq<Info>, t: Time, i: nat)
    requires Arranged(data, legacy)
    ensures multiset(Fragments(ScanOf(data, legacy).sets))[Fragment(i, t)] == if Counted(ScanOf(data, legacy), t) then Count(data, t, i) else 0
  {
    ScanCounts(data, Head(legacy), t, i);
    hide Fragments, Scanned, Count;
  }

  lemma BagsDiffer(a: seq<Update>, b: seq<Update>, u: Update)
    requires multiset(a)[u] != multiset(b)[u]
    ensures a != b
  {
  }

  lemma {:induction false} OnlyFragments(sets: seq<FragSet>)
    ensures forall u: Update :: u.DurableMark? ==> multiset(Fragments(sets))[u] == 0
    decreases |sets|
  {
    if sets != [] {
      OnlyFragments(sets[..|sets| - 1]);
      assert forall u :: u in UpdatesOf(Last(sets)) ==> u.Fragment?;
    }
  }

  // ----- replacing .durable files by marks -----

  ghost predicate Has(data: seq<Info>, t: Time, index: nat, durable: bool) {
    exists x :: x in data && x.timestamp == t && FragOf(x) == index && x.durable == durable
  }

  /** File names differ, so no two files agree in all three. */
  ghost predicate NamedOnce(data: seq<Info>) {
    forall i, k :: 0 <= i < k < |data| ==>
      data[i].timestamp != data[k].timestamp || FragOf(data[i]) != FragOf(data[k]) || data[i].durable != data[k].durable
  }

  lemma {:induction false} CountHas(data: seq<Info>, t: Time, index: nat)
    requires NamedOnce(data)
    ensures Count(data, t, index) == (if Has(data, t, index, true) then 1 else 0) + (if Has(data, t, index, false) then 1 else 0)
    decreases |data|
  {
    if data != [] {
      var rest := data[1..];
      assert forall i :: 0 <= i < |rest| ==> rest[i] == data[i + 1];
      assert NamedOnce(rest);
      CountHas(rest, t, index);
      assert data == [data[0]] + rest;
      forall d ensures Has(data, t, index, d) <==> Has(rest, t, index, d) || (IsFrag(data[0], t, index) == 1 && data[0].durable == d) {
        HasMore(data, t, index, d);
      }
      if IsFrag(data[0], t, index) == 1 { HasOnce(data, t, index); }
    }
  }

  lemma HasMore(data: seq<Info>, t: Time, index: nat, d: bool)
    requires data != []
    ensures Has(data, t, index, d) <==> Has(data[1..], t, index, d) || (IsFrag(data[0], t, index) == 1 && data[0].durable == d)
  {
    assert data == [data[0]] + data[1..];
  }

  lemma HasOnce(data: seq<Info>, t: Time, index: nat)
    requires data != [] && NamedOnce(data) && IsFrag(data[0], t, index) == 1
    ensures !Has(data[1..], t, index, data[0].durable)
  {
    var rest := data[1..];
    forall x | x in rest ensures !(x.timestamp == t && FragOf(x) == index && x.durable == data[0].durable) {
      var i :| 0 <= i < |rest| && rest[i] == x;
      assert data[i + 1] == x;
    }
  }

  /** Each .durable file with data goes, and its fragments are marked instead. */
  ghost predicate Replaces(data: seq<Info>, legacy: seq<Info>, later: seq<Info>, laterLegacy: seq<Info>) {
    && (forall t: Time, i: nat, d :: Has(later, t, i, d) <==> exists e :: Has(data, t, i, e) && d == (e || LegacyAt(legacy, t)))
    && (forall t: Time :: LegacyAt(laterLegacy, t) <==> LegacyAt(legacy, t) && !HasData(data, t))
  }

  /** A fragment that is there marked and unmarked, at a timestamp a .durable file
      makes durable, with no newer durable timestamp that has data. */
  ghost predicate Merges(data: seq<Info>, legacy: seq<Info>, t: Time, i: nat) {
    Offered(data, legacy, t) && LegacyAt(legacy, t) && Has(data, t, i, true) && Has(data, t, i, false)
  }

  lemma SameFragments(data: seq<Info>, legacy: seq<Info>, later: seq<Info>, laterLegacy: seq<Info>, t: Time, i: nat)
    requires Replaces(data, legacy, later, laterLegacy) && NamedOnce(data) && NamedOnce(later)
    ensures Count(data, t, i) == Count(later, t, i) <==> !(LegacyAt(legacy, t) && Has(data, t, i, true) && Has(data, t, i, false))
  {
    CountHas(data, t, i);
    CountHas(later, t, i);
    hide LegacyAt, NamedOnce, Count, HasData;
    assert Has(later, t, i, true) <==> exists e :: Has(data, t, i, e) && true == (e || LegacyAt(legacy, t));
    assert Has(later, t, i, false) <==> exists e :: Has(data, t, i, e) && false == (e || LegacyAt(legacy, t));
    hide Has, Replaces;
    assert (exists e :: Has(data, t, i, e)) <==> Has(data, t, i, true) || Has(data, t, i, false);
  }

  lemma HasIsData(data: seq<Info>, t: Time, i: nat)
    requires Has(data, t, i, true)
    ensures HasData(data, t)
  {
  }

  lemma SameTimes(data: seq<Info>, legacy: seq<Info>, later: seq<Info>, laterLegacy: seq<Info>)
    requires Replaces(data, legacy, later, laterLegacy)
    ensures SameState(data, legacy, later, laterLegacy)
  {
    hide LegacyAt;
    forall t: Time ensures HasData(data, t) <==> HasData(later, t) {
      if x :| x in data && x.timestamp == t {
        assert Has(data, t, FragOf(x), x.durable);
        assert Has(later, t, FragOf(x), x.durable || LegacyAt(legacy, t));
      }
      if x :| x in later && x.timestamp == t { assert Has(later, t, FragOf(x), x.durable); }
    }
    forall t: Time ensures DurableAt(data, legacy, t) <==> DurableAt(later, laterLegacy, t) {
      if x :| x in data && x.timestamp == t && (x.durable || LegacyAt(legacy, t)) {
        assert Has(data, t, FragOf(x), x.durable);
        assert Has(later, t, FragOf(x), true);
      }
      if x :| x in later && x.timestamp == t && x.durable { assert Has(later, t, FragOf(x), true); }
    }
  }

  /** Replacing legacy files by marks keeps the sequence of updates, exactly
      unless that makes two files of one fragment one. */
  lemma HashesAreStable(data: seq<Info>, legacy: seq<Info>, later: seq<Info>, laterLegacy: seq<Info>)
    requires Arranged(data, legacy) && Arranged(later, laterLegacy) && NamedOnce(data) && NamedOnce(later)
    requires Replaces(data, legacy, later, laterLegacy)
    ensures Updates(ScanOf(data, legacy)) == Updates(ScanOf(later, laterLegacy)) <==>
              forall t: Time, i: nat :: !Merges(data, legacy, t, i)
  {
    hide Arranged, LegacyAt, ScanOf, Updates, Has, NamedOnce, Replaces, Count, SameState, SameMark, Reached, HasData;
    SameTimes(data, legacy, later, laterLegacy);
    StateMarks(data, legacy, later, laterLegacy);
    UpdatesAgree(data, legacy, later, laterLegacy);
    forall t: Time, i: nat
      ensures Merges(data, legacy, t, i) <==> Reached(data, legacy, t) && Count(data, t, i) != Count(later, t, i)
    {
      SameFragments(data, legacy, later, laterLegacy, t, i);
      if Has(data, t, i, true) { HasIsData(data, t, i); }
    }
    hide Merges;
    if t: Time, i: nat :| Merges(data, legacy, t, i) {
      assert Reached(data, legacy, t) && Count(data, t, i) != Count(later, t, i);
      assert !SameCounts(data, legacy, later);
    } else {
      assert SameCounts(data, legacy, later);
    }
  }

  lemma StateMarks(data: seq<Info>, legacy: seq<Info>, later: seq<Info>, laterLegacy: seq<Info>)
    requires SameState(data, legacy, later, laterLegacy)
    ensures SameMark(data, legacy, later, laterLegacy)
  {
    hide DurableAt, HasData;
    forall t: Time ensures NewestMark(data, legacy, t) <==> NewestMark(later, laterLegacy, t) {
    }
  }

  // ----- a directory where it does not -----

  function Fragment1(name: string, durable: bool): Info { Info(name, DATA, 5, None, Some(1), durable) }

  function Legacy(): Info { Info("5.durable", DURABLE, 5, None, None, false) }

  function Marked1(): Info { Fragment1("5#1#d.data", true) }

  function Plain1(): Info { Fragment1("5#1.data", false) }

  lemma AgainHas(t: Time, i: nat, d: bool)
    ensures Has([Marked1(), Plain1()], t, i, d) <==> t == 5 && i == 1
    ensures Has([Marked1()], t, i, d) <==> t == 5 && i == 1 && d
    ensures LegacyAt([Legacy()], t) <==> t == 5
    ensures HasData([Marked1(), Plain1()], t) <==> t == 5
  {
    var both, one, legacy := [Marked1(), Plain1()], [Marked1()], [Legacy()];
    assert both[0] in both && both[1] in both && one[0] in one && legacy[0] in legacy;
  }

  lemma AgainReplaces()
    ensures Replaces([Marked1(), Plain1()], [Legacy()], [Marked1()], [])
  {
    var both, one, legacy := [Marked1(), Plain1()], [Marked1()], [Legacy()];
    forall t: Time, i: nat, d: bool ensures Has(one, t, i, d) <==> exists e :: Has(both, t, i, e) && d == (e || LegacyAt(legacy, t)) {
      AgainHas(t, i, true);
      AgainHas(t, i, false);
    }
    forall t: Time ensures LegacyAt([], t) <==> LegacyAt(legacy, t) && !HasData(both, t) {
      AgainHas(t, 0, true);
    }
    hide Has, LegacyAt, HasData;
  }

  lemma AgainMerges()
    ensures Merges([Marked1(), Plain1()], [Legacy()], 5, 1)
  {
    var both, legacy := [Marked1(), Plain1()], [Legacy()];
    AgainArranged();
    DurableTime(both, legacy);
    AgainHas(5, 1, true);
    AgainHas(5, 1, false);
    forall t: Time | DurableAt(both, legacy, t) ensures t == 5 { AgainHas(t, 1, true); }
    hide ScanOf, Arranged, Has;
  }

  lemma AgainArranged()
    ensures Arranged([Marked1(), Plain1()], [Legacy()]) && Arranged([Marked1()], [])
    ensures NamedOnce([Marked1(), Plain1()]) && NamedOnce([Marked1()])
  {
  }

  /** A fragment written again after its timestamp became durable: 5#1.data and
      5#1#d.data beside 5.durable hash twice, the one file that is left once. */
  lemma WrittenAgain()
    ensures Updates(ScanOf([Marked1(), Plain1()], [Legacy()])) != Updates(ScanOf([Marked1()], []))
  {
    hide Replaces, Merges, Updates, ScanOf, Arranged, NamedOnce;
    AgainArranged();
    AgainReplaces();
    AgainMerges();
    HashesAreStable([Marked1(), Plain1()], [Legacy()], [Marked1()], []);
  }
}
