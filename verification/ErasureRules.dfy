/** What the erasure-coded search finds, said of the files: `data` are the
    fragments newer than the newest tombstone, `legacy` the .durable files. */
module ErasureRules {
  import opened Base
  import opened Metadata
  import opened OnDisk
  import opened ErasureFiles

  // ----- the durable timestamp -----

  ghost predicate HasData(data: seq<Info>, t: Time) { exists x :: x in data && x.timestamp == t }

  ghost predicate LegacyAt(legacy: seq<Info>, t: Time) { exists x :: x in legacy && x.timestamp == t }

  /** A mark in a fragment's name, or a .durable file. */
  ghost predicate DurableAt(data: seq<Info>, legacy: seq<Info>, t: Time) {
    LegacyAt(legacy, t) || exists x :: x in data && x.timestamp == t && x.durable
  }

  ghost predicate Arranged(data: seq<Info>, legacy: seq<Info>) { Newestfirst(data) && Descending(ByTimestamp, legacy) }

  function ScanOf(data: seq<Info>, legacy: seq<Info>): Scan { Scanned(data, Head(legacy)) }

  /** The durable timestamp is the newest there is, and has a set if it has data. */
  lemma DurableTime(data: seq<Info>, legacy: seq<Info>)
    requires Arranged(data, legacy)
    ensures var scan := ScanOf(data, legacy);
            && (scan.durable.Some? ==> DurableAt(data, legacy, scan.durable.value.timestamp))
            && (forall t: Time :: DurableAt(data, legacy, t) ==> scan.durable.Some? && t <= scan.durable.value.timestamp)
            && (scan.durableSet.Some? <==> scan.durable.Some? && HasData(data, scan.durable.value.timestamp))
            && (scan.durableSet.Some? ==> scan.durableSet.value != [] && TimeOf(scan.durableSet.value) == scan.durable.value.timestamp)
  {
    var scan := ScanOf(data, legacy);
    ScanOk(data, Head(legacy));
    forall y | y in legacy ensures y.timestamp <= legacy[0].timestamp {
      var i :| 0 <= i < |legacy| && legacy[i] == y;
      assert KeyOf(ByTimestamp, legacy[i]) <= KeyOf(ByTimestamp, legacy[0]);
    }
    if scan.durableSet.Some? {
      var f := scan.durableSet.value;
      assert FromData(data, f);
      assert f[0] in f;
    }
    hide Scanned, Newestfirst, HasTime, SetsOk;
  }

  /** The newest timestamp that is durable. */
  ghost predicate NewestMark(data: seq<Info>, legacy: seq<Info>, t: Time) {
    DurableAt(data, legacy, t) && forall u: Time :: DurableAt(data, legacy, u) ==> u <= t
  }

  lemma MarkIs(data: seq<Info>, legacy: seq<Info>, t: Time)
    requires Arranged(data, legacy)
    ensures NewestMark(data, legacy, t) <==> ScanOf(data, legacy).durable.Some? && ScanOf(data, legacy).durable.value.timestamp == t
  {
    DurableTime(data, legacy);
    hide ScanOf, DurableAt, Arranged;
  }

  /** The newest timestamp that is durable, if it has data. */
  ghost predicate DurableData(data: seq<Info>, legacy: seq<Info>, t: Time) { NewestMark(data, legacy, t) && HasData(data, t) }

  /** The timestamp is not older than that. */
  ghost predicate Reached(data: seq<Info>, legacy: seq<Info>, t: Time) {
    forall u: Time :: u > t && NewestMark(data, legacy, u) ==> !HasData(data, u)
  }

  /** There is a set for the timestamp: it has fragments, and is not older than
      a durable timestamp that has some. */
  ghost predicate Offered(data: seq<Info>, legacy: seq<Info>, t: Time) {
    HasData(data, t) && Reached(data, legacy, t)
  }

  lemma SetTime(data: seq<Info>, f: FragSet)
    requires FromData(data, f)
    ensures HasData(data, TimeOf(f))
  {
    assert f[0] in f;
  }

  lemma SetsNotOlder(data: seq<Info>, legacy: seq<Info>, f: FragSet)
    requires Arranged(data, legacy) && f in ScanOf(data, legacy).sets && ScanOf(data, legacy).durableSet.Some?
    ensures ScanOf(data, legacy).durable.Some? && TimeOf(f) >= ScanOf(data, legacy).durable.value.timestamp
  {
    var scan := ScanOf(data, legacy);
    ScanOk(data, Head(legacy));
    var i :| 0 <= i < |scan.sets| && scan.sets[i] == f;
    assert i < |scan.sets| - 1 ==> TimeOf(scan.sets[i]) > TimeOf(scan.sets[|scan.sets| - 1]);
    hide Scanned, FromData, DurableIs, HasTime;
  }

  lemma OfferedIs(data: seq<Info>, legacy: seq<Info>, t: Time)
    requires Arranged(data, legacy)
    ensures HasTime(ScanOf(data, legacy).sets, t) <==> Offered(data, legacy, t)
  {
    var scan := ScanOf(data, legacy);
    ScanOk(data, Head(legacy));
    DurableTime(data, legacy);
    forall u: Time ensures NewestMark(data, legacy, u) <==> scan.durable.Some? && scan.durable.value.timestamp == u { MarkIs(data, legacy, u); }
    hide Scanned, FromData, DurableIs, NewestMark, DurableAt, Arranged, TimeOf, SetsOk;
    if HasTime(scan.sets, t) {
      var i :| 0 <= i < |scan.sets| && TimeOf(scan.sets[i]) == t;
      SetTime(data, scan.sets[i]);
      if scan.durableSet.Some? { SetsNotOlder(data, legacy, scan.sets[i]); }
    }
  }

  // ----- preferences -----

  /** There is a fragment at the timestamp that is not excluded. */
  ghost predicate CanMeet(data: seq<Info>, pref: Pref) {
    exists x :: x in data && x.timestamp == pref.timestamp && x.frag.Some? && x.frag.value !in pref.exclude
  }

  ghost predicate Meets(data: seq<Info>, legacy: seq<Info>, pref: Pref) {
    Offered(data, legacy, pref.timestamp) && CanMeet(data, pref)
  }

  ghost predicate NoneMet(data: seq<Info>, legacy: seq<Info>, prefs: seq<Pref>) {
    forall k :: 0 <= k < |prefs| ==> !Meets(data, legacy, prefs[k])
  }

  lemma SatisfiableIs(data: seq<Info>, f: FragSet, pref: Pref)
    requires FromData(data, f) && TimeOf(f) == pref.timestamp
    ensures Satisfiable(pref, f) <==> CanMeet(data, pref)
  {
    if x :| x in data && x.timestamp == pref.timestamp && x.frag.Some? && x.frag.value !in pref.exclude {
      assert x in f || x.(durable := true) in f;
    }
    hide Ascending;
  }

  lemma MeetsIs(data: seq<Info>, legacy: seq<Info>, pref: Pref)
    requires Arranged(data, legacy)
    ensures Meets(data, legacy, pref) <==>
              exists f :: f in ScanOf(data, legacy).sets && TimeOf(f) == pref.timestamp && Satisfiable(pref, f)
  {
    var sets := ScanOf(data, legacy).sets;
    ScanOk(data, Head(legacy));
    OfferedIs(data, legacy, pref.timestamp);
    hide Scanned, FromData, DurableIs, SetsOk, Satisfiable, CanMeet, Offered, Arranged, TimeOf;
    if f :| f in sets && TimeOf(f) == pref.timestamp && Satisfiable(pref, f) {
      SetHasTime(sets, f);
      SatisfiableIs(data, f, pref);
    }
    if Meets(data, legacy, pref) {
      var i :| 0 <= i < |sets| && TimeOf(sets[i]) == pref.timestamp;
      SatisfiableIs(data, sets[i], pref);
    }
  }

  lemma UnmetIs(data: seq<Info>, legacy: seq<Info>, prefs: seq<Pref>)
    requires Arranged(data, legacy)
    ensures Unmet(ScanOf(data, legacy).sets, prefs) <==> NoneMet(data, legacy, prefs)
  {
    hide ScanOf, Satisfiable, Meets, Arranged, TimeOf;
    forall k | 0 <= k < |prefs|
      ensures Meets(data, legacy, prefs[k]) <==>
                exists f :: f in ScanOf(data, legacy).sets && TimeOf(f) == prefs[k].timestamp && Satisfiable(prefs[k], f)
    {
      MeetsIs(data, legacy, prefs[k]);
    }
  }

  lemma SetHasTime(sets: seq<FragSet>, f: FragSet)
    requires f in sets
    ensures HasTime(sets, TimeOf(f))
  {
    var i :| 0 <= i < |sets| && sets[i] == f;
    assert TimeOf(sets[i]) == TimeOf(f);
  }

  /** Two preferences, the later one at k, are about one timestamp that is offered, and none before k can be met. */
  ghost predicate AskedTwice(data: seq<Info>, legacy: seq<Info>, prefs: seq<Pref>, i: nat, k: nat)
    requires i < k < |prefs|
  {
    prefs[i].timestamp == prefs[k].timestamp && Offered(data, legacy, prefs[k].timestamp) && NoneMet(data, legacy, prefs[..k])
  }

  /** When the search raises KeyError. */
  lemma KeyErrorIs(data: seq<Info>, legacy: seq<Info>, prefs: seq<Pref>)
    requires Arranged(data, legacy)
    ensures AsksAgain(ScanOf(data, legacy).sets, prefs) <==> exists i, k :: 0 <= i < k < |prefs| && AskedTwice(data, legacy, prefs, i, k)
  {
    var sets := ScanOf(data, legacy).sets;
    forall i, k | 0 <= i < k < |prefs| ensures RepeatsAt(sets, prefs, i, k) <==> AskedTwice(data, legacy, prefs, i, k) {
      OfferedIs(data, legacy, prefs[k].timestamp);
      UnmetIs(data, legacy, prefs[..k]);
    }
    hide ScanOf, Arranged, RepeatsAt, AskedTwice;
  }

  // ----- the chosen timestamp -----

  /** The timestamp of the set the fragment is looked for in. */
  ghost predicate AtChosen(data: seq<Info>, legacy: seq<Info>, prefs: Option<seq<Pref>>, t: Time) {
    if prefs.None? then NewestMark(data, legacy, t) && HasData(data, t)
    else FirstMet(data, legacy, prefs.value, t) || NewestOther(data, legacy, prefs.value, t)
  }

  ghost predicate FirstMet(data: seq<Info>, legacy: seq<Info>, prefs: seq<Pref>, t: Time) {
    exists i :: 0 <= i < |prefs| && MetFirst(data, legacy, prefs, i) && prefs[i].timestamp == t
  }

  ghost predicate MetFirst(data: seq<Info>, legacy: seq<Info>, prefs: seq<Pref>, i: nat)
    requires i < |prefs|
  {
    Meets(data, legacy, prefs[i]) && NoneMet(data, legacy, prefs[..i])
  }

  ghost predicate NewestOther(data: seq<Info>, legacy: seq<Info>, prefs: seq<Pref>, t: Time) {
    && NoneMet(data, legacy, prefs) && Offered(data, legacy, t) && !Mentioned(prefs, t)
    && forall u: Time :: Offered(data, legacy, u) && !Mentioned(prefs, u) ==> u <= t
  }

  lemma OneFirst(data: seq<Info>, legacy: seq<Info>, prefs: seq<Pref>, i: nat, k: nat)
    requires i < |prefs| && k < |prefs| && MetFirst(data, legacy, prefs, i) && MetFirst(data, legacy, prefs, k)
    ensures i == k
  {
    hide Meets, NoneMet;
    if i < k { NotMetBefore(data, legacy, prefs, i, k); }
    if k < i { NotMetBefore(data, legacy, prefs, k, i); }
  }

  lemma NotMetBefore(data: seq<Info>, legacy: seq<Info>, prefs: seq<Pref>, i: nat, k: nat)
    requires i < k <= |prefs| && NoneMet(data, legacy, prefs[..k])
    ensures !Meets(data, legacy, prefs[i])
  {
    assert prefs[..k][i] == prefs[i];
  }

  lemma MetIs(data: seq<Info>, legacy: seq<Info>, prefs: seq<Pref>, i: nat, f: FragSet, index: nat)
    requires Arranged(data, legacy) && Met(ScanOf(data, legacy).sets, prefs, i, f, index)
    ensures i < |prefs| && MetFirst(data, legacy, prefs, i) && prefs[i].timestamp == TimeOf(f)
  {
    var sets := ScanOf(data, legacy).sets;
    ScanOk(data, Head(legacy));
    UnmetIs(data, legacy, prefs[..i]);
    SetHasTime(sets, f);
    OfferedIs(data, legacy, TimeOf(f));
    SatisfiableIs(data, f, prefs[i]);
    hide Scanned, FromData, DurableIs, SetsOk, CanMeet, Offered, Arranged, TimeOf, HasTime, Unmet, NoneMet;
  }

  lemma MetChosen(data: seq<Info>, legacy: seq<Info>, prefs: seq<Pref>, i: nat, f: FragSet, index: nat, t: Time)
    requires Arranged(data, legacy) && Met(ScanOf(data, legacy).sets, prefs, i, f, index)
    ensures TimeOf(f) == t <==> AtChosen(data, legacy, Some(prefs), t)
  {
    MetIs(data, legacy, prefs, i, f, index);
    hide Arranged, ScanOf, Met, TimeOf, Meets, Offered;
    assert !NoneMet(data, legacy, prefs);
    if FirstMet(data, legacy, prefs, t) {
      var k :| 0 <= k < |prefs| && MetFirst(data, legacy, prefs, k) && prefs[k].timestamp == t;
      OneFirst(data, legacy, prefs, i, k);
    }
    hide MetFirst, NoneMet;
  }

  lemma OtherChosen(data: seq<Info>, legacy: seq<Info>, prefs: seq<Pref>, frags: Option<FragSet>, t: Time)
    requires Arranged(data, legacy) && Unmentioned(ScanOf(data, legacy).sets, prefs, frags)
    ensures frags.Some? && TimeOf(frags.value) == t <==> AtChosen(data, legacy, Some(prefs), t)
  {
    var sets := ScanOf(data, legacy).sets;
    UnmetIs(data, legacy, prefs);
    forall u: Time ensures HasTime(sets, u) <==> Offered(data, legacy, u) { OfferedIs(data, legacy, u); }
    forall f | f in sets ensures HasTime(sets, TimeOf(f)) { SetHasTime(sets, f); }
    hide ScanOf, Arranged, Meets, Mentioned, TimeOf, Offered, Unmet;
    assert !FirstMet(data, legacy, prefs, t);
    forall u: Time | Offered(data, legacy, u) && !Mentioned(prefs, u) ensures frags.Some? && u <= TimeOf(frags.value) {
      var i :| 0 <= i < |sets| && TimeOf(sets[i]) == u;
    }
  }

  /** The chosen set is that of the chosen timestamp. */
  lemma ChosenIs(data: seq<Info>, legacy: seq<Info>, r: EcResults, wanted: Option<nat>, prefs: Option<seq<Pref>>, t: Time)
    requires Arranged(data, legacy) && Scan(r.sets, r.durable, r.durableSet) == ScanOf(data, legacy)
    requires prefs.None? ==> r.chosenSet == r.durableSet
    requires prefs.Some? ==> Preferred(r, wanted, prefs.value)
    ensures r.chosenSet.Some? && TimeOf(r.chosenSet.value) == t <==> AtChosen(data, legacy, prefs, t)
  {
    if prefs.None? {
      DurableTime(data, legacy);
      MarkIs(data, legacy, t);
    } else if r.data == Pick(r.chosenSet, wanted) && Unmentioned(r.sets, prefs.value, r.chosenSet) {
      OtherChosen(data, legacy, prefs.value, r.chosenSet, t);
    } else {
      var i: nat, index: nat :| r.chosenSet.Some? && r.data == Pick(r.chosenSet, Some(index)) && Met(r.sets, prefs.value, i, r.chosenSet.value, index);
      MetChosen(data, legacy, prefs.value, i, r.chosenSet.value, index, t);
    }
    hide Arranged, ScanOf, NewestMark, HasData, Met, Unmentioned;
  }

  /** Two preferences for one timestamp, the first of which excludes its only
      fragment: the search fails, though the second could be met. */
  lemma AskedTwiceFails(name: string, t: Time, index: nat, fragment: Info)
    requires fragment == Info(name, DATA, t, None, Some(index), false)
    ensures CanMeet([fragment], Pref(t, []))
    ensures AsksAgain(ScanOf([fragment], []).sets, [Pref(t, [index]), Pref(t, [])])
  {
    var data, prefs := [fragment], [Pref(t, [index]), Pref(t, [])];
    assert data[0] in data;
    assert Offered(data, [], t);
    assert !CanMeet(data, prefs[0]);
    assert prefs[..1] == [prefs[0]];
    assert AskedTwice(data, [], prefs, 0, 1);
    KeyErrorIs(data, [], prefs);
  }

  // ----- what may be reclaimed -----

  /** A set of exactly the fragments of its timestamp, as they were found. */
  ghost predicate AsFound(data: seq<Info>, f: FragSet) {
    forall x :: multiset(f)[x] == if x.timestamp == TimeOf(f) then multiset(data)[x] else 0
  }

  lemma GroupAsFound(data: seq<Info>)
    requires data != [] && Newestfirst(data)
    ensures AsFound(data, Group(data))
  {
    GroupIs(data);
    TakenIs(data);
    var n := Size(data);
    SortedUpOk(data[..n]);
    forall x ensures multiset(Group(data))[x] == if x.timestamp == data[0].timestamp then multiset(data)[x] else 0 {
      SplitCounts(data, n, x);
      assert x.timestamp == data[0].timestamp ==> x !in data[n..];
      assert x.timestamp != data[0].timestamp ==> x !in data[..n];
    }
    hide Size, SortedUp, Newestfirst;
  }

  lemma OlderAsFound(data: seq<Info>, f: FragSet)
    requires data != [] && Newestfirst(data) && AsFound(data[Size(data)..], f) && TimeOf(f) < data[0].timestamp
    ensures AsFound(data, f)
  {
    TakenIs(data);
    var n := Size(data);
    forall x ensures multiset(f)[x] == if x.timestamp == TimeOf(f) then multiset(data)[x] else 0 {
      SplitCounts(data, n, x);
      assert x.timestamp == TimeOf(f) ==> x !in data[..n];
    }
    hide Size, Newestfirst;
  }

  /** Only the fragments of the durable set are marked. */
  lemma {:induction false} ScannedAsFound(data: seq<Info>, legacy: Option<Info>)
    requires Newestfirst(data)
    ensures var scan := Scanned(data, legacy); forall f :: f in scan.sets && Some(f) != scan.durableSet ==> AsFound(data, f)
    decreases |data|
  {
    hide AsFound, Group, Superseded, Marked, Size, FromData;
    if data != [] {
      var now := Superseded(legacy, Group(data), data[0].timestamp);
      if !(now.Some? && now.value.timestamp == data[0].timestamp) {
        GroupIs(data);
        var rest := data[Size(data)..];
        var older := Scanned(rest, now);
        ScannedAsFound(rest, now);
        ScanOk(rest, now);
        GroupAsFound(data);
        forall f | f in older.sets && Some(f) != older.durableSet ensures AsFound(data, f) {
          OlderSets(data, f);
          OlderAsFound(data, f);
        }
      }
    }
  }

  lemma AsFoundItems(data: seq<Info>, f: FragSet, x: Info)
    requires AsFound(data, f)
    ensures x in f <==> x in data && x.timestamp == TimeOf(f)
  {
    assert x in f <==> multiset(f)[x] > 0;
    assert x in data <==> multiset(data)[x] > 0;
  }

  /** What the scan and the choice of a set found. */
  ghost predicate Chose(data: seq<Info>, legacy: seq<Info>, r: EcResults, wanted: Option<nat>, prefs: Option<seq<Pref>>) {
    && Arranged(data, legacy) && Scan(r.sets, r.durable, r.durableSet) == ScanOf(data, legacy)
    && (prefs.None? ==> r.chosenSet == r.durableSet)
    && (prefs.Some? ==> Preferred(r, wanted, prefs.value))
  }

  lemma ChosenInSets(data: seq<Info>, legacy: seq<Info>, r: EcResults, wanted: Option<nat>, prefs: Option<seq<Pref>>)
    requires Chose(data, legacy, r, wanted, prefs)
    ensures r.chosenSet.Some? ==> r.chosenSet.value in r.sets
    ensures r.durableSet.Some? ==> r.durableSet.value in r.sets
  {
    ScanOk(data, Head(legacy));
    if r.durableSet.Some? { assert Last(r.sets) in r.sets; }
    hide Arranged, Scanned, SetsOk, FromData, DurableIs, HasTime, Unmet;
  }

  /** What is up for reclaiming are the offered fragments that are neither durable nor chosen. */
  lemma SpareIs(data: seq<Info>, legacy: seq<Info>, r: EcResults, wanted: Option<nat>, prefs: Option<seq<Pref>>, x: Info)
    requires Chose(data, legacy, r, wanted, prefs)
    ensures x in Spare(r.sets, r.durableSet, r.chosenSet) <==>
              && x in data && Offered(data, legacy, x.timestamp)
              && !NewestMark(data, legacy, x.timestamp) && !AtChosen(data, legacy, prefs, x.timestamp)
  {
    var t := x.timestamp;
    SpareItems(r.sets, r.durableSet, r.chosenSet);
    OfferedIs(data, legacy, t);
    MarkIs(data, legacy, t);
    DurableTime(data, legacy);
    ChosenIs(data, legacy, r, wanted, prefs, t);
    ChosenInSets(data, legacy, r, wanted, prefs);
    ScanOk(data, Head(legacy));
    ScannedAsFound(data, Head(legacy));
    hide Arranged, Scanned, ScanSays, AsFound, Spare, Preferred, AtChosen, Offered, NewestMark, DurableAt, TimeOf;
    if x in Spare(r.sets, r.durableSet, r.chosenSet) {
      var f :| f in r.sets && Some(f) != r.durableSet && Some(f) != r.chosenSet && x in f;
      AsFoundItems(data, f, x);
      SetHasTime(r.sets, f);
      ScanSetsOk(data, legacy);
      OneOfATime(r.sets, f);
      assert HasData(data, t);
    } else if x in data && Offered(data, legacy, t) && !NewestMark(data, legacy, t) && !AtChosen(data, legacy, prefs, t) {
      var i :| 0 <= i < |r.sets| && TimeOf(r.sets[i]) == t;
      var f := r.sets[i];
      assert Some(f) != r.durableSet && Some(f) != r.chosenSet;
      AsFoundItems(data, f, x);
      assert false;
    }
  }

  lemma ScanSetsOk(data: seq<Info>, legacy: seq<Info>)
    requires Arranged(data, legacy)
    ensures SetsOk(ScanOf(data, legacy).sets)
  {
    ScanOk(data, Head(legacy));
    hide Scanned, FromData, DurableIs, HasTime;
  }

  /** No fragment is up for reclaiming more often than it was found. */
  lemma {:induction false} SpareOnce(data: seq<Info>, sets: seq<FragSet>, durableSet: Option<FragSet>, chosenSet: Option<FragSet>, x: Info)
    requires SetsOk(sets) && (forall f :: f in sets && Some(f) != durableSet ==> AsFound(data, f))
    ensures multiset(Spare(sets, durableSet, chosenSet))[x] <= multiset(data)[x]
    decreases |sets|
  {
    if sets != [] {
      var before, last := sets[..|sets| - 1], Last(sets);
      assert sets == before + [last];
      SpareOnce(data, before, durableSet, chosenSet, x);
      SpareItems(before, durableSet, chosenSet);
      if x in last && Some(last) != durableSet && Some(last) != chosenSet {
        AsFoundItems(data, last, x);
        forall f | f in before && Some(f) != durableSet ensures x !in f {
          var i :| 0 <= i < |before| && before[i] == f;
          assert TimeOf(sets[i]) > TimeOf(sets[|sets| - 1]);
          AsFoundItems(data, f, x);
        }
        assert x !in Spare(before, durableSet, chosenSet);
      }
    }
    hide TimeOf;
  }
}
