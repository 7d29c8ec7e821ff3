/** The reference rules for erasure-coded objects: fragments of one timestamp
    form a set, and the newest durable set defines the object. */
module ErasureFiles {
  import opened Base
  import opened Metadata
  import opened OnDisk

  const DURABLE: string := ".durable"

  type FragSet = seq<Info>

  function FragOf(x: Info): nat { x.frag.GetOr(0) }

  // ----- sorting by fragment index -----

  function InsertUp(x: Info, list: seq<Info>): seq<Info> {
    if list == [] || FragOf(x) <= FragOf(list[0]) then [x] + list else [list[0]] + InsertUp(x, list[1..])
  }

  function SortedUp(list: seq<Info>): seq<Info> {
    if list == [] then [] else InsertUp(list[0], SortedUp(list[1..]))
  }

  predicate Ascending(list: seq<Info>) { forall i, k :: 0 <= i < k < |list| ==> FragOf(list[i]) <= FragOf(list[k]) }

  lemma {:induction false} InsertUpBag(x: Info, list: seq<Info>)
    ensures multiset(InsertUp(x, list)) == multiset{x} + multiset(list)
    decreases |list|
  {
    if list != [] && FragOf(x) > FragOf(list[0]) {
      InsertUpBag(x, list[1..]);
      assert list == [list[0]] + list[1..];
    }
  }

  lemma PrependedUp(x: Info, list: seq<Info>)
    requires Ascending(list) && (forall y :: y in list ==> FragOf(x) <= FragOf(y))
    ensures Ascending([x] + list)
  {
    var all := [x] + list;
    forall i, k | 0 <= i < k < |all| ensures FragOf(all[i]) <= FragOf(all[k]) {
      assert all[k] == list[k - 1];
    }
  }

  lemma {:induction false} InsertUpOk(x: Info, list: seq<Info>)
    requires Ascending(list)
    ensures Ascending(InsertUp(x, list))
    decreases |list|
  {
    if list == [] || FragOf(x) <= FragOf(list[0]) {
      forall y | y in list ensures FragOf(x) <= FragOf(y) {
        var i :| 0 <= i < |list| && list[i] == y;
        assert i > 0 ==> FragOf(list[0]) <= FragOf(list[i]);
      }
      PrependedUp(x, list);
    } else {
      var rest := InsertUp(x, list[1..]);
      InsertUpOk(x, list[1..]);
      InsertUpBag(x, list[1..]);
      SameItems(rest, multiset{x} + multiset(list[1..]));
      forall y | y in rest ensures FragOf(list[0]) <= FragOf(y) {
        assert y == x || y in list[1..];
      }
      hide Ascending;
      PrependedUp(list[0], rest);
    }
  }

  lemma {:induction false} SortedUpOk(list: seq<Info>)
    ensures Ascending(SortedUp(list)) && multiset(SortedUp(list)) == multiset(list)
    decreases |list|
  {
    if list != [] {
      SortedUpOk(list[1..]);
      InsertUpOk(list[0], SortedUp(list[1..]));
      InsertUpBag(list[0], SortedUp(list[1..]));
      assert list == [list[0]] + list[1..];
    }
    hide Ascending;
  }

  lemma SortedUpItems(list: seq<Info>)
    ensures |SortedUp(list)| == |list| && (forall x :: x in SortedUp(list) <==> x in list)
  {
    SortedUpOk(list);
    assert |multiset(SortedUp(list))| == |multiset(list)|;
    SameItems(SortedUp(list), multiset(list));
    SameItems(list, multiset(list));
    hide Ascending, SortedUp;
  }

  // ----- the fragment sets, newest first, down to the durable one -----

  datatype Scan = Scan(sets: seq<FragSet>, durable: Option<Info>, durableSet: Option<FragSet>)

  function Size(data: seq<Info>): (n: nat)
    requires data != []
    ensures 0 < n <= |data|
  {
    Leading(data, NotOlder(data[0].timestamp))
  }

  function Group(data: seq<Info>): FragSet
    requires data != []
  {
    SortedUp(data[..Size(data)])
  }

  function FirstDurable(frags: FragSet): Option<Info> {
    if frags == [] then None else if frags[0].durable then Some(frags[0]) else FirstDurable(frags[1..])
  }

  function Marked(frags: FragSet): FragSet { seq(|frags|, i requires 0 <= i < |frags| => frags[i].(durable := true)) }

  /** What the newest set says of the durable timestamp. */
  function Superseded(durable: Option<Info>, frags: FragSet, timestamp: Time): Option<Info> {
    var marked := FirstDurable(frags);
    if marked.Some? && (durable.None? || durable.value.timestamp < timestamp) then marked else durable
  }

  function Scanned(data: seq<Info>, durable: Option<Info>): Scan
    decreases |data|
  {
    if data == [] then Scan([], durable, None)
    else
      var frags, timestamp := Group(data), data[0].timestamp;
      var now := Superseded(durable, frags, timestamp);
      if now.Some? && now.value.timestamp == timestamp then
        Scan([Marked(frags)], now, Some(Marked(frags)))
      else
        var older := Scanned(data[Size(data)..], now);
        Scan([frags] + older.sets, older.durable, older.durableSet)
  }

  method ScanFrags(data: seq<Info>, legacy: Option<Info>) returns (r: Scan)
    ensures r == Scanned(data, legacy)
  {
    var frags, durable := data, legacy;
    var sets: seq<FragSet> := [];
    var durableSet := None;
    while frags != [] && durableSet.None?
      invariant durableSet.None? ==>
                  var rest := Scanned(frags, durable);
                  Scanned(data, legacy) == Scan(sets + rest.sets, rest.durable, rest.durableSet)
      invariant durableSet.Some? ==> Scanned(data, legacy) == Scan(sets, durable, durableSet)
      decreases |frags|, durableSet.None?
    {
      var n := Size(frags);
      var newest := SortedUp(frags[..n]);
      var timestamp := frags[0].timestamp;
      assert newest == Group(frags);
      ghost var was := durable;
      var i := 0;
      while i < |newest| && !newest[i].durable
        invariant i <= |newest| && FirstDurable(newest) == FirstDurable(newest[i..])
      {
        assert newest[i..][1..] == newest[i + 1..];
        i := i + 1;
      }
      assert FirstDurable(newest) == if i < |newest| then Some(newest[i]) else None;
      if i < |newest| && (durable.None? || durable.value.timestamp < timestamp) { durable := Some(newest[i]); }
      assert durable == Superseded(was, newest, timestamp);
      if durable.Some? && durable.value.timestamp == timestamp {
        newest := Marked(newest);
        durableSet := Some(newest);
      } else {
        assert forall rest: seq<FragSet> :: sets + ([newest] + rest) == (sets + [newest]) + rest;
      }
      sets, frags := sets + [newest], frags[n..];
    }
    if durableSet.None? { assert sets + [] == sets; }
    r := Scan(sets, durable, durableSet);
  }

  // ----- choosing a set and a fragment -----

  /** A proxy's preference: any fragment at this timestamp but these. */
  datatype Pref = Pref(timestamp: Time, exclude: seq<nat>)

  /** Python raises KeyError on asking again for a timestamp that had nothing to offer. */
  datatype Chosen = KeyError | Chosen(frags: Option<FragSet>, index: Option<nat>)

  function TimeOf(frags: FragSet): Time { if frags == [] then 0 else frags[0].timestamp }

  predicate HasTime(sets: seq<FragSet>, timestamp: Time) { exists i :: 0 <= i < |sets| && TimeOf(sets[i]) == timestamp }

  predicate Accepts(pref: Pref, frags: FragSet, index: nat) {
    index !in pref.exclude && exists x :: x in frags && x.frag == Some(index)
  }

  predicate Satisfiable(pref: Pref, frags: FragSet) { exists x :: x in frags && x.frag.Some? && x.frag.value !in pref.exclude }

  method Acceptable(pref: Pref, frags: FragSet) returns (index: Option<nat>)
    requires forall x :: x in frags ==> x.frag.Some?
    ensures index.Some? <==> Satisfiable(pref, frags)
    ensures index.Some? ==> Accepts(pref, frags, index.value)
  {
    index := None;
    for i := 0 to |frags|
      invariant index.Some? <==> exists k :: 0 <= k < i && frags[k].frag.value !in pref.exclude
      invariant index.Some? ==> Accepts(pref, frags, index.value)
    {
      if frags[i].frag.value !in pref.exclude {
        assert frags[i] in frags;
        index := frags[i].frag;
      }
    }
  }

  ghost predicate SetsOk(sets: seq<FragSet>) {
    && (forall i :: 0 <= i < |sets| ==> sets[i] != [] && (forall x :: x in sets[i] ==> x.frag.Some?))
    && (forall i, k :: 0 <= i < k < |sets| ==> TimeOf(sets[i]) > TimeOf(sets[k]))
  }

  /** Some preference was met, and all those before it could not be. */
  ghost predicate Met(sets: seq<FragSet>, prefs: seq<Pref>, i: nat, frags: FragSet, index: nat) {
    && i < |prefs| && frags in sets && TimeOf(frags) == prefs[i].timestamp && Accepts(prefs[i], frags, index)
    && Unmet(sets, prefs[..i])
  }

  ghost predicate Unmet(sets: seq<FragSet>, prefs: seq<Pref>) {
    forall k, f :: 0 <= k < |prefs| && f in sets && TimeOf(f) == prefs[k].timestamp ==> !Satisfiable(prefs[k], f)
  }

  ghost predicate Mentioned(prefs: seq<Pref>, timestamp: Time) { exists k :: 0 <= k < |prefs| && prefs[k].timestamp == timestamp }

  /** No preference could be met: the newest set none of them is about. */
  ghost predicate Unmentioned(sets: seq<FragSet>, prefs: seq<Pref>, frags: Option<FragSet>) {
    && Unmet(sets, prefs)
    && (frags.Some? ==> frags.value in sets && !Mentioned(prefs, TimeOf(frags.value)))
    && (forall f :: f in sets && !Mentioned(prefs, TimeOf(f)) ==> frags.Some? && TimeOf(f) <= TimeOf(frags.value))
  }

  /** A preference asks again for a timestamp that is there, before any was met. */
  ghost predicate AsksAgain(sets: seq<FragSet>, prefs: seq<Pref>) {
    exists i, k :: 0 <= i < k < |prefs| && RepeatsAt(sets, prefs, i, k)
  }

  ghost predicate RepeatsAt(sets: seq<FragSet>, prefs: seq<Pref>, i: nat, k: nat)
    requires i < k < |prefs|
  {
    prefs[i].timestamp == prefs[k].timestamp && HasTime(sets, prefs[k].timestamp) && Unmet(sets, prefs[..k])
  }

  method Find(sets: seq<FragSet>, timestamp: Time) returns (found: Option<FragSet>)
    ensures found.Some? ==> found.value in sets && TimeOf(found.value) == timestamp
    ensures found.None? ==> forall f :: f in sets ==> TimeOf(f) != timestamp
  {
    for i := 0 to |sets|
      invariant forall k :: 0 <= k < i ==> TimeOf(sets[k]) != timestamp
    {
      if TimeOf(sets[i]) == timestamp { return Some(sets[i]); }
    }
    found := None;
  }

  method ChooseSet(scan: Scan, wanted: Option<nat>, prefs: Option<seq<Pref>>) returns (r: Chosen)
    requires SetsOk(scan.sets)
    ensures prefs.None? ==> r == Chosen(scan.durableSet, wanted)
    ensures prefs.Some? && r.Chosen? ==>
              || (exists i: nat :: r.frags.Some? && r.index.Some? && Met(scan.sets, prefs.value, i, r.frags.value, r.index.value))
              || (r.index == wanted && Unmentioned(scan.sets, prefs.value, r.frags))
    ensures r.KeyError? <==> prefs.Some? && AsksAgain(scan.sets, prefs.value)
  {
    hide Satisfiable, HasTime, Mentioned, Unmet, AsksAgain, Accepts;
    if prefs.None? { return Chosen(scan.durableSet, wanted); }
    var sets := scan.sets;
    var dropped: set<Time> := {};
    NothingAsked(sets, prefs.value);
    for i := 0 to |prefs.value|
      invariant Unmet(sets, prefs.value[..i]) && NoneAgain(sets, prefs.value, i)
      invariant forall t :: t in dropped ==> Mentioned(prefs.value[..i], t)
      invariant forall f :: f in sets && Mentioned(prefs.value[..i], TimeOf(f)) ==> TimeOf(f) in dropped
    {
      var pref := prefs.value[i];
      MentionedMore(prefs.value, i);
      var frags := Find(sets, pref.timestamp);
      if frags.Some? {
        if pref.timestamp in dropped {
          AskedAgain(sets, prefs.value, i, frags.value);
          return Chosen.KeyError;
        }
        FirstAsked(sets, prefs.value, i, frags.value);
        AllIndexed(sets, frags.value);
        var index := Acceptable(pref, frags.value);
        OneOfATime(sets, frags.value);
        if index.Some? {
          assert Met(sets, prefs.value, i, frags.value, index.value);
          MetInTime(sets, prefs.value, i, frags.value);
          return Chosen(frags, index);
        }
        dropped := dropped + {pref.timestamp};
      } else {
        NotAsked(sets, prefs.value, i);
      }
      UnmetMore(sets, prefs.value, i, frags);
    }
    assert prefs.value[..|prefs.value|] == prefs.value;
    NeverAgain(sets, prefs.value);
    var k := 0;
    while k < |sets| && TimeOf(sets[k]) in dropped
      invariant k <= |sets|
      invariant forall m :: 0 <= m < k ==> TimeOf(sets[m]) in dropped
    {
      k := k + 1;
    }
    r := Chosen(if k < |sets| then Some(sets[k]) else None, wanted);
    NewestLeft(sets, prefs.value, dropped, k);
  }

  /** None of the first n preferences asks again for a timestamp that is there. */
  ghost predicate NoneAgain(sets: seq<FragSet>, prefs: seq<Pref>, n: nat)
    requires n <= |prefs|
  {
    forall i, k :: 0 <= i < k < n && prefs[i].timestamp == prefs[k].timestamp ==> !HasTime(sets, prefs[k].timestamp)
  }

  lemma NothingAsked(sets: seq<FragSet>, prefs: seq<Pref>)
    ensures Unmet(sets, prefs[..0]) && (forall t :: !Mentioned(prefs[..0], t))
  {
  }

  lemma AskedAgain(sets: seq<FragSet>, prefs: seq<Pref>, k: nat, frags: FragSet)
    requires k < |prefs| && Unmet(sets, prefs[..k]) && Mentioned(prefs[..k], prefs[k].timestamp)
    requires frags in sets && TimeOf(frags) == prefs[k].timestamp
    ensures AsksAgain(sets, prefs)
  {
    var i :| 0 <= i < k && prefs[..k][i].timestamp == prefs[k].timestamp;
    var m :| 0 <= m < |sets| && sets[m] == frags;
    assert HasTime(sets, prefs[k].timestamp) by { assert TimeOf(sets[m]) == prefs[k].timestamp; }
    assert RepeatsAt(sets, prefs, i, k);
    hide HasTime, Unmet;
  }

  lemma FirstAsked(sets: seq<FragSet>, prefs: seq<Pref>, k: nat, frags: FragSet)
    requires k < |prefs| && NoneAgain(sets, prefs, k) && frags in sets && TimeOf(frags) == prefs[k].timestamp
    requires !Mentioned(prefs[..k], prefs[k].timestamp)
    ensures NoneAgain(sets, prefs, k + 1)
  {
    forall i | 0 <= i < k ensures prefs[i].timestamp != prefs[k].timestamp {
      assert prefs[..k][i] == prefs[i];
    }
    hide HasTime;
  }

  lemma NotAsked(sets: seq<FragSet>, prefs: seq<Pref>, k: nat)
    requires k < |prefs| && NoneAgain(sets, prefs, k) && (forall f :: f in sets ==> TimeOf(f) != prefs[k].timestamp)
    ensures NoneAgain(sets, prefs, k + 1)
  {
    assert !HasTime(sets, prefs[k].timestamp);
  }

  lemma UnmetMore(sets: seq<FragSet>, prefs: seq<Pref>, k: nat, frags: Option<FragSet>)
    requires k < |prefs| && Unmet(sets, prefs[..k])
    requires frags.None? ==> forall f :: f in sets ==> TimeOf(f) != prefs[k].timestamp
    requires frags.Some? ==> !Satisfiable(prefs[k], frags.value) && forall f :: f in sets && TimeOf(f) == prefs[k].timestamp ==> f == frags.value
    ensures Unmet(sets, prefs[..k + 1])
  {
    var more := prefs[..k + 1];
    forall m, f | 0 <= m < |more| && f in sets && TimeOf(f) == more[m].timestamp ensures !Satisfiable(more[m], f) {
      if m < k { assert more[m] == prefs[..k][m]; }
    }
    hide Satisfiable;
  }

  /** Once a preference is met, no later one is looked at. */
  lemma MetInTime(sets: seq<FragSet>, prefs: seq<Pref>, n: nat, frags: FragSet)
    requires n < |prefs| && NoneAgain(sets, prefs, n + 1)
    requires frags in sets && TimeOf(frags) == prefs[n].timestamp && Satisfiable(prefs[n], frags)
    ensures !AsksAgain(sets, prefs)
  {
    forall i, k | 0 <= i < k < |prefs| ensures !RepeatsAt(sets, prefs, i, k) {
      if k > n { assert prefs[..k][n] == prefs[n]; }
    }
    hide Satisfiable, HasTime;
  }

  lemma NeverAgain(sets: seq<FragSet>, prefs: seq<Pref>)
    requires NoneAgain(sets, prefs, |prefs|)
    ensures !AsksAgain(sets, prefs)
  {
    hide HasTime, Unmet;
  }

  lemma MentionedMore(prefs: seq<Pref>, i: nat)
    requires i < |prefs|
    ensures forall t :: Mentioned(prefs[..i + 1], t) <==> Mentioned(prefs[..i], t) || t == prefs[i].timestamp
  {
    assert prefs[..i + 1] == prefs[..i] + [prefs[i]];
    forall t ensures Mentioned(prefs[..i + 1], t) <==> Mentioned(prefs[..i], t) || t == prefs[i].timestamp {
      assert prefs[..i + 1][i] == prefs[i];
      if Mentioned(prefs[..i], t) {
        var k :| 0 <= k < i && prefs[..i][k].timestamp == t;
        assert prefs[..i + 1][k].timestamp == t;
      }
    }
  }

  lemma AllIndexed(sets: seq<FragSet>, frags: FragSet)
    requires SetsOk(sets) && frags in sets
    ensures forall x :: x in frags ==> x.frag.Some?
  {
  }

  lemma OneOfATime(sets: seq<FragSet>, frags: FragSet)
    requires SetsOk(sets) && frags in sets
    ensures forall f :: f in sets && TimeOf(f) == TimeOf(frags) ==> f == frags
  {
  }

  lemma NewestLeft(sets: seq<FragSet>, prefs: seq<Pref>, dropped: set<Time>, k: nat)
    requires SetsOk(sets) && Unmet(sets, prefs) && k <= |sets|
    requires forall t :: t in dropped ==> Mentioned(prefs, t)
    requires forall f :: f in sets && Mentioned(prefs, TimeOf(f)) ==> TimeOf(f) in dropped
    requires (forall m :: 0 <= m < k ==> TimeOf(sets[m]) in dropped) && (k < |sets| ==> TimeOf(sets[k]) !in dropped)
    ensures Unmentioned(sets, prefs, if k < |sets| then Some(sets[k]) else None)
  {
  }

  // ----- what the scan finds -----

  ghost predicate Newestfirst(data: seq<Info>) { Descending(ByTimestamp, data) && (forall x :: x in data ==> x.frag.Some?) }

  lemma SplitIs(data: seq<Info>)
    requires data != [] && Newestfirst(data)
    ensures forall i :: 0 <= i < |data| ==> data[i].timestamp <= data[0].timestamp && (data[i].timestamp == data[0].timestamp <==> i < Size(data))
  {
    var n := Size(data);
    LeadingOk(data, NotOlder(data[0].timestamp));
    forall i | 0 <= i < |data| ensures data[i].timestamp <= data[0].timestamp && (data[i].timestamp == data[0].timestamp <==> i < n) {
      assert KeyOf(ByTimestamp, data[i]) <= KeyOf(ByTimestamp, data[0]);
      if n < i { assert KeyOf(ByTimestamp, data[i]) <= KeyOf(ByTimestamp, data[n]); }
    }
    hide Leading;
  }

  lemma TakenIs(data: seq<Info>)
    requires data != [] && Newestfirst(data)
    ensures forall x :: x in data[..Size(data)] <==> x in data && x.timestamp == data[0].timestamp
    ensures forall x :: x in data[Size(data)..] <==> x in data && x.timestamp < data[0].timestamp
  {
    SplitIs(data);
    hide Size, Newestfirst;
    var n := Size(data);
    var taken, rest := data[..n], data[n..];
    forall x | x in data ensures (x in taken <==> x.timestamp == data[0].timestamp) && (x in rest <==> x.timestamp < data[0].timestamp) {
      var i :| 0 <= i < |data| && data[i] == x;
      assert i < n ==> taken[i] == x;
      assert i >= n ==> rest[i - n] == x;
    }
  }

  lemma RestSorted(data: seq<Info>, n: nat)
    requires Newestfirst(data) && n <= |data|
    ensures Newestfirst(data[n..])
  {
  }

  lemma GroupIs(data: seq<Info>)
    requires data != [] && Newestfirst(data)
    ensures forall x :: x in Group(data) <==> x in data && x.timestamp == data[0].timestamp
    ensures Group(data) != [] && TimeOf(Group(data)) == data[0].timestamp
    ensures forall x :: x in data[Size(data)..] <==> x in data && x.timestamp < data[0].timestamp
    ensures Newestfirst(data[Size(data)..])
  {
    TakenIs(data);
    SortedUpItems(data[..Size(data)]);
    RestSorted(data, Size(data));
    hide SortedUp, Size, Newestfirst;
    assert Group(data)[0] in Group(data);
  }

  /** A set holds fragments of one timestamp, as they were found or all marked durable. */
  ghost predicate FromData(data: seq<Info>, frags: FragSet) {
    && frags != [] && Ascending(frags)
    && (|| (forall x :: x in frags <==> x in data && x.timestamp == TimeOf(frags))
        || (forall x :: x in frags <==> exists y :: y in data && y.timestamp == TimeOf(frags) && x == y.(durable := true)))
  }

  /** The durable timestamp is the newest of the legacy file's and the marked fragments'. */
  ghost predicate DurableIs(data: seq<Info>, legacy: Option<Info>, durable: Option<Info>) {
    && (legacy.Some? ==> durable.Some? && legacy.value.timestamp <= durable.value.timestamp)
    && (forall y :: y in data && y.durable ==> durable.Some? && y.timestamp <= durable.value.timestamp)
    && (durable.Some? ==> durable == legacy || (durable.value in data && durable.value.durable))
  }

  ghost predicate ScanSays(data: seq<Info>, legacy: Option<Info>, r: Scan) {
    && SetsOk(r.sets) && (forall f :: f in r.sets ==> FromData(data, f))
    && DurableIs(data, legacy, r.durable)
    && (r.durableSet.Some? ==>
          && r.durable.Some? && r.sets != [] && Last(r.sets) == r.durableSet.value
          && TimeOf(r.durableSet.value) == r.durable.value.timestamp
          && (forall x :: x in r.durableSet.value ==> x.durable && x.timestamp == r.durable.value.timestamp)
          && (forall y :: y in data && y.timestamp >= r.durable.value.timestamp ==> HasTime(r.sets, y.timestamp)))
    && (r.durableSet.None? ==>
          && (r.durable.Some? ==> r.durable == legacy && (forall y :: y in data ==> y.timestamp != r.durable.value.timestamp))
          && (forall y :: y in data ==> HasTime(r.sets, y.timestamp))
          && (forall f, x :: f in r.sets && x in f ==> x in data))
  }

  lemma {:induction false} FirstDurableOk(frags: FragSet)
    ensures FirstDurable(frags).Some? ==> FirstDurable(frags).value in frags && FirstDurable(frags).value.durable
    ensures FirstDurable(frags).None? ==> forall x :: x in frags ==> !x.durable
    decreases |frags|
  {
    if frags != [] && !frags[0].durable {
      FirstDurableOk(frags[1..]);
      assert frags == [frags[0]] + frags[1..];
    }
  }

  lemma MarkedOk(frags: FragSet)
    requires frags != [] && Ascending(frags)
    ensures Marked(frags) != [] && TimeOf(Marked(frags)) == TimeOf(frags) && Ascending(Marked(frags))
    ensures forall x :: x in Marked(frags) <==> exists y :: y in frags && x == y.(durable := true)
  {
    var marked := Marked(frags);
    forall x ensures x in marked <==> exists y :: y in frags && x == y.(durable := true) {
      if x in marked { var i :| 0 <= i < |marked| && marked[i] == x; assert frags[i] in frags; }
      if y :| y in frags && x == y.(durable := true) { var i :| 0 <= i < |frags| && frags[i] == y; assert marked[i] == x; }
    }
  }

  lemma GroupFrom(data: seq<Info>)
    requires data != [] && Newestfirst(data)
    ensures FromData(data, Group(data)) && FromData(data, Marked(Group(data)))
    ensures Marked(Group(data)) != [] && TimeOf(Marked(Group(data))) == data[0].timestamp
    ensures forall x :: x in Marked(Group(data)) ==> x.durable && x.timestamp == data[0].timestamp && x.frag.Some?
  {
    GroupIs(data);
    SortedUpOk(data[..Size(data)]);
    MarkedOk(Group(data));
    hide Group, Marked, Ascending;
  }

  /** The sets of the older fragments are sets of all. */
  lemma OlderSets(data: seq<Info>, f: FragSet)
    requires data != [] && Newestfirst(data) && FromData(data[Size(data)..], f)
    ensures FromData(data, f) && TimeOf(f) < data[0].timestamp
  {
    GroupIs(data);
    var rest := data[Size(data)..];
    assert f[0] in f;
    hide Ascending, Group, Size;
  }

  lemma SupersededOk(data: seq<Info>, legacy: Option<Info>)
    requires data != [] && Newestfirst(data)
    ensures var now := Superseded(legacy, Group(data), data[0].timestamp);
            && (legacy.Some? ==> now.Some? && legacy.value.timestamp <= now.value.timestamp)
            && (forall y :: y in Group(data) && y.durable ==> now.Some? && y.timestamp <= now.value.timestamp)
            && (now == legacy || (now.Some? && now.value in Group(data) && now.value.durable))
  {
    GroupIs(data);
    FirstDurableOk(Group(data));
    hide Group;
  }

  lemma {:induction false} ScanOk(data: seq<Info>, legacy: Option<Info>)
    requires Newestfirst(data)
    ensures ScanSays(data, legacy, Scanned(data, legacy))
    decreases |data|
  {
    if data != [] {
      var now := Superseded(legacy, Group(data), data[0].timestamp);
      GroupIs(data);
      SupersededOk(data, legacy);
      GroupFrom(data);
      if now.Some? && now.value.timestamp == data[0].timestamp {
        ScanStops(data, legacy);
      } else {
        ScanOk(data[Size(data)..], now);
        ScanGoesOn(data, legacy);
      }
    }
    hide FromData, DurableIs, SetsOk, Group, Superseded;
  }

  lemma ScanStops(data: seq<Info>, legacy: Option<Info>)
    requires data != [] && Newestfirst(data)
    requires var now := Superseded(legacy, Group(data), data[0].timestamp); now.Some? && now.value.timestamp == data[0].timestamp
    ensures ScanSays(data, legacy, Scanned(data, legacy))
  {
    var now := Superseded(legacy, Group(data), data[0].timestamp);
    var frags := Marked(Group(data));
    GroupIs(data);
    SupersededOk(data, legacy);
    GroupFrom(data);
    assert Scanned(data, legacy) == Scan([frags], now, Some(frags));
    forall y | y in data ensures y.timestamp <= data[0].timestamp {
      assert y in Group(data) || y in data[Size(data)..];
    }
    assert HasTime([frags], data[0].timestamp) by { assert TimeOf([frags][0]) == data[0].timestamp; }
    hide FromData, Group, Superseded, Marked, Newestfirst, Scanned;
  }

  lemma ScanGoesOn(data: seq<Info>, legacy: Option<Info>)
    requires data != [] && Newestfirst(data)
    requires var now := Superseded(legacy, Group(data), data[0].timestamp);
             && !(now.Some? && now.value.timestamp == data[0].timestamp)
             && ScanSays(data[Size(data)..], now, Scanned(data[Size(data)..], now))
    ensures ScanSays(data, legacy, Scanned(data, legacy))
  {
    hide FromData, Group, Superseded, Newestfirst, Scanned, SetsOk, DurableIs, HasTime, TimeOf, Size;
    var now := Superseded(legacy, Group(data), data[0].timestamp);
    var older := Scanned(data[Size(data)..], now);
    SupersededOk(data, legacy);
    ScanUnfolds(data, legacy);
    KeepsLegacy(data, legacy);
    forall f | f in older.sets ensures FromData(data, f) && TimeOf(f) < data[0].timestamp { OlderSets(data, f); }
    GroupFrom(data);
    GoesOnSets(data, older.sets);
    GoesOnDurable(data, legacy, older.durable);
    TimesGoOn(data[0].timestamp, Group(data), older.sets);
    GoesOnItems(data, older.sets);
    assert older.sets != [] ==> Last([Group(data)] + older.sets) == Last(older.sets);
  }

  lemma ScanUnfolds(data: seq<Info>, legacy: Option<Info>)
    requires data != []
    requires var now := Superseded(legacy, Group(data), data[0].timestamp); !(now.Some? && now.value.timestamp == data[0].timestamp)
    ensures var older := Scanned(data[Size(data)..], Superseded(legacy, Group(data), data[0].timestamp));
            Scanned(data, legacy) == Scan([Group(data)] + older.sets, older.durable, older.durableSet)
  {
  }

  lemma KeepsLegacy(data: seq<Info>, legacy: Option<Info>)
    requires data != [] && Newestfirst(data)
    requires var now := Superseded(legacy, Group(data), data[0].timestamp); !(now.Some? && now.value.timestamp == data[0].timestamp)
    ensures Superseded(legacy, Group(data), data[0].timestamp) == legacy
    ensures TimeOf(Group(data)) == data[0].timestamp
  {
    GroupIs(data);
    SupersededOk(data, legacy);
    hide Group, Superseded;
  }

  /** Every fragment is in the newest set or among the older ones. */
  lemma GoesOnItems(data: seq<Info>, sets: seq<FragSet>)
    requires data != [] && Newestfirst(data)
    ensures forall y :: y in data ==> y in data[Size(data)..] || y.timestamp == data[0].timestamp
    ensures forall y :: y in data[Size(data)..] ==> y in data
    ensures forall f :: f in [Group(data)] + sets ==> f == Group(data) || f in sets
    ensures forall x :: x in Group(data) ==> x in data
  {
    GroupIs(data);
    forall y | y in data ensures y in data[Size(data)..] || y.timestamp == data[0].timestamp {
      assert y in Group(data) || y in data[Size(data)..] || y.timestamp > data[0].timestamp;
      var i :| 0 <= i < |data| && data[i] == y;
      SplitIs(data);
    }
    hide Group, Size;
  }

  lemma TimesGoOn(timestamp: Time, newest: FragSet, sets: seq<FragSet>)
    requires TimeOf(newest) == timestamp
    ensures forall t :: HasTime(sets, t) || t == timestamp ==> HasTime([newest] + sets, t)
  {
    var all := [newest] + sets;
    forall t | HasTime(sets, t) || t == timestamp ensures HasTime(all, t) {
      assert TimeOf(all[0]) == timestamp;
      if t != timestamp {
        var i :| 0 <= i < |sets| && TimeOf(sets[i]) == t;
        assert all[i + 1] == sets[i];
      }
    }
  }

  lemma GoesOnSets(data: seq<Info>, sets: seq<FragSet>)
    requires data != [] && Newestfirst(data) && SetsOk(sets) && (forall f :: f in sets ==> TimeOf(f) < data[0].timestamp)
    ensures SetsOk([Group(data)] + sets)
  {
    GroupIs(data);
    hide Group;
    var all := [Group(data)] + sets;
    forall i, k | 0 <= i < k < |all| ensures TimeOf(all[i]) > TimeOf(all[k]) {
      assert all[k] == sets[k - 1];
      assert i > 0 ==> all[i] == sets[i - 1];
    }
  }

  lemma GoesOnDurable(data: seq<Info>, legacy: Option<Info>, durable: Option<Info>)
    requires data != [] && Newestfirst(data) && DurableIs(data[Size(data)..], legacy, durable)
    requires forall y :: y in Group(data) && y.durable ==> legacy.Some? && y.timestamp <= legacy.value.timestamp
    ensures DurableIs(data, legacy, durable)
  {
    GroupIs(data);
    hide Group, Size;
  }

  // ----- the policy's part of the search -----

  datatype EcResults = EcResults(
    data: Option<Info>,
    durable: Option<Info>,
    durableSet: Option<FragSet>,
    chosenSet: Option<FragSet>,
    sets: seq<FragSet>,
    obsolete: seq<Info>,
    possibleReclaim: seq<Info>)

  /** The fragment of the wanted index, or else the one of the highest. */
  function Pick(frags: Option<FragSet>, index: Option<nat>): Option<Info> {
    if frags.None? || frags.value == [] then None
    else if index.None? then Some(Last(frags.value))
    else FirstOf(frags.value, index)
  }

  function FirstOf(frags: FragSet, index: Option<nat>): Option<Info> {
    if frags == [] then None else if frags[0].frag == index then Some(frags[0]) else FirstOf(frags[1..], index)
  }

  /** .meta files that are not newer than a chosen fragment that is not durable are left out of it. */
  function Shown(exts: Exts, data: Option<Info>, apart: bool): Exts {
    if data.Some? && apart then exts[META := After(Files(exts, META), data.value.timestamp)] else exts
  }

  /** Nothing older than the durable timestamp stays, nor a .durable file without data. */
  function KeptByDurable(durable: Option<Info>, isolated: bool, ext: string, list: seq<Info>): seq<Info> {
    if durable.None? then list
    else if isolated && ext == DURABLE then []
    else NotBefore(list, durable.value.timestamp)
  }

  /** The fragments of the sets that are neither durable nor chosen. */
  function Spare(sets: seq<FragSet>, durableSet: Option<FragSet>, chosenSet: Option<FragSet>): seq<Info> {
    if sets == [] then []
    else
      var before, last := Spare(sets[..|sets| - 1], durableSet, chosenSet), Last(sets);
      if Some(last) == durableSet || Some(last) == chosenSet then before else before + last
  }

  method Select(frags: Option<FragSet>, index: Option<nat>) returns (data: Option<Info>)
    ensures data == Pick(frags, index)
  {
    data := None;
    if frags.Some? && frags.value != [] {
      if index.Some? {
        var i := 0;
        while i < |frags.value| && frags.value[i].frag != index
          invariant i <= |frags.value| && FirstOf(frags.value, index) == FirstOf(frags.value[i..], index)
        {
          assert frags.value[i..][1..] == frags.value[i + 1..];
          i := i + 1;
        }
        if i < |frags.value| { data := Some(frags.value[i]); }
      } else {
        data := Some(Last(frags.value));
      }
    }
  }

  method DropOlder(exts: Exts, durable: Info) returns (kept: Exts, obsolete: seq<Info>)
    requires Filed(exts)
    ensures kept.Keys == exts.Keys && Filed(kept) && Conserved(exts, kept, obsolete)
    ensures forall ext :: ext in exts ==> kept[ext] == NotBefore(exts[ext], durable.timestamp)
  {
    hide Conserved, Filed, Leading, NotOlder;
    kept, obsolete := exts, [];
    SameConserved(exts);
    var todo := exts.Keys;
    while todo != {}
      invariant todo <= exts.Keys == kept.Keys
      invariant forall ext :: ext in exts ==> kept[ext] == if ext in todo then exts[ext] else NotBefore(exts[ext], durable.timestamp)
      invariant Filed(kept) && Conserved(exts, kept, obsolete)
    {
      var ext :| ext in todo;
      var n := Leading(exts[ext], NotOlder(durable.timestamp));
      Discard(kept, obsolete, exts, ext, n);
      kept, obsolete := kept[ext := kept[ext][..n]], obsolete + kept[ext][n..];
      todo := todo - {ext};
    }
  }

  method SpareOf(sets: seq<FragSet>, durableSet: Option<FragSet>, chosenSet: Option<FragSet>) returns (spare: seq<Info>)
    ensures spare == Spare(sets, durableSet, chosenSet)
  {
    spare := [];
    for i := 0 to |sets|
      invariant spare == Spare(sets[..i], durableSet, chosenSet)
    {
      assert sets[..i + 1][..i] == sets[..i];
      if Some(sets[i]) != durableSet && Some(sets[i]) != chosenSet { spare := spare + sets[i]; }
    }
    assert sets[..|sets|] == sets;
  }

  /** The fragment is one that a preference accepts; if none can be met, it is of a set none of them is about. */
  ghost predicate Preferred(r: EcResults, wanted: Option<nat>, prefs: seq<Pref>) {
    || (r.data == Pick(r.chosenSet, wanted) && Unmentioned(r.sets, prefs, r.chosenSet))
    || (exists i: nat, index: nat :: r.chosenSet.Some? && r.data == Pick(r.chosenSet, Some(index)) && Met(r.sets, prefs, i, r.chosenSet.value, index))
  }

  method ProcessErasure(exts: Exts, wanted: Option<nat>, prefs: Option<seq<Pref>>) returns (ok: bool, r: EcResults, kept: Exts)
    requires Filed(exts) && Newestfirst(Files(exts, DATA))
    ensures var scan := Scanned(Files(exts, DATA), Head(Files(exts, DURABLE)));
            ok ==> r.sets == scan.sets && r.durable == scan.durable && r.durableSet == scan.durableSet
    ensures ok && prefs.None? ==> r.chosenSet == r.durableSet && r.data == Pick(r.durableSet, wanted)
    ensures ok && prefs.Some? ==> Preferred(r, wanted, prefs.value)
    ensures ok ==>
              var shown := Shown(exts, r.data, r.chosenSet != r.durableSet);
              && Filed(kept) && Conserved(shown, kept, r.obsolete)
              && (forall ext :: Files(kept, ext) == KeptByDurable(r.durable, r.durableSet.None?, ext, Files(shown, ext)))
    ensures ok ==> r.possibleReclaim == Spare(r.sets, r.durableSet, r.chosenSet) + (if r.durableSet.None? then Files(kept, META) else [])
    ensures !ok <==> prefs.Some? && AsksAgain(Scanned(Files(exts, DATA), Head(Files(exts, DURABLE))).sets, prefs.value)
  {
    hide Conserved, Filed, Unmentioned, Met, NotBefore, After, AsksAgain;
    var scan := ScanFrags(Files(exts, DATA), Head(Files(exts, DURABLE)));
    ScanOk(Files(exts, DATA), Head(Files(exts, DURABLE)));
    var chosen := ChooseSet(scan, wanted, prefs);
    if chosen.KeyError? { return false, EcResults(None, None, None, None, [], [], []), exts; }
    var data := Select(chosen.frags, chosen.index);
    var shown := exts;
    if data.Some? && chosen.frags != scan.durableSet {
      shown := shown[META := After(Files(shown, META), data.value.timestamp)];
    }
    ShownFiled(exts, data, chosen.frags != scan.durableSet);
    var obsolete;
    kept, obsolete := DropForDurable(shown, scan);
    var possible := SpareOf(scan.sets, scan.durableSet, chosen.frags);
    if scan.durableSet.None? { possible := possible + Files(kept, META); }
    r := EcResults(data, scan.durable, scan.durableSet, chosen.frags, scan.sets, obsolete, possible);
    ok := true;
  }

  lemma ShownFiled(exts: Exts, data: Option<Info>, apart: bool)
    requires Filed(exts)
    ensures Filed(Shown(exts, data, apart))
    ensures forall ext :: ext != META ==> Files(Shown(exts, data, apart), ext) == Files(exts, ext)
  {
  }

  method DropForDurable(exts: Exts, scan: Scan) returns (kept: Exts, obsolete: seq<Info>)
    requires Filed(exts) && (scan.durable.None? ==> Files(exts, DURABLE) == [])
    ensures Filed(kept) && Conserved(exts, kept, obsolete)
    ensures forall ext :: Files(kept, ext) == KeptByDurable(scan.durable, scan.durableSet.None?, ext, Files(exts, ext))
  {
    hide Conserved, Filed, NotBefore;
    kept, obsolete := exts, [];
    SameConserved(exts);
    if scan.durable.Some? {
      kept, obsolete := DropOlder(exts, scan.durable.value);
      NothingToDrop(scan.durable.value.timestamp);
    }
    if Files(kept, DURABLE) != [] && scan.durableSet.None? {
      ghost var before := kept;
      kept, obsolete := DropIsolated(exts, kept, obsolete);
    }
  }

  method DropIsolated(exts: Exts, older: Exts, before: seq<Info>) returns (kept: Exts, obsolete: seq<Info>)
    requires Filed(older) && Conserved(exts, older, before) && DURABLE in older
    ensures Filed(kept) && Conserved(exts, kept, obsolete)
    ensures forall ext :: Files(kept, ext) == if ext == DURABLE then [] else Files(older, ext)
  {
    hide Conserved, Filed;
    Discard(older, before, exts, DURABLE, 0);
    kept, obsolete := older[DURABLE := older[DURABLE][..0]], before + older[DURABLE][0..];
  }

  lemma NothingToDrop(timestamp: Time)
    ensures NotBefore([], timestamp) == []
  {
  }

  // ----- what becomes obsolete -----

  ghost predicate AllSorted(exts: Exts) { forall ext :: Descending(ByTimestamp, Files(exts, ext)) }

  lemma NotBeforeItems(list: seq<Info>, timestamp: Time)
    requires Descending(ByTimestamp, list)
    ensures forall x :: multiset(NotBefore(list, timestamp))[x] == if x.timestamp >= timestamp then multiset(list)[x] else 0
  {
    var n := Leading(list, NotOlder(timestamp));
    LeadingOk(list, NotOlder(timestamp));
    hide Leading;
    forall i | n <= i < |list| ensures list[i].timestamp < timestamp {
      assert KeyOf(ByTimestamp, list[i]) <= KeyOf(ByTimestamp, list[n]);
    }
    forall x ensures multiset(list[..n])[x] == if x.timestamp >= timestamp then multiset(list)[x] else 0 {
      SplitCounts(list, n, x);
      if x.timestamp >= timestamp {
        assert x !in list[n..];
      } else {
        assert x !in list[..n];
      }
    }
  }

  /** What the policy's part hands back, as ProcessErasure promises it. */
  ghost predicate Processed(exts: Exts, r: EcResults, kept: Exts) {
    && Filed(exts) && AllSorted(exts) && Newestfirst(Files(exts, DATA))
    && ScanSays(Files(exts, DATA), Head(Files(exts, DURABLE)), Scan(r.sets, r.durable, r.durableSet))
    && var shown := Shown(exts, r.data, r.chosenSet != r.durableSet);
    && Filed(kept) && Conserved(shown, kept, r.obsolete)
    && (forall ext :: Files(kept, ext) == KeptByDurable(r.durable, r.durableSet.None?, ext, Files(shown, ext)))
    && r.possibleReclaim == Spare(r.sets, r.durableSet, r.chosenSet) + (if r.durableSet.None? then Files(kept, META) else [])
  }

  lemma ShownSorted(exts: Exts, data: Option<Info>, apart: bool)
    requires AllSorted(exts)
    ensures AllSorted(Shown(exts, data, apart))
  {
    var shown := Shown(exts, data, apart);
    if data.Some? && apart {
      var n := Leading(Files(exts, META), Newer(data.value.timestamp));
      assert Files(shown, META) == Files(exts, META)[..n];
      assert forall ext :: ext != META ==> Files(shown, ext) == Files(exts, ext);
    }
    hide After, Leading;
  }

  /** Obsolete is what is older than the durable timestamp, and a .durable file without data. */
  lemma ObsoleteIs(exts: Exts, r: EcResults, kept: Exts, x: Info)
    requires Processed(exts, r, kept)
    ensures x in r.obsolete <==>
              && r.durable.Some? && x in Files(Shown(exts, r.data, r.chosenSet != r.durableSet), x.ext)
              && (x.timestamp < r.durable.value.timestamp || (r.durableSet.None? && x.ext == DURABLE))
  {
    hide ScanSays, Filed, Shown, Newestfirst, NotBefore, Spare, Descending;
    var shown := Shown(exts, r.data, r.chosenSet != r.durableSet);
    ShownSorted(exts, r.data, r.chosenSet != r.durableSet);
    assert Descending(ByTimestamp, Files(shown, x.ext));
    assert multiset(Files(shown, x.ext))[x] == multiset(Files(kept, x.ext))[x] + multiset(r.obsolete)[x];
    hide AllSorted, Conserved;
    assert x in r.obsolete <==> multiset(r.obsolete)[x] > 0;
    assert x in Files(shown, x.ext) <==> multiset(Files(shown, x.ext))[x] > 0;
    if r.durable.Some? { NotBeforeItems(Files(shown, x.ext), r.durable.value.timestamp); }
  }

  lemma {:induction false} SpareItems(sets: seq<FragSet>, durableSet: Option<FragSet>, chosenSet: Option<FragSet>)
    ensures forall x :: x in Spare(sets, durableSet, chosenSet) <==>
              exists f :: f in sets && Some(f) != durableSet && Some(f) != chosenSet && x in f
    decreases |sets|
  {
    if sets != [] {
      SpareItems(sets[..|sets| - 1], durableSet, chosenSet);
      assert sets == sets[..|sets| - 1] + [Last(sets)];
    }
  }

  lemma ScanItems(data: seq<Info>, legacy: Option<Info>, scan: Scan, f: FragSet, x: Info)
    requires ScanSays(data, legacy, scan) && f in scan.sets && x in f && (forall y :: y in data ==> y.ext == DATA)
    ensures x.timestamp == TimeOf(f) && x.ext == DATA && (scan.durableSet.None? ==> x in data)
  {
    assert FromData(data, f);
    hide SetsOk, DurableIs, Ascending;
  }

  lemma OthersNewer(data: seq<Info>, legacy: Option<Info>, scan: Scan, f: FragSet)
    requires ScanSays(data, legacy, scan) && f in scan.sets && scan.durableSet.Some? && Some(f) != scan.durableSet
    ensures scan.durable.Some? && TimeOf(f) > scan.durable.value.timestamp
  {
    var i :| 0 <= i < |scan.sets| && scan.sets[i] == f;
    assert i < |scan.sets| - 1;
    assert TimeOf(scan.sets[i]) > TimeOf(scan.sets[|scan.sets| - 1]);
    hide FromData, DurableIs, HasTime;
  }

  lemma DataFiled(exts: Exts)
    requires Filed(exts)
    ensures forall y :: y in Files(exts, DATA) ==> y.ext == DATA
  {
  }

  lemma SetItems(exts: Exts, r: EcResults, kept: Exts, f: FragSet, x: Info)
    requires Processed(exts, r, kept) && f in r.sets && x in f
    ensures x.timestamp == TimeOf(f) && x.ext == DATA && (r.durableSet.None? ==> x in Files(exts, DATA))
    ensures r.durableSet.Some? && Some(f) != r.durableSet ==> r.durable.Some? && x.timestamp > r.durable.value.timestamp
  {
    hide AllSorted, Conserved, NotBefore, Descending, Newestfirst, ScanSays, Filed, TimeOf;
    var scan := Scan(r.sets, r.durable, r.durableSet);
    DataFiled(exts);
    ScanItems(Files(exts, DATA), Head(Files(exts, DURABLE)), scan, f, x);
    if r.durableSet.Some? && Some(f) != r.durableSet {
      OthersNewer(Files(exts, DATA), Head(Files(exts, DURABLE)), scan, f);
    }
  }

  lemma ShownData(exts: Exts, r: EcResults)
    ensures Files(Shown(exts, r.data, r.chosenSet != r.durableSet), DATA) == Files(exts, DATA)
  {
  }

  // ----- what is chosen -----

  /** Without preferences: a fragment of the newest durable set, the one asked
      for or that of the highest index. */
  lemma DurableChoice(exts: Exts, r: EcResults, kept: Exts, wanted: Option<nat>)
    requires Processed(exts, r, kept) && r.data == Pick(r.durableSet, wanted) && r.data.Some?
    ensures var d := r.data.value;
            && r.durable.Some? && d.durable && d.timestamp == r.durable.value.timestamp
            && (forall y :: y in Files(exts, DATA) && y.durable ==> y.timestamp <= d.timestamp)
            && (forall y :: y in Files(exts, DURABLE) ==> y.timestamp <= d.timestamp)
            && (wanted.Some? ==> d.frag == wanted)
            && (wanted.None? ==> forall y :: y in Files(exts, DATA) && y.timestamp == d.timestamp ==> FragOf(y) <= FragOf(d))
  {
    hide AllSorted, Conserved, NotBefore, Newestfirst, Filed, SetsOk, Shown, Spare;
    var frags := r.durableSet.value;
    assert FromData(Files(exts, DATA), frags);
    FirstOfIs(frags, wanted);
    LegacyNewest(exts);
    if wanted.None? {
      HighestIs(frags);
      forall y | y in Files(exts, DATA) && y.timestamp == r.data.value.timestamp ensures FragOf(y) <= FragOf(r.data.value) {
        InOwnSet(Files(exts, DATA), frags, y);
      }
    }
  }

  lemma {:induction false} FirstOfIs(frags: FragSet, index: Option<nat>)
    ensures FirstOf(frags, index).Some? ==> FirstOf(frags, index).value in frags && FirstOf(frags, index).value.frag == index
    decreases |frags|
  {
    if frags != [] && frags[0].frag != index { FirstOfIs(frags[1..], index); }
  }

  lemma LegacyNewest(exts: Exts)
    requires AllSorted(exts)
    ensures forall y :: y in Files(exts, DURABLE) ==> y.timestamp <= Head(Files(exts, DURABLE)).value.timestamp
  {
    var list := Files(exts, DURABLE);
    forall y | y in list ensures y.timestamp <= list[0].timestamp {
      var i :| 0 <= i < |list| && list[i] == y;
      assert KeyOf(ByTimestamp, list[i]) <= KeyOf(ByTimestamp, list[0]);
    }
  }

  lemma HighestIs(frags: FragSet)
    requires frags != [] && Ascending(frags)
    ensures forall x :: x in frags ==> FragOf(x) <= FragOf(Last(frags))
  {
    forall x | x in frags ensures FragOf(x) <= FragOf(Last(frags)) {
      var i :| 0 <= i < |frags| && frags[i] == x;
    }
  }

  lemma InOwnSet(data: seq<Info>, frags: FragSet, y: Info)
    requires FromData(data, frags) && y in data && y.timestamp == TimeOf(frags)
    ensures y in frags || y.(durable := true) in frags
  {
  }

  // ----- the whole search -----

  /** The erasure-coded contract: data only with its durable set, or by preference. */
  predicate VerifiedErasure(r: Results, durableSet: Option<FragSet>, prefs: Option<seq<Pref>>) {
    Verified(r) && (r.data.Some? <==> (durableSet.Some? || (r.data.Some? && prefs.Some?)))
  }

  ghost predicate Indexed(parse: string -> Option<Info>) {
    forall name :: parse(name).Some? && parse(name).value.ext == DATA ==> parse(name).value.frag.Some?
  }

  /** The .meta files that are left out of it: neither kept nor obsolete. */
  function Hidden(exts: Exts, data: Option<Info>, apart: bool): seq<Info> {
    if data.Some? && apart then Files(exts, META)[Leading(Files(exts, META), Newer(data.value.timestamp))..] else []
  }

  /** Every file is kept, hidden or obsolete, and once. */
  ghost predicate AccountedErasure(files: seq<string>, parse: string -> Option<Info>, kept: Exts, hidden: seq<Info>, obsolete: seq<Info>) {
    forall x: Info ::
      multiset(Listed(files, parse, x.ext))[x] == multiset(Files(kept, x.ext))[x] + multiset(hidden)[x] + multiset(obsolete)[x]
  }

  /** What the scan finds among the files that are newer than the newest tombstone. */
  function ScanIn(files: seq<string>, parse: string -> Option<Info>): Scan {
    Scanned(Retained(files, parse, DATA), Head(Retained(files, parse, DURABLE)))
  }

  /** What the policy's part starts from, and what it finds. */
  ghost predicate Found(files: seq<string>, parse: string -> Option<Info>, wanted: Option<nat>, prefs: Option<seq<Pref>>,
                        ec: EcResults, exts: Exts, kept: Exts) {
    && (forall ext :: Files(exts, ext) == Retained(files, parse, ext))
    && Scan(ec.sets, ec.durable, ec.durableSet) == ScanIn(files, parse)
    && Processed(exts, ec, kept)
    && (prefs.None? ==> ec.chosenSet == ec.durableSet && ec.data == Pick(ec.durableSet, wanted))
    && (prefs.Some? ==> Preferred(ec, wanted, prefs.value))
  }

  /** What the whole search hands back. */
  ghost predicate Searched(files: seq<string>, parse: string -> Option<Info>, ec: EcResults, exts: Exts, kept: Exts, r: Results) {
    && r.data == ec.data && r.possibleReclaim == ec.possibleReclaim
    && r.meta == ChosenMeta(r.data, Files(kept, META)) && r.ctype == ChosenCtype(r.data, Files(kept, META))
    && r.ts == (if r.data.Some? then None else Head(Files(kept, TS)))
    && (forall name :: name in r.unexpected <==> name in files && parse(name).None?)
    && AccountedErasure(files, parse, kept, Hidden(exts, ec.data, ec.chosenSet != ec.durableSet), r.obsolete)
  }

  /** The part of the search that comes before the policy's. */
  method Narrow(files: seq<string>, parse: string -> Option<Info>) returns (exts: Exts, obsolete: seq<Info>, unexpected: seq<string>)
    ensures forall ext :: Files(exts, ext) == Retained(files, parse, ext)
    ensures Filed(exts) && Split(files, parse, exts, obsolete)
    ensures forall name :: name in unexpected <==> name in files && parse(name).None?
  {
    hide Sorted, Parsed, KeptByTombstone, RetainedMetas, Conserved, Filed, Split;
    var all, live, older, others;
    all, unexpected := Categorize(files, parse);
    live, older := DropBeforeTombstone(all);
    exts, others := RetainMetas(live);
    obsolete := older + others;
    assert forall ext :: Files(all, ext) == Listed(files, parse, ext);
    assert forall ext :: Files(live, ext) == Live(files, parse, ext);
    IsSplit(all, live, exts, older, others, files, parse);
  }

  ghost predicate Split(files: seq<string>, parse: string -> Option<Info>, exts: Exts, obsolete: seq<Info>) {
    forall x: Info :: multiset(Listed(files, parse, x.ext))[x] == multiset(Files(exts, x.ext))[x] + multiset(obsolete)[x]
  }

  lemma IsSplit(all: Exts, live: Exts, exts: Exts, older: seq<Info>, others: seq<Info>, files: seq<string>, parse: string -> Option<Info>)
    requires forall ext :: Files(all, ext) == Listed(files, parse, ext)
    requires Conserved(all, live, older) && Conserved(live, exts, others)
    ensures Split(files, parse, exts, older + others)
  {
    hide Listed;
  }

  method GetErasureFiles(files: seq<string>, parse: string -> Option<Info>, wanted: Option<nat>, prefs: Option<seq<Pref>>)
    returns (ok: bool, r: Results, ec: EcResults, ghost exts: Exts, ghost kept: Exts)
    requires Indexed(parse)
    ensures !ok <==> prefs.Some? && AsksAgain(ScanIn(files, parse).sets, prefs.value)
    ensures ok ==> Found(files, parse, wanted, prefs, ec, exts, kept) && Searched(files, parse, ec, exts, kept, r)
    ensures ok ==> VerifiedErasure(r, if r.data.Some? then ec.durableSet else None, prefs)
  {
    hide Retained, Conserved, Filed, Split, KeptByDurable, Preferred, Pick, Shown, AsksAgain, AccountedErasure, Processed, AllSorted,
         Newestfirst, Indexed, ScanSays, Hidden;
    var retained, older, unexpected := Narrow(files, parse);
    exts := retained;
    RetainedSorted(files, parse, retained);
    var left;
    ok, ec, left := ProcessErasure(retained, wanted, prefs);
    kept := left;
    if !ok { return false, Results(None, None, None, None, [], [], []), ec, exts, kept; }
    ScanOk(Files(retained, DATA), Head(Files(retained, DURABLE)));
    IsProcessed(exts, ec, kept);
    var meta, ctype, ts := Finish(left, ec.data);
    r := Results(ec.data, meta, ts, ctype, older + ec.obsolete, ec.possibleReclaim, unexpected);
    IsAccountedErasure(exts, kept, ec, older, files, parse);
    PickSome(ec.durableSet, wanted);
  }

  lemma IsProcessed(exts: Exts, ec: EcResults, kept: Exts)
    requires Filed(exts) && AllSorted(exts) && Newestfirst(Files(exts, DATA))
    requires ScanSays(Files(exts, DATA), Head(Files(exts, DURABLE)), Scan(ec.sets, ec.durable, ec.durableSet))
    requires var shown := Shown(exts, ec.data, ec.chosenSet != ec.durableSet);
             && Filed(kept) && Conserved(shown, kept, ec.obsolete)
             && (forall ext :: Files(kept, ext) == KeptByDurable(ec.durable, ec.durableSet.None?, ext, Files(shown, ext)))
    requires ec.possibleReclaim == Spare(ec.sets, ec.durableSet, ec.chosenSet) + (if ec.durableSet.None? then Files(kept, META) else [])
    ensures Processed(exts, ec, kept)
  {
    hide Filed, AllSorted, Newestfirst, ScanSays, Conserved, KeptByDurable, Spare;
  }

  lemma HiddenIs(exts: Exts, data: Option<Info>, apart: bool, x: Info)
    requires Filed(exts)
    ensures multiset(Files(exts, x.ext))[x] == multiset(Files(Shown(exts, data, apart), x.ext))[x] + multiset(Hidden(exts, data, apart))[x]
  {
    if data.Some? && apart {
      var metas := Files(exts, META);
      var n := Leading(metas, Newer(data.value.timestamp));
      SplitCounts(metas, n, x);
      if x.ext != META {
        assert x !in metas;
        assert multiset(metas)[x] == 0;
      }
    }
    hide Leading;
  }

  lemma IsAccountedErasure(exts: Exts, kept: Exts, ec: EcResults, older: seq<Info>, files: seq<string>, parse: string -> Option<Info>)
    requires Filed(exts) && Split(files, parse, exts, older)
    requires Conserved(Shown(exts, ec.data, ec.chosenSet != ec.durableSet), kept, ec.obsolete)
    ensures AccountedErasure(files, parse, kept, Hidden(exts, ec.data, ec.chosenSet != ec.durableSet), older + ec.obsolete)
  {
    forall x: Info
      ensures multiset(Files(exts, x.ext))[x] == multiset(Files(Shown(exts, ec.data, ec.chosenSet != ec.durableSet), x.ext))[x] + multiset(Hidden(exts, ec.data, ec.chosenSet != ec.durableSet))[x]
    {
      HiddenIs(exts, ec.data, ec.chosenSet != ec.durableSet, x);
    }
    hide Listed, Hidden, Shown, Filed;
  }

  lemma PickSome(frags: Option<FragSet>, index: Option<nat>)
    ensures Pick(frags, index).Some? ==> frags.Some?
  {
  }

  lemma {:induction false} ParsedFrom(files: seq<string>, parse: string -> Option<Info>, ext: string)
    ensures forall x :: x in Parsed(files, parse, ext) ==> x.ext == ext && exists name :: parse(name) == Some(x)
    decreases |files|
  {
    if files != [] { ParsedFrom(files[..|files| - 1], parse, ext); }
  }

  lemma PrefixSorted(list: seq<Info>, n: nat)
    requires n <= |list| && Descending(ByTimestamp, list)
    ensures Descending(ByTimestamp, list[..n])
  {
  }

  lemma LiveSorted(files: seq<string>, parse: string -> Option<Info>, ext: string)
    ensures Descending(ByTimestamp, Live(files, parse, ext))
    ensures forall x :: x in Live(files, parse, ext) ==> x in Parsed(files, parse, ext)
  {
    SortedOk(ByTimestamp, Parsed(files, parse, ext));
    SortedOk(ByTimestamp, Parsed(files, parse, TS));
    var list, ts := Listed(files, parse, ext), Listed(files, parse, TS);
    if ts != [] {
      PrefixSorted(ts, 1);
      PrefixSorted(list, Leading(list, Newer(ts[0].timestamp)));
    }
    hide Descending, Sorted, Leading;
  }

  lemma MetasSorted(metas: seq<Info>)
    requires Descending(ByTimestamp, metas)
    ensures Descending(ByTimestamp, RetainedMetas(metas))
  {
    if |metas| >= 2 {
      SortedOk(ByCtype, metas[1..]);
      var second := Sorted(ByCtype, metas[1..])[0];
      assert second in metas[1..];
      var i :| 1 <= i < |metas| && metas[i] == second;
      assert KeyOf(ByTimestamp, metas[i]) <= KeyOf(ByTimestamp, metas[0]);
    }
    hide Sorted;
  }

  lemma RetainedSorted(files: seq<string>, parse: string -> Option<Info>, exts: Exts)
    requires Indexed(parse) && (forall ext :: Files(exts, ext) == Retained(files, parse, ext))
    ensures AllSorted(exts) && Newestfirst(Files(exts, DATA))
  {
    forall ext ensures Descending(ByTimestamp, Files(exts, ext)) {
      LiveSorted(files, parse, ext);
      if ext == META { MetasSorted(Live(files, parse, META)); }
    }
    LiveSorted(files, parse, DATA);
    ParsedFrom(files, parse, DATA);
    hide Live, RetainedMetas, Descending;
  }

  /** Nothing that stays after the first step is as old as the newest tombstone. */
  lemma NewerThanTombstone(files: seq<string>, parse: string -> Option<Info>, ext: string, x: Info)
    requires ext != TS && x in Live(files, parse, ext) && Listed(files, parse, TS) != []
    ensures x.timestamp > Listed(files, parse, TS)[0].timestamp
  {
    LeadingOk(Listed(files, parse, ext), Newer(Listed(files, parse, TS)[0].timestamp));
    hide Listed, Leading;
  }
}
