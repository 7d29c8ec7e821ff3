/** What the erasure-coded search says of the files in a directory, and what
    cleaning the directory up leaves of them. */
module ErasureCleanup {
  import opened Base
  import opened Metadata
  import opened OnDisk
  import opened ErasureFiles
  import opened ErasureRules
  import Cleanup
  import Listings

  type Parse = string -> Option<Info>

  /** A listing names a file once, and a file's info carries its name. */
  ghost predicate Proper(files: seq<string>, parse: Parse) {
    Listings.Named(parse) && Listings.NoRepeats(files) && Indexed(parse)
  }

  // ----- the files the search is about -----

  /** Newer than every tombstone. */
  ghost predicate Alive(all: set<Info>, x: Info) {
    x in all && forall y :: y in all && y.ext == TS ==> y.timestamp < x.timestamp
  }

  /** A .durable file, or a mark in a fragment's name. */
  predicate Marks(x: Info) { x.ext == DURABLE || (x.ext == DATA && x.durable) }

  lemma ListedCount(files: seq<string>, parse: Parse, x: Info)
    requires Proper(files, parse)
    ensures multiset(Listed(files, parse, x.ext))[x] == if x in Listings.Infos(files, parse) then 1 else 0
    ensures x in Listed(files, parse, x.ext) <==> x in Listings.Infos(files, parse)
  {
    var parsed := Parsed(files, parse, x.ext);
    Listings.ParsedOnce(files, parse, x.ext);
    Listings.ParsedItems(files, parse, x.ext);
    SortedOk(ByTimestamp, parsed);
    assert x in parsed <==> multiset(parsed)[x] > 0;
    hide Parsed, Sorted, Descending;
  }

  lemma ListedItems(files: seq<string>, parse: Parse, ext: string)
    ensures forall x :: x in Listed(files, parse, ext) <==> x in Listings.Infos(files, parse) && x.ext == ext
    ensures Descending(ByTimestamp, Listed(files, parse, ext))
  {
    Listings.ParsedItems(files, parse, ext);
    SortedOk(ByTimestamp, Parsed(files, parse, ext));
    hide Parsed, Sorted, Descending;
  }

  lemma AfterItems(list: seq<Info>, t: Time, x: Info)
    requires Descending(ByTimestamp, list)
    ensures x in After(list, t) <==> x in list && x.timestamp > t
    ensures multiset(After(list, t))[x] <= multiset(list)[x]
  {
    var n := Leading(list, OnDisk.Newer(t));
    LeadingOk(list, OnDisk.Newer(t));
    SplitCounts(list, n, x);
    hide Leading;
    if x in list && x.timestamp > t {
      var i :| 0 <= i < |list| && list[i] == x;
      assert n <= i ==> KeyOf(ByTimestamp, list[i]) <= KeyOf(ByTimestamp, list[n]);
      assert list[..n][i] == x;
    }
  }

  /** The fragments and .durable files the policy works on are those alive. */
  lemma RetainedIs(files: seq<string>, parse: Parse, ext: string, x: Info)
    requires Proper(files, parse) && ext !in {TS, META}
    ensures x in Retained(files, parse, ext) <==> Alive(Listings.Infos(files, parse), x) && x.ext == ext
    ensures multiset(Retained(files, parse, ext))[x] <= 1
  {
    var list, ts := Listed(files, parse, ext), Listed(files, parse, TS);
    ListedItems(files, parse, ext);
    ListedItems(files, parse, TS);
    ListedCount(files, parse, x);
    if x.ext != ext {
      assert x !in list;
      assert multiset(list)[x] == 0;
    }
    if ts != [] {
      AfterItems(list, ts[0].timestamp, x);
      assert ts[0] in Listings.Infos(files, parse) && ts[0].ext == TS;
      forall y | y in ts ensures y.timestamp <= ts[0].timestamp {
        var i :| 0 <= i < |ts| && ts[i] == y;
        assert KeyOf(ByTimestamp, ts[i]) <= KeyOf(ByTimestamp, ts[0]);
      }
    }
    hide Listed, After, Listings.Infos, Descending;
  }

  function DataIn(files: seq<string>, parse: Parse): seq<Info> { Retained(files, parse, DATA) }

  function LegacyIn(files: seq<string>, parse: Parse): seq<Info> { Retained(files, parse, DURABLE) }

  lemma ScanInIs(files: seq<string>, parse: Parse)
    ensures ScanIn(files, parse) == ScanOf(DataIn(files, parse), LegacyIn(files, parse))
  {
  }

  lemma ListsArranged(files: seq<string>, parse: Parse)
    requires Proper(files, parse)
    ensures Arranged(DataIn(files, parse), LegacyIn(files, parse))
  {
    LiveSorted(files, parse, DATA);
    LiveSorted(files, parse, DURABLE);
    ParsedFrom(files, parse, DATA);
    hide Live, Descending;
  }

  lemma FoundChose(files: seq<string>, parse: Parse, wanted: Option<nat>, prefs: Option<seq<Pref>>, ec: EcResults, exts: Exts, kept: Exts)
    requires Proper(files, parse) && Found(files, parse, wanted, prefs, ec, exts, kept)
    ensures Chose(DataIn(files, parse), LegacyIn(files, parse), ec, wanted, prefs)
    ensures Files(exts, DATA) == DataIn(files, parse) && Files(exts, DURABLE) == LegacyIn(files, parse)
  {
    ListsArranged(files, parse);
    ScanInIs(files, parse);
    hide Retained, ScanIn, ScanOf, Arranged, Preferred, Processed, Pick;
  }

  /** Whether a timestamp has data, said of the files. */
  lemma HasDataIs(files: seq<string>, parse: Parse, t: Time)
    requires Proper(files, parse)
    ensures HasData(DataIn(files, parse), t) <==>
              exists x :: Alive(Listings.Infos(files, parse), x) && x.ext == DATA && x.timestamp == t
  {
    var all := Listings.Infos(files, parse);
    forall x ensures x in DataIn(files, parse) <==> Alive(all, x) && x.ext == DATA { RetainedIs(files, parse, DATA, x); }
    hide Retained, Alive, Proper, Listings.Infos, DataIn;
  }

  /** Whether it is durable, said of the files. */
  lemma DurableAtIs(files: seq<string>, parse: Parse, t: Time)
    requires Proper(files, parse)
    ensures DurableAt(DataIn(files, parse), LegacyIn(files, parse), t) <==>
              exists x :: Alive(Listings.Infos(files, parse), x) && Marks(x) && x.timestamp == t
  {
    var all := Listings.Infos(files, parse);
    forall x
      ensures x in DataIn(files, parse) <==> Alive(all, x) && x.ext == DATA
      ensures x in LegacyIn(files, parse) <==> Alive(all, x) && x.ext == DURABLE
    {
      RetainedIs(files, parse, DATA, x);
      RetainedIs(files, parse, DURABLE, x);
    }
    hide Retained, Alive, Proper, Listings.Infos, DataIn, LegacyIn;
  }

  // ----- what is obsolete -----

  /** A file is obsolete exactly if it is neither kept nor hidden, and it is listed as such once. */
  lemma ObsoleteErasureIs(files: seq<string>, parse: Parse, ec: EcResults, exts: Exts, kept: Exts, r: Results)
    requires Proper(files, parse) && Searched(files, parse, ec, exts, kept, r)
    ensures forall x :: x in r.obsolete <==>
              && x in Listings.Infos(files, parse) && x !in Files(kept, x.ext)
              && x !in Hidden(exts, ec.data, ec.chosenSet != ec.durableSet)
    ensures Listings.NoRepeats(r.obsolete)
  {
    var hidden := Hidden(exts, ec.data, ec.chosenSet != ec.durableSet);
    forall x: Info
      ensures multiset(r.obsolete)[x] <= 1
      ensures x in r.obsolete <==> x in Listings.Infos(files, parse) && x !in Files(kept, x.ext) && x !in hidden
    {
      ListedCount(files, parse, x);
      assert multiset(Listed(files, parse, x.ext))[x] == multiset(Files(kept, x.ext))[x] + multiset(hidden)[x] + multiset(r.obsolete)[x];
      assert x in r.obsolete <==> multiset(r.obsolete)[x] > 0;
      assert x in hidden <==> multiset(hidden)[x] > 0;
      assert x in Files(kept, x.ext) <==> multiset(Files(kept, x.ext))[x] > 0;
    }
    Listings.OnceNoRepeats(r.obsolete);
    hide Listed, Hidden, Listings.Infos;
  }

  /** A live fragment is obsolete for the whole search exactly if the policy's part says so. */
  lemma LiveFragmentGoes(files: seq<string>, parse: Parse, wanted: Option<nat>, prefs: Option<seq<Pref>>,
                         ec: EcResults, exts: Exts, kept: Exts, r: Results, x: Info)
    requires Proper(files, parse) && Found(files, parse, wanted, prefs, ec, exts, kept) && Searched(files, parse, ec, exts, kept, r)
    requires x in DataIn(files, parse)
    ensures x.ext == DATA && (x in r.obsolete <==> x in ec.obsolete)
  {
    hide Proper, Preferred, ScanIn, Alive, AllSorted, Newestfirst, ScanSays, KeptByDurable, Spare, Retained, Listings.Infos, Pick;
    var shown := Shown(exts, ec.data, ec.chosenSet != ec.durableSet);
    RetainedIs(files, parse, DATA, x);
    ListedCount(files, parse, x);
    assert x in Listings.Infos(files, parse) by { AliveThere(Listings.Infos(files, parse), x); }
    assert Files(exts, DATA) == DataIn(files, parse) == Retained(files, parse, DATA);
    assert multiset(Files(exts, DATA))[x] == 1 by { assert x in multiset(Files(exts, DATA)); }
    HiddenIs(exts, ec.data, ec.chosenSet != ec.durableSet, x);
    ShownData(exts, ec);
    hide Shown, Hidden, Listed;
    assert multiset(Files(shown, x.ext))[x] == multiset(Files(kept, x.ext))[x] + multiset(ec.obsolete)[x];
    assert x in r.obsolete <==> multiset(r.obsolete)[x] > 0;
    assert x in ec.obsolete <==> multiset(ec.obsolete)[x] > 0;
  }

  lemma AliveThere(all: set<Info>, x: Info)
    requires Alive(all, x)
    ensures x in all
  {
  }

  /** A fragment becomes obsolete exactly if a tombstone is not older than it, or
      something live that is newer makes its timestamp durable. None at or after
      the durable timestamp does. */
  lemma FragmentGoes(files: seq<string>, parse: Parse, wanted: Option<nat>, prefs: Option<seq<Pref>>,
                     ec: EcResults, exts: Exts, kept: Exts, r: Results, x: Info)
    requires Proper(files, parse) && Found(files, parse, wanted, prefs, ec, exts, kept) && Searched(files, parse, ec, exts, kept, r)
    requires x in Listings.Infos(files, parse) && x.ext == DATA
    ensures var all := Listings.Infos(files, parse);
            x in r.obsolete <==> !Alive(all, x) || exists y :: Alive(all, y) && Marks(y) && y.timestamp > x.timestamp
  {
    var all := Listings.Infos(files, parse);
    RetainedIs(files, parse, DATA, x);
    FoundChose(files, parse, wanted, prefs, ec, exts, kept);
    if Alive(all, x) {
      LiveFragmentGoes(files, parse, wanted, prefs, ec, exts, kept, r, x);
      OlderThanMark(DataIn(files, parse), LegacyIn(files, parse), ec, wanted, prefs, exts, kept, x);
      NewerMark(files, parse, x.timestamp);
      hide Alive, Proper, Searched, Found, Listings.Infos;
    } else {
      ObsoleteErasureIs(files, parse, ec, exts, kept, r);
      KeptRetained(exts, ec, kept, x);
      hide Alive, Proper, Searched, Found, Retained, Hidden, Listings.Infos;
      assert x !in Files(kept, x.ext);
      HiddenMetas(exts, ec.data, ec.chosenSet != ec.durableSet);
    }
  }

  lemma HiddenMetas(exts: Exts, data: Option<Info>, apart: bool)
    requires Filed(exts)
    ensures forall x :: x in Hidden(exts, data, apart) ==> x.ext == META
  {
  }

  lemma KeptRetained(exts: Exts, ec: EcResults, kept: Exts, x: Info)
    requires Processed(exts, ec, kept) && x.ext == DATA
    ensures x in Files(kept, DATA) ==> x in Files(exts, DATA)
    ensures Filed(exts)
  {
    ShownData(exts, ec);
    hide Shown, ScanSays, Spare, Conserved, Leading;
  }

  lemma MarkFound(data: seq<Info>, legacy: seq<Info>, ec: EcResults, wanted: Option<nat>, prefs: Option<seq<Pref>>, t: Time)
    requires Chose(data, legacy, ec, wanted, prefs)
    ensures NewestMark(data, legacy, t) <==> ec.durable.Some? && ec.durable.value.timestamp == t
  {
    MarkIs(data, legacy, t);
    hide NewestMark, Arranged, ScanOf, Preferred;
  }

  lemma OlderThanMark(data: seq<Info>, legacy: seq<Info>, ec: EcResults, wanted: Option<nat>, prefs: Option<seq<Pref>>,
                      exts: Exts, kept: Exts, x: Info)
    requires Chose(data, legacy, ec, wanted, prefs) && Processed(exts, ec, kept) && Files(exts, DATA) == data
    requires x in data && x.ext == DATA
    ensures x in ec.obsolete <==> exists t: Time :: NewestMark(data, legacy, t) && x.timestamp < t
  {
    hide Chose, Processed, Shown, NewestMark;
    ObsoleteIs(exts, ec, kept, x);
    ShownData(exts, ec);
    forall t: Time ensures NewestMark(data, legacy, t) <==> ec.durable.Some? && ec.durable.value.timestamp == t {
      MarkFound(data, legacy, ec, wanted, prefs, t);
    }
    if x in ec.obsolete { assert NewestMark(data, legacy, ec.durable.value.timestamp); }
  }

  /** There is a mark newer than a timestamp exactly if the newest mark is. */
  lemma NewerMark(files: seq<string>, parse: Parse, t: Time)
    requires Proper(files, parse)
    ensures (exists u: Time :: NewestMark(DataIn(files, parse), LegacyIn(files, parse), u) && t < u) <==>
              exists y :: Alive(Listings.Infos(files, parse), y) && Marks(y) && y.timestamp > t
  {
    var all, data, legacy := Listings.Infos(files, parse), DataIn(files, parse), LegacyIn(files, parse);
    ListsArranged(files, parse);
    DurableTime(data, legacy);
    forall u: Time ensures DurableAt(data, legacy, u) <==> exists x :: Alive(all, x) && Marks(x) && x.timestamp == u { DurableAtIs(files, parse, u); }
    hide Alive, Proper, Arranged, ScanOf, DurableAt, Marks, Listings.Infos, DataIn, LegacyIn;
    if y :| Alive(all, y) && Marks(y) && y.timestamp > t {
      assert DurableAt(data, legacy, y.timestamp);
      assert NewestMark(data, legacy, ScanOf(data, legacy).durable.value.timestamp);
    }
  }

  // ----- what is removed twice -----

  /** A .durable file that is the newest mark and has no data. */
  ghost predicate Stray(all: set<Info>, d: Info) {
    && Alive(all, d) && d.ext == DURABLE
    && (forall y :: Alive(all, y) && Marks(y) ==> y.timestamp <= d.timestamp)
    && (forall y :: Alive(all, y) && y.ext == DATA ==> y.timestamp != d.timestamp)
  }

  /** A live fragment, older than such a file, and not of the chosen timestamp. */
  ghost predicate GoesTwice(files: seq<string>, parse: Parse, prefs: Option<seq<Pref>>, x: Info) {
    var all := Listings.Infos(files, parse);
    && Alive(all, x) && x.ext == DATA && !AtChosen(DataIn(files, parse), LegacyIn(files, parse), prefs, x.timestamp)
    && exists d :: Stray(all, d) && x.timestamp < d.timestamp
  }

  lemma StrayIs(files: seq<string>, parse: Parse, t: Time)
    requires Proper(files, parse)
    ensures NewestMark(DataIn(files, parse), LegacyIn(files, parse), t) && !HasData(DataIn(files, parse), t) <==>
              exists d :: Stray(Listings.Infos(files, parse), d) && d.timestamp == t
  {
    var all, data, legacy := Listings.Infos(files, parse), DataIn(files, parse), LegacyIn(files, parse);
    forall u: Time ensures DurableAt(data, legacy, u) <==> exists x :: Alive(all, x) && Marks(x) && x.timestamp == u { DurableAtIs(files, parse, u); }
    HasDataIs(files, parse, t);
    hide Alive, Proper, DurableAt, Listings.Infos, DataIn, LegacyIn, HasData;
    if NewestMark(data, legacy, t) && !HasData(data, t) {
      var d :| Alive(all, d) && Marks(d) && d.timestamp == t;
      forall y | Alive(all, y) && Marks(y) ensures y.timestamp <= t { assert DurableAt(data, legacy, y.timestamp); }
      assert Stray(all, d);
    }
    if d :| Stray(all, d) && d.timestamp == t {
      forall u: Time | DurableAt(data, legacy, u) ensures u <= t {
        var y :| Alive(all, y) && Marks(y) && y.timestamp == u;
      }
    }
  }

  /** A file is both obsolete and up for reclaiming exactly if it is such a fragment. */
  lemma RemovedTwiceIs(files: seq<string>, parse: Parse, wanted: Option<nat>, prefs: Option<seq<Pref>>,
                       ec: EcResults, exts: Exts, kept: Exts, r: Results, x: Info)
    requires Proper(files, parse) && Found(files, parse, wanted, prefs, ec, exts, kept) && Searched(files, parse, ec, exts, kept, r)
    ensures x in r.obsolete && x in r.possibleReclaim <==> GoesTwice(files, parse, prefs, x)
  {
    var data, legacy := DataIn(files, parse), LegacyIn(files, parse);
    FoundChose(files, parse, wanted, prefs, ec, exts, kept);
    ObsoleteErasureIs(files, parse, ec, exts, kept, r);
    ReclaimedExt(exts, ec, kept, x);
    SpareIs(data, legacy, ec, wanted, prefs, x);
    RetainedIs(files, parse, DATA, x);
    if x.ext == DATA && x in data {
      LiveFragmentGoes(files, parse, wanted, prefs, ec, exts, kept, r, x);
      OlderThanMark(data, legacy, ec, wanted, prefs, exts, kept, x);
      TwiceIs(files, parse, prefs, x);
    }
    hide Proper, Alive, Processed, Hidden, Spare, Listings.Infos, AtChosen, Offered, NewestMark, Retained, Chose, Preferred, ScanIn, Stray;
  }

  /** Only fragments and kept .meta files are up for reclaiming. */
  lemma ReclaimedExt(exts: Exts, ec: EcResults, kept: Exts, x: Info)
    requires Processed(exts, ec, kept)
    ensures x in ec.possibleReclaim ==> x.ext == DATA || (x.ext == META && x in Files(kept, META))
    ensures x.ext == DATA ==> (x in ec.possibleReclaim <==> x in Spare(ec.sets, ec.durableSet, ec.chosenSet))
  {
    SpareItems(ec.sets, ec.durableSet, ec.chosenSet);
    if x in Spare(ec.sets, ec.durableSet, ec.chosenSet) {
      var f :| f in ec.sets && Some(f) != ec.durableSet && Some(f) != ec.chosenSet && x in f;
      SetItems(exts, ec, kept, f, x);
    }
    if x in Files(kept, META) { assert META in kept; }
    hide Shown, ScanSays, Spare, Conserved, AllSorted, Newestfirst;
  }

  lemma TwiceIs(files: seq<string>, parse: Parse, prefs: Option<seq<Pref>>, x: Info)
    requires Proper(files, parse) && x in DataIn(files, parse) && x.ext == DATA
    ensures var data, legacy := DataIn(files, parse), LegacyIn(files, parse);
            GoesTwice(files, parse, prefs, x) <==>
              && (exists t: Time :: NewestMark(data, legacy, t) && x.timestamp < t)
              && Offered(data, legacy, x.timestamp) && !NewestMark(data, legacy, x.timestamp)
              && !AtChosen(data, legacy, prefs, x.timestamp)
  {
    var all, data, legacy := Listings.Infos(files, parse), DataIn(files, parse), LegacyIn(files, parse);
    RetainedIs(files, parse, DATA, x);
    assert HasData(data, x.timestamp);
    hide Alive, Proper, DurableAt, Listings.Infos, DataIn, LegacyIn, HasData, Stray, AtChosen, Retained;
    if d :| Stray(all, d) && x.timestamp < d.timestamp {
      StrayIs(files, parse, d.timestamp);
    }
    if t: Time :| NewestMark(data, legacy, t) && x.timestamp < t && Offered(data, legacy, x.timestamp) {
      StrayIs(files, parse, t);
    }
  }

  /** No fragment at or after the durable timestamp is removed as obsolete, and
      none of the durable set is up for reclaiming. */
  lemma DurableSetSurvives(files: seq<string>, parse: Parse, wanted: Option<nat>, prefs: Option<seq<Pref>>,
                           ec: EcResults, exts: Exts, kept: Exts, r: Results, x: Info)
    requires Proper(files, parse) && Found(files, parse, wanted, prefs, ec, exts, kept) && Searched(files, parse, ec, exts, kept, r)
    requires var all := Listings.Infos(files, parse);
             Alive(all, x) && x.ext == DATA && (forall y :: Alive(all, y) && Marks(y) ==> y.timestamp <= x.timestamp)
    ensures x !in r.obsolete
    ensures (exists y :: Alive(Listings.Infos(files, parse), y) && Marks(y) && y.timestamp == x.timestamp) ==> x !in r.possibleReclaim
  {
    var all, data, legacy := Listings.Infos(files, parse), DataIn(files, parse), LegacyIn(files, parse);
    hide Alive, Proper, Processed, Chose, Preferred, ScanIn, ScanOf, Spare, AtChosen, Offered, DurableAt, Listings.Infos, AccountedErasure, Retained,
         DataIn, LegacyIn, Marks;
    AliveThere(all, x);
    FragmentGoes(files, parse, wanted, prefs, ec, exts, kept, r, x);
    FoundChose(files, parse, wanted, prefs, ec, exts, kept);
    ReclaimedExt(exts, ec, kept, x);
    SpareIs(data, legacy, ec, wanted, prefs, x);
    forall u: Time ensures DurableAt(data, legacy, u) <==> exists y :: Alive(all, y) && Marks(y) && y.timestamp == u { DurableAtIs(files, parse, u); }
  }

  /** Without such a .durable file nothing is removed twice. */
  lemma NothingTwice(files: seq<string>, parse: Parse, wanted: Option<nat>, prefs: Option<seq<Pref>>,
                     ec: EcResults, exts: Exts, kept: Exts, r: Results)
    requires Proper(files, parse) && Found(files, parse, wanted, prefs, ec, exts, kept) && Searched(files, parse, ec, exts, kept, r)
    requires forall d :: d in Listings.Infos(files, parse) && d.ext == DURABLE ==>
               exists y :: y in Listings.Infos(files, parse) && y.ext == DATA && y.timestamp == d.timestamp
    ensures forall x :: x in r.obsolete ==> x !in r.possibleReclaim
  {
    var all := Listings.Infos(files, parse);
    forall d ensures !Stray(all, d) {
      if Alive(all, d) && d.ext == DURABLE {
        var y :| y in all && y.ext == DATA && y.timestamp == d.timestamp;
        assert Alive(all, y);
      }
    }
    forall x | x in r.obsolete ensures x !in r.possibleReclaim { RemovedTwiceIs(files, parse, wanted, prefs, ec, exts, kept, r, x); }
    hide Alive, Proper, Found, Searched, Stray, Listings.Infos;
  }

  /** A directory where it happens: one fragment, and a newer .durable file without data. */
  lemma StrayDurable(parse: Parse, wanted: Option<nat>, ec: EcResults, exts: Exts, kept: Exts, r: Results, fragment: Info)
    requires var files := ["4#1.data", "5.durable"];
             && Proper(files, parse) && Found(files, parse, wanted, None, ec, exts, kept) && Searched(files, parse, ec, exts, kept, r)
    requires fragment == Info("4#1.data", DATA, 4, None, Some(1), false)
    requires parse("4#1.data") == Some(fragment) && parse("5.durable") == Some(Info("5.durable", DURABLE, 5, None, None, false))
    ensures fragment in r.obsolete && fragment in r.possibleReclaim
  {
    hide Found, Searched, Proper, NewestMark, Retained;
    var files, d := ["4#1.data", "5.durable"], Info("5.durable", DURABLE, 5, None, None, false);
    var all := Listings.Infos(files, parse);
    assert all == {fragment, d} by {
      assert files[0] in files && files[1] in files;
    }
    assert Stray(all, d);
    StrayIs(files, parse, 5);
    StrayOnly(DataIn(files, parse), LegacyIn(files, parse), 4, 5);
    assert GoesTwice(files, parse, None, fragment);
    RemovedTwiceIs(files, parse, wanted, None, ec, exts, kept, r, fragment);
  }

  lemma StrayOnly(data: seq<Info>, legacy: seq<Info>, t: Time, u: Time)
    requires NewestMark(data, legacy, u) && u != t
    ensures !NewestMark(data, legacy, t)
  {
  }

  // ----- cleaning up -----

  /** KeyError is the search's; `files.remove` raises ValueError on a name it no longer has. */
  datatype Outcome = Done | KeyError | ValueError

  /** Old enough: a fragment that is not marked must also have been there for the commit window. */
  predicate OldEnough(x: Info, reclaimable: Time -> bool, settled: string -> bool) {
    reclaimable(x.timestamp) && (x.ext != DATA || x.durable || settled(x.name))
  }

  /** What goes besides the obsolete files. */
  predicate Reclaims(r: Results, reclaimable: Time -> bool, settled: string -> bool, x: Info) {
    (r.ts == Some(x) && reclaimable(x.timestamp)) || (x in r.possibleReclaim && OldEnough(x, reclaimable, settled))
  }

  method PickOld(infos: seq<Info>, reclaimable: Time -> bool, settled: string -> bool) returns (aged: seq<Info>)
    requires Listings.NoRepeats(infos)
    ensures Listings.NoRepeats(aged)
    ensures forall x :: x in aged <==> x in infos && OldEnough(x, reclaimable, settled)
  {
    aged := [];
    for i := 0 to |infos|
      invariant Listings.NoRepeats(aged)
      invariant forall x :: x in aged <==> x in infos[..i] && OldEnough(x, reclaimable, settled)
    {
      if OldEnough(infos[i], reclaimable, settled) {
        assert infos[i] !in infos[..i];
        aged := aged + [infos[i]];
      }
    }
    assert infos[..|infos|] == infos;
  }

  /** Removes the files one by one, and stops at the first that is gone already. */
  method RemoveUntilGone(dir: Cleanup.ObjectDir, infos: seq<Info>) returns (n: nat)
    requires Listings.NoRepeats(dir.files) && (forall x :: x in infos ==> x.name in dir.files)
    modifies dir
    ensures Listings.NoRepeats(dir.files) && n <= |infos|
    ensures forall name :: name in dir.files <==> name in old(dir.files) && (forall k :: 0 <= k < n ==> infos[k].name != name)
    ensures forall i, k :: 0 <= i < k < n ==> infos[i].name != infos[k].name
    ensures n < |infos| ==> exists i :: 0 <= i < n && infos[i].name == infos[n].name
  {
    n := 0;
    while n < |infos| && infos[n].name in dir.files
      invariant Listings.NoRepeats(dir.files) && n <= |infos|
      invariant forall name :: name in dir.files <==> name in old(dir.files) && (forall k :: 0 <= k < n ==> infos[k].name != name)
      invariant forall i, k :: 0 <= i < k < n ==> infos[i].name != infos[k].name
    {
      dir.Remove(infos[n].name);
      n := n + 1;
    }
    if n < |infos| { assert infos[n] in infos; }
  }

  /** cleanup_ondisk_files under the erasure-coded policy. */
  method CleanupErasureFiles(dir: Cleanup.ObjectDir, parse: Parse, wanted: Option<nat>, prefs: Option<seq<Pref>>,
                             reclaimable: Time -> bool, settled: string -> bool)
    returns (outcome: Outcome, r: Results, ec: EcResults, ghost exts: Exts, ghost kept: Exts)
    requires Proper(dir.files, parse)
    modifies dir
    ensures Listings.NoRepeats(dir.files)
    ensures outcome.KeyError? <==> prefs.Some? && RaisesKeyError(old(dir.files), parse, prefs.value)
    ensures outcome.KeyError? ==> dir.files == old(dir.files)
    ensures !outcome.KeyError? ==> Found(old(dir.files), parse, wanted, prefs, ec, exts, kept) && Searched(old(dir.files), parse, ec, exts, kept, r)
    ensures outcome.ValueError? <==>
              !outcome.KeyError? && exists x :: GoesTwice(old(dir.files), parse, prefs, x) && OldEnough(x, reclaimable, settled)
    ensures outcome.Done? ==> CleanedUp(old(dir.files), dir.files, parse, r, reclaimable, settled)
    ensures outcome.ValueError? ==> PartlyCleaned(old(dir.files), dir.files, parse, r, reclaimable, settled)
  {
    hide Found, Searched, Proper, GoesTwice, OldEnough, ScanIn, AsksAgain, Indexed, VerifiedErasure;
    ProperParts(dir.files, parse);
    var files := dir.files;
    var ok;
    ok, r, ec, exts, kept := GetErasureFiles(files, parse, wanted, prefs);
    if prefs.Some? { KeyErrorInFiles(files, parse, prefs.value); }
    if !ok { return Outcome.KeyError, r, ec, exts, kept; }
    ToCleanUp(files, parse, wanted, prefs, ec, exts, kept, r);
    if r.ts.Some? && reclaimable(r.ts.value.timestamp) { dir.Remove(r.ts.value.name); }
    var reclaimed := PickOld(r.possibleReclaim, reclaimable, settled);
    var n := RemoveUntilGone(dir, r.obsolete + reclaimed);
    outcome := if n == |r.obsolete + reclaimed| then Done else ValueError;
    StopsAtTwice(files, parse, r, reclaimed, n);
    LeftIs(files, dir.files, parse, r, reclaimed, n, reclaimable, settled);
    forall x ensures x in r.obsolete && x in reclaimed <==> GoesTwice(files, parse, prefs, x) && OldEnough(x, reclaimable, settled) {
      RemovedTwiceIs(files, parse, wanted, prefs, ec, exts, kept, r, x);
    }
  }

  /** Two preferences for one timestamp that has a set, and none before the second can be met. */
  ghost predicate RaisesKeyError(files: seq<string>, parse: Parse, prefs: seq<Pref>) {
    exists i, k :: 0 <= i < k < |prefs| && AskedTwice(DataIn(files, parse), LegacyIn(files, parse), prefs, i, k)
  }

  lemma KeyErrorInFiles(files: seq<string>, parse: Parse, prefs: seq<Pref>)
    requires Proper(files, parse)
    ensures AsksAgain(ScanIn(files, parse).sets, prefs) <==> RaisesKeyError(files, parse, prefs)
  {
    hide AskedTwice, AsksAgain, Arranged, ScanIn, ScanOf;
    ListsArranged(files, parse);
    ScanInIs(files, parse);
    KeyErrorIs(DataIn(files, parse), LegacyIn(files, parse), prefs);
  }

  lemma ProperParts(files: seq<string>, parse: Parse)
    requires Proper(files, parse)
    ensures Listings.NoRepeats(files) && Listings.Named(parse) && Indexed(parse)
  {
  }

  /** Exactly the files that are neither obsolete nor reclaimed stay. */
  ghost predicate CleanedUp(files: seq<string>, left: seq<string>, parse: Parse, r: Results, reclaimable: Time -> bool, settled: string -> bool) {
    forall name :: name in left <==>
      && name in files
      && (parse(name).Some? ==> parse(name).value !in r.obsolete && !Reclaims(r, reclaimable, settled, parse(name).value))
  }

  /** The obsolete files are gone, and of the others none that is not to be reclaimed. */
  ghost predicate PartlyCleaned(files: seq<string>, left: seq<string>, parse: Parse, r: Results, reclaimable: Time -> bool, settled: string -> bool) {
    && (forall name :: name in left ==> name in files && (parse(name).Some? ==> parse(name).value !in r.obsolete))
    && (forall name :: name in files && (parse(name).Some? ==> parse(name).value !in r.obsolete && !Reclaims(r, reclaimable, settled, parse(name).value)) ==>
          name in left)
  }

  /** Each of these is a file of its own, listed once in its list. */
  ghost predicate Removable(files: seq<string>, parse: Parse, r: Results) {
    && (forall x :: x in r.obsolete || x in r.possibleReclaim || r.ts == Some(x) ==> x.name in files && parse(x.name) == Some(x))
    && Listings.NoRepeats(r.obsolete) && Listings.NoRepeats(r.possibleReclaim)
    && (r.ts.Some? ==> r.ts.value !in r.obsolete && r.ts.value !in r.possibleReclaim)
  }

  lemma ToCleanUp(files: seq<string>, parse: Parse, wanted: Option<nat>, prefs: Option<seq<Pref>>, ec: EcResults, exts: Exts, kept: Exts, r: Results)
    requires Proper(files, parse) && Found(files, parse, wanted, prefs, ec, exts, kept) && Searched(files, parse, ec, exts, kept, r)
    ensures Removable(files, parse, r)
  {
    hide Proper, Found, Processed, Retained, Listings.Infos, Hidden, ScanIn, AccountedErasure;
    var all := Listings.Infos(files, parse);
    ObsoleteErasureIs(files, parse, ec, exts, kept, r);
    forall x | x in r.possibleReclaim || r.ts == Some(x) ensures x in all {
      ReclaimedIn(files, parse, wanted, prefs, ec, exts, kept, r, x);
    }
    forall x ensures multiset(r.possibleReclaim)[x] <= 1 { ReclaimedOnce(files, parse, wanted, prefs, ec, exts, kept, r, x); }
    Listings.OnceNoRepeats(r.possibleReclaim);
    forall x | x in r.obsolete || x in r.possibleReclaim || r.ts == Some(x) ensures x.name in files && parse(x.name) == Some(x) {
      NameOf(files, parse, x);
    }
    if r.ts.Some? { ReclaimedIn(files, parse, wanted, prefs, ec, exts, kept, r, r.ts.value); }
  }

  lemma NameOf(files: seq<string>, parse: Parse, x: Info)
    requires Proper(files, parse) && x in Listings.Infos(files, parse)
    ensures x.name in files && parse(x.name) == Some(x)
  {
    Cleanup.InfoNames(files, parse, x);
  }

  lemma KeptIn(files: seq<string>, parse: Parse, ec: EcResults, exts: Exts, kept: Exts, r: Results, x: Info)
    requires Proper(files, parse) && Searched(files, parse, ec, exts, kept, r) && x in Files(kept, x.ext)
    ensures x in Listings.Infos(files, parse) && multiset(Files(kept, x.ext))[x] == 1
  {
    ListedCount(files, parse, x);
    hide Proper, Listed, Listings.Infos, Hidden;
    assert x in multiset(Files(kept, x.ext));
    assert multiset(Listed(files, parse, x.ext))[x] >= multiset(Files(kept, x.ext))[x];
  }

  lemma ReclaimedIn(files: seq<string>, parse: Parse, wanted: Option<nat>, prefs: Option<seq<Pref>>, ec: EcResults, exts: Exts, kept: Exts, r: Results, x: Info)
    requires Proper(files, parse) && Found(files, parse, wanted, prefs, ec, exts, kept) && Searched(files, parse, ec, exts, kept, r)
    requires x in r.possibleReclaim || r.ts == Some(x)
    ensures x in Listings.Infos(files, parse)
    ensures x.ext != DATA ==> x !in r.obsolete
    ensures r.ts == Some(x) ==> x.ext == TS && x !in r.possibleReclaim
  {
    hide Processed, Proper, Retained, Spare, Listings.Infos, Hidden, ScanIn, Preferred, AccountedErasure;
    FoundChose(files, parse, wanted, prefs, ec, exts, kept);
    ReclaimedExt(exts, ec, kept, x);
    ObsoleteErasureIs(files, parse, ec, exts, kept, r);
    KeptFiled(exts, ec, kept);
    if r.ts == Some(x) { HeadFiled(kept, TS); }
    if x.ext == DATA && x in r.possibleReclaim {
      SpareThere(files, parse, wanted, prefs, ec, x);
    } else {
      KeptIn(files, parse, ec, exts, kept, r, x);
    }
  }

  lemma SpareThere(files: seq<string>, parse: Parse, wanted: Option<nat>, prefs: Option<seq<Pref>>, ec: EcResults, x: Info)
    requires Proper(files, parse) && Chose(DataIn(files, parse), LegacyIn(files, parse), ec, wanted, prefs)
    requires x in Spare(ec.sets, ec.durableSet, ec.chosenSet)
    ensures x in Listings.Infos(files, parse)
  {
    hide Proper, Retained, Chose, Spare, Alive, Offered, AtChosen, NewestMark, Listings.Infos;
    SpareIs(DataIn(files, parse), LegacyIn(files, parse), ec, wanted, prefs, x);
    RetainedIs(files, parse, DATA, x);
    AliveThere(Listings.Infos(files, parse), x);
  }

  lemma KeptFiled(exts: Exts, ec: EcResults, kept: Exts)
    requires Processed(exts, ec, kept)
    ensures Filed(kept)
  {
    hide Spare, Shown, ScanSays, Conserved, AllSorted, Newestfirst, Filed;
  }

  lemma HeadFiled(exts: Exts, ext: string)
    requires Filed(exts) && Head(Files(exts, ext)).Some?
    ensures Head(Files(exts, ext)).value in Files(exts, ext) && Head(Files(exts, ext)).value.ext == ext
  {
  }

  lemma ReclaimedOnce(files: seq<string>, parse: Parse, wanted: Option<nat>, prefs: Option<seq<Pref>>, ec: EcResults, exts: Exts, kept: Exts, r: Results, x: Info)
    requires Proper(files, parse) && Found(files, parse, wanted, prefs, ec, exts, kept) && Searched(files, parse, ec, exts, kept, r)
    ensures multiset(r.possibleReclaim)[x] <= 1
  {
    hide Proper, Processed, Retained, Spare, Alive, Listings.Infos, Hidden, ScanIn, Preferred, Chose, DataIn, LegacyIn;
    var data, legacy := DataIn(files, parse), LegacyIn(files, parse);
    FoundChose(files, parse, wanted, prefs, ec, exts, kept);
    SpareCount(data, legacy, ec, wanted, prefs, x);
    DataCount(files, parse, x);
    ReclaimParts(exts, ec, kept);
    if x in Spare(ec.sets, ec.durableSet, ec.chosenSet) { SpareExt(exts, ec, kept, x); }
    if x in Files(kept, META) {
      MetaFiled(exts, ec, kept, x);
      KeptIn(files, parse, ec, exts, kept, r, x);
    }
  }

  lemma SpareCount(data: seq<Info>, legacy: seq<Info>, ec: EcResults, wanted: Option<nat>, prefs: Option<seq<Pref>>, x: Info)
    requires Chose(data, legacy, ec, wanted, prefs)
    ensures multiset(Spare(ec.sets, ec.durableSet, ec.chosenSet))[x] <= multiset(data)[x]
  {
    ScanSetsOk(data, legacy);
    ScannedAsFound(data, Head(legacy));
    SpareOnce(data, ec.sets, ec.durableSet, ec.chosenSet, x);
    hide Spare, Preferred, SetsOk, AsFound, Scanned;
  }

  lemma DataCount(files: seq<string>, parse: Parse, x: Info)
    requires Proper(files, parse)
    ensures multiset(DataIn(files, parse))[x] <= 1
  {
    RetainedIs(files, parse, DATA, x);
    hide Retained, Proper;
  }

  lemma ReclaimParts(exts: Exts, ec: EcResults, kept: Exts)
    requires Processed(exts, ec, kept)
    ensures ec.possibleReclaim == Spare(ec.sets, ec.durableSet, ec.chosenSet) + (if ec.durableSet.None? then Files(kept, META) else [])
  {
    hide Spare, Shown, ScanSays, Conserved, AllSorted, Newestfirst, Filed;
  }

  lemma SpareExt(exts: Exts, ec: EcResults, kept: Exts, x: Info)
    requires Processed(exts, ec, kept) && x in Spare(ec.sets, ec.durableSet, ec.chosenSet)
    ensures x.ext == DATA
  {
    SpareItems(ec.sets, ec.durableSet, ec.chosenSet);
    var f :| f in ec.sets && Some(f) != ec.durableSet && Some(f) != ec.chosenSet && x in f;
    SetItems(exts, ec, kept, f, x);
    hide Processed, Spare;
  }

  lemma MetaFiled(exts: Exts, ec: EcResults, kept: Exts, x: Info)
    requires Processed(exts, ec, kept) && x in Files(kept, META)
    ensures x.ext == META
  {
    assert META in kept;
    hide Shown, ScanSays, Spare, Conserved, AllSorted, Newestfirst;
  }

  lemma SameName(files: seq<string>, parse: Parse, r: Results, x: Info, y: Info)
    requires Removable(files, parse, r) && x.name == y.name
    requires x in r.obsolete || x in r.possibleReclaim || r.ts == Some(x)
    requires y in r.obsolete || y in r.possibleReclaim || r.ts == Some(y)
    ensures x == y
  {
  }

  lemma AcrossLists(a: seq<Info>, b: seq<Info>, i: nat, k: nat)
    requires Listings.NoRepeats(a) && Listings.NoRepeats(b) && i < k < |a + b| && (a + b)[i] == (a + b)[k]
    ensures i < |a| <= k
  {
  }

  /** The removing stops exactly at a file that is obsolete and reclaimed. */
  lemma StopsAtTwice(files: seq<string>, parse: Parse, r: Results, reclaimed: seq<Info>, n: nat)
    requires Removable(files, parse, r) && Listings.NoRepeats(reclaimed) && (forall x :: x in reclaimed ==> x in r.possibleReclaim)
    requires var list := r.obsolete + reclaimed;
             && n <= |list| && (forall i, k :: 0 <= i < k < n ==> list[i].name != list[k].name)
             && (n < |list| ==> exists i :: 0 <= i < n && list[i].name == list[n].name)
    ensures n < |r.obsolete + reclaimed| <==> exists x :: x in r.obsolete && x in reclaimed
    ensures n >= |r.obsolete|
  {
    var list := r.obsolete + reclaimed;
    if n < |list| {
      var i :| 0 <= i < n && list[i].name == list[n].name;
      assert forall k :: 0 <= k < |list| ==> list[k] in r.obsolete || list[k] in r.possibleReclaim;
      SameName(files, parse, r, list[i], list[n]);
      AcrossLists(r.obsolete, reclaimed, i, n);
      assert list[n] in reclaimed;
    }
    if x :| x in r.obsolete && x in reclaimed {
      var i :| 0 <= i < |r.obsolete| && r.obsolete[i] == x;
      var k :| 0 <= k < |reclaimed| && reclaimed[k] == x;
      assert list[i] == list[|r.obsolete| + k];
    }
    hide Removable;
  }

  /** What is left in the directory when the removing stops. */
  lemma LeftIs(files: seq<string>, left: seq<string>, parse: Parse, r: Results, reclaimed: seq<Info>, n: nat, reclaimable: Time -> bool, settled: string -> bool)
    requires Listings.Named(parse) && Removable(files, parse, r)
    requires forall x :: x in reclaimed <==> x in r.possibleReclaim && OldEnough(x, reclaimable, settled)
    requires |r.obsolete| <= n <= |r.obsolete + reclaimed|
    requires forall name :: name in left <==>
               && name in files && !(r.ts.Some? && reclaimable(r.ts.value.timestamp) && r.ts.value.name == name)
               && (forall k :: 0 <= k < n ==> (r.obsolete + reclaimed)[k].name != name)
    ensures n == |r.obsolete + reclaimed| ==> CleanedUp(files, left, parse, r, reclaimable, settled)
    ensures PartlyCleaned(files, left, parse, r, reclaimable, settled)
  {
    var list := r.obsolete + reclaimed;
    hide OldEnough;
    forall k | 0 <= k < |list| ensures parse(list[k].name) == Some(list[k]) && (k < |r.obsolete| ==> list[k] in r.obsolete) && (k >= |r.obsolete| ==> list[k] in reclaimed) {
      assert list[k] in r.obsolete || list[k] in reclaimed;
    }
    forall name | name in files && parse(name).Some? && parse(name).value in r.obsolete ensures name !in left {
      var k :| 0 <= k < |r.obsolete| && r.obsolete[k] == parse(name).value;
      assert list[k].name == name;
    }
    if n == |list| {
      forall name | name in files && parse(name).Some? && parse(name).value in reclaimed ensures name !in left {
        var k :| 0 <= k < |reclaimed| && reclaimed[k] == parse(name).value;
        assert list[|r.obsolete| + k].name == name;
      }
    }
    hide Removable;
    forall name | name in files ensures name in left || (parse(name).Some? && (parse(name).value in r.obsolete || Reclaims(r, reclaimable, settled, parse(name).value))) {
      if name !in left && !(r.ts.Some? && reclaimable(r.ts.value.timestamp) && r.ts.value.name == name) {
        var k :| 0 <= k < n && list[k].name == name;
      }
    }
  }
}
