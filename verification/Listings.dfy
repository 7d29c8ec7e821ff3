/** The search over a directory listing makes the choice that the rules on sets
    describe, so the order of the listing does not matter. */
module Listings {
  import opened Base
  import OnDisk
  import opened Filesets

  type Info = OnDisk.Info
  type Parse = string -> Option<Info>

  /** A file's info carries its name. */
  ghost predicate Named(parse: Parse) { forall name :: parse(name).Some? ==> parse(name).value.name == name }

  ghost predicate NoRepeats<T>(list: seq<T>) { forall i, k :: 0 <= i < k < |list| ==> list[i] != list[k] }

  function Infos(files: seq<string>, parse: Parse): Fileset {
    set name | name in files && parse(name).Some? :: parse(name).value
  }

  /** A list of exactly these files, newest first. */
  ghost predicate Listing(list: seq<Info>, files: Fileset) {
    && (forall x :: x in list <==> x in files)
    && (forall i, k :: 0 <= i < k < |list| ==> list[i].timestamp > list[k].timestamp)
  }

  // ----- the lists the search starts from -----

  lemma {:induction false} ParsedItems(files: seq<string>, parse: Parse, ext: string)
    ensures forall x :: x in OnDisk.Parsed(files, parse, ext) <==> x in Of(Infos(files, parse), ext)
    decreases |files|
  {
    if files != [] {
      var before, last := files[..|files| - 1], Last(files);
      ParsedItems(before, parse, ext);
      assert files == before + [last];
      assert Infos(files, parse) == Infos(before, parse) + (if parse(last).Some? then {parse(last).value} else {});
    }
  }

  lemma {:induction false} ParsedOnce(files: seq<string>, parse: Parse, ext: string)
    requires Named(parse) && NoRepeats(files)
    ensures forall x :: multiset(OnDisk.Parsed(files, parse, ext))[x] <= 1
    decreases |files|
  {
    if files != [] {
      var before, last := files[..|files| - 1], Last(files);
      ParsedOnce(before, parse, ext);
      ParsedItems(before, parse, ext);
      if parse(last).Some? && parse(last).value.ext == ext {
        assert last !in before;
        assert parse(last).value !in OnDisk.Parsed(before, parse, ext);
      }
    }
  }

  lemma {:induction false} OnceNoRepeats(list: seq<Info>)
    requires forall x :: multiset(list)[x] <= 1
    ensures NoRepeats(list)
    decreases |list|
  {
    if list != [] {
      assert list == [list[0]] + list[1..];
      forall x ensures multiset(list[1..])[x] <= 1 { assert multiset(list)[x] <= 1; }
      OnceNoRepeats(list[1..]);
      assert multiset(list)[list[0]] == 1 + multiset(list[1..])[list[0]];
      assert list[0] !in list[1..];
    }
  }

  lemma ListedIs(files: seq<string>, parse: Parse, ext: string)
    requires Named(parse) && NoRepeats(files) && Distinct(Infos(files, parse))
    ensures Listing(OnDisk.Listed(files, parse, ext), Of(Infos(files, parse), ext))
  {
    var parsed, list := OnDisk.Parsed(files, parse, ext), OnDisk.Listed(files, parse, ext);
    ParsedItems(files, parse, ext);
    ParsedOnce(files, parse, ext);
    OnDisk.SortedOk(OnDisk.ByTimestamp, parsed);
    OnceNoRepeats(list);
    forall i, k | 0 <= i < k < |list| ensures list[i].timestamp > list[k].timestamp {
      assert list[i] in Of(Infos(files, parse), ext) && list[k] in Of(Infos(files, parse), ext);
      assert OnDisk.KeyOf(OnDisk.ByTimestamp, list[i]) >= OnDisk.KeyOf(OnDisk.ByTimestamp, list[k]);
    }
  }

  // ----- taking the head and splitting -----

  lemma HeadIsNewest(list: seq<Info>, files: Fileset)
    requires Listing(list, files)
    ensures OnDisk.Head(list) == Newest(files)
  {
    if list != [] {
      assert list[0] in files;
      var x := Newest(files).value;
      var i :| 0 <= i < |list| && list[i] == x;
    }
  }

  lemma AfterIs(list: seq<Info>, files: Fileset, limit: Info)
    requires Listing(list, files)
    ensures Listing(OnDisk.After(list, limit.timestamp), NewerThan(files, Some(limit)))
  {
    var holds := OnDisk.Newer(limit.timestamp);
    var n := OnDisk.Leading(list, holds);
    OnDisk.LeadingOk(list, holds);
    var kept := OnDisk.After(list, limit.timestamp);
    assert n < |list| ==> !holds(list[n]) && (forall k :: n < k < |list| ==> list[k].timestamp < list[n].timestamp);
    forall x ensures x in kept <==> x in NewerThan(files, Some(limit)) {
      if x in NewerThan(files, Some(limit)) {
        var i :| 0 <= i < |list| && list[i] == x;
        assert x == kept[i];
      }
    }
  }

  lemma NotBeforeIs(list: seq<Info>)
    requires list != [] && (forall i, k :: 0 <= i < k < |list| ==> list[i].timestamp > list[k].timestamp)
    ensures OnDisk.NotBefore(list, list[0].timestamp) == [list[0]]
  {
    var holds := OnDisk.NotOlder(list[0].timestamp);
    OnDisk.LeadingOk(list, holds);
    var n := OnDisk.Leading(list, holds);
    assert holds(list[0]) && (|list| > 1 ==> !holds(list[1]));
    assert n == 1;
  }

  /** The greatest content type, and the first item that has it. */
  ghost predicate FirstGreatest(list: seq<Info>, head: Info, i: nat) {
    && i < |list| && list[i] == head
    && (forall k :: 0 <= k < i ==> OnDisk.Ctype(list[k]) < OnDisk.Ctype(head))
    && (forall k :: i < k < |list| ==> OnDisk.Ctype(list[k]) <= OnDisk.Ctype(head))
  }

  lemma FirstGreatestMore(list: seq<Info>, head: Info, i: nat)
    requires |list| > 1 && FirstGreatest(list[1..], head, i)
    ensures if OnDisk.Ctype(list[0]) >= OnDisk.Ctype(head) then FirstGreatest(list, list[0], 0) else FirstGreatest(list, head, i + 1)
  {
    assert forall k :: 1 <= k < |list| ==> list[k] == list[1..][k - 1];
  }

  lemma {:induction false} SortedHead(list: seq<Info>) returns (i: nat)
    requires list != []
    ensures OnDisk.Sorted(OnDisk.ByCtype, list) != []
    ensures FirstGreatest(list, OnDisk.Sorted(OnDisk.ByCtype, list)[0], i)
    decreases |list|
  {
    if |list| == 1 {
      assert OnDisk.Sorted(OnDisk.ByCtype, list) == [list[0]];
      i := 0;
    } else {
      i := SortedHead(list[1..]);
      var rest := OnDisk.Sorted(OnDisk.ByCtype, list[1..]);
      FirstGreatestMore(list, rest[0], i);
      i := if OnDisk.Ctype(list[0]) >= OnDisk.Ctype(rest[0]) then 0 else i + 1;
      hide FirstGreatest;
    }
  }

  lemma BestIsHead(list: seq<Info>, files: Fileset)
    requires Listing(list, files) && list != []
    ensures OnDisk.Sorted(OnDisk.ByCtype, list) != [] && Best(files) == Some(OnDisk.Sorted(OnDisk.ByCtype, list)[0])
  {
    var i := SortedHead(list);
    var head := OnDisk.Sorted(OnDisk.ByCtype, list)[0];
    assert head in files;
    var best := Best(files).value;
    var k :| 0 <= k < |list| && list[k] == best;
    assert k <= i;
    assert k == i;
    hide OnDisk.Sorted;
  }

  // ----- each step of the search -----

  ghost predicate Proper(files: seq<string>, parse: Parse) {
    Named(parse) && NoRepeats(files) && Distinct(Infos(files, parse))
  }

  lemma TombIs(files: seq<string>, parse: Parse)
    requires Proper(files, parse)
    ensures OnDisk.Head(OnDisk.Listed(files, parse, OnDisk.TS)) == Tomb(Infos(files, parse))
  {
    hide OnDisk.Listed, Listing, Distinct;
    ListedIs(files, parse, OnDisk.TS);
    HeadIsNewest(OnDisk.Listed(files, parse, OnDisk.TS), Of(Infos(files, parse), OnDisk.TS));
  }

  lemma LiveIs(files: seq<string>, parse: Parse, ext: string)
    requires Proper(files, parse) && ext != OnDisk.TS
    ensures Listing(OnDisk.Live(files, parse, ext), LiveOf(Infos(files, parse), ext))
  {
    hide OnDisk.Listed, Listing, Distinct, OnDisk.After;
    var all := Infos(files, parse);
    TombIs(files, parse);
    ListedIs(files, parse, ext);
    if Tomb(all).Some? { AfterIs(OnDisk.Listed(files, parse, ext), Of(all, ext), Tomb(all).value); }
  }

  lemma DataIs(files: seq<string>, parse: Parse)
    requires Proper(files, parse)
    ensures OnDisk.Head(OnDisk.Retained(files, parse, OnDisk.DATA)) == Data(Infos(files, parse))
  {
    hide OnDisk.Listed, Listing, Distinct, OnDisk.Live;
    LiveIs(files, parse, OnDisk.DATA);
    HeadIsNewest(OnDisk.Live(files, parse, OnDisk.DATA), LiveOf(Infos(files, parse), OnDisk.DATA));
  }

  /** The .meta files that are retained, as a list. */
  ghost function Metas(files: Fileset): seq<Info> {
    var first, second := FirstMeta(files), SecondMeta(files);
    if first.None? then [] else if second.None? then [first.value] else [first.value, second.value]
  }

  lemma RestListing(list: seq<Info>, files: Fileset)
    requires Listing(list, files) && list != []
    ensures Listing(list[1..], files - {list[0]})
  {
    var rest := list[1..];
    forall x ensures x in rest <==> x in files - {list[0]} {
      if x in files - {list[0]} {
        var i :| 0 <= i < |list| && list[i] == x;
        assert rest[i - 1] == x;
      }
    }
  }

  lemma MetasAre(files: seq<string>, parse: Parse)
    requires Proper(files, parse)
    ensures OnDisk.Retained(files, parse, OnDisk.META) == Metas(Infos(files, parse))
  {
    hide OnDisk.Listed, Distinct, OnDisk.Live, OnDisk.Sorted;
    var all := Infos(files, parse);
    var list := OnDisk.Live(files, parse, OnDisk.META);
    LiveIs(files, parse, OnDisk.META);
    HeadIsNewest(list, LiveOf(all, OnDisk.META));
    if list != [] {
      RestListing(list, LiveOf(all, OnDisk.META));
      var rest := list[1..];
      if rest == [] {
        assert LiveOf(all, OnDisk.META) - {list[0]} == {};
      } else {
        BestIsHead(rest, LiveOf(all, OnDisk.META) - {list[0]});
        assert OnDisk.Sorted(OnDisk.ByCtype, rest)[0] in LiveOf(all, OnDisk.META) - {list[0]};
        Apart(list, OnDisk.Sorted(OnDisk.ByCtype, rest)[0]);
      }
    }
  }

  lemma Apart(list: seq<Info>, x: Info)
    requires list != [] && x in list[1..] && (forall i, k :: 0 <= i < k < |list| ==> list[i].timestamp > list[k].timestamp)
    ensures x.timestamp < list[0].timestamp
  {
  }

  /** The second retained file is older than the first. */
  lemma SecondIsOlder(files: Fileset)
    requires Distinct(files) && SecondMeta(files).Some?
    ensures FirstMeta(files).Some? && SecondMeta(files).value.timestamp < FirstMeta(files).value.timestamp
  {
  }

  lemma KeptMetas(files: seq<string>, parse: Parse)
    requires Proper(files, parse)
    ensures var all := Infos(files, parse);
            var data := Data(all);
            OnDisk.Kept(files, parse, OnDisk.META) ==
              if !Filesets.Newer(FirstMeta(all), data) then []
              else if !Filesets.Newer(SecondMeta(all), data) then [FirstMeta(all).value]
              else [FirstMeta(all).value, SecondMeta(all).value]
  {
    var all := Infos(files, parse);
    DataIs(files, parse);
    MetasAre(files, parse);
    if SecondMeta(all).Some? { SecondIsOlder(all); }
    hide OnDisk.Retained, Distinct, FirstMeta, SecondMeta;
    if Data(all).Some? {
      OnDisk.LeadingOk(Metas(all), OnDisk.Newer(Data(all).value.timestamp));
    }
  }

  /** The search chooses by the set of files alone, not by the order it finds them in. */
  lemma SearchIsChosen(files: seq<string>, parse: Parse)
    requires Proper(files, parse)
    ensures var data := OnDisk.Head(OnDisk.Retained(files, parse, OnDisk.DATA));
            var metas := OnDisk.Kept(files, parse, OnDisk.META);
            Chosen(Infos(files, parse)) ==
              Choice(data, OnDisk.ChosenMeta(data, metas),
                     if data.Some? then None else OnDisk.Head(OnDisk.Kept(files, parse, OnDisk.TS)),
                     OnDisk.ChosenCtype(data, metas))
  {
    var all := Infos(files, parse);
    DataIs(files, parse);
    KeptMetas(files, parse);
    TombIs(files, parse);
    if SecondMeta(all).Some? { SecondIsOlder(all); }
    hide OnDisk.Listed, Distinct, FirstMeta, SecondMeta, Tomb, Data;
  }

  // ----- what is obsolete -----

  lemma KeptOthers(files: seq<string>, parse: Parse, x: Info)
    requires Proper(files, parse) && x.ext !in {OnDisk.TS, OnDisk.DATA, OnDisk.META}
    ensures x in OnDisk.Kept(files, parse, x.ext) <==> x in Infos(files, parse) && Stays(Infos(files, parse), x)
  {
    var all := Infos(files, parse);
    DataIs(files, parse);
    LiveIs(files, parse, x.ext);
    var data := Data(all);
    if data.Some? { AfterIs(OnDisk.Live(files, parse, x.ext), LiveOf(all, x.ext), data.value); }
    hide OnDisk.Live, Distinct, OnDisk.After, Data, Tomb;
  }

  lemma KeptTs(files: seq<string>, parse: Parse, x: Info)
    requires Proper(files, parse) && x.ext == OnDisk.TS
    ensures x in OnDisk.Kept(files, parse, x.ext) <==> x in Infos(files, parse) && Stays(Infos(files, parse), x)
  {
    var all := Infos(files, parse);
    DataIs(files, parse);
    TombIs(files, parse);
    var list, data := OnDisk.Live(files, parse, OnDisk.TS), Data(all);
    assert list == if Tomb(all).Some? then [Tomb(all).value] else [];
    if Tomb(all).Some? { assert Tomb(all).value in Of(all, OnDisk.TS); }
    if data.Some? {
      OnDisk.LeadingOk(list, OnDisk.Newer(data.value.timestamp));
      assert data.value in LiveOf(all, OnDisk.DATA);
    }
    hide OnDisk.Listed, Distinct, Data, Tomb;
  }

  lemma KeptData(files: seq<string>, parse: Parse, x: Info)
    requires Proper(files, parse) && x.ext == OnDisk.DATA
    ensures x in OnDisk.Kept(files, parse, x.ext) <==> x in Infos(files, parse) && Stays(Infos(files, parse), x)
  {
    var all := Infos(files, parse);
    DataIs(files, parse);
    LiveIs(files, parse, OnDisk.DATA);
    var list := OnDisk.Retained(files, parse, OnDisk.DATA);
    if list != [] {
      NotBeforeIs(list);
      assert Data(all).value in LiveOf(all, OnDisk.DATA);
    }
    hide OnDisk.Live, Distinct, Data;
  }

  lemma KeptIs(files: seq<string>, parse: Parse, x: Info)
    requires Proper(files, parse)
    ensures x in OnDisk.Kept(files, parse, x.ext) <==> x in KeptOf(Infos(files, parse))
  {
    if x.ext == OnDisk.TS {
      KeptTs(files, parse, x);
    } else if x.ext == OnDisk.DATA {
      KeptData(files, parse, x);
    } else if x.ext == OnDisk.META {
      var all := Infos(files, parse);
      KeptMetas(files, parse);
      if SecondMeta(all).Some? { SecondIsOlder(all); LiveInFiles(all, SecondMeta(all).value); }
      if FirstMeta(all).Some? { LiveInFiles(all, FirstMeta(all).value); }
    } else {
      KeptOthers(files, parse, x);
    }
    hide OnDisk.Kept, Distinct, Data, FirstMeta, SecondMeta, Tomb;
  }

  /** A file is obsolete exactly if it is not kept, and it is listed as such once. */
  lemma ObsoleteIs(files: seq<string>, parse: Parse, obsolete: seq<Info>)
    requires Proper(files, parse) && OnDisk.Accounted(files, parse, obsolete)
    ensures forall x :: x in obsolete <==> x in Infos(files, parse) && x !in KeptOf(Infos(files, parse))
    ensures NoRepeats(obsolete)
  {
    hide Distinct, KeptOf, OnDisk.Kept, OnDisk.Sorted;
    var all := Infos(files, parse);
    forall x: Info
      ensures multiset(obsolete)[x] <= 1 && (x in obsolete <==> x in all && x !in KeptOf(all))
    {
      KeptIs(files, parse, x);
      ListedIs(files, parse, x.ext);
      ParsedOnce(files, parse, x.ext);
      OnDisk.SortedOk(OnDisk.ByTimestamp, OnDisk.Parsed(files, parse, x.ext));
      assert x in OnDisk.Listed(files, parse, x.ext) <==> x in Of(all, x.ext);
      assert x in OnDisk.Kept(files, parse, x.ext) <==> multiset(OnDisk.Kept(files, parse, x.ext))[x] > 0;
      assert x in OnDisk.Listed(files, parse, x.ext) <==> multiset(OnDisk.Listed(files, parse, x.ext))[x] > 0;
      assert x in obsolete <==> multiset(obsolete)[x] > 0;
      KeptWithin(all, x);
    }
    OnceNoRepeats(obsolete);
  }

  lemma KeptWithin(files: Fileset, x: Info)
    ensures x in KeptOf(files) ==> x in files
  {
  }
}
