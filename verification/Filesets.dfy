/** The reference rules on sets of files: the choice does not depend on the
    order of a listing, and removing obsolete files never changes a later choice. */
module Filesets {
  import opened Base
  import opened Metadata
  import opened OnDisk

  type Fileset = set<Info>

  /** No two files of one extension have the same timestamp. */
  ghost predicate Distinct(files: Fileset) {
    forall a, b :: a in files && b in files && a.ext == b.ext && a.timestamp == b.timestamp ==> a == b
  }

  /** A POST's content type is dated at most one unit of time later than the POST itself. */
  ghost predicate WellTimed(files: Fileset) {
    forall x :: x in files && x.ext == META ==> Ctype(x) <= x.timestamp + 1
  }

  function Of(files: Fileset, ext: string): Fileset { set x | x in files && x.ext == ext }

  function NewerThan(files: Fileset, limit: Option<Info>): Fileset {
    if limit.None? then files else set x | x in files && x.timestamp > limit.value.timestamp
  }

  ghost predicate IsNewest(files: Fileset, x: Info) {
    x in files && forall y :: y in files ==> y.timestamp <= x.timestamp
  }

  /** Of the greatest content-type timestamp; of several, the newest. */
  ghost predicate IsBest(files: Fileset, x: Info) {
    && x in files
    && forall y :: y in files ==> Ctype(y) < Ctype(x) || (Ctype(y) == Ctype(x) && y.timestamp <= x.timestamp)
  }

  lemma {:induction false} NewestExists(files: Fileset)
    requires files != {}
    ensures exists x :: IsNewest(files, x)
    decreases |files|
  {
    var x :| x in files;
    if files == {x} {
      assert IsNewest(files, x);
    } else {
      var rest := files - {x};
      assert rest != {};
      NewestExists(rest);
      var y :| IsNewest(rest, y);
      assert IsNewest(files, if x.timestamp <= y.timestamp then y else x);
    }
  }

  lemma {:induction false} BestExists(files: Fileset)
    requires files != {}
    ensures exists x :: IsBest(files, x)
    decreases |files|
  {
    var x :| x in files;
    if files == {x} {
      assert IsBest(files, x);
    } else {
      var rest := files - {x};
      assert rest != {};
      BestExists(rest);
      var y :| IsBest(rest, y);
      assert IsBest(files, if Ctype(x) < Ctype(y) || (Ctype(x) == Ctype(y) && x.timestamp <= y.timestamp) then y else x);
    }
  }

  ghost function Newest(files: Fileset): (r: Option<Info>)
    ensures r.None? <==> files == {}
    ensures r.Some? ==> IsNewest(files, r.value)
  {
    if files == {} then None
    else
      NewestExists(files);
      var x :| IsNewest(files, x);
      Some(x)
  }

  ghost function Best(files: Fileset): (r: Option<Info>)
    ensures r.None? <==> files == {}
    ensures r.Some? ==> IsBest(files, r.value)
  {
    if files == {} then None
    else
      BestExists(files);
      var x :| IsBest(files, x);
      Some(x)
  }

  lemma NewestIs(files: Fileset, x: Info)
    requires IsNewest(files, x) && (forall y :: y in files && y.timestamp == x.timestamp ==> y == x)
    ensures Newest(files) == Some(x)
  {
  }

  lemma BestIs(files: Fileset, x: Info)
    requires IsBest(files, x) && (forall y :: y in files && y.timestamp == x.timestamp ==> y == x)
    ensures Best(files) == Some(x)
  {
  }

  datatype Choice = Choice(data: Option<Info>, meta: Option<Info>, ts: Option<Info>, ctype: Option<Info>)

  // ----- the algorithm, on sets -----

  ghost function Tomb(files: Fileset): Option<Info> { Newest(Of(files, TS)) }

  ghost function LiveOf(files: Fileset, ext: string): Fileset { NewerThan(Of(files, ext), Tomb(files)) }

  ghost function Data(files: Fileset): Option<Info> { Newest(LiveOf(files, DATA)) }

  ghost function FirstMeta(files: Fileset): Option<Info> { Newest(LiveOf(files, META)) }

  /** The second .meta file that is retained, for its content type. */
  ghost function SecondMeta(files: Fileset): Option<Info> {
    var first := FirstMeta(files);
    if first.None? then None
    else
      var best := Best(LiveOf(files, META) - {first.value});
      if best.Some? && Ctype(best.value) > Ctype(first.value) then best else None
  }

  ghost predicate Newer(x: Option<Info>, limit: Option<Info>) {
    x.Some? && (limit.None? || x.value.timestamp > limit.value.timestamp)
  }

  ghost function Chosen(files: Fileset): Choice {
    var data := Data(files);
    if data.None? then Choice(None, None, Tomb(files), None)
    else
      var first, second := FirstMeta(files), SecondMeta(files);
      var meta := if Newer(first, data) then first else None;
      var last := if Newer(second, data) then second else meta;
      Choice(data, meta, None, if last.Some? && Ctype(last.value) > data.value.timestamp then last else None)
  }

  /** What is not obsolete. */
  ghost function KeptOf(files: Fileset): Fileset {
    set x | x in files && Stays(files, x)
  }

  ghost predicate Stays(files: Fileset, x: Info) {
    var data := Data(files);
    if x.ext == TS then data.None? && Tomb(files) == Some(x)
    else if x.ext == DATA then data == Some(x)
    else if x.ext == META then (FirstMeta(files) == Some(x) || SecondMeta(files) == Some(x)) && Newer(Some(x), data)
    else Newer(Some(x), Tomb(files)) && Newer(Some(x), data)
  }

  // ----- the choice in closed form -----

  /** The newest of .data and .ts decides; then the newest .meta after the data,
      and the newest content type after the data. */
  ghost function Closed(files: Fileset): Choice {
    var ts, data := Newest(Of(files, TS)), Newest(Of(files, DATA));
    if data.None? || !Newer(data, ts) then Choice(None, None, ts, None)
    else
      var metas := NewerThan(Of(files, META), data);
      Choice(data, Newest(metas), None, Best(set x | x in metas && Ctype(x) > data.value.timestamp))
  }

  lemma SameNewest(a: Fileset, b: Fileset)
    requires Distinct(b) && a <= b && (forall x, y :: x in b && y in b ==> x.ext == y.ext)
    requires Newest(b).Some? ==> Newest(b).value in a
    ensures Newest(a) == Newest(b)
  {
  }

  lemma SameBest(a: Fileset, b: Fileset)
    requires Distinct(b) && a <= b && (forall x, y :: x in b && y in b ==> x.ext == y.ext)
    requires Best(b).Some? ==> Best(b).value in a
    ensures Best(a) == Best(b)
  {
  }

  lemma DataIsClosed(files: Fileset)
    requires Distinct(files)
    ensures var ts, data := Newest(Of(files, TS)), Newest(Of(files, DATA));
            Data(files) == if data.Some? && Newer(data, ts) then data else None
  {
    var ts, data := Newest(Of(files, TS)), Newest(Of(files, DATA));
    if data.Some? && Newer(data, ts) {
      SameNewest(LiveOf(files, DATA), Of(files, DATA));
    }
  }

  lemma MetaIsClosed(files: Fileset)
    requires Distinct(files) && Data(files).Some?
    ensures var metas := NewerThan(Of(files, META), Data(files));
            Newest(metas) == if Newer(FirstMeta(files), Data(files)) then FirstMeta(files) else None
  {
    DataIsClosed(files);
    var metas := NewerThan(Of(files, META), Data(files));
    if Newer(FirstMeta(files), Data(files)) {
      SameNewest(metas, LiveOf(files, META));
    }
  }

  /** The .meta files whose content type is newer than the data. */
  ghost function Typed(files: Fileset, data: Info): Fileset {
    set x | x in NewerThan(Of(files, META), Some(data)) && Ctype(x) > data.timestamp
  }

  /** A .meta file that is preferred, for its content type, to one newer than
      the data is itself newer than the data. */
  lemma TypedAnyway(files: Fileset, data: Info, x: Info, y: Info)
    requires WellTimed(files) && y in Typed(files, data)
    requires x in files && x.ext == META && (Ctype(x) > Ctype(y) || (Ctype(x) == Ctype(y) && x.timestamp >= y.timestamp))
    ensures x in Typed(files, data)
  {
  }

  lemma BestIsSecond(files: Fileset, data: Info, x: Info)
    requires Distinct(files) && WellTimed(files) && IsBest(Typed(files, data), x) && x in LiveOf(files, META)
    requires FirstMeta(files) != Some(x)
    ensures SecondMeta(files) == Some(x)
  {
    var first := FirstMeta(files);
    var rest := LiveOf(files, META) - {first.value};
    assert x in rest;
    var y := Best(rest).value;
    TypedAnyway(files, data, y, x);
    assert x == y;
    if Ctype(first.value) >= Ctype(x) {
      TypedAnyway(files, data, first.value, x);
    }
  }

  lemma BestIsFirst(files: Fileset, x: Info)
    requires Distinct(files) && WellTimed(files) && Data(files).Some? && Best(Typed(files, Data(files).value)) == Some(x)
    requires FirstMeta(files) == Some(x)
    ensures SecondMeta(files) == None
  {
    if SecondMeta(files).Some? {
      TypedAnyway(files, Data(files).value, SecondMeta(files).value, x);
    }
  }

  /** The choice the code makes step by step is the closed form. */
  lemma ChosenIsClosed(files: Fileset)
    requires Distinct(files) && WellTimed(files)
    ensures Chosen(files) == Closed(files)
  {
    hide Newest, Best, WellTimed, Distinct;
    DataIsClosed(files);
    if Data(files).Some? {
      var data := Data(files);
      MetaIsClosed(files);
      CtypeIsClosed(files);
      assert Typed(files, data.value) == set x | x in NewerThan(Of(files, META), data) && Ctype(x) > data.value.timestamp;
      hide SecondMeta, FirstMeta, Typed, NewerThan, Of;
    }
  }

  lemma CtypeIsClosed(files: Fileset)
    requires Distinct(files) && WellTimed(files) && Data(files).Some?
    ensures Chosen(files).ctype == Best(Typed(files, Data(files).value))
  {
    var data := Data(files);
    var best := Best(Typed(files, data.value));
    if best.Some? {
      assert best.value in Typed(files, data.value);
      if FirstMeta(files) == best { BestIsFirst(files, best.value); } else { BestIsSecond(files, data.value, best.value); }
    } else if Chosen(files).ctype.Some? {
      CtypeIsTyped(files);
    }
  }

  lemma CtypeIsTyped(files: Fileset)
    requires Data(files).Some? && Chosen(files).ctype.Some?
    ensures Chosen(files).ctype.value in Typed(files, Data(files).value)
  {
    LiveInFiles(files, Chosen(files).ctype.value);
  }

  lemma LiveInFiles(files: Fileset, x: Info)
    requires FirstMeta(files) == Some(x) || SecondMeta(files) == Some(x)
    ensures x in files && x.ext == META && x in LiveOf(files, META)
  {
  }

  // ----- cleaning up never changes a later choice -----

  lemma NewestOfOne(x: Info)
    ensures Newest({x}) == Some(x)
  {
  }

  lemma KeptTomb(files: Fileset, more: Fileset)
    requires Distinct(files + more) && Data(files).None?
    ensures Newest(Of(KeptOf(files) + more, TS)) == Newest(Of(files + more, TS))
  {
    var all, kept := files + more, KeptOf(files) + more;
    var x := Newest(Of(all, TS));
    if x.Some? && x.value in files {
      NewestOfOne(x.value);
      SameNewest({x.value}, Of(files, TS));
      assert Stays(files, x.value);
    }
    SameNewest(Of(kept, TS), Of(all, TS));
  }

  lemma KeptData(files: Fileset, more: Fileset)
    requires Distinct(files + more)
    requires var data := Newest(Of(files + more, DATA)); data.Some? ==> data.value in more || Data(files).Some?
    ensures Newest(Of(KeptOf(files) + more, DATA)) == Newest(Of(files + more, DATA))
  {
    var all, kept := files + more, KeptOf(files) + more;
    var x := Newest(Of(all, DATA));
    if x.Some? && x.value in files && x.value !in more {
      DataIsClosed(files);
      NewestOfOne(x.value);
      SameNewest({x.value}, Of(files, DATA));
      assert Stays(files, x.value);
    }
    SameNewest(Of(kept, DATA), Of(all, DATA));
  }

  /** Whether, and with which data, an object is there. */
  ghost predicate HasData(files: Fileset, data: Option<Info>) {
    var ts, newest := Newest(Of(files, TS)), Newest(Of(files, DATA));
    data == if newest.Some? && Newer(newest, ts) then newest else None
  }

  lemma DataWins(files: Fileset, more: Fileset)
    requires Data(files).Some?
    requires var ts := Newest(Of(files + more, TS)); ts.None? || ts.value in files
    ensures Newer(Newest(Of(files + more, DATA)), Newest(Of(files + more, TS)))
  {
    var d, all := Data(files).value, files + more;
    assert d in LiveOf(files, DATA) && d in Of(all, DATA);
    var ts := Newest(Of(all, TS));
    if ts.Some? {
      assert ts.value in Of(files, TS);
      assert IsNewest(Of(files, TS), Tomb(files).value);
    }
  }

  lemma KeptLess(files: Fileset, more: Fileset)
    ensures var a, b := Newest(Of(KeptOf(files) + more, TS)), Newest(Of(files + more, TS));
            a.Some? ==> b.Some? && a.value.timestamp <= b.value.timestamp
  {
    var a := Newest(Of(KeptOf(files) + more, TS));
    if a.Some? { assert a.value in Of(files + more, TS); }
  }

  lemma SameData(files: Fileset, more: Fileset, data: Option<Info>)
    requires Distinct(files + more) && HasData(files + more, data)
    ensures HasData(KeptOf(files) + more, data)
    ensures data.None? ==> Newest(Of(KeptOf(files) + more, TS)) == Newest(Of(files + more, TS))
  {
    var all, kept := files + more, KeptOf(files) + more;
    var newest := Newest(Of(all, DATA));
    DataIsClosed(files);
    if Data(files).None? {
      KeptTomb(files, more);
      if newest.Some? && newest.value !in more {
        // The tombstone that hides all the data of `files` hides it still.
        NewestOfOne(newest.value);
        SameNewest({newest.value}, Of(files, DATA));
        assert !Newer(newest, Newest(Of(files, TS)));
      } else {
        KeptData(files, more);
      }
    } else {
      KeptData(files, more);
      var ts := Newest(Of(all, TS));
      if ts.Some? && ts.value in more {
        SameNewest(Of(kept, TS), Of(all, TS));
      } else {
        DataWins(files, more);
        KeptLess(files, more);
      }
    }
  }

  lemma SameMeta(files: Fileset, more: Fileset, data: Info)
    requires Distinct(files + more) && HasData(files + more, Some(data))
    ensures Newest(NewerThan(Of(KeptOf(files) + more, META), Some(data))) == Newest(NewerThan(Of(files + more, META), Some(data)))
  {
    var all := NewerThan(Of(files + more, META), Some(data));
    var x := Newest(all);
    if x.Some? && x.value in files && x.value !in more {
      LimitIsNewer(files, more, data);
      MetaIsLive(files, more, data, x.value);
      assert IsNewest(LiveOf(files, META), FirstMeta(files).value);
      assert FirstMeta(files).value in all;
      assert Stays(files, x.value);
    }
    SameNewest(NewerThan(Of(KeptOf(files) + more, META), Some(data)), all);
  }

  /** The data of all files is at least as new as that of some, and newer than their tombstones. */
  lemma LimitIsNewer(files: Fileset, more: Fileset, data: Info)
    requires Distinct(files + more) && HasData(files + more, Some(data))
    ensures Data(files).Some? ==> Data(files).value.timestamp <= data.timestamp
    ensures Tomb(files).Some? ==> Tomb(files).value.timestamp < data.timestamp
  {
    if Data(files).Some? {
      assert Data(files).value in Of(files + more, DATA);
    }
    if Tomb(files).Some? {
      assert Tomb(files).value in Of(files + more, TS);
    }
  }

  lemma MetaIsLive(files: Fileset, more: Fileset, data: Info, x: Info)
    requires Distinct(files + more) && HasData(files + more, Some(data))
    requires x in files && x.ext == META && x.timestamp > data.timestamp
    ensures x in LiveOf(files, META)
  {
    LimitIsNewer(files, more, data);
  }

  lemma SameCtype(files: Fileset, more: Fileset, data: Info)
    requires Distinct(files + more) && WellTimed(files + more) && HasData(files + more, Some(data))
    ensures Best(Typed(KeptOf(files) + more, data)) == Best(Typed(files + more, data))
  {
    var all := Typed(files + more, data);
    var x := Best(all);
    if x.Some? && x.value in files && x.value !in more {
      LimitIsNewer(files, more, data);
      MetaIsLive(files, more, data, x.value);
      assert Typed(files, data) <= all;
      assert IsBest(Typed(files, data), x.value);
      if FirstMeta(files) != x { BestIsSecond(files, data, x.value); }
      assert Stays(files, x.value);
    }
    SameBest(Typed(KeptOf(files) + more, data), all);
  }

  lemma ClosedWithData(files: Fileset, data: Option<Info>)
    requires HasData(files, data)
    ensures Closed(files) ==
              if data.None? then Choice(None, None, Newest(Of(files, TS)), None)
              else Choice(data, Newest(NewerThan(Of(files, META), data)), None, Best(Typed(files, data.value)))
  {
    if data.Some? {
      assert Typed(files, data.value) == set x | x in NewerThan(Of(files, META), data) && Ctype(x) > data.value.timestamp;
    }
  }

  /** Removing obsolete files never changes a later choice, whatever files arrive. */
  lemma CleanupKeepsTheFuture(files: Fileset, more: Fileset)
    requires Distinct(files + more) && WellTimed(files + more)
    ensures Chosen(KeptOf(files) + more) == Chosen(files + more)
  {
    var all, kept := files + more, KeptOf(files) + more;
    ChosenIsClosed(all);
    assert kept <= all;
    assert Distinct(kept) && WellTimed(kept);
    ChosenIsClosed(kept);
    hide Chosen, Closed, KeptOf, Distinct, WellTimed, Newer;
    var newest := Newest(Of(all, DATA));
    var data := if newest.Some? && Newer(newest, Newest(Of(all, TS))) then newest else None;
    assert HasData(all, data);
    hide HasData;
    SameData(files, more, data);
    ClosedWithData(all, data);
    ClosedWithData(kept, data);
    if data.Some? {
      SameMeta(files, more, data.value);
      SameCtype(files, more, data.value);
    }
  }

  // ----- which .meta files endanger that -----

  function Alive(t: Time): Info { Info("alive", DATA, t, None, None, false) }

  function Hidden(t: Time): Info { Info("hidden", META, t + 1, Some(t + 1), None, false) }

  function Latest(t: Time): Info { Info("latest", META, t + 2, None, None, false) }

  /** Where a file dated ahead is as old as the data, it goes. */
  lemma CleanedOfAhead(x: Info)
    requires x.ext == META
    ensures KeptOf({x, Alive(x.timestamp)}) == {Alive(x.timestamp)}
  {
    var files, data := {x, Alive(x.timestamp)}, Alive(x.timestamp);
    assert Of(files, TS) == {} && Of(files, DATA) == {data} && LiveOf(files, DATA) == {data};
    NewestIs({data}, data);
    assert Of(files, META) == {x} && LiveOf(files, META) == {x};
    NewestIs({x}, x);
    assert LiveOf(files, META) - {x} == {};
  }

  /** Where it does not, it hides a content type that would count. */
  lemma LaterOfAhead(x: Info, some: Fileset)
    requires x.ext == META && Ctype(x) > x.timestamp + 1 && (some == {} || some == {x})
    ensures Chosen(some + {Alive(x.timestamp), Hidden(x.timestamp), Latest(x.timestamp)}).ctype ==
              if x in some then None else Some(Hidden(x.timestamp))
  {
    var t := x.timestamp;
    var files, metas := some + {Alive(t), Hidden(t), Latest(t)}, some + {Hidden(t), Latest(t)};
    assert Of(files, TS) == {} && Of(files, DATA) == {Alive(t)} && LiveOf(files, DATA) == {Alive(t)};
    NewestIs({Alive(t)}, Alive(t));
    assert Of(files, META) == metas && LiveOf(files, META) == metas;
    NewestIs(metas, Latest(t));
    assert metas - {Latest(t)} == some + {Hidden(t)};
    BestIs(some + {Hidden(t)}, if x in some then x else Hidden(t));
  }

  /** A later PUT and POSTs, and a cleanup before them that changes what they show. */
  lemma DatedAheadChangesTheFuture(x: Info)
    requires x.ext == META && Ctype(x) > x.timestamp + 1
    ensures var t := x.timestamp;
            var files, more := {x, Alive(t)}, {Hidden(t), Latest(t)};
            && Distinct(files + more) && WellTimed((files + more) - {x})
            && Chosen(KeptOf(files) + more) != Chosen(files + more)
  {
    var t := x.timestamp;
    var files, more := {x, Alive(t)}, {Hidden(t), Latest(t)};
    AheadProper(x);
    hide Chosen, KeptOf, Distinct, WellTimed;
    CleanedOfAhead(x);
    LaterOfAhead(x, {});
    LaterOfAhead(x, {x});
    assert {Alive(t)} + more == {} + {Alive(t), Hidden(t), Latest(t)};
    assert files + more == {x} + {Alive(t), Hidden(t), Latest(t)};
  }

  lemma AheadProper(x: Info)
    requires x.ext == META
    ensures var t := x.timestamp;
            var all := {x, Alive(t)} + {Hidden(t), Latest(t)};
            Distinct(all) && WellTimed(all - {x})
  {
  }

  /** Cleaning up one part of a directory whose files, but for x, are well timed. */
  ghost predicate Harmless(x: Info, files: Fileset, more: Fileset) {
    Distinct(files + more) && WellTimed((files + more) - {x}) ==> Chosen(KeptOf(files) + more) == Chosen(files + more)
  }

  /** A .meta file never endangers what is shown exactly if its content type is
      dated no more than one unit of time ahead of it. */
  lemma DatedAheadExactly(x: Info)
    requires x.ext == META
    ensures Ctype(x) <= x.timestamp + 1 <==> forall files, more :: Harmless(x, files, more)
  {
    hide Harmless;
    if Ctype(x) <= x.timestamp + 1 {
      forall files, more ensures Harmless(x, files, more) { NotAheadHarmless(x, files, more); }
    } else {
      AheadHarms(x);
    }
  }

  lemma NotAheadHarmless(x: Info, files: Fileset, more: Fileset)
    requires Ctype(x) <= x.timestamp + 1
    ensures Harmless(x, files, more)
  {
    if WellTimed((files + more) - {x}) { assert WellTimed(files + more); }
    hide WellTimed, Distinct, Chosen, KeptOf;
    if Distinct(files + more) && WellTimed(files + more) { CleanupKeepsTheFuture(files, more); }
  }

  lemma AheadHarms(x: Info)
    requires x.ext == META && Ctype(x) > x.timestamp + 1
    ensures !Harmless(x, {x, Alive(x.timestamp)}, {Hidden(x.timestamp), Latest(x.timestamp)})
  {
    hide WellTimed, Distinct, Chosen, KeptOf;
    DatedAheadChangesTheFuture(x);
  }
}
