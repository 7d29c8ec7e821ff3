/** Cleaning an object's directory: the obsolete files go, each once, and what
    is left is exactly what the rules keep. */
module Cleanup {
  import opened Base
  import opened Metadata
  import OnDisk
  import opened Filesets
  import opened Listings

  function Without(files: seq<string>, name: string): seq<string> {
    if files == [] then [] else if files[0] == name then files[1..] else [files[0]] + Without(files[1..], name)
  }

  lemma {:induction false} WithoutOk(files: seq<string>, name: string)
    requires NoRepeats(files)
    ensures NoRepeats(Without(files, name))
    ensures forall n :: n in Without(files, name) <==> n in files && n != name
    decreases |files|
  {
    if files != [] {
      var rest := files[1..];
      assert files == [files[0]] + rest;
      assert forall i :: 0 <= i < |rest| ==> rest[i] == files[i + 1];
      assert files[0] !in rest;
      WithoutOk(rest, name);
    }
  }

  /** What a cleanup may remove because it is old enough: a tombstone that
      stands alone, and .meta files without data. */
  ghost predicate Reclaimed(files: Fileset, reclaimable: Time -> bool, x: Info) {
    && x in KeptOf(files) && Data(files).None? && x.ext in {OnDisk.TS, OnDisk.META}
    && reclaimable(x.timestamp)
  }

  class ObjectDir {
    var files: seq<string>

    constructor (files: seq<string>)
      ensures this.files == files
    {
      this.files := files;
    }

    method Remove(name: string)
      requires NoRepeats(files) && name in files
      modifies this
      ensures NoRepeats(files) && forall n :: n in files <==> n in old(files) && n != name
    {
      WithoutOk(files, name);
      files := Without(files, name);
    }

    method RemoveAll(infos: seq<Info>)
      requires NoRepeats(files) && (forall i :: 0 <= i < |infos| ==> infos[i].name in files)
      requires forall i, k :: 0 <= i < k < |infos| ==> infos[i].name != infos[k].name
      modifies this
      ensures NoRepeats(files)
      ensures forall n :: n in files <==> n in old(files) && (forall x :: x in infos ==> x.name != n)
    {
      for i := 0 to |infos|
        invariant NoRepeats(files)
        invariant forall n :: n in files <==> n in old(files) && (forall k :: 0 <= k < i ==> infos[k].name != n)
      {
        Remove(infos[i].name);
      }
    }

    /** cleanup_ondisk_files. `files.remove` raises on a missing name: it never does. */
    method CleanupOndiskFiles(parse: Parse, reclaimable: Time -> bool) returns (r: OnDisk.Results)
      requires Proper(files, parse)
      modifies this
      ensures NoRepeats(files)
      ensures var all := Infos(old(files), parse);
              forall name :: name in files <==>
                && name in old(files)
                && (parse(name).Some? ==> parse(name).value in KeptOf(all) && !Reclaimed(all, reclaimable, parse(name).value))
    {
      hide Distinct, KeptOf, Data, Infos, Reclaimed, OnDisk.Kept, OnDisk.Retained, OnDisk.Accounted, OnDisk.Verified;
      r := OnDisk.GetOndiskFiles(files, parse);
      ObsoleteIs(files, parse, r.obsolete);
      ReclaimIs(files, parse, r);
      var reclaimed := PickReclaimable(r.ts, r.possibleReclaim, reclaimable);
      ReclaimedAre(Infos(files, parse), r.ts, r.possibleReclaim, reclaimed, reclaimable);
      ToRemove(files, parse, r.obsolete, reclaimed, reclaimable);
      r := r.(obsolete := r.obsolete + reclaimed);
      RemoveAll(r.obsolete);
      RemovedAre(old(files), files, parse, r.obsolete, reclaimable);
    }
  }

  /** Of the tombstone and the .meta files offered, those old enough. */
  method PickReclaimable(ts: Option<Info>, metas: seq<Info>, reclaimable: Time -> bool) returns (reclaimed: seq<Info>)
    requires NoRepeats(metas) && (ts.Some? ==> ts.value !in metas)
    ensures forall x :: x in reclaimed <==> (ts == Some(x) || x in metas) && reclaimable(x.timestamp)
    ensures NoRepeats(reclaimed)
  {
    reclaimed := [];
    if ts.Some? && reclaimable(ts.value.timestamp) { reclaimed := [ts.value]; }
    for i := 0 to |metas|
      invariant forall x :: x in reclaimed <==> (ts == Some(x) || x in metas[..i]) && reclaimable(x.timestamp)
      invariant NoRepeats(reclaimed)
    {
      if reclaimable(metas[i].timestamp) {
        assert metas[i] !in metas[..i];
        reclaimed := reclaimed + [metas[i]];
      }
    }
    assert metas[..|metas|] == metas;
  }

  lemma ReclaimedAre(files: Fileset, ts: Option<Info>, metas: seq<Info>, reclaimed: seq<Info>, reclaimable: Time -> bool)
    requires forall x :: x in KeptOf(files) && Data(files).None? && x.ext in {OnDisk.TS, OnDisk.META} <==> ts == Some(x) || x in metas
    requires forall x :: x in reclaimed <==> (ts == Some(x) || x in metas) && reclaimable(x.timestamp)
    ensures forall x :: x in reclaimed <==> Reclaimed(files, reclaimable, x)
  {
    hide KeptOf, Data;
  }

  /** What is offered for reclaiming is kept so far, and offered once. */
  lemma ReclaimIs(files: seq<string>, parse: Parse, r: OnDisk.Results)
    requires Proper(files, parse)
    requires var data := OnDisk.Head(OnDisk.Retained(files, parse, OnDisk.DATA));
             && r.possibleReclaim == (if data.Some? then [] else OnDisk.Kept(files, parse, OnDisk.META))
             && r.ts == (if data.Some? then None else OnDisk.Head(OnDisk.Kept(files, parse, OnDisk.TS)))
    ensures var all := Infos(files, parse);
            forall x :: x in KeptOf(all) && Data(all).None? && x.ext in {OnDisk.TS, OnDisk.META} <==> r.ts == Some(x) || x in r.possibleReclaim
    ensures NoRepeats(r.possibleReclaim) && (r.ts.Some? ==> r.ts.value !in r.possibleReclaim)
  {
    var all := Infos(files, parse);
    DataIs(files, parse);
    ReclaimMetas(files, parse);
    ReclaimTs(files, parse);
    hide OnDisk.Kept, OnDisk.Retained, Distinct, Data, KeptOf, Infos;
    forall x ensures x in KeptOf(all) && Data(all).None? && x.ext in {OnDisk.TS, OnDisk.META} <==> r.ts == Some(x) || x in r.possibleReclaim {
      KeptIs(files, parse, x);
    }
  }

  lemma ReclaimMetas(files: seq<string>, parse: Parse)
    requires Proper(files, parse)
    ensures NoRepeats(OnDisk.Kept(files, parse, OnDisk.META))
    ensures forall x :: x in OnDisk.Kept(files, parse, OnDisk.META) ==> x.ext == OnDisk.META
  {
    var all := Infos(files, parse);
    KeptMetas(files, parse);
    if SecondMeta(all).Some? { SecondIsOlder(all); LiveInFiles(all, SecondMeta(all).value); }
    if FirstMeta(all).Some? { LiveInFiles(all, FirstMeta(all).value); }
    hide OnDisk.Kept, Distinct, FirstMeta, SecondMeta, Tomb, Data;
  }

  lemma ReclaimTs(files: seq<string>, parse: Parse)
    requires Proper(files, parse)
    ensures var all := Infos(files, parse);
            Data(all).None? ==>
              && OnDisk.Head(OnDisk.Kept(files, parse, OnDisk.TS)) == Tomb(all)
              && (forall x :: x in KeptOf(all) && x.ext == OnDisk.TS <==> Tomb(all) == Some(x))
  {
    var all := Infos(files, parse);
    DataIs(files, parse);
    TombIs(files, parse);
    if Tomb(all).Some? { assert Tomb(all).value in Of(all, OnDisk.TS); }
    hide OnDisk.Listed, Distinct, Data, Tomb;
  }

  lemma InfoNames(files: seq<string>, parse: Parse, x: Info)
    requires Named(parse) && x in Infos(files, parse)
    ensures x.name in files && parse(x.name) == Some(x)
  {
  }

  lemma ToRemove(files: seq<string>, parse: Parse, obsolete: seq<Info>, reclaimed: seq<Info>, reclaimable: Time -> bool)
    requires Named(parse) && NoRepeats(obsolete) && NoRepeats(reclaimed)
    requires forall x :: x in obsolete <==> x in Infos(files, parse) && x !in KeptOf(Infos(files, parse))
    requires forall x :: x in reclaimed <==> Reclaimed(Infos(files, parse), reclaimable, x)
    ensures var list := obsolete + reclaimed;
            && (forall i :: 0 <= i < |list| ==> list[i].name in files)
            && (forall i, k :: 0 <= i < k < |list| ==> list[i].name != list[k].name)
            && (forall x :: x in list <==> x in Infos(files, parse) && (x !in KeptOf(Infos(files, parse)) || Reclaimed(Infos(files, parse), reclaimable, x)))
  {
    var all, list := Infos(files, parse), obsolete + reclaimed;
    forall x | x in reclaimed ensures x in KeptOf(all) && x in all {
      KeptWithin(all, x);
    }
    hide KeptOf, Reclaimed, Infos;
    forall i | 0 <= i < |list| ensures list[i].name in files && parse(list[i].name) == Some(list[i]) {
      assert list[i] in obsolete || list[i] in reclaimed;
      InfoNames(files, parse, list[i]);
    }
    forall i, k | 0 <= i < k < |list| ensures list[i].name != list[k].name {
      assert list[i] != list[k] by {
        if i < |obsolete| <= k { assert list[i] in obsolete && list[k] in reclaimed; }
      }
    }
  }

  lemma RemovedAre(files: seq<string>, left: seq<string>, parse: Parse, gone: seq<Info>, reclaimable: Time -> bool)
    requires Named(parse)
    requires var all := Infos(files, parse);
             forall x :: x in gone <==> x in all && (x !in KeptOf(all) || Reclaimed(all, reclaimable, x))
    requires forall n :: n in left <==> n in files && (forall x :: x in gone ==> x.name != n)
    ensures var all := Infos(files, parse);
            forall name :: name in left <==>
              && name in files
              && (parse(name).Some? ==> parse(name).value in KeptOf(all) && !Reclaimed(all, reclaimable, parse(name).value))
  {
    var all := Infos(files, parse);
    hide KeptOf, Reclaimed;
    forall name | name in files
      ensures name in left <==> (parse(name).Some? ==> parse(name).value in KeptOf(all) && !Reclaimed(all, reclaimable, parse(name).value))
    {
      if parse(name).Some? { assert parse(name).value in all; }
      forall x | x in gone && x.name == name ensures parse(name) == Some(x) { InfoNames(files, parse, x); }
    }
  }

  /** Before any reclaim age is reached, exactly the kept files stay. */
  lemma CleanedFileset(files: seq<string>, left: seq<string>, parse: Parse)
    requires Proper(files, parse)
    requires var all := Infos(files, parse);
             forall name :: name in left <==> name in files && (parse(name).Some? ==> parse(name).value in KeptOf(all))
    ensures Infos(left, parse) == KeptOf(Infos(files, parse))
  {
    var all := Infos(files, parse);
    forall x ensures x in Infos(left, parse) <==> x in KeptOf(all) {
      if x in KeptOf(all) {
        KeptWithin(all, x);
        InfoNames(files, parse, x);
        assert x.name in left;
      }
    }
  }
}
