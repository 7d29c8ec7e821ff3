/** The two backends of the repository agree: the two-section blob
    (metadata.py) shows after every sequence of operations what the reference
    shows from its .data, .meta and .ts files, cleaned after each of them. */
module Bridge {
  import opened Base
  import opened Metadata
  import OnDisk
  import opened Filesets

  datatype Operation = PutOp(h: Headers) | DeleteOp(h: Headers) | PostOp(h: Headers)

  /** What a client can tell: with nothing, a tombstone, or an object with its
      three timestamps, of the data, of the metadata and of the content type. */
  datatype View = Nothing | Gone(time: Time) | Present(dataTime: Time, metaTime: Time, typeTime: Time, merged: Headers)

  // ----- the blob -----

  datatype Held = Held(deleted: bool, blob: Blob)

  function GotOf(held: Option<Held>): Option<Got> {
    match held
    case None => None
    case Some(h) => Some(Get(h.blob))
  }

  function HeldRaw(held: Option<Held>): nat {
    match held
    case None => 0
    case Some(h) => Raw(h.blob.data.time)
  }

  /** A put or delete takes the name if its ticks are newer; a POST rewrites the metadata, or does not. */
  function BlobStep(held: Option<Held>, op: Operation): Option<Held> {
    match op
    case PutOp(h) => if Raw(h.time) <= HeldRaw(held) then held else Some(Held(false, Put(GotOf(held), h)))
    case DeleteOp(h) => if Raw(h.time) <= HeldRaw(held) then held else Some(Held(true, Put(GotOf(held), h)))
    case PostOp(h) =>
      match Post(GotOf(held), h)
      case Rewrite(blob) => Some(Held(held.Some? && held.value.deleted, blob))
      case _ => held
  }

  function BlobFold(ops: seq<Operation>): Option<Held> {
    if ops == [] then None else BlobStep(BlobFold(ops[..|ops| - 1]), Last(ops))
  }

  function BlobView(held: Option<Held>): View {
    match held
    case None => Nothing
    case Some(h) =>
      var got := Get(h.blob);
      if h.deleted then Gone(got.dataTs) else Present(got.dataTs, got.metaTs, got.typeTs, got.merged)
  }

  // ----- the files -----

  type Content = OnDisk.Info -> Headers

  function FileOf(op: Operation): OnDisk.Info {
    match op
    case PutOp(h) => OnDisk.Info("", OnDisk.DATA, h.time, None, None, false)
    case DeleteOp(h) => OnDisk.Info("", OnDisk.TS, h.time, None, None, false)
    case PostOp(h) => OnDisk.Info("", OnDisk.META, h.time, h.ctypeTime, None, false)
  }

  function FilesOf(ops: seq<Operation>): Fileset { set op | op in ops :: FileOf(op) }

  /** Every operation writes its file, and the directory is cleaned. */
  ghost function CleanedFold(ops: seq<Operation>): Fileset {
    if ops == [] then {} else KeptOf(CleanedFold(ops[..|ops| - 1]) + {FileOf(Last(ops))})
  }

  /** _merge_content_type_metadata. */
  function WithCtype(meta: Headers, other: Headers, dataTime: Time): Headers {
    if other.ctype.Some? && CtypeTime(other) > CtypeTime(meta) && CtypeTime(other) > dataTime
    then meta.(ctype := other.ctype, ctypeTime := other.ctypeTime)
    else meta
  }

  /** _construct_from_data_file. */
  function Construct(data: Headers, meta: Option<Headers>, ctype: Option<Headers>): Headers {
    if meta.None? then data
    else
      var m := if ctype.Some? then WithCtype(meta.value, ctype.value, data.time) else meta.value;
      var merged := m.(items := m.items + SystemItems(data.items));
      if data.ctype.Some? && (m.ctypeTime.None? || data.time > m.ctypeTime.value)
      then merged.(ctype := data.ctype, ctypeTime := None)
      else merged
  }

  function Read(content: Content, info: Option<OnDisk.Info>): Option<Headers> {
    if info.Some? then Some(content(info.value)) else None
  }

  /** What the reference reads from the files it chose. */
  function FilesView(choice: Choice, content: Content): View {
    match choice.data
    case Some(d) =>
      var merged := Construct(content(d), Read(content, choice.meta), if choice.ctype == choice.meta then None else Read(content, choice.ctype));
      Present(d.timestamp, merged.time, merged.ctypeTime.GetOr(d.timestamp), merged)
    case None => if choice.ts.Some? then Gone(choice.ts.value.timestamp) else Nothing
  }

  // ----- what clients are assumed to send -----

  predicate Writes(op: Operation) { op.PutOp? || op.DeleteOp? }

  /** A PUT carries a Content-Type. A POST's Content-Type-Timestamp comes with a
      Content-Type and is not later than the POST. */
  predicate WellMade(op: Operation) {
    && Raw(op.h.time) > 0
    && match op
       case PutOp(h) => h.ctype.Some?
       case DeleteOp(_) => true
       case PostOp(h) => (h.ctypeTime.Some? ==> h.ctype.Some? && h.ctypeTime.value > 0) && CtypeTime(h) <= h.time
  }

  /** Operations have different ticks; equal content-type timestamps mean equal
      content types, and none is the time of a PUT or DELETE. */
  predicate Compatible(a: Operation, b: Operation) {
    && (a != b ==> Raw(a.h.time) != Raw(b.h.time))
    && (a.PostOp? && b.PostOp? && a.h.ctypeTime.Some? && a.h.ctypeTime == b.h.ctypeTime ==> a.h.ctype == b.h.ctype)
    && (a.PostOp? && Writes(b) ==> a.h.ctypeTime != Some(b.h.time))
  }

  ghost predicate Sensible(ops: seq<Operation>) {
    && (forall op :: op in ops ==> WellMade(op))
    && (forall a, b :: a in ops && b in ops ==> Compatible(a, b))
  }

  ghost predicate Stored(ops: seq<Operation>, content: Content) {
    forall op :: op in ops ==> content(FileOf(op)) == op.h
  }

  /** No content type is dated later than its POST. */
  ghost predicate NotAhead(files: Fileset) {
    forall x :: x in files && x.ext == OnDisk.META ==> OnDisk.Ctype(x) <= x.timestamp
  }

  // ----- facts about such operations -----

  lemma RawOrder(a: Time, b: Time)
    requires Raw(a) != Raw(b)
    ensures Raw(a) < Raw(b) <==> a < b
  {
  }

  lemma FilesProper(ops: seq<Operation>)
    requires Sensible(ops)
    ensures Distinct(FilesOf(ops)) && NotAhead(FilesOf(ops)) && WellTimed(FilesOf(ops))
  {
    forall a, b | a in FilesOf(ops) && b in FilesOf(ops) && a.ext == b.ext && a.timestamp == b.timestamp ensures a == b {
      var x :| x in ops && FileOf(x) == a;
      var y :| y in ops && FileOf(y) == b;
      assert Compatible(x, y);
    }
    forall a | a in FilesOf(ops) && a.ext == OnDisk.META ensures OnDisk.Ctype(a) <= a.timestamp {
      var x :| x in ops && FileOf(x) == a;
      assert WellMade(x);
    }
  }

  lemma SensiblePrefix(ops: seq<Operation>, n: nat)
    requires Sensible(ops) && n <= |ops|
    ensures Sensible(ops[..n])
  {
  }

  lemma FilesAppend(ops: seq<Operation>, op: Operation)
    ensures FilesOf(ops + [op]) == FilesOf(ops) + {FileOf(op)}
  {
    forall x ensures x in FilesOf(ops + [op]) <==> x in FilesOf(ops) + {FileOf(op)} {
      if x in FilesOf(ops) + {FileOf(op)} {
        var y :| (y in ops || y == op) && FileOf(y) == x;
        assert y in ops + [op];
      }
    }
  }

  // ----- cleaning along the way -----

  lemma {:induction false} CleanedIsSome(ops: seq<Operation>)
    ensures CleanedFold(ops) <= FilesOf(ops)
    decreases |ops|
  {
    if ops != [] {
      var before, op := ops[..|ops| - 1], Last(ops);
      CleanedIsSome(before);
      assert ops == before + [op];
      FilesAppend(before, op);
    }
  }

  /** Cleaning after every operation changes no choice, now or later. */
  lemma {:induction false} CleaningIsInvisible(ops: seq<Operation>, more: Fileset)
    requires Distinct(FilesOf(ops) + more) && WellTimed(FilesOf(ops) + more)
    ensures Chosen(CleanedFold(ops) + more) == Chosen(FilesOf(ops) + more)
    decreases |ops|
  {
    hide Chosen, KeptOf;
    if ops == [] {
      assert FilesOf(ops) == {};
    } else {
      var before, op := ops[..|ops| - 1], Last(ops);
      var file := FileOf(op);
      assert ops == before + [op];
      FilesAppend(before, op);
      CleanedIsSome(before);
      assert FilesOf(ops) + more == FilesOf(before) + ({file} + more);
      CleaningIsInvisible(before, {file} + more);
      var dirty := CleanedFold(before) + {file};
      assert dirty + more <= FilesOf(ops) + more;
      assert dirty + more == CleanedFold(before) + ({file} + more);
      SubsetProper(dirty + more, FilesOf(ops) + more);
      CleanupKeepsTheFuture(dirty, more);
    }
  }

  lemma SubsetProper(some: Fileset, all: Fileset)
    requires some <= all && Distinct(all) && WellTimed(all)
    ensures Distinct(some) && WellTimed(some)
  {
  }

  // ----- the blob in closed form -----

  /** The same assumptions, of files and what is in them. */
  ghost predicate Good(files: Fileset, content: Content) {
    && NotAhead(files)
    && (forall a, b :: a in files && b in files && a.timestamp == b.timestamp ==> a == b)
    && (forall x :: x in files ==> content(x).time == x.timestamp && x.timestamp > 0 && x.ext in {OnDisk.DATA, OnDisk.TS, OnDisk.META})
    && (forall x :: x in files && x.ext == OnDisk.META ==>
          content(x).ctypeTime == x.ctype && (x.ctype.Some? ==> content(x).ctype.Some? && x.ctype.value > 0))
    && (forall x, y :: x in files && y in files && x.ext == OnDisk.META && y.ext == OnDisk.META && x.ctype.Some? && x.ctype == y.ctype ==>
          content(x).ctype == content(y).ctype)
    && (forall x, y :: x in files && y in files && x.ext == OnDisk.META && y.ext != OnDisk.META ==> x.ctype != Some(y.timestamp))
  }

  lemma OperationOf(ops: seq<Operation>, content: Content, x: OnDisk.Info) returns (op: Operation)
    requires Sensible(ops) && Stored(ops, content) && x in FilesOf(ops)
    ensures op in ops && FileOf(op) == x && content(x) == op.h && WellMade(op)
  {
    op :| op in ops && FileOf(op) == x;
  }

  lemma OneFile(ops: seq<Operation>, content: Content, x: OnDisk.Info)
    requires Sensible(ops) && Stored(ops, content) && x in FilesOf(ops)
    ensures content(x).time == x.timestamp && x.timestamp > 0 && x.ext in {OnDisk.DATA, OnDisk.TS, OnDisk.META}
    ensures x.ext == OnDisk.META ==> content(x).ctypeTime == x.ctype && (x.ctype.Some? ==> content(x).ctype.Some? && x.ctype.value > 0)
  {
    hide Sensible, Stored;
    var op := OperationOf(ops, content, x);
  }

  lemma TwoFiles(ops: seq<Operation>, content: Content, x: OnDisk.Info, y: OnDisk.Info)
    requires Sensible(ops) && Stored(ops, content) && x in FilesOf(ops) && y in FilesOf(ops) && x.ext == OnDisk.META
    ensures y.ext == OnDisk.META && x.ctype.Some? && x.ctype == y.ctype ==> content(x).ctype == content(y).ctype
    ensures y.ext != OnDisk.META ==> x.ctype != Some(y.timestamp)
  {
    var a := OperationOf(ops, content, x);
    var b := OperationOf(ops, content, y);
    assert Compatible(a, b);
    hide Sensible, Stored, Raw, WellMade;
  }

  lemma SensibleFiles(ops: seq<Operation>, content: Content)
    requires Sensible(ops) && Stored(ops, content)
    ensures Good(FilesOf(ops), content)
  {
    hide Sensible, Stored, NotAhead, FilesOf;
    FilesProper(ops);
    TimesApart(ops);
    forall x | x in FilesOf(ops)
      ensures content(x).time == x.timestamp && x.timestamp > 0 && x.ext in {OnDisk.DATA, OnDisk.TS, OnDisk.META}
      ensures x.ext == OnDisk.META ==> content(x).ctypeTime == x.ctype && (x.ctype.Some? ==> content(x).ctype.Some? && x.ctype.value > 0)
    {
      OneFile(ops, content, x);
    }
    forall x, y | x in FilesOf(ops) && y in FilesOf(ops) && x.ext == OnDisk.META
      ensures y.ext == OnDisk.META && x.ctype.Some? && x.ctype == y.ctype ==> content(x).ctype == content(y).ctype
      ensures y.ext != OnDisk.META ==> x.ctype != Some(y.timestamp)
    {
      TwoFiles(ops, content, x, y);
    }
  }

  lemma TimesApart(ops: seq<Operation>)
    requires Sensible(ops)
    ensures forall x :: x in FilesOf(ops) ==> x.timestamp > 0
    ensures forall x, y :: x in FilesOf(ops) && y in FilesOf(ops) && x.timestamp == y.timestamp ==> x == y
  {
    forall x | x in FilesOf(ops) ensures x.timestamp > 0 {
      var op :| op in ops && FileOf(op) == x;
      assert WellMade(op);
    }
    forall x, y | x in FilesOf(ops) && y in FilesOf(ops) && x.timestamp == y.timestamp ensures x == y {
      var a :| a in ops && FileOf(a) == x;
      var b :| b in ops && FileOf(b) == y;
      assert Compatible(a, b);
    }
  }

  /** The newest PUT or DELETE. */
  ghost function Anchor(files: Fileset): Option<OnDisk.Info> { Newest(Of(files, OnDisk.DATA) + Of(files, OnDisk.TS)) }

  /** The POSTs that outlive it. */
  ghost function Posts(files: Fileset, anchor: OnDisk.Info): Fileset { NewerThan(Of(files, OnDisk.META), Some(anchor)) }

  /** A blob's second section holds the newest such POST, and the newest content type of them all. */
  ghost predicate MetaOk(files: Fileset, content: Content, anchor: OnDisk.Info, meta: Option<Headers>) {
    && (meta.None? <==> Posts(files, anchor) == {})
    && (meta.Some? ==>
          && var m, newest := meta.value, Newest(Posts(files, anchor)).value;
          && m.time == newest.timestamp && m.items == content(newest).items
          && (m.ctypeTime.Some? ==> m.ctype.Some?)
          && (match Best(Typed(files, anchor))
              case None => CtypeTime(m) < anchor.timestamp
              case Some(best) => m.ctype == content(best).ctype && m.ctypeTime == content(best).ctypeTime))
  }

  ghost predicate BlobOk(files: Fileset, content: Content, held: Option<Held>) {
    match Anchor(files)
    case None => held.None?
    case Some(anchor) =>
      && held.Some? && held.value.deleted == (anchor.ext == OnDisk.TS)
      && held.value.blob.data == content(anchor)
      && MetaOk(files, content, anchor, held.value.blob.meta)
  }

  // ----- a PUT or DELETE -----

  /** A newer PUT or DELETE keeps the second section if its POST is newer still. */
  lemma NewAnchorMeta(files: Fileset, content: Content, before: OnDisk.Info, x: OnDisk.Info, meta: Option<Headers>)
    requires Good(files + {x}, content) && x.ext != OnDisk.META && before in files && before.timestamp < x.timestamp
    requires MetaOk(files, content, before, meta)
    ensures MetaOk(files + {x}, content, x, if meta.Some? && meta.value.time > x.timestamp then meta else None)
  {
    var all := files + {x};
    assert Posts(all, x) <= Posts(files, before);
    if meta.Some? && meta.value.time > x.timestamp {
      var newest := Newest(Posts(files, before)).value;
      assert newest in Posts(all, x);
      NewestIs(Posts(all, x), newest);
      NewAnchorTyped(files, content, before, x);
    } else {
      assert forall p :: p in Posts(files, before) ==> p.timestamp <= x.timestamp;
      assert forall p :: p in Posts(all, x) ==> p in Posts(files, before);
      assert Posts(all, x) == {};
    }
  }

  /** A content type newer than the data is in a .meta file that is, too. */
  lemma TypedToo(files: Fileset, data: OnDisk.Info, x: OnDisk.Info)
    requires NotAhead(files) && x in files && x.ext == OnDisk.META && OnDisk.Ctype(x) > data.timestamp
    ensures x in Typed(files, data)
  {
  }

  lemma NewAnchorTyped(files: Fileset, content: Content, before: OnDisk.Info, x: OnDisk.Info)
    requires Good(files + {x}, content) && x.ext != OnDisk.META && before in files && before.timestamp < x.timestamp
    ensures var was, now := Best(Typed(files, before)), Best(Typed(files + {x}, x));
            && (now.Some? ==> now == was)
            && (now.None? && was.Some? ==> OnDisk.Ctype(was.value) < x.timestamp)
  {
    var all := files + {x};
    var was, now := Best(Typed(files, before)), Best(Typed(all, x));
    assert Typed(all, x) <= Typed(files, before);
    if was.Some? && OnDisk.Ctype(was.value) > x.timestamp {
      TypedToo(all, x, was.value);
      BestIs(Typed(all, x), was.value);
    }
    if now.Some? {
      assert now.value in Typed(files, before);
      assert OnDisk.Ctype(was.value) > x.timestamp;
    } else if was.Some? {
      assert was.value.ctype != Some(x.timestamp);
    }
  }

  // ----- a POST -----

  /** What a POST makes of the second section. */
  function PostMerged(meta: Option<Headers>, post: Headers): Headers {
    var postIsNewer := meta.None? || post.time > meta.value.time;
    var newer := if postIsNewer then post else meta.value;
    var older := if postIsNewer then meta else Some(post);
    if older.Some? && CtypeTime(older.value) > CtypeTime(newer)
    then newer.(ctype := older.value.ctype, ctypeTime := older.value.ctypeTime)
    else newer
  }

  lemma PostIs(held: Held, post: Headers)
    requires post.time > held.blob.data.time
    requires post.ctypeTime.Some? ==> post.ctype.Some?
    requires held.blob.meta.Some? && held.blob.meta.value.ctypeTime.Some? ==> held.blob.meta.value.ctype.Some?
    ensures BlobStep(Some(held), PostOp(post)) == Some(held.(blob := Blob(held.blob.data, Some(PostMerged(held.blob.meta, post)))))
  {
  }

  lemma TypedAdd(files: Fileset, content: Content, a: OnDisk.Info, x: OnDisk.Info)
    requires Good(files + {x}, content) && x.ext == OnDisk.META && a in files && a.ext != OnDisk.META && x.timestamp > a.timestamp
    ensures var was, now := Best(Typed(files, a)), Best(Typed(files + {x}, a));
            if OnDisk.Ctype(x) <= a.timestamp then now == was && OnDisk.Ctype(x) < a.timestamp
            else if was.None? || OnDisk.Ctype(x) > OnDisk.Ctype(was.value) then now == Some(x)
            else if OnDisk.Ctype(x) < OnDisk.Ctype(was.value) then now == was
            else now == was || now == Some(x)
  {
    var all := files + {x};
    var was, now := Best(Typed(files, a)), Best(Typed(all, a));
    assert x.ctype != Some(a.timestamp);
    if OnDisk.Ctype(x) <= a.timestamp {
      assert Typed(all, a) == Typed(files, a);
    } else {
      assert x in Typed(all, a);
      assert Typed(files, a) <= Typed(all, a);
      assert now.value == x || now.value in Typed(files, a);
      if now.value != x { BestIs(Typed(files, a), now.value); }
    }
  }

  lemma PostsAdd(files: Fileset, content: Content, a: OnDisk.Info, x: OnDisk.Info)
    requires Good(files + {x}, content) && x.ext == OnDisk.META && a in files && x.timestamp > a.timestamp
    ensures var was, now := Newest(Posts(files, a)), Newest(Posts(files + {x}, a));
            now == if was.Some? && was.value.timestamp >= x.timestamp then was else Some(x)
  {
    var all := files + {x};
    var was := Newest(Posts(files, a));
    assert Posts(all, a) == Posts(files, a) + {x};
    NewestIs(Posts(all, a), if was.Some? && was.value.timestamp >= x.timestamp then was.value else x);
  }

  lemma PostMeta(files: Fileset, content: Content, a: OnDisk.Info, x: OnDisk.Info, meta: Option<Headers>)
    requires Good(files + {x}, content) && x.ext == OnDisk.META && a in files && a.ext != OnDisk.META && x.timestamp > a.timestamp
    requires MetaOk(files, content, a, meta)
    ensures MetaOk(files + {x}, content, a, Some(PostMerged(meta, content(x))))
  {
    TypedAdd(files, content, a, x);
    PostsAdd(files, content, a, x);
    var was := Best(Typed(files, a));
    assert content(x).ctypeTime == x.ctype && content(x).time == x.timestamp;
    if was.Some? {
      assert was.value in Typed(files, a);
      assert content(was.value).ctypeTime == was.value.ctype;
      PostsHaveTyped(files, a);
    }
    hide Best, Newest, Typed;
  }

  lemma PostsHaveTyped(files: Fileset, a: OnDisk.Info)
    requires Typed(files, a) != {}
    ensures Posts(files, a) != {}
  {
    var x :| x in Typed(files, a);
    assert x in Posts(files, a);
  }

  // ----- every operation -----

  lemma AnchorAdd(files: Fileset, content: Content, x: OnDisk.Info)
    requires Good(files + {x}, content)
    ensures var was, now := Anchor(files), Anchor(files + {x});
            now == if x.ext == OnDisk.META || (was.Some? && was.value.timestamp >= x.timestamp) then was else Some(x)
    ensures Anchor(files).Some? ==> Anchor(files).value in files && Anchor(files).value.ext in {OnDisk.DATA, OnDisk.TS}
  {
    var was, all := Anchor(files), files + {x};
    var past, now := Of(files, OnDisk.DATA) + Of(files, OnDisk.TS), Of(all, OnDisk.DATA) + Of(all, OnDisk.TS);
    if x.ext == OnDisk.META {
      assert now == past;
    } else {
      assert now == past + {x};
      NewestIs(now, if was.Some? && was.value.timestamp >= x.timestamp then was.value else x);
    }
  }

  /** A file that is not a newer POST changes nothing after the anchor. */
  lemma NothingAfter(files: Fileset, content: Content, a: OnDisk.Info, x: OnDisk.Info, meta: Option<Headers>)
    requires MetaOk(files, content, a, meta) && (x.ext != OnDisk.META || x.timestamp <= a.timestamp)
    ensures MetaOk(files + {x}, content, a, meta)
  {
    assert Posts(files + {x}, a) == Posts(files, a);
    assert Typed(files + {x}, a) == Typed(files, a);
  }

  lemma FirstWrite(content: Content, op: Operation)
    requires Writes(op) && Raw(op.h.time) > 0 && content(FileOf(op)) == op.h
    ensures BlobOk({FileOf(op)}, content, BlobStep(None, op))
  {
    var x := FileOf(op);
    NewestIs(Of({x}, OnDisk.DATA) + Of({x}, OnDisk.TS), x);
    assert Posts({x}, x) == {};
  }

  lemma WriteStep(files: Fileset, content: Content, held: Held, op: Operation)
    requires Writes(op) && Good(files + {FileOf(op)}, content) && content(FileOf(op)) == op.h
    requires BlobOk(files, content, Some(held)) && (op.h.time != held.blob.data.time ==> Raw(op.h.time) != Raw(held.blob.data.time))
    ensures BlobOk(files + {FileOf(op)}, content, BlobStep(Some(held), op))
  {
    var x, a := FileOf(op), Anchor(files).value;
    AnchorAdd(files, content, x);
    if op.h.time != held.blob.data.time { RawOrder(op.h.time, held.blob.data.time); }
    hide Raw, Good, Anchor, MetaOk;
    ContentTime(files + {x}, content, a);
    if x.timestamp > a.timestamp {
      NewAnchorMeta(files, content, a, x, held.blob.meta);
    } else {
      NothingAfter(files, content, a, x, held.blob.meta);
    }
  }

  lemma ContentTime(files: Fileset, content: Content, x: OnDisk.Info)
    requires Good(files, content) && x in files
    ensures content(x).time == x.timestamp
  {
  }

  lemma PostStep(files: Fileset, content: Content, held: Held, op: Operation)
    requires op.PostOp? && Good(files + {FileOf(op)}, content) && content(FileOf(op)) == op.h && WellMade(op)
    requires BlobOk(files, content, Some(held))
    ensures BlobOk(files + {FileOf(op)}, content, BlobStep(Some(held), op))
  {
    var x, a := FileOf(op), Anchor(files).value;
    AnchorAdd(files, content, x);
    ContentTime(files + {x}, content, a);
    if x.timestamp > a.timestamp {
      PostMeta(files, content, a, x, held.blob.meta);
      PostIs(held, op.h);
    } else {
      NothingAfter(files, content, a, x, held.blob.meta);
    }
    hide Raw, Good, Anchor, PostMerged, Posts, Typed;
  }

  lemma SensibleStep(ops: seq<Operation>, content: Content, op: Operation)
    requires Sensible(ops + [op]) && Stored(ops + [op], content)
    ensures Sensible(ops) && Stored(ops, content) && WellMade(op) && content(FileOf(op)) == op.h
    ensures Good(FilesOf(ops) + {FileOf(op)}, content)
    ensures forall o :: o in ops ==> Compatible(o, op)
  {
    SensibleFiles(ops + [op], content);
    FilesAppend(ops, op);
    forall o | o in ops + [op] ensures WellMade(o) && Compatible(o, op) && content(FileOf(o)) == o.h {
    }
    assert op in ops + [op];
    assert ops == (ops + [op])[..|ops|];
    SensiblePrefix(ops + [op], |ops|);
  }

  /** The closed form of the blob: it depends on the set of operations only. */
  lemma {:induction false} BlobClosed(ops: seq<Operation>, content: Content)
    requires Sensible(ops) && Stored(ops, content) && ops != [] && Writes(ops[0])
    ensures BlobOk(FilesOf(ops), content, BlobFold(ops)) && BlobFold(ops).Some?
    decreases |ops|
  {
    hide Sensible, Stored, Good, Raw, FilesOf, Posts, Typed, Anchor, MetaOk;
    var before, op := ops[..|ops| - 1], Last(ops);
    assert ops == before + [op];
    SensibleStep(before, content, op);
    FilesAppend(before, op);
    if before == [] {
      NoFiles();
      FirstWrite(content, op);
      assert FilesOf(ops) == {FileOf(op)};
    } else {
      assert before[0] == ops[0];
      BlobClosed(before, content);
      var held := BlobFold(before).value;
      if op.PostOp? {
        PostStep(FilesOf(before), content, held, op);
      } else {
        AnchorIsOperation(before, content, held, op);
        WriteStep(FilesOf(before), content, held, op);
      }
      StillHeld(held, op);
    }
  }

  lemma NoFiles()
    ensures FilesOf([]) == {}
  {
  }

  lemma StillHeld(held: Held, op: Operation)
    ensures BlobStep(Some(held), op).Some?
  {
  }

  lemma AnchorIsOperation(ops: seq<Operation>, content: Content, held: Held, op: Operation)
    requires Sensible(ops) && Stored(ops, content) && BlobOk(FilesOf(ops), content, Some(held))
    requires forall o :: o in ops ==> Compatible(o, op)
    ensures op.h.time != held.blob.data.time ==> Raw(op.h.time) != Raw(held.blob.data.time)
  {
    var a := Anchor(FilesOf(ops)).value;
    var o := OperationOf(ops, content, a);
    assert Compatible(o, op);
    hide Raw, Sensible, Stored;
  }

  // ----- the two views -----

  lemma ClosedAt(files: Fileset, content: Content)
    requires Good(files, content) && Anchor(files).Some?
    ensures var a := Anchor(files).value;
            Closed(files) ==
              if a.ext == OnDisk.TS then Choice(None, None, Some(a), None)
              else Choice(Some(a), Newest(Posts(files, a)), None, Best(Typed(files, a)))
    ensures Anchor(files).value in files && Anchor(files).value.ext in {OnDisk.DATA, OnDisk.TS}
  {
    var a := Anchor(files).value;
    assert Typed(files, a) == set x | x in NewerThan(Of(files, OnDisk.META), Some(a)) && OnDisk.Ctype(x) > a.timestamp;
    NewestIs(Of(files, a.ext), a);
    if a.ext == OnDisk.TS {
      var data := Newest(Of(files, OnDisk.DATA));
      assert data.Some? ==> data.value.timestamp <= a.timestamp;
    } else {
      var ts := Newest(Of(files, OnDisk.TS));
      assert ts.Some? ==> ts.value.timestamp < a.timestamp;
    }
  }

  /** Both read the same metadata from the same POSTs. */
  lemma SameMerge(files: Fileset, content: Content, a: OnDisk.Info, meta: Option<Headers>)
    requires Good(files, content) && a in files && a.ext == OnDisk.DATA && content(a).ctype.Some?
    requires MetaOk(files, content, a, meta)
    ensures var newest, best := Newest(Posts(files, a)), Best(Typed(files, a));
            Merged(Blob(content(a), meta)) ==
              Construct(content(a), Read(content, newest), if best == newest then None else Read(content, best))
  {
    var newest, best := Newest(Posts(files, a)), Best(Typed(files, a));
    if meta.Some? {
      var p := newest.value;
      assert p in Posts(files, a);
      assert p.ctype != Some(a.timestamp);
      if best.Some? {
        assert best.value in Typed(files, a);
        if p != best.value { BestBeatsNewest(files, content, a); }
      }
      assert OnDisk.Ctype(p) > a.timestamp ==> p in Typed(files, a);
    } else if best.Some? {
      PostsHaveTyped(files, a);
    }
    hide Posts, Typed, Best, Newest;
  }

  lemma BestBeatsNewest(files: Fileset, content: Content, a: OnDisk.Info)
    requires Good(files, content) && Newest(Posts(files, a)).Some? && Best(Typed(files, a)).Some?
    requires Newest(Posts(files, a)) != Best(Typed(files, a))
    ensures OnDisk.Ctype(Newest(Posts(files, a)).value) < OnDisk.Ctype(Best(Typed(files, a)).value)
  {
    var p, b := Newest(Posts(files, a)).value, Best(Typed(files, a)).value;
    assert OnDisk.Ctype(p) > a.timestamp ==> p in Typed(files, a);
    assert b in Typed(files, a) && b in Posts(files, a);
  }

  lemma ViewsAgree(files: Fileset, content: Content, held: Held)
    requires Good(files, content) && BlobOk(files, content, Some(held))
    requires forall x :: x in files && x.ext == OnDisk.DATA ==> content(x).ctype.Some?
    ensures BlobView(Some(held)) == FilesView(Closed(files), content)
  {
    ClosedAt(files, content);
    var a := Anchor(files).value;
    ContentTime(files, content, a);
    if a.ext == OnDisk.DATA { SameMerge(files, content, a, held.blob.meta); }
    assert held.blob == Blob(content(a), held.blob.meta);
    hide Good, MetaOk, Closed, Anchor, Construct, Merged;
  }

  lemma PutsCarryType(ops: seq<Operation>, content: Content)
    requires Sensible(ops) && Stored(ops, content)
    ensures forall x :: x in FilesOf(ops) && x.ext == OnDisk.DATA ==> content(x).ctype.Some?
  {
    hide Sensible, Stored, FilesOf;
    forall x | x in FilesOf(ops) && x.ext == OnDisk.DATA ensures content(x).ctype.Some? {
      var op := OperationOf(ops, content, x);
    }
  }

  /** The backends agree: after any operations that begin with a PUT or DELETE,
      the blob shows what the reference's cleaned directory shows. */
  lemma BackendsAgree(ops: seq<Operation>, content: Content)
    requires Sensible(ops) && Stored(ops, content) && ops != [] && Writes(ops[0])
    ensures BlobView(BlobFold(ops)) == FilesView(Chosen(CleanedFold(ops)), content)
  {
    hide Sensible, Stored, Good, Chosen, Closed, BlobView, FilesView, BlobOk;
    SensibleFiles(ops, content);
    FilesProper(ops);
    BlobClosed(ops, content);
    PutsCarryType(ops, content);
    ViewsAgree(FilesOf(ops), content, BlobFold(ops).value);
    ChosenIsClosed(FilesOf(ops));
    assert FilesOf(ops) + {} == FilesOf(ops) && CleanedFold(ops) + {} == CleanedFold(ops);
    CleaningIsInvisible(ops, {});
  }

  /** Any two orders of the same operations that begin with a PUT or DELETE end in the same view. */
  lemma OrderDoesNotMatter(a: seq<Operation>, b: seq<Operation>, content: Content)
    requires Sensible(a) && Stored(a, content) && a != [] && Writes(a[0])
    requires b != [] && Writes(b[0]) && (forall op :: op in a <==> op in b)
    ensures BlobView(BlobFold(a)) == BlobView(BlobFold(b))
    ensures FilesView(Chosen(CleanedFold(a)), content) == FilesView(Chosen(CleanedFold(b)), content)
  {
    assert FilesOf(a) == FilesOf(b);
    BackendsAgree(a, content);
    BackendsAgree(b, content);
    ShownByFiles(a, content);
    ShownByFiles(b, content);
    hide BlobView, FilesView, Chosen;
  }

  /** The view in closed form: what the set of all files ever written shows. */
  lemma ShownByFiles(ops: seq<Operation>, content: Content)
    requires Sensible(ops) && Stored(ops, content) && ops != [] && Writes(ops[0])
    ensures BlobView(BlobFold(ops)) == FilesView(Closed(FilesOf(ops)), content)
  {
    hide Sensible, Stored, Good, Chosen, Closed, BlobView, FilesView, BlobOk;
    SensibleFiles(ops, content);
    BlobClosed(ops, content);
    PutsCarryType(ops, content);
    ViewsAgree(FilesOf(ops), content, BlobFold(ops).value);
  }

  // ----- what is in the files -----

  /** What the operations wrote: the one that made the file. */
  function ContentOf(ops: seq<Operation>, x: OnDisk.Info): Headers {
    if ops == [] then Headers(0, None, None, map[])
    else if FileOf(Last(ops)) == x then Last(ops).h
    else ContentOf(ops[..|ops| - 1], x)
  }

  lemma {:induction false} ContentIsStored(ops: seq<Operation>, op: Operation)
    requires Sensible(ops) && op in ops
    ensures ContentOf(ops, FileOf(op)) == op.h
    decreases |ops|
  {
    var before := ops[..|ops| - 1];
    assert ops == before + [Last(ops)];
    if FileOf(Last(ops)) == FileOf(op) {
      assert Compatible(Last(ops), op);
    } else {
      SensiblePrefix(ops, |ops| - 1);
      ContentIsStored(before, op);
    }
  }

  /** BackendsAgree, of the files the operations themselves write. */
  lemma BackendsAgreeOnOwnFiles(ops: seq<Operation>)
    requires Sensible(ops) && ops != [] && Writes(ops[0])
    ensures BlobView(BlobFold(ops)) == FilesView(Chosen(CleanedFold(ops)), x => ContentOf(ops, x))
  {
    hide Sensible, ContentOf, BlobView, FilesView, Chosen;
    forall op | op in ops ensures ContentOf(ops, FileOf(op)) == op.h {
      ContentIsStored(ops, op);
    }
    BackendsAgree(ops, x => ContentOf(ops, x));
  }

  // ----- such operations there are -----

  /** A PUT, a POST that changes the content type, and a POST that does not. */
  function TwoPosts(first: string, second: string, x: map<string, string>, y: map<string, string>): seq<Operation> {
    [PutOp(Headers(FromRaw(1), Some(first), None, map[])),
     PostOp(Headers(FromRaw(3), Some(second), Some(FromRaw(2)), x)),
     PostOp(Headers(FromRaw(4), None, None, y))]
  }

  lemma Ticks(raw: nat)
    ensures Raw(FromRaw(raw)) == raw
  {
  }

  lemma TwoPostsSensible(first: string, second: string, x: map<string, string>, y: map<string, string>)
    ensures Sensible(TwoPosts(first, second, x, y))
  {
    Ticks(1);
    Ticks(3);
    Ticks(4);
    hide Raw;
  }

  /** A content type outlives the POST that set it, and the view is the newest POST's. */
  lemma TypeOutlivesItsPost(first: string, second: string, x: map<string, string>, y: map<string, string>)
    ensures var ops := TwoPosts(first, second, x, y);
            && Sensible(ops)
            && var shown := FilesView(Chosen(CleanedFold(ops)), f => ContentOf(ops, f));
               shown.Present? && shown.dataTime == FromRaw(1) && shown.merged.time == FromRaw(4) && shown.merged.ctype == Some(second)
  {
    var ops := TwoPosts(first, second, x, y);
    TwoPostsSensible(first, second, x, y);
    BackendsAgreeOnOwnFiles(ops);
    Ticks(1);
    Ticks(3);
    Ticks(4);
    hide Raw, Sensible, FilesView, Chosen, CleanedFold, ContentOf;
    assert BlobFold(ops[..1]) == BlobStep(BlobFold([]), ops[0]) by { assert ops[..1][..0] == []; }
    assert BlobFold(ops[..2]) == BlobStep(BlobFold(ops[..1]), ops[1]) by { assert ops[..2][..1] == ops[..1]; }
    assert BlobFold(ops) == BlobStep(BlobFold(ops[..2]), ops[2]);
  }
}
