/** Swift's metadata rules (metadata.py). A blob keeps what the PUT or DELETE
    wrote apart from what the newest POST wrote; the two are merged when read. */
module Metadata {
  import opened Base

  /** A Swift Timestamp: ticks of 10 microseconds, then an offset of up to 16
      hexadecimal digits. Comparing these numbers is comparing Timestamps. */
  type Time = nat

  const OFFSETS: nat := 0x1_0000_0000_0000_0000

  /** Timestamp.raw: the ticks without the offset. */
  function Raw(time: Time): nat { time / OFFSETS }

  function FromRaw(raw: nat): Time { raw * OFFSETS }

  /** One metadata dictionary. The three keys the rules read have fields of
      their own; `items` holds all others. */
  datatype Headers = Headers(
    time: Time,                // X-Timestamp
    ctype: Option<string>,     // Content-Type
    ctypeTime: Option<Time>,   // Content-Type-Timestamp
    items: map<string, string>)

  function LowerChar(c: char): char {
    if 'A' <= c <= 'Z' then ((c as int) + 32) as char else c
  }

  function Lower(s: string): string { seq(|s|, i requires 0 <= i < |s| => LowerChar(s[i])) }

  const SYSMETA_PREFIX: string := "x-object-sysmeta-"

  /** What a POST can never change: the reserved and system keys, and system metadata. */
  predicate IsSystem(key: string) {
    var low := Lower(key);
    || low in {"content-length", "deleted", "etag", "x-static-large-object"}
    || (|low| > |SYSMETA_PREFIX| && SYSMETA_PREFIX <= low)
  }

  function SystemItems(items: map<string, string>): map<string, string> {
    map key | key in items && IsSystem(key) :: items[key]
  }

  function CtypeTime(h: Headers): Time { h.ctypeTime.GetOr(0) }

  function Merge(data: Headers, meta: Headers): Headers {
    var merged := meta.(items := meta.items + SystemItems(data.items));
    if data.ctype.Some? && data.time > CtypeTime(meta) then
      merged.(ctype := data.ctype, ctypeTime := None)
    else
      merged
  }

  /** A POST's items are shown, but for what it can never change, which is the PUT's. */
  lemma MergedItems(data: Headers, meta: Headers, key: string)
    ensures var merged := Merge(data, meta).items;
            && (key in merged <==> key in meta.items || (key in data.items && IsSystem(key)))
            && (key in data.items && IsSystem(key) ==> merged[key] == data.items[key])
            && (key in meta.items && !(key in data.items && IsSystem(key)) ==> merged[key] == meta.items[key])
  {
    hide IsSystem;
  }

  lemma LowerTwice(s: string)
    ensures Lower(Lower(s)) == Lower(s)
  {
    forall i | 0 <= i < |s| ensures Lower(Lower(s))[i] == Lower(s)[i] {
      assert !('A' <= LowerChar(s[i]) <= 'Z');
    }
  }

  /** Which keys those are, whatever their case; a user's own are not among them. */
  lemma SystemKeys(key: string, rest: string)
    ensures IsSystem(key) <==> IsSystem(Lower(key))
    ensures IsSystem("ETag") && IsSystem("Content-Length") && IsSystem("X-Object-Sysmeta-A")
    ensures IsSystem("content-length") && IsSystem("deleted") && IsSystem("etag") && IsSystem("x-static-large-object")
    ensures rest != "" <==> IsSystem("x-object-sysmeta-" + rest)
    ensures !IsSystem("x-object-meta-" + rest) && !IsSystem("content-encoding")
  {
    AnyCase(key);
    NamedKeys();
    SysmetaKeys(rest);
    NotSysmeta(rest);
    Spelled();
    hide IsSystem;
  }

  lemma AnyCase(key: string)
    ensures IsSystem(key) <==> IsSystem(Lower(key))
  {
    LowerTwice(key);
  }

  lemma NamedKeys()
    ensures IsSystem("content-length") && IsSystem("deleted") && IsSystem("etag") && IsSystem("x-static-large-object")
    ensures !IsSystem("content-encoding")
  {
    LowerIs("content-length");
    LowerIs("deleted");
    LowerIs("etag");
    LowerIs("x-static-large-object");
    LowerIs("content-encoding");
  }

  lemma SysmetaKeys(rest: string)
    ensures rest != "" <==> IsSystem("x-object-sysmeta-" + rest)
  {
    LowerStarts("x-object-sysmeta-", rest);
    var low := Lower("x-object-sysmeta-" + rest);
    assert low == SYSMETA_PREFIX + Lower(rest) && low[..|SYSMETA_PREFIX|] == SYSMETA_PREFIX;
    assert low[0] == 'x' && low[1] == '-' && low[2] == 'o';
  }

  lemma Spelled()
    ensures IsSystem("ETag") && IsSystem("Content-Length") && IsSystem("X-Object-Sysmeta-A")
  {
    assert Lower("ETag") == "etag";
    assert Lower("Content-Length") == "content-length";
    var low := Lower("X-Object-Sysmeta-A");
    assert low == "x-object-sysmeta-a" && low[..|SYSMETA_PREFIX|] == SYSMETA_PREFIX;
  }

  lemma NotSysmeta(rest: string)
    ensures !IsSystem("x-object-meta-" + rest)
  {
    LowerStarts("x-object-meta-", rest);
    var low := Lower("x-object-meta-" + rest);
    assert low[0] == 'x' && low[1] == '-' && low[2] == 'o' && low[9] == 'm';
    assert SYSMETA_PREFIX[9] == 's';
  }

  /** A key in lower case is its own lower case. */
  lemma LowerIs(s: string)
    requires forall c :: c in s ==> !('A' <= c <= 'Z')
    ensures Lower(s) == s
  {
    assert |Lower(s)| == |s|;
    forall i | 0 <= i < |s| ensures Lower(s)[i] == s[i] { assert s[i] in s; }
  }

  lemma LowerStarts(prefix: string, rest: string)
    requires forall c :: c in prefix ==> !('A' <= c <= 'Z')
    ensures Lower(prefix + rest) == prefix + Lower(rest)
  {
    var all := prefix + rest;
    assert |Lower(all)| == |prefix + Lower(rest)|;
    forall i | 0 <= i < |all| ensures Lower(all)[i] == (prefix + Lower(rest))[i] {
      if i < |prefix| { assert all[i] == prefix[i] && prefix[i] in prefix; } else { assert all[i] == rest[i - |prefix|]; }
    }
  }

  /** The blob stored in an entry's map header: its two sections. */
  datatype Blob = Blob(data: Headers, meta: Option<Headers>)

  function Merged(b: Blob): Headers {
    if b.meta.None? then b.data else Merge(b.data, b.meta.value)
  }

  /** What MetadataModel.get answers. */
  datatype Got = Got(data: Headers, meta: Option<Headers>, merged: Headers, metaTs: Time, dataTs: Time, typeTs: Time)

  function Get(b: Blob): Got {
    var merged := Merged(b);
    Got(b.data, b.meta, merged, merged.time, b.data.time, merged.ctypeTime.GetOr(b.data.time))
  }

  function Put(prev: Option<Got>, data: Headers): Blob {
    if prev.Some? && prev.value.meta.Some? && prev.value.meta.value.time > data.time then
      Blob(data, prev.value.meta)
    else
      Blob(data, None)
  }

  /** Without metadata of its own, a tombstone carries only the operation's timestamp. */
  function TombstoneHeaders(raw: nat, meta: Option<Headers>): Headers {
    meta.GetOr(Headers(FromRaw(raw), None, None, map[]))
  }

  function Delete(prev: Option<Got>, raw: nat, meta: Option<Headers>): Blob {
    Put(prev, TombstoneHeaders(raw, meta))
  }

  /** KeyError is the exception raised when a Content-Type-Timestamp comes without a Content-Type. */
  datatype PostResult = Unchanged | KeyError | Rewrite(blob: Blob)

  function Post(prev: Option<Got>, post: Headers): PostResult {
    if prev.None? || post.time <= prev.value.dataTs then
      Unchanged
    else
      var meta := prev.value.meta;
      var postIsNewer := meta.None? || post.time > meta.value.time;
      var newer := if postIsNewer then post else meta.value;
      var older := if postIsNewer then meta else Some(post);
      if older.Some? && CtypeTime(older.value) > CtypeTime(newer) then
        if older.value.ctype.None? then
          KeyError
        else
          Rewritten(prev.value, newer.(ctype := older.value.ctype, ctypeTime := older.value.ctypeTime))
      else
        Rewritten(prev.value, newer)
  }

  function Rewritten(prev: Got, merged: Headers): PostResult {
    if Some(merged) == prev.meta then Unchanged else Rewrite(Blob(prev.data, Some(merged)))
  }

  /** The earlier of two dates a content type later than the other does, and does not name it. */
  predicate Typeless(late: Headers, early: Headers) { CtypeTime(early) > CtypeTime(late) && early.ctype.None? }

  /** A POST is dropped exactly if there is nothing it could be on or it brings
      nothing newer, be it items or a content type; and it is refused exactly if
      the content type to be taken over is dated but not named. */
  lemma PostAnswers(prev: Option<Got>, post: Headers)
    ensures Post(prev, post) == Unchanged <==>
            || prev.None? || post.time <= prev.value.dataTs
            || (prev.value.meta.Some? && post.time <= prev.value.meta.value.time && CtypeTime(post) <= CtypeTime(prev.value.meta.value))
    ensures Post(prev, post) == KeyError <==>
            && prev.Some? && post.time > prev.value.dataTs && prev.value.meta.Some?
            && var meta := prev.value.meta.value;
            if post.time > meta.time then Typeless(post, meta) else Typeless(meta, post)
  {
    if prev.Some? && prev.value.meta.Some? {
      var meta := prev.value.meta.value;
      assert CtypeTime(post) != CtypeTime(meta) ==> meta.(ctype := post.ctype, ctypeTime := post.ctypeTime) != meta;
    }
  }
}
