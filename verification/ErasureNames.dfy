/** File names of erasure-coded data: timestamp#index.data, or
    timestamp#index#d.data once the fragment is durable. */
module ErasureNames {
  import opened Base
  import opened Metadata

  datatype Result<T> = Ok(value: T) | DiskFileError

  /** A Timestamp's internal form and how it is read. */
  datatype Codec = Codec(internal: Time -> string, parse: string -> Option<Time>)

  ghost predicate RoundTrips(codec: Codec) {
    forall t: Time :: codec.parse(codec.internal(t)) == Some(t) && '#' !in codec.internal(t)
  }

  datatype Policy = Policy(data: nat, parity: nat)

  datatype Name = Name(timestamp: Time, frag: nat, durable: bool)

  // ----- Python's str and int -----

  function Digit(d: nat): char
    requires d < 10
  {
    ('0' as int + d) as char
  }

  predicate IsDigit(c: char) { '0' <= c <= '9' }

  function Decimal(n: nat): string { if n < 10 then [Digit(n)] else Decimal(n / 10) + [Digit(n % 10)] }

  function Str(i: int): string { if i < 0 then "-" + Decimal(-i) else Decimal(i) }

  /** Digits, with single underscores allowed between them. */
  function Number(s: string): Option<nat>
    decreases |s|
  {
    if s == [] || !IsDigit(Last(s)) then None
    else
      var digit := Last(s) as int - '0' as int;
      if |s| == 1 then Some(digit)
      else
        var before := Number(if s[|s| - 2] == '_' then s[..|s| - 2] else s[..|s| - 1]);
        if before.None? then None else Some(before.value * 10 + digit)
  }

  predicate IsSpace(c: char) { c in " \t\n\r\U{0B}\U{0C}" }

  function Strip(s: string): string
    decreases |s|
  {
    if s != [] && IsSpace(s[0]) then Strip(s[1..])
    else if s != [] && IsSpace(Last(s)) then Strip(s[..|s| - 1])
    else s
  }

  function Int(text: string): Option<int> {
    var s := Strip(text);
    if s == [] then None
    else if s[0] == '-' then Signed(-1, Number(s[1..]))
    else if s[0] == '+' then Signed(1, Number(s[1..]))
    else Signed(1, Number(s))
  }

  function Signed(sign: int, n: Option<nat>): Option<int> {
    match n
    case None => None
    case Some(digits) => Some(sign * digits)
  }

  // ----- splitting -----

  function LastDot(s: string): Option<nat>
    ensures LastDot(s).Some? ==> LastDot(s).value < |s| && s[LastDot(s).value] == '.'
  {
    if |s| == 0 then None else if s[|s| - 1] == '.' then Some(|s| - 1) else LastDot(s[..|s| - 1])
  }

  /** os.path.splitext of a name without slashes: leading dots are not an extension. */
  function SplitExt(name: string): (string, string) {
    var dot := LastDot(name);
    if dot.None? || (forall i :: 0 <= i < dot.value ==> name[i] == '.') then (name, "")
    else (name[..dot.value], name[dot.value..])
  }

  function IndexOf(s: string, c: char): (i: nat)
    ensures i <= |s| && c !in s[..i] && (i < |s| ==> s[i] == c)
  {
    if s == [] || s[0] == c then 0
    else
      var i := IndexOf(s[1..], c);
      assert s[..i + 1] == [s[0]] + s[1..][..i];
      i + 1
  }

  function Split(s: string, c: char): seq<string>
    decreases |s|
  {
    var i := IndexOf(s, c);
    if i == |s| then [s] else [s[..i]] + Split(s[i + 1..], c)
  }

  // ----- the codec -----

  /** A fragment index as it is given: a number, a text, or none at all. */
  datatype Given = Absent | Whole(i: int) | Text(s: string)

  function Validate(given: Given, policy: Option<Policy>): Result<nat> {
    var text := match given case Absent => "None" case Whole(i) => Str(i) case Text(s) => s;
    var i := Int(text);
    if i.None? || i.value < 0 then DiskFileError
    else if policy.Some? && i.value >= policy.value.data + policy.value.parity then DiskFileError
    else Ok(i.value)
  }

  function Make(codec: Codec, timestamp: Time, given: Given, durable: bool): Result<string> {
    match Validate(given, None)
    case DiskFileError => DiskFileError
    case Ok(i) => Ok(codec.internal(timestamp) + "#" + Str(i) + (if durable then "#d" else "") + ".data")
  }

  /** For .data names; others are left to the replicated policy. */
  function Parse(codec: Codec, name: string, policy: Option<Policy>): Option<Result<Name>> {
    var (root, ext) := SplitExt(name);
    if ext != ".data" then None
    else
      var parts := Split(root, '#');
      match codec.parse(parts[0])
      case None => Some(DiskFileError)
      case Some(timestamp) =>
        match Validate(if |parts| > 1 then Text(parts[1]) else Absent, policy)
        case DiskFileError => Some(DiskFileError)
        case Ok(i) => Some(Ok(Name(timestamp, i, |parts| > 2 && parts[2] == "d")))
  }

  // ----- a number and its digits -----

  predicate AllDigits(s: string) { s != [] && forall c :: c in s ==> IsDigit(c) }

  lemma {:induction false} DecimalOk(n: nat)
    ensures AllDigits(Decimal(n)) && Number(Decimal(n)) == Some(n)
    decreases n
  {
    if n >= 10 {
      DecimalOk(n / 10);
      var s := Decimal(n);
      assert s[..|s| - 1] == Decimal(n / 10);
      assert s[|s| - 2] in Decimal(n / 10);
      assert Last(s) == Digit(n % 10);
    } else {
      assert Decimal(n) == [Digit(n)];
    }
  }

  lemma DigitsStripped(s: string)
    requires AllDigits(s)
    ensures Strip(s) == s
  {
    assert s[0] in s && Last(s) in s;
  }

  lemma IntOfStr(i: int)
    ensures Int(Str(i)) == Some(i)
  {
    if i >= 0 {
      DecimalOk(i);
      DigitsStripped(Decimal(i));
      assert Decimal(i)[0] in Decimal(i);
    } else {
      DecimalOk(-i);
      var s := Str(i);
      assert s[1..] == Decimal(-i);
      assert Last(s) == Last(Decimal(-i)) && Last(Decimal(-i)) in Decimal(-i);
      assert Strip(s) == s;
    }
  }

  // ----- the round trip -----

  lemma {:induction false} LastDotIs(s: string, ext: string)
    requires |ext| > 0 && ext[0] == '.' && '.' !in ext[1..]
    ensures LastDot(s + ext) == Some(|s|)
    decreases |ext|
  {
    if |ext| == 1 {
      assert Last(s + ext) == '.';
    } else {
      var shorter := ext[..|ext| - 1];
      assert Last(ext) in ext[1..];
      assert (s + ext)[..|s + ext| - 1] == s + shorter;
      assert shorter[1..] == ext[1..][..|ext| - 2];
      LastDotIs(s, shorter);
    }
  }

  lemma SplitExtIs(root: string)
    requires '#' in root
    ensures SplitExt(root + ".data") == (root, ".data")
  {
    LastDotIs(root, ".data");
    var name := root + ".data";
    var i :| 0 <= i < |root| && root[i] == '#';
    assert name[i] == '#';
  }

  lemma {:induction false} IndexIs(s: string, c: char, k: nat)
    requires k <= |s| && (forall i :: 0 <= i < k ==> s[i] != c) && (k < |s| ==> s[k] == c)
    ensures IndexOf(s, c) == k
    decreases |s|
  {
    if k > 0 {
      assert s[0] != c;
      IndexIs(s[1..], c, k - 1);
    }
  }

  lemma SplitTwo(a: string, b: string)
    requires '#' !in a
    ensures Split(a + "#" + b, '#') == [a] + Split(b, '#')
  {
    var s := a + "#" + b;
    assert forall i :: 0 <= i < |a| ==> s[i] == a[i] && a[i] in a;
    IndexIs(s, '#', |a|);
    assert s[..|a|] == a && s[|a| + 1..] == b;
  }

  lemma SplitOne(a: string)
    requires '#' !in a
    ensures Split(a, '#') == [a]
  {
    assert forall i :: 0 <= i < |a| ==> a[i] in a;
    IndexIs(a, '#', |a|);
  }

  lemma NoHash(i: nat)
    ensures '#' !in Str(i)
  {
    DecimalOk(i);
  }

  lemma PartsAre(timestamp: string, index: string, durable: bool)
    requires '#' !in timestamp && '#' !in index
    ensures Split(timestamp + "#" + index + (if durable then "#d" else ""), '#') == [timestamp, index] + (if durable then ["d"] else [])
  {
    var root := timestamp + "#" + index + (if durable then "#d" else "");
    if durable {
      assert root == timestamp + "#" + (index + "#" + "d");
      SplitTwo(timestamp, index + "#" + "d");
      SplitTwo(index, "d");
      SplitOne("d");
    } else {
      assert root == timestamp + "#" + index;
      SplitTwo(timestamp, index);
      SplitOne(index);
    }
  }

  /** A name that was made is read back as it was made, unless the policy has no
      such fragment, and then it is refused. */
  lemma RoundTrip(codec: Codec, timestamp: Time, i: nat, durable: bool, policy: Option<Policy>)
    requires RoundTrips(codec)
    ensures Make(codec, timestamp, Whole(i), durable).Ok?
    ensures Parse(codec, Make(codec, timestamp, Whole(i), durable).value, policy) ==
              Some(if policy.Some? && i >= policy.value.data + policy.value.parity then DiskFileError else Ok(Name(timestamp, i, durable)))
  {
    hide Str, Int, Split, SplitExt, Make;
    var t, index := codec.internal(timestamp), Str(i);
    var root := t + "#" + index + (if durable then "#d" else "");
    MadeIs(codec, timestamp, i, durable);
    IntOfStr(i);
    NoHash(i);
    assert root[|t|] == '#';
    SplitExtIs(root);
    PartsAre(t, index, durable);
  }

  lemma MadeIs(codec: Codec, timestamp: Time, i: nat, durable: bool)
    ensures Make(codec, timestamp, Whole(i), durable) ==
              Ok((codec.internal(timestamp) + "#" + Str(i) + (if durable then "#d" else "")) + ".data")
  {
    IntOfStr(i);
    hide Str, Int;
  }

  /** So different fragments, timestamps and marks have different names. */
  lemma NamesDiffer(codec: Codec, a: Name, b: Name)
    requires RoundTrips(codec)
    requires Make(codec, a.timestamp, Whole(a.frag), a.durable) == Make(codec, b.timestamp, Whole(b.frag), b.durable)
    ensures a == b
  {
    RoundTrip(codec, a.timestamp, a.frag, a.durable, None);
    RoundTrip(codec, b.timestamp, b.frag, b.durable, None);
    hide Make, Parse;
  }

  /** No negative index, and none that is missing, gets a name. */
  lemma BadIndexes(codec: Codec, timestamp: Time, i: int, durable: bool)
    ensures Make(codec, timestamp, Absent, durable) == DiskFileError
    ensures i < 0 ==> Make(codec, timestamp, Whole(i), durable) == DiskFileError
  {
    IntOfStr(i);
    assert Strip("None") == "None";
    assert Last("None") == 'e';
    hide Str;
  }
}
