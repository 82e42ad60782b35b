/**
 Opaque page cursors: base64url (sections 4 and 5 of RFC 4648) of a JSON object, with
 the padding stripped on the way out and restored from the length on the way in.
 */
module Cursor {
  import opened Options

  type Byte = n: int | 0 <= n < 256

  // ---- base64url --------------------------------------------------------------------------

  /** Digit n of the URL-safe alphabet. */
  function Digit(n: int): char
    requires 0 <= n < 64
  {
    if n < 26 then ('A' as int + n) as char
    else if n < 52 then ('a' as int + n - 26) as char
    else if n < 62 then ('0' as int + n - 52) as char
    else if n == 62 then '-' else '_'
  }

  /** The decoder maps '-' and '_' to '+' and '/' first, so it knows both alphabets. */
  function DigitValue(c: char): (r: Option<int>)
    ensures r.Some? ==> 0 <= r.value < 64
  {
    if 'A' <= c <= 'Z' then Some(c as int - 'A' as int)
    else if 'a' <= c <= 'z' then Some(c as int - 'a' as int + 26)
    else if '0' <= c <= '9' then Some(c as int - '0' as int + 52)
    else if c == '-' || c == '+' then Some(62)
    else if c == '_' || c == '/' then Some(63)
    else None
  }

  lemma DigitRoundTrip(n: int)
    requires 0 <= n < 64
    ensures DigitValue(Digit(n)) == Some(n) && Digit(n) != '=' && Digit(n) < 128 as char
  {
  }

  /** The URL-safe alphabet of RFC 4648, section 5. */
  const ALPHABET := "ABCDEFGHIJKLMNOPQRSTUVWXYZ" + "abcdefghijklmnopqrstuvwxyz" + "0123456789-_"

  lemma DigitsOfTheAlphabet(n: int)
    requires 0 <= n < 64
    ensures |ALPHABET| == 64 && Digit(n) == ALPHABET[n]
  {
    var upper, lower, rest := "ABCDEFGHIJKLMNOPQRSTUVWXYZ", "abcdefghijklmnopqrstuvwxyz", "0123456789-_";
    if n < 26 {
      assert Digit(n) == upper[n];
    } else if n < 52 {
      assert Digit(n) == lower[n - 26];
    } else {
      assert Digit(n) == rest[n - 52];
    }
  }

  /** The decoder reads that alphabet and the other one of the RFC, and nothing else. */
  lemma DigitsRead(c: char, n: int)
    requires 0 <= n < 64
    ensures DigitValue(c) == Some(n) <==> c == ALPHABET[n] || (n == 62 && c == '+') || (n == 63 && c == '/')
  {
    DigitsOfTheAlphabet(n);
    DigitRoundTrip(n);
  }

  function Triple(x: Byte, y: Byte, z: Byte): string {
    [Digit(x / 4), Digit(x % 4 * 16 + y / 16), Digit(y % 16 * 4 + z / 64), Digit(z % 64)]
  }

  function Pair(x: Byte, y: Byte): string {
    [Digit(x / 4), Digit(x % 4 * 16 + y / 16), Digit(y % 16 * 4), '=']
  }

  function Single(x: Byte): string {
    [Digit(x / 4), Digit(x % 4 * 16), '=', '=']
  }

  /** Three bytes become four digits; one or two trailing bytes are padded with '='. */
  function Encode64(b: seq<Byte>): string {
    if |b| == 0 then ""
    else if |b| == 1 then Single(b[0])
    else if |b| == 2 then Pair(b[0], b[1])
    else Triple(b[0], b[1], b[2]) + Encode64(b[3..])
  }

  /** The number that four digits write in base 64. */
  function NumberOf(a: char, b: char, c: char, d: char): Option<int> {
    var w, x, y, z := DigitValue(a), DigitValue(b), DigitValue(c), DigitValue(d);
    if w.Some? && x.Some? && y.Some? && z.Some?
    then Some(((w.value * 64 + x.value) * 64 + y.value) * 64 + z.value) else None
  }

  /** Four digits write the number that three bytes write in base 256; fewer bytes are filled up with zero bits. */
  lemma GroupsAreNumbers(x: Byte, y: Byte, z: Byte)
    ensures var g := Triple(x, y, z); |g| == 4 && NumberOf(g[0], g[1], g[2], g[3]) == Some((x * 256 + y) * 256 + z)
    ensures Pair(x, y) == Triple(x, y, 0)[..3] + "="
    ensures Single(x) == Triple(x, 0, 0)[..2] + "=="
  {
    DigitRoundTrip(x / 4);
    DigitRoundTrip(x % 4 * 16 + y / 16);
    DigitRoundTrip(y % 16 * 4 + z / 64);
    DigitRoundTrip(z % 64);
  }

  function StripPadding(s: string): string {
    if s != "" && s[|s| - 1] == '=' then StripPadding(s[..|s| - 1]) else s
  }

  function Equals(n: nat): string {
    if n == 0 then "" else "=" + Equals(n - 1)
  }

  function RestorePadding(s: string): string {
    s + Equals(-|s| % 4)
  }

  lemma StripSingle(x: Byte)
    ensures RestorePadding(StripPadding(Single(x))) == Single(x)
  {
    var e := Single(x);
    DigitRoundTrip(x % 4 * 16);
    assert StripPadding(e) == StripPadding(e[..3]);
    assert StripPadding(e[..3]) == StripPadding(e[..3][..2]);
    assert StripPadding(e[..3][..2]) == e[..3][..2];
    assert Equals(2) == "=" + Equals(1) && Equals(1) == "=" + Equals(0);
    assert e[..3][..2] + ("=" + ("=" + "")) == e;
  }

  lemma StripPair(x: Byte, y: Byte)
    ensures RestorePadding(StripPadding(Pair(x, y))) == Pair(x, y)
  {
    var e := Pair(x, y);
    DigitRoundTrip(y % 16 * 4);
    assert StripPadding(e) == StripPadding(e[..3]) == e[..3];
    assert Equals(1) == "=" + Equals(0);
    assert e[..3] + ("=" + "") == e;
  }

  lemma RestoreAfterGroup(group: string, rest: string)
    requires |group| == 4
    ensures RestorePadding(group + rest) == group + RestorePadding(rest)
  {
    assert -|group + rest| % 4 == -|rest| % 4;
    assert group + rest + Equals(-|rest| % 4) == group + (rest + Equals(-|rest| % 4));
  }

  /** Stripping the padding of an encoding leaves a length that says how much to put back. */
  lemma {:induction false} PaddingRoundTrip(b: seq<Byte>)
    ensures RestorePadding(StripPadding(Encode64(b))) == Encode64(b)
  {
    if |b| == 0 {
      assert Equals(0) == "";
    } else if |b| == 1 {
      StripSingle(b[0]);
    } else if |b| == 2 {
      StripPair(b[0], b[1]);
    } else {
      var group := Triple(b[0], b[1], b[2]);
      var rest := Encode64(b[3..]);
      DigitRoundTrip(b[2] % 64);
      PaddingRoundTrip(b[3..]);
      StripAfterGroup(group, rest);
      RestoreAfterGroup(group, StripPadding(rest));
    }
  }

  lemma {:induction false} StripAfterGroup(group: string, rest: string)
    requires group != "" && group[|group| - 1] != '='
    ensures StripPadding(group + rest) == group + StripPadding(rest)
  {
    if rest == "" {
      assert group + rest == group;
    } else if rest[|rest| - 1] == '=' {
      StripAfterGroup(group, rest[..|rest| - 1]);
      assert (group + rest)[..|group + rest| - 1] == group + rest[..|rest| - 1];
    }
  }

  /**
   The decoder's scan: position in the current group of four, bits carried over, '='
   signs seen since the last digit, bytes produced. Characters outside the alphabet are
   skipped, and a complete padding ends the input.
   */
  datatype Scan = Scan(pos: nat, carry: nat, pads: nat, out: seq<Byte>, ended: bool) {
    predicate Valid() {
      && pos < 4
      && (pos == 0 ==> carry == 0) && (pos == 1 ==> carry < 64)
      && (pos == 2 ==> carry < 16) && (pos == 3 ==> carry < 4)
    }
  }

  const ScanStart := Scan(0, 0, 0, [], false)

  function FeedDigit(s: Scan, d: int): (r: Scan)
    requires s.Valid() && 0 <= d < 64
    ensures r.Valid()
  {
    if s.pos == 0 then Scan(1, d, 0, s.out, false)
    else if s.pos == 1 then Scan(2, d % 16, 0, s.out + [s.carry * 4 + d / 16], false)
    else if s.pos == 2 then Scan(3, d % 4, 0, s.out + [s.carry * 16 + d / 4], false)
    else Scan(0, 0, 0, s.out + [s.carry * 64 + d], false)
  }

  function FeedPad(s: Scan): (r: Scan)
    requires s.Valid()
    ensures r.Valid()
  {
    if s.pos < 2 then s
    else s.(pads := s.pads + 1, ended := s.pos + s.pads + 1 >= 4)
  }

  function Feed(s: Scan, c: char): (r: Scan)
    requires s.Valid()
    ensures r.Valid()
  {
    if s.ended then s
    else if c == '=' then FeedPad(s)
    else match DigitValue(c)
      case None => s
      case Some(d) => FeedDigit(s, d)
  }

  function FeedAll(s: Scan, text: string): (r: Scan)
    requires s.Valid()
    ensures r.Valid()
    decreases |text|
  {
    if text == "" then s else FeedAll(Feed(s, text[0]), text[1..])
  }

  /** None is the decoder's "incorrect padding" error. */
  function Decode64(text: string): Option<seq<Byte>> {
    var end := FeedAll(ScanStart, text);
    if end.ended || end.pos == 0 then Some(end.out) else None
  }

  lemma {:induction false} FeedConcat(s: Scan, a: string, b: string)
    requires s.Valid()
    ensures FeedAll(s, a + b) == FeedAll(FeedAll(s, a), b)
    decreases |a|
  {
    if a == "" {
      assert a + b == b;
    } else {
      FeedConcat(Feed(s, a[0]), a[1..], b);
      assert (a + b)[1..] == a[1..] + b;
    }
  }

  lemma FeedFour(s: Scan, c0: char, c1: char, c2: char, c3: char)
    requires s.Valid()
    ensures FeedAll(s, [c0, c1, c2, c3]) == Feed(Feed(Feed(Feed(s, c0), c1), c2), c3)
  {
    var s1 := Feed(s, c0);
    var s2 := Feed(s1, c1);
    var s3 := Feed(s2, c2);
    assert [c0, c1, c2, c3][1..] == [c1, c2, c3];
    assert [c1, c2, c3][1..] == [c2, c3];
    assert [c2, c3][1..] == [c3];
    assert FeedAll(s3, [c3]) == FeedAll(Feed(s3, c3), []);
    assert FeedAll(s2, [c2, c3]) == FeedAll(s3, [c3]);
    assert FeedAll(s1, [c1, c2, c3]) == FeedAll(s2, [c2, c3]);
  }

  /** What is not in the alphabet is skipped, wherever it stands. */
  lemma StrangersAreSkipped(before: string, c: char, after: string)
    requires c != '=' && DigitValue(c).None?
    ensures Decode64(before + [c] + after) == Decode64(before + after)
  {
    FeedConcat(ScanStart, before + [c], after);
    FeedConcat(ScanStart, before, [c]);
    FeedConcat(ScanStart, before, after);
  }

  ghost predicate AllDigits(text: string) {
    forall i :: 0 <= i < |text| ==> DigitValue(text[i]).Some?
  }

  lemma {:induction false} ScanOfDigits(s: Scan, text: string)
    requires s.Valid() && !s.ended && s.pads == 0 && AllDigits(text)
    ensures var t := FeedAll(s, text); !t.ended && t.pads == 0 && t.pos == (s.pos + |text|) % 4
    decreases |text|
  {
    if text != "" {
      assert DigitValue(text[0]).Some? && text[0] != '=';
      ScanOfDigits(Feed(s, text[0]), text[1..]);
    }
  }

  /** Digits alone decode, with their padding restored, unless one is left over. */
  lemma DigitsDecode(text: string)
    requires AllDigits(text)
    ensures Decode64(RestorePadding(text)).None? <==> |text| % 4 == 1
  {
    ScanOfDigits(ScanStart, text);
    FeedConcat(ScanStart, text, Equals(-|text| % 4));
    PadsOnly(FeedAll(ScanStart, text));
  }

  lemma PadsOnly(s: Scan)
    requires s.Valid() && !s.ended
    ensures FeedAll(s, Equals(1)) == Feed(s, '=')
    ensures FeedAll(s, Equals(2)) == Feed(Feed(s, '='), '=')
    ensures FeedAll(s, Equals(3)) == Feed(Feed(Feed(s, '='), '='), '=')
  {
    var s1 := Feed(s, '=');
    var s2 := Feed(s1, '=');
    assert Equals(1)[1..] == "" && Equals(2)[1..] == Equals(1) && Equals(3)[1..] == Equals(2);
    assert FeedAll(s1, Equals(1)) == s2 && FeedAll(s2, Equals(1)) == Feed(s2, '=');
    assert FeedAll(s1, Equals(2)) == Feed(s2, '=');
  }

  /** A single '=' where two belong ends nothing if a digit follows. */
  lemma LonePadIsSkipped(before: string, c: char, after: string)
    requires AllDigits(before) && |before| % 4 == 2 && DigitValue(c).Some?
    ensures Decode64(before + ['=', c] + after) == Decode64(before + [c] + after)
  {
    ScanOfDigits(ScanStart, before);
    var s := FeedAll(ScanStart, before);
    FeedConcat(ScanStart, before + ['=', c], after);
    FeedConcat(ScanStart, before, ['=', c]);
    FeedConcat(ScanStart, before + [c], after);
    FeedConcat(ScanStart, before, [c]);
    assert ['=', c][1..] == [c] && [c][1..] == [];
    assert FeedAll(s, ['=', c]) == FeedAll(Feed(s, '='), [c]) == FeedAll(Feed(Feed(s, '='), c), []);
    assert FeedAll(s, [c]) == FeedAll(Feed(s, c), []);
  }

  ghost predicate AtBoundary(s: Scan) {
    s.pos == 0 && s.carry == 0 && !s.ended
  }

  lemma FeedsDigit(s: Scan, d: int)
    requires s.Valid() && !s.ended && 0 <= d < 64
    ensures Feed(s, Digit(d)) == FeedDigit(s, d) && !FeedDigit(s, d).ended
  {
    DigitRoundTrip(d);
  }

  /** A group whose third and fourth digits are d2 and d3, after the byte x and the top of the next. */
  lemma FeedTwoDigits(s: Scan, x: Byte, high: int)
    requires AtBoundary(s) && 0 <= high < 16
    ensures Feed(Feed(s, Digit(x / 4)), Digit(x % 4 * 16 + high)) == Scan(2, high, 0, s.out + [x], false)
  {
    FeedsDigit(s, x / 4);
    FeedsDigit(FeedDigit(s, x / 4), x % 4 * 16 + high);
  }

  lemma FeedThirdDigit(s: Scan, y: Byte, high: int)
    requires s.pos == 2 && s.carry == y / 16 && !s.ended && 0 <= high < 4
    ensures Feed(s, Digit(y % 16 * 4 + high)) == Scan(3, high, 0, s.out + [y], false)
  {
    FeedsDigit(s, y % 16 * 4 + high);
  }

  lemma FeedLastDigit(s: Scan, z: Byte)
    requires s.pos == 3 && s.carry == z / 64 && !s.ended
    ensures Feed(s, Digit(z % 64)) == Scan(0, 0, 0, s.out + [z], false)
  {
    FeedsDigit(s, z % 64);
  }

  lemma FeedTriple(s: Scan, x: Byte, y: Byte, z: Byte)
    requires AtBoundary(s)
    ensures Feed(Feed(Feed(Feed(s, Digit(x / 4)), Digit(x % 4 * 16 + y / 16)), Digit(y % 16 * 4 + z / 64)), Digit(z % 64))
            == Scan(0, 0, 0, s.out + [x, y, z], false)
  {
    FeedTwoDigits(s, x, y / 16);
    FeedThirdDigit(Scan(2, y / 16, 0, s.out + [x], false), y, z / 64);
    FeedLastDigit(Scan(3, z / 64, 0, s.out + [x] + [y], false), z);
    assert s.out + [x] + [y] + [z] == s.out + [x, y, z];
  }

  lemma ScanOfTriple(s: Scan, x: Byte, y: Byte, z: Byte)
    requires AtBoundary(s)
    ensures FeedAll(s, Triple(x, y, z)) == Scan(0, 0, 0, s.out + [x, y, z], false)
  {
    FeedFour(s, Digit(x / 4), Digit(x % 4 * 16 + y / 16), Digit(y % 16 * 4 + z / 64), Digit(z % 64));
    FeedTriple(s, x, y, z);
  }

  lemma ScanOfPair(s: Scan, x: Byte, y: Byte)
    requires AtBoundary(s)
    ensures FeedAll(s, Pair(x, y)).out == s.out + [x, y] && FeedAll(s, Pair(x, y)).ended
  {
    FeedFour(s, Digit(x / 4), Digit(x % 4 * 16 + y / 16), Digit(y % 16 * 4), '=');
    FeedTwoDigits(s, x, y / 16);
    FeedThirdDigit(Scan(2, y / 16, 0, s.out + [x], false), y, 0);
    assert s.out + [x] + [y] == s.out + [x, y];
  }

  lemma ScanOfSingle(s: Scan, x: Byte)
    requires AtBoundary(s)
    ensures FeedAll(s, Single(x)).out == s.out + [x] && FeedAll(s, Single(x)).ended
  {
    FeedFour(s, Digit(x / 4), Digit(x % 4 * 16), '=', '=');
    FeedTwoDigits(s, x, 0);
  }

  lemma {:induction false} ScanOfEncoding(b: seq<Byte>, s: Scan)
    requires AtBoundary(s)
    ensures FeedAll(s, Encode64(b)).out == s.out + b
    ensures FeedAll(s, Encode64(b)).ended || FeedAll(s, Encode64(b)).pos == 0
    decreases |b|
  {
    if |b| <= 2 {
      ScanOfShortEncoding(b, s);
    } else {
      ScanOfLongEncoding(b, s);
      var mid := Scan(0, 0, 0, s.out + [b[0], b[1], b[2]], false);
      ScanOfEncoding(b[3..], mid);
      assert s.out + [b[0], b[1], b[2]] + b[3..] == s.out + b;
    }
  }

  lemma ScanOfShortEncoding(b: seq<Byte>, s: Scan)
    requires AtBoundary(s) && |b| <= 2
    ensures FeedAll(s, Encode64(b)).out == s.out + b
    ensures FeedAll(s, Encode64(b)).ended || FeedAll(s, Encode64(b)).pos == 0
  {
    if |b| == 0 {
      assert s.out + b == s.out;
    } else if |b| == 1 {
      ScanOfSingle(s, b[0]);
      assert b == [b[0]];
    } else {
      ScanOfPair(s, b[0], b[1]);
      assert b == [b[0], b[1]];
    }
  }

  lemma ScanOfLongEncoding(b: seq<Byte>, s: Scan)
    requires AtBoundary(s) && |b| > 2
    ensures FeedAll(s, Encode64(b))
            == FeedAll(Scan(0, 0, 0, s.out + [b[0], b[1], b[2]], false), Encode64(b[3..]))
  {
    var rest := Encode64(b[3..]);
    FeedConcat(s, Triple(b[0], b[1], b[2]), rest);
    ScanOfTriple(s, b[0], b[1], b[2]);
  }

  /** Strip, transmit, restore, decode: every byte string comes back. */
  lemma Base64RoundTrip(b: seq<Byte>)
    ensures Decode64(RestorePadding(StripPadding(Encode64(b)))) == Some(b)
  {
    PaddingRoundTrip(b);
    ScanOfEncoding(b, ScanStart);
    assert ScanStart.out + b == b;
  }

  lemma {:induction false} EncodingIsAscii(b: seq<Byte>)
    ensures forall i :: 0 <= i < |Encode64(b)| ==> Encode64(b)[i] < 128 as char
  {
    if |b| > 2 { EncodingIsAscii(b[3..]); }
  }

  lemma {:induction false} StripIsPrefix(s: string)
    ensures StripPadding(s) <= s
  {
    if s != "" && s[|s| - 1] == '=' { StripIsPrefix(s[..|s| - 1]); }
  }

  // ---- the cursor -------------------------------------------------------------------------

  datatype Sort = Recent | ByName

  /** A JSON value, as far as a cursor is concerned: a text, null, or one of the others. */
  datatype Json = JText(text: string) | JNull | JOther(form: string)

  /** The value a cursor carries; a null or any other JSON value may stand where a name belongs. */
  datatype Value = Instant(at: int) | Text(text: string) | NoText | NotText

  datatype Payload = Payload(s: Json, v: Json, i: Json)

  predicate Plain(j: Json) {
    j.JText? || j.JNull?
  }

  /**
   What json.loads and the three lookups make of the bytes: the fields; an error the handler
   lists (bad UTF-8, bad JSON, no object, a missing field); or one it does not list.
   */
  datatype Parsed = Fields(payload: Payload) | Refused | Raises

  /**
   JSON and ISO 8601 text are left to their libraries; only their round trips are used, and
   that the parser raises a bare ValueError for an integer of more than MAX_DIGITS digits.
   A time is the microseconds from 1970 in UTC that the driver makes of what was read; it may
   lie outside what the driver can send.
   */
  datatype Formats = Formats(
    dumps: Payload -> seq<Byte>,
    loads: seq<Byte> -> Parsed,
    isoFormat: int -> string,
    fromIso: Json -> Option<int>) {

    ghost predicate RoundTrips() {
      && (forall p: Payload :: Plain(p.s) && Plain(p.v) && Plain(p.i) ==> loads(dumps(p)) == Fields(p))
      && (forall t :: fromIso(JText(isoFormat(t))) == Some(t))
      && fromIso(JNull) == None
    }

    ghost predicate LimitsIntegers() {
      forall raw :: IsLongNumber(raw) ==> loads(raw) == Raises
    }
  }

  const MAX_DIGITS := 4300

  predicate IsLongNumber(raw: seq<Byte>) {
    |raw| > MAX_DIGITS && raw[0] != '0' as Byte && forall i :: 0 <= i < |raw| ==> '0' as Byte <= raw[i] <= '9' as Byte
  }

  datatype CursorError =
    | Invalid     // CursorError, answered with 400
    | Unhandled   // an error nobody catches, answered with 500

  function SortName(sort: Sort): string {
    match sort case Recent => "recent" case ByName => "name"
  }

  /** The value a listing sorted this way puts into its cursors. */
  predicate Fits(sort: Sort, value: Value) {
    match sort case Recent => value.Instant? case ByName => value.Text?
  }

  function Sent(f: Formats, p: Payload): string {
    StripPadding(Encode64(f.dumps(p)))
  }

  function EncodeCursor(f: Formats, sort: Sort, value: Value, id: string): string
    requires Fits(sort, value)
  {
    var text := match value case Instant(t) => f.isoFormat(t) case Text(x) => x;
    Sent(f, Payload(JText(SortName(sort)), JText(text), JText(id)))
  }

  predicate IsAscii(s: string) {
    forall i :: 0 <= i < |s| ==> s[i] < 128 as char
  }

  /** The value as the sort reads it; None is an error the handler turns into a refusal. */
  function ReadValue(f: Formats, sort: Sort, v: Json): Option<Value> {
    match sort
    case ByName => Some(match v case JText(x) => Text(x) case JNull => NoText case JOther(_) => NotText)
    case Recent => match f.fromIso(v) case None => None case Some(t) => Some(Instant(t))
  }

  function DecodeCursor(f: Formats, cursor: string, sort: Sort): (r: Result<(Value, Json), CursorError>)
    ensures r.Ok? ==> (r.value.0.Instant? <==> sort.Recent?)
  {
    if !IsAscii(cursor) then Err(Unhandled)
    else match Decode64(RestorePadding(cursor))
      case None => Err(Invalid)
      case Some(raw) =>
        match f.loads(raw)
        case Refused => Err(Invalid)
        case Raises => Err(Unhandled)
        case Fields(p) =>
          if p.s != JText(SortName(sort)) then Err(Invalid)
          else match ReadValue(f, sort, p.v)
            case None => Err(Invalid)
            case Some(v) => Ok((v, p.i))
  }

  /** What arrives when a text of bytes is sent as the server would send it. */
  lemma SentBytesArrive(raw: seq<Byte>)
    ensures var sent := StripPadding(Encode64(raw));
            IsAscii(sent) && Decode64(RestorePadding(sent)) == Some(raw)
  {
    Base64RoundTrip(raw);
    StripIsPrefix(Encode64(raw));
    EncodingIsAscii(raw);
  }

  /** A cursor comes back under the sort it was made for, and only there. */
  lemma CursorRoundTrip(f: Formats, sort: Sort, value: Value, id: string, asked: Sort)
    requires f.RoundTrips() && Fits(sort, value)
    ensures var c := EncodeCursor(f, sort, value, id);
            IsAscii(c) && DecodeCursor(f, c, asked) == if asked == sort then Ok((value, JText(id))) else Err(Invalid)
  {
    var text := match value case Instant(t) => f.isoFormat(t) case Text(x) => x;
    SentBytesArrive(f.dumps(Payload(JText(SortName(sort)), JText(text), JText(id))));
    assert SortName(Recent)[0] != SortName(ByName)[0];
  }

  /** Two different positions never share a cursor. */
  lemma CursorsAreInjective(f: Formats, s1: Sort, v1: Value, i1: string, s2: Sort, v2: Value, i2: string)
    requires f.RoundTrips() && Fits(s1, v1) && Fits(s2, v2)
    requires EncodeCursor(f, s1, v1, i1) == EncodeCursor(f, s2, v2, i2)
    ensures s1 == s2 && v1 == v2 && i1 == i2
  {
    CursorRoundTrip(f, s1, v1, i1, s1);
    CursorRoundTrip(f, s2, v2, i2, s1);
  }

  lemma StripKeepsFirstDigit(s: string)
    requires s != "" && s[0] != '='
    ensures StripPadding(s) != ""
    decreases |s|
  {
    if |s| > 1 && s[|s| - 1] == '=' {
      StripKeepsFirstDigit(s[..|s| - 1]);
    }
  }

  lemma BytesMakeText(raw: seq<Byte>)
    requires raw != []
    ensures StripPadding(Encode64(raw)) != ""
  {
    DigitRoundTrip(raw[0] / 4);
    assert Encode64(raw)[0] == Digit(raw[0] / 4);
    StripKeepsFirstDigit(Encode64(raw));
  }

  lemma CursorsAreNotEmpty(f: Formats, sort: Sort, value: Value, id: string)
    requires Fits(sort, value) && forall p :: f.dumps(p) != []
    ensures EncodeCursor(f, sort, value, id) != ""
  {
    var text := match value case Instant(t) => f.isoFormat(t) case Text(x) => x;
    BytesMakeText(f.dumps(Payload(JText(SortName(sort)), JText(text), JText(id))));
  }

  // ---- cursors nobody made ------------------------------------------------------------------

  /** The bytes a cursor decodes to hold these three fields. */
  ghost predicate Carries(f: Formats, cursor: string, p: Payload) {
    IsAscii(cursor) && exists raw :: Decode64(RestorePadding(cursor)) == Some(raw) && f.loads(raw) == Fields(p)
  }

  /** Its bytes are ones that the parser stumbles over. */
  ghost predicate Stumbles(f: Formats, cursor: string) {
    IsAscii(cursor) && exists raw :: Decode64(RestorePadding(cursor)) == Some(raw) && f.loads(raw) == Raises
  }

  lemma SentIsCarried(f: Formats, p: Payload)
    requires f.RoundTrips() && Plain(p.s) && Plain(p.v) && Plain(p.i)
    ensures Carries(f, Sent(f, p), p)
  {
    SentBytesArrive(f.dumps(p));
  }

  /** Decoding by what the cursor carries, whatever bytes those were. */
  lemma DecodeByContents(f: Formats, cursor: string, sort: Sort)
    ensures DecodeCursor(f, cursor, sort) == Err(Unhandled) <==> !IsAscii(cursor) || Stumbles(f, cursor)
    ensures forall p :: Carries(f, cursor, p) ==>
              DecodeCursor(f, cursor, sort) ==
                if p.s == JText(SortName(sort)) && ReadValue(f, sort, p.v).Some? then Ok((ReadValue(f, sort, p.v).value, p.i))
                else Err(Invalid)
    ensures DecodeCursor(f, cursor, sort).Ok? ==> exists p :: Carries(f, cursor, p)
  {
    var bytes := Decode64(RestorePadding(cursor));
    if IsAscii(cursor) && bytes.Some? && f.loads(bytes.value).Fields? {
      assert Carries(f, cursor, f.loads(bytes.value).payload);
    }
  }

  /** An ASCII cursor that ends in an uncaught error: base64url of one long number. */
  lemma LongNumberStumbles(f: Formats, n: nat)
    requires f.LimitsIntegers() && n > MAX_DIGITS
    ensures var cursor := StripPadding(Encode64(seq(n, _ => '1' as Byte)));
            IsAscii(cursor) && Stumbles(f, cursor)
  {
    var raw: seq<Byte> := seq(n, _ => '1' as Byte);
    SentBytesArrive(raw);
    assert IsLongNumber(raw);
  }
}
