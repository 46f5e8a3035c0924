/** Bytes, decimal numbers, and what each framing's reader and writer mean on a whole byte
    stream. The reader objects that meet these meanings chunk by chunk are in FramingReaders. */
module Framing {
  import opened Prelude

  type byte = b: int | 0 <= b < 256

  const LF: byte := 10
  const CR: byte := 13
  const COLON: byte := 58

  /** How a byte source stops: its `end` event or its `error` event. */
  datatype Ending = Ended | Errored

  datatype ReadError =
    | StreamError
    | UnexpectedEof
    | EofInHeaders
    | MissingLength
    | InvalidLength

  datatype Read<+T> = Got(value: T) | AtEof | Threw(error: ReadError)

  /** The first position of `b` in `s`, or -1. */
  function IndexOf(s: seq<byte>, b: byte): (r: int)
    ensures -1 <= r < |s|
    ensures r == -1 <==> b !in s
    ensures r >= 0 ==> s[r] == b && b !in s[..r]
  {
    if s == [] then -1
    else if s[0] == b then 0
    else
      var r := IndexOf(s[1..], b);
      if r == -1 then -1 else assert s[..r + 1] == [s[0]] + s[1..][..r]; r + 1
  }

  lemma IndexOfUnique(s: seq<byte>, b: byte, k: nat)
    requires k < |s| && s[k] == b && b !in s[..k]
    ensures IndexOf(s, b) == k
  {
    var r := IndexOf(s, b);
    assert s[k] in s;
    assert forall i :: 0 <= i < k ==> s[..k][i] == s[i];
    assert forall i :: 0 <= i < r ==> s[..r][i] == s[i];
  }

  // ---- lines ----------------------------------------------------------------------------

  /** One line without its LF, and what is left: the meaning of `readLine`. */
  function NextLine(s: seq<byte>, end: Ending): (r: (Read<seq<byte>>, seq<byte>))
    ensures r.0.Got? ==> |r.1| < |s|
    ensures !r.0.Got? ==> r.1 == s
  {
    var nl := IndexOf(s, LF);
    if nl != -1 then (Got(s[..nl]), s[nl + 1..])
    else if end == Errored then (Threw(StreamError), s)
    else if s == [] then (AtEof, s)
    else (Got(s), [])
  }

  lemma NextLineOf(line: seq<byte>, tail: seq<byte>, end: Ending)
    requires LF !in line
    ensures NextLine(line + [LF] + tail, end) == (Got(line), tail)
  {
    var s := line + [LF] + tail;
    assert s[..|line|] == line;
    IndexOfUnique(s, LF, |line|);
    assert s[|line| + 1..] == tail;
  }

  /** Exactly `n` bytes, and what is left: the meaning of `readExact`. */
  function Exactly(s: seq<byte>, n: nat, end: Ending): (r: (Read<seq<byte>>, seq<byte>))
    ensures r.0.Got? ==> |r.1| + n == |s|
    ensures !r.0.AtEof?
  {
    if n <= |s| then (Got(s[..n]), s[n..])
    else if end == Errored then (Threw(StreamError), s)
    else (Threw(UnexpectedEof), s)
  }

  function StripTrailingCR(b: seq<byte>): seq<byte> {
    if |b| > 0 && b[|b| - 1] == CR then b[..|b| - 1] else b
  }

  // ---- header text ----------------------------------------------------------------------

  /** Node's "ascii" decoding: the top bit of every byte is dropped. */
  function ToAscii(b: seq<byte>): seq<char> {
    seq(|b|, i requires 0 <= i < |b| => (b[i] % 128) as char)
  }

  predicate IsAscii(s: seq<char>) {
    forall i :: 0 <= i < |s| ==> s[i] as int < 128
  }

  function FromAscii(s: seq<char>): seq<byte>
    requires IsAscii(s)
  {
    seq(|s|, i requires 0 <= i < |s| => s[i] as int)
  }

  predicate IsJsSpace(c: char) {
    9 <= c as int <= 13 || c == ' '
  }

  function TrimStart(s: seq<char>, space: char -> bool): seq<char> {
    if s != [] && space(s[0]) then TrimStart(s[1..], space) else s
  }

  function TrimEnd(s: seq<char>, space: char -> bool): seq<char> {
    if s != [] && space(s[|s| - 1]) then TrimEnd(s[..|s| - 1], space) else s
  }

  function Trim(s: seq<char>, space: char -> bool): seq<char> {
    TrimEnd(TrimStart(s, space), space)
  }

  function LowerChar(c: char): char {
    if 'A' <= c <= 'Z' then (c as int + 32) as char else c
  }

  function Lower(s: seq<char>): seq<char> {
    seq(|s|, i requires 0 <= i < |s| => LowerChar(s[i]))
  }

  // ---- decimal numbers ------------------------------------------------------------------

  predicate IsDigit(c: char) {
    '0' <= c <= '9'
  }

  function Decimal(n: nat): (s: seq<char>)
    ensures |s| > 0
    ensures forall i :: 0 <= i < |s| ==> IsDigit(s[i])
  {
    var last := ('0' as int + n % 10) as char;
    if n < 10 then [last] else Decimal(n / 10) + [last]
  }

  function DigitsValue(s: seq<char>): nat
    requires forall i :: 0 <= i < |s| ==> IsDigit(s[i])
  {
    if s == [] then 0
    else
      var last := s[|s| - 1];
      assert IsDigit(last);
      DigitsValue(s[..|s| - 1]) * 10 + (last as int - '0' as int)
  }

  lemma {:induction false} DecimalParses(n: nat)
    ensures DigitsValue(Decimal(n)) == n
  {
    if n >= 10 {
      DecimalParses(n / 10);
      var d := Decimal(n);
      assert d[..|d| - 1] == Decimal(n / 10);
    }
  }

  function DigitPrefix(s: seq<char>): (p: seq<char>)
    ensures p <= s
    ensures forall i :: 0 <= i < |p| ==> IsDigit(p[i])
  {
    if s != [] && IsDigit(s[0]) then [s[0]] + DigitPrefix(s[1..]) else []
  }

  lemma {:induction false} DigitPrefixAll(s: seq<char>)
    requires forall i :: 0 <= i < |s| ==> IsDigit(s[i])
    ensures DigitPrefix(s) == s
  {
    if s != [] {
      DigitPrefixAll(s[1..]);
    }
  }

  /** `parseInt(s, 10)`: an optional sign, then the longest run of digits; None is NaN. */
  function ParseInt(s: seq<char>): Option<int> {
    var t := TrimStart(s, IsJsSpace);
    var negative := t != [] && t[0] == '-';
    var body := if t != [] && (t[0] == '-' || t[0] == '+') then t[1..] else t;
    var digits := DigitPrefix(body);
    var magnitude: int := DigitsValue(digits);
    if digits == [] then None
    else Some(if negative then -magnitude else magnitude)
  }

  lemma DigitsTrim(d: seq<char>, lead: seq<char>, space: char -> bool)
    requires d != [] && forall i :: 0 <= i < |d| ==> IsDigit(d[i])
    requires forall c :: IsDigit(c) ==> !space(c)
    requires lead == [] || (lead == [' '] && space(' '))
    ensures Trim(lead + d, space) == d
  {
    if lead == [] {
      assert lead + d == d;
    } else {
      assert (lead + d)[1..] == d;
    }
    assert TrimStart(d, space) == d;
    assert TrimStart(lead + d, space) == d;
  }

  lemma ParseIntDecimal(n: nat)
    ensures ParseInt(Decimal(n)) == Some(n)
  {
    var d := Decimal(n);
    assert IsDigit(d[0]);
    assert TrimStart(d, IsJsSpace) == d;
    DigitPrefixAll(d);
    DecimalParses(n);
  }

  // ---- the TypeScript Content-Length reader -----------------------------------------------

  type HeaderMap = map<seq<char>, seq<char>>

  /** What one non-blank header line adds to the headers seen so far. */
  function AddHeader(headers: HeaderMap, clean: seq<byte>): HeaderMap {
    var sep := IndexOf(clean, COLON);
    if sep == -1 then headers
    else headers[Lower(Trim(ToAscii(clean[..sep]), IsJsSpace)) := Trim(ToAscii(clean[sep + 1..]), IsJsSpace)]
  }

  function Headers(s: seq<byte>, end: Ending, seen: HeaderMap, sawAny: bool): (r: (Read<HeaderMap>, seq<byte>))
    ensures r.0.Got? ==> |r.1| < |s|
    decreases |s|
  {
    var (line, rest) := NextLine(s, end);
    match line
    case Threw(e) => (Threw(e), rest)
    case AtEof => (if sawAny then Threw(EofInHeaders) else AtEof, rest)
    case Got(l) =>
      var clean := StripTrailingCR(l);
      if clean == [] then (Got(seen), rest)
      else Headers(rest, end, AddHeader(seen, clean), true)
  }

  const LENGTH_KEY: seq<char> := "content-length"

  /** The length a header block announces: `parseInt`, then the finiteness and sign check. */
  function BodyLength(headers: HeaderMap): Read<nat> {
    if LENGTH_KEY !in headers then Threw(MissingLength)
    else
      match ParseInt(headers[LENGTH_KEY])
      case None => Threw(InvalidLength)
      case Some(n) => if n < 0 then Threw(InvalidLength) else Got(n)
  }

  function NextFramed(s: seq<byte>, end: Ending): (r: (Read<seq<byte>>, seq<byte>))
    ensures r.0.Got? ==> |r.1| < |s|
  {
    var (h, rest) := Headers(s, end, map[], false);
    match h
    case AtEof => (AtEof, rest)
    case Threw(e) => (Threw(e), rest)
    case Got(headers) =>
      match BodyLength(headers)
      case AtEof => (AtEof, rest)
      case Threw(e) => (Threw(e), rest)
      case Got(n) => Exactly(rest, n, end)
  }

  /** Every message up to the first null or exception, and how the reading ended. */
  function AllFramed(s: seq<byte>, end: Ending): (seq<seq<byte>>, Read<()>)
    decreases |s|
  {
    var (m, rest) := NextFramed(s, end);
    match m
    case AtEof => ([], AtEof)
    case Threw(e) => ([], Threw(e))
    case Got(payload) =>
      var (more, how) := AllFramed(rest, end);
      ([payload] + more, how)
  }

  // ---- the writer, and the round trip ------------------------------------------------------

  function HeaderFor(n: nat): (h: seq<byte>) {
    var text := "Content-Length: " + Decimal(n) + "\r\n\r\n";
    assert IsAscii(text);
    FromAscii(text)
  }

  function Frame(payload: seq<byte>): seq<byte> {
    HeaderFor(|payload|) + payload
  }

  function FrameAll(payloads: seq<seq<byte>>): seq<byte> {
    if payloads == [] then [] else Frame(payloads[0]) + FrameAll(payloads[1..])
  }

  lemma LengthKeyParses()
    ensures Lower(Trim("Content-Length", IsJsSpace)) == LENGTH_KEY
  {
    assert Trim("Content-Length", IsJsSpace) == "Content-Length";
    assert Lower("Content-Length") == LENGTH_KEY;
  }

  function LengthLine(n: nat): seq<byte> {
    var text := "Content-Length: " + Decimal(n);
    assert IsAscii(text);
    FromAscii(text)
  }

  lemma HeaderShape(n: nat)
    ensures HeaderFor(n) == LengthLine(n) + [CR] + [LF] + [CR] + [LF]
    ensures LF !in LengthLine(n)
    ensures |LengthLine(n)| > 0 && LengthLine(n)[|LengthLine(n)| - 1] != CR
  {
    var line := LengthLine(n);
    var text := "Content-Length: " + Decimal(n);
    assert forall i :: 16 <= i < |text| ==> text[i] == Decimal(n)[i - 16];
  }

  lemma AsciiInverse(s: seq<char>)
    requires IsAscii(s)
    ensures ToAscii(FromAscii(s)) == s
  {
  }

  lemma LengthLineSplits(n: nat)
    ensures IndexOf(LengthLine(n), COLON) == 14
    ensures LengthLine(n)[..14] == FromAscii("Content-Length")
    ensures LengthLine(n)[15..] == FromAscii([' '] + Decimal(n))
  {
    hide Decimal, IndexOf;
    var name, value := "Content-Length", [' '] + Decimal(n);
    assert "Content-Length: " + Decimal(n) == name + [':'] + value;
    FromAsciiConcat(name, [':'], value);
    assert FromAscii([':']) == [COLON];
    assert COLON !in FromAscii(name);
    IndexOfUnique(LengthLine(n), COLON, 14);
  }

  lemma FromAsciiConcat(a: seq<char>, b: seq<char>, c: seq<char>)
    requires IsAscii(a) && IsAscii(b) && IsAscii(c)
    ensures IsAscii(a + b + c) && FromAscii(a + b + c) == FromAscii(a) + FromAscii(b) + FromAscii(c)
  {
  }

  lemma LengthLineAdds(n: nat)
    ensures AddHeader(map[], LengthLine(n)) == map[LENGTH_KEY := Decimal(n)]
  {
    LengthLineSplits(n);
    AsciiInverse("Content-Length");
    AsciiInverse([' '] + Decimal(n));
    LengthKeyParses();
    DigitsTrim(Decimal(n), [' '], IsJsSpace);
  }

  lemma HeaderParses(n: nat, tail: seq<byte>, end: Ending)
    ensures Headers(HeaderFor(n) + tail, end, map[], false) == (Got(map[LENGTH_KEY := Decimal(n)]), tail)
  {
    HeaderShape(n);
    var line := LengthLine(n);
    var first := line + [CR];
    var blank := [CR] + [LF] + tail;
    assert HeaderFor(n) + tail == first + [LF] + blank;
    NextLineOf(first, blank, end);
    assert StripTrailingCR(first) == line;
    LengthLineAdds(n);
    NextLineOf([CR], tail, end);
    assert StripTrailingCR([CR]) == [];
    assert Headers(blank, end, map[LENGTH_KEY := Decimal(n)], true) == (Got(map[LENGTH_KEY := Decimal(n)]), tail);
  }

  lemma FramedOne(payload: seq<byte>, tail: seq<byte>, end: Ending)
    ensures NextFramed(Frame(payload) + tail, end) == (Got(payload), tail)
  {
    assert Frame(payload) + tail == HeaderFor(|payload|) + (payload + tail);
    HeaderParses(|payload|, payload + tail, end);
    ParseIntDecimal(|payload|);
    assert (payload + tail)[..|payload|] == payload;
    assert (payload + tail)[|payload|..] == tail;
  }

  /** Reading back what was written gives the very payloads, in order, whatever bytes they
      hold, and then the clean end of input. */
  lemma {:induction false} FramedRoundTrip(payloads: seq<seq<byte>>)
    ensures AllFramed(FrameAll(payloads), Ended) == (payloads, AtEof)
  {
    if payloads == [] {
      assert NextLine([], Ended) == (AtEof, []);
    } else {
      FramedOne(payloads[0], FrameAll(payloads[1..]), Ended);
      FramedRoundTrip(payloads[1..]);
      assert [payloads[0]] + payloads[1..] == payloads;
    }
  }
}
