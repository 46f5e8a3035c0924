/** Newline framing in both languages, and the Python Content-Length reader, on the byte
    stream a Python StreamReader or a TypeScript BufferedReader stands for. */
module LineFraming {
  import opened Prelude
  import opened Framing
  import opened FramingReaders

  // ---- meaning ----------------------------------------------------------------------------

  /** The stream cut at every LF; a last line without LF counts when it is not empty. */
  function Lines(s: seq<byte>): seq<seq<byte>>
    decreases |s|
  {
    var nl := IndexOf(s, LF);
    if nl != -1 then [s[..nl]] + Lines(s[nl + 1..])
    else if s == [] then []
    else [s]
  }

  /** Python's `rstrip(b"\r\n")`. */
  function RStrip(b: seq<byte>): seq<byte> {
    if |b| > 0 && (b[|b| - 1] == CR || b[|b| - 1] == LF) then RStrip(b[..|b| - 1]) else b
  }

  function MapLines(f: seq<byte> -> seq<byte>, lines: seq<seq<byte>>): seq<seq<byte>> {
    seq(|lines|, i requires 0 <= i < |lines| => f(lines[i]))
  }

  function TsMessages(s: seq<byte>): seq<seq<byte>> {
    MapLines(StripTrailingCR, Lines(s))
  }

  function PyMessages(s: seq<byte>): seq<seq<byte>> {
    MapLines(RStrip, Lines(s))
  }

  function WriteLine(payload: seq<byte>): seq<byte> {
    payload + [LF]
  }

  function WriteLines(payloads: seq<seq<byte>>): seq<byte> {
    if payloads == [] then [] else WriteLine(payloads[0]) + WriteLines(payloads[1..])
  }

  // ---- the TypeScript reader --------------------------------------------------------------

  method ReadTsLine(br: BufferedReader) returns (r: Read<seq<byte>>)
    requires br.Valid()
    modifies br
    ensures br.Valid() && br.Rest() == NextLine(old(br.Rest()), br.ending).1
    ensures var line := NextLine(old(br.Rest()), br.ending).0;
            r == if line.Got? then Got(StripTrailingCR(line.value)) else line
  {
    r := br.ReadLine();
    if r.Got? {
      r := Got(StripTrailingCR(r.value));
    }
  }

  /** Repeated `readMessage` over a stream that ends cleanly: one message per line, whatever
      the chunks. */
  method ReceiveTsLines(br: BufferedReader) returns (messages: seq<seq<byte>>)
    requires br.Valid() && br.ending == Ended
    modifies br
    ensures messages == TsMessages(old(br.Rest()))
  {
    messages := [];
    while true
      invariant br.Valid()
      invariant messages + TsMessages(br.Rest()) == TsMessages(old(br.Rest()))
      decreases |br.Rest()|
    {
      br.Arrive();
      ghost var before := br.Rest();
      var m := ReadTsLine(br);
      TsLineStep(before);
      if m.AtEof? {
        return;
      }
      Shift(messages, m.value, TsMessages(br.Rest()));
      messages := messages + [m.value];
    }
  }

  lemma TsLineStep(s: seq<byte>)
    ensures !NextLine(s, Ended).0.Threw?
    ensures NextLine(s, Ended).0.AtEof? ==> TsMessages(s) == []
    ensures NextLine(s, Ended).0.Got? ==>
              TsMessages(s) == [StripTrailingCR(NextLine(s, Ended).0.value)] + TsMessages(NextLine(s, Ended).1)
  {
    var (line, rest) := NextLine(s, Ended);
    if line.Got? {
      assert Lines(s) == [line.value] + Lines(rest);
      MapCons(StripTrailingCR, line.value, Lines(rest));
    }
  }

  lemma MapCons(f: seq<byte> -> seq<byte>, x: seq<byte>, xs: seq<seq<byte>>)
    ensures MapLines(f, [x] + xs) == [f(x)] + MapLines(f, xs)
  {
  }

  // ---- the Python readers -----------------------------------------------------------------

  /** asyncio's StreamReader, by what its calls return on the bytes still to come. */
  class StreamReader {
    var data: seq<byte>

    constructor (bytes: seq<byte>)
      ensures data == bytes
    {
      data := bytes;
    }

    /** `readline()`: up to and including the next LF, or all that is left. */
    method ReadLine() returns (line: seq<byte>)
      modifies this
      ensures line + data == old(data)
      ensures var nl := IndexOf(old(data), LF);
              line == if nl != -1 then old(data)[..nl + 1] else old(data)
    {
      var nl := IndexOf(data, LF);
      if nl != -1 {
        line := data[..nl + 1];
        data := data[nl + 1..];
      } else {
        line := data;
        data := [];
      }
    }

    /** `readexactly(n)`; None is IncompleteReadError or, for a negative `n`, ValueError. */
    method ReadExactly(n: int) returns (r: Option<seq<byte>>)
      modifies this
      ensures 0 <= n <= |old(data)| ==> r == Some(old(data)[..n]) && data == old(data)[n..]
      ensures !(0 <= n <= |old(data)|) ==> r == None
    {
      if 0 <= n <= |data| {
        r := Some(data[..n]);
        data := data[n..];
      } else {
        r := None;
      }
    }
  }

  method ReadPyLine(reader: StreamReader) returns (r: Option<seq<byte>>)
    modifies reader
    ensures old(reader.data) == [] ==> r == None && reader.data == []
    ensures old(reader.data) != [] ==> |reader.data| < |old(reader.data)|
    ensures old(reader.data) != [] ==>
              r.Some? && PyMessages(old(reader.data)) == [r.value] + PyMessages(reader.data)
  {
    var line := reader.ReadLine();
    if line == [] {
      return None;
    }
    r := Some(RStrip(line));
    PyLineStep(old(reader.data), line, reader.data);
  }

  lemma PyLineStep(s: seq<byte>, line: seq<byte>, rest: seq<byte>)
    requires s != [] && line + rest == s
    requires var nl := IndexOf(s, LF); line == if nl != -1 then s[..nl + 1] else s
    ensures PyMessages(s) == [RStrip(line)] + PyMessages(rest)
  {
    var nl := IndexOf(s, LF);
    if nl != -1 {
      assert line[..|line| - 1] == s[..nl];
      assert rest == s[nl + 1..];
      assert RStrip(line) == RStrip(s[..nl]);
      assert Lines(s) == [s[..nl]] + Lines(rest);
      MapCons(RStrip, s[..nl], Lines(rest));
    } else {
      assert rest == [];
      assert Lines(s) == [s] + [];
      MapCons(RStrip, s, []);
    }
  }

  method ReceivePyLines(reader: StreamReader) returns (messages: seq<seq<byte>>)
    modifies reader
    ensures messages == PyMessages(old(reader.data))
  {
    messages := [];
    while true
      invariant messages + PyMessages(reader.data) == PyMessages(old(reader.data))
      decreases |reader.data|
    {
      var m := ReadPyLine(reader);
      if m == None {
        return;
      }
      Shift(messages, m.value, PyMessages(reader.data));
      messages := messages + [m.value];
    }
  }

  // ---- when the two readers agree ---------------------------------------------------------

  predicate EndsInTwoCRs(line: seq<byte>) {
    |line| >= 2 && line[|line| - 1] == CR && line[|line| - 2] == CR
  }

  lemma {:induction false} LinesHoldNoLF(s: seq<byte>)
    ensures forall i :: 0 <= i < |Lines(s)| ==> LF !in Lines(s)[i]
    decreases |s|
  {
    var nl := IndexOf(s, LF);
    if nl != -1 {
      LinesHoldNoLF(s[nl + 1..]);
    }
  }

  lemma {:induction false} RStripShortens(b: seq<byte>)
    ensures |RStrip(b)| <= |b|
  {
    if |b| > 0 && (b[|b| - 1] == CR || b[|b| - 1] == LF) {
      RStripShortens(b[..|b| - 1]);
    }
  }

  lemma StripsAgree(line: seq<byte>)
    requires LF !in line
    ensures StripTrailingCR(line) == RStrip(line) <==> !EndsInTwoCRs(line)
  {
    hide RStrip;
    RStripOnce(line);
    if |line| > 0 && line[|line| - 1] == CR {
      var one := line[..|line| - 1];
      RStripOnce(one);
      if EndsInTwoCRs(line) {
        RStripShortens(one[..|one| - 1]);
      } else if |one| > 0 {
        assert one[|one| - 1] in line;
      }
    } else if |line| > 0 {
      assert line[|line| - 1] in line;
    }
  }

  lemma RStripOnce(b: seq<byte>)
    ensures RStrip(b) == if |b| > 0 && (b[|b| - 1] == CR || b[|b| - 1] == LF) then RStrip(b[..|b| - 1]) else b
  {
  }

  /** The two readers return the same messages on a byte stream exactly when none of its
      lines ends in two CRs. */
  lemma LineReadersAgree(s: seq<byte>)
    ensures TsMessages(s) == PyMessages(s) <==>
            forall i :: 0 <= i < |Lines(s)| ==> !EndsInTwoCRs(Lines(s)[i])
  {
    LinesHoldNoLF(s);
    forall i | 0 <= i < |Lines(s)|
      ensures StripTrailingCR(Lines(s)[i]) == RStrip(Lines(s)[i]) <==> !EndsInTwoCRs(Lines(s)[i])
    {
      StripsAgree(Lines(s)[i]);
    }
    if TsMessages(s) == PyMessages(s) {
      forall i | 0 <= i < |Lines(s)| ensures !EndsInTwoCRs(Lines(s)[i]) {
        assert TsMessages(s)[i] == PyMessages(s)[i];
      }
    } else {
      assert |TsMessages(s)| == |PyMessages(s)| == |Lines(s)|;
      var i :| 0 <= i < |Lines(s)| && TsMessages(s)[i] != PyMessages(s)[i];
      assert EndsInTwoCRs(Lines(s)[i]);
    }
  }

  // ---- when they invert the writer --------------------------------------------------------

  /** The payloads newline framing can carry. */
  predicate Framable(payload: seq<byte>) {
    LF !in payload && (payload != [] ==> payload[|payload| - 1] != CR)
  }

  lemma OneLine(p: seq<byte>, tail: seq<byte>)
    requires LF !in p
    ensures Lines(WriteLine(p) + tail) == [p] + Lines(tail)
  {
    var s := WriteLine(p) + tail;
    assert s[..|p|] == p;
    IndexOfUnique(s, LF, |p|);
    assert s[|p| + 1..] == tail;
  }

  lemma {:induction false} SeveralLines(p: seq<byte>, tail: seq<byte>)
    requires LF in p
    ensures |Lines(WriteLine(p) + tail)| > 1 + |Lines(tail)|
    decreases |p|
  {
    var s := WriteLine(p) + tail;
    var nl := IndexOf(p, LF);
    var others := p[nl + 1..];
    IndexOfUnique(s, LF, nl);
    assert s[nl + 1..] == WriteLine(others) + tail;
    if LF in others {
      SeveralLines(others, tail);
    } else {
      OneLine(others, tail);
    }
  }

  lemma {:induction false} EveryPayloadGivesALine(payloads: seq<seq<byte>>)
    ensures |Lines(WriteLines(payloads))| >= |payloads|
    ensures (exists i :: 0 <= i < |payloads| && LF in payloads[i]) ==> |Lines(WriteLines(payloads))| > |payloads|
    ensures (forall i :: 0 <= i < |payloads| ==> LF !in payloads[i]) ==> Lines(WriteLines(payloads)) == payloads
  {
    hide Lines;
    if payloads == [] {
      NoLines();
    } else {
      var first, others := payloads[0], payloads[1..];
      assert payloads == [first] + others;
      EveryPayloadGivesALine(others);
      if LF in first {
        SeveralLines(first, WriteLines(others));
      } else {
        OneLine(first, WriteLines(others));
      }
      if LF !in first && exists i :: 0 <= i < |payloads| && LF in payloads[i] {
        var i :| 0 <= i < |payloads| && LF in payloads[i];
        assert others[i - 1] == payloads[i];
      }
    }
  }

  lemma NoLines()
    ensures Lines([]) == []
  {
  }

  lemma StripsFramable(p: seq<byte>)
    requires LF !in p
    ensures StripTrailingCR(p) == p <==> Framable(p)
    ensures RStrip(p) == p <==> Framable(p)
  {
    if |p| > 0 && p[|p| - 1] == CR {
      RStripShortens(p[..|p| - 1]);
    } else if |p| > 0 {
      assert p[|p| - 1] in p;
    }
  }

  /** Reading what was written gives the payloads back exactly when every one of them is free
      of LF and of a trailing CR, in either language. */
  lemma LinesRoundTrip(payloads: seq<seq<byte>>)
    ensures TsMessages(WriteLines(payloads)) == payloads <==> forall i :: 0 <= i < |payloads| ==> Framable(payloads[i])
    ensures PyMessages(WriteLines(payloads)) == payloads <==> forall i :: 0 <= i < |payloads| ==> Framable(payloads[i])
  {
    EveryPayloadGivesALine(payloads);
    if forall i :: 0 <= i < |payloads| ==> LF !in payloads[i] {
      forall i | 0 <= i < |payloads|
        ensures StripTrailingCR(payloads[i]) == payloads[i] <==> Framable(payloads[i])
        ensures RStrip(payloads[i]) == payloads[i] <==> Framable(payloads[i])
      {
        StripsFramable(payloads[i]);
      }
      MapFixes(StripTrailingCR, payloads);
      MapFixes(RStrip, payloads);
    }
  }

  lemma MapFixes(f: seq<byte> -> seq<byte>, xs: seq<seq<byte>>)
    ensures MapLines(f, xs) == xs <==> forall i :: 0 <= i < |xs| ==> f(xs[i]) == xs[i]
  {
    if MapLines(f, xs) == xs {
      forall i | 0 <= i < |xs| ensures f(xs[i]) == xs[i] {
        assert MapLines(f, xs)[i] == xs[i];
      }
    }
  }

  // ---- the Python Content-Length reader ----------------------------------------------------

  predicate IsPySpace(c: char) {
    9 <= c as int <= 13 || 28 <= c as int <= 32
  }

  /** `decode("ascii", errors="replace")`. */
  function DecodeAscii(b: seq<byte>): seq<char> {
    seq(|b|, i requires 0 <= i < |b| => if b[i] < 128 then b[i] as char else '\U{FFFD}')
  }

  /** The position of ':' in a decoded line, or its length: `partition(":")`. */
  function ColonAt(s: seq<char>): (k: nat)
    ensures k <= |s|
    ensures k < |s| ==> s[k] == ':'
    ensures forall i :: 0 <= i < k ==> s[i] != ':'
  {
    if s == [] || s[0] == ':' then 0 else 1 + ColonAt(s[1..])
  }

  function AddPyHeader(headers: HeaderMap, line: seq<byte>): HeaderMap {
    var text := DecodeAscii(line);
    var k := ColonAt(text);
    headers[Lower(Trim(text[..k], IsPySpace)) := Trim(if k < |text| then text[k + 1..] else [], IsPySpace)]
  }

  /** Digits with single underscores between them, as `int()` takes them. */
  function PyDigits(s: seq<char>): Option<seq<char>> {
    if s == [] || !IsDigit(s[0]) then None
    else if |s| == 1 then Some(s)
    else if s[1] == '_' then
      var more := PyDigits(s[2..]);
      if more == None then None else Some([s[0]] + more.value)
    else
      var more := PyDigits(s[1..]);
      if more == None then None else Some([s[0]] + more.value)
  }

  lemma {:induction false} PyDigitsAreDigits(s: seq<char>)
    ensures PyDigits(s).Some? ==> forall i :: 0 <= i < |PyDigits(s).value| ==> IsDigit(PyDigits(s).value[i])
  {
    if |s| > 1 && IsDigit(s[0]) {
      PyDigitsAreDigits(if s[1] == '_' then s[2..] else s[1..]);
    }
  }

  /** `int(s)` on a string; None is ValueError. */
  function PyInt(s: seq<char>): Option<int> {
    var t := Trim(s, IsPySpace);
    var negative := t != [] && t[0] == '-';
    var body := if t != [] && (t[0] == '-' || t[0] == '+') then t[1..] else t;
    PyDigitsAreDigits(body);
    match PyDigits(body)
    case None => None
    case Some(d) =>
      var magnitude: int := DigitsValue(d);
      Some(if negative then -magnitude else magnitude)
  }

  /** The header loop on the bytes to come: the headers, or None when the input ends first. */
  function PyHeaders(s: seq<byte>, seen: HeaderMap): (r: (Option<HeaderMap>, seq<byte>))
    ensures r.0.Some? ==> |r.1| < |s|
    decreases |s|
  {
    var nl := IndexOf(s, LF);
    var line := if nl != -1 then s[..nl + 1] else s;
    var rest := if nl != -1 then s[nl + 1..] else [];
    if line == [] then (None, rest)
    else if line == [CR, LF] || line == [LF] then (Some(seen), rest)
    else PyHeaders(rest, AddPyHeader(seen, line))
  }

  /** One message: None is a clean end before a message, Threw covers ValueError and
      IncompleteReadError. */
  function PyNextFramed(s: seq<byte>): (r: (Read<seq<byte>>, seq<byte>))
    ensures r.0.Got? ==> |r.1| < |s|
  {
    var (h, rest) := PyHeaders(s, map[]);
    if h == None then (AtEof, rest)
    else if LENGTH_KEY !in h.value then (Threw(MissingLength), rest)
    else
      match PyInt(h.value[LENGTH_KEY])
      case None => (Threw(InvalidLength), rest)
      case Some(n) =>
        if n < 0 then (Threw(InvalidLength), rest)
        else if n > |rest| then (Threw(UnexpectedEof), rest)
        else (Got(rest[..n]), rest[n..])
  }

  lemma PyHeadersOnce(s: seq<byte>, line: seq<byte>, rest: seq<byte>, seen: HeaderMap)
    requires line + rest == s
    requires var nl := IndexOf(s, LF); line == if nl != -1 then s[..nl + 1] else s
    ensures PyHeaders(s, seen)
         == if line == [] then (None, rest)
            else if line == [CR, LF] || line == [LF] then (Some(seen), rest)
            else PyHeaders(rest, AddPyHeader(seen, line))
  {
    assert rest == s[|line|..];
  }

  method ReadPyFramed(reader: StreamReader) returns (r: Read<seq<byte>>)
    modifies reader
    ensures r == PyNextFramed(old(reader.data)).0
    ensures r.Got? ==> reader.data == PyNextFramed(old(reader.data)).1
  {
    hide PyHeaders, AddPyHeader, PyInt, IndexOf;
    var headers: HeaderMap := map[];
    while true
      invariant PyHeaders(reader.data, headers) == PyHeaders(old(reader.data), map[])
      decreases |reader.data|
    {
      ghost var before := reader.data;
      var line := reader.ReadLine();
      PyHeadersOnce(before, line, reader.data, headers);
      if line == [] {
        return AtEof;
      }
      if line == [CR, LF] || line == [LF] {
        break;
      }
      headers := AddPyHeader(headers, line);
    }
    if LENGTH_KEY !in headers {
      return Threw(MissingLength);
    }
    var length := PyInt(headers[LENGTH_KEY]);
    if length == None {
      return Threw(InvalidLength);
    }
    var body := reader.ReadExactly(length.value);
    if body == None {
      return Threw(if length.value < 0 then InvalidLength else UnexpectedEof);
    }
    r := Got(body.value);
  }

  function AllPyFramed(s: seq<byte>): (seq<seq<byte>>, Read<()>)
    decreases |s|
  {
    var (m, rest) := PyNextFramed(s);
    match m
    case AtEof => ([], AtEof)
    case Threw(e) => ([], Threw(e))
    case Got(payload) =>
      var (more, how) := AllPyFramed(rest);
      ([payload] + more, how)
  }

  lemma {:induction false} PyDigitsAll(s: seq<char>)
    requires s != [] && forall i :: 0 <= i < |s| ==> IsDigit(s[i])
    ensures PyDigits(s) == Some(s)
  {
    if |s| > 1 {
      assert IsDigit(s[1]);
      PyDigitsAll(s[1..]);
      assert [s[0]] + s[1..] == s;
    }
  }

  lemma {:induction false} ColonAtUnique(s: seq<char>, k: nat)
    requires k < |s| && s[k] == ':' && forall i :: 0 <= i < k ==> s[i] != ':'
    ensures ColonAt(s) == k
  {
    if k > 0 {
      ColonAtUnique(s[1..], k - 1);
    }
  }

  /** Python's whitespace includes the CR LF the line still carries. */
  lemma PyValueTrims(d: seq<char>)
    requires d != [] && forall i :: 0 <= i < |d| ==> IsDigit(d[i])
    ensures Trim([' '] + d + ['\r', '\n'], IsPySpace) == d
    ensures Trim(d, IsPySpace) == d
  {
    var s := [' '] + d + ['\r', '\n'];
    assert s[1..] == d + ['\r', '\n'];
    assert TrimStart(s[1..], IsPySpace) == s[1..];
    var t := d + ['\r', '\n'];
    assert t[..|t| - 1] == d + ['\r'];
    assert (d + ['\r'])[..|d|] == d;
    assert TrimEnd(d, IsPySpace) == d;
    assert TrimEnd(d + ['\r'], IsPySpace) == d;
    assert TrimEnd(t, IsPySpace) == d;
  }

  lemma PyKeyParses()
    ensures Lower(Trim("Content-Length", IsPySpace)) == LENGTH_KEY
  {
    assert Trim("Content-Length", IsPySpace) == "Content-Length";
    assert Lower("Content-Length") == LENGTH_KEY;
  }

  lemma DecodeInverse(s: seq<char>)
    requires IsAscii(s)
    ensures DecodeAscii(FromAscii(s)) == s
  {
  }

  lemma PyLengthLineAdds(n: nat)
    ensures AddPyHeader(map[], LengthLine(n) + [CR, LF]) == map[LENGTH_KEY := Decimal(n)]
  {
    hide Decimal;
    var name := "Content-Length";
    var text := name + [':'] + ([' '] + Decimal(n) + ['\r', '\n']);
    assert "Content-Length: " + Decimal(n) + ['\r', '\n'] == text;
    assert LengthLine(n) + [CR, LF] == FromAscii(text);
    DecodeInverse(text);
    ColonAtUnique(text, 14);
    assert text[..14] == name;
    assert text[15..] == [' '] + Decimal(n) + ['\r', '\n'];
    PyKeyParses();
    PyValueTrims(Decimal(n));
  }

  lemma PyHeadersParse(n: nat, tail: seq<byte>)
    ensures PyHeaders(HeaderFor(n) + tail, map[]) == (Some(map[LENGTH_KEY := Decimal(n)]), tail)
  {
    hide Decimal, HeaderFor, LengthLine, IndexOf, AddPyHeader;
    HeaderShape(n);
    var s := HeaderFor(n) + tail;
    var first := LengthLine(n) + [CR];
    var blank := [CR, LF] + tail;
    assert s == first + [LF] + blank;
    assert s[..|first|] == first;
    IndexOfUnique(s, LF, |first|);
    assert s[..|first| + 1] == LengthLine(n) + [CR, LF];
    assert s[|first| + 1..] == blank;
    PyLengthLineAdds(n);
    IndexOfUnique(blank, LF, 1);
    assert blank[..2] == [CR, LF];
    assert blank[2..] == tail;
    assert PyHeaders(blank, map[LENGTH_KEY := Decimal(n)]) == (Some(map[LENGTH_KEY := Decimal(n)]), tail);
  }

  lemma PyIntDecimal(n: nat)
    ensures PyInt(Decimal(n)) == Some(n)
  {
    var d := Decimal(n);
    PyValueTrims(d);
    assert IsDigit(d[0]);
    PyDigitsAll(d);
    DecimalParses(n);
  }

  lemma PyFramedOne(payload: seq<byte>, tail: seq<byte>)
    ensures PyNextFramed(Frame(payload) + tail) == (Got(payload), tail)
  {
    hide HeaderFor, PyHeaders, Decimal, PyInt;
    assert Frame(payload) + tail == HeaderFor(|payload|) + (payload + tail);
    PyHeadersParse(|payload|, payload + tail);
    PyIntDecimal(|payload|);
    assert (payload + tail)[..|payload|] == payload;
    assert (payload + tail)[|payload|..] == tail;
  }

  /** The Python reader inverts the same writer, so frames cross the language border intact. */
  lemma {:induction false} PyFramedRoundTrip(payloads: seq<seq<byte>>)
    ensures AllPyFramed(FrameAll(payloads)) == (payloads, AtEof)
  {
    hide Frame;
    if payloads != [] {
      PyFramedOne(payloads[0], FrameAll(payloads[1..]));
      PyFramedRoundTrip(payloads[1..]);
      assert [payloads[0]] + payloads[1..] == payloads;
    }
  }
}
