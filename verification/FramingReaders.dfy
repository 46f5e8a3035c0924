/** The TypeScript reader objects: a buffer filled by stream events at times nobody controls,
    proved to read exactly what module Framing says the whole byte stream means. */
module FramingReaders {
  import opened Prelude
  import opened Framing

  class BufferedReader {
    var buf: seq<byte>
    var ended: bool
    var failed: bool
    // The stream's side: the chunks it has still to emit, then its `end` or `error` event.
    var arriving: seq<seq<byte>>
    const ending: Ending

    ghost predicate Valid()
      reads this
    {
      && (ended || failed ==> arriving == [])
      && (ended ==> ending == Ended)
      && (failed ==> ending == Errored)
    }

    predicate Done()
      reads this
    {
      ended || failed
    }

    /** Every byte the reader has not handed out yet. */
    ghost function Rest(): seq<byte>
      reads this
    {
      buf + Flatten(arriving)
    }

    ghost function Pending(): nat
      reads this
    {
      |arriving| + if Done() then 0 else 1
    }

    constructor (chunks: seq<seq<byte>>, end: Ending)
      ensures Valid() && Rest() == Flatten(chunks) && ending == end
    {
      buf, ended, failed, arriving, ending := [], false, false, chunks, end;
    }

    method OnData(chunk: seq<byte>)
      modifies this`buf
      ensures buf == old(buf) + chunk
    {
      buf := buf + chunk;
    }

    method OnEnd()
      modifies this`ended
      ensures ended
    {
      ended := true;
    }

    method OnErr()
      modifies this`failed
      ensures failed
    {
      failed := true;
    }

    /** The stream emits its next event. */
    method Deliver()
      requires Valid() && !Done()
      modifies this
      ensures Valid() && Rest() == old(Rest())
      ensures Pending() < old(Pending())
    {
      if arriving != [] {
        var chunk := arriving[0];
        arriving := arriving[1..];
        OnData(chunk);
      } else if ending == Ended {
        OnEnd();
      } else {
        OnErr();
      }
    }

    /** Any number of events may arrive while the reader is not looking. */
    method Arrive()
      requires Valid()
      modifies this
      ensures Valid() && Rest() == old(Rest())
      ensures Pending() <= old(Pending())
    {
      var more: bool := *;
      while more && !Done()
        invariant Valid() && Rest() == old(Rest())
        invariant Pending() <= old(Pending())
        decreases Pending()
      {
        Deliver();
        more := *;
      }
    }

    /** The waiter is woken by an event; more may have arrived before it runs. */
    method Wait()
      requires Valid() && !Done()
      modifies this
      ensures Valid() && Rest() == old(Rest())
      ensures Pending() < old(Pending())
    {
      Deliver();
      Arrive();
    }

    method ReadExact(n: nat) returns (r: Read<seq<byte>>)
      requires Valid()
      modifies this
      ensures Valid() && (r, Rest()) == Exactly(old(Rest()), n, ending)
    {
      if n == 0 {
        return Got([]);
      }
      while |buf| < n
        invariant Valid() && Rest() == old(Rest())
        decreases Pending()
      {
        if failed {
          return Threw(StreamError);
        }
        if ended {
          return Threw(UnexpectedEof);
        }
        Wait();
      }
      r := Got(buf[..n]);
      buf := buf[n..];
      assert old(Rest())[..n] == r.value && old(Rest())[n..] == Rest();
    }

    method ReadLine() returns (r: Read<seq<byte>>)
      requires Valid()
      modifies this
      ensures Valid() && (r, Rest()) == NextLine(old(Rest()), ending)
    {
      while true
        invariant Valid() && Rest() == old(Rest())
        decreases Pending()
      {
        var nl := IndexOf(buf, LF);
        if nl != -1 {
          r := Got(buf[..nl]);
          LineSplits(buf, Flatten(arriving), ending);
          buf := buf[nl + 1..];
          return;
        }
        if failed {
          return Threw(StreamError);
        }
        if ended {
          assert Rest() == buf;
          if |buf| == 0 {
            return AtEof;
          }
          r := Got(buf);
          buf := [];
          assert Rest() == [];
          return;
        }
        Wait();
      }
    }
  }

  /** A complete line already in the buffer is the next line of the whole stream. */
  lemma LineSplits(buf: seq<byte>, later: seq<byte>, end: Ending)
    requires LF in buf
    ensures NextLine(buf + later, end) == (Got(buf[..IndexOf(buf, LF)]), buf[IndexOf(buf, LF) + 1..] + later)
  {
    var nl := IndexOf(buf, LF);
    assert (buf + later)[..nl] == buf[..nl];
    IndexOfUnique(buf + later, LF, nl);
    assert (buf + later)[nl + 1..] == buf[nl + 1..] + later;
  }

  method ReadHeaders(br: BufferedReader) returns (r: Read<HeaderMap>)
    requires br.Valid()
    modifies br
    ensures br.Valid() && (r, br.Rest()) == Headers(old(br.Rest()), br.ending, map[], false)
  {
    var headers: HeaderMap := map[];
    var sawAny := false;
    while true
      invariant br.Valid()
      invariant Headers(br.Rest(), br.ending, headers, sawAny) == Headers(old(br.Rest()), br.ending, map[], false)
      decreases |br.Rest()|
    {
      var line := br.ReadLine();
      if line.Threw? {
        return Threw(line.error);
      }
      if line.AtEof? {
        if !sawAny {
          return AtEof;
        }
        return Threw(EofInHeaders);
      }
      sawAny := true;
      var clean := StripTrailingCR(line.value);
      if |clean| == 0 {
        return Got(headers);
      }
      var sep := IndexOf(clean, COLON);
      if sep == -1 {
        continue;
      }
      var k := Lower(Trim(ToAscii(clean[..sep]), IsJsSpace));
      var v := Trim(ToAscii(clean[sep + 1..]), IsJsSpace);
      headers := headers[k := v];
    }
  }

  method ReadFramed(br: BufferedReader) returns (r: Read<seq<byte>>)
    requires br.Valid()
    modifies br
    ensures br.Valid() && (r, br.Rest()) == NextFramed(old(br.Rest()), br.ending)
  {
    var h := ReadHeaders(br);
    match h {
      case AtEof => r := AtEof;
      case Threw(e) => r := Threw(e);
      case Got(headers) =>
        if LENGTH_KEY !in headers {
          return Threw(MissingLength);
        }
        var n := ParseInt(headers[LENGTH_KEY]);
        if n.None? || n.value < 0 {
          return Threw(InvalidLength);
        }
        r := br.ReadExact(n.value);
    }
  }

  /** Repeated `readMessage` until null or an exception. The result is a function of the
      bytes and of how the stream stops; the chunks and their timing are not in it. */
  method ReceiveFramed(br: BufferedReader) returns (payloads: seq<seq<byte>>, how: Read<()>)
    requires br.Valid()
    modifies br
    ensures (payloads, how) == AllFramed(old(br.Rest()), br.ending)
  {
    payloads := [];
    assert [] + AllFramed(br.Rest(), br.ending).0 == AllFramed(br.Rest(), br.ending).0;
    while true
      invariant br.Valid()
      invariant var later := AllFramed(br.Rest(), br.ending);
                (payloads + later.0, later.1) == AllFramed(old(br.Rest()), br.ending)
      decreases |br.Rest()|
    {
      br.Arrive();
      ghost var before := br.Rest();
      var m := ReadFramed(br);
      match m {
        case AtEof =>
          assert payloads + [] == payloads;
          return payloads, AtEof;
        case Threw(e) =>
          assert payloads + [] == payloads;
          return payloads, Threw(e);
        case Got(p) =>
          ghost var later := AllFramed(br.Rest(), br.ending);
          assert payloads + ([p] + later.0) == payloads + [p] + later.0;
          payloads := payloads + [p];
      }
    }
  }

  /** End to end: whatever chunks the written bytes are cut into, the reader returns the
      payloads in order and then null. */
  method TransferFramed(payloads: seq<seq<byte>>, chunks: seq<seq<byte>>)
    returns (received: seq<seq<byte>>, how: Read<()>)
    requires Flatten(chunks) == FrameAll(payloads)
    ensures received == payloads && how == AtEof
  {
    var br := new BufferedReader(chunks, Ended);
    received, how := ReceiveFramed(br);
    FramedRoundTrip(payloads);
  }
}
