/** Newline-delimited frames with a size limit, read through a buffer that fills in arbitrary chunks. */
module LineReader {
  import opened Wrappers
  import opened Machine

  type Byte = n: int | 0 <= n < 256

  const NEWLINE: Byte := 10

  datatype Error = TooLarge | NotUtf8

  type Frame = Option<seq<Byte>>

  /** No newline anywhere. */
  predicate Unbroken(bytes: seq<Byte>) {
    forall i :: 0 <= i < |bytes| ==> bytes[i] != NEWLINE
  }

  /** Where the first line of a stream ends: after its newline, or at the end of the stream. */
  function LineEnd(bytes: seq<Byte>): (n: nat)
    ensures n <= |bytes|
  {
    if bytes == [] then 0
    else if bytes[0] == NEWLINE then 1
    else 1 + LineEnd(bytes[1..])
  }

  /** What one call answers, decided by the bytes of the stream alone. */
  function Answer(bytes: seq<Byte>, max: nat, utf8: seq<Byte> -> bool): Result<Frame, Error> {
    if bytes == [] then Ok(None)
    else if Min(LineEnd(bytes), U64_MAX) > max then Err(TooLarge)
    else if utf8(bytes[..LineEnd(bytes)]) then Ok(Some(bytes[..LineEnd(bytes)]))
    else Err(NotUtf8)
  }

  /** How far one call advances the stream. */
  function Advance(bytes: seq<Byte>, max: nat): nat {
    if Min(LineEnd(bytes), U64_MAX) > max then max + 1 else LineEnd(bytes)
  }

  /** A stream of which some unknown stretch is buffered whenever the reader looks. */
  class Reader {
    var rest: seq<Byte>

    constructor (bytes: seq<Byte>)
      ensures rest == bytes
    {
      rest := bytes;
    }

    /** Shows some of the bytes ahead: none only at the end of the stream. */
    method FillBuf() returns (available: seq<Byte>)
      ensures available <= rest
      ensures available == [] <==> rest == []
    {
      if rest == [] {
        available := [];
      } else {
        var n :| 1 <= n <= |rest|;
        available := rest[..n];
      }
    }

    method Consume(n: nat)
      requires n <= |rest|
      modifies this
      ensures rest == old(rest)[n..]
    {
      rest := rest[n..];
    }
  }

  /** A line that runs past an unbroken head ends where the tail's line ends. */
  lemma {:induction false} LineEndSplit(head: seq<Byte>, tail: seq<Byte>)
    requires Unbroken(head)
    ensures LineEnd(head + tail) == |head| + LineEnd(tail)
  {
    if head == [] {
      assert head + tail == tail;
    } else {
      LineEndSplit(head[1..], tail);
      assert (head + tail)[0] == head[0] && (head + tail)[1..] == head[1..] + tail;
    }
  }

  lemma LineEndUnbroken(bytes: seq<Byte>)
    requires Unbroken(bytes)
    ensures LineEnd(bytes) == |bytes|
  {
    LineEndSplit(bytes, []);
    assert bytes + [] == bytes;
  }

  /** A newline after an unbroken head ends the line. */
  lemma LineEndAt(bytes: seq<Byte>, n: nat)
    requires n < |bytes| && Unbroken(bytes[..n]) && bytes[n] == NEWLINE
    ensures LineEnd(bytes) == n + 1
  {
    LineEndSplit(bytes[..n], bytes[n..]);
    assert bytes[..n] + bytes[n..] == bytes;
  }

  /** The first newline of a chunk, by position. */
  method Position(chunk: seq<Byte>) returns (newline: Option<nat>)
    ensures newline.Some? ==>
              newline.value < |chunk| && Unbroken(chunk[..newline.value]) && chunk[newline.value] == NEWLINE
    ensures newline.None? ==> Unbroken(chunk)
  {
    for i := 0 to |chunk|
      invariant Unbroken(chunk[..i])
    {
      if chunk[i] == NEWLINE {
        return Some(i);
      }
    }
    assert chunk[..|chunk|] == chunk;
    return None;
  }

  /** The bytes to take from a chunk: through its newline, or all of it. */
  predicate Takes(chunk: seq<Byte>, n: nat, ended: bool) {
    if ended then 0 < n <= |chunk| && Unbroken(chunk[..n - 1]) && chunk[n - 1] == NEWLINE
    else n == |chunk| && Unbroken(chunk)
  }

  /** Where the whole line ends, seen from an unbroken head and what is taken from the chunk after it. */
  lemma LineEndAcross(head: seq<Byte>, rest: seq<Byte>, chunk: seq<Byte>, n: nat, ended: bool)
    requires Unbroken(head) && chunk <= rest && Takes(chunk, n, ended)
    ensures LineEnd(head + rest) >= |head| + n
    ensures ended ==> LineEnd(head + rest) == |head| + n
    ensures !ended ==> Unbroken(head + chunk[..n])
  {
    LineEndSplit(head, rest);
    if ended {
      assert rest[..n - 1] == chunk[..n - 1];
      LineEndAt(rest, n - 1);
    } else {
      assert chunk[..n] == chunk;
      LineEndSplit(chunk, rest[n..]);
      assert chunk + rest[n..] == rest;
    }
  }

  lemma TakeChunk(head: seq<Byte>, rest: seq<Byte>, chunk: seq<Byte>, n: nat)
    requires chunk <= rest && n <= |chunk|
    ensures head + rest == (head + chunk[..n]) + rest[n..]
    ensures |head + chunk[..n]| == |head| + n
  {
    assert rest == rest[..n] + rest[n..];
    assert chunk[..n] == rest[..n];
  }

  /** The answer once the line is known to end right after the bytes gathered. */
  function Finished(bytes: seq<Byte>, utf8: seq<Byte> -> bool): Result<Frame, Error> {
    if utf8(bytes) then Ok(Some(bytes)) else Err(NotUtf8)
  }

  lemma AnswerAt(whole: seq<Byte>, bytes: seq<Byte>, rest: seq<Byte>, max: nat, utf8: seq<Byte> -> bool)
    requires whole == bytes + rest && bytes != [] && LineEnd(whole) == |bytes|
    requires Min(|bytes|, U64_MAX) <= max
    ensures Answer(whole, max, utf8) == Finished(bytes, utf8)
    ensures whole[Advance(whole, max)..] == rest
  {
    assert whole[..|bytes|] == bytes;
  }

  lemma AnswerTooLarge(whole: seq<Byte>, bytes: seq<Byte>, rest: seq<Byte>, max: nat, utf8: seq<Byte> -> bool)
    requires whole == bytes + rest && |bytes| <= max < U64_MAX && LineEnd(whole) > max
    ensures Answer(whole, max, utf8) == Err(TooLarge)
    ensures max + 1 - |bytes| <= |rest| && whole[Advance(whole, max)..] == rest[max + 1 - |bytes|..]
  {
  }

  /** Where the loop stands: an unbroken part of the stream is gathered, within the limit, and the rest is ahead. */
  ghost predicate Reading(whole: seq<Byte>, bytes: seq<Byte>, rest: seq<Byte>, max: nat) {
    whole == bytes + rest && Unbroken(bytes) && (|bytes| <= max || max == U64_MAX) && |bytes| <= LineEnd(whole)
  }

  /** The stream ends after the bytes gathered. */
  lemma EndOfStream(whole: seq<Byte>, bytes: seq<Byte>, max: nat, utf8: seq<Byte> -> bool)
    requires Reading(whole, bytes, [], max) && max <= U64_MAX
    ensures whole == bytes && whole[Advance(whole, max)..] == []
    ensures Answer(whole, max, utf8) == if bytes == [] then Ok(None) else Finished(bytes, utf8)
  {
    assert whole == bytes;
    if bytes != [] {
      LineEndUnbroken(bytes);
      AnswerAt(whole, bytes, [], max, utf8);
    }
  }

  /** How much is consumed when a line turns out to be too large. */
  function Excess(bytes: seq<Byte>, chunk: seq<Byte>, max: nat): nat {
    Max(Min(Max(SatAdd64(max, 1) - |bytes|, 0), |chunk|), 1)
  }

  /** The next chunk would take the line over the limit. */
  lemma ChunkTooLarge(whole: seq<Byte>, bytes: seq<Byte>, rest: seq<Byte>, chunk: seq<Byte>, n: nat, ended: bool,
                      max: nat, utf8: seq<Byte> -> bool)
    requires Reading(whole, bytes, rest, max) && max <= U64_MAX
    requires chunk <= rest && Takes(chunk, n, ended) && SatAdd64(|bytes|, n) > max
    ensures Excess(bytes, chunk, max) <= |rest|
    ensures Answer(whole, max, utf8) == Err(TooLarge)
            && whole[Advance(whole, max)..] == rest[Excess(bytes, chunk, max)..]
  {
    LineEndAcross(bytes, rest, chunk, n, ended);
    AnswerTooLarge(whole, bytes, rest, max, utf8);
    assert Excess(bytes, chunk, max) == max + 1 - |bytes|;
  }

  /** The next chunk fits: the line ends with it, or reading goes on. */
  lemma ChunkFits(whole: seq<Byte>, bytes: seq<Byte>, rest: seq<Byte>, chunk: seq<Byte>, n: nat, ended: bool,
                  max: nat, utf8: seq<Byte> -> bool)
    requires Reading(whole, bytes, rest, max) && max <= U64_MAX
    requires chunk <= rest && Takes(chunk, n, ended) && n > 0 && SatAdd64(|bytes|, n) <= max
    ensures var more := bytes + chunk[..n];
            && (|more| <= max || max == U64_MAX) && |more| <= LineEnd(whole)
            && (if ended
                then Answer(whole, max, utf8) == Finished(more, utf8) && whole[Advance(whole, max)..] == rest[n..]
                else Reading(whole, more, rest[n..], max))
  {
    LineEndAcross(bytes, rest, chunk, n, ended);
    TakeChunk(bytes, rest, chunk, n);
    if ended {
      AnswerAt(whole, bytes + chunk[..n], rest[n..], max, utf8);
    }
  }

  /**
   * One call of the reader. Whatever the chunks, the answer and the bytes consumed depend only on the
   * bytes of the stream, and the buffer outgrows neither the line nor, below 2^64 - 1, the limit.
   */
  method ReadBoundedLine(reader: Reader, max: nat, utf8: seq<Byte> -> bool)
    returns (r: Result<Frame, Error>, ghost peak: nat)
    requires max <= U64_MAX
    modifies reader
    ensures r == Answer(old(reader.rest), max, utf8)
    ensures reader.rest == old(reader.rest)[Advance(old(reader.rest), max)..]
    ensures peak <= LineEnd(old(reader.rest)) && (peak <= max || max == U64_MAX)
  {
    var bytes: seq<Byte> := [];
    peak := 0;
    ghost var whole := reader.rest;
    while true
      invariant Reading(whole, bytes, reader.rest, max)
      invariant peak == |bytes|
      decreases |reader.rest|
    {
      var available := reader.FillBuf();
      if available == [] {
        EndOfStream(whole, bytes, max, utf8);
        if bytes == [] {
          return Ok(None), peak;
        }
        return if utf8(bytes) then Ok(Some(bytes)) else Err(NotUtf8), peak;
      }
      var newline := Position(available);
      var toConsume := if newline.Some? then newline.value + 1 else |available|;
      if SatAdd64(|bytes|, toConsume) > max {
        ChunkTooLarge(whole, bytes, reader.rest, available, toConsume, newline.Some?, max, utf8);
        var remaining := Min(Max(SatAdd64(max, 1) - |bytes|, 0), |available|);
        reader.Consume(Max(remaining, 1));
        return Err(TooLarge), peak;
      }
      ChunkFits(whole, bytes, reader.rest, available, toConsume, newline.Some?, max, utf8);
      bytes := bytes + available[..toConsume];
      peak := |bytes|;
      reader.Consume(toConsume);
      if newline.Some? {
        return if utf8(bytes) then Ok(Some(bytes)) else Err(NotUtf8), peak;
      }
    }
  }

  /** The line end is the first newline, or the end of a stream that has none. */
  lemma {:induction false} LineEndMeaning(bytes: seq<Byte>)
    requires bytes != []
    ensures var n := LineEnd(bytes);
            n > 0 && Unbroken(bytes[..n - 1]) && (bytes[n - 1] == NEWLINE || (n == |bytes| && Unbroken(bytes)))
  {
    if bytes[0] != NEWLINE && |bytes| > 1 {
      LineEndMeaning(bytes[1..]);
      var n := LineEnd(bytes[1..]);
      assert bytes[..n] == [bytes[0]] + bytes[1..][..n - 1];
      assert bytes == [bytes[0]] + bytes[1..];
    }
  }

  /** The answers of successive calls on one stream, until it ends or a call fails. */
  function Session(bytes: seq<Byte>, max: nat, utf8: seq<Byte> -> bool): (frames: seq<seq<Byte>>)
    decreases |bytes|
  {
    match Answer(bytes, max, utf8)
    case Ok(Some(line)) =>
      LineEndMeaning(bytes);
      [line] + Session(bytes[Advance(bytes, max)..], max, utf8)
    case _ => []
  }

  function Join(frames: seq<seq<Byte>>): seq<Byte> {
    if frames == [] then [] else frames[0] + Join(frames[1..])
  }

  predicate Covers(bytes: seq<Byte>, sent: seq<Byte>, max: nat, utf8: seq<Byte> -> bool) {
    sent <= bytes && (sent == bytes || Answer(bytes[|sent|..], max, utf8).Err?)
  }

  /** The frames of a session, joined, are a prefix of the stream; what follows is the end or a failing line. */
  lemma {:induction false} SessionRejoins(bytes: seq<Byte>, max: nat, utf8: seq<Byte> -> bool)
    ensures Covers(bytes, Join(Session(bytes, max, utf8)), max, utf8)
    decreases |bytes|
  {
    if Answer(bytes, max, utf8).Ok? && bytes != [] {
      LineEndMeaning(bytes);
      var n := LineEnd(bytes);
      var frames := Session(bytes[n..], max, utf8);
      assert Session(bytes, max, utf8) == [bytes[..n]] + frames;
      SessionRejoins(bytes[n..], max, utf8);
      JoinCons(bytes[..n], frames);
      CoversStep(bytes, n, Join(frames), max, utf8);
    } else {
      assert bytes[0..] == bytes;
    }
  }

  lemma JoinCons(line: seq<Byte>, frames: seq<seq<Byte>>)
    ensures Join([line] + frames) == line + Join(frames)
  {
    assert ([line] + frames)[1..] == frames;
  }

  lemma CoversStep(bytes: seq<Byte>, n: nat, more: seq<Byte>, max: nat, utf8: seq<Byte> -> bool)
    requires n <= |bytes| && Covers(bytes[n..], more, max, utf8)
    ensures Covers(bytes, bytes[..n] + more, max, utf8)
  {
    assert bytes == bytes[..n] + bytes[n..];
    assert bytes[n + |more|..] == bytes[n..][|more|..];
  }
}
