/**
 * The line scanner: the split function that frames a byte stream into
 * lines ended by the terminator rune, and a driver that feeds it the way a
 * buffered scanner does, asking for more input until the stream ends.
 */
module Scanner {
  import opened Errors
  import opened Bytes

  /** The pattern occurs in data at position j. */
  predicate At(data: seq<byte>, pat: seq<byte>, j: int)
  {
    0 <= j && j + |pat| <= |data| && data[j..j + |pat|] == pat
  }

  /** The first position from k on where the pattern occurs, or -1. */
  function IndexFrom(data: seq<byte>, pat: seq<byte>, k: nat): (i: int)
    requires |pat| > 0
    ensures i == -1 || (k <= i && At(data, pat, i))
    ensures forall j | k <= j && (i == -1 || j < i) :: !At(data, pat, j)
    decreases |data| - k
  {
    if k + |pat| > |data| then -1
    else if data[k..k + |pat|] == pat then k
    else IndexFrom(data, pat, k + 1)
  }

  /** bytes.Index: the first occurrence of a non-empty pattern, or -1. */
  function Index(data: seq<byte>, pat: seq<byte>): (i: int)
    requires |pat| > 0
    ensures i == -1 || At(data, pat, i)
    ensures forall j | 0 <= j && (i == -1 || j < i) :: !At(data, pat, j)
  {
    IndexFrom(data, pat, 0)
  }

  /** What the split function returns: how far to advance and the token, if any. */
  datatype Step = Step(advance: nat, token: Option<seq<byte>>)

  /** A match inside a prefix is a match in the whole. */
  lemma AtPrefix(data: seq<byte>, n: nat, pat: seq<byte>, j: int)
    requires n <= |data| && At(data[..n], pat, j)
    ensures At(data, pat, j)
  {
    assert data[..n][j..j + |pat|] == data[j..j + |pat|];
  }

  /** A prefix of data that holds no match before the first match of data holds no match at all. */
  lemma IndexOfPrefix(data: seq<byte>, pat: seq<byte>, n: nat)
    requires |pat| > 0 && n <= |data|
    requires forall j | 0 <= j < n :: !At(data, pat, j)
    ensures Index(data[..n], pat) == -1
  {
    var i := Index(data[..n], pat);
    if i != -1 {
      AtPrefix(data, n, pat, i);
    }
  }

  /**
   * The split function for terminator t: an empty stream at its end yields
   * nothing; a found terminator yields the bytes before it and is skipped;
   * at the end the rest is the last token; otherwise more data is needed.
   */
  function Split(data: seq<byte>, atEOF: bool, t: char): (r: Step)
    ensures r.advance <= |data|
    ensures r.token.None? ==> r.advance == 0 && (atEOF ==> |data| == 0) && Index(data, Utf8(t)) == -1
    ensures r.token.Some? ==> |r.token.value| < r.advance || (atEOF && r.advance == |data| > 0)
    ensures r.token.Some? ==> |r.token.value| <= r.advance && r.token.value == data[..|r.token.value|]
    ensures r.token.Some? ==> Index(r.token.value, Utf8(t)) == -1
    ensures r.token.Some? && |r.token.value| < r.advance ==> data[|r.token.value|..r.advance] == Utf8(t)
    ensures r.token.Some? && |r.token.value| == r.advance ==> atEOF && Index(data, Utf8(t)) == -1
  {
    var tb := Utf8(t);
    if atEOF && |data| == 0 then Step(0, None)
    else
      var i := Index(data, tb);
      if i >= 0 then
        IndexOfPrefix(data, tb, i);
        Step(i + |tb|, Some(data[..i]))
      else if atEOF then
        assert data[..|data|] == data;
        Step(|data|, Some(data))
      else Step(0, None)
  }

  /** The lines of a whole stream: what the split function yields, one token after another. */
  function Lines(data: seq<byte>, tb: seq<byte>): seq<seq<byte>>
    requires |tb| > 0
    decreases |data|
  {
    if |data| == 0 then []
    else
      var i := Index(data, tb);
      if i >= 0 then [data[..i]] + Lines(data[i + |tb|..], tb) else [data]
  }

  /** Every line with the terminator after it. */
  function Rejoin(lines: seq<seq<byte>>, tb: seq<byte>): seq<byte>
  {
    if |lines| == 0 then [] else lines[0] + tb + Rejoin(lines[1..], tb)
  }

  /** No line holds the terminator. */
  lemma {:induction false} LinesClean(data: seq<byte>, tb: seq<byte>)
    requires |tb| > 0
    ensures forall k | 0 <= k < |Lines(data, tb)| :: Index(Lines(data, tb)[k], tb) == -1
    decreases |data|
  {
    if |data| > 0 {
      var i := Index(data, tb);
      if i >= 0 {
        IndexOfPrefix(data, tb, i);
        LinesClean(data[i + |tb|..], tb);
      }
    }
  }

  /**
   * Putting the terminator back after every line gives the stream again,
   * with one extra terminator when the stream did not end with one.
   */
  lemma {:induction false} LinesRejoin(data: seq<byte>, tb: seq<byte>)
    requires |tb| > 0
    ensures Rejoin(Lines(data, tb), tb) == data || Rejoin(Lines(data, tb), tb) == data + tb
    decreases |data|
  {
    if |data| > 0 {
      var i := Index(data, tb);
      if i >= 0 {
        var rest := data[i + |tb|..];
        var ls := Lines(data, tb);
        assert ls == [data[..i]] + Lines(rest, tb);
        assert ls[0] == data[..i] && ls[1..] == Lines(rest, tb);
        assert Rejoin(ls, tb) == data[..i] + tb + Rejoin(Lines(rest, tb), tb);
        assert data == data[..i] + tb + rest;
        LinesRejoin(rest, tb);
        if Rejoin(Lines(rest, tb), tb) == rest {
          assert Rejoin(ls, tb) == data;
        } else {
          assert Rejoin(ls, tb) == data[..i] + tb + (rest + tb);
          assert Rejoin(ls, tb) == data + tb;
        }
      } else {
        assert Lines(data, tb) == [data];
      }
    }
  }

  /** The first match in a buffer is the first match once more data arrives. */
  lemma IndexExtend(buf: seq<byte>, more: seq<byte>, pat: seq<byte>)
    requires |pat| > 0 && Index(buf, pat) >= 0
    ensures Index(buf + more, pat) == Index(buf, pat)
  {
    var i := Index(buf, pat);
    var data := buf + more;
    assert data[..|buf|] == buf;
    assert At(data, pat, i) by {
      assert data[i..i + |pat|] == buf[i..i + |pat|];
    }
    forall j | 0 <= j < i ensures !At(data, pat, j) {
      assert !At(buf, pat, j);
      assert buf[j..j + |pat|] == data[j..j + |pat|];
    }
  }

  /** All the chunks of a stream, one after another. */
  function Flatten(chunks: seq<seq<byte>>): seq<byte>
  {
    if |chunks| == 0 then [] else chunks[0] + Flatten(chunks[1..])
  }

  /** The next chunk comes first in the rest of the stream. */
  lemma FlattenStep(chunks: seq<seq<byte>>, k: nat)
    requires k < |chunks|
    ensures Flatten(chunks[k..]) == chunks[k] + Flatten(chunks[k + 1..])
  {
    assert chunks[k..][0] == chunks[k] && chunks[k..][1..] == chunks[k + 1..];
  }

  /** A found terminator ends the first line, whatever data follows the buffer. */
  lemma FoundLine(buf: seq<byte>, rest: seq<byte>, tb: seq<byte>)
    requires |tb| > 0 && Index(buf, tb) >= 0
    ensures var i := Index(buf, tb);
      Lines(buf + rest, tb) == [buf[..i]] + Lines(buf[i + |tb|..] + rest, tb)
  {
    var i := Index(buf, tb);
    var data := buf + rest;
    IndexExtend(buf, rest, tb);
    assert data[..i] == buf[..i];
    assert data[i + |tb|..] == buf[i + |tb|..] + rest;
  }

  /** A buffer with no terminator in it is a single line. */
  lemma LastLine(buf: seq<byte>, tb: seq<byte>)
    requires |tb| > 0 && |buf| > 0 && Index(buf, tb) == -1
    ensures Lines(buf, tb) == [buf] && Lines(buf[|buf|..], tb) == []
  {
  }

  /** A token cut at a terminator is the first line. */
  lemma TokenAtTerminator(buf: seq<byte>, rest: seq<byte>, atEOF: bool, t: char)
    requires Index(buf, Utf8(t)) >= 0
    ensures var step := Split(buf, atEOF, t);
      step.token.Some? &&
      Lines(buf + rest, Utf8(t)) == [step.token.value] + Lines(buf[step.advance..] + rest, Utf8(t))
  {
    var tb := Utf8(t);
    assert Split(buf, atEOF, t) == Step(Index(buf, tb) + |tb|, Some(buf[..Index(buf, tb)]));
    FoundLine(buf, rest, tb);
  }

  /** A token taken at the end of the stream is the last line. */
  lemma TokenAtEnd(buf: seq<byte>, atEOF: bool, t: char)
    requires Index(buf, Utf8(t)) == -1 && Split(buf, atEOF, t).token.Some?
    ensures var step := Split(buf, atEOF, t);
      Lines(buf, Utf8(t)) == [step.token.value] + Lines(buf[step.advance..], Utf8(t))
  {
    var tb := Utf8(t);
    assert Split(buf, atEOF, t) == Step(|buf|, Some(buf));
    LastLine(buf, tb);
  }

  /** A token of the split function is the first line of the buffer and whatever follows it. */
  lemma TokenIsLine(buf: seq<byte>, rest: seq<byte>, atEOF: bool, t: char)
    requires Split(buf, atEOF, t).token.Some? && (atEOF ==> rest == [])
    ensures var step := Split(buf, atEOF, t);
      Lines(buf + rest, Utf8(t)) == [step.token.value] + Lines(buf[step.advance..] + rest, Utf8(t))
  {
    if Index(buf, Utf8(t)) >= 0 {
      TokenAtTerminator(buf, rest, atEOF, t);
    } else {
      var step := Split(buf, atEOF, t);
      TokenAtEnd(buf, atEOF, t);
      assert buf + rest == buf && buf[step.advance..] + rest == buf[step.advance..];
    }
  }

  /**
   * The driver: the split function is offered the buffered bytes; a token
   * is taken and the buffer advanced, or, when more data is asked for, the
   * next chunk is appended; at the end of the stream the split function is
   * told so, and the loop stops when it yields nothing more.
   */
  method Scan(chunks: seq<seq<byte>>, t: char) returns (lines: seq<seq<byte>>)
    ensures lines == Lines(Flatten(chunks), Utf8(t))
  {
    var tb := Utf8(t);
    var buf: seq<byte> := [];
    var k := 0;
    lines := [];
    assert chunks[0..] == chunks && buf + Flatten(chunks[0..]) == Flatten(chunks);
    assert lines + Lines(Flatten(chunks), tb) == Lines(Flatten(chunks), tb);
    while true
      invariant 0 <= k <= |chunks|
      invariant lines + Lines(buf + Flatten(chunks[k..]), tb) == Lines(Flatten(chunks), tb)
      decreases |chunks| - k, |buf|
    {
      var atEOF := k == |chunks|;
      var step := Split(buf, atEOF, t);
      if step.token.Some? {
        TokenIsLine(buf, Flatten(chunks[k..]), atEOF, t);
        assert lines + [step.token.value] + Lines(buf[step.advance..] + Flatten(chunks[k..]), tb)
          == lines + ([step.token.value] + Lines(buf[step.advance..] + Flatten(chunks[k..]), tb));
        lines := lines + [step.token.value];
        buf := buf[step.advance..];
      } else if atEOF {
        assert buf + Flatten(chunks[k..]) == [];
        assert lines + [] == lines;
        break;
      } else {
        FlattenStep(chunks, k);
        assert buf + Flatten(chunks[k..]) == (buf + chunks[k]) + Flatten(chunks[k + 1..]);
        buf := buf + chunks[k];
        k := k + 1;
      }
    }
  }
}
