/**
 * The template every codec follows: a fixed prefix, a run of coded fields
 * `<tag><value><delimiter>`, an optional `AY<seq>AZ<checksum>` epilogue and the
 * terminator. The lemmas here carry the decoding of that tail once, so that each
 * message only has to say which fields it writes.
 */
module Wire {
  import opened Errors
  import opened Numbers
  import opened Codes
  import Utils
  import Dates

  /** One coded field of a message: its tag, its text and whether Marshal writes it. */
  datatype Field = Field(tag: FieldTag, value: string, emit: bool)

  /** `<tag><value><delimiter>` for a field that is written, nothing otherwise. */
  function Emit(f: Field, d: char): (s: string)
    ensures f.emit ==> s == [f.tag.hi, f.tag.lo] + f.value + [d]
    ensures !f.emit ==> s == ""
  {
    if f.emit then [f.tag.hi, f.tag.lo] + f.value + [d] else ""
  }

  /** The coded fields written one after the other, in order. */
  function Coded(fs: seq<Field>, d: char): string
  {
    if |fs| == 0 then "" else Emit(fs[0], d) + Coded(fs[1..], d)
  }

  /** The coded text from field i on starts with field i. */
  lemma CodedStep(fs: seq<Field>, d: char, i: nat)
    requires i < |fs|
    ensures Coded(fs[i..], d) == Emit(fs[i], d) + Coded(fs[i + 1..], d)
  {
    assert fs[i..][1..] == fs[i + 1..];
  }

  /** The room the picked fields take when written: their values plus three runes each. */
  function PickedLength(fs: seq<Field>, picks: seq<nat>): nat
    requires forall k | 0 <= k < |picks| :: picks[k] < |fs|
  {
    if |picks| == 0 then 0 else |fs[picks[0]].value| + 3 + PickedLength(fs, picks[1..])
  }

  /** Picked fields whose values are never empty take at least four runes each. */
  lemma {:induction false} PickedAtLeast(fs: seq<Field>, picks: seq<nat>)
    requires forall k | 0 <= k < |picks| :: picks[k] < |fs| && |fs[picks[k]].value| >= 1
    ensures PickedLength(fs, picks) >= 4 * |picks|
  {
    if |picks| > 0 {
      PickedAtLeast(fs, picks[1..]);
    }
  }

  /** Written fields, picked in increasing order from index `from` on, bound the coded text. */
  lemma {:induction false} CodedPicks(fs: seq<Field>, d: char, picks: seq<nat>, from: nat)
    requires from <= |fs|
    requires forall k | 0 <= k < |picks| :: from <= picks[k] < |fs| && fs[picks[k]].emit
    requires forall j, k | 0 <= j < k < |picks| :: picks[j] < picks[k]
    ensures |Coded(fs[from..], d)| >= PickedLength(fs, picks)
    decreases |fs| - from
  {
    if |picks| > 0 {
      assert from <= picks[0] < |fs|;
      CodedStep(fs, d, from);
      if picks[0] == from {
        assert forall k | 0 <= k < |picks| - 1 :: picks[1..][k] == picks[k + 1] > picks[0];
        CodedPicks(fs, d, picks[1..], from + 1);
      } else {
        CodedPicks(fs, d, picks, from + 1);
      }
    }
  }

  /** The sum of a sequence of lengths. */
  function Sum(least: seq<nat>): nat
  {
    if |least| == 0 then 0 else least[0] + Sum(least[1..])
  }

  /**
   * A written field takes its value's length plus three runes (the tag and the
   * delimiter). A lower bound per field (0 for a field that may be left out,
   * 3 for one always written, more for one whose value is never empty) bounds
   * the coded text.
   */
  lemma {:induction false} CodedLength(fs: seq<Field>, d: char, least: seq<nat>)
    requires |least| == |fs|
    requires forall i | 0 <= i < |fs| && least[i] > 0 :: fs[i].emit && |fs[i].value| + 3 >= least[i]
    ensures |Coded(fs, d)| >= Sum(least)
  {
    if |fs| > 0 {
      CodedLength(fs[1..], d, least[1..]);
    }
  }

  /** What the decoder reads back for a field: its value when written, "" otherwise. */
  function Seen(f: Field): string
  {
    if f.emit then f.value else ""
  }

  /** No tag occurs twice. */
  predicate Distinct(tags: seq<Tag>)
  {
    forall i, j | 0 <= i < j < |tags| :: tags[i] != tags[j]
  }

  /** Fields carrying distinct tags, in order, are each the only one with their tag. */
  lemma UniqueTags(fs: seq<Field>, tags: seq<Tag>)
    requires |fs| == |tags| && Distinct(tags)
    requires forall i | 0 <= i < |fs| :: fs[i].tag == tags[i]
    ensures forall i | 0 <= i < |fs| :: Unique(fs, i)
  {
    forall i, j | 0 <= i < |fs| && 0 <= j < |fs| && j != i
      ensures fs[j].tag != fs[i].tag
    {
      if j < i { assert tags[j] != tags[i]; } else { assert tags[i] != tags[j]; }
    }
  }

  /** No written field contains the delimiter in its value. */
  predicate Clean(fs: seq<Field>, d: char)
  {
    forall i | 0 <= i < |fs| && fs[i].emit :: d !in fs[i].value
  }

  /** The field at i is the only one carrying its tag. */
  predicate Unique(fs: seq<Field>, i: int)
    requires 0 <= i < |fs|
  {
    forall j | 0 <= j < |fs| && j != i :: fs[j].tag != fs[i].tag
  }

  /** Fields whose tags each map back to their own index under some slot function carry distinct tags. */
  lemma UniqueBySlot(fs: seq<Field>, slot: Tag -> int)
    requires forall i | 0 <= i < |fs| :: slot(fs[i].tag) == i
    ensures forall i | 0 <= i < |fs| :: Unique(fs, i)
  {
  }

  /**
   * A delimiter that can never occur in a tag, a number, a date or a checksum:
   * not a digit, not an upper-case letter, not a space and not a minus sign.
   */
  predicate DelimiterSafe(d: char)
  {
    !('0' <= d <= '9') && !('A' <= d <= 'Z') && d != ' ' && d != '-'
  }

  /** The map ExtractFields is called with: every requested tag mapped to "". */
  function Init(keys: seq<Tag>): (m: map<Tag, string>)
    ensures m.Keys == set t | t in keys
    ensures forall t | t in m :: m[t] == ""
  {
    map t | t in keys :: ""
  }

  /** The map ExtractMultiFields is called with: every requested tag mapped to []. */
  function InitMulti(keys: seq<Tag>): (m: map<Tag, seq<string>>)
    ensures m.Keys == set t | t in keys
    ensures forall t | t in m :: m[t] == []
  {
    map t | t in keys :: []
  }

  // ---------------------------------------------------------------------
  // The epilogue and the frame

  /** "AY<seq>AZ" followed by the checksum of everything written before it. */
  function Epilogue(body: string, seqNum: int, ed: bool): string
  {
    if ed then
      var e := "AY" + Itoa(seqNum) + "AZ";
      e + Utils.Checksum(body + e)
    else ""
  }

  /** The end of every Marshal: the optional epilogue and the terminator. */
  function Frame(body: string, seqNum: int, ed: bool, t: char): string
  {
    body + Epilogue(body, seqNum, ed) + [t]
  }

  /** A frame around a prefix and coded fields keeps both in place. */
  lemma FrameLayout(p: string, c: string, seqNum: int, ed: bool, t: char)
    ensures |Frame(p + c, seqNum, ed, t)| > |p| + |c|
    ensures Frame(p + c, seqNum, ed, t)[..|p|] == p
    ensures Frame(p + c, seqNum, ed, t)[|p|..] == c + Epilogue(p + c, seqNum, ed) + [t]
  {
    var e := Epilogue(p + c, seqNum, ed);
    assert Frame(p + c, seqNum, ed, t) == p + (c + e + [t]);
  }

  /**
   * With error detection the line is everything written so far, "AY<seq>AZ",
   * the checksum of all of that, and the terminator.
   */
  lemma FrameChecksum(body: string, seqNum: int, t: char)
    ensures Frame(body, seqNum, true, t) == Utils.AppendChecksum(body + "AY" + Itoa(seqNum) + "AZ") + [t]
  {
    var e := "AY" + Itoa(seqNum) + "AZ";
    var c := Utils.Checksum(body + e);
    calc {
      Frame(body, seqNum, true, t);
      body + Epilogue(body, seqNum, true) + [t];
      { assert Epilogue(body, seqNum, true) == e + c; }
      body + (e + c) + [t];
      { Associative(body, e, c); }
      body + e + c + [t];
      { Utils.AppendChecksumText(body + e); }
      Utils.AppendChecksum(body + e) + [t];
      { assert body + e == body + "AY" + Itoa(seqNum) + "AZ"; }
      Utils.AppendChecksum(body + "AY" + Itoa(seqNum) + "AZ") + [t];
    }
  }

  lemma Associative(a: string, b: string, c: string)
    ensures a + (b + c) == a + b + c
  {
  }

  /** A slice inside a line's known beginning is the same slice of that beginning. */
  lemma Slice(r: string, s: string, i: nat, j: nat)
    requires |s| <= |r| && r[..|s|] == s && i <= j <= |s|
    ensures r[i..j] == s[i..j]
  {
    forall k | i <= k < j
      ensures r[k] == s[k]
    {
      assert r[..|s|][k] == r[k];
    }
  }

  /** Where each of two pieces sits in a line that begins with them. */
  lemma Layout2(r: string, a: string, b: string)
    requires |a + b| <= |r| && r[..|a + b|] == a + b
    ensures r[..|a|] == a && r[|a|..|a| + |b|] == b
  {
    var s := a + b;
    Slice(r, s, 0, |a|);
    Slice(r, s, |a|, |a| + |b|);
  }

  /** Where each of three pieces sits in a line that begins with them. */
  lemma Layout3(r: string, a: string, b: string, c: string)
    requires |a + b + c| <= |r| && r[..|a + b + c|] == a + b + c
    ensures r[..|a|] == a && r[|a|..|a| + |b|] == b && r[|a| + |b|..|a| + |b| + |c|] == c
  {
    var p := a + b;
    assert a + b + c == p + c;
    Layout2(r, p, c);
    Layout2(r, a, b);
  }

  /** Where each of four pieces sits in a line that begins with them. */
  lemma Layout4(r: string, a: string, b: string, c: string, e: string)
    requires |a + b + c + e| <= |r| && r[..|a + b + c + e|] == a + b + c + e
    ensures r[..|a|] == a && r[|a|..|a| + |b|] == b && r[|a| + |b|..|a| + |b| + |c|] == c
    ensures r[|a| + |b| + |c|..|a| + |b| + |c| + |e|] == e
  {
    var p := a + b + c;
    assert a + b + c + e == p + e;
    Layout2(r, p, e);
    Layout3(r, a, b, c);
  }

  /** Where each of five pieces sits in a line that begins with them. */
  lemma Layout5(r: string, a: string, b: string, c: string, e: string, f: string)
    requires |a + b + c + e + f| <= |r| && r[..|a + b + c + e + f|] == a + b + c + e + f
    ensures r[..|a|] == a && r[|a|..|a| + |b|] == b && r[|a| + |b|..|a| + |b| + |c|] == c
    ensures r[|a| + |b| + |c|..|a| + |b| + |c| + |e|] == e
    ensures r[|a| + |b| + |c| + |e|..|a| + |b| + |c| + |e| + |f|] == f
  {
    var p := a + b + c + e;
    assert a + b + c + e + f == p + f;
    Layout2(r, p, f);
    Layout4(r, a, b, c, e);
  }

  /** Where each of six pieces sits in a line that begins with them. */
  lemma Layout6(r: string, a: string, b: string, c: string, e: string, f: string, g: string)
    requires |a + b + c + e + f + g| <= |r| && r[..|a + b + c + e + f + g|] == a + b + c + e + f + g
    ensures r[..|a|] == a && r[|a|..|a| + |b|] == b && r[|a| + |b|..|a| + |b| + |c|] == c
    ensures r[|a| + |b| + |c|..|a| + |b| + |c| + |e|] == e
    ensures r[|a| + |b| + |c| + |e|..|a| + |b| + |c| + |e| + |f|] == f
    ensures r[|a| + |b| + |c| + |e| + |f|..|a| + |b| + |c| + |e| + |f| + |g|] == g
  {
    var p := a + b + c + e + f;
    assert a + b + c + e + f + g == p + g;
    Layout2(r, p, g);
    Layout5(r, a, b, c, e, f);
  }

  /** Where each of seven pieces sits in a line that begins with them. */
  lemma Layout7(r: string, a: string, b: string, c: string, e: string, f: string, g: string, h: string)
    requires |a + b + c + e + f + g + h| <= |r| && r[..|a + b + c + e + f + g + h|] == a + b + c + e + f + g + h
    ensures r[..|a|] == a && r[|a|..|a| + |b|] == b && r[|a| + |b|..|a| + |b| + |c|] == c
    ensures r[|a| + |b| + |c|..|a| + |b| + |c| + |e|] == e
    ensures r[|a| + |b| + |c| + |e|..|a| + |b| + |c| + |e| + |f|] == f
    ensures r[|a| + |b| + |c| + |e| + |f|..|a| + |b| + |c| + |e| + |f| + |g|] == g
    ensures r[|a| + |b| + |c| + |e| + |f| + |g|..|a| + |b| + |c| + |e| + |f| + |g| + |h|] == h
  {
    var p := a + b + c + e + f + g;
    assert a + b + c + e + f + g + h == p + h;
    Layout2(r, p, h);
    Layout6(r, a, b, c, e, f, g);
  }

  /** Where each of eight pieces sits in a line that begins with them. */
  lemma Layout8(r: string, a: string, b: string, c: string, e: string, f: string, g: string, h: string, k: string)
    requires |a + b + c + e + f + g + h + k| <= |r| && r[..|a + b + c + e + f + g + h + k|] == a + b + c + e + f + g + h + k
    ensures r[..|a|] == a && r[|a|..|a| + |b|] == b && r[|a| + |b|..|a| + |b| + |c|] == c
    ensures r[|a| + |b| + |c|..|a| + |b| + |c| + |e|] == e
    ensures r[|a| + |b| + |c| + |e|..|a| + |b| + |c| + |e| + |f|] == f
    ensures r[|a| + |b| + |c| + |e| + |f|..|a| + |b| + |c| + |e| + |f| + |g|] == g
    ensures r[|a| + |b| + |c| + |e| + |f| + |g|..|a| + |b| + |c| + |e| + |f| + |g| + |h|] == h
    ensures r[|a| + |b| + |c| + |e| + |f| + |g| + |h|..|a| + |b| + |c| + |e| + |f| + |g| + |h| + |k|] == k
  {
    var p := a + b + c + e + f + g + h;
    assert a + b + c + e + f + g + h + k == p + k;
    Layout2(r, p, k);
    Layout7(r, a, b, c, e, f, g, h);
  }

  /** A line that begins with pre and then x has pre up to offset i and x from i to j. */
  lemma Piece(r: string, pre: string, x: string, i: int, j: int)
    requires i == |pre| && j == i + |x| && j <= |r| && r[..j] == pre + x
    ensures r[..i] == pre && r[i..j] == x
  {
    Slice(r, pre + x, 0, i);
    Slice(r, pre + x, i, j);
    assert (pre + x)[..i] == pre && (pre + x)[i..j] == x;
  }

  /**
   * Marshal's line for a prefix of two pieces, with the offsets where the
   * pieces end given by the caller.
   */
  lemma Placed2(a: string, b: string, coded: string, seqNum: int, ed: bool, t: char, i: int, n: int)
    requires i == |a| && n == i + |b|
    ensures var r := Frame(a + b + coded, seqNum, ed, t);
      && |r| > n + |coded|
      && r[..i] == a && r[i..n] == b
      && r[n..] == coded + Epilogue(r[..n] + coded, seqNum, ed) + [t]
  {
    FrameLayout(a + b, coded, seqNum, ed, t);
    Piece(Frame(a + b + coded, seqNum, ed, t), a, b, i, n);
  }

  /**
   * Marshal's line for a prefix of three pieces, with the offsets where the
   * pieces end given by the caller.
   */
  lemma Placed3(a: string, b: string, c: string, coded: string, seqNum: int, ed: bool, t: char, i: int, j: int, n: int)
    requires i == |a| && j == i + |b| && n == j + |c|
    ensures var r := Frame(a + b + c + coded, seqNum, ed, t);
      && |r| > n + |coded|
      && r[..i] == a && r[i..j] == b && r[j..n] == c
      && r[n..] == coded + Epilogue(r[..n] + coded, seqNum, ed) + [t]
  {
    var r := Frame(a + b + c + coded, seqNum, ed, t);
    FrameLayout(a + b + c, coded, seqNum, ed, t);
    Piece(r, a + b, c, j, n);
    Piece(r, a, b, i, j);
  }

  /**
   * Marshal's line for a prefix of four pieces, with the offsets where the
   * pieces end given by the caller.
   */
  lemma Placed4(a: string, b: string, c: string, e: string, coded: string, seqNum: int, ed: bool, t: char,
    i: int, j: int, k: int, n: int)
    requires i == |a| && j == i + |b| && k == j + |c| && n == k + |e|
    ensures var r := Frame(a + b + c + e + coded, seqNum, ed, t);
      && |r| > n + |coded|
      && r[..i] == a && r[i..j] == b && r[j..k] == c && r[k..n] == e
      && r[n..] == coded + Epilogue(r[..n] + coded, seqNum, ed) + [t]
  {
    var r := Frame(a + b + c + e + coded, seqNum, ed, t);
    FrameLayout(a + b + c + e, coded, seqNum, ed, t);
    Piece(r, a + b + c, e, k, n);
    Piece(r, a + b, c, j, k);
    Piece(r, a, b, i, j);
  }

  /**
   * Marshal's line for a prefix of five pieces, with the offsets where the
   * pieces end given by the caller.
   */
  lemma Placed5(a: string, b: string, c: string, e: string, f: string, coded: string, seqNum: int, ed: bool, t: char,
    i: int, j: int, k: int, l: int, n: int)
    requires i == |a| && j == i + |b| && k == j + |c| && l == k + |e| && n == l + |f|
    ensures var r := Frame(a + b + c + e + f + coded, seqNum, ed, t);
      && |r| > n + |coded|
      && r[..i] == a && r[i..j] == b && r[j..k] == c && r[k..l] == e && r[l..n] == f
      && r[n..] == coded + Epilogue(r[..n] + coded, seqNum, ed) + [t]
  {
    var r := Frame(a + b + c + e + f + coded, seqNum, ed, t);
    FrameLayout(a + b + c + e + f, coded, seqNum, ed, t);
    Piece(r, a + b + c + e, f, l, n);
    Piece(r, a + b + c, e, k, l);
    Piece(r, a + b, c, j, k);
    Piece(r, a, b, i, j);
  }

  /**
   * Marshal's line for a prefix of two pieces: each piece at its offset, then
   * the coded fields, the epilogue and the terminator.
   */
  lemma Framed2(a: string, b: string, coded: string, seqNum: int, ed: bool, t: char)
    ensures var r := Frame(a + b + coded, seqNum, ed, t);
      var n := |a| + |b|;
      && |r| > n + |coded|
      && r[..|a|] == a && r[|a|..n] == b
      && r[n..] == coded + Epilogue(r[..n] + coded, seqNum, ed) + [t]
  {
    var p := a + b;
    var r := Frame(p + coded, seqNum, ed, t);
    assert |p| == |a| + |b|;
    FrameLayout(p, coded, seqNum, ed, t);
    assert r[..|p|] == p;
    Layout2(r, a, b);
  }

  /**
   * Marshal's line for a prefix of three pieces: each piece at its offset, then
   * the coded fields, the epilogue and the terminator.
   */
  lemma Framed3(a: string, b: string, c: string, coded: string, seqNum: int, ed: bool, t: char)
    ensures var r := Frame(a + b + c + coded, seqNum, ed, t);
      var n := |a| + |b| + |c|;
      && |r| > n + |coded|
      && r[..|a|] == a && r[|a|..|a| + |b|] == b && r[|a| + |b|..n] == c
      && r[n..] == coded + Epilogue(r[..n] + coded, seqNum, ed) + [t]
  {
    var p := a + b + c;
    var r := Frame(p + coded, seqNum, ed, t);
    assert |p| == |a| + |b| + |c|;
    FrameLayout(p, coded, seqNum, ed, t);
    assert r[..|p|] == p;
    Layout3(r, a, b, c);
  }

  /**
   * Marshal's line for a prefix of four pieces: each piece at its offset, then
   * the coded fields, the epilogue and the terminator.
   */
  lemma Framed4(a: string, b: string, c: string, e: string, coded: string, seqNum: int, ed: bool, t: char)
    ensures var r := Frame(a + b + c + e + coded, seqNum, ed, t);
      var n := |a| + |b| + |c| + |e|;
      && |r| > n + |coded|
      && r[..|a|] == a && r[|a|..|a| + |b|] == b && r[|a| + |b|..|a| + |b| + |c|] == c
      && r[|a| + |b| + |c|..n] == e
      && r[n..] == coded + Epilogue(r[..n] + coded, seqNum, ed) + [t]
  {
    var p := a + b + c + e;
    var r := Frame(p + coded, seqNum, ed, t);
    assert |p| == |a| + |b| + |c| + |e|;
    FrameLayout(p, coded, seqNum, ed, t);
    assert r[..|p|] == p;
    Layout4(r, a, b, c, e);
  }

  /**
   * Marshal's line for a prefix of five pieces: each piece at its offset, then
   * the coded fields, the epilogue and the terminator.
   */
  lemma Framed5(a: string, b: string, c: string, e: string, f: string, coded: string, seqNum: int, ed: bool, t: char)
    ensures var r := Frame(a + b + c + e + f + coded, seqNum, ed, t);
      var n := |a| + |b| + |c| + |e| + |f|;
      && |r| > n + |coded|
      && r[..|a|] == a && r[|a|..|a| + |b|] == b && r[|a| + |b|..|a| + |b| + |c|] == c
      && r[|a| + |b| + |c|..|a| + |b| + |c| + |e|] == e && r[|a| + |b| + |c| + |e|..n] == f
      && r[n..] == coded + Epilogue(r[..n] + coded, seqNum, ed) + [t]
  {
    var p := a + b + c + e + f;
    var r := Frame(p + coded, seqNum, ed, t);
    assert |p| == |a| + |b| + |c| + |e| + |f|;
    FrameLayout(p, coded, seqNum, ed, t);
    assert r[..|p|] == p;
    Layout5(r, a, b, c, e, f);
  }

  /**
   * Marshal's line for a prefix of six pieces: each piece at its offset, then
   * the coded fields, the epilogue and the terminator.
   */
  lemma Framed6(a: string, b: string, c: string, e: string, f: string, g: string, coded: string, seqNum: int, ed: bool, t: char)
    ensures var r := Frame(a + b + c + e + f + g + coded, seqNum, ed, t);
      var n := |a| + |b| + |c| + |e| + |f| + |g|;
      && |r| > n + |coded|
      && r[..|a|] == a && r[|a|..|a| + |b|] == b && r[|a| + |b|..|a| + |b| + |c|] == c
      && r[|a| + |b| + |c|..|a| + |b| + |c| + |e|] == e
      && r[|a| + |b| + |c| + |e|..|a| + |b| + |c| + |e| + |f|] == f && r[|a| + |b| + |c| + |e| + |f|..n] == g
      && r[n..] == coded + Epilogue(r[..n] + coded, seqNum, ed) + [t]
  {
    var p := a + b + c + e + f + g;
    var r := Frame(p + coded, seqNum, ed, t);
    assert |p| == |a| + |b| + |c| + |e| + |f| + |g|;
    FrameLayout(p, coded, seqNum, ed, t);
    assert r[..|p|] == p;
    Layout6(r, a, b, c, e, f, g);
  }

  /** Without error detection the line is the body and the terminator alone. */
  lemma FrameBare(body: string, seqNum: int, t: char)
    ensures Frame(body, seqNum, false, t) == body + [t]
  {
    assert Epilogue(body, seqNum, false) == "";
  }

  /** A number as %d writes it never holds a safe delimiter. */
  lemma NumberClean(n: int, d: char)
    requires DelimiterSafe(d)
    ensures d !in Itoa(n)
  {
    var s := Itoa(n);
    forall i | 0 <= i < |s|
      ensures s[i] != d
    {
      if n >= 0 {
        assert IsDigit(s[i]);
      } else if i > 0 {
        assert s[i] == Digits(-n)[i - 1];
        assert IsDigit(s[i]);
      }
    }
  }

  /** A formatted date never holds a safe delimiter. */
  lemma DateClean(t: Dates.Date, d: char)
    requires DelimiterSafe(d)
    ensures d !in Dates.Format(t)
  {
    var s := Dates.Format(t);
    Dates.FormatShape(t);
    forall i | 0 <= i < |s|
      ensures s[i] != d
    {
      if i < 8 {
        assert s[i] == s[..8][i];
      } else if i < 12 {
        assert s[i] == s[8..12][i - 8];
      } else {
        assert s[i] == s[12..][i - 12];
      }
    }
  }

  /** An optional coded date: the zero time when absent, otherwise it must parse. */
  function DateOf(s: string): (r: Result<Dates.Date>)
    ensures s == "" ==> r == Ok(Dates.Zero)
    ensures s != "" ==> r == Dates.Parse(s)
  {
    if s == "" then Ok(Dates.Zero) else Dates.Parse(s)
  }

  /** The text written for an optional date: nothing for the zero time. */
  function DateText(t: Dates.Date): string
  {
    if Dates.IsZero(t) then "" else Dates.Format(t)
  }

  /** An optional date reads back from the text written for it. */
  lemma DateOfText(t: Dates.Date)
    ensures DateOf(DateText(t)) == Ok(t)
  {
    if !Dates.IsZero(t) {
      Dates.ParseFormat(t);
    }
  }

  /** An optional coded number: `none` when absent, otherwise it must be a number. */
  function NumberOf(s: string, none: int): (r: Result<int>)
    ensures s == "" ==> r == Ok(none)
    ensures s != "" ==> r == Atoi(s)
  {
    if s == "" then Ok(none) else Atoi(s)
  }

  /** A count written only when positive reads back, 0 standing for the absent one. */
  lemma NumberOfText(n: int)
    requires n >= 0
    ensures NumberOf(if n > 0 then Itoa(n) else "", 0) == Ok(n)
  {
    AtoiItoa(n);
  }

  /** The one-rune flags of a fixed prefix: n runes from index i, each read with ParseBool. */
  function FlagRunes(line: string, i: nat, n: nat): (flags: seq<bool>)
    requires i + n <= |line|
    ensures |flags| == n && forall k | 0 <= k < n :: flags[k] == Utils.ParseBool(line[i + k])
  {
    seq(n, k requires 0 <= k < n => Utils.ParseBool(line[i + k]))
  }

  /** Runes that read as the given flags give those flags back. */
  lemma FlagRunesOf(line: string, i: nat, flags: seq<bool>)
    requires i + |flags| <= |line|
    requires forall k | 0 <= k < |flags| :: Utils.ParseBool(line[i + k]) == flags[k]
    ensures FlagRunes(line, i, |flags|) == flags
  {
  }

  /** Flags read from a piece of a line are the flags read from the piece. */
  lemma FlagRunesText(line: string, i: nat, text: string)
    requires i + |text| <= |line| && line[i..i + |text|] == text
    ensures FlagRunes(line, i, |text|) == FlagRunes(text, 0, |text|)
  {
    assert forall k | 0 <= k < |text| :: text[k] == line[i + k];
  }

  /** A number written as %0wd only when positive reads back, 0 standing for the absent one. */
  lemma PaddedOfText(n: int, w: nat)
    requires 0 <= n < Pow10(w) && w >= 1
    ensures NumberOf(if n > 0 then Pad(n, w) else "", 0) == Ok(n)
  {
    if n > 0 {
      PadRoundTrip(n, w);
    }
  }

  /** A number written as %0wd never holds a safe delimiter. */
  lemma PaddedClean(n: int, w: nat, d: char)
    requires 0 <= n < Pow10(w) && w >= 1 && DelimiterSafe(d)
    ensures d !in Pad(n, w)
  {
    PadRoundTrip(n, w);
  }

  /** A number written unless it is the sentinel `none` reads back, the sentinel standing for the absent one. */
  lemma SentinelOfText(n: int, none: int)
    ensures NumberOf(if n != none then Itoa(n) else "", none) == Ok(n)
  {
    AtoiItoa(n);
  }

  /** A flag read from the first rune of a coded value: false when the value is absent. */
  function FlagOf(s: string): bool
  {
    |s| > 0 && Utils.ParseBool(s[0])
  }

  /** A three-rune code (a media or currency type): kept only when it has exactly three runes. */
  function ThreeOf(s: string): (r: string)
    ensures |s| == 3 ==> r == s
    ensures |s| != 3 ==> r == ""
  {
    if |s| == 3 then s else ""
  }

  /** The sequence number a decoder takes from the AY text: 0 when absent or not a number. */
  function SeqNumOf(s: string): (n: int)
    ensures s == "" ==> n == 0
    ensures s != "" && Atoi(s).Ok? ==> n == Atoi(s).value
    ensures s != "" && Atoi(s).Err? ==> n == 0
  {
    if s == "" then 0
    else match Atoi(s)
      case Ok(v) => v
      case Err(_) => 0
  }

  /** The AY text for a written epilogue is the single digit of the sequence number. */
  function SeqText(seqNum: int, ed: bool): string
    requires 0 <= seqNum <= 9
  {
    if ed then [DigitChar(seqNum)] else ""
  }

  /** Decoding the AY text gives the sequence number back, or 0 without an epilogue. */
  lemma SeqNumOfText(seqNum: int, ed: bool)
    requires 0 <= seqNum <= 9
    ensures SeqNumOf(SeqText(seqNum, ed)) == if ed then seqNum else 0
  {
    if ed {
      AtoiItoa(seqNum);
    }
  }

  // ---------------------------------------------------------------------
  // Decoding the coded fields

  /** Storing the fields of a message one by one, the way the segments are met. */
  function StoreField(m: map<Tag, string>, f: Field): (r: map<Tag, string>)
    ensures r.Keys == m.Keys
  {
    if f.emit then Store(m, [f.tag.hi, f.tag.lo] + f.value) else m
  }

  function StoreAll(fs: seq<Field>, m: map<Tag, string>): (r: map<Tag, string>)
    ensures r.Keys == m.Keys
  {
    if |fs| == 0 then m else StoreAll(fs[1..], StoreField(m, fs[0]))
  }

  lemma CleanTail(fs: seq<Field>, d: char)
    requires |fs| > 0 && Clean(fs, d)
    ensures Clean(fs[1..], d)
  {
    forall i | 0 <= i < |fs[1..]| && fs[1..][i].emit
      ensures d !in fs[1..][i].value
    {
      assert fs[1..][i] == fs[i + 1];
    }
  }

  lemma CodedCons(fs: seq<Field>, d: char, tail: string)
    requires |fs| > 0
    ensures Coded(fs, d) + tail == Emit(fs[0], d) + (Coded(fs[1..], d) + tail)
  {
  }

  lemma {:induction false} ExtractCoded(fs: seq<Field>, d: char, tail: string, m: map<Tag, string>)
    requires Clean(fs, d) && DelimiterSafe(d)
    ensures Extract(Coded(fs, d) + tail, d, m) == Extract(tail, d, StoreAll(fs, m))
  {
    if |fs| > 0 {
      var f := fs[0];
      CleanTail(fs, d);
      ExtractCoded(fs[1..], d, tail, StoreField(m, f));
      CodedCons(fs, d, tail);
      assert StoreAll(fs, m) == StoreAll(fs[1..], StoreField(m, f));
      if f.emit {
        var seg := [f.tag.hi, f.tag.lo] + f.value;
        assert Emit(f, d) == seg + [d];
        assert d !in seg;
        ExtractStep(seg, Coded(fs[1..], d) + tail, d, m);
        assert Extract(Coded(fs, d) + tail, d, m) == Extract(Coded(fs[1..], d) + tail, d, Store(m, seg));
        assert Store(m, seg) == StoreField(m, f);
      } else {
        assert Emit(f, d) == "";
        assert Coded(fs, d) + tail == Coded(fs[1..], d) + tail;
      }
    } else {
      assert Coded(fs, d) + tail == tail;
    }
  }

  lemma {:induction false} StoreAllOther(fs: seq<Field>, m: map<Tag, string>, t: Tag)
    requires t in m
    requires forall j | 0 <= j < |fs| :: fs[j].tag != t
    ensures StoreAll(fs, m)[t] == m[t]
  {
    if |fs| > 0 {
      assert fs[0].tag != t;
      StoreAllOther(fs[1..], StoreField(m, fs[0]), t);
    }
  }

  /** A field whose tag no other field carries is read back as written. */
  lemma {:induction false} StoreAllLookup(fs: seq<Field>, m: map<Tag, string>, i: int)
    requires 0 <= i < |fs| && Unique(fs, i)
    requires fs[i].tag in m && fs[i].tag != AY && m[fs[i].tag] == ""
    ensures StoreAll(fs, m)[fs[i].tag] == Seen(fs[i])
  {
    var t := fs[i].tag;
    var m1 := StoreField(m, fs[0]);
    if i == 0 {
      assert m1[t] == Seen(fs[0]);
      StoreAllOther(fs[1..], m1, t);
    } else {
      assert fs[0].tag != t;
      assert m1[t] == "";
      assert Unique(fs[1..], i - 1) by {
        forall j | 0 <= j < |fs[1..]| && j != i - 1 ensures fs[1..][j].tag != fs[1..][i - 1].tag {
          assert fs[1..][j] == fs[j + 1];
        }
      }
      StoreAllLookup(fs[1..], m1, i - 1);
    }
  }

  /** The epilogue holds no delimiter, and when written it is a segment carrying AY. */
  lemma EpilogueShape(body: string, seqNum: int, ed: bool, d: char)
    requires DelimiterSafe(d) && 0 <= seqNum <= 9
    ensures d !in Epilogue(body, seqNum, ed)
    ensures ed ==> Carries(Epilogue(body, seqNum, ed), AY) && Epilogue(body, seqNum, ed)[2..3] == SeqText(seqNum, ed)
    ensures !ed ==> Epilogue(body, seqNum, ed) == ""
  {
    if ed {
      var e := "AY" + Itoa(seqNum) + "AZ";
      var c := Utils.Checksum(body + e);
      assert Itoa(seqNum) == [DigitChar(seqNum)];
      assert d !in e;
      assert d !in c by {
        forall k | 0 <= k < |c| ensures c[k] != d { assert IsHexDigit(c[k]); }
      }
      assert Epilogue(body, seqNum, ed) == e + c;
    }
  }

  /** The epilogue and terminator only ever set AY, and to the digit of the sequence number. */
  lemma ExtractEpilogue(body: string, seqNum: int, ed: bool, t: char, d: char, m: map<Tag, string>)
    requires DelimiterSafe(d) && 0 <= seqNum <= 9 && AY in m
    ensures Extract(Epilogue(body, seqNum, ed) + [t], d, m) == if ed then m[AY := SeqText(seqNum, ed)] else m
  {
    var seg := Epilogue(body, seqNum, ed);
    EpilogueShape(body, seqNum, ed, d);
    if t == d {
      assert seg + [t] == seg + [d] + "";
      ExtractStep(seg, "", d, m);
      ExtractLastSegment("", d, Store(m, seg));
      assert Store(Store(m, seg), "") == Store(m, seg);
    } else {
      assert d !in seg + [t];
      ExtractLastSegment(seg + [t], d, m);
      if ed {
        assert (seg + [t])[..3] == seg[..3];
      }
    }
  }

  /**
   * Every written field whose tag is requested and carried by no other field
   * is read back as written; a requested field that is not written reads "".
   */
  predicate ReadsBack(fs: seq<Field>, keys: seq<Tag>, codes: map<Tag, string>)
  {
    forall i | 0 <= i < |fs| && fs[i].tag in keys && Unique(fs, i) :: Get(codes, fs[i].tag) == Seen(fs[i])
  }

  /** Storing fields into the initial map reads each unique one back. */
  lemma {:induction false} StoreAllReadsBack(fs: seq<Field>, keys: seq<Tag>)
    requires forall j | 0 <= j < |fs| :: fs[j].tag != AY
    ensures ReadsBack(fs, keys, StoreAll(fs, Init(keys)))
  {
    forall i | 0 <= i < |fs| && fs[i].tag in keys && Unique(fs, i)
      ensures Get(StoreAll(fs, Init(keys)), fs[i].tag) == Seen(fs[i])
    {
      StoreAllLookup(fs, Init(keys), i);
    }
  }


  /** Setting AY afterwards does not disturb fields that never carry AY. */
  lemma {:induction false} ReadsBackBesideAY(fs: seq<Field>, keys: seq<Tag>, codes: map<Tag, string>, v: string)
    requires ReadsBack(fs, keys, codes) && AY in codes
    requires forall j | 0 <= j < |fs| :: fs[j].tag != AY
    ensures ReadsBack(fs, keys, codes[AY := v])
  {
    forall i | 0 <= i < |fs| && fs[i].tag in keys && Unique(fs, i)
      ensures Get(codes[AY := v], fs[i].tag) == Seen(fs[i])
    {
      assert fs[i].tag != AY;
    }
  }

  /**
   * What ExtractFields returns for the coded part of a line that Marshal wrote:
   * the fields read back, and AY holds the digit of the sequence number when
   * the epilogue was written.
   */
  lemma CodesOf(fs: seq<Field>, keys: seq<Tag>, body: string, seqNum: int, ed: bool, d: char, t: char)
    requires AY in keys && forall j | 0 <= j < |fs| :: fs[j].tag != AY
    requires Clean(fs, d) && DelimiterSafe(d) && 0 <= seqNum <= 9
    ensures var codes := Extract(Coded(fs, d) + Epilogue(body, seqNum, ed) + [t], d, Init(keys));
      Get(codes, AY) == SeqText(seqNum, ed) && ReadsBack(fs, keys, codes)
  {
    var m := Init(keys);
    var tail := Epilogue(body, seqNum, ed) + [t];
    assert Coded(fs, d) + Epilogue(body, seqNum, ed) + [t] == Coded(fs, d) + tail;
    ExtractCoded(fs, d, tail, m);
    var m1 := StoreAll(fs, m);
    ExtractEpilogue(body, seqNum, ed, t, d, m1);
    StoreAllOther(fs, m, AY);
    StoreAllReadsBack(fs, keys);
    if ed {
      ReadsBackBesideAY(fs, keys, m1, SeqText(seqNum, ed));
    }
  }

  /** CodesOf for a line whose tail, from rune p on, Marshal wrote. */
  lemma ReadLine(fs: seq<Field>, keys: seq<Tag>, line: string, p: nat, seqNum: int, ed: bool, d: char, t: char)
    requires p <= |line| && line[p..] == Coded(fs, d) + Epilogue(line[..p] + Coded(fs, d), seqNum, ed) + [t]
    requires AY in keys && forall j | 0 <= j < |fs| :: fs[j].tag != AY
    requires Clean(fs, d) && DelimiterSafe(d) && 0 <= seqNum <= 9
    ensures var codes := Extract(line[p..], d, Init(keys));
      Get(codes, AY) == SeqText(seqNum, ed) && ReadsBack(fs, keys, codes)
  {
    CodesOf(fs, keys, line[..p] + Coded(fs, d), seqNum, ed, d, t);
  }

  // ---------------------------------------------------------------------
  // Runs of fixed-width numbers

  /** Numbers written one after the other with %0wd. */
  function PadRun(ns: seq<int>, w: nat): string
  {
    if |ns| == 0 then "" else Pad(ns[0], w) + PadRun(ns[1..], w)
  }

  /** Every number takes at most w digits. */
  predicate FitRun(ns: seq<int>, w: nat)
  {
    forall i | 0 <= i < |ns| :: 0 <= ns[i] < Pow10(w)
  }

  /** n numbers of w runes each, read with Atoi in order; the first that is not a number is reported. */
  function ReadRun(s: string, n: nat, w: nat): (r: Result<seq<int>>)
    requires n * w <= |s|
    ensures r.Ok? ==> |r.value| == n
    ensures n > 0 && Atoi(s[..w]).Err? ==> r == Err(Atoi(s[..w]).error)
  {
    if n == 0 then Ok([])
    else
      assert (n - 1) * w == n * w - w;
      match Atoi(s[..w])
      case Err(e) => Err(e)
      case Ok(x) =>
        match ReadRun(s[w..], n - 1, w)
        case Err(e) => Err(e)
        case Ok(xs) => Ok([x] + xs)
  }

  /** Each number of a run takes w runes. */
  lemma {:induction false} PadRunLength(ns: seq<int>, w: nat)
    requires w >= 1 && FitRun(ns, w)
    ensures |PadRun(ns, w)| == |ns| * w
  {
    if |ns| > 0 {
      PadRunLength(ns[1..], w);
      PadRoundTrip(ns[0], w);
      assert |ns| * w == w + (|ns| - 1) * w;
    }
  }

  /** A number read at the front followed by a run read after it. */
  lemma ReadRunStep(s: string, n: nat, w: nat, x: int, xs: seq<int>)
    requires n > 0 && w <= |s| && (n - 1) * w <= |s| - w
    requires Atoi(s[..w]) == Ok(x) && ReadRun(s[w..], n - 1, w) == Ok(xs)
    ensures n * w <= |s| && ReadRun(s, n, w) == Ok([x] + xs)
  {
    assert n * w == w + (n - 1) * w;
  }

  /** The first number of a run takes the first w runes; the rest of the run follows. */
  lemma PadRunFront(ns: seq<int>, w: nat, rest: string)
    requires |ns| > 0 && w >= 1 && 0 <= ns[0] < Pow10(w)
    ensures var s := PadRun(ns, w) + rest;
      w <= |s| && s[..w] == Pad(ns[0], w) && s[w..] == PadRun(ns[1..], w) + rest
  {
    PadRoundTrip(ns[0], w);
    var head, more := Pad(ns[0], w), PadRun(ns[1..], w);
    assert PadRun(ns, w) == head + more;
    Halves3(head, more, rest);
  }

  /** Two parts followed by a third split back at the length of the first. */
  lemma Halves3(x: string, y: string, z: string)
    ensures (x + y + z)[..|x|] == x && (x + y + z)[|x|..] == y + z
  {
    assert x + y + z == x + (y + z);
  }

  /** Numbers that fit their width take w runes each and are read back, whatever follows them. */
  lemma {:induction false} ReadPadRun(ns: seq<int>, w: nat, rest: string)
    requires w >= 1 && FitRun(ns, w)
    ensures |PadRun(ns, w)| == |ns| * w
    ensures ReadRun(PadRun(ns, w) + rest, |ns|, w) == Ok(ns)
  {
    PadRunLength(ns, w);
    if |ns| > 0 {
      assert FitRun(ns[1..], w) by {
        forall i | 0 <= i < |ns| - 1 ensures 0 <= ns[1..][i] < Pow10(w) { assert ns[1..][i] == ns[i + 1]; }
      }
      ReadPadRun(ns[1..], w, rest);
      PadRunFront(ns, w, rest);
      PadRoundTrip(ns[0], w);
      ReadRunStep(PadRun(ns, w) + rest, |ns|, w, ns[0], ns[1..]);
      assert [ns[0]] + ns[1..] == ns;
    }
  }


}
