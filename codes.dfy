// Tagged ("coded") fields of a SIP2 line: a two-letter tag, the value and a
// delimiter. The extractors walk the line segment by segment, the way
// strings.Cut is called in a loop, and record the value of every segment
// whose tag the caller asked for.
module Codes {
  /** A two-character field identifier such as AO or AY. */
  datatype Tag = Tag(hi: char, lo: char)

  /** The tags the messages use: two upper-case letters. */
  type FieldTag = t: Tag | 'A' <= t.hi <= 'Z' && 'A' <= t.lo <= 'Z' witness Tag('A', 'A')

  /** Indexing a Go map: the value stored for t, or "" when t is absent. */
  function Get(m: map<Tag, string>, t: Tag): string
  {
    if t in m then m[t] else ""
  }

  const AA: FieldTag := Tag('A', 'A')
  const AB: FieldTag := Tag('A', 'B')
  const AC: FieldTag := Tag('A', 'C')
  const AD: FieldTag := Tag('A', 'D')
  const AE: FieldTag := Tag('A', 'E')
  const AF: FieldTag := Tag('A', 'F')
  const AG: FieldTag := Tag('A', 'G')
  const AH: FieldTag := Tag('A', 'H')
  const AJ: FieldTag := Tag('A', 'J')
  const AL: FieldTag := Tag('A', 'L')
  const AM: FieldTag := Tag('A', 'M')
  const AN: FieldTag := Tag('A', 'N')
  const AO: FieldTag := Tag('A', 'O')
  const AP: FieldTag := Tag('A', 'P')
  const AQ: FieldTag := Tag('A', 'Q')
  const AS: FieldTag := Tag('A', 'S')
  const AT: FieldTag := Tag('A', 'T')
  const AU: FieldTag := Tag('A', 'U')
  const AV: FieldTag := Tag('A', 'V')
  const AY: FieldTag := Tag('A', 'Y')
  const BD: FieldTag := Tag('B', 'D')
  const BE: FieldTag := Tag('B', 'E')
  const BF: FieldTag := Tag('B', 'F')
  const BG: FieldTag := Tag('B', 'G')
  const BH: FieldTag := Tag('B', 'H')
  const BI: FieldTag := Tag('B', 'I')
  const BK: FieldTag := Tag('B', 'K')
  const BL: FieldTag := Tag('B', 'L')
  const BM: FieldTag := Tag('B', 'M')
  const BN: FieldTag := Tag('B', 'N')
  const BO: FieldTag := Tag('B', 'O')
  const BP: FieldTag := Tag('B', 'P')
  const BQ: FieldTag := Tag('B', 'Q')
  const BR: FieldTag := Tag('B', 'R')
  const BS: FieldTag := Tag('B', 'S')
  const BT: FieldTag := Tag('B', 'T')
  const BU: FieldTag := Tag('B', 'U')
  const BV: FieldTag := Tag('B', 'V')
  const BW: FieldTag := Tag('B', 'W')
  const BX: FieldTag := Tag('B', 'X')
  const BY: FieldTag := Tag('B', 'Y')
  const BZ: FieldTag := Tag('B', 'Z')
  const CA: FieldTag := Tag('C', 'A')
  const CB: FieldTag := Tag('C', 'B')
  const CC: FieldTag := Tag('C', 'C')
  const CD: FieldTag := Tag('C', 'D')
  const CF: FieldTag := Tag('C', 'F')
  const CG: FieldTag := Tag('C', 'G')
  const CH: FieldTag := Tag('C', 'H')
  const CI: FieldTag := Tag('C', 'I')
  const CJ: FieldTag := Tag('C', 'J')
  const CK: FieldTag := Tag('C', 'K')
  const CL: FieldTag := Tag('C', 'L')
  const CM: FieldTag := Tag('C', 'M')
  const CN: FieldTag := Tag('C', 'N')
  const CO: FieldTag := Tag('C', 'O')
  const CP: FieldTag := Tag('C', 'P')
  const CQ: FieldTag := Tag('C', 'Q')

  // ---------------------------------------------------------------------
  // strings.Cut on a one-rune separator

  /** The first position of d in s, or |s| when d does not occur. */
  function Find(s: string, d: char): (i: nat)
    ensures i <= |s| && d !in s[..i]
    ensures i < |s| ==> s[i] == d
  {
    if |s| == 0 then 0
    else if s[0] == d then 0
    else
      var j := Find(s[1..], d);
      assert s[..j + 1] == [s[0]] + s[1..][..j];
      j + 1
  }

  datatype Cutting = Cutting(before: string, after: string, found: bool)

  /** strings.Cut: the text before the first d, the text after it, and whether d occurs. */
  function Cut(s: string, d: char): (r: Cutting)
    ensures r.found <==> d in s
    ensures r.found ==> s == r.before + [d] + r.after && d !in r.before
    ensures !r.found ==> r.before == s && r.after == ""
  {
    var i := Find(s, d);
    if i < |s| then
      assert s == s[..i] + [d] + s[i + 1..];
      Cutting(s[..i], s[i + 1..], true)
    else
      assert s[..i] == s;
      Cutting(s, "", false)
  }

  /** The first separator after a separator-free prefix is the one right after it. */
  lemma {:induction false} FindAt(a: string, b: string, d: char)
    requires d !in a
    ensures Find(a + [d] + b, d) == |a|
  {
    if |a| > 0 {
      assert a[0] in a;
      assert (a + [d] + b)[1..] == a[1..] + [d] + b;
      FindAt(a[1..], b, d);
    }
  }

  /** Cutting a segment followed by the separator gives back the segment and the rest. */
  lemma CutAt(seg: string, rest: string, d: char)
    requires d !in seg
    ensures Cut(seg + [d] + rest, d) == Cutting(seg, rest, true)
  {
    FindAt(seg, rest, d);
    var s := seg + [d] + rest;
    assert s[..|seg|] == seg && s[|seg| + 1..] == rest;
  }

  // ---------------------------------------------------------------------
  // Single-valued extraction (ExtractFields)

  /** A segment carries tag t when it has more than two runes and starts with t. */
  predicate Carries(seg: string, t: Tag)
  {
    |seg| > 2 && seg[0] == t.hi && seg[1] == t.lo
  }

  /** The value recorded for a segment carrying t: only one rune for AY, the rest otherwise. */
  function ValueOf(t: Tag, seg: string): (v: string)
    requires |seg| > 2
    ensures t == AY ==> v == seg[2..3]
    ensures t != AY ==> v == seg[2..]
  {
    if t == AY then seg[2..3] else seg[2..]
  }

  /** One step of ExtractFields: record the segment when its tag is one of the keys. */
  function Store(m: map<Tag, string>, seg: string): (r: map<Tag, string>)
    ensures r.Keys == m.Keys
    ensures forall t | t in m && !Carries(seg, t) :: r[t] == m[t]
    ensures forall t | t in m && Carries(seg, t) :: r[t] == ValueOf(t, seg)
  {
    if |seg| > 2 && Tag(seg[0], seg[1]) in m then
      m[Tag(seg[0], seg[1]) := ValueOf(Tag(seg[0], seg[1]), seg)]
    else m
  }

  /** ExtractFields as a function: cut the line at each delimiter and store every segment. */
  function Extract(line: string, d: char, m: map<Tag, string>): (r: map<Tag, string>)
    ensures r.Keys == m.Keys
    decreases |line|
  {
    var c := Cut(line, d);
    if c.found then Extract(c.after, d, Store(m, c.before)) else Store(m, c.before)
  }

  /** A segment free of the delimiter is stored, and extraction goes on after the delimiter. */
  lemma ExtractStep(seg: string, rest: string, d: char, m: map<Tag, string>)
    requires d !in seg
    ensures Extract(seg + [d] + rest, d, m) == Extract(rest, d, Store(m, seg))
  {
    CutAt(seg, rest, d);
  }

  /** The last segment, free of the delimiter, is stored and extraction stops. */
  lemma ExtractLastSegment(seg: string, d: char, m: map<Tag, string>)
    requires d !in seg
    ensures Extract(seg, d, m) == Store(m, seg)
  {
  }

  /** Three delimiter-free segments, none carrying t, leave what is stored under t alone. */
  lemma ExtractMisses3(a: string, b: string, c: string, d: char, m: map<Tag, string>, t: Tag)
    requires d !in a && d !in b && d !in c
    requires !Carries(a, t) && !Carries(b, t) && !Carries(c, t)
    ensures Get(Extract(a + [d] + b + [d] + c, d, m), t) == Get(m, t)
  {
    assert a + [d] + b + [d] + c == a + [d] + (b + [d] + c);
    ExtractStep(a, b + [d] + c, d, m);
    ExtractStep(b, c, d, Store(m, a));
    ExtractLastSegment(c, d, Store(Store(m, a), b));
  }

  /** The segments the loop visits, in order: the line split at every delimiter. */
  function Segments(line: string, d: char): (r: seq<string>)
    ensures |r| >= 1
    decreases |line|
  {
    var c := Cut(line, d);
    if c.found then [c.before] + Segments(c.after, d) else [c.before]
  }

  /** Reference lookup: the value of the last segment carrying t, or dflt when none does. */
  function LastValue(segs: seq<string>, t: Tag, dflt: string): string
  {
    if |segs| == 0 then dflt
    else if Carries(segs[|segs| - 1], t) then ValueOf(t, segs[|segs| - 1])
    else LastValue(segs[..|segs| - 1], t, dflt)
  }

  /** Storing each segment in turn, from the first. */
  function StoreEach(segs: seq<string>, m: map<Tag, string>): (r: map<Tag, string>)
    ensures r.Keys == m.Keys
  {
    if |segs| == 0 then m else StoreEach(segs[1..], Store(m, segs[0]))
  }

  lemma {:induction false} ExtractIsStoreEach(line: string, d: char, m: map<Tag, string>)
    ensures Extract(line, d, m) == StoreEach(Segments(line, d), m)
    decreases |line|
  {
    var c := Cut(line, d);
    if c.found {
      ExtractIsStoreEach(c.after, d, Store(m, c.before));
      assert ([c.before] + Segments(c.after, d))[1..] == Segments(c.after, d);
    } else {
      assert [c.before][1..] == [];
    }
  }

  lemma {:induction false} StoreEachLast(segs: seq<string>, m: map<Tag, string>, t: Tag)
    requires t in m
    ensures StoreEach(segs, m)[t] == LastValue(segs, t, m[t])
    decreases |segs|
  {
    if |segs| > 0 {
      var m1 := Store(m, segs[0]);
      StoreEachLast(segs[1..], m1, t);
      LastValueFront(segs, t, m[t]);
    }
  }

  /** Peeling the first segment off the reference lookup. */
  lemma {:induction false} LastValueFront(segs: seq<string>, t: Tag, dflt: string)
    requires |segs| > 0
    ensures LastValue(segs, t, dflt)
         == LastValue(segs[1..], t, if Carries(segs[0], t) then ValueOf(t, segs[0]) else dflt)
    decreases |segs|
  {
    if |segs| > 1 {
      var n := |segs| - 1;
      if !Carries(segs[n], t) {
        LastValueFront(segs[..n], t, dflt);
        assert segs[..n][1..] == segs[1..][..n - 1];
      }
    }
  }

  /**
   * ExtractFields only ever changes the keys it was given; for each of them the
   * result is the value of the LAST segment carrying that tag, and a key that no
   * segment carries keeps its incoming value.
   */
  lemma ExtractLookup(line: string, d: char, m: map<Tag, string>, t: Tag)
    requires t in m
    ensures Extract(line, d, m).Keys == m.Keys
    ensures Extract(line, d, m)[t] == LastValue(Segments(line, d), t, m[t])
  {
    ExtractIsStoreEach(line, d, m);
    StoreEachLast(Segments(line, d), m, t);
  }

  /** Loop form of ExtractFields, with the Cut loop of the original. */
  method ExtractFields(line: string, d: char, fields: map<Tag, string>) returns (r: map<Tag, string>)
    ensures r == Extract(line, d, fields)
    ensures r.Keys == fields.Keys
  {
    var rest := line;
    var found := true;
    r := fields;
    while found
      invariant found ==> Extract(rest, d, r) == Extract(line, d, fields)
      invariant !found ==> r == Extract(line, d, fields)
      decreases if found then |rest| + 1 else 0
    {
      var c := Cut(rest, d);
      r := Store(r, c.before);
      rest, found := c.after, c.found;
    }
  }

  // ---------------------------------------------------------------------
  // Repeatable extraction (ExtractMultiFields)

  /** One step of ExtractMultiFields: append the value after the tag to its list. */
  function StoreMulti(m: map<Tag, seq<string>>, seg: string): (r: map<Tag, seq<string>>)
    ensures r.Keys == m.Keys
    ensures forall t | t in m && !Carries(seg, t) :: r[t] == m[t]
    ensures forall t | t in m && Carries(seg, t) :: r[t] == m[t] + [seg[2..]]
  {
    if |seg| > 2 && Tag(seg[0], seg[1]) in m then
      m[Tag(seg[0], seg[1]) := m[Tag(seg[0], seg[1])] + [seg[2..]]]
    else m
  }

  function ExtractMulti(line: string, d: char, m: map<Tag, seq<string>>): (r: map<Tag, seq<string>>)
    ensures r.Keys == m.Keys
    decreases |line|
  {
    var c := Cut(line, d);
    if c.found then ExtractMulti(c.after, d, StoreMulti(m, c.before)) else StoreMulti(m, c.before)
  }

  /** Reference: the values of every segment carrying t, in order of appearance. */
  function Matching(segs: seq<string>, t: Tag): (r: seq<string>)
    ensures |r| <= |segs|
  {
    if |segs| == 0 then []
    else (if Carries(segs[0], t) then [segs[0][2..]] else []) + Matching(segs[1..], t)
  }

  /** Appending each segment in turn, from the first. */
  function StoreMultiEach(segs: seq<string>, m: map<Tag, seq<string>>): (r: map<Tag, seq<string>>)
    ensures r.Keys == m.Keys
  {
    if |segs| == 0 then m else StoreMultiEach(segs[1..], StoreMulti(m, segs[0]))
  }

  lemma {:induction false} ExtractMultiIsStoreEach(line: string, d: char, m: map<Tag, seq<string>>)
    ensures ExtractMulti(line, d, m) == StoreMultiEach(Segments(line, d), m)
    decreases |line|
  {
    var c := Cut(line, d);
    if c.found {
      ExtractMultiIsStoreEach(c.after, d, StoreMulti(m, c.before));
      assert ([c.before] + Segments(c.after, d))[1..] == Segments(c.after, d);
    } else {
      assert [c.before][1..] == [];
    }
  }

  lemma {:induction false} StoreMultiEachLookup(segs: seq<string>, m: map<Tag, seq<string>>, t: Tag)
    requires t in m
    ensures StoreMultiEach(segs, m)[t] == m[t] + Matching(segs, t)
    decreases |segs|
  {
    if |segs| > 0 {
      var m1 := StoreMulti(m, segs[0]);
      StoreMultiEachLookup(segs[1..], m1, t);
      var here := if Carries(segs[0], t) then [segs[0][2..]] else [];
      assert m1[t] == m[t] + here;
      assert m1[t] + Matching(segs[1..], t) == m[t] + (here + Matching(segs[1..], t));
    }
  }

  /**
   * ExtractMultiFields appends, for each requested tag, the value of every segment
   * carrying it, in order, to what the caller supplied; no value is dropped or
   * reordered.
   */
  lemma ExtractMultiLookup(line: string, d: char, m: map<Tag, seq<string>>, t: Tag)
    requires t in m
    ensures ExtractMulti(line, d, m).Keys == m.Keys
    ensures ExtractMulti(line, d, m)[t] == m[t] + Matching(Segments(line, d), t)
  {
    ExtractMultiIsStoreEach(line, d, m);
    StoreMultiEachLookup(Segments(line, d), m, t);
  }

  /** Loop form of ExtractMultiFields. */
  method ExtractMultiFields(line: string, d: char, fields: map<Tag, seq<string>>)
    returns (r: map<Tag, seq<string>>)
    ensures r == ExtractMulti(line, d, fields)
    ensures r.Keys == fields.Keys
  {
    var rest := line;
    var found := true;
    r := fields;
    while found
      invariant found ==> ExtractMulti(rest, d, r) == ExtractMulti(line, d, fields)
      invariant !found ==> r == ExtractMulti(line, d, fields)
      decreases if found then |rest| + 1 else 0
    {
      var c := Cut(rest, d);
      r := StoreMulti(r, c.before);
      rest, found := c.after, c.found;
    }
  }

  /** Whatever the line holds, the sequence number that extraction records is at most one rune long. */
  lemma {:induction false} SequenceShort(line: string, d: char, m: map<Tag, string>)
    requires AY in m && |m[AY]| <= 1
    ensures |Extract(line, d, m)[AY]| <= 1
    decreases |line|
  {
    var c := Cut(line, d);
    if c.found {
      SequenceShort(c.after, d, Store(m, c.before));
    }
  }

  /** For AY only one rune is kept: "AY3AZ1A2B" records "3". */
  lemma SequenceRuneOnly(d: char)
    requires d !in "AY3AZ1A2B"
    ensures Extract("AY3AZ1A2B", d, map[AY := ""])[AY] == "3"
  {
    var line := "AY3AZ1A2B";
    ExtractLastSegment(line, d, map[AY := ""]);
    assert Tag(line[0], line[1]) == AY;
    assert line[2..3] == "3";
  }
}
