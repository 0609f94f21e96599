/**
 * Repeatable coded fields: a list of values written as one field per
 * non-empty item, and read back with ExtractMultiFields. The decoders start
 * that extraction a few runes into the first coded field, so whatever text
 * lies between that rune and the end of the leading fields is read as one or
 * more extra segments; the lemmas here say exactly what comes back.
 */
module Lists {
  import opened Codes
  import opened Wire
  import Utils

  /** The items Marshal writes: the non-empty ones, in order. */
  function Present(items: seq<string>): (r: seq<string>)
    ensures |r| <= |items|
  {
    if |items| == 0 then [] else (if items[0] != "" then [items[0]] else []) + Present(items[1..])
  }

  /** Every kept item is a non-empty item of the list. */
  lemma {:induction false} PresentItems(items: seq<string>)
    ensures forall k | 0 <= k < |Present(items)| :: Present(items)[k] != "" && Present(items)[k] in items
  {
    if |items| > 0 {
      PresentItems(items[1..]);
      var head := if items[0] != "" then [items[0]] else [];
      forall k | 0 <= k < |Present(items)|
        ensures Present(items)[k] != "" && Present(items)[k] in items
      {
        if k >= |head| {
          assert Present(items)[k] == Present(items[1..])[k - |head|];
          assert Present(items[1..])[k - |head|] in items[1..];
        }
      }
    }
  }

  /** A list without empty items is kept whole. */
  lemma {:induction false} PresentKeeps(items: seq<string>)
    requires forall k | 0 <= k < |items| :: items[k] != ""
    ensures Present(items) == items
  {
    if |items| > 0 {
      PresentKeeps(items[1..]);
      assert [items[0]] + items[1..] == items;
    }
  }

  /** Empty items are dropped and the others kept in order. */
  lemma PresentDrops()
    ensures Present(["a", "", "b", ""]) == ["a", "b"]
  {
    assert ["a", "", "b", ""][1..] == ["", "b", ""];
    assert ["", "b", ""][1..] == ["b", ""];
    assert ["b", ""][1..] == [""];
    assert [""][1..] == [];
  }

  /** Every item satisfies the "sip" rule ("dive,sip" in the validate tags). */
  predicate AllSip(items: seq<string>, bad: string)
  {
    forall k | 0 <= k < |items| :: Utils.SipField(items[k], bad)
  }

  /** Dropping the empty items keeps a list valid. */
  lemma PresentSip(items: seq<string>, bad: string)
    requires AllSip(items, bad)
    ensures AllSip(Present(items), bad)
  {
    PresentItems(items);
  }

  /** One field per item of a repeatable field, written when the item is not empty. */
  function ListFields(t: FieldTag, items: seq<string>): (fs: seq<Field>)
    ensures |fs| == |items|
    ensures forall k | 0 <= k < |items| :: fs[k] == Field(t, items[k], items[k] != "")
  {
    seq(|items|, k requires 0 <= k < |items| => Field(t, items[k], items[k] != ""))
  }

  /** Several repeatable fields written one list after the other. */
  function ListBlock(tags: seq<FieldTag>, lists: seq<seq<string>>): (fs: seq<Field>)
    requires |tags| == |lists|
  {
    if |tags| == 0 then [] else ListFields(tags[0], lists[0]) + ListBlock(tags[1..], lists[1..])
  }

  /** Every field of a block carries one of the block's tags. */
  lemma {:induction false} ListBlockTags(tags: seq<FieldTag>, lists: seq<seq<string>>)
    requires |tags| == |lists|
    ensures forall k | 0 <= k < |ListBlock(tags, lists)| :: ListBlock(tags, lists)[k].tag in tags
  {
    if |tags| > 0 {
      ListBlockTags(tags[1..], lists[1..]);
      var a := ListFields(tags[0], lists[0]);
      forall k | 0 <= k < |ListBlock(tags, lists)|
        ensures ListBlock(tags, lists)[k].tag in tags
      {
        if k >= |a| {
          assert ListBlock(tags, lists)[k] == ListBlock(tags[1..], lists[1..])[k - |a|];
          assert ListBlock(tags[1..], lists[1..])[k - |a|].tag in tags[1..];
        }
      }
    }
  }

  /** A block of valid lists holds no delimiter. */
  lemma {:induction false} ListBlockClean(tags: seq<FieldTag>, lists: seq<seq<string>>, d: char, bad: string)
    requires |tags| == |lists| && d in bad
    requires forall i | 0 <= i < |lists| :: AllSip(lists[i], bad)
    ensures Clean(ListBlock(tags, lists), d)
  {
    if |tags| > 0 {
      assert AllSip(lists[0], bad);
      ListBlockClean(tags[1..], lists[1..], d, bad);
      var a := ListFields(tags[0], lists[0]);
      var fs := ListBlock(tags, lists);
      forall k | 0 <= k < |fs| && fs[k].emit
        ensures d !in fs[k].value
      {
        if k >= |a| {
          assert fs[k] == ListBlock(tags[1..], lists[1..])[k - |a|];
        } else {
          assert Utils.SipField(lists[0][k], bad);
        }
      }
    }
  }

  // ---------------------------------------------------------------------
  // Segments of written fields

  /** The segments Marshal writes for the fields: the tag and the value of each written field. */
  function FieldSegments(fs: seq<Field>): seq<string>
  {
    if |fs| == 0 then []
    else (if fs[0].emit then [[fs[0].tag.hi, fs[0].tag.lo] + fs[0].value] else []) + FieldSegments(fs[1..])
  }

  lemma {:induction false} FieldSegmentsAppend(a: seq<Field>, b: seq<Field>)
    ensures FieldSegments(a + b) == FieldSegments(a) + FieldSegments(b)
  {
    if |a| > 0 {
      assert (a + b)[1..] == a[1..] + b;
      FieldSegmentsAppend(a[1..], b);
    } else {
      assert a + b == b;
    }
  }

  lemma {:induction false} MatchingAppend(a: seq<string>, b: seq<string>, t: Tag)
    ensures Matching(a + b, t) == Matching(a, t) + Matching(b, t)
  {
    if |a| > 0 {
      assert (a + b)[1..] == a[1..] + b;
      MatchingAppend(a[1..], b, t);
    } else {
      assert a + b == b;
    }
  }

  /** The segments of one list give back its non-empty items under its own tag, and nothing under another. */
  lemma {:induction false} ListMatching(t: FieldTag, items: seq<string>, u: Tag)
    ensures Matching(FieldSegments(ListFields(t, items)), u) == if u == t then Present(items) else []
  {
    if |items| > 0 {
      var fs := ListFields(t, items);
      assert fs[1..] == ListFields(t, items[1..]);
      ListMatching(t, items[1..], u);
      if items[0] != "" {
        var seg := [t.hi, t.lo] + items[0];
        assert FieldSegments(fs) == [seg] + FieldSegments(fs[1..]);
        assert seg[2..] == items[0];
        assert Carries(seg, u) <==> u == t;
        assert [seg][1..] == [];
      } else {
        assert FieldSegments(fs) == FieldSegments(fs[1..]);
      }
    }
  }

  /** Fields none of which carries u give nothing back under u. */
  lemma {:induction false} OtherMatching(fs: seq<Field>, u: Tag)
    requires forall j | 0 <= j < |fs| :: fs[j].tag != u
    ensures Matching(FieldSegments(fs), u) == []
  {
    if |fs| > 0 {
      OtherMatching(fs[1..], u);
      if fs[0].emit {
        var seg := [fs[0].tag.hi, fs[0].tag.lo] + fs[0].value;
        var segs := [seg] + FieldSegments(fs[1..]);
        assert FieldSegments(fs) == segs;
        assert !Carries(segs[0], u);
        assert segs[1..] == FieldSegments(fs[1..]);
      } else {
        assert FieldSegments(fs) == [] + FieldSegments(fs[1..]);
        assert [] + FieldSegments(fs[1..]) == FieldSegments(fs[1..]);
      }
    }
  }

  /** Each list of a block comes back under its own tag, with its empty items dropped. */
  lemma {:induction false} BlockMatching(tags: seq<FieldTag>, lists: seq<seq<string>>, i: int)
    requires |tags| == |lists| && 0 <= i < |tags|
    requires forall j | 0 <= j < |tags| && j != i :: tags[j] != tags[i]
    ensures Matching(FieldSegments(ListBlock(tags, lists)), tags[i]) == Present(lists[i])
  {
    var a := ListFields(tags[0], lists[0]);
    var b := ListBlock(tags[1..], lists[1..]);
    FieldSegmentsAppend(a, b);
    MatchingAppend(FieldSegments(a), FieldSegments(b), tags[i]);
    ListMatching(tags[0], lists[0], tags[i]);
    if i == 0 {
      ListBlockTags(tags[1..], lists[1..]);
      forall j | 0 <= j < |b| ensures b[j].tag != tags[0] {
        assert b[j].tag in tags[1..];
      }
      OtherMatching(b, tags[0]);
    } else {
      BlockMatching(tags[1..], lists[1..], i - 1);
    }
  }

  /** Appending the value of each written field to the list of its tag, the way the segments are met. */
  function StoreMultiAll(fs: seq<Field>, m: map<Tag, seq<string>>): (r: map<Tag, seq<string>>)
    ensures r.Keys == m.Keys
  {
    if |fs| == 0 then m
    else StoreMultiAll(fs[1..], if fs[0].emit then StoreMulti(m, [fs[0].tag.hi, fs[0].tag.lo] + fs[0].value) else m)
  }

  /** A segment free of the delimiter is stored, and extraction goes on after the delimiter. */
  lemma ExtractMultiStep(seg: string, rest: string, d: char, m: map<Tag, seq<string>>)
    requires d !in seg
    ensures ExtractMulti(seg + [d] + rest, d, m) == ExtractMulti(rest, d, StoreMulti(m, seg))
  {
    CutAt(seg, rest, d);
  }

  lemma {:induction false} ExtractMultiCoded(fs: seq<Field>, d: char, tail: string, m: map<Tag, seq<string>>)
    requires Clean(fs, d) && DelimiterSafe(d)
    ensures ExtractMulti(Coded(fs, d) + tail, d, m) == ExtractMulti(tail, d, StoreMultiAll(fs, m))
  {
    if |fs| > 0 {
      var f := fs[0];
      var m1 := if f.emit then StoreMulti(m, [f.tag.hi, f.tag.lo] + f.value) else m;
      CleanTail(fs, d);
      ExtractMultiCoded(fs[1..], d, tail, m1);
      CodedCons(fs, d, tail);
      if f.emit {
        var seg := [f.tag.hi, f.tag.lo] + f.value;
        assert Emit(f, d) == seg + [d];
        assert d !in seg;
        ExtractMultiStep(seg, Coded(fs[1..], d) + tail, d, m);
        assert Emit(f, d) + (Coded(fs[1..], d) + tail) == seg + [d] + (Coded(fs[1..], d) + tail);
      } else {
        assert Emit(f, d) + (Coded(fs[1..], d) + tail) == Coded(fs[1..], d) + tail;
      }
    } else {
      assert Coded(fs, d) + tail == tail;
    }
  }

  /** The values stored for u are those of the written fields' segments carrying u. */
  lemma {:induction false} StoreMultiAllLookup(fs: seq<Field>, m: map<Tag, seq<string>>, u: Tag)
    requires u in m
    ensures StoreMultiAll(fs, m)[u] == m[u] + Matching(FieldSegments(fs), u)
  {
    if |fs| > 0 {
      var f := fs[0];
      var m1 := if f.emit then StoreMulti(m, [f.tag.hi, f.tag.lo] + f.value) else m;
      StoreMultiAllLookup(fs[1..], m1, u);
      var rs := FieldSegments(fs[1..]);
      if f.emit {
        var seg := [f.tag.hi, f.tag.lo] + f.value;
        var segs := [seg] + rs;
        assert FieldSegments(fs) == segs;
        assert segs[1..] == rs;
        var here := if Carries(seg, u) then [seg[2..]] else [];
        assert m1[u] == m[u] + here;
        assert Matching(segs, u) == here + Matching(rs, u);
        assert m1[u] + Matching(rs, u) == m[u] + (here + Matching(rs, u));
      } else {
        assert FieldSegments(fs) == [] + rs;
        assert [] + rs == rs;
      }
    } else {
      assert m[u] + [] == m[u];
    }
  }

  /** Extraction runs on after a delimiter as if the text before it had been extracted first. */
  lemma {:induction false} ExtractMultiSplit(s: string, rest: string, d: char, m: map<Tag, seq<string>>)
    ensures ExtractMulti(s + [d] + rest, d, m) == ExtractMulti(rest, d, ExtractMulti(s, d, m))
    decreases |s|
  {
    var c := Cut(s, d);
    if c.found {
      assert s + [d] + rest == c.before + [d] + (c.after + [d] + rest);
      CutAt(c.before, c.after + [d] + rest, d);
      ExtractMultiSplit(c.after, rest, d, StoreMulti(m, c.before));
    } else {
      CutAt(s, rest, d);
    }
  }

  /** The epilogue and the terminator add nothing to a list other than AY's. */
  lemma ExtractMultiEpilogue(body: string, seqNum: int, ed: bool, t: char, d: char, m: map<Tag, seq<string>>, u: Tag)
    requires DelimiterSafe(d) && 0 <= seqNum <= 9 && u != AY && u in m
    ensures ExtractMulti(Epilogue(body, seqNum, ed) + [t], d, m)[u] == m[u]
  {
    var seg := Epilogue(body, seqNum, ed);
    EpilogueShape(body, seqNum, ed, d);
    assert !Carries(seg, u);
    if t == d {
      assert seg + [t] == seg + [d] + "";
      ExtractMultiStep(seg, "", d, m);
    } else {
      assert d !in seg + [t];
      assert !Carries(seg + [t], u);
    }
  }

  /** The last rune of written fields is a delimiter when the last field is written. */
  lemma {:induction false} CodedEnds(fs: seq<Field>, d: char)
    requires |fs| > 0 && fs[|fs| - 1].emit
    ensures |Coded(fs, d)| > 0 && Coded(fs, d)[|Coded(fs, d)| - 1] == d
  {
    if |fs| > 1 {
      CodedEnds(fs[1..], d);
    }
  }

  lemma {:induction false} CodedAppend(a: seq<Field>, b: seq<Field>, d: char)
    ensures Coded(a + b, d) == Coded(a, d) + Coded(b, d)
  {
    if |a| > 0 {
      assert (a + b)[1..] == a[1..] + b;
      CodedAppend(a[1..], b, d);
    } else {
      assert a + b == b;
    }
  }

  /**
   * The text ExtractMultiFields meets before the first segment Marshal wrote
   * after the leading fields: the leading fields from rune `skip` on, without
   * their final delimiter.
   */
  function Stray(lead: seq<Field>, skip: nat, d: char): string
  {
    var c := Coded(lead, d);
    if skip < |c| then c[skip..|c| - 1] else ""
  }

  /**
   * What ExtractMultiFields returns for a line whose coded part, from rune p
   * on, Marshal wrote, when it starts `skip` runes into that part: for each
   * requested tag, the values the stray text carries, then the values of the
   * written fields after the leading ones.
   */
  lemma ReadLists(lead: seq<Field>, rest: seq<Field>, skip: nat, line: string, p: nat, seqNum: int, ed: bool,
    d: char, t: char, keys: seq<Tag>, u: Tag)
    requires p <= |line|
    requires line[p..] == Coded(lead + rest, d) + Epilogue(line[..p] + Coded(lead + rest, d), seqNum, ed) + [t]
    requires |lead| > 0 && lead[|lead| - 1].emit && skip < |Coded(lead, d)|
    requires Clean(rest, d) && DelimiterSafe(d) && 0 <= seqNum <= 9 && u in keys && u != AY
    ensures p + skip <= |line|
    ensures ExtractMulti(line[p + skip..], d, InitMulti(keys))[u]
      == Matching(Segments(Stray(lead, skip, d), d), u) + Matching(FieldSegments(rest), u)
  {
    var body := line[..p] + Coded(lead + rest, d);
    SkipShape(lead, rest, skip, line, p, Epilogue(body, seqNum, ed) + [t], d);
    ReadAfterStray(Stray(lead, skip, d), rest, body, seqNum, ed, d, t, InitMulti(keys), u);
  }

  /** From rune `skip` of the coded part on, the line is the stray text, a delimiter and the rest. */
  lemma SkipShape(lead: seq<Field>, rest: seq<Field>, skip: nat, line: string, p: nat, e: string, d: char)
    requires p <= |line| && line[p..] == Coded(lead + rest, d) + e
    requires |lead| > 0 && lead[|lead| - 1].emit && skip < |Coded(lead, d)|
    ensures p + skip <= |line|
    ensures line[p + skip..] == Stray(lead, skip, d) + [d] + (Coded(rest, d) + e)
  {
    CodedThen(lead, rest, e, d);
    StrayEnds(lead, skip, d);
    SkipText(line, p, Coded(lead, d), Coded(rest, d) + e, skip, Stray(lead, skip, d), d);
  }

  /** The coded fields of two runs followed by more text, split after the first run. */
  lemma CodedThen(a: seq<Field>, b: seq<Field>, e: string, d: char)
    ensures Coded(a + b, d) + e == Coded(a, d) + (Coded(b, d) + e)
  {
    CodedAppend(a, b, d);
  }

  /** From rune `skip` on, the leading fields are the stray text and their final delimiter. */
  lemma StrayEnds(lead: seq<Field>, skip: nat, d: char)
    requires |lead| > 0 && lead[|lead| - 1].emit && skip < |Coded(lead, d)|
    ensures Coded(lead, d)[skip..] == Stray(lead, skip, d) + [d]
  {
    CodedEnds(lead, d);
    LastRune(Coded(lead, d), skip, d);
  }

  lemma LastRune(c: string, skip: nat, d: char)
    requires skip < |c| && c[|c| - 1] == d
    ensures c[skip..] == c[skip..|c| - 1] + [d]
  {
  }

  lemma SkipText(line: string, p: nat, c: string, rest: string, skip: nat, s: string, d: char)
    requires p <= |line| && line[p..] == c + rest && skip < |c| && c[skip..] == s + [d]
    ensures p + skip <= |line| && line[p + skip..] == s + [d] + rest
  {
    assert line[p + skip..] == line[p..][skip..];
    assert (c + rest)[skip..] == c[skip..] + rest;
  }

  /** The lists read from the stray text, a delimiter, written fields and the end of the frame. */
  lemma ReadAfterStray(s: string, rest: seq<Field>, body: string, seqNum: int, ed: bool, d: char, t: char,
    m0: map<Tag, seq<string>>, u: Tag)
    requires Clean(rest, d) && DelimiterSafe(d) && 0 <= seqNum <= 9 && u in m0 && m0[u] == [] && u != AY
    ensures ExtractMulti(s + [d] + (Coded(rest, d) + (Epilogue(body, seqNum, ed) + [t])), d, m0)[u]
      == Matching(Segments(s, d), u) + Matching(FieldSegments(rest), u)
  {
    var e := Epilogue(body, seqNum, ed) + [t];
    var x := Coded(rest, d) + e;
    var m1 := ExtractMulti(s, d, m0);
    ExtractMultiSplit(s, x, d, m0);
    assert ExtractMulti(s + [d] + x, d, m0) == ExtractMulti(x, d, m1);
    ExtractMultiCoded(rest, d, e, m1);
    var m2 := StoreMultiAll(rest, m1);
    assert ExtractMulti(x, d, m1) == ExtractMulti(e, d, m2);
    ExtractMultiEpilogue(body, seqNum, ed, t, d, m2, u);
    assert ExtractMulti(e, d, m2)[u] == m2[u];
    ExtractMultiLookup(s, d, m0, u);
    assert m1[u] == Matching(Segments(s, d), u);
    StoreMultiAllLookup(rest, m1, u);
    assert m2[u] == m1[u] + Matching(FieldSegments(rest), u);
    assert ExtractMulti(s + [d] + x, d, m0)[u] == m2[u];
    assert ExtractMulti(s + [d] + x, d, m0)[u] == Matching(Segments(s, d), u) + Matching(FieldSegments(rest), u);
  }

  /**
   * Around a block of repeatable fields whose tags no other field carries,
   * each single field whose slot is its own position among the single
   * fields is the only field carrying its tag.
   */
  lemma UniqueAround(a: seq<Field>, block: seq<Field>, b: seq<Field>, tags: seq<FieldTag>, slot: Tag -> int)
    requires forall k | 0 <= k < |block| :: block[k].tag in tags
    requires forall i | 0 <= i < |a| :: slot(a[i].tag) == i && a[i].tag !in tags
    requires forall i | 0 <= i < |b| :: slot(b[i].tag) == |a| + i && b[i].tag !in tags
    ensures forall i | 0 <= i < |a| :: Unique(a + block + b, i)
    ensures forall i | |a| + |block| <= i < |a| + |block| + |b| :: Unique(a + block + b, i)
  {
    var fs := a + block + b;
    var n := |a| + |block|;
    assert forall j | 0 <= j < |a| :: fs[j] == a[j];
    assert forall j | |a| <= j < n :: fs[j] == block[j - |a|];
    assert forall j | n <= j < |fs| :: fs[j] == b[j - n];
    assert forall j | 0 <= j < |fs| :: (j < |a| || n <= j) ==> fs[j].tag !in tags;
    assert forall j | 0 <= j < |fs| :: |a| <= j < n ==> fs[j].tag in tags;
    assert forall j | 0 <= j < |a| :: slot(fs[j].tag) == j;
    assert forall j | n <= j < |fs| :: slot(fs[j].tag) == j - |block|;
  }

  lemma CleanJoin(a: seq<Field>, b: seq<Field>, d: char)
    requires Clean(a, d) && Clean(b, d)
    ensures Clean(a + b, d)
  {
    assert forall j | |a| <= j < |a + b| :: (a + b)[j] == b[j - |a|];
  }

  /** A delimiter-free segment followed by the delimiter is the first segment of the text. */
  lemma SegmentsCons(a: string, rest: string, d: char)
    requires d !in a
    ensures Segments(a + [d] + rest, d) == [a] + Segments(rest, d)
  {
    CutAt(a, rest, d);
  }

  /** A delimiter-free text is one segment. */
  lemma SegmentsOne(c: string, d: char)
    requires d !in c
    ensures Segments(c, d) == [c]
  {
  }

  /** Three delimiter-free segments joined by the delimiter split back into those three. */
  lemma SegmentsOfThree(a: string, b: string, c: string, d: char)
    requires d !in a && d !in b && d !in c
    ensures Segments(a + [d] + (b + [d] + c), d) == [a, b, c]
  {
    SegmentsTwo(b, c, d);
    SegmentsCons(a, b + [d] + c, d);
  }

  lemma SegmentsTwo(b: string, c: string, d: char)
    requires d !in b && d !in c
    ensures Segments(b + [d] + c, d) == [b, c]
  {
    SegmentsOne(c, d);
    SegmentsCons(b, c, d);
  }

  /**
   * Single fields around a block of lists, none carrying a list tag, leave
   * each list to come back alone under its own tag.
   */
  lemma AroundMatching(mid: seq<Field>, tags: seq<FieldTag>, lists: seq<seq<string>>, tail: seq<Field>, i: int)
    requires |tags| == |lists| && 0 <= i < |tags|
    requires forall j | 0 <= j < |tags| && j != i :: tags[j] != tags[i]
    requires forall j | 0 <= j < |mid| :: mid[j].tag !in tags
    requires forall j | 0 <= j < |tail| :: tail[j].tag !in tags
    ensures Matching(FieldSegments(mid + ListBlock(tags, lists) + tail), tags[i]) == Present(lists[i])
  {
    var u := tags[i];
    var block := ListBlock(tags, lists);
    FieldSegmentsAppend(mid + block, tail);
    FieldSegmentsAppend(mid, block);
    MatchingAppend(FieldSegments(mid) + FieldSegments(block), FieldSegments(tail), u);
    MatchingAppend(FieldSegments(mid), FieldSegments(block), u);
    OtherMatching(mid, u);
    OtherMatching(tail, u);
    BlockMatching(tags, lists, i);
  }
}
