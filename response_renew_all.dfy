/**
 * Renew All response (66): the ACS reports how many items it renewed and how
 * many it did not, and lists both, each list written as one repeatable field
 * per item.
 */
module ResponseRenewAll {
  import opened Errors
  import opened Numbers
  import opened Dates
  import opened Codes
  import opened Wire
  import opened Lists
  import Utils

  const Code: string := "66"

  datatype RenewAll = RenewAll(
    Ok: bool,
    RenewedCount: int,
    UnrenewedCount: int,
    TransactionDate: Date,
    InstitutionID: string,
    RenewedItems: seq<string>,
    UnrenewedItems: seq<string>,
    ScreenMessage: string,
    PrintLine: string,
    SeqNum: int)

  /** The two counts of the fixed prefix. */
  function Counts(m: RenewAll): (cs: seq<int>)
    ensures |cs| == 2
  {
    [m.RenewedCount, m.UnrenewedCount]
  }

  /** The two item lists, in the order Marshal writes them. */
  function ItemLists(m: RenewAll): (ls: seq<seq<string>>)
    ensures |ls| == 2
  {
    [m.RenewedItems, m.UnrenewedItems]
  }

  /** The tags of the two lists. */
  const ListTags: seq<FieldTag> := [BM, BN]

  /** The validate tags of the struct. */
  predicate Valid(m: RenewAll, bad: string)
  {
    && 0 <= m.RenewedCount <= 9999 && 0 <= m.UnrenewedCount <= 9999
    && !IsZero(m.TransactionDate)
    && m.InstitutionID != "" && Utils.SipField(m.InstitutionID, bad)
    && AllSip(m.RenewedItems, bad) && AllSip(m.UnrenewedItems, bad)
    && Utils.SipField(m.ScreenMessage, bad)
    && Utils.SipField(m.PrintLine, bad)
    && 0 <= m.SeqNum <= 9
  }

  /** Resetting the sequence number keeps a message valid. */
  lemma ValidSeqNum(m: RenewAll, bad: string)
    requires Valid(m, bad)
    ensures Valid(m.(SeqNum := 0), bad)
  {
  }

  /** Each count takes four digits, so the date starts at rune 11 and the coded fields at rune 29. */
  predicate Fits(m: RenewAll)
  {
    FitRun(Counts(m), 4)
  }

  lemma ValidFits(m: RenewAll, bad: string)
    requires Valid(m, bad)
    ensures Fits(m)
  {
    assert Pow10(4) == 10000;
  }

  /** The institution identifier, always written first. */
  function Lead(m: RenewAll): seq<Field>
  {
    [Field(AO, m.InstitutionID, true)]
  }

  /** The screen message and print line, written after the lists unless they are empty. */
  function Tail(m: RenewAll): seq<Field>
  {
    [Field(AF, m.ScreenMessage, m.ScreenMessage != ""), Field(AG, m.PrintLine, m.PrintLine != "")]
  }

  function Block(m: RenewAll): seq<Field>
  {
    ListBlock(ListTags, ItemLists(m))
  }

  /** The coded fields after the institution identifier. */
  function Rest(m: RenewAll): seq<Field>
  {
    Block(m) + Tail(m)
  }

  /** Every coded field, in the order Marshal writes them. */
  function Fields(m: RenewAll): seq<Field>
  {
    Lead(m) + Rest(m)
  }

  /** The tags Unmarshal asks ExtractFields for; the list tags among them keep only their last item. */
  const Keys: seq<Tag> := [AY, AO, BM, BN, AF, AG]

  /**
   * ExtractMultiFields starts at rune 32 of the line, three runes into the
   * coded fields, which start at rune 29.
   */
  const Skip: nat := 3

  /** The OK flag as 0 or 1, the two counts (%04d each) and the date. */
  function Prefix(m: RenewAll): string
  {
    Code + Utils.ZeroOrOne(m.Ok) + PadRun(Counts(m), 4) + Format(m.TransactionDate)
  }

  lemma PrefixLayout(m: RenewAll)
    requires Fits(m)
    ensures var p := Prefix(m);
      && |p| == 29 && p[..2] == Code && p[2..3] == Utils.ZeroOrOne(m.Ok)
      && p[3..11] == PadRun(Counts(m), 4) && p[11..29] == Format(m.TransactionDate)
  {
    ReadPadRun(Counts(m), 4, "");
    Layout4(Prefix(m), Code, Utils.ZeroOrOne(m.Ok), PadRun(Counts(m), 4), Format(m.TransactionDate));
    assert |Code| + |Utils.ZeroOrOne(m.Ok)| == 3;
    assert |Code| + |Utils.ZeroOrOne(m.Ok)| + |PadRun(Counts(m), 4)| == 11;
  }

  function Marshal(m: RenewAll, d: char, t: char, ed: bool): (r: string)
    ensures |r| > |Prefix(m)| && r[..|Prefix(m)|] == Prefix(m)
    ensures r[|Prefix(m)|..] == Coded(Fields(m), d) + Epilogue(Prefix(m) + Coded(Fields(m), d), m.SeqNum, ed) + [t]
  {
    FrameLayout(Prefix(m), Coded(Fields(m), d), m.SeqNum, ed, t);
    Frame(Prefix(m) + Coded(Fields(m), d), m.SeqNum, ed, t)
  }

  /** The list a multi-field map holds for a tag; none when the tag was not requested. */
  function ListOf(multi: map<Tag, seq<string>>, u: Tag): seq<string>
  {
    if u in multi then multi[u] else []
  }

  /** The lists ExtractMultiFields finds for each list tag, in order. */
  function ListsOf(multi: map<Tag, seq<string>>): (ls: seq<seq<string>>)
    ensures |ls| == 2 && forall i | 0 <= i < 2 :: ls[i] == ListOf(multi, ListTags[i])
  {
    [ListOf(multi, BM), ListOf(multi, BN)]
  }

  /** The lists ExtractMultiFields finds from rune 32 on. */
  function MultiOf(line: string, d: char): map<Tag, seq<string>>
    requires |line| >= 32
  {
    ExtractMulti(line[32..], d, InitMulti(ListTags))
  }

  /** The message built from the fixed prefix, the extracted codes and the extracted lists. */
  function Build(ok: bool, counts: seq<int>, transactionDate: Date, codes: map<Tag, string>,
    lists: seq<seq<string>>): (r: RenewAll)
    requires |counts| == 2 && |lists| == 2
    ensures Counts(r) == counts && ItemLists(r) == lists
  {
    RenewAll(ok, counts[0], counts[1], transactionDate, Get(codes, AO), lists[0], lists[1],
      Get(codes, AF), Get(codes, AG), SeqNumOf(Get(codes, AY)))
  }

  /**
   * Everything Unmarshal does between the length check and validation: the
   * OK flag is read from rune 2 whatever it holds; the two counts and the
   * date are parsed in that order, the first failure reported.
   */
  function Decode(line: string, d: char): (r: Result<RenewAll>)
    requires |line| >= 32
    ensures r.Ok? ==> r.value.Ok == Utils.ParseBool(line[2]) && Ok(Counts(r.value)) == ReadRun(line[3..11], 2, 4)
    ensures r.Ok? ==> Format(r.value.TransactionDate) == line[11..29]
    ensures r.Ok? ==> ItemLists(r.value) == ListsOf(MultiOf(line, d))
  {
    match ReadRun(line[3..11], 2, 4)
    case Err(e) => Err(e)
    case Ok(counts) =>
      match Parse(line[11..29])
      case Err(e) => Err(e)
      case Ok(transactionDate) =>
        FormatParse(line[11..29]);
        Ok(Build(Utils.ParseBool(line[2]), counts, transactionDate, Extract(line[29..], d, Init(Keys)),
          ListsOf(MultiOf(line, d))))
  }

  /** Unmarshal: the length and code check, the decoding, then the validation. */
  function Unmarshal(line: string, d: char, bad: string): (r: Result<RenewAll>)
    ensures |line| < 32 || line[..2] != Code ==> r == Err(InvalidMessage(Code))
    ensures r.Ok? ==> Valid(r.value, bad) && Ok(Counts(r.value)) == ReadRun(line[3..11], 2, 4)
    ensures r.Ok? ==> Format(r.value.TransactionDate) == line[11..29]
    ensures r.Ok? ==> ItemLists(r.value) == ListsOf(MultiOf(line, d))
  {
    if |line| < 32 || line[..2] != Code then Err(InvalidMessage(Code))
    else
      match Decode(line, d)
      case Err(e) => Err(e)
      case Ok(m) => if Valid(m, bad) then Ok(m) else Err(ValidationFailed(Code))
  }

  // ---------------------------------------------------------------------
  // What comes back

  /** The items of list u that the extraction finds in the institution identifier. */
  function StrayItems(m: RenewAll, d: char, u: Tag): seq<string>
  {
    Matching(Segments(Stray(Lead(m), Skip, d), d), u)
  }

  /** No list tag opens a segment of the stray text. */
  predicate StrayFree(m: RenewAll, d: char)
  {
    forall i | 0 <= i < 2 :: StrayItems(m, d, ListTags[i]) == []
  }

  /** What a list decodes to: the stray items, then the items Marshal wrote. */
  function ListRead(m: RenewAll, d: char, i: int): seq<string>
    requires 0 <= i < 2
  {
    StrayItems(m, d, ListTags[i]) + Present(ItemLists(m)[i])
  }

  /** What each list decodes to, in order. */
  function ListsRead(m: RenewAll, d: char): (ls: seq<seq<string>>)
    ensures |ls| == 2 && forall i | 0 <= i < 2 :: ls[i] == ListRead(m, d, i)
  {
    [ListRead(m, d, 0), ListRead(m, d, 1)]
  }

  /** The message a decoder rebuilds from the encoding of m. */
  function WithStray(m: RenewAll, d: char): RenewAll
  {
    m.(RenewedItems := ListRead(m, d, 0), UnrenewedItems := ListRead(m, d, 1))
  }

  /** The message as its encoding carries it: both lists without their empty items. */
  function Written(m: RenewAll): RenewAll
  {
    m.(RenewedItems := Present(m.RenewedItems), UnrenewedItems := Present(m.UnrenewedItems))
  }

  /** Without stray segments a decoder reads back exactly the written lists. */
  lemma StrayFreeWritten(m: RenewAll, d: char)
    requires StrayFree(m, d)
    ensures WithStray(m, d) == Written(m)
  {
    assert StrayItems(m, d, ListTags[0]) == [] && StrayItems(m, d, ListTags[1]) == [];
  }

  /** Dropping the empty items keeps a message valid. */
  lemma WrittenValid(m: RenewAll, bad: string)
    requires Valid(m, bad)
    ensures Valid(Written(m), bad)
  {
    PresentSip(m.RenewedItems, bad);
    PresentSip(m.UnrenewedItems, bad);
  }

  /** A message whose lists hold no empty item is written whole. */
  lemma WrittenWhole(m: RenewAll)
    requires forall k | 0 <= k < |m.RenewedItems| :: m.RenewedItems[k] != ""
    requires forall k | 0 <= k < |m.UnrenewedItems| :: m.UnrenewedItems[k] != ""
    ensures Written(m) == m
  {
    PresentKeeps(m.RenewedItems);
    PresentKeeps(m.UnrenewedItems);
  }

  /** The stray text is the institution identifier without its first rune. */
  lemma StrayIsID(m: RenewAll, d: char)
    requires m.InstitutionID != ""
    ensures Stray(Lead(m), Skip, d) == m.InstitutionID[1..]
  {
    var c := Coded(Lead(m), d);
    assert Lead(m)[1..] == [];
    assert c == Emit(Lead(m)[0], d) + Coded([], d);
    assert c == ['A', 'O'] + m.InstitutionID + [d];
    assert c[Skip..|c| - 1] == m.InstitutionID[1..];
  }

  // ---------------------------------------------------------------------
  // Proof of the round trip

  /** A line that starts with the prefix of a message parses back to that message's prefix fields. */
  lemma PrefixParses(m: RenewAll, line: string)
    requires Fits(m) && |line| >= 29 && line[..29] == Prefix(m)
    ensures Utils.ParseBool(line[2]) == m.Ok
    ensures ReadRun(line[3..11], 2, 4) == Ok(Counts(m)) && Parse(line[11..29]) == Ok(m.TransactionDate)
  {
    var p := Prefix(m);
    PrefixLayout(m);
    Slice(line, p, 2, 3);
    Slice(line, p, 3, 11);
    Slice(line, p, 11, 29);
    assert line[2] == line[2..3][0];
    ReadPadRun(Counts(m), 4, "");
    assert PadRun(Counts(m), 4) + "" == PadRun(Counts(m), 4);
    ParseFormat(m.TransactionDate);
  }

  /** The fixed prefix of a valid message's encoding parses back. */
  lemma MarshalPrefix(m: RenewAll, d: char, t: char, ed: bool, bad: string)
    requires Valid(m, bad)
    ensures var line := Marshal(m, d, t, ed);
      && |line| > 29 && line[..29] == Prefix(m) && Utils.ParseBool(line[2]) == m.Ok
      && ReadRun(line[3..11], 2, 4) == Ok(Counts(m)) && Parse(line[11..29]) == Ok(m.TransactionDate)
  {
    ValidFits(m, bad);
    PrefixLayout(m);
    PrefixParses(m, Marshal(m, d, t, ed));
  }

  /** The position of each single tag among the single fields; -1 for any other tag. */
  function Slot(t: Tag): int
  {
    if t == AO then 0 else if t == AF then 1 else if t == AG then 2 else -1
  }

  lemma FieldsAt(m: RenewAll)
    ensures Fields(m) == Lead(m) + Block(m) + Tail(m)
    ensures |Fields(m)| == 3 + |Block(m)| && Fields(m)[0] == Lead(m)[0]
    ensures Fields(m)[1 + |Block(m)|] == Tail(m)[0] && Fields(m)[2 + |Block(m)|] == Tail(m)[1]
  {
    assert Fields(m) == Lead(m) + Block(m) + Tail(m);
  }

  lemma FieldsTagged(m: RenewAll)
    ensures forall j | 0 <= j < |Fields(m)| :: Fields(m)[j].tag != AY
    ensures Unique(Fields(m), 0) && Unique(Fields(m), 1 + |Block(m)|) && Unique(Fields(m), 2 + |Block(m)|)
  {
    var fs := Fields(m);
    var n := |Block(m)|;
    FieldsAt(m);
    ListBlockTags(ListTags, ItemLists(m));
    UniqueAround(Lead(m), Block(m), Tail(m), ListTags, Slot);
    forall j | 0 <= j < |fs| ensures fs[j].tag != AY {
      if 1 <= j < 1 + n {
        assert fs[j] == Block(m)[j - 1];
      }
    }
  }

  lemma CleanFields(m: RenewAll, d: char, bad: string)
    requires Valid(m, bad) && d in bad && DelimiterSafe(d)
    ensures Clean(Rest(m), d) && Clean(Fields(m), d)
  {
    ListBlockClean(ListTags, ItemLists(m), d, bad);
    CleanJoin(Block(m), Tail(m), d);
    CleanJoin(Lead(m), Rest(m), d);
  }

  /** Codes that read the fields back hold the institution identifier, screen message and print line. */
  lemma ReadSingles(m: RenewAll, codes: map<Tag, string>)
    requires ReadsBack(Fields(m), Keys, codes)
    ensures Get(codes, AO) == m.InstitutionID && Get(codes, AF) == m.ScreenMessage && Get(codes, AG) == m.PrintLine
  {
    FieldsAt(m);
    FieldsTagged(m);
  }

  /** Each list tag gets back, from the fields after the institution identifier, exactly the written items. */
  lemma RestMatching(m: RenewAll, i: int)
    requires 0 <= i < 2
    ensures Matching(FieldSegments(Rest(m)), ListTags[i]) == Present(ItemLists(m)[i])
  {
    AroundMatching([], ListTags, ItemLists(m), Tail(m), i);
    assert [] + Block(m) + Tail(m) == Rest(m);
  }

  /** The lists decoded from the encoding of a message. */
  lemma ReadListsBack(m: RenewAll, d: char, t: char, ed: bool, i: int)
    requires Fits(m) && Clean(Rest(m), d) && DelimiterSafe(d) && 0 <= m.SeqNum <= 9 && 0 <= i < 2
    requires m.InstitutionID != ""
    ensures |Marshal(m, d, t, ed)| >= 32
    ensures ListOf(MultiOf(Marshal(m, d, t, ed), d), ListTags[i]) == ListRead(m, d, i)
  {
    var line := Marshal(m, d, t, ed);
    PrefixLayout(m);
    assert Coded(Lead(m), d) == ['A', 'O'] + m.InstitutionID + [d];
    assert line[29..] == Coded(Lead(m) + Rest(m), d) + Epilogue(line[..29] + Coded(Lead(m) + Rest(m), d), m.SeqNum, ed) + [t];
    ReadLists(Lead(m), Rest(m), Skip, line, 29, m.SeqNum, ed, d, t, ListTags, ListTags[i]);
    RestMatching(m, i);
  }

  /** Both lists decoded from the encoding of a message. */
  lemma ReadAllLists(m: RenewAll, d: char, t: char, ed: bool)
    requires Fits(m) && Clean(Rest(m), d) && DelimiterSafe(d) && 0 <= m.SeqNum <= 9
    requires m.InstitutionID != ""
    ensures |Marshal(m, d, t, ed)| >= 32
    ensures ListsOf(MultiOf(Marshal(m, d, t, ed), d)) == ListsRead(m, d)
  {
    ReadListsBack(m, d, t, ed, 0);
    ReadListsBack(m, d, t, ed, 1);
  }

  /**
   * The encoding of a valid message decodes to it, except that each list
   * comes back without its empty items and after whatever items the
   * extraction finds in the institution identifier.
   */
  lemma MarshalDecodes(m: RenewAll, d: char, t: char, ed: bool, bad: string)
    requires Valid(m, bad) && d in bad && DelimiterSafe(d)
    ensures |Marshal(m, d, t, ed)| >= 32
    ensures Decode(Marshal(m, d, t, ed), d) == Ok(if ed then WithStray(m, d) else WithStray(m, d).(SeqNum := 0))
  {
    var line := Marshal(m, d, t, ed);
    MarshalPrefix(m, d, t, ed, bad);
    ValidFits(m, bad);
    PrefixLayout(m);
    CleanFields(m, d, bad);
    ReadAllLists(m, d, t, ed);
    var codes := Extract(line[29..], d, Init(Keys));
    FieldsTagged(m);
    ReadLine(Fields(m), Keys, line, 29, m.SeqNum, ed, d, t);
    ReadSingles(m, codes);
    SeqNumOfText(m.SeqNum, ed);
  }

  /** The institution identifier is never empty, so the encoding is never short. */
  lemma MarshalLength(m: RenewAll, d: char, t: char, ed: bool, bad: string)
    requires Valid(m, bad)
    ensures |Marshal(m, d, t, ed)| >= 32 && Marshal(m, d, t, ed)[..2] == Code
  {
    ValidFits(m, bad);
    PrefixLayout(m);
    assert Marshal(m, d, t, ed)[..2] == Prefix(m)[..2];
    CodedAppend(Lead(m), Rest(m), d);
    assert Coded(Lead(m), d) == ['A', 'O'] + m.InstitutionID + [d];
  }

  /**
   * A valid message decodes to itself with the empty items of its lists
   * dropped, when no list tag opens a segment of the stray text; without
   * error detection the sequence number comes back as 0.
   */
  lemma RoundTrip(m: RenewAll, d: char, t: char, ed: bool, bad: string)
    requires Valid(m, bad) && d in bad && DelimiterSafe(d) && StrayFree(m, d)
    ensures Unmarshal(Marshal(m, d, t, ed), d, bad) == Ok(if ed then Written(m) else Written(m).(SeqNum := 0))
  {
    MarshalLength(m, d, t, ed, bad);
    MarshalDecodes(m, d, t, ed, bad);
    StrayFreeWritten(m, d);
    WrittenValid(m, bad);
    ValidSeqNum(Written(m), bad);
  }

  /**
   * Because the lists are extracted from rune 32 on, an institution
   * identifier that holds a list tag after its first rune yields a renewed
   * item that Marshal never wrote.
   */
  lemma StrayRenewedItem(m: RenewAll, d: char)
    requires m.InstitutionID == "xBMfoo" && DelimiterSafe(d) && d != 'x' && d != 'f' && d != 'o'
    ensures StrayItems(m, d, BM) == ["foo"]
  {
    StrayIsID(m, d);
    assert m.InstitutionID[1..] == "BMfoo";
    assert d !in "BMfoo";
    SegmentsOne("BMfoo", d);
    var segs: seq<string> := ["BMfoo"];
    assert Carries(segs[0], BM) && segs[0][2..] == "foo";
    assert segs[1..] == [];
  }
}
