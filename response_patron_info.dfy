/**
 * Patron Information response (64): the ACS reports a patron's status, six
 * item counts, limits, fees, contact details and up to six lists of item
 * identifiers, each list written as one repeatable field per item.
 */
module ResponsePatronInfo {
  import opened Errors
  import opened Numbers
  import opened Dates
  import opened Codes
  import opened Wire
  import opened Lists
  import Utils
  import FieldsPatronStatus

  const Code: string := "64"

  datatype PatronInfo = PatronInfo(
    Status: FieldsPatronStatus.PatronStatus,
    Language: int,
    TransactionDate: Date,
    HoldItemsCount: int,
    OverdueItemsCount: int,
    ChargedItemsCount: int,
    FineItemsCount: int,
    RecallItemsCount: int,
    UnavailableHoldsCount: int,
    InstitutionID: string,
    PatronID: string,
    PatronName: string,
    HoldItemsLimit: int,
    OverdueItemsLimit: int,
    ChargedItemsLimit: int,
    ValidPatron: bool,
    ValidPatronPassword: bool,
    CurrencyType: string,
    FeeAmount: string,
    FeeLimit: string,
    HoldItems: seq<string>,
    OverdueItems: seq<string>,
    ChargedItems: seq<string>,
    FineItems: seq<string>,
    RecallItems: seq<string>,
    UnavailHoldItems: seq<string>,
    HomeAddress: string,
    EmailAddress: string,
    HomePhone: string,
    ScreenMessage: string,
    PrintLine: string,
    SeqNum: int)

  /** The six item counts of the fixed prefix, in order. */
  function Counts(m: PatronInfo): (cs: seq<int>)
    ensures |cs| == 6
  {
    [m.HoldItemsCount, m.OverdueItemsCount, m.ChargedItemsCount, m.FineItemsCount, m.RecallItemsCount,
     m.UnavailableHoldsCount]
  }

  /** The six item lists, in the order Marshal writes them. */
  function ItemLists(m: PatronInfo): (ls: seq<seq<string>>)
    ensures |ls| == 6
  {
    [m.HoldItems, m.OverdueItems, m.ChargedItems, m.FineItems, m.RecallItems, m.UnavailHoldItems]
  }

  /** The tags of the six lists. */
  const ListTags: seq<FieldTag> := [AS, AT, AU, AV, BU, CD]

  /**
   * The validate tags of the struct, and Validate's own rule that a currency
   * type, when present, has exactly three runes. The status flags are a
   * struct, on which "required" puts no constraint.
   */
  predicate Valid(m: PatronInfo, bad: string)
  {
    && 0 <= m.Language <= 999
    && !IsZero(m.TransactionDate)
    && 0 <= m.HoldItemsCount <= 9999 && 0 <= m.OverdueItemsCount <= 9999 && 0 <= m.ChargedItemsCount <= 9999
    && 0 <= m.FineItemsCount <= 9999 && 0 <= m.RecallItemsCount <= 9999 && 0 <= m.UnavailableHoldsCount <= 9999
    && m.InstitutionID != "" && Utils.SipField(m.InstitutionID, bad)
    && m.PatronID != "" && Utils.SipField(m.PatronID, bad)
    && Utils.SipField(m.PatronName, bad)
    && 0 <= m.HoldItemsLimit <= 9999 && 0 <= m.OverdueItemsLimit <= 9999 && 0 <= m.ChargedItemsLimit <= 9999
    && (m.CurrencyType == "" || |m.CurrencyType| == 3) && Utils.SipField(m.CurrencyType, bad)
    && Utils.SipField(m.FeeAmount, bad)
    && Utils.SipField(m.FeeLimit, bad)
    && AllSip(m.HoldItems, bad) && AllSip(m.OverdueItems, bad) && AllSip(m.ChargedItems, bad)
    && AllSip(m.FineItems, bad) && AllSip(m.RecallItems, bad) && AllSip(m.UnavailHoldItems, bad)
    && Utils.SipField(m.HomeAddress, bad)
    && Utils.SipField(m.EmailAddress, bad)
    && Utils.SipField(m.HomePhone, bad)
    && Utils.SipField(m.ScreenMessage, bad)
    && Utils.SipField(m.PrintLine, bad)
    && 0 <= m.SeqNum <= 9
  }

  /** Resetting the sequence number keeps a message valid. */
  lemma ValidSeqNum(m: PatronInfo, bad: string)
    requires Valid(m, bad)
    ensures Valid(m.(SeqNum := 0), bad)
  {
  }

  /** The language takes three digits and each count four, so the coded fields start at rune 61. */
  predicate Fits(m: PatronInfo)
  {
    0 <= m.Language <= 999 && FitRun(Counts(m), 4)
  }

  /** The three leading coded fields, always written. */
  function LeadFields(institutionID: string, patronID: string, patronName: string): seq<Field>
  {
    [Field(AO, institutionID, true), Field(AA, patronID, true), Field(AE, patronName, true)]
  }

  /**
   * The coded fields that occur at most once, in the order Marshal writes
   * them: the identifiers, the name and the two validity flags always, the
   * limits when positive, the currency type only with three runes, the others
   * unless they are empty.
   */
  function SingleAt(m: PatronInfo, k: int): Field
    requires 0 <= k < 16
  {
    match k
    case 0 => Field(AO, m.InstitutionID, true)
    case 1 => Field(AA, m.PatronID, true)
    case 2 => Field(AE, m.PatronName, true)
    case 3 => Field(BZ, Pad(m.HoldItemsLimit, 4), m.HoldItemsLimit > 0)
    case 4 => Field(CA, Pad(m.OverdueItemsLimit, 4), m.OverdueItemsLimit > 0)
    case 5 => Field(CB, Pad(m.ChargedItemsLimit, 4), m.ChargedItemsLimit > 0)
    case 6 => Field(BL, Utils.YorN(m.ValidPatron), true)
    case 7 => Field(CQ, Utils.YorN(m.ValidPatronPassword), true)
    case 8 => Field(BH, m.CurrencyType, |m.CurrencyType| == 3)
    case 9 => Field(BV, m.FeeAmount, m.FeeAmount != "")
    case 10 => Field(CC, m.FeeLimit, m.FeeLimit != "")
    case 11 => Field(BD, m.HomeAddress, m.HomeAddress != "")
    case 12 => Field(BE, m.EmailAddress, m.EmailAddress != "")
    case 13 => Field(BF, m.HomePhone, m.HomePhone != "")
    case 14 => Field(AF, m.ScreenMessage, m.ScreenMessage != "")
    case 15 => Field(AG, m.PrintLine, m.PrintLine != "")
  }

  function Lead(m: PatronInfo): seq<Field>
  {
    LeadFields(m.InstitutionID, m.PatronID, m.PatronName)
  }

  /** The single fields between the leading ones and the lists. */
  function Mid(m: PatronInfo): (fs: seq<Field>)
    ensures |fs| == 8
  {
    seq(8, i requires 0 <= i < 8 => SingleAt(m, 3 + i))
  }

  /** The single fields after the lists. */
  function Tail(m: PatronInfo): (fs: seq<Field>)
    ensures |fs| == 5
  {
    seq(5, i requires 0 <= i < 5 => SingleAt(m, 11 + i))
  }

  function Block(m: PatronInfo): seq<Field>
  {
    ListBlock(ListTags, ItemLists(m))
  }

  /** The coded fields after the leading ones. */
  function Rest(m: PatronInfo): seq<Field>
  {
    Mid(m) + Block(m) + Tail(m)
  }

  /** Every coded field, in the order Marshal writes them. */
  function Fields(m: PatronInfo): seq<Field>
  {
    Lead(m) + Rest(m)
  }

  /** The tags Unmarshal asks ExtractFields for. */
  const Keys: seq<Tag> := [AY, AO, AA, AE, BZ, CA, CB, BL, CQ, BH, BV, CC, BD, BE, BF, AF, AG]

  /**
   * ExtractMultiFields starts at rune 70 of the line, nine runes into the
   * coded fields, which start at rune 61.
   */
  const Skip: nat := 9

  /** The status flags, the language (%03d), the date and the six counts (%04d each). */
  function Prefix(m: PatronInfo): string
  {
    Code + FieldsPatronStatus.Marshal(m.Status) + Pad(m.Language, 3) + Format(m.TransactionDate) + PadRun(Counts(m), 4)
  }

  lemma PrefixLayout(m: PatronInfo)
    requires Fits(m)
    ensures var p := Prefix(m);
      && |p| == 61 && p[..2] == Code && p[2..16] == FieldsPatronStatus.Marshal(m.Status)
      && p[16..19] == Pad(m.Language, 3) && p[19..37] == Format(m.TransactionDate)
      && p[37..61] == PadRun(Counts(m), 4)
  {
    PadRoundTrip(m.Language, 3);
    ReadPadRun(Counts(m), 4, "");
    Layout5(Prefix(m), Code, FieldsPatronStatus.Marshal(m.Status), Pad(m.Language, 3), Format(m.TransactionDate),
      PadRun(Counts(m), 4));
    assert |Code| + |FieldsPatronStatus.Marshal(m.Status)| == 16;
    assert |Code| + |FieldsPatronStatus.Marshal(m.Status)| + |Pad(m.Language, 3)| == 19;
    assert |Code| + |FieldsPatronStatus.Marshal(m.Status)| + |Pad(m.Language, 3)| + |Format(m.TransactionDate)| == 37;
  }

  function Marshal(m: PatronInfo, d: char, t: char, ed: bool): (r: string)
    ensures |r| > |Prefix(m)| && r[..|Prefix(m)|] == Prefix(m)
    ensures r[|Prefix(m)|..] == Coded(Fields(m), d) + Epilogue(Prefix(m) + Coded(Fields(m), d), m.SeqNum, ed) + [t]
  {
    FrameLayout(Prefix(m), Coded(Fields(m), d), m.SeqNum, ed, t);
    Frame(Prefix(m) + Coded(Fields(m), d), m.SeqNum, ed, t)
  }

  /** The list a multi-field map holds for a tag; none when the tag was not requested. */
  function ListOf(multi: map<Tag, seq<string>>, u: Tag): seq<string>
  {
    if u in multi then multi[u] else []
  }

  /** The three limits: absent means 0, present but not a number is an error, the first reported. */
  function Limits(codes: map<Tag, string>): (r: Result<seq<int>>)
    ensures r.Ok? ==> |r.value| == 3 && Ok(r.value[0]) == NumberOf(Get(codes, BZ), 0)
    ensures r.Ok? ==> Ok(r.value[1]) == NumberOf(Get(codes, CA), 0) && Ok(r.value[2]) == NumberOf(Get(codes, CB), 0)
    ensures r.Err? <==> NumberOf(Get(codes, BZ), 0).Err? || NumberOf(Get(codes, CA), 0).Err? || NumberOf(Get(codes, CB), 0).Err?
  {
    match NumberOf(Get(codes, BZ), 0)
    case Err(e) => Err(e)
    case Ok(holdItemsLimit) =>
      match NumberOf(Get(codes, CA), 0)
      case Err(e) => Err(e)
      case Ok(overdueItemsLimit) =>
        match NumberOf(Get(codes, CB), 0)
        case Err(e) => Err(e)
        case Ok(chargedItemsLimit) => Ok([holdItemsLimit, overdueItemsLimit, chargedItemsLimit])
  }

  /** The fields of the fixed prefix. */
  datatype Head = Head(status: FieldsPatronStatus.PatronStatus, language: int, transactionDate: Date, counts: seq<int>)

  /** The lists ExtractMultiFields finds for each list tag, in order. */
  function ListsOf(multi: map<Tag, seq<string>>): (ls: seq<seq<string>>)
    ensures |ls| == 6 && forall i | 0 <= i < 6 :: ls[i] == ListOf(multi, ListTags[i])
  {
    [ListOf(multi, AS), ListOf(multi, AT), ListOf(multi, AU), ListOf(multi, AV), ListOf(multi, BU), ListOf(multi, CD)]
  }

  /** The message built from the fixed prefix, the limits, the extracted codes and the extracted lists. */
  function Build(h: Head, limits: seq<int>, codes: map<Tag, string>, lists: seq<seq<string>>): (r: PatronInfo)
    requires |h.counts| == 6 && |limits| == 3 && |lists| == 6
    ensures Counts(r) == h.counts && ItemLists(r) == lists
  {
    PatronInfo(
      h.status, h.language, h.transactionDate, h.counts[0], h.counts[1], h.counts[2], h.counts[3], h.counts[4],
      h.counts[5], Get(codes, AO), Get(codes, AA), Get(codes, AE), limits[0], limits[1], limits[2],
      FlagOf(Get(codes, BL)), FlagOf(Get(codes, CQ)), ThreeOf(Get(codes, BH)), Get(codes, BV), Get(codes, CC),
      lists[0], lists[1], lists[2], lists[3], lists[4], lists[5],
      Get(codes, BD), Get(codes, BE), Get(codes, BF), Get(codes, AF), Get(codes, AG), SeqNumOf(Get(codes, AY)))
  }

  /** The lists ExtractMultiFields finds from rune 70 on. */
  function MultiOf(line: string, d: char): map<Tag, seq<string>>
    requires |line| >= 70
  {
    ExtractMulti(line[70..], d, InitMulti(ListTags))
  }

  /** The status flags, the language, the date and the six counts, parsed in that order; the first failure is reported. */
  function HeadOf(line: string): (r: Result<Head>)
    requires |line| >= 61
    ensures r.Ok? ==> Ok(r.value.status) == FieldsPatronStatus.Unmarshal(line[2..16])
    ensures r.Ok? ==> Ok(r.value.language) == Atoi(line[16..19]) && Format(r.value.transactionDate) == line[19..37]
    ensures r.Ok? ==> Ok(r.value.counts) == ReadRun(line[37..61], 6, 4) && |r.value.counts| == 6
  {
    match FieldsPatronStatus.Unmarshal(line[2..16])
    case Err(e) => Err(e)
    case Ok(status) =>
      match Atoi(line[16..19])
      case Err(e) => Err(e)
      case Ok(language) =>
        match Parse(line[19..37])
        case Err(e) => Err(e)
        case Ok(transactionDate) =>
          FormatParse(line[19..37]);
          match ReadRun(line[37..61], 6, 4)
          case Err(e) => Err(e)
          case Ok(counts) => Ok(Head(status, language, transactionDate, counts))
  }

  /** Everything Unmarshal does between the length check and validation. */
  function Decode(line: string, d: char): (r: Result<PatronInfo>)
    requires |line| >= 70
    ensures r.Ok? ==> HeadOf(line).Ok? && Ok(r.value.Status) == FieldsPatronStatus.Unmarshal(line[2..16])
    ensures r.Ok? ==> Ok(r.value.Language) == Atoi(line[16..19]) && Format(r.value.TransactionDate) == line[19..37]
    ensures r.Ok? ==> Ok(Counts(r.value)) == ReadRun(line[37..61], 6, 4)
    ensures r.Ok? ==> ItemLists(r.value) == ListsOf(MultiOf(line, d))
  {
    match HeadOf(line)
    case Err(e) => Err(e)
    case Ok(h) =>
      var codes := Extract(line[61..], d, Init(Keys));
      match Limits(codes)
      case Err(e) => Err(e)
      case Ok(limits) => Ok(Build(h, limits, codes, ListsOf(MultiOf(line, d))))
  }

  /**
   * Unmarshal: the status flags, the language, the transaction date, the six
   * counts and the three limits are parsed in that order, the first failure
   * reported; a currency type without exactly three runes is dropped; the
   * result of the validation is returned.
   */
  function Unmarshal(line: string, d: char, bad: string): (r: Result<PatronInfo>)
    ensures |line| < 73 || line[..2] != Code ==> r == Err(InvalidMessage(Code))
    ensures r.Ok? ==> Valid(r.value, bad) && Ok(Counts(r.value)) == ReadRun(line[37..61], 6, 4)
    ensures r.Ok? ==> Format(r.value.TransactionDate) == line[19..37]
    ensures r.Ok? ==> ItemLists(r.value) == ListsOf(MultiOf(line, d))
  {
    if |line| < 73 || line[..2] != Code then Err(InvalidMessage(Code))
    else
      match Decode(line, d)
      case Err(e) => Err(e)
      case Ok(m) => if Valid(m, bad) then Ok(m) else Err(ValidationFailed(Code))
  }

  // ---------------------------------------------------------------------
  // What comes back

  /** The items of list u that the extraction finds in the leading fields. */
  function StrayItems(m: PatronInfo, d: char, u: Tag): seq<string>
  {
    Matching(Segments(Stray(Lead(m), Skip, d), d), u)
  }

  /** No list tag opens a segment of the stray text. */
  predicate StrayFree(m: PatronInfo, d: char)
  {
    forall i | 0 <= i < 6 :: StrayItems(m, d, ListTags[i]) == []
  }

  /** What a list decodes to: the stray items, then the items Marshal wrote. */
  function ListRead(m: PatronInfo, d: char, i: int): seq<string>
    requires 0 <= i < 6
  {
    StrayItems(m, d, ListTags[i]) + Present(ItemLists(m)[i])
  }

  /** The message a decoder rebuilds from the encoding of m. */
  function WithStray(m: PatronInfo, d: char): PatronInfo
  {
    m.(HoldItems := ListRead(m, d, 0), OverdueItems := ListRead(m, d, 1), ChargedItems := ListRead(m, d, 2),
       FineItems := ListRead(m, d, 3), RecallItems := ListRead(m, d, 4), UnavailHoldItems := ListRead(m, d, 5))
  }

  /** The message as its encoding carries it: every list without its empty items. */
  function Written(m: PatronInfo): PatronInfo
  {
    m.(HoldItems := Present(m.HoldItems), OverdueItems := Present(m.OverdueItems),
       ChargedItems := Present(m.ChargedItems), FineItems := Present(m.FineItems),
       RecallItems := Present(m.RecallItems), UnavailHoldItems := Present(m.UnavailHoldItems))
  }

  /** Without stray segments a decoder reads back exactly the written lists. */
  lemma StrayFreeWritten(m: PatronInfo, d: char)
    requires StrayFree(m, d)
    ensures WithStray(m, d) == Written(m)
  {
    forall i | 0 <= i < 6 ensures ListRead(m, d, i) == Present(ItemLists(m)[i]) {
      assert StrayItems(m, d, ListTags[i]) == [];
    }
  }

  /** Dropping the empty items keeps a message valid. */
  lemma WrittenValid(m: PatronInfo, bad: string)
    requires Valid(m, bad)
    ensures Valid(Written(m), bad)
  {
    PresentSip(m.HoldItems, bad);
    PresentSip(m.OverdueItems, bad);
    PresentSip(m.ChargedItems, bad);
    PresentSip(m.FineItems, bad);
    PresentSip(m.RecallItems, bad);
    PresentSip(m.UnavailHoldItems, bad);
  }

  /** A message whose lists hold no empty item is written whole. */
  lemma WrittenWhole(m: PatronInfo)
    requires forall i, k | 0 <= i < 6 && 0 <= k < |ItemLists(m)[i]| :: ItemLists(m)[i][k] != ""
    ensures Written(m) == m
  {
    assert ItemLists(m)[0] == m.HoldItems && ItemLists(m)[1] == m.OverdueItems && ItemLists(m)[2] == m.ChargedItems;
    assert ItemLists(m)[3] == m.FineItems && ItemLists(m)[4] == m.RecallItems && ItemLists(m)[5] == m.UnavailHoldItems;
    PresentKeeps(m.HoldItems);
    PresentKeeps(m.OverdueItems);
    PresentKeeps(m.ChargedItems);
    PresentKeeps(m.FineItems);
    PresentKeeps(m.RecallItems);
    PresentKeeps(m.UnavailHoldItems);
  }

  // ---------------------------------------------------------------------
  // Proof of the round trip

  /** A line that starts with the prefix of a message parses back to that message's prefix fields. */
  lemma HeadOfPrefix(m: PatronInfo, line: string)
    requires Fits(m) && |line| >= 61 && line[..61] == Prefix(m)
    ensures HeadOf(line) == Ok(Head(m.Status, m.Language, m.TransactionDate, Counts(m)))
  {
    var p := Prefix(m);
    PrefixLayout(m);
    Slice(line, p, 2, 16);
    Slice(line, p, 16, 19);
    Slice(line, p, 19, 37);
    Slice(line, p, 37, 61);
    FieldsPatronStatus.RoundTrip(m.Status, "");
    assert FieldsPatronStatus.Marshal(m.Status) + "" == FieldsPatronStatus.Marshal(m.Status);
    PadRoundTrip(m.Language, 3);
    ParseFormat(m.TransactionDate);
    ReadPadRun(Counts(m), 4, "");
    assert PadRun(Counts(m), 4) + "" == PadRun(Counts(m), 4);
  }

  /** The fixed prefix of a valid message's encoding parses back. */
  lemma MarshalPrefix(m: PatronInfo, d: char, t: char, ed: bool, bad: string)
    requires Valid(m, bad)
    ensures var line := Marshal(m, d, t, ed);
      && |line| > 61 && line[..61] == Prefix(m)
      && HeadOf(line) == Ok(Head(m.Status, m.Language, m.TransactionDate, Counts(m)))
  {
    assert Fits(m);
    PrefixLayout(m);
    HeadOfPrefix(m, Marshal(m, d, t, ed));
  }

  /** The tag of each single field, by its position among the single fields. */
  function TagAt(k: int): FieldTag
    requires 0 <= k < 16
  {
    match k
    case 0 => AO case 1 => AA case 2 => AE case 3 => BZ case 4 => CA case 5 => CB case 6 => BL case 7 => CQ
    case 8 => BH case 9 => BV case 10 => CC case 11 => BD case 12 => BE case 13 => BF case 14 => AF case 15 => AG
  }

  /** The position of each single tag among the single fields; -1 for any other tag. */
  function Slot(t: Tag): int
  {
    if t == AO then 0 else if t == AA then 1 else if t == AE then 2 else if t == BZ then 3
    else if t == CA then 4 else if t == CB then 5 else if t == BL then 6 else if t == CQ then 7
    else if t == BH then 8 else if t == BV then 9 else if t == CC then 10 else if t == BD then 11
    else if t == BE then 12 else if t == BF then 13 else if t == AF then 14 else if t == AG then 15 else -1
  }

  /** Every single tag is requested, is not AY, is no list's tag, and has its own slot. */
  lemma TagTable()
    ensures forall k | 0 <= k < 16 :: Slot(TagAt(k)) == k && TagAt(k) in Keys && TagAt(k) != AY && TagAt(k) !in ListTags
    ensures AY !in ListTags
  {
  }

  /** The six list tags are distinct. */
  lemma ListTagsDistinct()
    ensures forall i, j | 0 <= i < 6 && 0 <= j < 6 && i != j :: ListTags[i] != ListTags[j]
  {
  }

  /** Where the k-th single field sits among all the fields. */
  function Pos(m: PatronInfo, k: int): int
  {
    if k < 11 then k else k + |Block(m)|
  }

  /** The single fields before the lists. */
  function Before(m: PatronInfo): (fs: seq<Field>)
    ensures |fs| == 11 && forall k | 0 <= k < 11 :: fs[k] == SingleAt(m, k)
  {
    Lead(m) + Mid(m)
  }

  lemma FieldsAt(m: PatronInfo)
    ensures Fields(m) == Before(m) + Block(m) + Tail(m)
    ensures |Fields(m)| == 16 + |Block(m)|
    ensures forall k | 0 <= k < 16 :: 0 <= Pos(m, k) < |Fields(m)| && Fields(m)[Pos(m, k)] == SingleAt(m, k)
    ensures forall k | 0 <= k < 16 :: SingleAt(m, k).tag == TagAt(k)
  {
    assert Fields(m) == Before(m) + Block(m) + Tail(m);
  }

  lemma FieldsTagged(m: PatronInfo)
    ensures forall j | 0 <= j < |Fields(m)| :: Fields(m)[j].tag != AY
    ensures forall k | 0 <= k < 16 :: Unique(Fields(m), Pos(m, k))
  {
    FieldsNoAY(m);
    FieldsUnique(m);
  }

  lemma FieldsNoAY(m: PatronInfo)
    ensures forall j | 0 <= j < |Fields(m)| :: Fields(m)[j].tag != AY
  {
    var a := Before(m);
    var fs := Fields(m);
    FieldsAt(m);
    TagTable();
    ListBlockTags(ListTags, ItemLists(m));
    forall j | 0 <= j < |fs| ensures fs[j].tag != AY {
      if j < 11 {
        assert fs[j] == a[j];
      } else if j < 11 + |Block(m)| {
        assert fs[j] == Block(m)[j - 11];
      } else {
        assert fs[j] == Tail(m)[j - 11 - |Block(m)|];
      }
    }
  }

  lemma FieldsUnique(m: PatronInfo)
    ensures forall k | 0 <= k < 16 :: Unique(Fields(m), Pos(m, k))
  {
    var a := Before(m);
    var b := Tail(m);
    FieldsAt(m);
    TagTable();
    ListBlockTags(ListTags, ItemLists(m));
    UniqueAround(a, Block(m), b, ListTags, Slot);
  }

  lemma CleanSingles(m: PatronInfo, d: char, bad: string)
    requires Valid(m, bad) && d in bad && DelimiterSafe(d)
    ensures forall k | 0 <= k < 16 && SingleAt(m, k).emit :: d !in SingleAt(m, k).value
  {
    PaddedClean(m.HoldItemsLimit, 4, d);
    PaddedClean(m.OverdueItemsLimit, 4, d);
    PaddedClean(m.ChargedItemsLimit, 4, d);
    assert d !in Utils.YorN(m.ValidPatron) && d !in Utils.YorN(m.ValidPatronPassword);
  }

  lemma CleanFields(m: PatronInfo, d: char, bad: string)
    requires Valid(m, bad) && d in bad && DelimiterSafe(d)
    ensures Clean(Rest(m), d) && Clean(Fields(m), d)
  {
    CleanSingles(m, d, bad);
    assert Clean(Lead(m), d);
    assert Clean(Mid(m), d);
    assert Clean(Tail(m), d);
    ListBlockClean(ListTags, ItemLists(m), d, bad);
    CleanJoin(Mid(m), Block(m), d);
    CleanJoin(Mid(m) + Block(m), Tail(m), d);
    CleanJoin(Lead(m), Rest(m), d);
  }

  /** Codes that read the fields back hold each written single field's value. */
  lemma ReadAt(m: PatronInfo, codes: map<Tag, string>, k: int)
    requires ReadsBack(Fields(m), Keys, codes) && 0 <= k < 16
    ensures Get(codes, TagAt(k)) == Seen(SingleAt(m, k))
  {
    FieldsAt(m);
    FieldsTagged(m);
    TagTable();
  }

  /** The limits a valid message writes read back. */
  lemma ReadLimits(m: PatronInfo, codes: map<Tag, string>, bad: string)
    requires Valid(m, bad) && ReadsBack(Fields(m), Keys, codes)
    ensures Limits(codes) == Ok([m.HoldItemsLimit, m.OverdueItemsLimit, m.ChargedItemsLimit])
  {
    ReadAt(m, codes, 3);
    ReadAt(m, codes, 4);
    ReadAt(m, codes, 5);
    PaddedOfText(m.HoldItemsLimit, 4);
    PaddedOfText(m.OverdueItemsLimit, 4);
    PaddedOfText(m.ChargedItemsLimit, 4);
  }

  /** Each list tag gets back, from the fields after the leading ones, exactly the written items. */
  lemma RestMatching(m: PatronInfo, i: int)
    requires 0 <= i < 6
    ensures Matching(FieldSegments(Rest(m)), ListTags[i]) == Present(ItemLists(m)[i])
  {
    SinglesOffList(m);
    ListTagsDistinct();
    AroundMatching(Mid(m), ListTags, ItemLists(m), Tail(m), i);
  }

  /** No single field carries a list tag. */
  lemma SinglesOffList(m: PatronInfo)
    ensures forall j | 0 <= j < 8 :: Mid(m)[j].tag !in ListTags
    ensures forall j | 0 <= j < 5 :: Tail(m)[j].tag !in ListTags
  {
    TagTable();
    assert forall j | 0 <= j < 8 :: Mid(m)[j].tag == TagAt(3 + j);
    assert forall j | 0 <= j < 5 :: Tail(m)[j].tag == TagAt(11 + j);
  }

  /** The counts of a valid message fit four digits each. */
  lemma ValidFits(m: PatronInfo, bad: string)
    requires Valid(m, bad)
    ensures Fits(m)
  {
    assert Pow10(4) == 10000;
  }

  /** The leading fields take their three values plus nine runes, and the last of them is written. */
  lemma LeadCoded(m: PatronInfo, d: char)
    ensures |Lead(m)| == 3 && Lead(m)[2].emit
    ensures |Coded(Lead(m), d)| == |m.InstitutionID| + |m.PatronID| + |m.PatronName| + 9
  {
    var fs := Lead(m);
    assert fs[1..][1..][1..] == [];
    assert |Coded(fs[1..][1..], d)| == |m.PatronName| + 3;
    assert |Coded(fs[1..], d)| == |m.PatronID| + 3 + |Coded(fs[1..][1..], d)|;
  }

  /** The lists decoded from the encoding of a valid message. */
  lemma ReadListsBack(m: PatronInfo, d: char, t: char, ed: bool, i: int)
    requires Fits(m) && Clean(Rest(m), d) && DelimiterSafe(d) && 0 <= m.SeqNum <= 9 && 0 <= i < 6
    requires m.InstitutionID != "" || m.PatronID != "" || m.PatronName != ""
    ensures |Marshal(m, d, t, ed)| >= 70
    ensures ListOf(MultiOf(Marshal(m, d, t, ed), d), ListTags[i]) == ListRead(m, d, i)
  {
    var line := Marshal(m, d, t, ed);
    PrefixLayout(m);
    LeadCoded(m, d);
    assert line[61..] == Coded(Lead(m) + Rest(m), d) + Epilogue(line[..61] + Coded(Lead(m) + Rest(m), d), m.SeqNum, ed) + [t];
    ReadLists(Lead(m), Rest(m), Skip, line, 61, m.SeqNum, ed, d, t, ListTags, ListTags[i]);
    RestMatching(m, i);
  }

  /** Every list decoded from the encoding of a valid message. */
  lemma ReadAllLists(m: PatronInfo, d: char, t: char, ed: bool)
    requires Fits(m) && Clean(Rest(m), d) && DelimiterSafe(d) && 0 <= m.SeqNum <= 9
    requires m.InstitutionID != "" || m.PatronID != "" || m.PatronName != ""
    ensures |Marshal(m, d, t, ed)| >= 70
    ensures ListsOf(MultiOf(Marshal(m, d, t, ed), d)) == ListsRead(m, d)
  {
    ReadListsBack(m, d, t, ed, 0);
    ReadListsBack(m, d, t, ed, 1);
    ReadListsBack(m, d, t, ed, 2);
    ReadListsBack(m, d, t, ed, 3);
    ReadListsBack(m, d, t, ed, 4);
    ReadListsBack(m, d, t, ed, 5);
  }

  /** What each list decodes to, in order. */
  function ListsRead(m: PatronInfo, d: char): (ls: seq<seq<string>>)
    ensures |ls| == 6 && forall i | 0 <= i < 6 :: ls[i] == ListRead(m, d, i)
  {
    [ListRead(m, d, 0), ListRead(m, d, 1), ListRead(m, d, 2), ListRead(m, d, 3), ListRead(m, d, 4), ListRead(m, d, 5)]
  }

  /** The texts the codes hold for the leading fields, the flags and the currency type. */
  lemma ReadLow(m: PatronInfo, codes: map<Tag, string>)
    requires ReadsBack(Fields(m), Keys, codes)
    ensures Get(codes, AO) == m.InstitutionID && Get(codes, AA) == m.PatronID && Get(codes, AE) == m.PatronName
    ensures Get(codes, BL) == Utils.YorN(m.ValidPatron) && Get(codes, CQ) == Utils.YorN(m.ValidPatronPassword)
    ensures Get(codes, BH) == if |m.CurrencyType| == 3 then m.CurrencyType else ""
  {
    ReadAt(m, codes, 0);
    ReadAt(m, codes, 1);
    ReadAt(m, codes, 2);
    ReadAt(m, codes, 6);
    ReadAt(m, codes, 7);
    ReadAt(m, codes, 8);
  }

  /** The texts the codes hold for the optional strings. */
  lemma ReadHigh(m: PatronInfo, codes: map<Tag, string>)
    requires ReadsBack(Fields(m), Keys, codes)
    ensures Get(codes, BV) == m.FeeAmount && Get(codes, CC) == m.FeeLimit && Get(codes, BD) == m.HomeAddress
    ensures Get(codes, BE) == m.EmailAddress && Get(codes, BF) == m.HomePhone
    ensures Get(codes, AF) == m.ScreenMessage && Get(codes, AG) == m.PrintLine
  {
    ReadAt(m, codes, 9);
    ReadAt(m, codes, 10);
    ReadAt(m, codes, 11);
    ReadAt(m, codes, 12);
    ReadAt(m, codes, 13);
    ReadAt(m, codes, 14);
    ReadAt(m, codes, 15);
  }

  /** Codes and lists that read the fields back rebuild the message. */
  lemma ReadFields(m: PatronInfo, d: char, codes: map<Tag, string>)
    requires ReadsBack(Fields(m), Keys, codes) && (m.CurrencyType == "" || |m.CurrencyType| == 3)
    ensures Build(Head(m.Status, m.Language, m.TransactionDate, Counts(m)),
      [m.HoldItemsLimit, m.OverdueItemsLimit, m.ChargedItemsLimit], codes, ListsRead(m, d))
      == WithStray(m, d).(SeqNum := SeqNumOf(Get(codes, AY)))
  {
    ReadLow(m, codes);
    ReadHigh(m, codes);
  }

  /**
   * The encoding of a valid message decodes to it, except that each list
   * comes back without its empty items and after whatever items the
   * extraction finds in the leading fields.
   */
  lemma MarshalDecodes(m: PatronInfo, d: char, t: char, ed: bool, bad: string)
    requires Valid(m, bad) && d in bad && DelimiterSafe(d)
    ensures |Marshal(m, d, t, ed)| >= 70
    ensures Decode(Marshal(m, d, t, ed), d) == Ok(if ed then WithStray(m, d) else WithStray(m, d).(SeqNum := 0))
  {
    var line := Marshal(m, d, t, ed);
    MarshalPrefix(m, d, t, ed, bad);
    ValidFits(m, bad);
    PrefixLayout(m);
    var codes := Extract(line[61..], d, Init(Keys));
    FieldsTagged(m);
    CleanFields(m, d, bad);
    ReadLine(Fields(m), Keys, line, 61, m.SeqNum, ed, d, t);
    ReadLimits(m, codes, bad);
    MarshalLength(m, d, t, ed, bad);
    ReadAllLists(m, d, t, ed);
    ReadFields(m, d, codes);
    SeqNumOfText(m.SeqNum, ed);
  }

  /** The leading fields of a valid message take at least eleven runes. */
  lemma CodedLeast(m: PatronInfo, d: char, bad: string)
    requires Valid(m, bad)
    ensures |Coded(Fields(m), d)| >= 11
  {
    var fs := Fields(m);
    FieldsAt(m);
    assert fs[0] == SingleAt(m, 0) && fs[1] == SingleAt(m, 1) && fs[2] == SingleAt(m, 2);
    CodedPicks(fs, d, [0, 1, 2], 0);
    assert [0, 1, 2][1..] == [1, 2] && [1, 2][1..] == [2] && [2][1..] == [];
    assert PickedLength(fs, [2]) == |m.PatronName| + 3;
    assert PickedLength(fs, [1, 2]) == |m.PatronID| + 3 + PickedLength(fs, [2]);
    assert PickedLength(fs, [0, 1, 2]) == |m.InstitutionID| + 3 + PickedLength(fs, [1, 2]);
    assert fs[0..] == fs;
  }

  /** The institution and patron identifiers are never empty, so the encoding is never short. */
  lemma MarshalLength(m: PatronInfo, d: char, t: char, ed: bool, bad: string)
    requires Valid(m, bad)
    ensures |Marshal(m, d, t, ed)| >= 73 && Marshal(m, d, t, ed)[..2] == Code
  {
    assert Fits(m);
    PrefixLayout(m);
    assert Marshal(m, d, t, ed)[..2] == Prefix(m)[..2];
    CodedLeast(m, d, bad);
  }

  /**
   * A valid message decodes to itself with the empty items of its lists
   * dropped, when no list tag opens a segment of the stray text; without
   * error detection the sequence number comes back as 0.
   */
  lemma RoundTrip(m: PatronInfo, d: char, t: char, ed: bool, bad: string)
    requires Valid(m, bad) && d in bad && DelimiterSafe(d) && StrayFree(m, d)
    ensures Unmarshal(Marshal(m, d, t, ed), d, bad) == Ok(if ed then Written(m) else Written(m).(SeqNum := 0))
  {
    MarshalLength(m, d, t, ed, bad);
    MarshalDecodes(m, d, t, ed, bad);
    StrayFreeWritten(m, d);
    WrittenValid(m, bad);
    ValidSeqNum(Written(m), bad);
  }

  /** The text of the two leading fields after the institution identifier, without the last delimiter. */
  function AfterInstitution(patronID: string, patronName: string, d: char): string
  {
    [d] + ['A', 'A'] + patronID + [d] + ['A', 'E'] + patronName
  }

  /** The text of the three leading fields. */
  lemma LeadText(institutionID: string, patronID: string, patronName: string, d: char)
    ensures Coded(LeadFields(institutionID, patronID, patronName), d)
      == ['A', 'O'] + institutionID + (AfterInstitution(patronID, patronName, d) + [d])
  {
    var fs := LeadFields(institutionID, patronID, patronName);
    assert fs[1..][1..][1..] == [];
    assert Coded(fs[1..][1..], d) == ['A', 'E'] + patronName + [d];
    assert Coded(fs[1..], d) == ['A', 'A'] + patronID + [d] + (['A', 'E'] + patronName + [d]);
  }

  /**
   * Because the lists are extracted from rune 70 on, an institution
   * identifier that holds a list tag at the right place yields a hold item
   * that Marshal never wrote.
   */
  lemma StrayHoldItem()
    ensures Matching(Segments(Stray(LeadFields("inst001ASfoo", "P", "N"), Skip, '|'), '|'), AS) == ["foo"]
  {
    ExampleStray();
    ExampleSegments();
    ExampleMatching();
  }

  /** Past the first Skip runes of the leading fields, the stray text is the rest of the institution identifier onward. */
  lemma StrayOfLead(a: string, b: string, patronID: string, patronName: string, d: char)
    requires |a| == Skip - 2
    ensures Stray(LeadFields(a + b, patronID, patronName), Skip, d) == b + AfterInstitution(patronID, patronName, d)
  {
    LeadText(a + b, patronID, patronName, d);
    var x, r := ['A', 'O'] + a, AfterInstitution(patronID, patronName, d);
    assert ['A', 'O'] + (a + b) == x + b;
    Associative(x, b, r + [d]);
    Associative(b, r, [d]);
    Middle(x, b + r, [d]);
  }

  lemma ExampleStray()
    ensures Stray(LeadFields("inst001ASfoo", "P", "N"), Skip, '|') == "ASfoo|AAP|AEN"
  {
    ExampleText();
    StrayOfLead("inst001", "ASfoo", "P", "N", '|');
  }

  lemma ExampleText()
    ensures "inst001" + "ASfoo" == "inst001ASfoo"
    ensures "ASfoo" + AfterInstitution("P", "N", '|') == "ASfoo|AAP|AEN"
  {
  }


  /** The middle of three parts sits between the lengths of the first and of the first two. */
  lemma Middle(x: string, y: string, z: string)
    ensures (x + (y + z))[|x|..|x| + |y|] == y
  {
  }


  lemma ExampleSegments()
    ensures Segments("ASfoo|AAP|AEN", '|') == ["ASfoo", "AAP", "AEN"]
  {
    assert "ASfoo|AAP|AEN" == "ASfoo" + ['|'] + ("AAP" + ['|'] + "AEN");
    SegmentsOfThree("ASfoo", "AAP", "AEN", '|');
  }

  lemma ExampleMatching()
    ensures Matching(["ASfoo", "AAP", "AEN"], AS) == ["foo"]
  {
    var segs: seq<string> := ["ASfoo", "AAP", "AEN"];
    assert Carries(segs[0], AS) && segs[0][2..] == "foo";
    assert !Carries(segs[1], AS) && !Carries(segs[2], AS);
    assert segs[1..][1..][1..] == [];
    assert Matching(segs[1..][1..], AS) == [];
    assert Matching(segs[1..], AS) == [];
  }
}
