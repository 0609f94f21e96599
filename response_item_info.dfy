/**
 * Item Information response (18): the ACS describes an item: its circulation
 * status, security marker, fee type, dates and locations.
 */
module ResponseItemInfo {
  import opened Errors
  import opened Numbers
  import opened Dates
  import opened Codes
  import opened Wire
  import Utils

  const Code: string := "18"

  datatype ItemInfo = ItemInfo(
    CirculationStatus: int,
    SecurityMarker: int,
    FeeType: int,
    TransactionDate: Date,
    HoldQueueLength: int,
    DueDate: string,
    RecallDate: Date,
    HoldPickupDate: Date,
    ItemID: string,
    TitleID: string,
    Owner: string,
    CurrencyType: string,
    FeeAmount: string,
    MediaType: string,
    PermanentLocation: string,
    CurrentLocation: string,
    ItemProperties: string,
    ScreenMessage: string,
    PrintLine: string,
    SeqNum: int)

  /**
   * The validate tags of the struct, and Validate's own rule that a currency
   * type and a media type, when present, have exactly three runes. The due
   * date is required; a hold queue length of -1 means none.
   */
  predicate Valid(m: ItemInfo, bad: string)
  {
    && 0 <= m.CirculationStatus <= 99
    && 0 <= m.SecurityMarker <= 99
    && 1 <= m.FeeType <= 99
    && !IsZero(m.TransactionDate)
    && m.HoldQueueLength >= -1
    && m.DueDate != "" && Utils.SipField(m.DueDate, bad)
    && m.ItemID != "" && Utils.SipField(m.ItemID, bad)
    && Utils.SipField(m.TitleID, bad)
    && Utils.SipField(m.Owner, bad)
    && (m.CurrencyType == "" || |m.CurrencyType| == 3) && Utils.SipField(m.CurrencyType, bad)
    && Utils.SipField(m.FeeAmount, bad)
    && (m.MediaType == "" || |m.MediaType| == 3) && Utils.SipField(m.MediaType, bad)
    && Utils.SipField(m.PermanentLocation, bad)
    && Utils.SipField(m.CurrentLocation, bad)
    && Utils.SipField(m.ItemProperties, bad)
    && Utils.SipField(m.ScreenMessage, bad)
    && Utils.SipField(m.PrintLine, bad)
    && 0 <= m.SeqNum <= 9
  }

  /** Resetting the sequence number keeps a message valid. */
  lemma ValidSeqNum(m: ItemInfo, bad: string)
    requires Valid(m, bad)
    ensures Valid(m.(SeqNum := 0), bad)
  {
  }

  /** The three numbers of the prefix take two digits each, so the date starts at rune 8. */
  predicate Fits(m: ItemInfo)
  {
    0 <= m.CirculationStatus <= 99 && 0 <= m.SecurityMarker <= 99 && 0 <= m.FeeType <= 99
  }

  /**
   * The coded fields in the order Marshal writes them: the hold queue length
   * unless it is -1, the two dates unless they are the zero time, the item
   * and title identifiers always, the currency and media types only with
   * three runes, the others unless they are empty.
   */
  function Fields(m: ItemInfo): (fs: seq<Field>)
    ensures |fs| == 15
  {
    seq(15, i requires 0 <= i < 15 => FieldAt(m, i))
  }

  function FieldAt(m: ItemInfo, i: int): Field
    requires 0 <= i < 15
  {
    match i
    case 0 => Field(CF, Itoa(m.HoldQueueLength), m.HoldQueueLength != -1)
    case 1 => Field(AH, m.DueDate, m.DueDate != "")
    case 2 => Field(CJ, Format(m.RecallDate), !IsZero(m.RecallDate))
    case 3 => Field(CM, Format(m.HoldPickupDate), !IsZero(m.HoldPickupDate))
    case 4 => Field(AB, m.ItemID, true)
    case 5 => Field(AJ, m.TitleID, true)
    case 6 => Field(BG, m.Owner, m.Owner != "")
    case 7 => Field(BH, m.CurrencyType, |m.CurrencyType| == 3)
    case 8 => Field(BV, m.FeeAmount, m.FeeAmount != "")
    case 9 => Field(CK, m.MediaType, |m.MediaType| == 3)
    case 10 => Field(AQ, m.PermanentLocation, m.PermanentLocation != "")
    case 11 => Field(AP, m.CurrentLocation, m.CurrentLocation != "")
    case 12 => Field(CH, m.ItemProperties, m.ItemProperties != "")
    case 13 => Field(AF, m.ScreenMessage, m.ScreenMessage != "")
    case 14 => Field(AG, m.PrintLine, m.PrintLine != "")
  }

  /** The tags Unmarshal asks ExtractFields for. */
  const Keys: seq<Tag> := [AY, CF, AH, CJ, CM, AB, AJ, BG, BH, BV, CK, AQ, AP, CH, AF, AG]

  /** The three numbers are written with %02d. */
  function Marshal(m: ItemInfo, d: char, t: char, ed: bool): (r: string)
    ensures |r| > 2 && r[..2] == Code
    ensures Fits(m) ==> |r| > 26 && r[2..4] == Pad(m.CirculationStatus, 2) && r[4..6] == Pad(m.SecurityMarker, 2)
    ensures Fits(m) ==> r[6..8] == Pad(m.FeeType, 2) && r[8..26] == Format(m.TransactionDate)
    ensures Fits(m) ==> r[26..] == Coded(Fields(m), d) + Epilogue(r[..26] + Coded(Fields(m), d), m.SeqNum, ed) + [t]
  {
    var r := Frame(Code + Pad(m.CirculationStatus, 2) + Pad(m.SecurityMarker, 2) + Pad(m.FeeType, 2)
      + Format(m.TransactionDate) + Coded(Fields(m), d), m.SeqNum, ed, t);
    if Fits(m) then
      PadRoundTrip(m.CirculationStatus, 2);
      PadRoundTrip(m.SecurityMarker, 2);
      PadRoundTrip(m.FeeType, 2);
      Placed5(Code, Pad(m.CirculationStatus, 2), Pad(m.SecurityMarker, 2),
        Pad(m.FeeType, 2), Format(m.TransactionDate),
        Coded(Fields(m), d), m.SeqNum, ed, t, 2, 4, 6, 8, 26);
      r
    else
      Framed5(Code, Pad(m.CirculationStatus, 2), Pad(m.SecurityMarker, 2), Pad(m.FeeType, 2), Format(m.TransactionDate),
        Coded(Fields(m), d), m.SeqNum, ed, t);
      r
  }

  /** The message built from the fixed prefix, the three decoded fields and the extracted codes. */
  function Build(numbers: seq<int>, transactionDate: Date, holdQueueLength: int, recallDate: Date,
    holdPickupDate: Date, codes: map<Tag, string>): ItemInfo
    requires |numbers| == 3
  {
    ItemInfo(
      numbers[0], numbers[1], numbers[2], transactionDate, holdQueueLength, Get(codes, AH),
      recallDate, holdPickupDate, Get(codes, AB), Get(codes, AJ), Get(codes, BG),
      ThreeOf(Get(codes, BH)), Get(codes, BV), ThreeOf(Get(codes, CK)),
      Get(codes, AQ), Get(codes, AP), Get(codes, CH), Get(codes, AF), Get(codes, AG),
      SeqNumOf(Get(codes, AY)))
  }

  /**
   * The message built from the fixed prefix and the extracted codes: a hold
   * queue length or a date that is present but does not parse is an error,
   * in that order; an absent hold queue length is -1.
   */
  function FromCodes(numbers: seq<int>, transactionDate: Date, codes: map<Tag, string>): (r: Result<ItemInfo>)
    requires |numbers| == 3
    ensures NumberOf(Get(codes, CF), -1).Err? ==> r == Err(NumberOf(Get(codes, CF), -1).error)
    ensures r.Ok? ==> Ok(r.value.HoldQueueLength) == NumberOf(Get(codes, CF), -1)
    ensures r.Ok? ==> Ok(r.value.RecallDate) == DateOf(Get(codes, CJ)) && Ok(r.value.HoldPickupDate) == DateOf(Get(codes, CM))
  {
    match NumberOf(Get(codes, CF), -1)
    case Err(e) => Err(e)
    case Ok(holdQueueLength) =>
      match DateOf(Get(codes, CJ))
      case Err(e) => Err(e)
      case Ok(recallDate) =>
        match DateOf(Get(codes, CM))
        case Err(e) => Err(e)
        case Ok(holdPickupDate) => Ok(Build(numbers, transactionDate, holdQueueLength, recallDate, holdPickupDate, codes))
  }

  /** The three two-digit numbers of the prefix, the first that is not a number reported. */
  function PrefixNumbers(line: string): (r: Result<seq<int>>)
    requires |line| >= 8
    ensures r.Ok? ==> |r.value| == 3 && Ok(r.value[0]) == Atoi(line[2..4])
    ensures r.Ok? ==> Ok(r.value[1]) == Atoi(line[4..6]) && Ok(r.value[2]) == Atoi(line[6..8])
    ensures r.Err? <==> Atoi(line[2..4]).Err? || Atoi(line[4..6]).Err? || Atoi(line[6..8]).Err?
  {
    match Atoi(line[2..4])
    case Err(e) => Err(e)
    case Ok(circulationStatus) =>
      match Atoi(line[4..6])
      case Err(e) => Err(e)
      case Ok(securityMarker) =>
        match Atoi(line[6..8])
        case Err(e) => Err(e)
        case Ok(feeType) => Ok([circulationStatus, securityMarker, feeType])
  }

  /** Everything Unmarshal does between the length check and validation. */
  function Decode(line: string, d: char): (r: Result<ItemInfo>)
    requires |line| >= 26
    ensures r.Ok? ==> Ok(r.value.CirculationStatus) == Atoi(line[2..4]) && Ok(r.value.FeeType) == Atoi(line[6..8])
    ensures r.Ok? ==> Format(r.value.TransactionDate) == line[8..26]
  {
    match PrefixNumbers(line)
    case Err(e) => Err(e)
    case Ok(numbers) =>
      match Parse(line[8..26])
      case Err(e) => Err(e)
      case Ok(transactionDate) =>
        FormatParse(line[8..26]);
        FromCodes(numbers, transactionDate, Extract(line[26..], d, Init(Keys)))
  }

  /**
   * Unmarshal: the three numbers, then the transaction date, then the coded
   * numbers and dates are parsed, the first failure reported; currency and
   * media types without exactly three runes are dropped; the result of the
   * validation is returned.
   */
  function Unmarshal(line: string, d: char, bad: string): (r: Result<ItemInfo>)
    ensures |line| < 32 || line[..2] != Code ==> r == Err(InvalidMessage(Code))
    ensures r.Ok? ==> Valid(r.value, bad) && Ok(r.value.CirculationStatus) == Atoi(line[2..4])
    ensures r.Ok? ==> Format(r.value.TransactionDate) == line[8..26]
  {
    if |line| < 32 || line[..2] != Code then Err(InvalidMessage(Code))
    else
      match Decode(line, d)
      case Err(e) => Err(e)
      case Ok(m) => if Valid(m, bad) then Ok(m) else Err(ValidationFailed(Code))
  }

  /** The fixed prefix of a valid message's encoding parses back. */
  lemma MarshalPrefix(m: ItemInfo, d: char, t: char, ed: bool, bad: string)
    requires Valid(m, bad)
    ensures var line := Marshal(m, d, t, ed);
      && |line| > 26
      && PrefixNumbers(line) == Ok([m.CirculationStatus, m.SecurityMarker, m.FeeType])
      && Parse(line[8..26]) == Ok(m.TransactionDate)
  {
    assert Fits(m);
    FitsPrefix(m, d, t, ed);
  }

  lemma CleanFields(m: ItemInfo, d: char, bad: string)
    requires Valid(m, bad) && d in bad && DelimiterSafe(d)
    ensures Clean(Fields(m), d)
  {
    FieldsAt(m);
    CleanAt(m, d, bad);
  }

  lemma CleanAt(m: ItemInfo, d: char, bad: string)
    requires Valid(m, bad) && d in bad && DelimiterSafe(d)
    ensures forall i | 0 <= i < 15 && FieldAt(m, i).emit :: d !in FieldAt(m, i).value
  {
    NumberClean(m.HoldQueueLength, d);
    DateClean(m.RecallDate, d);
    DateClean(m.HoldPickupDate, d);
    assert d !in m.DueDate && d !in m.ItemID && d !in m.TitleID && d !in m.Owner && d !in m.CurrencyType;
    CleanLow(m, d, bad);
    CleanHigh(m, d, bad);
  }

  lemma CleanLow(m: ItemInfo, d: char, bad: string)
    requires d !in m.DueDate && d !in m.ItemID && d !in m.TitleID && d !in m.Owner && d !in m.CurrencyType
    requires d !in Itoa(m.HoldQueueLength) && d !in Format(m.RecallDate) && d !in Format(m.HoldPickupDate)
    ensures forall i | 0 <= i < 8 && FieldAt(m, i).emit :: d !in FieldAt(m, i).value
  {
  }

  lemma CleanHigh(m: ItemInfo, d: char, bad: string)
    requires Valid(m, bad) && d in bad
    ensures forall i | 8 <= i < 15 && FieldAt(m, i).emit :: d !in FieldAt(m, i).value
  {
  }

  /** The tag of each coded field, by position in the field table. */
  function TagAt(i: int): FieldTag
    requires 0 <= i < 15
  {
    match i
    case 0 => CF case 1 => AH case 2 => CJ case 3 => CM case 4 => AB
    case 5 => AJ case 6 => BG case 7 => BH case 8 => BV case 9 => CK
    case 10 => AQ case 11 => AP case 12 => CH case 13 => AF case 14 => AG
  }

  /** The position of each coded tag in the field table; -1 for any other tag. */
  function Slot(t: Tag): int
  {
    if t == CF then 0 else if t == AH then 1 else if t == CJ then 2 else if t == CM then 3
    else if t == AB then 4 else if t == AJ then 5 else if t == BG then 6 else if t == BH then 7
    else if t == BV then 8 else if t == CK then 9 else if t == AQ then 10 else if t == AP then 11
    else if t == CH then 12 else if t == AF then 13 else if t == AG then 14 else -1
  }

  /** Every tag of the table is requested, is not AY, and has its own slot. */
  lemma TagTable()
    ensures forall i | 0 <= i < 15 :: Slot(TagAt(i)) == i && TagAt(i) in Keys && TagAt(i) != AY
  {
  }

  lemma FieldsAt(m: ItemInfo)
    ensures forall i | 0 <= i < 15 :: Fields(m)[i] == FieldAt(m, i) && FieldAt(m, i).tag == TagAt(i)
  {
  }

  lemma FieldsTagged(m: ItemInfo)
    ensures forall i | 0 <= i < 15 :: Fields(m)[i].tag != AY && Fields(m)[i].tag in Keys && Unique(Fields(m), i)
  {
    FieldsAt(m);
    TagTable();
    UniqueBySlot(Fields(m), Slot);
  }

  /** Codes that read the fields back hold each written field's value. */
  lemma ReadAt(m: ItemInfo, codes: map<Tag, string>, i: int)
    requires ReadsBack(Fields(m), Keys, codes) && 0 <= i < 15
    ensures Get(codes, FieldAt(m, i).tag) == Seen(FieldAt(m, i))
  {
    FieldsTagged(m);
    assert Fields(m)[i] == FieldAt(m, i);
  }

  /** The texts the codes hold for the hold queue length and the two dates. */
  lemma ReadOptional(m: ItemInfo, codes: map<Tag, string>)
    requires ReadsBack(Fields(m), Keys, codes)
    ensures Get(codes, CF) == if m.HoldQueueLength != -1 then Itoa(m.HoldQueueLength) else ""
    ensures Get(codes, CJ) == DateText(m.RecallDate) && Get(codes, CM) == DateText(m.HoldPickupDate)
  {
    ReadAt(m, codes, 0);
    ReadAt(m, codes, 2);
    ReadAt(m, codes, 3);
  }

  /** Codes that read the fields back rebuild a valid message. */
  lemma ReadFields(m: ItemInfo, codes: map<Tag, string>, bad: string)
    requires Valid(m, bad) && ReadsBack(Fields(m), Keys, codes)
    ensures Build([m.CirculationStatus, m.SecurityMarker, m.FeeType], m.TransactionDate, m.HoldQueueLength,
      m.RecallDate, m.HoldPickupDate, codes) == m.(SeqNum := SeqNumOf(Get(codes, AY)))
  {
    ReadAt(m, codes, 1);
    ReadAt(m, codes, 4);
    ReadAt(m, codes, 5);
    ReadAt(m, codes, 6);
    ReadAt(m, codes, 7);
    ReadAt(m, codes, 8);
    ReadAt(m, codes, 9);
    ReadAt(m, codes, 10);
    ReadAt(m, codes, 11);
    ReadAt(m, codes, 12);
    ReadAt(m, codes, 13);
    ReadAt(m, codes, 14);
  }

  /** The encoding of a valid message decodes back to it. */
  lemma MarshalDecodes(m: ItemInfo, d: char, t: char, ed: bool, bad: string)
    requires Valid(m, bad) && d in bad && DelimiterSafe(d)
    ensures |Marshal(m, d, t, ed)| >= 26
    ensures Decode(Marshal(m, d, t, ed), d) == Ok(if ed then m else m.(SeqNum := 0))
  {
    var line := Marshal(m, d, t, ed);
    var codes := Extract(line[26..], d, Init(Keys));
    MarshalPrefix(m, d, t, ed, bad);
    FieldsTagged(m);
    CleanFields(m, d, bad);
    ReadLine(Fields(m), Keys, line, 26, m.SeqNum, ed, d, t);
    ReadCoded(m, codes);
    ReadFields(m, codes, bad);
    SeqNumOfText(m.SeqNum, ed);
  }

  /** The due date and item identifier a valid message writes are not empty. */
  lemma CodedLeast(m: ItemInfo, d: char, bad: string)
    requires Valid(m, bad)
    ensures |Coded(Fields(m), d)| >= 8
  {
    var fs := Fields(m);
    CodedPicks(fs, d, [1, 4], 0);
    assert fs[0..] == fs;
  }

  lemma MarshalLength(m: ItemInfo, d: char, t: char, ed: bool, bad: string)
    requires Valid(m, bad)
    ensures |Marshal(m, d, t, ed)| >= 35
  {
    assert Fits(m);
    CodedLeast(m, d, bad);
  }

  /**
   * A valid message decodes to itself; without error detection the sequence
   * number comes back as 0.
   */
  lemma RoundTrip(m: ItemInfo, d: char, t: char, ed: bool, bad: string)
    requires Valid(m, bad) && d in bad && DelimiterSafe(d)
    ensures Unmarshal(Marshal(m, d, t, ed), d, bad) == Ok(if ed then m else m.(SeqNum := 0))
  {
    MarshalLength(m, d, t, ed, bad);
    MarshalDecodes(m, d, t, ed, bad);
    ValidSeqNum(m, bad);
  }

  /** Without a due date the coded fields are still free of the delimiter. */
  lemma EmptyDueDateClean(m: ItemInfo, d: char, bad: string)
    requires Valid(m.(DueDate := "x"), bad) && m.DueDate == "" && d in bad && DelimiterSafe(d)
    ensures Clean(Fields(m), d) && !FieldAt(m, 1).emit
  {
    var full := m.(DueDate := "x");
    CleanAt(full, d, bad);
    FieldsAt(m);
    assert forall i | 0 <= i < 15 && i != 1 :: FieldAt(m, i) == FieldAt(full, i);
  }

  /** Without a due date the item and title identifiers still take seven runes. */
  lemma EmptyDueDateLength(m: ItemInfo, d: char, t: char, ed: bool)
    requires m.ItemID != "" && Fits(m)
    ensures |Marshal(m, d, t, ed)| >= 32
  {
    var fs := Fields(m);
    CodedPicks(fs, d, [4, 5], 0);
    assert fs[0..] == fs;
  }

  /** A message without a due date writes no AH, and every other field still reads back. */
  lemma EmptyDueDateCodes(m: ItemInfo, d: char, t: char, ed: bool, bad: string)
    requires Valid(m.(DueDate := "x"), bad) && m.DueDate == "" && d in bad && DelimiterSafe(d)
    ensures var line := Marshal(m, d, t, ed);
      && |line| >= 32 && line[..2] == Code
      && var codes := Extract(line[26..], d, Init(Keys));
      && Get(codes, AH) == "" && ReadsBack(Fields(m), Keys, codes)
  {
    var line := Marshal(m, d, t, ed);
    assert Fits(m);
    EmptyDueDateClean(m, d, bad);
    EmptyDueDateLength(m, d, t, ed);
    FieldsTagged(m);
    ReadLine(Fields(m), Keys, line, 26, m.SeqNum, ed, d, t);
    ReadAt(m, Extract(line[26..], d, Init(Keys)), 1);
  }

  /** The prefix of any message whose numbers fit parses back. */
  lemma FitsPrefix(m: ItemInfo, d: char, t: char, ed: bool)
    requires Fits(m)
    ensures var line := Marshal(m, d, t, ed);
      && PrefixNumbers(line) == Ok([m.CirculationStatus, m.SecurityMarker, m.FeeType])
      && Parse(line[8..26]) == Ok(m.TransactionDate)
  {
    PadRoundTrip(m.CirculationStatus, 2);
    PadRoundTrip(m.SecurityMarker, 2);
    PadRoundTrip(m.FeeType, 2);
    ParseFormat(m.TransactionDate);
  }

  /** Codes that read the fields back decode the coded numbers and dates. */
  lemma ReadCoded(m: ItemInfo, codes: map<Tag, string>)
    requires ReadsBack(Fields(m), Keys, codes)
    ensures FromCodes([m.CirculationStatus, m.SecurityMarker, m.FeeType], m.TransactionDate, codes)
      == Ok(Build([m.CirculationStatus, m.SecurityMarker, m.FeeType], m.TransactionDate, m.HoldQueueLength,
        m.RecallDate, m.HoldPickupDate, codes))
  {
    ReadOptional(m, codes);
    SentinelOfText(m.HoldQueueLength, -1);
    DateOfText(m.RecallDate);
    DateOfText(m.HoldPickupDate);
  }

  /** Such an encoding decodes, to a message whose due date is empty. */
  lemma EmptyDueDateDecodes(m: ItemInfo, d: char, t: char, ed: bool, bad: string)
    requires Valid(m.(DueDate := "x"), bad) && m.DueDate == "" && d in bad && DelimiterSafe(d)
    ensures |Marshal(m, d, t, ed)| >= 32
    ensures var r := Decode(Marshal(m, d, t, ed), d); r.Ok? && r.value.DueDate == ""
  {
    var line := Marshal(m, d, t, ed);
    var codes := Extract(line[26..], d, Init(Keys));
    assert Fits(m);
    EmptyDueDateCodes(m, d, t, ed, bad);
    FitsPrefix(m, d, t, ed);
    ReadCoded(m, codes);
  }

  /**
   * A message without a due date is written without AH, and the validation
   * on decoding requires AH: its own encoding is refused, although every
   * other field would pass.
   */
  lemma EmptyDueDateRejected(m: ItemInfo, d: char, t: char, ed: bool, bad: string)
    requires Valid(m.(DueDate := "x"), bad) && m.DueDate == "" && d in bad && DelimiterSafe(d)
    ensures Unmarshal(Marshal(m, d, t, ed), d, bad) == Err(ValidationFailed(Code))
  {
    EmptyDueDateCodes(m, d, t, ed, bad);
    EmptyDueDateDecodes(m, d, t, ed, bad);
  }
}
