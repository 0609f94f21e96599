/**
 * Hold request (15): the terminal asks to place, change or remove a hold for
 * a patron.
 */
module RequestHold {
  import opened Errors
  import opened Numbers
  import opened Dates
  import opened Codes
  import opened Wire
  import Utils

  const Code: string := "15"

  datatype Hold = Hold(
    HoldMode: string,
    TransactionDate: Date,
    ExpirationDate: Date,
    PickupLocation: string,
    HoldType: int,
    InstitutionID: string,
    PatronID: string,
    PatronPassword: string,
    ItemID: string,
    TitleID: string,
    TerminalPassword: string,
    FeeAcknowledged: bool,
    SeqNum: int)

  /** The validate tags of the struct: the mode is one of "+", "-" and "*". */
  predicate Valid(m: Hold, bad: string)
  {
    && (m.HoldMode == "+" || m.HoldMode == "-" || m.HoldMode == "*")
    && !IsZero(m.TransactionDate)
    && Utils.SipField(m.PickupLocation, bad)
    && 0 <= m.HoldType <= 9
    && m.InstitutionID != "" && Utils.SipField(m.InstitutionID, bad)
    && m.PatronID != "" && Utils.SipField(m.PatronID, bad)
    && Utils.SipField(m.PatronPassword, bad)
    && Utils.SipField(m.ItemID, bad)
    && Utils.SipField(m.TitleID, bad)
    && Utils.SipField(m.TerminalPassword, bad)
    && 0 <= m.SeqNum <= 9
  }

  /** Resetting the sequence number keeps a message valid. */
  lemma ValidSeqNum(m: Hold, bad: string)
    requires Valid(m, bad)
    ensures Valid(m.(SeqNum := 0), bad)
  {
  }

  /** The mode takes exactly one rune, so the date starts at rune 3. */
  predicate Fits(m: Hold)
  {
    |m.HoldMode| == 1
  }

  /**
   * The coded fields in the order Marshal writes them; the expiration date
   * is left out when it is the zero time and the hold type when it is not
   * positive.
   */
  function Fields(m: Hold): (fs: seq<Field>)
    ensures |fs| == 10
  {
    seq(10, i requires 0 <= i < 10 => FieldAt(m, i))
  }

  function FieldAt(m: Hold, i: int): Field
    requires 0 <= i < 10
  {
    match i
    case 0 => Field(BW, Format(m.ExpirationDate), !IsZero(m.ExpirationDate))
    case 1 => Field(BS, m.PickupLocation, m.PickupLocation != "")
    case 2 => Field(BY, Itoa(m.HoldType), m.HoldType > 0)
    case 3 => Field(AO, m.InstitutionID, true)
    case 4 => Field(AA, m.PatronID, true)
    case 5 => Field(AD, m.PatronPassword, m.PatronPassword != "")
    case 6 => Field(AB, m.ItemID, m.ItemID != "")
    case 7 => Field(AJ, m.TitleID, m.TitleID != "")
    case 8 => Field(AC, m.TerminalPassword, m.TerminalPassword != "")
    case 9 => Field(BO, Utils.YorN(m.FeeAcknowledged), m.FeeAcknowledged)
  }

  /** The tags Unmarshal asks ExtractFields for. */
  const Keys: seq<Tag> := [AY, BW, BS, BY, AO, AA, AD, AB, AJ, AC, BO]

  function Prefix(m: Hold): string
  {
    Code + m.HoldMode + Format(m.TransactionDate)
  }

  function Marshal(m: Hold, d: char, t: char, ed: bool): (r: string)
    ensures |r| > 2 && r[..2] == Code
    ensures Fits(m) ==> |r| > 21 && r[2..3] == m.HoldMode && r[3..21] == Format(m.TransactionDate)
    ensures Fits(m) ==> r[21..] == Coded(Fields(m), d) + Epilogue(r[..21] + Coded(Fields(m), d), m.SeqNum, ed) + [t]
  {
    if Fits(m) then
      assert |Code| + |m.HoldMode| == 3;
      Placed3(Code, m.HoldMode, Format(m.TransactionDate), Coded(Fields(m), d), m.SeqNum, ed, t, 2, 3, 21);
      Frame(Prefix(m) + Coded(Fields(m), d), m.SeqNum, ed, t)
    else
      Framed3(Code, m.HoldMode, Format(m.TransactionDate), Coded(Fields(m), d), m.SeqNum, ed, t);
      Frame(Prefix(m) + Coded(Fields(m), d), m.SeqNum, ed, t)
  }

  /** The message built from the fixed prefix, the two decoded fields and the extracted codes. */
  function Build(holdMode: string, transactionDate: Date, expirationDate: Date, holdType: int, codes: map<Tag, string>): Hold
  {
    Hold(
      holdMode, transactionDate, expirationDate, Get(codes, BS), holdType,
      Get(codes, AO), Get(codes, AA), Get(codes, AD), Get(codes, AB), Get(codes, AJ), Get(codes, AC),
      FlagOf(Get(codes, BO)), SeqNumOf(Get(codes, AY)))
  }

  /**
   * The message built from the fixed prefix and the extracted codes: an
   * expiration date or hold type that is present but does not parse is an
   * error.
   */
  function FromCodes(holdMode: string, transactionDate: Date, codes: map<Tag, string>): (r: Result<Hold>)
    ensures DateOf(Get(codes, BW)).Err? ==> r == Err(DateOf(Get(codes, BW)).error)
    ensures DateOf(Get(codes, BW)).Ok? && NumberOf(Get(codes, BY), 0).Err? ==> r == Err(NumberOf(Get(codes, BY), 0).error)
    ensures r.Ok? ==> Ok(r.value.ExpirationDate) == DateOf(Get(codes, BW))
    ensures r.Ok? ==> Ok(r.value.HoldType) == NumberOf(Get(codes, BY), 0)
  {
    match DateOf(Get(codes, BW))
    case Err(e) => Err(e)
    case Ok(expirationDate) =>
      match NumberOf(Get(codes, BY), 0)
      case Err(e) => Err(e)
      case Ok(holdType) => Ok(Build(holdMode, transactionDate, expirationDate, holdType, codes))
  }

  /** Everything Unmarshal does between the length check and validation. */
  function Decode(line: string, d: char): (r: Result<Hold>)
    requires |line| >= 21
    ensures r.Ok? ==> r.value.HoldMode == line[2..3] && Format(r.value.TransactionDate) == line[3..21]
  {
    match Parse(line[3..21])
    case Err(e) => Err(e)
    case Ok(transactionDate) =>
      FormatParse(line[3..21]);
      FromCodes(line[2..3], transactionDate, Extract(line[21..], d, Init(Keys)))
  }

  /**
   * Unmarshal: the mode is the single rune after the code; a bad transaction
   * date is reported first; the result of the validation is returned.
   */
  function Unmarshal(line: string, d: char, bad: string): (r: Result<Hold>)
    ensures |line| < 27 || line[..2] != Code ==> r == Err(InvalidMessage(Code))
    ensures r.Ok? ==> Valid(r.value, bad) && r.value.HoldMode == line[2..3]
    ensures r.Ok? ==> Format(r.value.TransactionDate) == line[3..21]
  {
    if |line| < 27 || line[..2] != Code then Err(InvalidMessage(Code))
    else
      match Decode(line, d)
      case Err(e) => Err(e)
      case Ok(m) => if Valid(m, bad) then Ok(m) else Err(ValidationFailed(Code))
  }

  /** The fixed prefix of a valid message's encoding parses back. */
  lemma MarshalPrefix(m: Hold, d: char, t: char, ed: bool, bad: string)
    requires Valid(m, bad)
    ensures var line := Marshal(m, d, t, ed);
      line[2..3] == m.HoldMode && Parse(line[3..21]) == Ok(m.TransactionDate)
  {
    assert Fits(m);
    ParseFormat(m.TransactionDate);
  }

  lemma CleanFields(m: Hold, d: char, bad: string)
    requires Valid(m, bad) && d in bad && DelimiterSafe(d)
    ensures Clean(Fields(m), d)
  {
    DateClean(m.ExpirationDate, d);
    NumberClean(m.HoldType, d);
  }

  lemma FieldsTagged(m: Hold)
    ensures forall i | 0 <= i < 10 :: Fields(m)[i].tag != AY && Fields(m)[i].tag in Keys && Unique(Fields(m), i)
  {
    TagsOf(m);
    TagsDistinct();
    UniqueTags(Fields(m), Tags);
  }

  /** The tags of the coded fields, in the order Marshal writes them. */
  const Tags: seq<Tag> := [BW, BS, BY, AO, AA, AD, AB, AJ, AC, BO]

  lemma TagsOf(m: Hold)
    ensures forall i | 0 <= i < 10 :: Fields(m)[i].tag == Tags[i] && Tags[i] != AY && Tags[i] in Keys
  {
  }

  lemma TagsDistinct()
    ensures Distinct(Tags)
  {
  }

  /** Codes that read the fields back hold each written field's value. */
  lemma ReadAt(m: Hold, codes: map<Tag, string>, i: int)
    requires ReadsBack(Fields(m), Keys, codes) && 0 <= i < 10
    ensures Get(codes, FieldAt(m, i).tag) == Seen(FieldAt(m, i))
  {
    FieldsTagged(m);
    assert Fields(m)[i] == FieldAt(m, i);
  }

  /** The texts the codes hold for the expiration date and the hold type. */
  lemma ReadOptional(m: Hold, codes: map<Tag, string>)
    requires ReadsBack(Fields(m), Keys, codes)
    ensures Get(codes, BW) == DateText(m.ExpirationDate)
    ensures Get(codes, BY) == if m.HoldType > 0 then Itoa(m.HoldType) else ""
  {
    ReadAt(m, codes, 0);
    ReadAt(m, codes, 2);
  }

  /** Codes that read the fields back rebuild the message. */
  lemma ReadFields(m: Hold, codes: map<Tag, string>)
    requires ReadsBack(Fields(m), Keys, codes)
    ensures Build(m.HoldMode, m.TransactionDate, m.ExpirationDate, m.HoldType, codes)
      == m.(SeqNum := SeqNumOf(Get(codes, AY)))
  {
    ReadAt(m, codes, 1);
    ReadAt(m, codes, 3);
    ReadAt(m, codes, 4);
    ReadAt(m, codes, 5);
    ReadAt(m, codes, 6);
    ReadAt(m, codes, 7);
    ReadAt(m, codes, 8);
    ReadAt(m, codes, 9);
  }

  /** The encoding of a valid message decodes back to it. */
  lemma MarshalDecodes(m: Hold, d: char, t: char, ed: bool, bad: string)
    requires Valid(m, bad) && d in bad && DelimiterSafe(d)
    ensures |Marshal(m, d, t, ed)| >= 21
    ensures Decode(Marshal(m, d, t, ed), d) == Ok(if ed then m else m.(SeqNum := 0))
  {
    var line := Marshal(m, d, t, ed);
    var codes := Extract(line[21..], d, Init(Keys));
    MarshalPrefix(m, d, t, ed, bad);
    FieldsTagged(m);
    CleanFields(m, d, bad);
    ReadLine(Fields(m), Keys, line, 21, m.SeqNum, ed, d, t);
    ReadOptional(m, codes);
    DateOfText(m.ExpirationDate);
    NumberOfText(m.HoldType);
    ReadFields(m, codes);
    SeqNumOfText(m.SeqNum, ed);
  }

  /** The two identifiers a valid message always writes are not empty. */
  lemma MarshalLength(m: Hold, d: char, t: char, ed: bool, bad: string)
    requires Valid(m, bad)
    ensures |Marshal(m, d, t, ed)| >= 30
  {
    assert Fits(m);
    CodedPicks(Fields(m), d, [3, 4], 0);
    assert Fields(m)[0..] == Fields(m);
  }

  /**
   * A valid message decodes to itself; without error detection the sequence
   * number comes back as 0.
   */
  lemma RoundTrip(m: Hold, d: char, t: char, ed: bool, bad: string)
    requires Valid(m, bad) && d in bad && DelimiterSafe(d)
    ensures Unmarshal(Marshal(m, d, t, ed), d, bad) == Ok(if ed then m else m.(SeqNum := 0))
  {
    MarshalLength(m, d, t, ed, bad);
    MarshalDecodes(m, d, t, ed, bad);
    ValidSeqNum(m, bad);
  }
}
