/**
 * Hold response (16): the ACS says whether the hold was placed, whether the
 * item is available and where the patron stands in the queue.
 */
module ResponseHold {
  import opened Errors
  import opened Numbers
  import opened Dates
  import opened Codes
  import opened Wire
  import Utils

  const Code: string := "16"

  datatype Hold = Hold(
    Ok: bool,
    Available: bool,
    TransactionDate: Date,
    ExpirationDate: Date,
    QueuePosition: int,
    PickupLocation: string,
    InstitutionID: string,
    PatronID: string,
    ItemID: string,
    TitleID: string,
    ScreenMessage: string,
    PrintLine: string,
    SeqNum: int)

  /** The validate tags of the struct: a queue position of -1 means none. */
  predicate Valid(m: Hold, bad: string)
  {
    && !IsZero(m.TransactionDate)
    && m.QueuePosition >= -1
    && Utils.SipField(m.PickupLocation, bad)
    && Utils.SipField(m.InstitutionID, bad)
    && Utils.SipField(m.PatronID, bad)
    && Utils.SipField(m.ItemID, bad)
    && Utils.SipField(m.TitleID, bad)
    && Utils.SipField(m.ScreenMessage, bad)
    && Utils.SipField(m.PrintLine, bad)
    && 0 <= m.SeqNum <= 9
  }

  /** Resetting the sequence number keeps a message valid. */
  lemma ValidSeqNum(m: Hold, bad: string)
    requires Valid(m, bad)
    ensures Valid(m.(SeqNum := 0), bad)
  {
  }

  /**
   * The coded fields in the order Marshal writes them: the expiration date
   * unless it is the zero time, the queue position unless it is -1, the
   * others unless they are empty.
   */
  function Fields(m: Hold): (fs: seq<Field>)
    ensures |fs| == 9
  {
    seq(9, i requires 0 <= i < 9 => FieldAt(m, i))
  }

  function FieldAt(m: Hold, i: int): Field
    requires 0 <= i < 9
  {
    match i
    case 0 => Field(BW, Format(m.ExpirationDate), !IsZero(m.ExpirationDate))
    case 1 => Field(BR, Itoa(m.QueuePosition), m.QueuePosition != -1)
    case 2 => Field(BS, m.PickupLocation, m.PickupLocation != "")
    case 3 => Field(AO, m.InstitutionID, m.InstitutionID != "")
    case 4 => Field(AA, m.PatronID, m.PatronID != "")
    case 5 => Field(AB, m.ItemID, m.ItemID != "")
    case 6 => Field(AJ, m.TitleID, m.TitleID != "")
    case 7 => Field(AF, m.ScreenMessage, m.ScreenMessage != "")
    case 8 => Field(AG, m.PrintLine, m.PrintLine != "")
  }

  /** The tags Unmarshal asks ExtractFields for. */
  const Keys: seq<Tag> := [AY, BW, BR, BS, AO, AA, AB, AJ, AF, AG]

  /** The two flags after the code: Ok as "1" or "0", Available as "Y" or "N". */
  function FlagText(m: Hold): (s: string)
    ensures |s| == 2
  {
    Utils.ZeroOrOne(m.Ok) + Utils.YorN(m.Available)
  }

  /** The flag text reads back as the two flags. */
  lemma ReadFlagText(m: Hold)
    ensures FlagRunes(FlagText(m), 0, 2) == [m.Ok, m.Available]
  {
    FlagRunesOf(FlagText(m), 0, [m.Ok, m.Available]);
  }

  function Marshal(m: Hold, d: char, t: char, ed: bool): (r: string)
    ensures |r| > 22 && r[..2] == Code && r[2..4] == FlagText(m) && r[4..22] == Format(m.TransactionDate)
    ensures r[22..] == Coded(Fields(m), d) + Epilogue(r[..22] + Coded(Fields(m), d), m.SeqNum, ed) + [t]
  {
    Placed3(Code, FlagText(m), Format(m.TransactionDate), Coded(Fields(m), d), m.SeqNum, ed, t, 2, 4, 22);
    Frame(Code + FlagText(m) + Format(m.TransactionDate) + Coded(Fields(m), d), m.SeqNum, ed, t)
  }

  /** The message built from the fixed prefix, the two decoded fields and the extracted codes. */
  function Build(flags: seq<bool>, transactionDate: Date, expirationDate: Date, queuePosition: int, codes: map<Tag, string>): Hold
    requires |flags| == 2
  {
    Hold(
      flags[0], flags[1], transactionDate, expirationDate, queuePosition,
      Get(codes, BS), Get(codes, AO), Get(codes, AA), Get(codes, AB), Get(codes, AJ), Get(codes, AF), Get(codes, AG),
      SeqNumOf(Get(codes, AY)))
  }

  /**
   * The message built from the fixed prefix and the extracted codes: an
   * expiration date or queue position that is present but does not parse is
   * an error; an absent queue position is -1.
   */
  function FromCodes(flags: seq<bool>, transactionDate: Date, codes: map<Tag, string>): (r: Result<Hold>)
    requires |flags| == 2
    ensures DateOf(Get(codes, BW)).Err? ==> r == Err(DateOf(Get(codes, BW)).error)
    ensures DateOf(Get(codes, BW)).Ok? && NumberOf(Get(codes, BR), -1).Err? ==> r == Err(NumberOf(Get(codes, BR), -1).error)
    ensures r.Ok? ==> Ok(r.value.ExpirationDate) == DateOf(Get(codes, BW))
    ensures r.Ok? ==> Ok(r.value.QueuePosition) == NumberOf(Get(codes, BR), -1)
  {
    match DateOf(Get(codes, BW))
    case Err(e) => Err(e)
    case Ok(expirationDate) =>
      match NumberOf(Get(codes, BR), -1)
      case Err(e) => Err(e)
      case Ok(queuePosition) => Ok(Build(flags, transactionDate, expirationDate, queuePosition, codes))
  }

  /** The codes of a line: extracted when there is text after the prefix, all absent otherwise. */
  function CodesOfLine(line: string, d: char): (codes: map<Tag, string>)
    requires |line| >= 22
    ensures |line| == 22 ==> codes == Init(Keys)
  {
    if |line| > 22 then Extract(line[22..], d, Init(Keys)) else Init(Keys)
  }

  /** Everything Unmarshal does between the length check and validation. */
  function Decode(line: string, d: char): (r: Result<Hold>)
    requires |line| >= 22
    ensures r.Ok? ==> r.value.Ok == Utils.ParseBool(line[2]) && r.value.Available == Utils.ParseBool(line[3])
    ensures r.Ok? ==> Format(r.value.TransactionDate) == line[4..22]
  {
    match Parse(line[4..22])
    case Err(e) => Err(e)
    case Ok(transactionDate) =>
      FormatParse(line[4..22]);
      FromCodes(FlagRunes(line, 2, 2), transactionDate, CodesOfLine(line, d))
  }

  /**
   * Unmarshal: a line of exactly 22 runes has no coded fields; a bad
   * transaction date, then a bad expiration date, then a bad queue position
   * is reported first; the result of the validation is returned.
   */
  function Unmarshal(line: string, d: char, bad: string): (r: Result<Hold>)
    ensures |line| < 22 || line[..2] != Code ==> r == Err(InvalidMessage(Code))
    ensures r.Ok? ==> Valid(r.value, bad) && r.value.Ok == Utils.ParseBool(line[2])
    ensures r.Ok? ==> Format(r.value.TransactionDate) == line[4..22]
  {
    if |line| < 22 || line[..2] != Code then Err(InvalidMessage(Code))
    else
      match Decode(line, d)
      case Err(e) => Err(e)
      case Ok(m) => if Valid(m, bad) then Ok(m) else Err(ValidationFailed(Code))
  }

  /** A line of exactly 22 runes decodes with every optional field absent. */
  lemma BareLine(line: string, d: char)
    requires |line| == 22
    ensures Decode(line, d).Ok? ==> var m := Decode(line, d).value;
      && IsZero(m.ExpirationDate) && m.QueuePosition == -1 && m.SeqNum == 0
      && m.PickupLocation == m.InstitutionID == m.PatronID == m.ItemID == m.TitleID == ""
      && m.ScreenMessage == m.PrintLine == ""
  {
  }

  /** The fixed prefix of an encoding parses back. */
  lemma MarshalPrefix(m: Hold, d: char, t: char, ed: bool)
    ensures var line := Marshal(m, d, t, ed);
      && FlagRunes(line, 2, 2) == [m.Ok, m.Available]
      && Parse(line[4..22]) == Ok(m.TransactionDate)
  {
    ParseFormat(m.TransactionDate);
    FlagRunesText(Marshal(m, d, t, ed), 2, FlagText(m));
    ReadFlagText(m);
  }

  lemma CleanFields(m: Hold, d: char, bad: string)
    requires Valid(m, bad) && d in bad && DelimiterSafe(d)
    ensures Clean(Fields(m), d)
  {
    DateClean(m.ExpirationDate, d);
    NumberClean(m.QueuePosition, d);
  }

  lemma FieldsTagged(m: Hold)
    ensures forall i | 0 <= i < 9 :: Fields(m)[i].tag != AY && Fields(m)[i].tag in Keys && Unique(Fields(m), i)
  {
  }

  /** Codes that read the fields back hold each written field's value. */
  lemma ReadAt(m: Hold, codes: map<Tag, string>, i: int)
    requires ReadsBack(Fields(m), Keys, codes) && 0 <= i < 9
    ensures Get(codes, FieldAt(m, i).tag) == Seen(FieldAt(m, i))
  {
    FieldsTagged(m);
    assert Fields(m)[i] == FieldAt(m, i);
  }

  /** Codes that read the fields back rebuild the message. */
  lemma ReadFields(m: Hold, codes: map<Tag, string>)
    requires ReadsBack(Fields(m), Keys, codes)
    ensures Get(codes, BW) == DateText(m.ExpirationDate)
    ensures Get(codes, BR) == if m.QueuePosition != -1 then Itoa(m.QueuePosition) else ""
    ensures Build([m.Ok, m.Available], m.TransactionDate, m.ExpirationDate, m.QueuePosition, codes)
      == m.(SeqNum := SeqNumOf(Get(codes, AY)))
  {
    ReadAt(m, codes, 0);
    ReadAt(m, codes, 1);
    ReadAt(m, codes, 2);
    ReadAt(m, codes, 3);
    ReadAt(m, codes, 4);
    ReadAt(m, codes, 5);
    ReadAt(m, codes, 6);
    ReadAt(m, codes, 7);
    ReadAt(m, codes, 8);
  }

  /** The encoding of a valid message decodes back to it. */
  lemma MarshalDecodes(m: Hold, d: char, t: char, ed: bool, bad: string)
    requires Valid(m, bad) && d in bad && DelimiterSafe(d)
    ensures |Marshal(m, d, t, ed)| > 22
    ensures Decode(Marshal(m, d, t, ed), d) == Ok(if ed then m else m.(SeqNum := 0))
  {
    var line := Marshal(m, d, t, ed);
    var codes := Extract(line[22..], d, Init(Keys));
    assert CodesOfLine(line, d) == codes;
    MarshalPrefix(m, d, t, ed);
    FieldsTagged(m);
    CleanFields(m, d, bad);
    ReadLine(Fields(m), Keys, line, 22, m.SeqNum, ed, d, t);
    ReadFields(m, codes);
    DateOfText(m.ExpirationDate);
    SentinelOfText(m.QueuePosition, -1);
    SeqNumOfText(m.SeqNum, ed);
  }

  /**
   * A valid message decodes to itself; without error detection the sequence
   * number comes back as 0.
   */
  lemma RoundTrip(m: Hold, d: char, t: char, ed: bool, bad: string)
    requires Valid(m, bad) && d in bad && DelimiterSafe(d)
    ensures Unmarshal(Marshal(m, d, t, ed), d, bad) == Ok(if ed then m else m.(SeqNum := 0))
  {
    MarshalDecodes(m, d, t, ed, bad);
    ValidSeqNum(m, bad);
  }
}
