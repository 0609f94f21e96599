/**
 * Checkin request (09): the terminal asks to check an item in, or to cancel
 * a checkout that did not complete.
 */
module RequestCheckin {
  import opened Errors
  import opened Dates
  import opened Codes
  import opened Wire
  import Utils

  const Code: string := "09"

  datatype Checkin = Checkin(
    NoBlock: bool,
    TransactionDate: Date,
    ReturnDate: Date,
    CurrentLocation: string,
    InstitutionID: string,
    ItemID: string,
    TerminalPassword: string,
    ItemProperties: string,
    Cancel: bool,
    SeqNum: int)

  /** The validate tags of the struct. */
  predicate Valid(m: Checkin, bad: string)
  {
    && !IsZero(m.TransactionDate) && !IsZero(m.ReturnDate)
    && m.CurrentLocation != "" && Utils.SipField(m.CurrentLocation, bad)
    && m.InstitutionID != "" && Utils.SipField(m.InstitutionID, bad)
    && m.ItemID != "" && Utils.SipField(m.ItemID, bad)
    && Utils.SipField(m.TerminalPassword, bad)
    && Utils.SipField(m.ItemProperties, bad)
    && 0 <= m.SeqNum <= 9
  }

  /** The coded fields in the order Marshal writes them. */
  function Fields(m: Checkin): (fs: seq<Field>)
    ensures |fs| == 6
  {
    seq(6, i requires 0 <= i < 6 => FieldAt(m, i))
  }

  function FieldAt(m: Checkin, i: int): Field
    requires 0 <= i < 6
  {
    match i
    case 0 => Field(AP, m.CurrentLocation, true)
    case 1 => Field(AO, m.InstitutionID, true)
    case 2 => Field(AB, m.ItemID, true)
    case 3 => Field(AC, m.TerminalPassword, true)
    case 4 => Field(CH, m.ItemProperties, m.ItemProperties != "")
    case 5 => Field(BI, Utils.YorN(m.Cancel), m.Cancel)
  }

  /** The tags Unmarshal asks ExtractFields for. */
  const Keys: seq<Tag> := [AY, AP, AO, AB, AC, CH, BI]

  function Prefix(m: Checkin): (s: string)
    ensures |s| == 39
  {
    Code + Utils.YorN(m.NoBlock) + Format(m.TransactionDate) + Format(m.ReturnDate)
  }

  function Marshal(m: Checkin, d: char, t: char, ed: bool): (r: string)
    ensures |r| > 39 && r[..2] == Code && r[2..3] == Utils.YorN(m.NoBlock)
    ensures r[3..21] == Format(m.TransactionDate) && r[21..39] == Format(m.ReturnDate)
    ensures r[39..] == Coded(Fields(m), d) + Epilogue(r[..39] + Coded(Fields(m), d), m.SeqNum, ed) + [t]
  {
    Placed4(Code, Utils.YorN(m.NoBlock), Format(m.TransactionDate), Format(m.ReturnDate),
      Coded(Fields(m), d), m.SeqNum, ed, t, 2, 3, 21, 39);
    Frame(Prefix(m) + Coded(Fields(m), d), m.SeqNum, ed, t)
  }

  /** The message built from the fixed prefix and the extracted codes. */
  function FromCodes(noBlock: bool, transactionDate: Date, returnDate: Date, codes: map<Tag, string>): Checkin
  {
    Checkin(
      noBlock, transactionDate, returnDate,
      Get(codes, AP), Get(codes, AO), Get(codes, AB), Get(codes, AC), Get(codes, CH),
      if |Get(codes, BI)| > 0 then Utils.ParseBool(Get(codes, BI)[0]) else false,
      SeqNumOf(Get(codes, AY)))
  }

  /** Everything Unmarshal does between the length check and validation. */
  function Decode(line: string, d: char): (r: Result<Checkin>)
    requires |line| >= 39
    ensures r.Ok? ==> r.value.NoBlock == Utils.ParseBool(line[2])
    ensures r.Ok? ==> Format(r.value.TransactionDate) == line[3..21] && Format(r.value.ReturnDate) == line[21..39]
  {
    var codes := Extract(line[39..], d, Init(Keys));
    match Parse(line[3..21])
    case Err(e) => Err(e)
    case Ok(transactionDate) =>
      match Parse(line[21..39])
      case Err(e) => Err(e)
      case Ok(returnDate) =>
        FormatParse(line[3..21]);
        FormatParse(line[21..39]);
        Ok(FromCodes(Utils.ParseBool(line[2]), transactionDate, returnDate, codes))
  }

  function Unmarshal(line: string, d: char, bad: string): (r: Result<Checkin>)
    ensures |line| < 51 || line[..2] != Code ==> r == Err(InvalidMessage(Code))
    ensures r.Ok? ==> Valid(r.value, bad) && r.value.NoBlock == Utils.ParseBool(line[2])
    ensures r.Ok? ==> Format(r.value.TransactionDate) == line[3..21] && Format(r.value.ReturnDate) == line[21..39]
  {
    if |line| < 51 || line[..2] != Code then Err(InvalidMessage(Code))
    else
      match Decode(line, d)
      case Err(e) => Err(e)
      case Ok(m) => if Valid(m, bad) then Ok(m) else Err(ValidationFailed(Code))
  }

  /** The fixed prefix of an encoding parses back. */
  lemma MarshalPrefix(m: Checkin, d: char, t: char, ed: bool)
    ensures var line := Marshal(m, d, t, ed);
      && Utils.ParseBool(line[2]) == m.NoBlock
      && Parse(line[3..21]) == Ok(m.TransactionDate)
      && Parse(line[21..39]) == Ok(m.ReturnDate)
  {
    ParseFormat(m.TransactionDate);
    ParseFormat(m.ReturnDate);
  }

  lemma CleanFields(m: Checkin, d: char, bad: string)
    requires Valid(m, bad) && d in bad && DelimiterSafe(d)
    ensures Clean(Fields(m), d)
  {
  }

  lemma FieldsTagged(m: Checkin)
    ensures forall i | 0 <= i < 6 :: Fields(m)[i].tag != AY && Fields(m)[i].tag in Keys && Unique(Fields(m), i)
  {
  }

  /** Codes that read the fields back rebuild the message. */
  lemma ReadFields(m: Checkin, codes: map<Tag, string>)
    requires ReadsBack(Fields(m), Keys, codes)
    ensures FromCodes(m.NoBlock, m.TransactionDate, m.ReturnDate, codes) == m.(SeqNum := SeqNumOf(Get(codes, AY)))
  {
    FieldsTagged(m);
    var fs := Fields(m);
    assert Get(codes, AP) == Seen(fs[0]);
    assert Get(codes, AO) == Seen(fs[1]);
    assert Get(codes, AB) == Seen(fs[2]);
    assert Get(codes, AC) == Seen(fs[3]);
    assert Get(codes, CH) == Seen(fs[4]);
    assert Get(codes, BI) == Seen(fs[5]);
  }

  /** The coded part of an encoding extracts back to the written values. */
  lemma MarshalCodes(m: Checkin, d: char, t: char, ed: bool, bad: string)
    requires Valid(m, bad) && d in bad && DelimiterSafe(d)
    ensures var codes := Extract(Marshal(m, d, t, ed)[39..], d, Init(Keys));
      Get(codes, AY) == SeqText(m.SeqNum, ed) && ReadsBack(Fields(m), Keys, codes)
  {
    FieldsTagged(m);
    CleanFields(m, d, bad);
    ReadLine(Fields(m), Keys, Marshal(m, d, t, ed), 39, m.SeqNum, ed, d, t);
  }

  lemma MarshalFromCodes(m: Checkin, d: char, t: char, ed: bool, bad: string)
    requires Valid(m, bad) && d in bad && DelimiterSafe(d)
    ensures FromCodes(m.NoBlock, m.TransactionDate, m.ReturnDate, Extract(Marshal(m, d, t, ed)[39..], d, Init(Keys)))
      == if ed then m else m.(SeqNum := 0)
  {
    var codes := Extract(Marshal(m, d, t, ed)[39..], d, Init(Keys));
    MarshalCodes(m, d, t, ed, bad);
    ReadFields(m, codes);
    SeqNumOfText(m.SeqNum, ed);
  }

  lemma MarshalLength(m: Checkin, d: char, t: char, ed: bool)
    ensures |Marshal(m, d, t, ed)| >= 51
  {
    CodedLength(Fields(m), d, [3, 3, 3, 3, 0, 0]);
  }

  /**
   * A valid message decodes to itself; without error detection the sequence
   * number comes back as 0.
   */
  lemma RoundTrip(m: Checkin, d: char, t: char, ed: bool, bad: string)
    requires Valid(m, bad) && d in bad && DelimiterSafe(d)
    ensures Unmarshal(Marshal(m, d, t, ed), d, bad) == Ok(if ed then m else m.(SeqNum := 0))
  {
    MarshalPrefix(m, d, t, ed);
    MarshalLength(m, d, t, ed);
    MarshalFromCodes(m, d, t, ed, bad);
  }
}
