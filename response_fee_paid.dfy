/**
 * Fee Paid response (38): the ACS says whether it accepted the payment of a
 * fee.
 */
module ResponseFeePaid {
  import opened Errors
  import opened Dates
  import opened Codes
  import opened Wire
  import Utils

  const Code: string := "38"

  datatype FeePaid = FeePaid(
    PaymentAccepted: bool,
    TransactionDate: Date,
    InstitutionID: string,
    PatronID: string,
    TransactionID: string,
    ScreenMessage: string,
    PrintLine: string,
    SeqNum: int)

  /** The validate tags of the struct. */
  predicate Valid(m: FeePaid, bad: string)
  {
    && !IsZero(m.TransactionDate)
    && m.InstitutionID != "" && Utils.SipField(m.InstitutionID, bad)
    && m.PatronID != "" && Utils.SipField(m.PatronID, bad)
    && Utils.SipField(m.TransactionID, bad)
    && Utils.SipField(m.ScreenMessage, bad)
    && Utils.SipField(m.PrintLine, bad)
    && 0 <= m.SeqNum <= 9
  }

  /** Resetting the sequence number keeps a message valid. */
  lemma ValidSeqNum(m: FeePaid, bad: string)
    requires Valid(m, bad)
    ensures Valid(m.(SeqNum := 0), bad)
  {
  }

  /** The coded fields in the order Marshal writes them. */
  function Fields(m: FeePaid): (fs: seq<Field>)
    ensures |fs| == 5
  {
    seq(5, i requires 0 <= i < 5 => FieldAt(m, i))
  }

  function FieldAt(m: FeePaid, i: int): Field
    requires 0 <= i < 5
  {
    match i
    case 0 => Field(AO, m.InstitutionID, true)
    case 1 => Field(AA, m.PatronID, true)
    case 2 => Field(BK, m.TransactionID, m.TransactionID != "")
    case 3 => Field(AF, m.ScreenMessage, m.ScreenMessage != "")
    case 4 => Field(AG, m.PrintLine, m.PrintLine != "")
  }

  /** The tags Unmarshal asks ExtractFields for. */
  const Keys: seq<Tag> := [AY, AO, AA, BK, AF, AG]

  function Marshal(m: FeePaid, d: char, t: char, ed: bool): (r: string)
    ensures |r| > 21 && r[..2] == Code && r[2..3] == Utils.YorN(m.PaymentAccepted)
    ensures r[3..21] == Format(m.TransactionDate)
    ensures r[21..] == Coded(Fields(m), d) + Epilogue(r[..21] + Coded(Fields(m), d), m.SeqNum, ed) + [t]
  {
    Placed3(Code, Utils.YorN(m.PaymentAccepted), Format(m.TransactionDate),
      Coded(Fields(m), d), m.SeqNum, ed, t, 2, 3, 21);
    Frame(Code + Utils.YorN(m.PaymentAccepted) + Format(m.TransactionDate) + Coded(Fields(m), d), m.SeqNum, ed, t)
  }

  /** The message built from the fixed prefix and the extracted codes. */
  function FromCodes(paymentAccepted: bool, transactionDate: Date, codes: map<Tag, string>): FeePaid
  {
    FeePaid(
      paymentAccepted, transactionDate, Get(codes, AO), Get(codes, AA), Get(codes, BK), Get(codes, AF), Get(codes, AG),
      SeqNumOf(Get(codes, AY)))
  }

  /** Everything Unmarshal does between the length check and validation. */
  function Decode(line: string, d: char): (r: Result<FeePaid>)
    requires |line| >= 21
    ensures r.Ok? ==> r.value.PaymentAccepted == Utils.ParseBool(line[2]) && Format(r.value.TransactionDate) == line[3..21]
  {
    match Parse(line[3..21])
    case Err(e) => Err(e)
    case Ok(transactionDate) =>
      FormatParse(line[3..21]);
      Ok(FromCodes(Utils.ParseBool(line[2]), transactionDate, Extract(line[21..], d, Init(Keys))))
  }

  /** Unmarshal: a bad transaction date is reported first; the result of the validation is returned. */
  function Unmarshal(line: string, d: char, bad: string): (r: Result<FeePaid>)
    ensures |line| < 27 || line[..2] != Code ==> r == Err(InvalidMessage(Code))
    ensures r.Ok? ==> Valid(r.value, bad) && r.value.PaymentAccepted == Utils.ParseBool(line[2])
    ensures r.Ok? ==> Format(r.value.TransactionDate) == line[3..21]
  {
    if |line| < 27 || line[..2] != Code then Err(InvalidMessage(Code))
    else
      match Decode(line, d)
      case Err(e) => Err(e)
      case Ok(m) => if Valid(m, bad) then Ok(m) else Err(ValidationFailed(Code))
  }

  /** The fixed prefix of an encoding parses back. */
  lemma MarshalPrefix(m: FeePaid, d: char, t: char, ed: bool)
    ensures var line := Marshal(m, d, t, ed);
      Utils.ParseBool(line[2]) == m.PaymentAccepted && Parse(line[3..21]) == Ok(m.TransactionDate)
  {
    ParseFormat(m.TransactionDate);
  }

  lemma CleanFields(m: FeePaid, d: char, bad: string)
    requires Valid(m, bad) && d in bad
    ensures Clean(Fields(m), d)
  {
  }

  lemma FieldsTagged(m: FeePaid)
    ensures forall i | 0 <= i < 5 :: Fields(m)[i].tag != AY && Fields(m)[i].tag in Keys && Unique(Fields(m), i)
  {
  }

  /** Codes that read the fields back hold each written field's value. */
  lemma ReadAt(m: FeePaid, codes: map<Tag, string>, i: int)
    requires ReadsBack(Fields(m), Keys, codes) && 0 <= i < 5
    ensures Get(codes, FieldAt(m, i).tag) == Seen(FieldAt(m, i))
  {
    FieldsTagged(m);
    assert Fields(m)[i] == FieldAt(m, i);
  }

  /** Codes that read the fields back rebuild the message. */
  lemma ReadFields(m: FeePaid, codes: map<Tag, string>)
    requires ReadsBack(Fields(m), Keys, codes)
    ensures FromCodes(m.PaymentAccepted, m.TransactionDate, codes) == m.(SeqNum := SeqNumOf(Get(codes, AY)))
  {
    ReadAt(m, codes, 0);
    ReadAt(m, codes, 1);
    ReadAt(m, codes, 2);
    ReadAt(m, codes, 3);
    ReadAt(m, codes, 4);
  }

  /** The encoding of a valid message decodes back to it. */
  lemma MarshalDecodes(m: FeePaid, d: char, t: char, ed: bool, bad: string)
    requires Valid(m, bad) && d in bad && DelimiterSafe(d)
    ensures |Marshal(m, d, t, ed)| >= 21
    ensures Decode(Marshal(m, d, t, ed), d) == Ok(if ed then m else m.(SeqNum := 0))
  {
    var line := Marshal(m, d, t, ed);
    var codes := Extract(line[21..], d, Init(Keys));
    MarshalPrefix(m, d, t, ed);
    FieldsTagged(m);
    CleanFields(m, d, bad);
    ReadLine(Fields(m), Keys, line, 21, m.SeqNum, ed, d, t);
    ReadFields(m, codes);
    SeqNumOfText(m.SeqNum, ed);
  }

  /** The two identifiers a valid message always writes are not empty. */
  lemma MarshalLength(m: FeePaid, d: char, t: char, ed: bool, bad: string)
    requires Valid(m, bad)
    ensures |Marshal(m, d, t, ed)| >= 30
  {
    CodedPicks(Fields(m), d, [0, 1], 0);
    assert Fields(m)[0..] == Fields(m);
  }

  /**
   * A valid message decodes to itself; without error detection the sequence
   * number comes back as 0.
   */
  lemma RoundTrip(m: FeePaid, d: char, t: char, ed: bool, bad: string)
    requires Valid(m, bad) && d in bad && DelimiterSafe(d)
    ensures Unmarshal(Marshal(m, d, t, ed), d, bad) == Ok(if ed then m else m.(SeqNum := 0))
  {
    MarshalLength(m, d, t, ed, bad);
    MarshalDecodes(m, d, t, ed, bad);
    ValidSeqNum(m, bad);
  }
}
