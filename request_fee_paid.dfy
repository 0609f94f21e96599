/**
 * Fee Paid request (37): the terminal reports that a fee was collected from a
 * patron.
 */
module RequestFeePaid {
  import opened Errors
  import opened Numbers
  import opened Dates
  import opened Codes
  import opened Wire
  import Utils

  const Code: string := "37"

  datatype FeePaid = FeePaid(
    TransactionDate: Date,
    FeeType: int,
    PaymentType: int,
    CurrencyType: string,
    FeeAmount: string,
    InstitutionID: string,
    PatronID: string,
    TerminalPassword: string,
    PatronPassword: string,
    FeeID: string,
    TransactionID: string,
    SeqNum: int)

  /** The validate tags of the struct: "required" on an int demands a non-zero value. */
  predicate Valid(m: FeePaid, bad: string)
  {
    && !IsZero(m.TransactionDate)
    && 1 <= m.FeeType <= 99 && 1 <= m.PaymentType <= 99
    && |m.CurrencyType| == 3 && Utils.SipField(m.CurrencyType, bad)
    && m.FeeAmount != "" && Utils.SipField(m.FeeAmount, bad)
    && m.InstitutionID != "" && Utils.SipField(m.InstitutionID, bad)
    && m.PatronID != "" && Utils.SipField(m.PatronID, bad)
    && Utils.SipField(m.TerminalPassword, bad)
    && Utils.SipField(m.PatronPassword, bad)
    && Utils.SipField(m.FeeID, bad)
    && Utils.SipField(m.TransactionID, bad)
    && 0 <= m.SeqNum <= 9
  }

  /**
   * The prefix has its fixed offsets only when both types take two digits and
   * the currency three runes; otherwise the coded fields start elsewhere.
   */
  predicate Fits(m: FeePaid)
  {
    0 <= m.FeeType <= 99 && 0 <= m.PaymentType <= 99 && |m.CurrencyType| == 3
  }

  /** The coded fields in the order Marshal writes them. */
  function Fields(m: FeePaid): (fs: seq<Field>)
    ensures |fs| == 7
  {
    seq(7, i requires 0 <= i < 7 => FieldAt(m, i))
  }

  function FieldAt(m: FeePaid, i: int): Field
    requires 0 <= i < 7
  {
    match i
    case 0 => Field(BV, m.FeeAmount, true)
    case 1 => Field(AO, m.InstitutionID, true)
    case 2 => Field(AA, m.PatronID, true)
    case 3 => Field(AC, m.TerminalPassword, m.TerminalPassword != "")
    case 4 => Field(AD, m.PatronPassword, m.PatronPassword != "")
    case 5 => Field(CG, m.FeeID, m.FeeID != "")
    case 6 => Field(BK, m.TransactionID, m.TransactionID != "")
  }

  /** The tags Unmarshal asks ExtractFields for. */
  const Keys: seq<Tag> := [AY, BV, AO, AA, AC, AD, CG, BK]

  function Prefix(m: FeePaid): string
  {
    Code + Format(m.TransactionDate) + Pad(m.FeeType, 2) + Pad(m.PaymentType, 2) + m.CurrencyType
  }

  function Marshal(m: FeePaid, d: char, t: char, ed: bool): (r: string)
    ensures |r| > 20 && r[..2] == Code && r[2..20] == Format(m.TransactionDate)
    ensures Fits(m) ==> |r| > 27 && r[20..22] == Pad(m.FeeType, 2) && r[22..24] == Pad(m.PaymentType, 2)
    ensures Fits(m) ==> r[24..27] == m.CurrencyType
    ensures Fits(m) ==> r[27..] == Coded(Fields(m), d) + Epilogue(r[..27] + Coded(Fields(m), d), m.SeqNum, ed) + [t]
  {
    if Fits(m) then
      PadRoundTrip(m.FeeType, 2);
      PadRoundTrip(m.PaymentType, 2);
      Placed5(Code, Format(m.TransactionDate), Pad(m.FeeType, 2), Pad(m.PaymentType, 2), m.CurrencyType,
        Coded(Fields(m), d), m.SeqNum, ed, t, 2, 20, 22, 24, 27);
      Frame(Prefix(m) + Coded(Fields(m), d), m.SeqNum, ed, t)
    else
      Framed5(Code, Format(m.TransactionDate), Pad(m.FeeType, 2), Pad(m.PaymentType, 2), m.CurrencyType,
        Coded(Fields(m), d), m.SeqNum, ed, t);
      Frame(Prefix(m) + Coded(Fields(m), d), m.SeqNum, ed, t)
  }

  /** The message built from the fixed prefix and the extracted codes. */
  function FromCodes(transactionDate: Date, feeType: int, paymentType: int, currency: string, codes: map<Tag, string>): FeePaid
  {
    FeePaid(
      transactionDate, feeType, paymentType, currency,
      Get(codes, BV), Get(codes, AO), Get(codes, AA), Get(codes, AC), Get(codes, AD), Get(codes, CG), Get(codes, BK),
      SeqNumOf(Get(codes, AY)))
  }

  /**
   * Unmarshal: a date, fee type or payment type that does not parse is an
   * error; the result of the validation is dropped.
   */
  function Unmarshal(line: string, d: char, bad: string): (r: Result<FeePaid>)
    ensures |line| < 36 || line[..2] != Code ==> r == Err(InvalidMessage(Code))
    ensures |line| >= 36 && line[..2] == Code && Atoi(line[20..22]).Err? ==> r.Err?
    ensures |line| >= 36 && line[..2] == Code && Parse(line[2..20]).Ok? && Atoi(line[20..22]).Ok? && Atoi(line[22..24]).Ok? ==> r.Ok?
    ensures r.Ok? ==> Format(r.value.TransactionDate) == line[2..20] && r.value.CurrencyType == line[24..27]
    ensures r.Ok? ==> Ok(r.value.FeeType) == Atoi(line[20..22]) && Ok(r.value.PaymentType) == Atoi(line[22..24])
  {
    if |line| < 36 || line[..2] != Code then Err(InvalidMessage(Code))
    else
      var codes := Extract(line[27..], d, Init(Keys));
      match Parse(line[2..20])
      case Err(e) => Err(e)
      case Ok(transactionDate) =>
        match Atoi(line[20..22])
        case Err(e) => Err(e)
        case Ok(feeType) =>
          match Atoi(line[22..24])
          case Err(e) => Err(e)
          case Ok(paymentType) =>
            FormatParse(line[2..20]);
            Ok(FromCodes(transactionDate, feeType, paymentType, line[24..27], codes))
  }

  /** The fixed prefix of a valid message's encoding parses back. */
  lemma MarshalPrefix(m: FeePaid, d: char, t: char, ed: bool, bad: string)
    requires Valid(m, bad)
    ensures var line := Marshal(m, d, t, ed);
      && Parse(line[2..20]) == Ok(m.TransactionDate)
      && Atoi(line[20..22]) == Ok(m.FeeType) && Atoi(line[22..24]) == Ok(m.PaymentType)
      && line[24..27] == m.CurrencyType
  {
    assert Fits(m);
    ParseFormat(m.TransactionDate);
    PadRoundTrip(m.FeeType, 2);
    PadRoundTrip(m.PaymentType, 2);
  }

  lemma CleanFields(m: FeePaid, d: char, bad: string)
    requires Valid(m, bad) && d in bad && DelimiterSafe(d)
    ensures Clean(Fields(m), d)
  {
  }

  lemma FieldsTagged(m: FeePaid)
    ensures forall i | 0 <= i < 7 :: Fields(m)[i].tag != AY && Fields(m)[i].tag in Keys && Unique(Fields(m), i)
  {
  }

  /** Codes that read the fields back rebuild the message. */
  lemma ReadFields(m: FeePaid, codes: map<Tag, string>)
    requires ReadsBack(Fields(m), Keys, codes)
    ensures FromCodes(m.TransactionDate, m.FeeType, m.PaymentType, m.CurrencyType, codes)
      == m.(SeqNum := SeqNumOf(Get(codes, AY)))
  {
    FieldsTagged(m);
    var fs := Fields(m);
    assert Get(codes, BV) == Seen(fs[0]);
    assert Get(codes, AO) == Seen(fs[1]);
    assert Get(codes, AA) == Seen(fs[2]);
    assert Get(codes, AC) == Seen(fs[3]);
    assert Get(codes, AD) == Seen(fs[4]);
    assert Get(codes, CG) == Seen(fs[5]);
    assert Get(codes, BK) == Seen(fs[6]);
  }

  lemma MarshalFromCodes(m: FeePaid, d: char, t: char, ed: bool, bad: string)
    requires Valid(m, bad) && d in bad && DelimiterSafe(d)
    ensures FromCodes(m.TransactionDate, m.FeeType, m.PaymentType, m.CurrencyType, Extract(Marshal(m, d, t, ed)[27..], d, Init(Keys)))
      == if ed then m else m.(SeqNum := 0)
  {
    var codes := Extract(Marshal(m, d, t, ed)[27..], d, Init(Keys));
    FieldsTagged(m);
    CleanFields(m, d, bad);
    ReadLine(Fields(m), Keys, Marshal(m, d, t, ed), 27, m.SeqNum, ed, d, t);
    ReadFields(m, codes);
    SeqNumOfText(m.SeqNum, ed);
  }

  /** The three fields a valid message always writes are not empty. */
  lemma MarshalLength(m: FeePaid, d: char, t: char, ed: bool, bad: string)
    requires Valid(m, bad)
    ensures |Marshal(m, d, t, ed)| >= 36
  {
    CodedLength(Fields(m), d, [4, 4, 4, 0, 0, 0, 0]);
  }

  /**
   * A valid message decodes to itself; without error detection the sequence
   * number comes back as 0.
   */
  lemma RoundTrip(m: FeePaid, d: char, t: char, ed: bool, bad: string)
    requires Valid(m, bad) && d in bad && DelimiterSafe(d)
    ensures Unmarshal(Marshal(m, d, t, ed), d, bad) == Ok(if ed then m else m.(SeqNum := 0))
  {
    MarshalPrefix(m, d, t, ed, bad);
    MarshalLength(m, d, t, ed, bad);
    MarshalFromCodes(m, d, t, ed, bad);
  }
}
