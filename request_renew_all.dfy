/**
 * Renew All request (65): the terminal asks to renew every item the patron
 * has checked out.
 */
module RequestRenewAll {
  import opened Errors
  import opened Dates
  import opened Codes
  import opened Wire
  import Utils

  const Code: string := "65"

  datatype RenewAll = RenewAll(
    TransactionDate: Date,
    InstitutionID: string,
    PatronID: string,
    PatronPassword: string,
    TerminalPassword: string,
    FeeAcknowledged: bool,
    SeqNum: int)

  /** The validate tags of the struct. */
  predicate Valid(m: RenewAll, bad: string)
  {
    && !IsZero(m.TransactionDate)
    && m.InstitutionID != "" && Utils.SipField(m.InstitutionID, bad)
    && m.PatronID != "" && Utils.SipField(m.PatronID, bad)
    && Utils.SipField(m.PatronPassword, bad)
    && Utils.SipField(m.TerminalPassword, bad)
    && 0 <= m.SeqNum <= 9
  }

  /** The coded fields in the order Marshal writes them. */
  function Fields(m: RenewAll): (fs: seq<Field>)
    ensures |fs| == 5
  {
    seq(5, i requires 0 <= i < 5 => FieldAt(m, i))
  }

  function FieldAt(m: RenewAll, i: int): Field
    requires 0 <= i < 5
  {
    match i
    case 0 => Field(AO, m.InstitutionID, true)
    case 1 => Field(AA, m.PatronID, true)
    case 2 => Field(AD, m.PatronPassword, m.PatronPassword != "")
    case 3 => Field(AC, m.TerminalPassword, m.TerminalPassword != "")
    case 4 => Field(BO, Utils.YorN(m.FeeAcknowledged), m.FeeAcknowledged)
  }

  /** The tags Unmarshal asks ExtractFields for. */
  const Keys: seq<Tag> := [AY, AO, AA, AD, AC, BO]

  function Prefix(m: RenewAll): (s: string)
    ensures |s| == 20
  {
    Code + Format(m.TransactionDate)
  }

  function Marshal(m: RenewAll, d: char, t: char, ed: bool): (r: string)
    ensures |r| > 20 && r[..2] == Code && r[2..20] == Format(m.TransactionDate)
    ensures r[20..] == Coded(Fields(m), d) + Epilogue(r[..20] + Coded(Fields(m), d), m.SeqNum, ed) + [t]
  {
    Placed2(Code, Format(m.TransactionDate), Coded(Fields(m), d), m.SeqNum, ed, t, 2, 20);
    Frame(Prefix(m) + Coded(Fields(m), d), m.SeqNum, ed, t)
  }

  /** The message built from the fixed prefix and the extracted codes. */
  function FromCodes(transactionDate: Date, codes: map<Tag, string>): RenewAll
  {
    RenewAll(
      transactionDate, Get(codes, AO), Get(codes, AA), Get(codes, AD), Get(codes, AC),
      FlagOf(Get(codes, BO)), SeqNumOf(Get(codes, AY)))
  }

  function Unmarshal(line: string, d: char, bad: string): (r: Result<RenewAll>)
    ensures |line| < 26 || line[..2] != Code ==> r == Err(InvalidMessage(Code))
    ensures r.Ok? ==> Valid(r.value, bad) && Format(r.value.TransactionDate) == line[2..20]
  {
    if |line| < 26 || line[..2] != Code then Err(InvalidMessage(Code))
    else
      var codes := Extract(line[20..], d, Init(Keys));
      match Parse(line[2..20])
      case Err(e) => Err(e)
      case Ok(transactionDate) =>
        FormatParse(line[2..20]);
        var m := FromCodes(transactionDate, codes);
        if Valid(m, bad) then Ok(m) else Err(ValidationFailed(Code))
  }

  lemma CleanFields(m: RenewAll, d: char, bad: string)
    requires Valid(m, bad) && d in bad && DelimiterSafe(d)
    ensures Clean(Fields(m), d)
  {
  }

  lemma FieldsTagged(m: RenewAll)
    ensures forall i | 0 <= i < 5 :: Fields(m)[i].tag != AY && Fields(m)[i].tag in Keys && Unique(Fields(m), i)
  {
  }

  /** Codes that read the fields back rebuild the message. */
  lemma ReadFields(m: RenewAll, codes: map<Tag, string>)
    requires ReadsBack(Fields(m), Keys, codes)
    ensures FromCodes(m.TransactionDate, codes) == m.(SeqNum := SeqNumOf(Get(codes, AY)))
  {
    FieldsTagged(m);
    var fs := Fields(m);
    assert Get(codes, AO) == Seen(fs[0]);
    assert Get(codes, AA) == Seen(fs[1]);
    assert Get(codes, AD) == Seen(fs[2]);
    assert Get(codes, AC) == Seen(fs[3]);
    assert Get(codes, BO) == Seen(fs[4]);
  }

  lemma MarshalFromCodes(m: RenewAll, d: char, t: char, ed: bool, bad: string)
    requires Valid(m, bad) && d in bad && DelimiterSafe(d)
    ensures FromCodes(m.TransactionDate, Extract(Marshal(m, d, t, ed)[20..], d, Init(Keys)))
      == if ed then m else m.(SeqNum := 0)
  {
    var codes := Extract(Marshal(m, d, t, ed)[20..], d, Init(Keys));
    FieldsTagged(m);
    CleanFields(m, d, bad);
    ReadLine(Fields(m), Keys, Marshal(m, d, t, ed), 20, m.SeqNum, ed, d, t);
    ReadFields(m, codes);
    SeqNumOfText(m.SeqNum, ed);
  }

  /** The two identifiers a valid message always writes are not empty. */
  lemma MarshalLength(m: RenewAll, d: char, t: char, ed: bool, bad: string)
    requires Valid(m, bad)
    ensures |Marshal(m, d, t, ed)| >= 26
  {
    CodedLength(Fields(m), d, [4, 4, 0, 0, 0]);
  }

  /**
   * A valid message decodes to itself; without error detection the sequence
   * number comes back as 0.
   */
  lemma RoundTrip(m: RenewAll, d: char, t: char, ed: bool, bad: string)
    requires Valid(m, bad) && d in bad && DelimiterSafe(d)
    ensures Unmarshal(Marshal(m, d, t, ed), d, bad) == Ok(if ed then m else m.(SeqNum := 0))
  {
    ParseFormat(m.TransactionDate);
    MarshalLength(m, d, t, ed, bad);
    MarshalFromCodes(m, d, t, ed, bad);
  }
}
