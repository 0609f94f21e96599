/**
 * Checkout request (11): the terminal asks to check an item out to a patron,
 * or to cancel a checkin that did not complete.
 */
module RequestCheckout {
  import opened Errors
  import opened Dates
  import opened Codes
  import opened Wire
  import Utils

  const Code: string := "11"

  datatype Checkout = Checkout(
    SCRenewalPolicy: bool,
    NoBlock: bool,
    TransactionDate: Date,
    NBDueDate: Date,
    InstitutionID: string,
    PatronID: string,
    ItemID: string,
    TerminalPassword: string,
    ItemProperties: string,
    PatronPassword: string,
    FeeAcknowledged: bool,
    Cancel: bool,
    SeqNum: int)

  /** The validate tags of the struct. */
  predicate Valid(m: Checkout, bad: string)
  {
    && !IsZero(m.TransactionDate) && !IsZero(m.NBDueDate)
    && m.InstitutionID != "" && Utils.SipField(m.InstitutionID, bad)
    && m.PatronID != "" && Utils.SipField(m.PatronID, bad)
    && m.ItemID != "" && Utils.SipField(m.ItemID, bad)
    && Utils.SipField(m.TerminalPassword, bad)
    && Utils.SipField(m.ItemProperties, bad)
    && Utils.SipField(m.PatronPassword, bad)
    && 0 <= m.SeqNum <= 9
  }

  /** The coded fields in the order Marshal writes them. */
  function Fields(m: Checkout): (fs: seq<Field>)
    ensures |fs| == 8
  {
    seq(8, i requires 0 <= i < 8 => FieldAt(m, i))
  }

  function FieldAt(m: Checkout, i: int): Field
    requires 0 <= i < 8
  {
    match i
    case 0 => Field(AO, m.InstitutionID, true)
    case 1 => Field(AA, m.PatronID, true)
    case 2 => Field(AB, m.ItemID, true)
    case 3 => Field(AC, m.TerminalPassword, true)
    case 4 => Field(CH, m.ItemProperties, m.ItemProperties != "")
    case 5 => Field(AD, m.PatronPassword, m.PatronPassword != "")
    case 6 => Field(BO, Utils.YorN(m.FeeAcknowledged), m.FeeAcknowledged)
    case 7 => Field(BI, Utils.YorN(m.Cancel), m.Cancel)
  }

  /** The tags Unmarshal asks ExtractFields for. */
  const Keys: seq<Tag> := [AY, AO, AA, AB, AC, CH, AD, BO, BI]

  function Prefix(m: Checkout): (s: string)
    ensures |s| == 40
  {
    Code + Utils.YorN(m.SCRenewalPolicy) + Utils.YorN(m.NoBlock) + Format(m.TransactionDate) + Format(m.NBDueDate)
  }

  function Marshal(m: Checkout, d: char, t: char, ed: bool): (r: string)
    ensures |r| > 40 && r[..2] == Code
    ensures r[2..3] == Utils.YorN(m.SCRenewalPolicy) && r[3..4] == Utils.YorN(m.NoBlock)
    ensures r[4..22] == Format(m.TransactionDate) && r[22..40] == Format(m.NBDueDate)
    ensures r[40..] == Coded(Fields(m), d) + Epilogue(r[..40] + Coded(Fields(m), d), m.SeqNum, ed) + [t]
  {
    Placed5(Code, Utils.YorN(m.SCRenewalPolicy), Utils.YorN(m.NoBlock), Format(m.TransactionDate), Format(m.NBDueDate),
      Coded(Fields(m), d), m.SeqNum, ed, t, 2, 3, 4, 22, 40);
    Frame(Prefix(m) + Coded(Fields(m), d), m.SeqNum, ed, t)
  }

  /** The message built from the fixed prefix and the extracted codes. */
  function FromCodes(renewalPolicy: bool, noBlock: bool, transactionDate: Date, dueDate: Date, codes: map<Tag, string>): Checkout
  {
    Checkout(
      renewalPolicy, noBlock, transactionDate, dueDate,
      Get(codes, AO), Get(codes, AA), Get(codes, AB), Get(codes, AC), Get(codes, CH), Get(codes, AD),
      FlagOf(Get(codes, BO)), FlagOf(Get(codes, BI)),
      SeqNumOf(Get(codes, AY)))
  }

  /**
   * Unmarshal: the result of the validation is dropped, so every line of the
   * right code and length whose two dates parse is accepted.
   */
  function Unmarshal(line: string, d: char, bad: string): (r: Result<Checkout>)
    ensures |line| < 52 || line[..2] != Code ==> r == Err(InvalidMessage(Code))
    ensures |line| >= 52 && line[..2] == Code && Parse(line[4..22]).Ok? && Parse(line[22..40]).Ok? ==> r.Ok?
    ensures r.Ok? ==> r.value.SCRenewalPolicy == Utils.ParseBool(line[2]) && r.value.NoBlock == Utils.ParseBool(line[3])
    ensures r.Ok? ==> Format(r.value.TransactionDate) == line[4..22] && Format(r.value.NBDueDate) == line[22..40]
  {
    if |line| < 52 || line[..2] != Code then Err(InvalidMessage(Code))
    else
      var codes := Extract(line[40..], d, Init(Keys));
      match Parse(line[4..22])
      case Err(e) => Err(e)
      case Ok(transactionDate) =>
        match Parse(line[22..40])
        case Err(e) => Err(e)
        case Ok(dueDate) =>
          FormatParse(line[4..22]);
          FormatParse(line[22..40]);
          Ok(FromCodes(Utils.ParseBool(line[2]), Utils.ParseBool(line[3]), transactionDate, dueDate, codes))
  }

  /** The fixed prefix of an encoding parses back. */
  lemma MarshalPrefix(m: Checkout, d: char, t: char, ed: bool)
    ensures var line := Marshal(m, d, t, ed);
      && Utils.ParseBool(line[2]) == m.SCRenewalPolicy && Utils.ParseBool(line[3]) == m.NoBlock
      && Parse(line[4..22]) == Ok(m.TransactionDate) && Parse(line[22..40]) == Ok(m.NBDueDate)
  {
    ParseFormat(m.TransactionDate);
    ParseFormat(m.NBDueDate);
  }

  lemma CleanFields(m: Checkout, d: char, bad: string)
    requires Valid(m, bad) && d in bad && DelimiterSafe(d)
    ensures Clean(Fields(m), d)
  {
  }

  lemma FieldsTagged(m: Checkout)
    ensures forall i | 0 <= i < 8 :: Fields(m)[i].tag != AY && Fields(m)[i].tag in Keys && Unique(Fields(m), i)
  {
    TagsOf(m);
    TagsDistinct();
    UniqueTags(Fields(m), Tags);
  }

  /** The tags of the coded fields, in the order Marshal writes them. */
  const Tags: seq<Tag> := [AO, AA, AB, AC, CH, AD, BO, BI]

  lemma TagsOf(m: Checkout)
    ensures forall i | 0 <= i < 8 :: Fields(m)[i].tag == Tags[i] && Tags[i] != AY && Tags[i] in Keys
  {
  }

  lemma TagsDistinct()
    ensures Distinct(Tags)
  {
  }

  /** Codes that read the fields back rebuild the message. */
  lemma ReadFields(m: Checkout, codes: map<Tag, string>)
    requires ReadsBack(Fields(m), Keys, codes)
    ensures FromCodes(m.SCRenewalPolicy, m.NoBlock, m.TransactionDate, m.NBDueDate, codes)
      == m.(SeqNum := SeqNumOf(Get(codes, AY)))
  {
    FieldsTagged(m);
    var fs := Fields(m);
    assert Get(codes, AO) == Seen(fs[0]);
    assert Get(codes, AA) == Seen(fs[1]);
    assert Get(codes, AB) == Seen(fs[2]);
    assert Get(codes, AC) == Seen(fs[3]);
    assert Get(codes, CH) == Seen(fs[4]);
    assert Get(codes, AD) == Seen(fs[5]);
    assert Get(codes, BO) == Seen(fs[6]);
    assert Get(codes, BI) == Seen(fs[7]);
  }

  lemma MarshalFromCodes(m: Checkout, d: char, t: char, ed: bool, bad: string)
    requires Valid(m, bad) && d in bad && DelimiterSafe(d)
    ensures FromCodes(m.SCRenewalPolicy, m.NoBlock, m.TransactionDate, m.NBDueDate, Extract(Marshal(m, d, t, ed)[40..], d, Init(Keys)))
      == if ed then m else m.(SeqNum := 0)
  {
    var codes := Extract(Marshal(m, d, t, ed)[40..], d, Init(Keys));
    FieldsTagged(m);
    CleanFields(m, d, bad);
    ReadLine(Fields(m), Keys, Marshal(m, d, t, ed), 40, m.SeqNum, ed, d, t);
    ReadFields(m, codes);
    SeqNumOfText(m.SeqNum, ed);
  }

  /** The four fields that are always written take at least twelve runes. */
  lemma MarshalLength(m: Checkout, d: char, t: char, ed: bool)
    ensures |Marshal(m, d, t, ed)| >= 52
  {
    CodedLength(Fields(m), d, [3, 3, 3, 3, 0, 0, 0, 0]);
  }

  /**
   * A valid message decodes to itself; without error detection the sequence
   * number comes back as 0.
   */
  lemma RoundTrip(m: Checkout, d: char, t: char, ed: bool, bad: string)
    requires Valid(m, bad) && d in bad && DelimiterSafe(d)
    ensures Unmarshal(Marshal(m, d, t, ed), d, bad) == Ok(if ed then m else m.(SeqNum := 0))
  {
    MarshalPrefix(m, d, t, ed);
    MarshalLength(m, d, t, ed);
    MarshalFromCodes(m, d, t, ed, bad);
  }

  /**
   * A decoded message need not be valid: a line whose coded part carries no
   * AO field is accepted, with the empty institution that validation would
   * have refused; BlankCodes gives such a coded part.
   */
  lemma AcceptsInvalid(line: string, d: char, bad: string)
    requires |line| >= 52 && line[..2] == Code && Parse(line[4..22]).Ok? && Parse(line[22..40]).Ok?
    requires Get(Extract(line[40..], d, Init(Keys)), AO) == ""
    ensures Unmarshal(line, d, bad).Ok? && Unmarshal(line, d, bad).value.InstitutionID == ""
    ensures !Valid(Unmarshal(line, d, bad).value, bad)
  {
  }

  /** Twelve blanks carry no field at all. */
  lemma BlankCodes(d: char)
    requires DelimiterSafe(d)
    ensures Get(Extract("            ", d, Init(Keys)), AO) == ""
  {
    ExtractLastSegment("            ", d, Init(Keys));
  }
}
