/**
 * Renew request (29): the terminal asks to renew one item, named by its item
 * identifier, its title identifier or both.
 */
module RequestRenew {
  import opened Errors
  import opened Dates
  import opened Codes
  import opened Wire
  import Utils

  const Code: string := "29"

  datatype Renew = Renew(
    ThirdPartyAllowed: bool,
    NoBlock: bool,
    TransactionDate: Date,
    NBDueDate: Date,
    InstitutionID: string,
    PatronID: string,
    PatronPassword: string,
    ItemID: string,
    TitleID: string,
    TerminalPassword: string,
    ItemProperties: string,
    FeeAcknowledged: bool,
    SeqNum: int)

  /** The validate tags of the struct; Validate adds Names below. */
  predicate Valid(m: Renew, bad: string)
  {
    && !IsZero(m.TransactionDate) && !IsZero(m.NBDueDate)
    && m.InstitutionID != "" && Utils.SipField(m.InstitutionID, bad)
    && m.PatronID != "" && Utils.SipField(m.PatronID, bad)
    && Utils.SipField(m.PatronPassword, bad)
    && Utils.SipField(m.ItemID, bad)
    && Utils.SipField(m.TitleID, bad)
    && Utils.SipField(m.TerminalPassword, bad)
    && Utils.SipField(m.ItemProperties, bad)
    && 0 <= m.SeqNum <= 9
  }

  /** The coded fields in the order Marshal writes them. */
  function Fields(m: Renew): (fs: seq<Field>)
    ensures |fs| == 8
  {
    seq(8, i requires 0 <= i < 8 => FieldAt(m, i))
  }

  function FieldAt(m: Renew, i: int): Field
    requires 0 <= i < 8
  {
    match i
    case 0 => Field(AO, m.InstitutionID, true)
    case 1 => Field(AA, m.PatronID, true)
    case 2 => Field(AD, m.PatronPassword, m.PatronPassword != "")
    case 3 => Field(AB, m.ItemID, m.ItemID != "")
    case 4 => Field(AJ, m.TitleID, m.TitleID != "")
    case 5 => Field(AC, m.TerminalPassword, m.TerminalPassword != "")
    case 6 => Field(CH, m.ItemProperties, m.ItemProperties != "")
    case 7 => Field(BO, Utils.YorN(m.FeeAcknowledged), m.FeeAcknowledged)
  }

  /** The tags Unmarshal asks ExtractFields for. */
  const Keys: seq<Tag> := [AY, AO, AA, AD, AB, AJ, AC, CH, BO]

  function Prefix(m: Renew): (s: string)
    ensures |s| == 40
  {
    Code + Utils.YorN(m.ThirdPartyAllowed) + Utils.YorN(m.NoBlock) + Format(m.TransactionDate) + Format(m.NBDueDate)
  }

  function Marshal(m: Renew, d: char, t: char, ed: bool): (r: string)
    ensures |r| > 40 && r[..2] == Code
    ensures r[2..3] == Utils.YorN(m.ThirdPartyAllowed) && r[3..4] == Utils.YorN(m.NoBlock)
    ensures r[4..22] == Format(m.TransactionDate) && r[22..40] == Format(m.NBDueDate)
    ensures r[40..] == Coded(Fields(m), d) + Epilogue(r[..40] + Coded(Fields(m), d), m.SeqNum, ed) + [t]
  {
    Placed5(Code, Utils.YorN(m.ThirdPartyAllowed), Utils.YorN(m.NoBlock),
      Format(m.TransactionDate), Format(m.NBDueDate),
      Coded(Fields(m), d), m.SeqNum, ed, t, 2, 3, 4, 22, 40);
    Frame(Prefix(m) + Coded(Fields(m), d), m.SeqNum, ed, t)
  }

  /** The message built from the fixed prefix and the extracted codes. */
  function FromCodes(renewalPolicy: bool, noBlock: bool, transactionDate: Date, dueDate: Date, codes: map<Tag, string>): Renew
  {
    Renew(
      renewalPolicy, noBlock, transactionDate, dueDate,
      Get(codes, AO), Get(codes, AA), Get(codes, AD), Get(codes, AB), Get(codes, AJ), Get(codes, AC),
      Get(codes, CH), FlagOf(Get(codes, BO)),
      SeqNumOf(Get(codes, AY)))
  }

  /**
   * Unmarshal: the result of the validation, and of the rule that an item or a
   * title be named, is dropped, so every line of the right code and length
   * whose two dates parse is accepted.
   */
  function Unmarshal(line: string, d: char, bad: string): (r: Result<Renew>)
    ensures |line| < 46 || line[..2] != Code ==> r == Err(InvalidMessage(Code))
    ensures |line| >= 46 && line[..2] == Code && Parse(line[4..22]).Ok? && Parse(line[22..40]).Ok? ==> r.Ok?
    ensures r.Ok? ==> r.value.ThirdPartyAllowed == Utils.ParseBool(line[2]) && r.value.NoBlock == Utils.ParseBool(line[3])
    ensures r.Ok? ==> Format(r.value.TransactionDate) == line[4..22] && Format(r.value.NBDueDate) == line[22..40]
  {
    if |line| < 46 || line[..2] != Code then Err(InvalidMessage(Code))
    else
      var codes := Extract(line[40..], d, Init(Keys));
      match Parse(line[4..22])
      case Err(e) => Err(e)
      case Ok(transactionDate) =>
        match Parse(line[22..40])
        case Err(e) => Err(e)
        case Ok(dueDate) =>
          FormatParse(line[4..22]);
          FormatParse(line[22..40]);
          Ok(FromCodes(Utils.ParseBool(line[2]), Utils.ParseBool(line[3]), transactionDate, dueDate, codes))
  }

  /** The fixed prefix of an encoding parses back. */
  lemma MarshalPrefix(m: Renew, d: char, t: char, ed: bool)
    ensures var line := Marshal(m, d, t, ed);
      && Utils.ParseBool(line[2]) == m.ThirdPartyAllowed && Utils.ParseBool(line[3]) == m.NoBlock
      && Parse(line[4..22]) == Ok(m.TransactionDate) && Parse(line[22..40]) == Ok(m.NBDueDate)
  {
    ParseFormat(m.TransactionDate);
    ParseFormat(m.NBDueDate);
  }

  lemma CleanFields(m: Renew, d: char, bad: string)
    requires Valid(m, bad) && d in bad && DelimiterSafe(d)
    ensures Clean(Fields(m), d)
  {
  }

  lemma FieldsTagged(m: Renew)
    ensures forall i | 0 <= i < 8 :: Fields(m)[i].tag != AY && Fields(m)[i].tag in Keys && Unique(Fields(m), i)
  {
    TagsOf(m);
    TagsDistinct();
    UniqueTags(Fields(m), Tags);
  }

  /** The tags of the coded fields, in the order Marshal writes them. */
  const Tags: seq<Tag> := [AO, AA, AD, AB, AJ, AC, CH, BO]

  lemma TagsOf(m: Renew)
    ensures forall i | 0 <= i < 8 :: Fields(m)[i].tag == Tags[i] && Tags[i] != AY && Tags[i] in Keys
  {
  }

  lemma TagsDistinct()
    ensures Distinct(Tags)
  {
  }

  /** Codes that read the fields back rebuild the message. */
  lemma ReadFields(m: Renew, codes: map<Tag, string>)
    requires ReadsBack(Fields(m), Keys, codes)
    ensures FromCodes(m.ThirdPartyAllowed, m.NoBlock, m.TransactionDate, m.NBDueDate, codes)
      == m.(SeqNum := SeqNumOf(Get(codes, AY)))
  {
    FieldsTagged(m);
    var fs := Fields(m);
    assert Get(codes, AO) == Seen(fs[0]);
    assert Get(codes, AA) == Seen(fs[1]);
    assert Get(codes, AD) == Seen(fs[2]);
    assert Get(codes, AB) == Seen(fs[3]);
    assert Get(codes, AJ) == Seen(fs[4]);
    assert Get(codes, AC) == Seen(fs[5]);
    assert Get(codes, CH) == Seen(fs[6]);
    assert Get(codes, BO) == Seen(fs[7]);
  }

  lemma MarshalFromCodes(m: Renew, d: char, t: char, ed: bool, bad: string)
    requires Valid(m, bad) && d in bad && DelimiterSafe(d)
    ensures FromCodes(m.ThirdPartyAllowed, m.NoBlock, m.TransactionDate, m.NBDueDate, Extract(Marshal(m, d, t, ed)[40..], d, Init(Keys)))
      == if ed then m else m.(SeqNum := 0)
  {
    var codes := Extract(Marshal(m, d, t, ed)[40..], d, Init(Keys));
    FieldsTagged(m);
    CleanFields(m, d, bad);
    ReadLine(Fields(m), Keys, Marshal(m, d, t, ed), 40, m.SeqNum, ed, d, t);
    ReadFields(m, codes);
    SeqNumOfText(m.SeqNum, ed);
  }

  /** The two identifiers a valid message always writes are not empty. */
  lemma MarshalLength(m: Renew, d: char, t: char, ed: bool, bad: string)
    requires Valid(m, bad)
    ensures |Marshal(m, d, t, ed)| >= 46
  {
    CodedLength(Fields(m), d, [4, 4, 0, 0, 0, 0, 0, 0]);
  }

  /**
   * A valid message decodes to itself; without error detection the sequence
   * number comes back as 0.
   */
  lemma RoundTrip(m: Renew, d: char, t: char, ed: bool, bad: string)
    requires Valid(m, bad) && d in bad && DelimiterSafe(d)
    ensures Unmarshal(Marshal(m, d, t, ed), d, bad) == Ok(if ed then m else m.(SeqNum := 0))
  {
    MarshalPrefix(m, d, t, ed);
    MarshalLength(m, d, t, ed, bad);
    MarshalFromCodes(m, d, t, ed, bad);
  }

  /** The rule Validate adds to the tags: an item or a title must be named. */
  predicate Names(m: Renew)
  {
    m.ItemID != "" || m.TitleID != ""
  }

  /**
   * A renewal naming neither an item nor a title is still decoded, since the
   * validation result is dropped: a valid message without either round-trips.
   */
  lemma AcceptsNoItem(m: Renew, d: char, t: char, bad: string)
    requires Valid(m, bad) && d in bad && DelimiterSafe(d) && m.ItemID == "" && m.TitleID == ""
    ensures Unmarshal(Marshal(m, d, t, true), d, bad) == Ok(m) && !Names(m)
  {
    RoundTrip(m, d, t, true, bad);
  }
}
