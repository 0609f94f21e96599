/**
 * Patron Enable response (26): the ACS answers a Patron Enable request with
 * the patron's status flags and whether the patron and password are valid.
 */
module ResponsePatronEnable {
  import opened Errors
  import opened Numbers
  import opened Dates
  import opened Codes
  import opened Wire
  import Utils
  import FieldsPatronStatus

  const Code: string := "26"

  datatype PatronEnable = PatronEnable(
    Status: FieldsPatronStatus.PatronStatus,
    Language: int,
    TransactionDate: Date,
    InstitutionID: string,
    PatronID: string,
    PatronName: string,
    ValidPatron: bool,
    ValidPatronPassword: bool,
    ScreenMessage: string,
    PrintLine: string,
    SeqNum: int)

  /**
   * The validate tags of the struct. The status flags are a struct, on which
   * "required" puts no constraint.
   */
  predicate Valid(m: PatronEnable, bad: string)
  {
    && 0 <= m.Language <= 999
    && !IsZero(m.TransactionDate)
    && Utils.SipField(m.InstitutionID, bad)
    && Utils.SipField(m.PatronID, bad)
    && Utils.SipField(m.PatronName, bad)
    && Utils.SipField(m.ScreenMessage, bad)
    && Utils.SipField(m.PrintLine, bad)
    && 0 <= m.SeqNum <= 9
  }

  /** Resetting the sequence number keeps a message valid. */
  lemma ValidSeqNum(m: PatronEnable, bad: string)
    requires Valid(m, bad)
    ensures Valid(m.(SeqNum := 0), bad)
  {
  }

  /** The language takes three digits, so the date starts at rune 19. */
  predicate Fits(m: PatronEnable)
  {
    0 <= m.Language <= 999
  }

  /**
   * The coded fields in the order Marshal writes them: the identifiers, the
   * name and the two validity flags always, the others unless they are empty.
   */
  function Fields(m: PatronEnable): (fs: seq<Field>)
    ensures |fs| == 7
  {
    seq(7, i requires 0 <= i < 7 => FieldAt(m, i))
  }

  function FieldAt(m: PatronEnable, i: int): Field
    requires 0 <= i < 7
  {
    match i
    case 0 => Field(AO, m.InstitutionID, true)
    case 1 => Field(AA, m.PatronID, true)
    case 2 => Field(AE, m.PatronName, true)
    case 3 => Field(BL, Utils.YorN(m.ValidPatron), true)
    case 4 => Field(CQ, Utils.YorN(m.ValidPatronPassword), true)
    case 5 => Field(AF, m.ScreenMessage, m.ScreenMessage != "")
    case 6 => Field(AG, m.PrintLine, m.PrintLine != "")
  }

  /** The tags Unmarshal asks ExtractFields for. */
  const Keys: seq<Tag> := [AY, AO, AA, AE, BL, CQ, AF, AG]

  /** The language is written with %03d. */
  function Marshal(m: PatronEnable, d: char, t: char, ed: bool): (r: string)
    ensures |r| > 16 && r[..2] == Code && r[2..16] == FieldsPatronStatus.Marshal(m.Status)
    ensures Fits(m) ==> |r| > 37 && r[16..19] == Pad(m.Language, 3) && r[19..37] == Format(m.TransactionDate)
    ensures Fits(m) ==> r[37..] == Coded(Fields(m), d) + Epilogue(r[..37] + Coded(Fields(m), d), m.SeqNum, ed) + [t]
  {
    var r := Frame(Code + FieldsPatronStatus.Marshal(m.Status) + Pad(m.Language, 3) + Format(m.TransactionDate)
      + Coded(Fields(m), d), m.SeqNum, ed, t);
    if Fits(m) then
      PadRoundTrip(m.Language, 3);
      Placed4(Code, FieldsPatronStatus.Marshal(m.Status), Pad(m.Language, 3), Format(m.TransactionDate),
        Coded(Fields(m), d), m.SeqNum, ed, t, 2, 16, 19, 37);
      r
    else
      Framed4(Code, FieldsPatronStatus.Marshal(m.Status), Pad(m.Language, 3), Format(m.TransactionDate),
        Coded(Fields(m), d), m.SeqNum, ed, t);
      r
  }

  /** The message built from the fixed prefix and the extracted codes. */
  function FromCodes(status: FieldsPatronStatus.PatronStatus, language: int, transactionDate: Date, codes: map<Tag, string>): PatronEnable
  {
    PatronEnable(
      status, language, transactionDate, Get(codes, AO), Get(codes, AA), Get(codes, AE),
      FlagOf(Get(codes, BL)), FlagOf(Get(codes, CQ)),
      Get(codes, AF), Get(codes, AG), SeqNumOf(Get(codes, AY)))
  }

  /** Everything Unmarshal does between the length check and validation. */
  function Decode(line: string, d: char): (r: Result<PatronEnable>)
    requires |line| >= 37
    ensures r.Ok? ==> Ok(r.value.Status) == FieldsPatronStatus.Unmarshal(line[2..16])
    ensures r.Ok? ==> Ok(r.value.Language) == Atoi(line[16..19]) && Format(r.value.TransactionDate) == line[19..37]
  {
    match FieldsPatronStatus.Unmarshal(line[2..16])
    case Err(e) => Err(e)
    case Ok(status) =>
      match Atoi(line[16..19])
      case Err(e) => Err(e)
      case Ok(language) =>
        match Parse(line[19..37])
        case Err(e) => Err(e)
        case Ok(transactionDate) =>
          FormatParse(line[19..37]);
          Ok(FromCodes(status, language, transactionDate, Extract(line[37..], d, Init(Keys))))
  }

  /**
   * Unmarshal: the status flags, the language and the transaction date are
   * parsed in that order, the first failure reported; the result of the
   * validation is returned.
   */
  function Unmarshal(line: string, d: char, bad: string): (r: Result<PatronEnable>)
    ensures |line| < 46 || line[..2] != Code ==> r == Err(InvalidMessage(Code))
    ensures r.Ok? ==> Valid(r.value, bad) && Ok(r.value.Language) == Atoi(line[16..19])
    ensures r.Ok? ==> Format(r.value.TransactionDate) == line[19..37]
  {
    if |line| < 46 || line[..2] != Code then Err(InvalidMessage(Code))
    else
      match Decode(line, d)
      case Err(e) => Err(e)
      case Ok(m) => if Valid(m, bad) then Ok(m) else Err(ValidationFailed(Code))
  }

  /** The fixed prefix of a valid message's encoding parses back. */
  lemma MarshalPrefix(m: PatronEnable, d: char, t: char, ed: bool, bad: string)
    requires Valid(m, bad)
    ensures var line := Marshal(m, d, t, ed);
      && |line| > 37
      && FieldsPatronStatus.Unmarshal(line[2..16]) == Ok(m.Status)
      && Atoi(line[16..19]) == Ok(m.Language) && Parse(line[19..37]) == Ok(m.TransactionDate)
  {
    assert Fits(m);
    FieldsPatronStatus.RoundTrip(m.Status, "");
    assert FieldsPatronStatus.Marshal(m.Status) + "" == FieldsPatronStatus.Marshal(m.Status);
    PadRoundTrip(m.Language, 3);
    ParseFormat(m.TransactionDate);
  }

  lemma CleanFields(m: PatronEnable, d: char, bad: string)
    requires Valid(m, bad) && d in bad && DelimiterSafe(d)
    ensures Clean(Fields(m), d)
  {
  }

  lemma FieldsTagged(m: PatronEnable)
    ensures forall i | 0 <= i < 7 :: Fields(m)[i].tag != AY && Fields(m)[i].tag in Keys && Unique(Fields(m), i)
  {
  }

  /** Codes that read the fields back hold each written field's value. */
  lemma ReadAt(m: PatronEnable, codes: map<Tag, string>, i: int)
    requires ReadsBack(Fields(m), Keys, codes) && 0 <= i < 7
    ensures Get(codes, FieldAt(m, i).tag) == Seen(FieldAt(m, i))
  {
    FieldsTagged(m);
    assert Fields(m)[i] == FieldAt(m, i);
  }

  /** Codes that read the fields back rebuild a valid message. */
  lemma ReadFields(m: PatronEnable, codes: map<Tag, string>, bad: string)
    requires Valid(m, bad) && ReadsBack(Fields(m), Keys, codes)
    ensures FromCodes(m.Status, m.Language, m.TransactionDate, codes) == m.(SeqNum := SeqNumOf(Get(codes, AY)))
  {
    ReadAt(m, codes, 0);
    ReadAt(m, codes, 1);
    ReadAt(m, codes, 2);
    ReadAt(m, codes, 3);
    ReadAt(m, codes, 4);
    ReadAt(m, codes, 5);
    ReadAt(m, codes, 6);
  }

  /** The encoding of a valid message decodes back to it. */
  lemma MarshalDecodes(m: PatronEnable, d: char, t: char, ed: bool, bad: string)
    requires Valid(m, bad) && d in bad && DelimiterSafe(d)
    ensures |Marshal(m, d, t, ed)| >= 37
    ensures Decode(Marshal(m, d, t, ed), d) == Ok(if ed then m else m.(SeqNum := 0))
  {
    var line := Marshal(m, d, t, ed);
    var codes := Extract(line[37..], d, Init(Keys));
    MarshalPrefix(m, d, t, ed, bad);
    FieldsTagged(m);
    CleanFields(m, d, bad);
    ReadLine(Fields(m), Keys, line, 37, m.SeqNum, ed, d, t);
    ReadFields(m, codes, bad);
    SeqNumOfText(m.SeqNum, ed);
  }

  /** The two validity flags are always written. */
  lemma MarshalLength(m: PatronEnable, d: char, t: char, ed: bool, bad: string)
    requires Valid(m, bad)
    ensures |Marshal(m, d, t, ed)| >= 46
  {
    assert Fits(m);
    CodedPicks(Fields(m), d, [3, 4], 0);
    assert Fields(m)[0..] == Fields(m);
  }

  /**
   * A valid message decodes to itself; without error detection the sequence
   * number comes back as 0.
   */
  lemma RoundTrip(m: PatronEnable, d: char, t: char, ed: bool, bad: string)
    requires Valid(m, bad) && d in bad && DelimiterSafe(d)
    ensures Unmarshal(Marshal(m, d, t, ed), d, bad) == Ok(if ed then m else m.(SeqNum := 0))
  {
    MarshalLength(m, d, t, ed, bad);
    MarshalDecodes(m, d, t, ed, bad);
    ValidSeqNum(m, bad);
  }
}
