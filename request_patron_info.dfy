/**
 * Patron Information request (63): a superset of the patron status request
 * that also names the one category of items the terminal wants listed, and
 * which part of that list.
 */
module RequestPatronInfo {
  import opened Errors
  import opened Numbers
  import opened Dates
  import opened Codes
  import opened Wire
  import Utils
  import FieldsSummary

  const Code: string := "63"

  datatype PatronInfo = PatronInfo(
    Language: int,
    TransactionDate: Date,
    Summary: FieldsSummary.Summary,
    InstitutionID: string,
    PatronID: string,
    TerminalPassword: string,
    PatronPassword: string,
    StartItem: int,
    EndItem: int,
    SeqNum: int)

  /**
   * Validate: the summary's own check (at most one category) and then the
   * validate tags of the struct; both failures are a validation error of
   * this message.
   */
  predicate Valid(m: PatronInfo, bad: string)
  {
    && FieldsSummary.Validate(m.Summary) == None
    && 0 <= m.Language <= 999
    && !IsZero(m.TransactionDate)
    && m.InstitutionID != "" && Utils.SipField(m.InstitutionID, bad)
    && m.PatronID != "" && Utils.SipField(m.PatronID, bad)
    && Utils.SipField(m.TerminalPassword, bad)
    && Utils.SipField(m.PatronPassword, bad)
    && m.StartItem >= 0 && m.EndItem >= 0
    && 0 <= m.SeqNum <= 9
  }

  /** The language takes exactly three digits, so the date starts at rune 5. */
  predicate Fits(m: PatronInfo)
  {
    0 <= m.Language <= 999
  }

  /** The item range is written only when it starts past 0 and does not run backwards. */
  predicate Listed(m: PatronInfo)
  {
    m.StartItem > 0 && m.EndItem >= m.StartItem
  }

  /** What a decoder sees of the range: the range itself when written, 0 and 0 otherwise. */
  function Normal(m: PatronInfo): (n: PatronInfo)
    ensures Listed(m) || (m.StartItem == 0 && m.EndItem == 0) <==> n == m
  {
    if Listed(m) then m else m.(StartItem := 0, EndItem := 0)
  }

  /** The coded fields in the order Marshal writes them. */
  function Fields(m: PatronInfo): (fs: seq<Field>)
    ensures |fs| == 6
  {
    seq(6, i requires 0 <= i < 6 => FieldAt(m, i))
  }

  function FieldAt(m: PatronInfo, i: int): Field
    requires 0 <= i < 6
  {
    match i
    case 0 => Field(AO, m.InstitutionID, true)
    case 1 => Field(AA, m.PatronID, true)
    case 2 => Field(AC, m.TerminalPassword, m.TerminalPassword != "")
    case 3 => Field(AD, m.PatronPassword, m.PatronPassword != "")
    case 4 => Field(BP, Itoa(m.StartItem), Listed(m))
    case 5 => Field(BQ, Itoa(m.EndItem), Listed(m))
  }

  /** The tags Unmarshal asks ExtractFields for. */
  const Keys: seq<Tag> := [AY, AO, AA, AC, AD, BP, BQ]

  function Prefix(m: PatronInfo): string
  {
    Code + Pad(m.Language, 3) + Format(m.TransactionDate) + FieldsSummary.Marshal(m.Summary)
  }

  function Marshal(m: PatronInfo, d: char, t: char, ed: bool): (r: string)
    ensures |r| > 2 && r[..2] == Code
    ensures Fits(m) ==> |r| > 33 && r[2..5] == Pad(m.Language, 3) && r[5..23] == Format(m.TransactionDate)
    ensures Fits(m) ==> r[23..33] == FieldsSummary.Marshal(m.Summary)
    ensures Fits(m) ==> r[33..] == Coded(Fields(m), d) + Epilogue(r[..33] + Coded(Fields(m), d), m.SeqNum, ed) + [t]
  {
    if Fits(m) then
      PadRoundTrip(m.Language, 3);
      Placed4(Code, Pad(m.Language, 3), Format(m.TransactionDate), FieldsSummary.Marshal(m.Summary),
        Coded(Fields(m), d), m.SeqNum, ed, t, 2, 5, 23, 33);
      Frame(Prefix(m) + Coded(Fields(m), d), m.SeqNum, ed, t)
    else
      Framed4(Code, Pad(m.Language, 3), Format(m.TransactionDate), FieldsSummary.Marshal(m.Summary),
        Coded(Fields(m), d), m.SeqNum, ed, t);
      Frame(Prefix(m) + Coded(Fields(m), d), m.SeqNum, ed, t)
  }

  /** The message built from the fixed prefix, the decoded range and the extracted codes. */
  function Build(language: int, transactionDate: Date, summary: FieldsSummary.Summary, startItem: int, endItem: int, codes: map<Tag, string>): PatronInfo
  {
    PatronInfo(
      language, transactionDate, summary,
      Get(codes, AO), Get(codes, AA), Get(codes, AC), Get(codes, AD),
      startItem, endItem, SeqNumOf(Get(codes, AY)))
  }

  /** The message built from the codes: a range bound that is present but not a number is an error. */
  function FromCodes(language: int, transactionDate: Date, summary: FieldsSummary.Summary, codes: map<Tag, string>): (r: Result<PatronInfo>)
    ensures NumberOf(Get(codes, BP), 0).Err? ==> r == Err(NumberOf(Get(codes, BP), 0).error)
    ensures r.Ok? ==> Ok(r.value.StartItem) == NumberOf(Get(codes, BP), 0) && Ok(r.value.EndItem) == NumberOf(Get(codes, BQ), 0)
  {
    match NumberOf(Get(codes, BP), 0)
    case Err(e) => Err(e)
    case Ok(startItem) =>
      match NumberOf(Get(codes, BQ), 0)
      case Err(e) => Err(e)
      case Ok(endItem) => Ok(Build(language, transactionDate, summary, startItem, endItem, codes))
  }

  /**
   * Everything Unmarshal does between the length check and validation: the
   * language, the date and the summary, in that order; the summary is read
   * from its first six runes only.
   */
  function Decode(line: string, d: char): (r: Result<PatronInfo>)
    requires |line| >= 33
    ensures Atoi(line[2..5]).Err? ==> r == Err(Atoi(line[2..5]).error)
    ensures r.Ok? ==> Ok(r.value.Language) == Atoi(line[2..5]) && Format(r.value.TransactionDate) == line[5..23]
    ensures r.Ok? ==> Ok(r.value.Summary) == FieldsSummary.Unmarshal(line[23..29])
  {
    match Atoi(line[2..5])
    case Err(e) => Err(e)
    case Ok(language) =>
      match Parse(line[5..23])
      case Err(e) => Err(e)
      case Ok(transactionDate) =>
        FormatParse(line[5..23]);
        match FieldsSummary.Unmarshal(line[23..29])
        case Err(e) => Err(e)
        case Ok(summary) => FromCodes(language, transactionDate, summary, Extract(line[33..], d, Init(Keys)))
  }

  function Unmarshal(line: string, d: char, bad: string): (r: Result<PatronInfo>)
    ensures |line| < 36 || line[..2] != Code ==> r == Err(InvalidMessage(Code))
    ensures |line| >= 36 && line[..2] == Code && Atoi(line[2..5]).Err? ==> r == Err(Atoi(line[2..5]).error)
    ensures r.Ok? ==> Valid(r.value, bad) && Ok(r.value.Summary) == FieldsSummary.Unmarshal(line[23..29])
  {
    if |line| < 36 || line[..2] != Code then Err(InvalidMessage(Code))
    else
      match Decode(line, d)
      case Err(e) => Err(e)
      case Ok(m) => if Valid(m, bad) then Ok(m) else Err(ValidationFailed(Code))
  }

  /** A request that gets through asks for at most one category of items. */
  lemma OneCategory(line: string, d: char, bad: string)
    ensures var r := Unmarshal(line, d, bad);
      r.Ok? ==> forall i, j | 0 <= i < j < FieldsSummary.Width ::
        !(FieldsSummary.Bits(r.value.Summary)[i] && FieldsSummary.Bits(r.value.Summary)[j])
  {
    var r := Unmarshal(line, d, bad);
    if r.Ok? {
      FieldsSummary.ValidateIff(r.value.Summary);
    }
  }

  /** Resetting the sequence number or the range keeps a message valid. */
  lemma ValidNormal(m: PatronInfo, bad: string)
    requires Valid(m, bad)
    ensures Valid(Normal(m), bad) && Valid(Normal(m).(SeqNum := 0), bad)
  {
  }

  /** The summary of a valid message's encoding reads back from its first six runes. */
  lemma MarshalSummary(m: PatronInfo, d: char, t: char, ed: bool, bad: string)
    requires Valid(m, bad)
    ensures FieldsSummary.Unmarshal(Marshal(m, d, t, ed)[23..29]) == Ok(m.Summary)
  {
    assert Fits(m);
    var line := Marshal(m, d, t, ed);
    var s := FieldsSummary.Marshal(m.Summary);
    assert line[23..33] == s;
    assert line[23..29] == s[..FieldsSummary.Width];
    FieldsSummary.RoundTripFlags(m.Summary);
  }

  /** The fixed prefix of a valid message's encoding parses back. */
  lemma MarshalPrefix(m: PatronInfo, d: char, t: char, ed: bool, bad: string)
    requires Valid(m, bad)
    ensures var line := Marshal(m, d, t, ed);
      && Atoi(line[2..5]) == Ok(m.Language) && Parse(line[5..23]) == Ok(m.TransactionDate)
      && FieldsSummary.Unmarshal(line[23..29]) == Ok(m.Summary)
  {
    assert Fits(m);
    ParseFormat(m.TransactionDate);
    PadRoundTrip(m.Language, 3);
    MarshalSummary(m, d, t, ed, bad);
  }

  lemma CleanFields(m: PatronInfo, d: char, bad: string)
    requires Valid(m, bad) && d in bad && DelimiterSafe(d)
    ensures Clean(Fields(m), d)
  {
    NumberClean(m.StartItem, d);
    NumberClean(m.EndItem, d);
  }

  lemma FieldsTagged(m: PatronInfo)
    ensures forall i | 0 <= i < 6 :: Fields(m)[i].tag != AY && Fields(m)[i].tag in Keys && Unique(Fields(m), i)
  {
  }

  /** Codes that read the fields back hold each written field's value. */
  lemma ReadAt(m: PatronInfo, codes: map<Tag, string>, i: int)
    requires ReadsBack(Fields(m), Keys, codes) && 0 <= i < 6
    ensures Get(codes, FieldAt(m, i).tag) == Seen(FieldAt(m, i))
  {
    FieldsTagged(m);
    assert Fields(m)[i] == FieldAt(m, i);
  }

  /** The range bounds read back as written, or as 0 when left out. */
  lemma ReadRange(m: PatronInfo, codes: map<Tag, string>)
    requires ReadsBack(Fields(m), Keys, codes)
    ensures NumberOf(Get(codes, BP), 0) == Ok(Normal(m).StartItem)
    ensures NumberOf(Get(codes, BQ), 0) == Ok(Normal(m).EndItem)
  {
    ReadAt(m, codes, 4);
    ReadAt(m, codes, 5);
    AtoiItoa(m.StartItem);
    AtoiItoa(m.EndItem);
  }

  /** Codes that read the fields back rebuild the message. */
  lemma ReadFields(m: PatronInfo, codes: map<Tag, string>)
    requires ReadsBack(Fields(m), Keys, codes)
    ensures Build(m.Language, m.TransactionDate, m.Summary, m.StartItem, m.EndItem, codes)
      == m.(SeqNum := SeqNumOf(Get(codes, AY)))
  {
    ReadAt(m, codes, 0);
    ReadAt(m, codes, 1);
    ReadAt(m, codes, 2);
    ReadAt(m, codes, 3);
  }

  /** Codes that read the fields back give the message, up to the range. */
  lemma ReadMessage(m: PatronInfo, codes: map<Tag, string>)
    requires ReadsBack(Fields(m), Keys, codes)
    ensures FromCodes(m.Language, m.TransactionDate, m.Summary, codes)
      == Ok(Normal(m).(SeqNum := SeqNumOf(Get(codes, AY))))
  {
    ReadRange(m, codes);
    ReadFields(m, codes);
  }

  /** A line whose fixed prefix parses decodes through its codes. */
  lemma DecodePrefix(line: string, d: char, m: PatronInfo)
    requires |line| >= 33
    requires Atoi(line[2..5]) == Ok(m.Language) && Parse(line[5..23]) == Ok(m.TransactionDate)
    requires FieldsSummary.Unmarshal(line[23..29]) == Ok(m.Summary)
    ensures Decode(line, d) == FromCodes(m.Language, m.TransactionDate, m.Summary, Extract(line[33..], d, Init(Keys)))
  {
  }

  /** The encoding of a valid message decodes back to it, up to the range. */
  lemma MarshalDecodes(m: PatronInfo, d: char, t: char, ed: bool, bad: string)
    requires Valid(m, bad) && d in bad && DelimiterSafe(d)
    ensures |Marshal(m, d, t, ed)| >= 33
    ensures Decode(Marshal(m, d, t, ed), d) == Ok(if ed then Normal(m) else Normal(m).(SeqNum := 0))
  {
    var line := Marshal(m, d, t, ed);
    var codes := Extract(line[33..], d, Init(Keys));
    assert Fits(m);
    MarshalPrefix(m, d, t, ed, bad);
    DecodePrefix(line, d, m);
    FieldsTagged(m);
    CleanFields(m, d, bad);
    ReadLine(Fields(m), Keys, line, 33, m.SeqNum, ed, d, t);
    ReadMessage(m, codes);
    SeqNumOfText(m.SeqNum, ed);
    assert Normal(m).SeqNum == m.SeqNum;
  }

  /** The two identifiers a valid message always writes are not empty. */
  lemma MarshalLength(m: PatronInfo, d: char, t: char, ed: bool, bad: string)
    requires Valid(m, bad)
    ensures |Marshal(m, d, t, ed)| >= 41
  {
    assert Fits(m);
    CodedPicks(Fields(m), d, [0, 1], 0);
    assert Fields(m)[0..] == Fields(m);
  }

  /**
   * A valid message decodes to itself, except that a range that is not
   * written comes back as 0 to 0; without error detection the sequence
   * number comes back as 0.
   */
  lemma RoundTrip(m: PatronInfo, d: char, t: char, ed: bool, bad: string)
    requires Valid(m, bad) && d in bad && DelimiterSafe(d)
    ensures Unmarshal(Marshal(m, d, t, ed), d, bad) == Ok(if ed then Normal(m) else Normal(m).(SeqNum := 0))
  {
    MarshalLength(m, d, t, ed, bad);
    MarshalDecodes(m, d, t, ed, bad);
    ValidNormal(m, bad);
  }
}
