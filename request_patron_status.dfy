/**
 * Patron Status request (23): the terminal asks for the status of a patron.
 */
module RequestPatronStatus {
  import opened Errors
  import opened Numbers
  import opened Dates
  import opened Codes
  import opened Wire
  import Utils

  const Code: string := "23"

  datatype PatronStatus = PatronStatus(
    Language: int,
    TransactionDate: Date,
    InstitutionID: string,
    PatronID: string,
    TerminalPassword: string,
    PatronPassword: string,
    SeqNum: int)

  /** The validate tags of the struct. */
  predicate Valid(m: PatronStatus, bad: string)
  {
    && 0 <= m.Language <= 999
    && !IsZero(m.TransactionDate)
    && m.InstitutionID != "" && Utils.SipField(m.InstitutionID, bad)
    && m.PatronID != "" && Utils.SipField(m.PatronID, bad)
    && Utils.SipField(m.TerminalPassword, bad)
    && Utils.SipField(m.PatronPassword, bad)
    && 0 <= m.SeqNum <= 9
  }

  /** The language takes exactly three digits, so the date starts at rune 5. */
  predicate Fits(m: PatronStatus)
  {
    0 <= m.Language <= 999
  }

  /** The coded fields in the order Marshal writes them: all four, always. */
  function Fields(m: PatronStatus): (fs: seq<Field>)
    ensures |fs| == 4
  {
    seq(4, i requires 0 <= i < 4 => FieldAt(m, i))
  }

  function FieldAt(m: PatronStatus, i: int): Field
    requires 0 <= i < 4
  {
    match i
    case 0 => Field(AO, m.InstitutionID, true)
    case 1 => Field(AA, m.PatronID, true)
    case 2 => Field(AC, m.TerminalPassword, true)
    case 3 => Field(AD, m.PatronPassword, true)
  }

  /** The tags Unmarshal asks ExtractFields for. */
  const Keys: seq<Tag> := [AY, AO, AA, AC, AD]

  function Prefix(m: PatronStatus): string
  {
    Code + Pad(m.Language, 3) + Format(m.TransactionDate)
  }

  function Marshal(m: PatronStatus, d: char, t: char, ed: bool): (r: string)
    ensures |r| > 2 && r[..2] == Code
    ensures Fits(m) ==> |r| > 23 && r[2..5] == Pad(m.Language, 3) && r[5..23] == Format(m.TransactionDate)
    ensures Fits(m) ==> r[23..] == Coded(Fields(m), d) + Epilogue(r[..23] + Coded(Fields(m), d), m.SeqNum, ed) + [t]
  {
    if Fits(m) then
      PadRoundTrip(m.Language, 3);
      Placed3(Code, Pad(m.Language, 3), Format(m.TransactionDate), Coded(Fields(m), d), m.SeqNum, ed, t, 2, 5, 23);
      Frame(Prefix(m) + Coded(Fields(m), d), m.SeqNum, ed, t)
    else
      Framed3(Code, Pad(m.Language, 3), Format(m.TransactionDate), Coded(Fields(m), d), m.SeqNum, ed, t);
      Frame(Prefix(m) + Coded(Fields(m), d), m.SeqNum, ed, t)
  }

  /** The message built from the fixed prefix and the extracted codes. */
  function FromCodes(language: int, transactionDate: Date, codes: map<Tag, string>): PatronStatus
  {
    PatronStatus(
      language, transactionDate,
      Get(codes, AO), Get(codes, AA), Get(codes, AC), Get(codes, AD),
      SeqNumOf(Get(codes, AY)))
  }

  /**
   * Unmarshal: a language that is not a number is reported before a bad
   * date; the result of the validation is returned.
   */
  function Unmarshal(line: string, d: char, bad: string): (r: Result<PatronStatus>)
    ensures |line| < 35 || line[..2] != Code ==> r == Err(InvalidMessage(Code))
    ensures |line| >= 35 && line[..2] == Code && Atoi(line[2..5]).Err? ==> r == Err(Atoi(line[2..5]).error)
    ensures r.Ok? ==> Valid(r.value, bad) && Ok(r.value.Language) == Atoi(line[2..5])
    ensures r.Ok? ==> Format(r.value.TransactionDate) == line[5..23]
  {
    if |line| < 35 || line[..2] != Code then Err(InvalidMessage(Code))
    else
      var codes := Extract(line[23..], d, Init(Keys));
      match Atoi(line[2..5])
      case Err(e) => Err(e)
      case Ok(language) =>
        match Parse(line[5..23])
        case Err(e) => Err(e)
        case Ok(transactionDate) =>
          FormatParse(line[5..23]);
          var m := FromCodes(language, transactionDate, codes);
          if Valid(m, bad) then Ok(m) else Err(ValidationFailed(Code))
  }

  /** The fixed prefix of a valid message's encoding parses back. */
  lemma MarshalPrefix(m: PatronStatus, d: char, t: char, ed: bool, bad: string)
    requires Valid(m, bad)
    ensures var line := Marshal(m, d, t, ed);
      Atoi(line[2..5]) == Ok(m.Language) && Parse(line[5..23]) == Ok(m.TransactionDate)
  {
    assert Fits(m);
    ParseFormat(m.TransactionDate);
    PadRoundTrip(m.Language, 3);
  }

  lemma CleanFields(m: PatronStatus, d: char, bad: string)
    requires Valid(m, bad) && d in bad && DelimiterSafe(d)
    ensures Clean(Fields(m), d)
  {
  }

  lemma FieldsTagged(m: PatronStatus)
    ensures forall i | 0 <= i < 4 :: Fields(m)[i].tag != AY && Fields(m)[i].tag in Keys && Unique(Fields(m), i)
  {
  }

  /** Codes that read the fields back rebuild the message. */
  lemma ReadFields(m: PatronStatus, codes: map<Tag, string>)
    requires ReadsBack(Fields(m), Keys, codes)
    ensures FromCodes(m.Language, m.TransactionDate, codes) == m.(SeqNum := SeqNumOf(Get(codes, AY)))
  {
    FieldsTagged(m);
    var fs := Fields(m);
    assert Get(codes, AO) == Seen(fs[0]);
    assert Get(codes, AA) == Seen(fs[1]);
    assert Get(codes, AC) == Seen(fs[2]);
    assert Get(codes, AD) == Seen(fs[3]);
  }

  lemma MarshalFromCodes(m: PatronStatus, d: char, t: char, ed: bool, bad: string)
    requires Valid(m, bad) && d in bad && DelimiterSafe(d)
    ensures FromCodes(m.Language, m.TransactionDate, Extract(Marshal(m, d, t, ed)[23..], d, Init(Keys)))
      == if ed then m else m.(SeqNum := 0)
  {
    var codes := Extract(Marshal(m, d, t, ed)[23..], d, Init(Keys));
    assert Fits(m);
    FieldsTagged(m);
    CleanFields(m, d, bad);
    ReadLine(Fields(m), Keys, Marshal(m, d, t, ed), 23, m.SeqNum, ed, d, t);
    ReadFields(m, codes);
    SeqNumOfText(m.SeqNum, ed);
  }

  /** The four fields are always written, the two identifiers non-empty. */
  lemma MarshalLength(m: PatronStatus, d: char, t: char, ed: bool, bad: string)
    requires Valid(m, bad)
    ensures |Marshal(m, d, t, ed)| >= 37
  {
    assert Fits(m);
    CodedLength(Fields(m), d, [4, 4, 3, 3]);
  }

  /**
   * A valid message decodes to itself; without error detection the sequence
   * number comes back as 0.
   */
  lemma RoundTrip(m: PatronStatus, d: char, t: char, ed: bool, bad: string)
    requires Valid(m, bad) && d in bad && DelimiterSafe(d)
    ensures Unmarshal(Marshal(m, d, t, ed), d, bad) == Ok(if ed then m else m.(SeqNum := 0))
  {
    MarshalPrefix(m, d, t, ed, bad);
    MarshalLength(m, d, t, ed, bad);
    MarshalFromCodes(m, d, t, ed, bad);
  }
}
