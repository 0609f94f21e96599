/**
 * Patron Enable request (25): the terminal asks the circulation system to
 * re-enable a cancelled patron; meant for system testing.
 */
module RequestPatronEnable {
  import opened Errors
  import opened Dates
  import opened Codes
  import opened Wire
  import Utils

  const Code: string := "25"

  /** The shortest line Unmarshal accepts; shorter than many encodings of valid messages. */
  const MinLength: nat := 52

  datatype PatronEnable = PatronEnable(
    TransactionDate: Date,
    InstitutionID: string,
    PatronID: string,
    TerminalPassword: string,
    PatronPassword: string,
    SeqNum: int)

  /** The validate tags of the struct. */
  predicate Valid(m: PatronEnable, bad: string)
  {
    && !IsZero(m.TransactionDate)
    && m.InstitutionID != "" && Utils.SipField(m.InstitutionID, bad)
    && m.PatronID != "" && Utils.SipField(m.PatronID, bad)
    && Utils.SipField(m.TerminalPassword, bad)
    && Utils.SipField(m.PatronPassword, bad)
    && 0 <= m.SeqNum <= 9
  }

  /** The coded fields in the order Marshal writes them. */
  function Fields(m: PatronEnable): (fs: seq<Field>)
    ensures |fs| == 4
  {
    seq(4, i requires 0 <= i < 4 => FieldAt(m, i))
  }

  function FieldAt(m: PatronEnable, i: int): Field
    requires 0 <= i < 4
  {
    match i
    case 0 => Field(AO, m.InstitutionID, true)
    case 1 => Field(AA, m.PatronID, true)
    case 2 => Field(AC, m.TerminalPassword, m.TerminalPassword != "")
    case 3 => Field(AD, m.PatronPassword, m.PatronPassword != "")
  }

  /** The tags Unmarshal asks ExtractFields for. */
  const Keys: seq<Tag> := [AY, AO, AA, AC, AD]

  function Prefix(m: PatronEnable): (s: string)
    ensures |s| == 20
  {
    Code + Format(m.TransactionDate)
  }

  function Marshal(m: PatronEnable, d: char, t: char, ed: bool): (r: string)
    ensures |r| > 20 && r[..2] == Code && r[2..20] == Format(m.TransactionDate)
    ensures r[20..] == Coded(Fields(m), d) + Epilogue(r[..20] + Coded(Fields(m), d), m.SeqNum, ed) + [t]
  {
    Placed2(Code, Format(m.TransactionDate), Coded(Fields(m), d), m.SeqNum, ed, t, 2, 20);
    Frame(Prefix(m) + Coded(Fields(m), d), m.SeqNum, ed, t)
  }

  /** The message built from the fixed prefix and the extracted codes. */
  function FromCodes(transactionDate: Date, codes: map<Tag, string>): PatronEnable
  {
    PatronEnable(
      transactionDate, Get(codes, AO), Get(codes, AA), Get(codes, AC), Get(codes, AD),
      SeqNumOf(Get(codes, AY)))
  }

  /**
   * Unmarshal: the result of the validation is dropped, so every line of the
   * right code and length whose date parses is accepted.
   */
  function Unmarshal(line: string, d: char, bad: string): (r: Result<PatronEnable>)
    ensures |line| < MinLength || line[..2] != Code ==> r == Err(InvalidMessage(Code))
    ensures |line| >= MinLength && line[..2] == Code && Parse(line[2..20]).Ok? ==> r.Ok?
    ensures r.Ok? ==> Format(r.value.TransactionDate) == line[2..20]
  {
    if |line| < MinLength || line[..2] != Code then Err(InvalidMessage(Code))
    else
      var codes := Extract(line[20..], d, Init(Keys));
      match Parse(line[2..20])
      case Err(e) => Err(e)
      case Ok(transactionDate) =>
        FormatParse(line[2..20]);
        Ok(FromCodes(transactionDate, codes))
  }

  lemma CleanFields(m: PatronEnable, d: char, bad: string)
    requires Valid(m, bad) && d in bad && DelimiterSafe(d)
    ensures Clean(Fields(m), d)
  {
  }

  lemma FieldsTagged(m: PatronEnable)
    ensures forall i | 0 <= i < 4 :: Fields(m)[i].tag != AY && Fields(m)[i].tag in Keys && Unique(Fields(m), i)
  {
  }

  /** Codes that read the fields back rebuild the message. */
  lemma ReadFields(m: PatronEnable, codes: map<Tag, string>)
    requires ReadsBack(Fields(m), Keys, codes)
    ensures FromCodes(m.TransactionDate, codes) == m.(SeqNum := SeqNumOf(Get(codes, AY)))
  {
    FieldsTagged(m);
    var fs := Fields(m);
    assert Get(codes, AO) == Seen(fs[0]);
    assert Get(codes, AA) == Seen(fs[1]);
    assert Get(codes, AC) == Seen(fs[2]);
    assert Get(codes, AD) == Seen(fs[3]);
  }

  lemma MarshalFromCodes(m: PatronEnable, d: char, t: char, ed: bool, bad: string)
    requires Valid(m, bad) && d in bad && DelimiterSafe(d)
    ensures FromCodes(m.TransactionDate, Extract(Marshal(m, d, t, ed)[20..], d, Init(Keys)))
      == if ed then m else m.(SeqNum := 0)
  {
    var codes := Extract(Marshal(m, d, t, ed)[20..], d, Init(Keys));
    FieldsTagged(m);
    CleanFields(m, d, bad);
    ReadLine(Fields(m), Keys, Marshal(m, d, t, ed), 20, m.SeqNum, ed, d, t);
    ReadFields(m, codes);
    SeqNumOfText(m.SeqNum, ed);
  }

  /**
   * A valid message decodes to itself (with sequence number 0 without error
   * detection) exactly when its encoding reaches the minimum length; a
   * shorter encoding is rejected.
   */
  lemma RoundTrip(m: PatronEnable, d: char, t: char, ed: bool, bad: string)
    requires Valid(m, bad) && d in bad && DelimiterSafe(d)
    ensures Unmarshal(Marshal(m, d, t, ed), d, bad)
      == if |Marshal(m, d, t, ed)| < MinLength then Err(InvalidMessage(Code))
         else Ok(if ed then m else m.(SeqNum := 0))
  {
    ParseFormat(m.TransactionDate);
    MarshalFromCodes(m, d, t, ed, bad);
  }

  /**
   * Some valid messages encode to fewer runes than the minimum, and so do
   * not decode: one-rune identifiers, no passwords, no error detection.
   */
  lemma ShortEncodingRejected(date: Date, d: char, t: char, bad: string)
    requires !IsZero(date) && d in bad && DelimiterSafe(d) && 'I' !in bad && 'P' !in bad
    ensures var m := PatronEnable(date, "I", "P", "", "", 0);
      && Valid(m, bad) && |Marshal(m, d, t, false)| == 29
      && Unmarshal(Marshal(m, d, t, false), d, bad) == Err(InvalidMessage(Code))
  {
    var m := PatronEnable(date, "I", "P", "", "", 0);
    var fs := Fields(m);
    CodedStep(fs, d, 0);
    CodedStep(fs, d, 1);
    CodedStep(fs, d, 2);
    CodedStep(fs, d, 3);
    assert fs[4..] == [];
    assert |Coded(fs, d)| == 8 by { assert fs[0..] == fs; }
    FrameBare(Prefix(m) + Coded(Fields(m), d), 0, t);
  }
}
