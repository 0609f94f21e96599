/**
 * Block Patron request (01): the terminal asks the circulation system to
 * block a patron's card, for instance after tampering was detected.
 */
module RequestBlockPatron {
  import opened Errors
  import opened Dates
  import opened Codes
  import opened Wire
  import Utils

  const Code: string := "01"

  datatype BlockPatron = BlockPatron(
    CardRetained: bool,
    TransactionDate: Date,
    InstitutionID: string,
    BlockedCardMsg: string,
    PatronID: string,
    TerminalPassword: string,
    SeqNum: int)

  /** The validate tags of the struct. */
  predicate Valid(m: BlockPatron, bad: string)
  {
    && !IsZero(m.TransactionDate)
    && m.InstitutionID != "" && Utils.SipField(m.InstitutionID, bad)
    && Utils.SipField(m.BlockedCardMsg, bad)
    && m.PatronID != "" && Utils.SipField(m.PatronID, bad)
    && Utils.SipField(m.TerminalPassword, bad)
    && 0 <= m.SeqNum <= 9
  }

  /** The coded fields in the order Marshal writes them; all four are always written. */
  function Fields(m: BlockPatron): (fs: seq<Field>)
    ensures |fs| == 4
  {
    seq(4, i requires 0 <= i < 4 => FieldAt(m, i))
  }

  function FieldAt(m: BlockPatron, i: int): Field
    requires 0 <= i < 4
  {
    match i
    case 0 => Field(AO, m.InstitutionID, true)
    case 1 => Field(AL, m.BlockedCardMsg, true)
    case 2 => Field(AA, m.PatronID, true)
    case 3 => Field(AC, m.TerminalPassword, true)
  }

  /** The tags Unmarshal asks ExtractFields for. */
  const Keys: seq<Tag> := [AY, AO, AL, AA, AC]

  function Prefix(m: BlockPatron): (s: string)
    ensures |s| == 21
  {
    Code + Utils.YorN(m.CardRetained) + Format(m.TransactionDate)
  }

  function Marshal(m: BlockPatron, d: char, t: char, ed: bool): (r: string)
    ensures |r| > 21 && r[..2] == Code && r[2..3] == Utils.YorN(m.CardRetained)
    ensures r[3..21] == Format(m.TransactionDate)
    ensures r[21..] == Coded(Fields(m), d) + Epilogue(r[..21] + Coded(Fields(m), d), m.SeqNum, ed) + [t]
  {
    Placed3(Code, Utils.YorN(m.CardRetained), Format(m.TransactionDate),
      Coded(Fields(m), d), m.SeqNum, ed, t, 2, 3, 21);
    Frame(Prefix(m) + Coded(Fields(m), d), m.SeqNum, ed, t)
  }

  /** The message built from the fixed prefix and the extracted codes. */
  function FromCodes(cardRetained: bool, transactionDate: Date, codes: map<Tag, string>): BlockPatron
  {
    BlockPatron(
      cardRetained, transactionDate,
      Get(codes, AO), Get(codes, AL), Get(codes, AA), Get(codes, AC),
      SeqNumOf(Get(codes, AY)))
  }

  function Unmarshal(line: string, d: char, bad: string): (r: Result<BlockPatron>)
    ensures |line| < 33 || line[..2] != Code ==> r == Err(InvalidMessage(Code))
    ensures r.Ok? ==> Valid(r.value, bad) && r.value.CardRetained == Utils.ParseBool(line[2])
    ensures r.Ok? ==> Format(r.value.TransactionDate) == line[3..21]
  {
    if |line| < 33 || line[..2] != Code then Err(InvalidMessage(Code))
    else
      var codes := Extract(line[21..], d, Init(Keys));
      match Parse(line[3..21])
      case Err(e) => Err(e)
      case Ok(transactionDate) =>
        FormatParse(line[3..21]);
        var m := FromCodes(Utils.ParseBool(line[2]), transactionDate, codes);
        if Valid(m, bad) then Ok(m) else Err(ValidationFailed(Code))
  }

  /** The fixed prefix of an encoding parses back. */
  lemma MarshalPrefix(m: BlockPatron, d: char, t: char, ed: bool)
    ensures var line := Marshal(m, d, t, ed);
      && Utils.ParseBool(line[2]) == m.CardRetained
      && Parse(line[3..21]) == Ok(m.TransactionDate)
  {
    ParseFormat(m.TransactionDate);
  }

  lemma CleanFields(m: BlockPatron, d: char, bad: string)
    requires Valid(m, bad) && d in bad && DelimiterSafe(d)
    ensures Clean(Fields(m), d)
  {
  }

  lemma FieldsTagged(m: BlockPatron)
    ensures forall i | 0 <= i < 4 :: Fields(m)[i].tag != AY && Fields(m)[i].tag in Keys && Unique(Fields(m), i)
  {
  }

  /** Codes that read the fields back rebuild the message. */
  lemma ReadFields(m: BlockPatron, codes: map<Tag, string>)
    requires ReadsBack(Fields(m), Keys, codes)
    ensures FromCodes(m.CardRetained, m.TransactionDate, codes) == m.(SeqNum := SeqNumOf(Get(codes, AY)))
  {
    FieldsTagged(m);
    var fs := Fields(m);
    assert Get(codes, AO) == Seen(fs[0]);
    assert Get(codes, AL) == Seen(fs[1]);
    assert Get(codes, AA) == Seen(fs[2]);
    assert Get(codes, AC) == Seen(fs[3]);
  }

  lemma MarshalFromCodes(m: BlockPatron, d: char, t: char, ed: bool, bad: string)
    requires Valid(m, bad) && d in bad && DelimiterSafe(d)
    ensures FromCodes(m.CardRetained, m.TransactionDate, Extract(Marshal(m, d, t, ed)[21..], d, Init(Keys)))
      == if ed then m else m.(SeqNum := 0)
  {
    var codes := Extract(Marshal(m, d, t, ed)[21..], d, Init(Keys));
    FieldsTagged(m);
    CleanFields(m, d, bad);
    ReadLine(Fields(m), Keys, Marshal(m, d, t, ed), 21, m.SeqNum, ed, d, t);
    ReadFields(m, codes);
    SeqNumOfText(m.SeqNum, ed);
  }

  /** The four fields that are always written take at least twelve runes. */
  lemma MarshalLength(m: BlockPatron, d: char, t: char, ed: bool)
    ensures |Marshal(m, d, t, ed)| >= 33
  {
    CodedLength(Fields(m), d, [3, 3, 3, 3]);
  }

  /**
   * A valid message decodes to itself; without error detection the sequence
   * number comes back as 0.
   */
  lemma RoundTrip(m: BlockPatron, d: char, t: char, ed: bool, bad: string)
    requires Valid(m, bad) && d in bad && DelimiterSafe(d)
    ensures Unmarshal(Marshal(m, d, t, ed), d, bad) == Ok(if ed then m else m.(SeqNum := 0))
  {
    MarshalPrefix(m, d, t, ed);
    MarshalLength(m, d, t, ed);
    MarshalFromCodes(m, d, t, ed, bad);
  }
}
