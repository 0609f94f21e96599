/**
 * Item Information request (17): the terminal asks for what the circulation
 * system knows about an item.
 */
module RequestItemInfo {
  import opened Errors
  import opened Dates
  import opened Codes
  import opened Wire
  import Utils

  const Code: string := "17"

  datatype ItemInfo = ItemInfo(
    TransactionDate: Date,
    InstitutionID: string,
    ItemID: string,
    TerminalPassword: string,
    SeqNum: int)

  /** The validate tags of the struct. */
  predicate Valid(m: ItemInfo, bad: string)
  {
    && !IsZero(m.TransactionDate)
    && m.InstitutionID != "" && Utils.SipField(m.InstitutionID, bad)
    && m.ItemID != "" && Utils.SipField(m.ItemID, bad)
    && Utils.SipField(m.TerminalPassword, bad)
    && 0 <= m.SeqNum <= 9
  }

  /** The coded fields in the order Marshal writes them. */
  function Fields(m: ItemInfo): (fs: seq<Field>)
    ensures |fs| == 3
  {
    seq(3, i requires 0 <= i < 3 => FieldAt(m, i))
  }

  function FieldAt(m: ItemInfo, i: int): Field
    requires 0 <= i < 3
  {
    match i
    case 0 => Field(AO, m.InstitutionID, true)
    case 1 => Field(AB, m.ItemID, true)
    case 2 => Field(AC, m.TerminalPassword, m.TerminalPassword != "")
  }

  /** The tags Unmarshal asks ExtractFields for. */
  const Keys: seq<Tag> := [AY, AO, AB, AC]

  function Prefix(m: ItemInfo): (s: string)
    ensures |s| == 20
  {
    Code + Format(m.TransactionDate)
  }

  function Marshal(m: ItemInfo, d: char, t: char, ed: bool): (r: string)
    ensures |r| > 20 && r[..2] == Code && r[2..20] == Format(m.TransactionDate)
    ensures r[20..] == Coded(Fields(m), d) + Epilogue(r[..20] + Coded(Fields(m), d), m.SeqNum, ed) + [t]
  {
    Placed2(Code, Format(m.TransactionDate), Coded(Fields(m), d), m.SeqNum, ed, t, 2, 20);
    Frame(Prefix(m) + Coded(Fields(m), d), m.SeqNum, ed, t)
  }

  /** The message built from the fixed prefix and the extracted codes. */
  function FromCodes(transactionDate: Date, codes: map<Tag, string>): ItemInfo
  {
    ItemInfo(transactionDate, Get(codes, AO), Get(codes, AB), Get(codes, AC), SeqNumOf(Get(codes, AY)))
  }

  /**
   * Unmarshal: the result of the validation is dropped, so every line of the
   * right code and length whose date parses is accepted.
   */
  function Unmarshal(line: string, d: char, bad: string): (r: Result<ItemInfo>)
    ensures |line| < 29 || line[..2] != Code ==> r == Err(InvalidMessage(Code))
    ensures |line| >= 29 && line[..2] == Code && Parse(line[2..20]).Ok? ==> r.Ok?
    ensures r.Ok? ==> Format(r.value.TransactionDate) == line[2..20]
  {
    if |line| < 29 || line[..2] != Code then Err(InvalidMessage(Code))
    else
      var codes := Extract(line[20..], d, Init(Keys));
      match Parse(line[2..20])
      case Err(e) => Err(e)
      case Ok(transactionDate) =>
        FormatParse(line[2..20]);
        Ok(FromCodes(transactionDate, codes))
  }

  lemma CleanFields(m: ItemInfo, d: char, bad: string)
    requires Valid(m, bad) && d in bad && DelimiterSafe(d)
    ensures Clean(Fields(m), d)
  {
  }

  lemma FieldsTagged(m: ItemInfo)
    ensures forall i | 0 <= i < 3 :: Fields(m)[i].tag != AY && Fields(m)[i].tag in Keys && Unique(Fields(m), i)
  {
  }

  /** Codes that read the fields back rebuild the message. */
  lemma ReadFields(m: ItemInfo, codes: map<Tag, string>)
    requires ReadsBack(Fields(m), Keys, codes)
    ensures FromCodes(m.TransactionDate, codes) == m.(SeqNum := SeqNumOf(Get(codes, AY)))
  {
    FieldsTagged(m);
    var fs := Fields(m);
    assert Get(codes, AO) == Seen(fs[0]);
    assert Get(codes, AB) == Seen(fs[1]);
    assert Get(codes, AC) == Seen(fs[2]);
  }

  lemma MarshalFromCodes(m: ItemInfo, d: char, t: char, ed: bool, bad: string)
    requires Valid(m, bad) && d in bad && DelimiterSafe(d)
    ensures FromCodes(m.TransactionDate, Extract(Marshal(m, d, t, ed)[20..], d, Init(Keys)))
      == if ed then m else m.(SeqNum := 0)
  {
    var codes := Extract(Marshal(m, d, t, ed)[20..], d, Init(Keys));
    FieldsTagged(m);
    CleanFields(m, d, bad);
    ReadLine(Fields(m), Keys, Marshal(m, d, t, ed), 20, m.SeqNum, ed, d, t);
    ReadFields(m, codes);
    SeqNumOfText(m.SeqNum, ed);
  }

  /** The two identifiers a valid message always writes are not empty. */
  lemma MarshalLength(m: ItemInfo, d: char, t: char, ed: bool, bad: string)
    requires Valid(m, bad)
    ensures |Marshal(m, d, t, ed)| >= 29
  {
    CodedLength(Fields(m), d, [4, 4, 0]);
  }

  /**
   * A valid message decodes to itself; without error detection the sequence
   * number comes back as 0.
   */
  lemma RoundTrip(m: ItemInfo, d: char, t: char, ed: bool, bad: string)
    requires Valid(m, bad) && d in bad && DelimiterSafe(d)
    ensures Unmarshal(Marshal(m, d, t, ed), d, bad) == Ok(if ed then m else m.(SeqNum := 0))
  {
    ParseFormat(m.TransactionDate);
    MarshalLength(m, d, t, ed, bad);
    MarshalFromCodes(m, d, t, ed, bad);
  }
}
