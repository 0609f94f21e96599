/**
 * Checkin response (10): the ACS says whether the item was checked in and
 * where it belongs.
 */
module ResponseCheckin {
  import opened Errors
  import opened Dates
  import opened Codes
  import opened Wire
  import Utils

  const Code: string := "10"

  datatype Checkin = Checkin(
    Ok: bool,
    Resensitize: bool,
    MagneticMedia: bool,
    Alert: bool,
    TransactionDate: Date,
    InstitutionID: string,
    ItemID: string,
    PermanentLocation: string,
    TitleID: string,
    SortBin: string,
    PatronID: string,
    MediaType: string,
    ItemProperties: string,
    ScreenMessage: string,
    PrintLine: string,
    SeqNum: int)

  /**
   * The validate tags of the struct, and Validate's own rule that a media
   * type, when present, has exactly three runes.
   */
  predicate Valid(m: Checkin, bad: string)
  {
    && !IsZero(m.TransactionDate)
    && m.InstitutionID != "" && Utils.SipField(m.InstitutionID, bad)
    && m.ItemID != "" && Utils.SipField(m.ItemID, bad)
    && m.PermanentLocation != "" && Utils.SipField(m.PermanentLocation, bad)
    && Utils.SipField(m.TitleID, bad)
    && Utils.SipField(m.SortBin, bad)
    && Utils.SipField(m.PatronID, bad)
    && (m.MediaType == "" || |m.MediaType| == 3) && Utils.SipField(m.MediaType, bad)
    && Utils.SipField(m.ItemProperties, bad)
    && Utils.SipField(m.ScreenMessage, bad)
    && Utils.SipField(m.PrintLine, bad)
    && 0 <= m.SeqNum <= 9
  }

  /** Resetting the sequence number keeps a message valid. */
  lemma ValidSeqNum(m: Checkin, bad: string)
    requires Valid(m, bad)
    ensures Valid(m.(SeqNum := 0), bad)
  {
  }

  /** The coded fields in the order Marshal writes them; the media type only when it has three runes. */
  function Fields(m: Checkin): (fs: seq<Field>)
    ensures |fs| == 10
  {
    seq(10, i requires 0 <= i < 10 => FieldAt(m, i))
  }

  function FieldAt(m: Checkin, i: int): Field
    requires 0 <= i < 10
  {
    match i
    case 0 => Field(AO, m.InstitutionID, true)
    case 1 => Field(AB, m.ItemID, true)
    case 2 => Field(AQ, m.PermanentLocation, true)
    case 3 => Field(AJ, m.TitleID, m.TitleID != "")
    case 4 => Field(CL, m.SortBin, m.SortBin != "")
    case 5 => Field(AA, m.PatronID, m.PatronID != "")
    case 6 => Field(CK, m.MediaType, |m.MediaType| == 3)
    case 7 => Field(CH, m.ItemProperties, m.ItemProperties != "")
    case 8 => Field(AF, m.ScreenMessage, m.ScreenMessage != "")
    case 9 => Field(AG, m.PrintLine, m.PrintLine != "")
  }

  /** The tags Unmarshal asks ExtractFields for. */
  const Keys: seq<Tag> := [AY, AO, AB, AQ, AJ, CL, AA, CK, CH, AF, AG]

  /** The four flags after the code: Ok as "1" or "0", the three others as "Y" or "N". */
  function FlagText(m: Checkin): (s: string)
    ensures |s| == 4
  {
    Utils.ZeroOrOne(m.Ok) + Utils.YorN(m.Resensitize) + Utils.YorN(m.MagneticMedia) + Utils.YorN(m.Alert)
  }

  /** The flag text reads back as the four flags. */
  lemma ReadFlagText(m: Checkin)
    ensures FlagRunes(FlagText(m), 0, 4) == [m.Ok, m.Resensitize, m.MagneticMedia, m.Alert]
  {
    FlagRunesOf(FlagText(m), 0, [m.Ok, m.Resensitize, m.MagneticMedia, m.Alert]);
  }

  function Marshal(m: Checkin, d: char, t: char, ed: bool): (r: string)
    ensures |r| > 24 && r[..2] == Code && r[2..6] == FlagText(m) && r[6..24] == Format(m.TransactionDate)
    ensures r[24..] == Coded(Fields(m), d) + Epilogue(r[..24] + Coded(Fields(m), d), m.SeqNum, ed) + [t]
  {
    Placed3(Code, FlagText(m), Format(m.TransactionDate), Coded(Fields(m), d), m.SeqNum, ed, t, 2, 6, 24);
    Frame(Code + FlagText(m) + Format(m.TransactionDate) + Coded(Fields(m), d), m.SeqNum, ed, t)
  }

  /** The message built from the fixed prefix and the extracted codes. */
  function FromCodes(flags: seq<bool>, transactionDate: Date, codes: map<Tag, string>): Checkin
    requires |flags| == 4
  {
    Checkin(
      flags[0], flags[1], flags[2], flags[3], transactionDate,
      Get(codes, AO), Get(codes, AB), Get(codes, AQ), Get(codes, AJ), Get(codes, CL), Get(codes, AA),
      ThreeOf(Get(codes, CK)), Get(codes, CH), Get(codes, AF), Get(codes, AG),
      SeqNumOf(Get(codes, AY)))
  }

  /** Everything Unmarshal does between the length check and validation. */
  function Decode(line: string, d: char): (r: Result<Checkin>)
    requires |line| >= 24
    ensures r.Ok? ==> r.value.Ok == Utils.ParseBool(line[2]) && r.value.Alert == Utils.ParseBool(line[5])
    ensures r.Ok? ==> Format(r.value.TransactionDate) == line[6..24]
  {
    match Parse(line[6..24])
    case Err(e) => Err(e)
    case Ok(transactionDate) =>
      FormatParse(line[6..24]);
      Ok(FromCodes(FlagRunes(line, 2, 4), transactionDate, Extract(line[24..], d, Init(Keys))))
  }

  /**
   * Unmarshal: a media type without exactly three runes is dropped; a bad
   * transaction date is reported first; the result of the validation is
   * returned.
   */
  function Unmarshal(line: string, d: char, bad: string): (r: Result<Checkin>)
    ensures |line| < 30 || line[..2] != Code ==> r == Err(InvalidMessage(Code))
    ensures r.Ok? ==> Valid(r.value, bad) && r.value.Ok == Utils.ParseBool(line[2])
    ensures r.Ok? ==> Format(r.value.TransactionDate) == line[6..24]
  {
    if |line| < 30 || line[..2] != Code then Err(InvalidMessage(Code))
    else
      match Decode(line, d)
      case Err(e) => Err(e)
      case Ok(m) => if Valid(m, bad) then Ok(m) else Err(ValidationFailed(Code))
  }

  /** The fixed prefix of an encoding parses back. */
  lemma MarshalPrefix(m: Checkin, d: char, t: char, ed: bool)
    ensures var line := Marshal(m, d, t, ed);
      && FlagRunes(line, 2, 4) == [m.Ok, m.Resensitize, m.MagneticMedia, m.Alert]
      && Parse(line[6..24]) == Ok(m.TransactionDate)
  {
    var line := Marshal(m, d, t, ed);
    ParseFormat(m.TransactionDate);
    FlagRunesText(line, 2, FlagText(m));
    ReadFlagText(m);
  }

  lemma CleanFields(m: Checkin, d: char, bad: string)
    requires Valid(m, bad) && d in bad
    ensures Clean(Fields(m), d)
  {
  }

  lemma FieldsTagged(m: Checkin)
    ensures forall i | 0 <= i < 10 :: Fields(m)[i].tag != AY && Fields(m)[i].tag in Keys && Unique(Fields(m), i)
  {
  }

  /** Codes that read the fields back hold each written field's value. */
  lemma ReadAt(m: Checkin, codes: map<Tag, string>, i: int)
    requires ReadsBack(Fields(m), Keys, codes) && 0 <= i < 10
    ensures Get(codes, FieldAt(m, i).tag) == Seen(FieldAt(m, i))
  {
    FieldsTagged(m);
    assert Fields(m)[i] == FieldAt(m, i);
  }

  /** Codes that read the fields back rebuild a valid message. */
  lemma ReadFields(m: Checkin, codes: map<Tag, string>, bad: string)
    requires Valid(m, bad) && ReadsBack(Fields(m), Keys, codes)
    ensures FromCodes([m.Ok, m.Resensitize, m.MagneticMedia, m.Alert], m.TransactionDate, codes)
      == m.(SeqNum := SeqNumOf(Get(codes, AY)))
  {
    ReadAt(m, codes, 0);
    ReadAt(m, codes, 1);
    ReadAt(m, codes, 2);
    ReadAt(m, codes, 3);
    ReadAt(m, codes, 4);
    ReadAt(m, codes, 5);
    ReadAt(m, codes, 6);
    ReadAt(m, codes, 7);
    ReadAt(m, codes, 8);
    ReadAt(m, codes, 9);
  }

  /** The encoding of a valid message decodes back to it. */
  lemma MarshalDecodes(m: Checkin, d: char, t: char, ed: bool, bad: string)
    requires Valid(m, bad) && d in bad && DelimiterSafe(d)
    ensures |Marshal(m, d, t, ed)| >= 24
    ensures Decode(Marshal(m, d, t, ed), d) == Ok(if ed then m else m.(SeqNum := 0))
  {
    var line := Marshal(m, d, t, ed);
    var codes := Extract(line[24..], d, Init(Keys));
    MarshalPrefix(m, d, t, ed);
    FieldsTagged(m);
    CleanFields(m, d, bad);
    ReadLine(Fields(m), Keys, line, 24, m.SeqNum, ed, d, t);
    ReadFields(m, codes, bad);
    SeqNumOfText(m.SeqNum, ed);
  }

  /** The three identifiers a valid message always writes are not empty. */
  lemma MarshalLength(m: Checkin, d: char, t: char, ed: bool, bad: string)
    requires Valid(m, bad)
    ensures |Marshal(m, d, t, ed)| >= 37
  {
    var fs := Fields(m);
    CodedPicks(fs, d, [0, 1, 2], 0);
    assert fs[0..] == fs;
    assert PickedLength(fs, [2]) == |m.PermanentLocation| + 3;
    assert [0, 1, 2][1..] == [1, 2] && [1, 2][1..] == [2];
  }

  /**
   * A valid message decodes to itself; without error detection the sequence
   * number comes back as 0.
   */
  lemma RoundTrip(m: Checkin, d: char, t: char, ed: bool, bad: string)
    requires Valid(m, bad) && d in bad && DelimiterSafe(d)
    ensures Unmarshal(Marshal(m, d, t, ed), d, bad) == Ok(if ed then m else m.(SeqNum := 0))
  {
    MarshalLength(m, d, t, ed, bad);
    MarshalDecodes(m, d, t, ed, bad);
    ValidSeqNum(m, bad);
  }
}
