/**
 * Checkout response (12) and Renew response (30): the ACS says whether the
 * item was checked out or renewed, and when it is due. The two messages have
 * the same fields and the same layout; only the code differs.
 */
module ResponseCheckout {
  import opened Errors
  import opened Numbers
  import opened Dates
  import opened Codes
  import opened Wire
  import Utils

  const CheckoutCode: string := "12"
  const RenewCode: string := "30"

  /** The two codes that share this layout. */
  predicate IsCode(code: string)
  {
    code == CheckoutCode || code == RenewCode
  }

  datatype Checkout = Checkout(
    Ok: bool,
    RenewalOk: bool,
    MagneticMedia: bool,
    Desensitize: bool,
    TransactionDate: Date,
    InstitutionID: string,
    PatronID: string,
    ItemID: string,
    TitleID: string,
    DueDate: string,
    FeeType: int,
    SecurityInhibit: bool,
    CurrencyType: string,
    FeeAmount: string,
    MediaType: string,
    ItemProperties: string,
    TransactionID: string,
    ScreenMessage: string,
    PrintLine: string,
    SeqNum: int)

  /**
   * The validate tags of the struct, and Validate's own rule that a currency
   * type and a media type, when present, have exactly three runes.
   */
  predicate Valid(m: Checkout, bad: string)
  {
    && !IsZero(m.TransactionDate)
    && m.InstitutionID != "" && Utils.SipField(m.InstitutionID, bad)
    && m.PatronID != "" && Utils.SipField(m.PatronID, bad)
    && m.ItemID != "" && Utils.SipField(m.ItemID, bad)
    && Utils.SipField(m.TitleID, bad)
    && m.DueDate != "" && Utils.SipField(m.DueDate, bad)
    && 0 <= m.FeeType <= 99
    && (m.CurrencyType == "" || |m.CurrencyType| == 3) && Utils.SipField(m.CurrencyType, bad)
    && Utils.SipField(m.FeeAmount, bad)
    && (m.MediaType == "" || |m.MediaType| == 3) && Utils.SipField(m.MediaType, bad)
    && Utils.SipField(m.ItemProperties, bad)
    && Utils.SipField(m.TransactionID, bad)
    && Utils.SipField(m.ScreenMessage, bad)
    && Utils.SipField(m.PrintLine, bad)
    && 0 <= m.SeqNum <= 9
  }

  /** Resetting the sequence number keeps a message valid. */
  lemma ValidSeqNum(m: Checkout, bad: string)
    requires Valid(m, bad)
    ensures Valid(m.(SeqNum := 0), bad)
  {
  }

  /**
   * The coded fields in the order Marshal writes them: the fee type as two
   * digits and only when positive; the currency and media types only when
   * they have three runes.
   */
  function Fields(m: Checkout): (fs: seq<Field>)
    ensures |fs| == 14
  {
    seq(14, i requires 0 <= i < 14 => FieldAt(m, i))
  }

  function FieldAt(m: Checkout, i: int): Field
    requires 0 <= i < 14
  {
    match i
    case 0 => Field(AO, m.InstitutionID, true)
    case 1 => Field(AA, m.PatronID, true)
    case 2 => Field(AB, m.ItemID, true)
    case 3 => Field(AJ, m.TitleID, true)
    case 4 => Field(AH, m.DueDate, true)
    case 5 => Field(BT, Pad(m.FeeType, 2), m.FeeType > 0)
    case 6 => Field(CI, Utils.YorN(m.SecurityInhibit), true)
    case 7 => Field(BH, m.CurrencyType, |m.CurrencyType| == 3)
    case 8 => Field(BV, m.FeeAmount, m.FeeAmount != "")
    case 9 => Field(CK, m.MediaType, |m.MediaType| == 3)
    case 10 => Field(CH, m.ItemProperties, m.ItemProperties != "")
    case 11 => Field(BK, m.TransactionID, m.TransactionID != "")
    case 12 => Field(AF, m.ScreenMessage, m.ScreenMessage != "")
    case 13 => Field(AG, m.PrintLine, m.PrintLine != "")
  }

  /** The tags Unmarshal asks ExtractFields for. */
  const Keys: seq<Tag> := [AY, AO, AA, AB, AJ, AH, BT, CI, BH, BV, CK, CH, BK, AF, AG]

  /** The four flags after the code: Ok as "1" or "0", the three others as "Y" or "N". */
  function FlagText(m: Checkout): (s: string)
    ensures |s| == 4
  {
    Utils.ZeroOrOne(m.Ok) + Utils.YorN(m.RenewalOk) + Utils.YorN(m.MagneticMedia) + Utils.YorN(m.Desensitize)
  }

  /** The flag text reads back as the four flags. */
  lemma ReadFlagText(m: Checkout)
    ensures FlagRunes(FlagText(m), 0, 4) == [m.Ok, m.RenewalOk, m.MagneticMedia, m.Desensitize]
  {
    FlagRunesOf(FlagText(m), 0, [m.Ok, m.RenewalOk, m.MagneticMedia, m.Desensitize]);
  }

  function Marshal(m: Checkout, code: string, d: char, t: char, ed: bool): (r: string)
    requires IsCode(code)
    ensures |r| > 24 && r[..2] == code && r[2..6] == FlagText(m) && r[6..24] == Format(m.TransactionDate)
    ensures r[24..] == Coded(Fields(m), d) + Epilogue(r[..24] + Coded(Fields(m), d), m.SeqNum, ed) + [t]
  {
    Placed3(code, FlagText(m), Format(m.TransactionDate), Coded(Fields(m), d), m.SeqNum, ed, t, 2, 6, 24);
    Frame(code + FlagText(m) + Format(m.TransactionDate) + Coded(Fields(m), d), m.SeqNum, ed, t)
  }

  /** The message built from the fixed prefix, the decoded fee type and the extracted codes. */
  function Build(flags: seq<bool>, transactionDate: Date, feeType: int, codes: map<Tag, string>): Checkout
    requires |flags| == 4
  {
    Checkout(
      flags[0], flags[1], flags[2], flags[3], transactionDate,
      Get(codes, AO), Get(codes, AA), Get(codes, AB), Get(codes, AJ), Get(codes, AH),
      feeType, FlagOf(Get(codes, CI)), ThreeOf(Get(codes, BH)), Get(codes, BV), ThreeOf(Get(codes, CK)),
      Get(codes, CH), Get(codes, BK), Get(codes, AF), Get(codes, AG),
      SeqNumOf(Get(codes, AY)))
  }

  /** The message built from the fixed prefix and the extracted codes: a fee type that is present but not a number is an error. */
  function FromCodes(flags: seq<bool>, transactionDate: Date, codes: map<Tag, string>): (r: Result<Checkout>)
    requires |flags| == 4
    ensures NumberOf(Get(codes, BT), 0).Err? ==> r == Err(NumberOf(Get(codes, BT), 0).error)
    ensures r.Ok? ==> Ok(r.value.FeeType) == NumberOf(Get(codes, BT), 0)
  {
    match NumberOf(Get(codes, BT), 0)
    case Err(e) => Err(e)
    case Ok(feeType) => Ok(Build(flags, transactionDate, feeType, codes))
  }

  /** Everything Unmarshal does between the length check and validation. */
  function Decode(line: string, d: char): (r: Result<Checkout>)
    requires |line| >= 24
    ensures r.Ok? ==> r.value.Ok == Utils.ParseBool(line[2]) && Format(r.value.TransactionDate) == line[6..24]
  {
    match Parse(line[6..24])
    case Err(e) => Err(e)
    case Ok(transactionDate) =>
      FormatParse(line[6..24]);
      FromCodes(FlagRunes(line, 2, 4), transactionDate, Extract(line[24..], d, Init(Keys)))
  }

  /**
   * Unmarshal for either code: currency and media types without exactly three
   * runes are dropped; a bad transaction date, then a bad fee type, is
   * reported first; the result of the validation is returned.
   */
  function Unmarshal(line: string, code: string, d: char, bad: string): (r: Result<Checkout>)
    requires IsCode(code)
    ensures |line| < 39 || line[..2] != code ==> r == Err(InvalidMessage(code))
    ensures r.Ok? ==> Valid(r.value, bad) && r.value.Ok == Utils.ParseBool(line[2])
    ensures r.Ok? ==> Format(r.value.TransactionDate) == line[6..24]
  {
    if |line| < 39 || line[..2] != code then Err(InvalidMessage(code))
    else
      match Decode(line, d)
      case Err(e) => Err(e)
      case Ok(m) => if Valid(m, bad) then Ok(m) else Err(ValidationFailed(code))
  }

  /** The fixed prefix of an encoding parses back. */
  lemma MarshalPrefix(m: Checkout, code: string, d: char, t: char, ed: bool)
    requires IsCode(code)
    ensures var line := Marshal(m, code, d, t, ed);
      && FlagRunes(line, 2, 4) == [m.Ok, m.RenewalOk, m.MagneticMedia, m.Desensitize]
      && Parse(line[6..24]) == Ok(m.TransactionDate)
  {
    ParseFormat(m.TransactionDate);
    FlagRunesText(Marshal(m, code, d, t, ed), 2, FlagText(m));
    ReadFlagText(m);
  }

  lemma CleanFields(m: Checkout, d: char, bad: string)
    requires Valid(m, bad) && d in bad && DelimiterSafe(d)
    ensures Clean(Fields(m), d)
  {
    PaddedClean(m.FeeType, 2, d);
  }

  lemma FieldsTagged(m: Checkout)
    ensures forall i | 0 <= i < 14 :: Fields(m)[i].tag != AY && Fields(m)[i].tag in Keys && Unique(Fields(m), i)
  {
    TagsOf(m);
    TagsDistinct();
    UniqueTags(Fields(m), Tags);
  }

  /** The tags of the coded fields, in the order Marshal writes them. */
  const Tags: seq<Tag> := [AO, AA, AB, AJ, AH, BT, CI, BH, BV, CK, CH, BK, AF, AG]

  lemma TagsOf(m: Checkout)
    ensures forall i | 0 <= i < 14 :: Fields(m)[i].tag == Tags[i] && Tags[i] != AY && Tags[i] in Keys
  {
  }

  lemma TagsDistinct()
    ensures Distinct(Tags)
  {
  }

  /** Codes that read the fields back hold each written field's value. */
  lemma ReadAt(m: Checkout, codes: map<Tag, string>, i: int)
    requires ReadsBack(Fields(m), Keys, codes) && 0 <= i < 14
    ensures Get(codes, FieldAt(m, i).tag) == Seen(FieldAt(m, i))
  {
    FieldsTagged(m);
    assert Fields(m)[i] == FieldAt(m, i);
  }

  /** Codes that read the fields back rebuild a valid message. */
  lemma ReadFields(m: Checkout, codes: map<Tag, string>, bad: string)
    requires Valid(m, bad) && ReadsBack(Fields(m), Keys, codes)
    ensures Get(codes, BT) == if m.FeeType > 0 then Pad(m.FeeType, 2) else ""
    ensures Build([m.Ok, m.RenewalOk, m.MagneticMedia, m.Desensitize], m.TransactionDate, m.FeeType, codes)
      == m.(SeqNum := SeqNumOf(Get(codes, AY)))
  {
    ReadAt(m, codes, 0);
    ReadAt(m, codes, 1);
    ReadAt(m, codes, 2);
    ReadAt(m, codes, 3);
    ReadAt(m, codes, 4);
    ReadAt(m, codes, 5);
    ReadAt(m, codes, 6);
    ReadAt(m, codes, 7);
    ReadAt(m, codes, 8);
    ReadAt(m, codes, 9);
    ReadAt(m, codes, 10);
    ReadAt(m, codes, 11);
    ReadAt(m, codes, 12);
    ReadAt(m, codes, 13);
  }

  /** The encoding of a valid message decodes back to it. */
  lemma MarshalDecodes(m: Checkout, code: string, d: char, t: char, ed: bool, bad: string)
    requires IsCode(code) && Valid(m, bad) && d in bad && DelimiterSafe(d)
    ensures |Marshal(m, code, d, t, ed)| >= 24
    ensures Decode(Marshal(m, code, d, t, ed), d) == Ok(if ed then m else m.(SeqNum := 0))
  {
    var line := Marshal(m, code, d, t, ed);
    var codes := Extract(line[24..], d, Init(Keys));
    MarshalPrefix(m, code, d, t, ed);
    FieldsTagged(m);
    CleanFields(m, d, bad);
    ReadLine(Fields(m), Keys, line, 24, m.SeqNum, ed, d, t);
    ReadFields(m, codes, bad);
    PaddedOfText(m.FeeType, 2);
    SeqNumOfText(m.SeqNum, ed);
  }

  /** The four identifiers a valid message always writes are not empty. */
  lemma CodedLeast(m: Checkout, d: char, bad: string)
    requires Valid(m, bad)
    ensures |Coded(Fields(m), d)| >= 16
  {
    var fs := Fields(m);
    var picks := [0, 1, 2, 4];
    assert fs[0].emit && fs[1].emit && fs[2].emit && fs[4].emit;
    assert forall k | 0 <= k < |picks| :: picks[k] < |fs| && fs[picks[k]].emit;
    CodedPicks(fs, d, picks, 0);
    PickedAtLeast(fs, picks);
    assert fs[0..] == fs;
  }

  lemma MarshalLength(m: Checkout, code: string, d: char, t: char, ed: bool, bad: string)
    requires IsCode(code) && Valid(m, bad)
    ensures |Marshal(m, code, d, t, ed)| >= 41
  {
    CodedLeast(m, d, bad);
  }

  /**
   * A valid message decodes to itself under either code; without error
   * detection the sequence number comes back as 0.
   */
  lemma RoundTrip(m: Checkout, code: string, d: char, t: char, ed: bool, bad: string)
    requires IsCode(code) && Valid(m, bad) && d in bad && DelimiterSafe(d)
    ensures Unmarshal(Marshal(m, code, d, t, ed), code, d, bad) == Ok(if ed then m else m.(SeqNum := 0))
  {
    MarshalLength(m, code, d, t, ed, bad);
    MarshalDecodes(m, code, d, t, ed, bad);
    ValidSeqNum(m, bad);
  }
}
