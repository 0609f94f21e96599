/**
 * ACS Status response (98): the ACS answers an SC Status request with its
 * policy flags, timeouts, clock, protocol version and the messages it
 * supports.
 */
module ResponseACSStatus {
  import opened Errors
  import opened Numbers
  import opened Dates
  import opened Codes
  import opened Wire
  import Utils
  import FieldsSupportedMessages
  import Flags

  const Code: string := "98"

  /** The only protocol version the validate tags accept. */
  const ProtocolVersion2: string := "2.00"

  datatype ACSStatus = ACSStatus(
    OnlineStatus: bool,
    CheckinOK: bool,
    CheckoutOK: bool,
    RenewalPolicy: bool,
    StatusUpdateOK: bool,
    OfflineOK: bool,
    TimeoutPeriod: int,
    RetriesAllowed: int,
    DateTimeSync: Date,
    ProtocolVersion: string,
    InstitutionID: string,
    LibraryName: string,
    SupportedMessages: FieldsSupportedMessages.SupportedMessages,
    TerminalLocation: string,
    ScreenMessage: string,
    PrintLine: string,
    SeqNum: int)

  /**
   * The validate tags of the struct: "len=4,oneof=2.00" admits only "2.00";
   * the supported messages are a struct, on which "required" puts no
   * constraint.
   */
  predicate Valid(m: ACSStatus, bad: string)
  {
    && 0 <= m.TimeoutPeriod <= 999 && 0 <= m.RetriesAllowed <= 999
    && !IsZero(m.DateTimeSync)
    && m.ProtocolVersion == ProtocolVersion2 && Utils.SipField(m.ProtocolVersion, bad)
    && m.InstitutionID != "" && Utils.SipField(m.InstitutionID, bad)
    && Utils.SipField(m.LibraryName, bad)
    && Utils.SipField(m.TerminalLocation, bad)
    && Utils.SipField(m.ScreenMessage, bad)
    && Utils.SipField(m.PrintLine, bad)
    && 0 <= m.SeqNum <= 9
  }

  /** Resetting the sequence number keeps a message valid. */
  lemma ValidSeqNum(m: ACSStatus, bad: string)
    requires Valid(m, bad)
    ensures Valid(m.(SeqNum := 0), bad)
  {
  }

  /** The two numbers take three digits and the version four runes, so the coded fields start at rune 36. */
  predicate Fits(m: ACSStatus)
  {
    0 <= m.TimeoutPeriod <= 999 && 0 <= m.RetriesAllowed <= 999 && |m.ProtocolVersion| == 4
  }

  /** The six policy flags in the order they are written. */
  function FlagBits(m: ACSStatus): (bs: seq<bool>)
    ensures |bs| == 6
  {
    [m.OnlineStatus, m.CheckinOK, m.CheckoutOK, m.RenewalPolicy, m.StatusUpdateOK, m.OfflineOK]
  }

  /** The six policy flags, each as Y or N. */
  function FlagText(m: ACSStatus): (s: string)
    ensures |s| == 6
  {
    Flags.Text(FlagBits(m))
  }

  /** The flag text reads back as the six flags. */
  lemma ReadFlagText(m: ACSStatus)
    ensures FlagRunes(FlagText(m), 0, 6) == FlagBits(m)
  {
    FlagRunesOf(FlagText(m), 0, FlagBits(m));
  }

  /**
   * The coded fields in the order Marshal writes them: the institution and
   * the supported messages always, the others unless they are empty.
   */
  function Fields(m: ACSStatus): (fs: seq<Field>)
    ensures |fs| == 6
  {
    seq(6, i requires 0 <= i < 6 => FieldAt(m, i))
  }

  function FieldAt(m: ACSStatus, i: int): Field
    requires 0 <= i < 6
  {
    match i
    case 0 => Field(AO, m.InstitutionID, true)
    case 1 => Field(AM, m.LibraryName, m.LibraryName != "")
    case 2 => Field(BX, FieldsSupportedMessages.Marshal(m.SupportedMessages), true)
    case 3 => Field(AN, m.TerminalLocation, m.TerminalLocation != "")
    case 4 => Field(AF, m.ScreenMessage, m.ScreenMessage != "")
    case 5 => Field(AG, m.PrintLine, m.PrintLine != "")
  }

  /** The tags Unmarshal asks ExtractFields for. */
  const Keys: seq<Tag> := [AY, AO, AM, BX, AN, AF, AG]

  /** The fixed part; the timeout and the retries are written with %03d, the version as it is. */
  function Prefix(m: ACSStatus): string
  {
    Code + FlagText(m) + Pad(m.TimeoutPeriod, 3) + Pad(m.RetriesAllowed, 3) + Format(m.DateTimeSync) + m.ProtocolVersion
  }

  lemma PrefixLayout(m: ACSStatus)
    requires Fits(m)
    ensures var p := Prefix(m);
      && |p| == 36 && p[..2] == Code && p[2..8] == FlagText(m)
      && p[8..11] == Pad(m.TimeoutPeriod, 3) && p[11..14] == Pad(m.RetriesAllowed, 3)
      && p[14..32] == Format(m.DateTimeSync) && p[32..36] == m.ProtocolVersion
  {
    PadRoundTrip(m.TimeoutPeriod, 3);
    PadRoundTrip(m.RetriesAllowed, 3);
    var flags, timeout, retries, date := FlagText(m), Pad(m.TimeoutPeriod, 3), Pad(m.RetriesAllowed, 3), Format(m.DateTimeSync);
    assert |flags| == 6 && |timeout| == 3 && |retries| == 3 && |date| == 18;
    assert Prefix(m) == Code + flags + timeout + retries + date + m.ProtocolVersion;
    Layout6(Prefix(m), Code, flags, timeout, retries, date, m.ProtocolVersion);
  }

  function Marshal(m: ACSStatus, d: char, t: char, ed: bool): (r: string)
    ensures |r| > |Prefix(m)| && r[..|Prefix(m)|] == Prefix(m)
    ensures r[|Prefix(m)|..] == Coded(Fields(m), d) + Epilogue(Prefix(m) + Coded(Fields(m), d), m.SeqNum, ed) + [t]
  {
    FrameLayout(Prefix(m), Coded(Fields(m), d), m.SeqNum, ed, t);
    Frame(Prefix(m) + Coded(Fields(m), d), m.SeqNum, ed, t)
  }

  /**
   * The message built from the fixed prefix and the extracted codes; the
   * supported messages are decoded into a fresh value, every flag false.
   */
  function FromCodes(flags: seq<bool>, timeout: int, retries: int, sync: Date, version: string,
    codes: map<Tag, string>): ACSStatus
    requires |flags| == 6
  {
    ACSStatus(
      flags[0], flags[1], flags[2], flags[3], flags[4], flags[5], timeout, retries, sync, version,
      Get(codes, AO), Get(codes, AM),
      FieldsSupportedMessages.Decoded(FieldsSupportedMessages.NoneSupported, Get(codes, BX)),
      Get(codes, AN), Get(codes, AF), Get(codes, AG), SeqNumOf(Get(codes, AY)))
  }

  /** Everything Unmarshal does between the length check and validation. */
  function Decode(line: string, d: char): (r: Result<ACSStatus>)
    requires |line| >= 36
    ensures r.Ok? ==> r.value.OnlineStatus == Utils.ParseBool(line[2]) && r.value.OfflineOK == Utils.ParseBool(line[7])
    ensures r.Ok? ==> Ok(r.value.TimeoutPeriod) == Atoi(line[8..11]) && Ok(r.value.RetriesAllowed) == Atoi(line[11..14])
    ensures r.Ok? ==> Format(r.value.DateTimeSync) == line[14..32] && r.value.ProtocolVersion == line[32..36]
  {
    match Atoi(line[8..11])
    case Err(e) => Err(e)
    case Ok(timeout) =>
      match Atoi(line[11..14])
      case Err(e) => Err(e)
      case Ok(retries) =>
        match Parse(line[14..32])
        case Err(e) => Err(e)
        case Ok(sync) =>
          FormatParse(line[14..32]);
          Ok(FromCodes(FlagRunes(line, 2, 6), timeout, retries, sync, line[32..36], Extract(line[36..], d, Init(Keys))))
  }

  /**
   * Unmarshal: the timeout, the retries and the clock are parsed in that
   * order, the first failure reported; the supported messages never fail to
   * decode; the result of the validation is returned.
   */
  function Unmarshal(line: string, d: char, bad: string): (r: Result<ACSStatus>)
    ensures |line| < 42 || line[..2] != Code ==> r == Err(InvalidMessage(Code))
    ensures r.Ok? ==> Valid(r.value, bad) && line[32..36] == ProtocolVersion2
    ensures r.Ok? ==> Ok(r.value.TimeoutPeriod) == Atoi(line[8..11]) && Format(r.value.DateTimeSync) == line[14..32]
  {
    if |line| < 42 || line[..2] != Code then Err(InvalidMessage(Code))
    else
      match Decode(line, d)
      case Err(e) => Err(e)
      case Ok(m) => if Valid(m, bad) then Ok(m) else Err(ValidationFailed(Code))
  }

  /** The fixed prefix of a valid message's encoding parses back. */
  lemma MarshalPrefix(m: ACSStatus, d: char, t: char, ed: bool, bad: string)
    requires Valid(m, bad)
    ensures var line := Marshal(m, d, t, ed);
      && |line| > 36
      && FlagRunes(line, 2, 6) == FlagBits(m)
      && Atoi(line[8..11]) == Ok(m.TimeoutPeriod) && Atoi(line[11..14]) == Ok(m.RetriesAllowed)
      && Parse(line[14..32]) == Ok(m.DateTimeSync) && line[32..36] == m.ProtocolVersion
  {
    assert Fits(m);
    var line := Marshal(m, d, t, ed);
    var p := Prefix(m);
    PrefixLayout(m);
    assert line[2..8] == p[2..8] && line[8..11] == p[8..11] && line[11..14] == p[11..14];
    assert line[14..32] == p[14..32] && line[32..36] == p[32..36];
    FlagRunesText(line, 2, FlagText(m));
    ReadFlagText(m);
    PadRoundTrip(m.TimeoutPeriod, 3);
    PadRoundTrip(m.RetriesAllowed, 3);
    ParseFormat(m.DateTimeSync);
  }

  lemma CleanFields(m: ACSStatus, d: char, bad: string)
    requires Valid(m, bad) && d in bad && DelimiterSafe(d)
    ensures Clean(Fields(m), d)
  {
    assert d !in FieldsSupportedMessages.Marshal(m.SupportedMessages);
  }

  lemma FieldsTagged(m: ACSStatus)
    ensures forall i | 0 <= i < 6 :: Fields(m)[i].tag != AY && Fields(m)[i].tag in Keys && Unique(Fields(m), i)
  {
  }

  /** Codes that read the fields back hold each written field's value. */
  lemma ReadAt(m: ACSStatus, codes: map<Tag, string>, i: int)
    requires ReadsBack(Fields(m), Keys, codes) && 0 <= i < 6
    ensures Get(codes, FieldAt(m, i).tag) == Seen(FieldAt(m, i))
  {
    FieldsTagged(m);
    assert Fields(m)[i] == FieldAt(m, i);
  }

  /** Codes that read the fields back rebuild the message. */
  lemma ReadFields(m: ACSStatus, codes: map<Tag, string>)
    requires ReadsBack(Fields(m), Keys, codes)
    ensures FromCodes(FlagBits(m), m.TimeoutPeriod, m.RetriesAllowed, m.DateTimeSync, m.ProtocolVersion, codes)
      == m.(SeqNum := SeqNumOf(Get(codes, AY)))
  {
    ReadAt(m, codes, 0);
    ReadAt(m, codes, 1);
    ReadAt(m, codes, 2);
    ReadAt(m, codes, 3);
    ReadAt(m, codes, 4);
    ReadAt(m, codes, 5);
    FieldsSupportedMessages.RoundTrip(m.SupportedMessages, FieldsSupportedMessages.NoneSupported);
  }

  /** The encoding of a valid message decodes back to it. */
  lemma MarshalDecodes(m: ACSStatus, d: char, t: char, ed: bool, bad: string)
    requires Valid(m, bad) && d in bad && DelimiterSafe(d)
    ensures |Marshal(m, d, t, ed)| >= 36
    ensures Decode(Marshal(m, d, t, ed), d) == Ok(if ed then m else m.(SeqNum := 0))
  {
    var line := Marshal(m, d, t, ed);
    var codes := Extract(line[36..], d, Init(Keys));
    MarshalPrefix(m, d, t, ed, bad);
    PrefixLayout(m);
    FieldsTagged(m);
    CleanFields(m, d, bad);
    ReadLine(Fields(m), Keys, line, 36, m.SeqNum, ed, d, t);
    ReadFields(m, codes);
    SeqNumOfText(m.SeqNum, ed);
  }

  /** The supported messages are always written, so the encoding is never short. */
  lemma MarshalLength(m: ACSStatus, d: char, t: char, ed: bool, bad: string)
    requires Valid(m, bad)
    ensures |Marshal(m, d, t, ed)| >= 42 && Marshal(m, d, t, ed)[..2] == Code
  {
    assert Fits(m);
    PrefixLayout(m);
    assert Marshal(m, d, t, ed)[..2] == Prefix(m)[..2];
    CodedPicks(Fields(m), d, [2], 0);
    assert Fields(m)[0..] == Fields(m);
  }

  /**
   * A valid message decodes to itself; without error detection the sequence
   * number comes back as 0.
   */
  lemma RoundTrip(m: ACSStatus, d: char, t: char, ed: bool, bad: string)
    requires Valid(m, bad) && d in bad && DelimiterSafe(d)
    ensures Unmarshal(Marshal(m, d, t, ed), d, bad) == Ok(if ed then m else m.(SeqNum := 0))
  {
    MarshalLength(m, d, t, ed, bad);
    MarshalDecodes(m, d, t, ed, bad);
    ValidSeqNum(m, bad);
  }
}
