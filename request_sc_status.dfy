/**
 * SC Status request (99): the first message a terminal sends on a
 * connection, reporting its status, printer width and protocol version.
 */
module RequestSCStatus {
  import opened Errors
  import opened Numbers
  import opened Wire
  import Utils

  const Code: string := "99"

  datatype SCStatus = SCStatus(
    StatusCode: int,
    MaxPrintWidth: int,
    ProtocolVersion: string,
    SeqNum: int)

  /** The validate tags of the struct: the version must be exactly "2.00". */
  predicate Valid(m: SCStatus, bad: string)
  {
    && 0 <= m.StatusCode <= 2
    && 0 <= m.MaxPrintWidth <= 999
    && m.ProtocolVersion == "2.00" && Utils.SipField(m.ProtocolVersion, bad)
    && 0 <= m.SeqNum <= 9
  }

  /** The status code takes one digit, the width three and the version four runes. */
  predicate Fits(m: SCStatus)
  {
    0 <= m.StatusCode <= 9 && 0 <= m.MaxPrintWidth <= 999 && |m.ProtocolVersion| == 4
  }

  function Prefix(m: SCStatus): string
  {
    Code + Itoa(m.StatusCode) + Pad(m.MaxPrintWidth, 3) + m.ProtocolVersion
  }

  /** Marshal: the fixed fields only; the delimiter is not used. */
  function Marshal(m: SCStatus, d: char, t: char, ed: bool): (r: string)
    ensures |r| > 2 && r[..2] == Code
    ensures Fits(m) ==> |r| > 10 && r[2..3] == Itoa(m.StatusCode) && r[3..6] == Pad(m.MaxPrintWidth, 3)
    ensures Fits(m) ==> r[6..10] == m.ProtocolVersion && r[10..] == Epilogue(r[..10], m.SeqNum, ed) + [t]
  {
    var p := Prefix(m);
    var r := Frame(p, m.SeqNum, ed, t);
    assert r == p + (Epilogue(p, m.SeqNum, ed) + [t]);
    assert r[..|p|] == p && r[|p|..] == Epilogue(p, m.SeqNum, ed) + [t];
    Layout4(r, Code, Itoa(m.StatusCode), Pad(m.MaxPrintWidth, 3), m.ProtocolVersion);
    if Fits(m) then
      PadRoundTrip(m.MaxPrintWidth, 3);
      assert Itoa(m.StatusCode) == [DigitChar(m.StatusCode)];
      assert |Code| + |Itoa(m.StatusCode)| == 3 && |Code| + |Itoa(m.StatusCode)| + |Pad(m.MaxPrintWidth, 3)| == 6;
      assert |p| == 10;
      r
    else
      r
  }

  /**
   * Unmarshal: the sequence number is read from rune 12 whether or not the
   * line has an error-detection epilogue (0 when that rune is not a digit),
   * and a line of 10 to 12 runes makes that read fault; then the status code
   * and the width must be numbers; the result of the validation is returned.
   */
  function Unmarshal(line: string, d: char, bad: string): (r: Result<SCStatus>)
    ensures |line| < 10 || line[..2] != Code ==> r == Err(InvalidMessage(Code))
    ensures 10 <= |line| <= 12 && line[..2] == Code ==> r == Err(IndexOutOfRange)
    ensures |line| > 12 && line[..2] == Code && Atoi(line[2..3]).Err? ==> r == Err(Atoi(line[2..3]).error)
    ensures r.Ok? ==> Valid(r.value, bad) && r.value.ProtocolVersion == line[6..10]
    ensures r.Ok? ==> Ok(r.value.StatusCode) == Atoi(line[2..3]) && Ok(r.value.MaxPrintWidth) == Atoi(line[3..6])
    ensures r.Ok? ==> r.value.SeqNum == SeqNumOf([line[12]])
  {
    if |line| < 10 || line[..2] != Code then Err(InvalidMessage(Code))
    else if |line| <= 12 then Err(IndexOutOfRange)
    else
      var seqNum := SeqNumOf([line[12]]);
      match Atoi(line[2..3])
      case Err(e) => Err(e)
      case Ok(statusCode) =>
        match Atoi(line[3..6])
        case Err(e) => Err(e)
        case Ok(maxPrintWidth) =>
          var m := SCStatus(statusCode, maxPrintWidth, line[6..10], seqNum);
          if Valid(m, bad) then Ok(m) else Err(ValidationFailed(Code))
  }

  /** The fixed fields of a valid message's encoding parse back. */
  lemma MarshalPrefix(m: SCStatus, d: char, t: char, ed: bool, bad: string)
    requires Valid(m, bad)
    ensures var line := Marshal(m, d, t, ed);
      && Atoi(line[2..3]) == Ok(m.StatusCode) && Atoi(line[3..6]) == Ok(m.MaxPrintWidth)
      && line[6..10] == m.ProtocolVersion
  {
    assert Fits(m);
    AtoiItoa(m.StatusCode);
    PadRoundTrip(m.MaxPrintWidth, 3);
  }

  /** With error detection rune 12 is the digit of the sequence number. */
  lemma MarshalSeqNum(m: SCStatus, d: char, t: char, bad: string)
    requires Valid(m, bad)
    ensures var line := Marshal(m, d, t, true);
      |line| > 12 && SeqNumOf([line[12]]) == m.SeqNum
  {
    assert Fits(m);
    var line := Marshal(m, d, t, true);
    var e := "AY" + Itoa(m.SeqNum) + "AZ";
    assert Itoa(m.SeqNum) == [DigitChar(m.SeqNum)];
    assert line[10..] == e + Utils.Checksum(line[..10] + e) + [t];
    assert line[12] == line[10..][2] == e[2];
    assert [line[12]] == SeqText(m.SeqNum, true);
    SeqNumOfText(m.SeqNum, true);
  }

  /** Without error detection the line is 11 runes long. */
  lemma MarshalBareLength(m: SCStatus, d: char, t: char, bad: string)
    requires Valid(m, bad)
    ensures |Marshal(m, d, t, false)| == 11
  {
    assert Fits(m);
    var line := Marshal(m, d, t, false);
    assert line[10..] == [t];
  }

  /**
   * A valid message decodes to itself with error detection; without it the
   * 11-rune line makes the read of rune 12 fault.
   */
  lemma RoundTrip(m: SCStatus, d: char, t: char, ed: bool, bad: string)
    requires Valid(m, bad)
    ensures Unmarshal(Marshal(m, d, t, ed), d, bad) == if ed then Ok(m) else Err(IndexOutOfRange)
  {
    MarshalPrefix(m, d, t, ed, bad);
    if ed {
      MarshalSeqNum(m, d, t, bad);
    } else {
      MarshalBareLength(m, d, t, bad);
    }
  }
}
