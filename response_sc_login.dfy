/**
 * SC Login response (94): the ACS answers a login with a single OK flag,
 * followed by the sequence number and checksum when error detection is on.
 */
module ResponseSCLogin {
  import opened Errors
  import opened Numbers
  import opened Codes
  import opened Wire
  import Utils

  const Code: string := "94"

  datatype SCLogin = SCLogin(Ok: bool, SeqNum: int)

  /** The validate tag of the struct: the sequence number is a single digit. */
  predicate Valid(m: SCLogin)
  {
    0 <= m.SeqNum <= 9
  }

  /** Marshal: the code and the OK flag as 0 or 1, then the epilogue when error detection is on. */
  function Marshal(m: SCLogin, d: char, t: char, ed: bool): (r: string)
    ensures !ed ==> r == Code + Utils.ZeroOrOne(m.Ok) + [t]
    ensures ed ==> |r| > 3 && r[..3] == Code + Utils.ZeroOrOne(m.Ok)
    ensures ed ==> r[3..] == Epilogue(Code + Utils.ZeroOrOne(m.Ok), m.SeqNum, true) + [t]
  {
    FrameLayout(Code + Utils.ZeroOrOne(m.Ok), "", m.SeqNum, ed, t);
    assert Code + Utils.ZeroOrOne(m.Ok) + "" == Code + Utils.ZeroOrOne(m.Ok);
    Frame(Code + Utils.ZeroOrOne(m.Ok), m.SeqNum, ed, t)
  }

  /** The codes found after the flag; a line of exactly three runes is not searched. */
  function CodesOf(line: string, d: char): (codes: map<Tag, string>)
    requires |line| >= 3
    ensures AY in codes && |codes[AY]| <= 1
  {
    SequenceShort(line[3..], d, Init([AY]));
    if |line| > 3 then Extract(line[3..], d, Init([AY])) else Init([AY])
  }

  /** Unmarshal: the length and code check, the sequence number, the flag, then validation. */
  function Unmarshal(line: string, d: char, bad: string): (r: Result<SCLogin>)
    ensures r.Ok? <==> |line| >= 3 && line[..2] == Code
    ensures r.Err? ==> r.error == InvalidMessage(Code)
    ensures r.Ok? ==> r.value.Ok == Utils.ParseBool(line[2]) && Valid(r.value)
    ensures r.Ok? && |line| == 3 ==> r.value.SeqNum == 0
  {
    if |line| < 3 || line[..2] != Code then Err(InvalidMessage(Code))
    else
      var m := SCLogin(Utils.ParseBool(line[2]), SeqNumOf(Get(CodesOf(line, d), AY)));
      SequenceDigit(Get(CodesOf(line, d), AY));
      if Valid(m) then Ok(m) else Err(ValidationFailed(Code))
  }

  /**
   * A text of at most one rune gives a sequence number in 0..9, so the
   * validation after decoding never fails.
   */
  lemma SequenceDigit(s: string)
    requires |s| <= 1
    ensures 0 <= SeqNumOf(s) <= 9
  {
    if s != "" && Atoi(s).Ok? {
      assert Unsigned(s) == s;
      assert ParseDigits(s) < Pow10(1);
    }
  }

  /** A valid message decodes to itself; without error detection the sequence number comes back as 0. */
  lemma RoundTrip(m: SCLogin, d: char, t: char, ed: bool, bad: string)
    requires Valid(m) && DelimiterSafe(d)
    ensures Unmarshal(Marshal(m, d, t, ed), d, bad) == Ok(if ed then m else m.(SeqNum := 0))
  {
    var body := Code + Utils.ZeroOrOne(m.Ok);
    var line := Frame(body, m.SeqNum, ed, t);
    assert line == Marshal(m, d, t, ed);
    assert line[..3] == body && line[3..] == Epilogue(body, m.SeqNum, ed) + [t];
    assert line[..2] == Code && line[2] == body[2];
    ExtractEpilogue(body, m.SeqNum, ed, t, d, Init([AY]));
    SeqNumOfText(m.SeqNum, ed);
  }
}
