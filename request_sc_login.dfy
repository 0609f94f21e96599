/**
 * Login request (93): the terminal logs in to the circulation system; when
 * used, it is the first message of a session.
 */
module RequestSCLogin {
  import opened Errors
  import opened Numbers
  import opened Codes
  import opened Wire
  import Utils

  const Code: string := "93"

  datatype SCLogin = SCLogin(
    AlgorithmUserID: int,
    AlgorithmPassword: int,
    LoginUserID: string,
    LoginPassword: string,
    LocationCode: string,
    SeqNum: int)

  /** The validate tags of the struct. */
  predicate Valid(m: SCLogin, bad: string)
  {
    && 0 <= m.AlgorithmUserID <= 9 && 0 <= m.AlgorithmPassword <= 9
    && m.LoginUserID != "" && Utils.SipField(m.LoginUserID, bad)
    && Utils.SipField(m.LoginPassword, bad)
    && Utils.SipField(m.LocationCode, bad)
    && 0 <= m.SeqNum <= 9
  }

  /** Both algorithms take one rune each only when they are single digits. */
  predicate Fits(m: SCLogin)
  {
    0 <= m.AlgorithmUserID <= 9 && 0 <= m.AlgorithmPassword <= 9
  }

  /** The coded fields in the order Marshal writes them. */
  function Fields(m: SCLogin): (fs: seq<Field>)
    ensures |fs| == 3
  {
    seq(3, i requires 0 <= i < 3 => FieldAt(m, i))
  }

  function FieldAt(m: SCLogin, i: int): Field
    requires 0 <= i < 3
  {
    match i
    case 0 => Field(CN, m.LoginUserID, true)
    case 1 => Field(CO, m.LoginPassword, true)
    case 2 => Field(CP, m.LocationCode, m.LocationCode != "")
  }

  /** The tags Unmarshal asks ExtractFields for. */
  const Keys: seq<Tag> := [AY, CN, CO, CP]

  function Prefix(m: SCLogin): string
  {
    Code + Itoa(m.AlgorithmUserID) + Itoa(m.AlgorithmPassword)
  }

  function Marshal(m: SCLogin, d: char, t: char, ed: bool): (r: string)
    ensures |r| > 2 && r[..2] == Code
    ensures Fits(m) ==> |r| > 4 && r[2..3] == Itoa(m.AlgorithmUserID) && r[3..4] == Itoa(m.AlgorithmPassword)
    ensures Fits(m) ==> r[4..] == Coded(Fields(m), d) + Epilogue(r[..4] + Coded(Fields(m), d), m.SeqNum, ed) + [t]
  {
    if Fits(m) then
      Digit(m.AlgorithmUserID);
      Digit(m.AlgorithmPassword);
      Placed3(Code, Itoa(m.AlgorithmUserID), Itoa(m.AlgorithmPassword),
        Coded(Fields(m), d), m.SeqNum, ed, t, 2, 3, 4);
      Frame(Prefix(m) + Coded(Fields(m), d), m.SeqNum, ed, t)
    else
      Framed3(Code, Itoa(m.AlgorithmUserID), Itoa(m.AlgorithmPassword), Coded(Fields(m), d), m.SeqNum, ed, t);
      Frame(Prefix(m) + Coded(Fields(m), d), m.SeqNum, ed, t)
  }

  /** A number 0..9 is written as its one digit, which parses back. */
  lemma Digit(n: int)
    requires 0 <= n <= 9
    ensures |Itoa(n)| == 1 && Atoi(Itoa(n)) == Ok(n)
  {
    AtoiItoa(n);
  }

  /** The message built from the two algorithm numbers and the extracted codes. */
  function FromCodes(userAlgorithm: int, passwordAlgorithm: int, codes: map<Tag, string>): SCLogin
  {
    SCLogin(userAlgorithm, passwordAlgorithm, Get(codes, CN), Get(codes, CO), Get(codes, CP), SeqNumOf(Get(codes, AY)))
  }

  /** Unmarshal: runes 2 and 3 must each be a digit. */
  function Unmarshal(line: string, d: char, bad: string): (r: Result<SCLogin>)
    ensures |line| < 5 || line[..2] != Code ==> r == Err(InvalidMessage(Code))
    ensures |line| >= 5 && line[..2] == Code && (Atoi(line[2..3]).Err? || Atoi(line[3..4]).Err?) ==> r.Err?
    ensures r.Ok? ==> Valid(r.value, bad)
    ensures r.Ok? ==> Ok(r.value.AlgorithmUserID) == Atoi(line[2..3]) && Ok(r.value.AlgorithmPassword) == Atoi(line[3..4])
  {
    if |line| < 5 || line[..2] != Code then Err(InvalidMessage(Code))
    else
      var codes := Extract(line[4..], d, Init(Keys));
      match Atoi(line[2..3])
      case Err(e) => Err(e)
      case Ok(userAlgorithm) =>
        match Atoi(line[3..4])
        case Err(e) => Err(e)
        case Ok(passwordAlgorithm) =>
          var m := FromCodes(userAlgorithm, passwordAlgorithm, codes);
          if Valid(m, bad) then Ok(m) else Err(ValidationFailed(Code))
  }

  lemma CleanFields(m: SCLogin, d: char, bad: string)
    requires Valid(m, bad) && d in bad && DelimiterSafe(d)
    ensures Clean(Fields(m), d)
  {
  }

  lemma FieldsTagged(m: SCLogin)
    ensures forall i | 0 <= i < 3 :: Fields(m)[i].tag != AY && Fields(m)[i].tag in Keys && Unique(Fields(m), i)
  {
  }

  /** Codes that read the fields back rebuild the message. */
  lemma ReadFields(m: SCLogin, codes: map<Tag, string>)
    requires ReadsBack(Fields(m), Keys, codes)
    ensures FromCodes(m.AlgorithmUserID, m.AlgorithmPassword, codes) == m.(SeqNum := SeqNumOf(Get(codes, AY)))
  {
    FieldsTagged(m);
    var fs := Fields(m);
    assert Get(codes, CN) == Seen(fs[0]);
    assert Get(codes, CO) == Seen(fs[1]);
    assert Get(codes, CP) == Seen(fs[2]);
  }

  lemma MarshalFromCodes(m: SCLogin, d: char, t: char, ed: bool, bad: string)
    requires Valid(m, bad) && d in bad && DelimiterSafe(d)
    ensures FromCodes(m.AlgorithmUserID, m.AlgorithmPassword, Extract(Marshal(m, d, t, ed)[4..], d, Init(Keys)))
      == if ed then m else m.(SeqNum := 0)
  {
    assert Fits(m);
    var codes := Extract(Marshal(m, d, t, ed)[4..], d, Init(Keys));
    FieldsTagged(m);
    CleanFields(m, d, bad);
    ReadLine(Fields(m), Keys, Marshal(m, d, t, ed), 4, m.SeqNum, ed, d, t);
    ReadFields(m, codes);
    SeqNumOfText(m.SeqNum, ed);
  }

  /**
   * A valid message decodes to itself; without error detection the sequence
   * number comes back as 0.
   */
  lemma RoundTrip(m: SCLogin, d: char, t: char, ed: bool, bad: string)
    requires Valid(m, bad) && d in bad && DelimiterSafe(d)
    ensures Unmarshal(Marshal(m, d, t, ed), d, bad) == Ok(if ed then m else m.(SeqNum := 0))
  {
    assert Fits(m);
    Digit(m.AlgorithmUserID);
    Digit(m.AlgorithmPassword);
    CodedLength(Fields(m), d, [4, 3, 0]);
    MarshalFromCodes(m, d, t, ed, bad);
  }
}
