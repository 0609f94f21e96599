/**
 * The response registry: a line from the server is routed by its first two
 * bytes to the decoder of the response type with that code.
 */
module ResponseRegistry {
  import opened Errors
  import opened Bytes
  import opened Numbers
  import Utils
  import MsgTypes
  import ResponseACSStatus
  import ResponseCheckin
  import ResponseCheckout
  import ResponseEndSession
  import ResponseFeePaid
  import ResponseHold
  import ResponseItemInfo
  import ResponseItemStatusUpdate
  import ResponsePatronEnable
  import ResponsePatronInfo
  import ResponsePatronStatus
  import ResponseRenewAll
  import ResponseSCLogin
  import ResponseSCResend

  /**
   * A decoded response of any of the fifteen types; a renew response has the
   * layout of a checkout response and shares its record.
   */
  datatype Response =
    | Checkin(ResponseCheckin.Checkin)
    | Checkout(ResponseCheckout.Checkout)
    | Hold(ResponseHold.Hold)
    | ItemInfo(ResponseItemInfo.ItemInfo)
    | ItemStatusUpdate(ResponseItemStatusUpdate.ItemStatusUpdate)
    | PatronStatus(ResponsePatronStatus.PatronStatus)
    | PatronEnable(ResponsePatronEnable.PatronEnable)
    | Renew(ResponseCheckout.Checkout)
    | EndSession(ResponseEndSession.EndSession)
    | FeePaid(ResponseFeePaid.FeePaid)
    | PatronInfo(ResponsePatronInfo.PatronInfo)
    | RenewAll(ResponseRenewAll.RenewAll)
    | SCLogin(ResponseSCLogin.SCLogin)
    | SCResend(ResponseSCResend.SCResend)
    | ACSStatus(ResponseACSStatus.ACSStatus)

  /**
   * What the registry returns for a line it could index: the response (none
   * on failure), the message identifier and the error (none on success).
   */
  datatype Outcome = Outcome(resp: Option<Response>, msgID: seq<byte>, err: Option<Error>)

  /** The message identifier: the first two bytes of the line's UTF-8 encoding. */
  function MsgID(line: string): (id: seq<byte>)
    requires |Encode(line)| >= 2
    ensures |id| == 2 && id == Encode(line)[..2]
  {
    Encode(line)[..2]
  }

  /** Bytes read as text, one rune per byte; the codes are ASCII, so this compares bytes. */
  function Text(id: seq<byte>): (s: string)
    ensures |s| == |id| && forall i | 0 <= i < |id| :: s[i] as int == id[i] as int
  {
    seq(|id|, i requires 0 <= i < |id| => (id[i] as int) as char)
  }

  /** A decoder: a line, the delimiter and the bad characters to a response or an error. */
  type Decoder = (string, char, string) -> Result<Response>

  /** The decoder that response type n registers. */
  function DecoderOf(n: int): Decoder
    requires n in MsgTypes.Responses
  {
    if n == MsgTypes.RespCheckin then AsCheckin
    else if n == MsgTypes.RespCheckout then AsCheckout
    else if n == MsgTypes.RespHold then AsHold
    else if n == MsgTypes.RespItemInfo then AsItemInfo
    else if n == MsgTypes.RespItemStatusUpdate then AsItemStatusUpdate
    else if n == MsgTypes.RespPatronStatus then AsPatronStatus
    else if n == MsgTypes.RespPatronEnable then AsPatronEnable
    else if n == MsgTypes.RespRenew then AsRenew
    else if n == MsgTypes.RespEndSession then AsEndSession
    else if n == MsgTypes.RespFeePaid then AsFeePaid
    else if n == MsgTypes.RespPatronInfo then AsPatronInfo
    else if n == MsgTypes.RespRenewAll then AsRenewAll
    else if n == MsgTypes.RespSCLogin then AsSCLogin
    else if n == MsgTypes.RespSCResend then AsSCResend
    else AsACSStatus
  }

  /** The decoders registered, by message type. */
  const Decoders: map<int, Decoder> := map n | n in MsgTypes.Responses :: DecoderOf(n)

  /** Each type's decoder, its result wrapped as a response of any type. */
  function AsCheckin(line: string, d: char, bad: string): (r: Result<Response>)
    ensures r.Ok? ==> r.value.Checkin?
  {
    match ResponseCheckin.Unmarshal(line, d, bad)
    case Ok(m) => Ok(Checkin(m))
    case Err(e) => Err(e)
  }

  function AsCheckout(line: string, d: char, bad: string): (r: Result<Response>)
    ensures r.Ok? ==> r.value.Checkout?
  {
    match ResponseCheckout.Unmarshal(line, ResponseCheckout.CheckoutCode, d, bad)
    case Ok(m) => Ok(Checkout(m))
    case Err(e) => Err(e)
  }

  function AsHold(line: string, d: char, bad: string): (r: Result<Response>)
    ensures r.Ok? ==> r.value.Hold?
  {
    match ResponseHold.Unmarshal(line, d, bad)
    case Ok(m) => Ok(Hold(m))
    case Err(e) => Err(e)
  }

  function AsItemInfo(line: string, d: char, bad: string): (r: Result<Response>)
    ensures r.Ok? ==> r.value.ItemInfo?
  {
    match ResponseItemInfo.Unmarshal(line, d, bad)
    case Ok(m) => Ok(ItemInfo(m))
    case Err(e) => Err(e)
  }

  function AsItemStatusUpdate(line: string, d: char, bad: string): (r: Result<Response>)
    ensures r.Ok? ==> r.value.ItemStatusUpdate?
  {
    match ResponseItemStatusUpdate.Unmarshal(line, d, bad)
    case Ok(m) => Ok(ItemStatusUpdate(m))
    case Err(e) => Err(e)
  }

  function AsPatronStatus(line: string, d: char, bad: string): (r: Result<Response>)
    ensures r.Ok? ==> r.value.PatronStatus?
  {
    match ResponsePatronStatus.Unmarshal(line, d, bad)
    case Ok(m) => Ok(PatronStatus(m))
    case Err(e) => Err(e)
  }

  function AsPatronEnable(line: string, d: char, bad: string): (r: Result<Response>)
    ensures r.Ok? ==> r.value.PatronEnable?
  {
    match ResponsePatronEnable.Unmarshal(line, d, bad)
    case Ok(m) => Ok(PatronEnable(m))
    case Err(e) => Err(e)
  }

  function AsRenew(line: string, d: char, bad: string): (r: Result<Response>)
    ensures r.Ok? ==> r.value.Renew?
  {
    match ResponseCheckout.Unmarshal(line, ResponseCheckout.RenewCode, d, bad)
    case Ok(m) => Ok(Renew(m))
    case Err(e) => Err(e)
  }

  function AsEndSession(line: string, d: char, bad: string): (r: Result<Response>)
    ensures r.Ok? ==> r.value.EndSession?
  {
    match ResponseEndSession.Unmarshal(line, d, bad)
    case Ok(m) => Ok(EndSession(m))
    case Err(e) => Err(e)
  }

  function AsFeePaid(line: string, d: char, bad: string): (r: Result<Response>)
    ensures r.Ok? ==> r.value.FeePaid?
  {
    match ResponseFeePaid.Unmarshal(line, d, bad)
    case Ok(m) => Ok(FeePaid(m))
    case Err(e) => Err(e)
  }

  function AsPatronInfo(line: string, d: char, bad: string): (r: Result<Response>)
    ensures r.Ok? ==> r.value.PatronInfo?
  {
    match ResponsePatronInfo.Unmarshal(line, d, bad)
    case Ok(m) => Ok(PatronInfo(m))
    case Err(e) => Err(e)
  }

  function AsRenewAll(line: string, d: char, bad: string): (r: Result<Response>)
    ensures r.Ok? ==> r.value.RenewAll?
  {
    match ResponseRenewAll.Unmarshal(line, d, bad)
    case Ok(m) => Ok(RenewAll(m))
    case Err(e) => Err(e)
  }

  function AsSCLogin(line: string, d: char, bad: string): (r: Result<Response>)
    ensures r.Ok? ==> r.value.SCLogin?
  {
    match ResponseSCLogin.Unmarshal(line, d, bad)
    case Ok(m) => Ok(SCLogin(m))
    case Err(e) => Err(e)
  }

  function AsSCResend(line: string, d: char, bad: string): (r: Result<Response>)
    ensures r.Ok? ==> r.value.SCResend?
  {
    match ResponseSCResend.Unmarshal(line, d, bad)
    case Ok(m) => Ok(SCResend(m))
    case Err(e) => Err(e)
  }

  function AsACSStatus(line: string, d: char, bad: string): (r: Result<Response>)
    ensures r.Ok? ==> r.value.ACSStatus?
  {
    match ResponseACSStatus.Unmarshal(line, d, bad)
    case Ok(m) => Ok(ACSStatus(m))
    case Err(e) => Err(e)
  }

  /** The type a message identifier names, when it is two ASCII digits. */
  function TypeNamed(id: seq<byte>): (n: Option<int>)
    ensures n.Some? <==> |id| == 2 && AllDigits(Text(id))
    ensures n.Some? ==> MsgTypes.ID(n.value) == Ok(Text(id))
  {
    if |id| == 2 && AllDigits(Text(id)) then
      MsgTypes.IDOfDigits(Text(id));
      Some(ParseDigits(Text(id)))
    else None
  }

  /** The outcome of running a known type's decoder. */
  function Report(id: seq<byte>, res: Result<Response>): (o: Outcome)
    ensures o.msgID == id && (o.resp.Some? <==> o.err.None?)
    ensures o.resp.Some? <==> res.Ok?
    ensures res.Ok? ==> o.resp == Some(res.value)
    ensures res.Err? ==> o.err == Some(res.error)
  {
    match res
    case Ok(resp) => Outcome(Some(resp), id, None)
    case Err(e) => Outcome(None, id, Some(e))
  }

  /**
   * Unmarshal: index the first two bytes (a line shorter than that faults),
   * refuse a code that is not a response's, otherwise return what that
   * type's decoder returns.
   */
  function Unmarshal(line: string, d: char, bad: string): (r: Result<Outcome>)
    ensures r.Err? <==> |Encode(line)| < 2
    ensures r.Err? ==> r.error == IndexOutOfRange
    ensures r.Ok? ==> r.value.msgID == MsgID(line)
    ensures r.Ok? ==> (r.value.resp.Some? <==> r.value.err.None?)
  {
    if |Encode(line)| < 2 then Err(IndexOutOfRange)
    else
      var id := MsgID(line);
      match TypeNamed(id)
      case None => Ok(Outcome(None, id, Some(UnknownResponse)))
      case Some(n) =>
        if n in Decoders then Ok(Report(id, Decoders[n](line, d, bad)))
        else Ok(Outcome(None, id, Some(UnknownResponse)))
  }

  /**
   * InitValidator: the bad characters of the "sip" rule are the given runes
   * in order; a field passes the rule exactly when it holds none of them.
   */
  method InitValidator(excludeChars: seq<char>) returns (badChars: string)
    ensures badChars == excludeChars
    ensures forall s :: Utils.SipField(s, badChars) <==> |s| <= 255 && forall i | 0 <= i < |s| :: s[i] !in excludeChars
  {
    badChars := "";
    for i := 0 to |excludeChars|
      invariant badChars == excludeChars[..i]
    {
      badChars := badChars + [excludeChars[i]];
    }
  }

  /** Each code the registry switches on is the ID of its response type. */
  lemma CodesAreIDs()
    ensures MsgTypes.ID(MsgTypes.RespCheckin) == Ok(ResponseCheckin.Code)
    ensures MsgTypes.ID(MsgTypes.RespCheckout) == Ok(ResponseCheckout.CheckoutCode)
    ensures MsgTypes.ID(MsgTypes.RespHold) == Ok(ResponseHold.Code)
    ensures MsgTypes.ID(MsgTypes.RespItemInfo) == Ok(ResponseItemInfo.Code)
    ensures MsgTypes.ID(MsgTypes.RespItemStatusUpdate) == Ok(ResponseItemStatusUpdate.Code)
    ensures MsgTypes.ID(MsgTypes.RespPatronStatus) == Ok(ResponsePatronStatus.Code)
    ensures MsgTypes.ID(MsgTypes.RespPatronEnable) == Ok(ResponsePatronEnable.Code)
    ensures MsgTypes.ID(MsgTypes.RespRenew) == Ok(ResponseCheckout.RenewCode)
    ensures MsgTypes.ID(MsgTypes.RespEndSession) == Ok(ResponseEndSession.Code)
    ensures MsgTypes.ID(MsgTypes.RespFeePaid) == Ok(ResponseFeePaid.Code)
    ensures MsgTypes.ID(MsgTypes.RespPatronInfo) == Ok(ResponsePatronInfo.Code)
    ensures MsgTypes.ID(MsgTypes.RespRenewAll) == Ok(ResponseRenewAll.Code)
    ensures MsgTypes.ID(MsgTypes.RespSCLogin) == Ok(ResponseSCLogin.Code)
    ensures MsgTypes.ID(MsgTypes.RespSCResend) == Ok(ResponseSCResend.Code)
    ensures MsgTypes.ID(MsgTypes.RespACSStatus) == Ok(ResponseACSStatus.Code)
  {
  }

  /** Bytes that are two ASCII digits are the line's first two runes. */
  lemma {:induction false} DigitsAreRunes(line: string)
    requires |Encode(line)| >= 2 && AllDigits(Text(MsgID(line)))
    ensures |line| >= 2 && line[..2] == Text(MsgID(line))
  {
    var id := MsgID(line);
    assert id[0] as int < 0x80 && id[1] as int < 0x80;
    assert |line| > 0;
    var rest := Encode(line[1..]);
    assert Encode(line) == Utf8(line[0]) + rest;
    assert |Utf8(line[0])| == 1 && line[0] as int == id[0] as int;
    assert |rest| >= 1 && rest[0] == id[1];
    assert |line[1..]| > 0;
    assert rest == Utf8(line[1]) + Encode(line[1..][1..]);
    assert line[1] as int == id[1] as int;
  }

  /** A line whose first two runes are ASCII has them as its message identifier. */
  lemma AsciiCode(line: string)
    requires |line| >= 2 && Ascii(line[..2])
    ensures |Encode(line)| >= 2 && MsgID(line) == Encode(line[..2]) && Text(MsgID(line)) == line[..2]
  {
    assert line == line[..2] + line[2..];
    EncodeAppend(line[..2], line[2..]);
    EncodeAscii(line[..2]);
  }

  /**
   * A line that starts with the code of a response type goes to that type's
   * decoder, and the registry returns what the decoder returns.
   */
  lemma Dispatch(line: string, d: char, bad: string, n: int)
    requires n in Decoders && |line| >= 2 && MsgTypes.ID(n) == Ok(line[..2])
    ensures Unmarshal(line, d, bad) == Ok(Report(Encode(line[..2]), Decoders[n](line, d, bad)))
  {
    AsciiCode(line);
    assert TypeNamed(MsgID(line)) == Some(n);
  }

  /** Exactly the response types register a decoder. */
  lemma DecodersAreResponses()
    ensures Decoders.Keys == MsgTypes.Responses
  {
  }

  /**
   * The identifier is taken in bytes: a line that opens with a non-ASCII
   * rune has two bytes even when it is a single rune, and is an unknown response.
   */
  lemma NonAsciiUnknown(line: string, d: char, bad: string)
    requires |line| >= 1 && line[0] as int >= 0x80
    ensures |Encode(line)| >= 2
    ensures Unmarshal(line, d, bad) == Ok(Outcome(None, Encode(line)[..2], Some(UnknownResponse)))
  {
    assert Encode(line) == Utf8(line[0]) + Encode(line[1..]);
    assert Text(MsgID(line))[0] as int >= 0xC0;
  }

  /** A line that starts with a request code is an unknown response. */
  lemma RequestUnknown(line: string, d: char, bad: string, n: int)
    requires n in MsgTypes.Requests && |line| >= 2 && MsgTypes.ID(n) == Ok(line[..2])
    ensures Unmarshal(line, d, bad) == Ok(Outcome(None, Encode(line[..2]), Some(UnknownResponse)))
  {
    AsciiCode(line);
    MsgTypes.NamedExactly(n);
    DecodersAreResponses();
    assert TypeNamed(MsgID(line)) == Some(n);
  }

  /** Only a line that starts with a response type's code decodes to a response. */
  lemma DecodedCode(line: string, d: char, bad: string)
    requires Unmarshal(line, d, bad).Ok? && Unmarshal(line, d, bad).value.resp.Some?
    ensures |line| >= 2 && exists n :: n in MsgTypes.Responses && MsgTypes.ID(n) == Ok(line[..2])
  {
    var n := TypeNamed(MsgID(line)).value;
    DecodersAreResponses();
    DigitsAreRunes(line);
    assert n in MsgTypes.Responses && MsgTypes.ID(n) == Ok(line[..2]);
  }
}
