/**
 * The request registry: a line from a terminal is routed by its first two
 * bytes to the decoder of the request type with that code.
 */
module RequestRegistry {
  import opened Errors
  import opened Bytes
  import opened Numbers
  import Utils
  import MsgTypes
  import RequestACSResend
  import RequestBlockPatron
  import RequestCheckin
  import RequestCheckout
  import RequestEndPatronSession
  import RequestFeePaid
  import RequestHold
  import RequestItemInfo
  import RequestItemStatusUpdate
  import RequestPatronEnable
  import RequestPatronInfo
  import RequestPatronStatus
  import RequestRenew
  import RequestRenewAll
  import RequestSCLogin
  import RequestSCStatus

  /** A decoded request of any of the sixteen types. */
  datatype Request =
    | BlockPatron(RequestBlockPatron.BlockPatron)
    | Checkin(RequestCheckin.Checkin)
    | Checkout(RequestCheckout.Checkout)
    | Hold(RequestHold.Hold)
    | ItemInfo(RequestItemInfo.ItemInfo)
    | ItemStatusUpdate(RequestItemStatusUpdate.ItemStatusUpdate)
    | PatronStatus(RequestPatronStatus.PatronStatus)
    | PatronEnable(RequestPatronEnable.PatronEnable)
    | Renew(RequestRenew.Renew)
    | EndPatronSession(RequestEndPatronSession.EndPatronSession)
    | FeePaid(RequestFeePaid.FeePaid)
    | PatronInfo(RequestPatronInfo.PatronInfo)
    | RenewAll(RequestRenewAll.RenewAll)
    | SCLogin(RequestSCLogin.SCLogin)
    | ACSResend(RequestACSResend.ACSResend)
    | SCStatus(RequestSCStatus.SCStatus)

  /**
   * What the registry returns for a line it could index: the request (none
   * on failure), the message identifier and the error (none on success).
   */
  datatype Outcome = Outcome(req: Option<Request>, msgID: seq<byte>, err: Option<Error>)

  /** The message identifier: the first two bytes of the line's UTF-8 encoding. */
  function MsgID(line: string): (id: seq<byte>)
    requires |Encode(line)| >= 2
    ensures |id| == 2 && id == Encode(line)[..2]
  {
    Encode(line)[..2]
  }

  /** Bytes read as text, one rune per byte; the codes are ASCII, so this compares bytes. */
  function Text(id: seq<byte>): (s: string)
    ensures |s| == |id| && forall i | 0 <= i < |id| :: s[i] as int == id[i] as int
  {
    seq(|id|, i requires 0 <= i < |id| => (id[i] as int) as char)
  }

  /** A decoder: a line, the delimiter and the bad characters to a request or an error. */
  type Decoder = (string, char, string) -> Result<Request>

  /** The decoder that request type n registers. */
  function DecoderOf(n: int): Decoder
    requires n in MsgTypes.Requests
  {
    if n == MsgTypes.ReqBlockPatron then AsBlockPatron
    else if n == MsgTypes.ReqCheckin then AsCheckin
    else if n == MsgTypes.ReqCheckout then AsCheckout
    else if n == MsgTypes.ReqHold then AsHold
    else if n == MsgTypes.ReqItemInfo then AsItemInfo
    else if n == MsgTypes.ReqItemStatusUpdate then AsItemStatusUpdate
    else if n == MsgTypes.ReqPatronStatus then AsPatronStatus
    else if n == MsgTypes.ReqPatronEnable then AsPatronEnable
    else if n == MsgTypes.ReqRenew then AsRenew
    else if n == MsgTypes.ReqEndPatronSession then AsEndPatronSession
    else if n == MsgTypes.ReqFeePaid then AsFeePaid
    else if n == MsgTypes.ReqPatronInfo then AsPatronInfo
    else if n == MsgTypes.ReqRenewAll then AsRenewAll
    else if n == MsgTypes.ReqSCLogin then AsSCLogin
    else if n == MsgTypes.ReqACSResend then AsACSResend
    else AsSCStatus
  }

  /** The decoders registered, by message type. */
  const Decoders: map<int, Decoder> := map n | n in MsgTypes.Requests :: DecoderOf(n)

  /** Each type's decoder, its result wrapped as a request of any type. */
  function AsBlockPatron(line: string, d: char, bad: string): (r: Result<Request>)
    ensures r.Ok? ==> r.value.BlockPatron?
  {
    match RequestBlockPatron.Unmarshal(line, d, bad)
    case Ok(m) => Ok(BlockPatron(m))
    case Err(e) => Err(e)
  }

  function AsCheckin(line: string, d: char, bad: string): (r: Result<Request>)
    ensures r.Ok? ==> r.value.Checkin?
  {
    match RequestCheckin.Unmarshal(line, d, bad)
    case Ok(m) => Ok(Checkin(m))
    case Err(e) => Err(e)
  }

  function AsCheckout(line: string, d: char, bad: string): (r: Result<Request>)
    ensures r.Ok? ==> r.value.Checkout?
  {
    match RequestCheckout.Unmarshal(line, d, bad)
    case Ok(m) => Ok(Checkout(m))
    case Err(e) => Err(e)
  }

  function AsHold(line: string, d: char, bad: string): (r: Result<Request>)
    ensures r.Ok? ==> r.value.Hold?
  {
    match RequestHold.Unmarshal(line, d, bad)
    case Ok(m) => Ok(Hold(m))
    case Err(e) => Err(e)
  }

  function AsItemInfo(line: string, d: char, bad: string): (r: Result<Request>)
    ensures r.Ok? ==> r.value.ItemInfo?
  {
    match RequestItemInfo.Unmarshal(line, d, bad)
    case Ok(m) => Ok(ItemInfo(m))
    case Err(e) => Err(e)
  }

  function AsItemStatusUpdate(line: string, d: char, bad: string): (r: Result<Request>)
    ensures r.Ok? ==> r.value.ItemStatusUpdate?
  {
    match RequestItemStatusUpdate.Unmarshal(line, d, bad)
    case Ok(m) => Ok(ItemStatusUpdate(m))
    case Err(e) => Err(e)
  }

  function AsPatronStatus(line: string, d: char, bad: string): (r: Result<Request>)
    ensures r.Ok? ==> r.value.PatronStatus?
  {
    match RequestPatronStatus.Unmarshal(line, d, bad)
    case Ok(m) => Ok(PatronStatus(m))
    case Err(e) => Err(e)
  }

  function AsPatronEnable(line: string, d: char, bad: string): (r: Result<Request>)
    ensures r.Ok? ==> r.value.PatronEnable?
  {
    match RequestPatronEnable.Unmarshal(line, d, bad)
    case Ok(m) => Ok(PatronEnable(m))
    case Err(e) => Err(e)
  }

  function AsRenew(line: string, d: char, bad: string): (r: Result<Request>)
    ensures r.Ok? ==> r.value.Renew?
  {
    match RequestRenew.Unmarshal(line, d, bad)
    case Ok(m) => Ok(Renew(m))
    case Err(e) => Err(e)
  }

  function AsEndPatronSession(line: string, d: char, bad: string): (r: Result<Request>)
    ensures r.Ok? ==> r.value.EndPatronSession?
  {
    match RequestEndPatronSession.Unmarshal(line, d, bad)
    case Ok(m) => Ok(EndPatronSession(m))
    case Err(e) => Err(e)
  }

  function AsFeePaid(line: string, d: char, bad: string): (r: Result<Request>)
    ensures r.Ok? ==> r.value.FeePaid?
  {
    match RequestFeePaid.Unmarshal(line, d, bad)
    case Ok(m) => Ok(FeePaid(m))
    case Err(e) => Err(e)
  }

  function AsPatronInfo(line: string, d: char, bad: string): (r: Result<Request>)
    ensures r.Ok? ==> r.value.PatronInfo?
  {
    match RequestPatronInfo.Unmarshal(line, d, bad)
    case Ok(m) => Ok(PatronInfo(m))
    case Err(e) => Err(e)
  }

  function AsRenewAll(line: string, d: char, bad: string): (r: Result<Request>)
    ensures r.Ok? ==> r.value.RenewAll?
  {
    match RequestRenewAll.Unmarshal(line, d, bad)
    case Ok(m) => Ok(RenewAll(m))
    case Err(e) => Err(e)
  }

  function AsSCLogin(line: string, d: char, bad: string): (r: Result<Request>)
    ensures r.Ok? ==> r.value.SCLogin?
  {
    match RequestSCLogin.Unmarshal(line, d, bad)
    case Ok(m) => Ok(SCLogin(m))
    case Err(e) => Err(e)
  }

  function AsACSResend(line: string, d: char, bad: string): (r: Result<Request>)
    ensures r.Ok? ==> r.value.ACSResend?
  {
    match RequestACSResend.Unmarshal(line, d, bad)
    case Ok(m) => Ok(ACSResend(m))
    case Err(e) => Err(e)
  }

  function AsSCStatus(line: string, d: char, bad: string): (r: Result<Request>)
    ensures r.Ok? ==> r.value.SCStatus?
  {
    match RequestSCStatus.Unmarshal(line, d, bad)
    case Ok(m) => Ok(SCStatus(m))
    case Err(e) => Err(e)
  }

  /** The type a message identifier names, when it is two ASCII digits. */
  function TypeNamed(id: seq<byte>): (n: Option<int>)
    ensures n.Some? <==> |id| == 2 && AllDigits(Text(id))
    ensures n.Some? ==> MsgTypes.ID(n.value) == Ok(Text(id))
  {
    if |id| == 2 && AllDigits(Text(id)) then
      MsgTypes.IDOfDigits(Text(id));
      Some(ParseDigits(Text(id)))
    else None
  }

  /** The outcome of running a known type's decoder. */
  function Report(id: seq<byte>, res: Result<Request>): (o: Outcome)
    ensures o.msgID == id && (o.req.Some? <==> o.err.None?)
    ensures o.req.Some? <==> res.Ok?
    ensures res.Ok? ==> o.req == Some(res.value)
    ensures res.Err? ==> o.err == Some(res.error)
  {
    match res
    case Ok(req) => Outcome(Some(req), id, None)
    case Err(e) => Outcome(None, id, Some(e))
  }

  /**
   * Unmarshal: index the first two bytes (a line shorter than that faults),
   * refuse a code that is not a request's, otherwise return what that
   * type's decoder returns.
   */
  function Unmarshal(line: string, d: char, bad: string): (r: Result<Outcome>)
    ensures r.Err? <==> |Encode(line)| < 2
    ensures r.Err? ==> r.error == IndexOutOfRange
    ensures r.Ok? ==> r.value.msgID == MsgID(line)
    ensures r.Ok? ==> (r.value.req.Some? <==> r.value.err.None?)
  {
    if |Encode(line)| < 2 then Err(IndexOutOfRange)
    else
      var id := MsgID(line);
      match TypeNamed(id)
      case None => Ok(Outcome(None, id, Some(UnknownRequest)))
      case Some(n) =>
        if n in Decoders then Ok(Report(id, Decoders[n](line, d, bad)))
        else Ok(Outcome(None, id, Some(UnknownRequest)))
  }

  /**
   * InitValidator: the bad characters of the "sip" rule are the given runes
   * in order; a field passes the rule exactly when it holds none of them.
   */
  method InitValidator(excludeChars: seq<char>) returns (badChars: string)
    ensures badChars == excludeChars
    ensures forall s :: Utils.SipField(s, badChars) <==> |s| <= 255 && forall i | 0 <= i < |s| :: s[i] !in excludeChars
  {
    badChars := "";
    for i := 0 to |excludeChars|
      invariant badChars == excludeChars[..i]
    {
      badChars := badChars + [excludeChars[i]];
    }
  }

  /** Each code the registry switches on is the ID of its request type. */
  lemma CodesAreIDs()
    ensures MsgTypes.ID(MsgTypes.ReqBlockPatron) == Ok(RequestBlockPatron.Code)
    ensures MsgTypes.ID(MsgTypes.ReqCheckin) == Ok(RequestCheckin.Code)
    ensures MsgTypes.ID(MsgTypes.ReqCheckout) == Ok(RequestCheckout.Code)
    ensures MsgTypes.ID(MsgTypes.ReqHold) == Ok(RequestHold.Code)
    ensures MsgTypes.ID(MsgTypes.ReqItemInfo) == Ok(RequestItemInfo.Code)
    ensures MsgTypes.ID(MsgTypes.ReqItemStatusUpdate) == Ok(RequestItemStatusUpdate.Code)
    ensures MsgTypes.ID(MsgTypes.ReqPatronStatus) == Ok(RequestPatronStatus.Code)
    ensures MsgTypes.ID(MsgTypes.ReqPatronEnable) == Ok(RequestPatronEnable.Code)
    ensures MsgTypes.ID(MsgTypes.ReqRenew) == Ok(RequestRenew.Code)
    ensures MsgTypes.ID(MsgTypes.ReqEndPatronSession) == Ok(RequestEndPatronSession.Code)
    ensures MsgTypes.ID(MsgTypes.ReqFeePaid) == Ok(RequestFeePaid.Code)
    ensures MsgTypes.ID(MsgTypes.ReqPatronInfo) == Ok(RequestPatronInfo.Code)
    ensures MsgTypes.ID(MsgTypes.ReqRenewAll) == Ok(RequestRenewAll.Code)
    ensures MsgTypes.ID(MsgTypes.ReqSCLogin) == Ok(RequestSCLogin.Code)
    ensures MsgTypes.ID(MsgTypes.ReqACSResend) == Ok(RequestACSResend.Code)
    ensures MsgTypes.ID(MsgTypes.ReqSCStatus) == Ok(RequestSCStatus.Code)
  {
  }

  /** Bytes that are two ASCII digits are the line's first two runes. */
  lemma {:induction false} DigitsAreRunes(line: string)
    requires |Encode(line)| >= 2 && AllDigits(Text(MsgID(line)))
    ensures |line| >= 2 && line[..2] == Text(MsgID(line))
  {
    var id := MsgID(line);
    assert id[0] as int < 0x80 && id[1] as int < 0x80;
    assert |line| > 0;
    var rest := Encode(line[1..]);
    assert Encode(line) == Utf8(line[0]) + rest;
    assert |Utf8(line[0])| == 1 && line[0] as int == id[0] as int;
    assert |rest| >= 1 && rest[0] == id[1];
    assert |line[1..]| > 0;
    assert rest == Utf8(line[1]) + Encode(line[1..][1..]);
    assert line[1] as int == id[1] as int;
  }

  /** A line whose first two runes are ASCII has them as its message identifier. */
  lemma AsciiCode(line: string)
    requires |line| >= 2 && Ascii(line[..2])
    ensures |Encode(line)| >= 2 && MsgID(line) == Encode(line[..2]) && Text(MsgID(line)) == line[..2]
  {
    assert line == line[..2] + line[2..];
    EncodeAppend(line[..2], line[2..]);
    EncodeAscii(line[..2]);
  }

  /**
   * A line that starts with the code of a request type goes to that type's
   * decoder, and the registry returns what the decoder returns.
   */
  lemma Dispatch(line: string, d: char, bad: string, n: int)
    requires n in Decoders && |line| >= 2 && MsgTypes.ID(n) == Ok(line[..2])
    ensures Unmarshal(line, d, bad) == Ok(Report(Encode(line[..2]), Decoders[n](line, d, bad)))
  {
    AsciiCode(line);
    assert TypeNamed(MsgID(line)) == Some(n);
  }

  /** Exactly the request types register a decoder. */
  lemma DecodersAreRequests()
    ensures Decoders.Keys == MsgTypes.Requests
  {
  }

  /**
   * The identifier is taken in bytes: a line that opens with a non-ASCII
   * rune has two bytes even when it is a single rune, and is an unknown request.
   */
  lemma NonAsciiUnknown(line: string, d: char, bad: string)
    requires |line| >= 1 && line[0] as int >= 0x80
    ensures |Encode(line)| >= 2
    ensures Unmarshal(line, d, bad) == Ok(Outcome(None, Encode(line)[..2], Some(UnknownRequest)))
  {
    assert Encode(line) == Utf8(line[0]) + Encode(line[1..]);
    assert Text(MsgID(line))[0] as int >= 0xC0;
  }

  /** A line that starts with a response code is an unknown request. */
  lemma ResponseUnknown(line: string, d: char, bad: string, n: int)
    requires n in MsgTypes.Responses && |line| >= 2 && MsgTypes.ID(n) == Ok(line[..2])
    ensures Unmarshal(line, d, bad) == Ok(Outcome(None, Encode(line[..2]), Some(UnknownRequest)))
  {
    AsciiCode(line);
    MsgTypes.NamedExactly(n);
    DecodersAreRequests();
    assert TypeNamed(MsgID(line)) == Some(n);
  }

  /** Only a line that starts with a request type's code decodes to a request. */
  lemma DecodedCode(line: string, d: char, bad: string)
    requires Unmarshal(line, d, bad).Ok? && Unmarshal(line, d, bad).value.req.Some?
    ensures |line| >= 2 && exists n :: n in MsgTypes.Requests && MsgTypes.ID(n) == Ok(line[..2])
  {
    var n := TypeNamed(MsgID(line)).value;
    DecodersAreRequests();
    DigitsAreRunes(line);
    assert n in MsgTypes.Requests && MsgTypes.ID(n) == Ok(line[..2]);
  }
}
