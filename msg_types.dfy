/**
 * The message-code table: each SIP2 message type is a number 0..99, written
 * on the wire as two decimal digits, and has a display name.
 */
module MsgTypes {
  import opened Errors
  import opened Numbers

  const ReqBlockPatron: int := 1
  const ReqCheckin: int := 9
  const RespCheckin: int := 10
  const ReqCheckout: int := 11
  const RespCheckout: int := 12
  const ReqHold: int := 15
  const RespHold: int := 16
  const ReqItemInfo: int := 17
  const RespItemInfo: int := 18
  const ReqItemStatusUpdate: int := 19
  const RespItemStatusUpdate: int := 20
  const ReqPatronStatus: int := 23
  const RespPatronStatus: int := 24
  const ReqPatronEnable: int := 25
  const RespPatronEnable: int := 26
  const ReqRenew: int := 29
  const RespRenew: int := 30
  const ReqEndPatronSession: int := 35
  const RespEndSession: int := 36
  const ReqFeePaid: int := 37
  const RespFeePaid: int := 38
  const ReqPatronInfo: int := 63
  const RespPatronInfo: int := 64
  const ReqRenewAll: int := 65
  const RespRenewAll: int := 66
  const ReqSCLogin: int := 93
  const RespSCLogin: int := 94
  const RespSCResend: int := 96
  const ReqACSResend: int := 97
  const RespACSStatus: int := 98
  const ReqSCStatus: int := 99

  /** The display names; every other entry of the table is empty. */
  const Names: map<int, string> := map[
    ReqBlockPatron := "Block Patron Request",
    ReqCheckin := "Checkin Request",
    RespCheckin := "Checkin Response",
    ReqCheckout := "Checkout Request",
    RespCheckout := "Checkout Response",
    ReqHold := "Hold Request",
    RespHold := "Hold Response",
    ReqItemInfo := "Item Info Request",
    RespItemInfo := "Item Info Response",
    ReqItemStatusUpdate := "Item Status Update Request",
    RespItemStatusUpdate := "Item Status Update Response",
    ReqPatronStatus := "Patron Status Request",
    RespPatronStatus := "Patron Status Response",
    ReqPatronEnable := "Patron Enable Request",
    RespPatronEnable := "Patron Enable Response",
    ReqRenew := "Renew Request",
    RespRenew := "Renew Response",
    ReqEndPatronSession := "End Patron Session Request",
    RespEndSession := "End Session Response",
    ReqFeePaid := "Fee Paid Request",
    RespFeePaid := "Fee Paid Response",
    ReqPatronInfo := "Patron Info Request",
    RespPatronInfo := "Patron Info Response",
    ReqRenewAll := "Renew All Request",
    RespRenewAll := "Renew All Response",
    ReqSCLogin := "SC Login Request",
    RespSCLogin := "SC Login Response",
    RespSCResend := "SC Resend Response",
    ReqACSResend := "ACS Resend Request",
    RespACSStatus := "ACS Status Response",
    ReqSCStatus := "SC Status Request"]

  /** The request codes and the response codes. */
  const Requests: set<int> := {ReqBlockPatron, ReqCheckin, ReqCheckout, ReqHold, ReqItemInfo, ReqItemStatusUpdate,
    ReqPatronStatus, ReqPatronEnable, ReqRenew, ReqEndPatronSession, ReqFeePaid, ReqPatronInfo, ReqRenewAll,
    ReqSCLogin, ReqACSResend, ReqSCStatus}
  const Responses: set<int> := {RespCheckin, RespCheckout, RespHold, RespItemInfo, RespItemStatusUpdate,
    RespPatronStatus, RespPatronEnable, RespRenew, RespEndSession, RespFeePaid, RespPatronInfo, RespRenewAll,
    RespSCLogin, RespSCResend, RespACSStatus}

  /** ID: the two-digit code of a message type; outside the table the lookup faults. */
  function ID(m: int): (r: Result<string>)
    ensures r.Ok? <==> 0 <= m <= 99
    ensures r.Err? ==> r.error == IndexOutOfRange
    ensures r.Ok? ==> |r.value| == 2 && AllDigits(r.value) && Atoi(r.value) == Ok(m)
  {
    if 0 <= m <= 99 then
      var s := [DigitChar(m / 10), DigitChar(m % 10)];
      assert s[..1] == [DigitChar(m / 10)];
      assert ParseDigits(s) == m;
      AtoiOfDigits(s);
      Ok(s)
    else Err(IndexOutOfRange)
  }

  /** String: the display name of a message type, empty for an unnamed one; outside the table the lookup faults. */
  function Name(m: int): (r: Result<string>)
    ensures r.Ok? <==> 0 <= m <= 99
    ensures r.Err? ==> r.error == IndexOutOfRange
  {
    if 0 <= m <= 99 then Ok(if m in Names then Names[m] else "") else Err(IndexOutOfRange)
  }

  /** Different message types have different codes. */
  lemma IDInjective(m: int, n: int)
    requires 0 <= m <= 99 && 0 <= n <= 99 && ID(m) == ID(n)
    ensures m == n
  {
  }

  /** A code of two digits is the ID of the number it spells. */
  lemma IDOfDigits(s: string)
    requires |s| == 2 && AllDigits(s)
    ensures ID(ParseDigits(s)) == Ok(s)
  {
    var n := ParseDigits(s);
    assert s[..1][..0] == [] && s[..1][0] == s[0];
    assert ParseDigits(s[..1]) == DigitValue(s[0]);
    assert n == 10 * DigitValue(s[0]) + DigitValue(s[1]);
    assert n / 10 == DigitValue(s[0]) && n % 10 == DigitValue(s[1]);
    assert ID(n).value == [DigitChar(DigitValue(s[0])), DigitChar(DigitValue(s[1]))];
    assert DigitChar(DigitValue(s[0])) == s[0] && DigitChar(DigitValue(s[1])) == s[1];
    assert [s[0], s[1]] == s;
  }

  /** Exactly the request and response types have a name, and no type is both. */
  lemma NamedExactly(m: int)
    requires 0 <= m <= 99
    ensures Name(m).value != "" <==> m in Requests || m in Responses
    ensures !(m in Requests && m in Responses)
  {
  }

  /** Each response answers the request whose code is one less. */
  lemma ResponseFollowsRequest()
    ensures RespCheckin == ReqCheckin + 1 && RespCheckout == ReqCheckout + 1 && RespHold == ReqHold + 1
    ensures RespItemInfo == ReqItemInfo + 1 && RespItemStatusUpdate == ReqItemStatusUpdate + 1
    ensures RespPatronStatus == ReqPatronStatus + 1 && RespPatronEnable == ReqPatronEnable + 1
    ensures RespRenew == ReqRenew + 1 && RespEndSession == ReqEndPatronSession + 1 && RespFeePaid == ReqFeePaid + 1
    ensures RespPatronInfo == ReqPatronInfo + 1 && RespRenewAll == ReqRenewAll + 1 && RespSCLogin == ReqSCLogin + 1
  {
  }
}
