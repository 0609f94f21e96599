/**
 * SC Resend response (96): the ACS asks the terminal to send its last
 * message again. The message has no fields and never carries a sequence
 * number, only a checksum when error detection is on.
 */
module ResponseSCResend {
  import opened Errors
  import Utils

  const Code: string := "96"

  datatype SCResend = SCResend

  /** Marshal: the code, then "AZ" and the checksum when error detection is on. */
  function Marshal(m: SCResend, d: char, t: char, ed: bool): (r: string)
    ensures !ed ==> r == Code + [t]
    ensures ed ==> |r| == 9 && r[..4] == Code + "AZ" && r[8] == t
    ensures ed ==> r[4..8] == Utils.Checksum(Code + "AZ")
  {
    if ed then
      Utils.ChecksumWidth(Code + "AZ");
      var s := Code + "AZ";
      assert "9"[..0] == "" && Utils.RuneSum("9") == 57;
      assert "96"[..1] == "9" && Utils.RuneSum("96") == 111;
      assert "96A"[..2] == "96" && Utils.RuneSum("96A") == 176;
      assert s[..3] == "96A" && Utils.RuneSum(s) == 266;
      Code + "AZ" + Utils.Checksum(Code + "AZ") + [t]
    else
      Code + [t]
  }

  /** Unmarshal: any line of at least two runes that starts with the code; nothing after it is read. */
  function Unmarshal(line: string, d: char, bad: string): (r: Result<SCResend>)
    ensures r.Ok? <==> |line| >= 2 && line[..2] == Code
    ensures r.Err? ==> r.error == InvalidMessage(Code)
  {
    if |line| < 2 || line[..2] != Code then Err(InvalidMessage(Code)) else Ok(SCResend)
  }

  /** Every encoding decodes. */
  lemma RoundTrip(m: SCResend, d: char, t: char, ed: bool, bad: string)
    ensures Unmarshal(Marshal(m, d, t, ed), d, bad) == Ok(m)
  {
    var r := Marshal(m, d, t, ed);
    if ed {
      assert r[..2] == r[..4][..2];
    }
  }
}
