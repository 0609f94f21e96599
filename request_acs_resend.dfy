/**
 * ACS Resend request (97): the terminal asks the ACS to send its last
 * message again. The message has no fields and never carries a sequence
 * number, only a checksum when error detection is on.
 */
module RequestACSResend {
  import opened Errors
  import Utils

  const Code: string := "97"

  datatype ACSResend = ACSResend

  /** Marshal: the code, then "AZ" and the checksum when error detection is on. */
  function Marshal(m: ACSResend, d: char, t: char, ed: bool): (r: string)
    ensures !ed ==> r == Code + [t]
    ensures ed ==> |r| == 9 && r[..4] == Code + "AZ" && r[8] == t
    ensures ed ==> r[4..8] == Utils.Checksum(Code + "AZ")
  {
    if ed then
      Utils.ChecksumWidth(Code + "AZ");
      var s := Code + "AZ";
      assert "9"[..0] == "" && Utils.RuneSum("9") == 57;
      assert "97"[..1] == "9" && Utils.RuneSum("97") == 112;
      assert "97A"[..2] == "97" && Utils.RuneSum("97A") == 177;
      assert s[..3] == "97A" && Utils.RuneSum(s) == 267;
      Code + "AZ" + Utils.Checksum(Code + "AZ") + [t]
    else
      Code + [t]
  }

  /** Unmarshal: any line of at least two runes that starts with the code. */
  function Unmarshal(line: string, d: char, bad: string): (r: Result<ACSResend>)
    ensures r.Ok? <==> |line| >= 2 && line[..2] == Code
    ensures r.Err? ==> r.error == InvalidMessage(Code)
  {
    if |line| < 2 || line[..2] != Code then Err(InvalidMessage(Code)) else Ok(ACSResend)
  }

  /** Every encoding decodes. */
  lemma RoundTrip(m: ACSResend, d: char, t: char, ed: bool, bad: string)
    ensures Unmarshal(Marshal(m, d, t, ed), d, bad) == Ok(m)
  {
    var r := Marshal(m, d, t, ed);
    if ed {
      assert r[..2] == r[..4][..2];
    }
  }
}
