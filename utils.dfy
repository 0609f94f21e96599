/**
 * The small wire helpers of the codec: one-character booleans, sequence
 * numbers, the SIP2 checksum and the "sip" field rule.
 */
module Utils {
  import opened Numbers

  /** "Y" for true, "N" for false. */
  function YorN(b: bool): (s: string)
    ensures |s| == 1 && s[0] in "YN" && ParseBool(s[0]) == b
  {
    if b then "Y" else "N"
  }

  /** "Y" for true, a blank for false. */
  function YorBlank(b: bool): (s: string)
    ensures |s| == 1 && s[0] in "Y " && ParseBool(s[0]) == b
  {
    if b then "Y" else " "
  }

  /** "1" for true, "0" for false. */
  function ZeroOrOne(b: bool): (s: string)
    ensures |s| == 1 && s[0] in "01" && ParseBool(s[0]) == b
  {
    if b then "1" else "0"
  }

  /** True for 'Y', 'y' and '1'; false for every other rune. */
  function ParseBool(c: char): (b: bool)
  {
    match c
    case 'Y' => true
    case 'y' => true
    case '1' => true
    case _ => false
  }

  /**
   * The next sequence number: 9 and every negative number wrap to 0, so the
   * numbers 0..9 cycle; above 9 the number keeps growing.
   */
  function IncrementSeqNum(seqNum: int): (next: int)
    ensures 0 <= seqNum <= 9 ==> 0 <= next <= 9 && next == (seqNum + 1) % 10
    ensures seqNum < 0 ==> next == 0
    ensures seqNum > 9 ==> next == seqNum + 1
  {
    if seqNum == 9 || seqNum < 0 then 0 else seqNum + 1
  }

  // ---------------------------------------------------------------------
  // Checksum

  /** The sum of the Unicode code points of s. */
  function RuneSum(s: string): nat
  {
    if |s| == 0 then 0 else RuneSum(s[..|s| - 1]) + s[|s| - 1] as int
  }

  /**
   * x ^ 0xFFFF for a non-negative x: the low 16 bits are inverted and the
   * higher bits are kept.
   */
  function FlipLow16(x: nat): nat
  {
    x - x % 0x10000 + (0xFFFF - x % 0x10000)
  }

  /** The checksum as a number: (sum ^ 0xFFFF) + 1, never reduced to 16 bits. */
  function ChecksumValue(msg: string): nat
  {
    FlipLow16(RuneSum(msg) + 0) + 1
  }

  /** The checksum as text, with the %4.4X verb. */
  function Checksum(msg: string): (s: string)
    ensures |s| >= 4 && AllHex(s)
  {
    Hex4(ChecksumValue(msg))
  }

  /** ComputeChecksum: adds up the runes in a loop and formats the result. */
  method ComputeChecksum(msg: string) returns (checksum: string)
    ensures checksum == Checksum(msg)
  {
    var check := 0;
    var i := 0;
    while i < |msg|
      invariant 0 <= i <= |msg|
      invariant check == RuneSum(msg[..i])
    {
      assert msg[..i + 1][..i] == msg[..i];
      check := check + msg[i] as int;
      i := i + 1;
    }
    assert msg[..i] == msg;
    check := check + 0;  // the rune value of the NUL terminator
    check := FlipLow16(check) + 1;
    checksum := Hex4(check);
  }

  /** AppendChecksum: the message followed by its checksum. */
  function AppendChecksum(msg: string): (r: string)
    ensures |r| >= |msg| + 4 && r[..|msg|] == msg
    ensures AllHex(r[|msg|..]) && HexValue(r[|msg|..]) == ChecksumValue(msg)
  {
    Hex4Value(ChecksumValue(msg));
    assert (msg + Checksum(msg))[|msg|..] == Checksum(msg);
    msg + Checksum(msg)
  }

  /** The appended text is the checksum itself. */
  lemma AppendChecksumText(msg: string)
    ensures AppendChecksum(msg) == msg + Checksum(msg)
  {
  }

  /** Flipping the low 16 bits and adding one negates x modulo 2^16. */
  lemma FlipNegates(x: nat)
    ensures FlipLow16(x) + 1 == 0x10000 * (x / 0x10000) + (0x10000 - x % 0x10000)
    ensures (x + FlipLow16(x) + 1) % 0x10000 == 0
    ensures (FlipLow16(x) + 1) % 0x10000 == (0x10000 - x % 0x10000) % 0x10000
  {
    var q, r := x / 0x10000, x % 0x10000;
    assert x == 0x10000 * q + r;
    assert x + FlipLow16(x) + 1 == 0x10000 * (2 * q + 1);
    var y := 0x10000 - r;
    assert 0x10000 * q + y == 0x10000 * (q + y / 0x10000) + y % 0x10000;
  }

  /** The checksum cancels the message: their sum is 0 modulo 2^16. */
  lemma ChecksumCancels(msg: string)
    ensures (RuneSum(msg) + ChecksumValue(msg)) % 0x10000 == 0
    ensures ChecksumValue(msg) % 0x10000 == (0x10000 - RuneSum(msg) % 0x10000) % 0x10000
  {
    FlipNegates(RuneSum(msg));
  }

  /** The checksum value for each range of rune sums. */
  lemma ChecksumValueCases(msg: string)
    ensures RuneSum(msg) == 0 ==> ChecksumValue(msg) == 0x10000
    ensures 1 <= RuneSum(msg) <= 0xFFFF ==> ChecksumValue(msg) == 0x10000 - RuneSum(msg)
    ensures RuneSum(msg) > 0xFFFF ==> ChecksumValue(msg) > 0x10000
  {
    var x := RuneSum(msg);
    var q, r := x / 0x10000, x % 0x10000;
    assert x == 0x10000 * q + r;
    assert ChecksumValue(msg) == 0x10000 * q + 0x10000 - r;
  }

  /**
   * The checksum text is exactly four digits, denoting 65536 - sum, when the
   * rune sum is 1..65535; otherwise it has five or more digits.
   */
  lemma ChecksumWidth(msg: string)
    ensures |Checksum(msg)| == 4 <==> 1 <= RuneSum(msg) <= 0xFFFF
    ensures 1 <= RuneSum(msg) <= 0xFFFF ==> HexValue(Checksum(msg)) == 0x10000 - RuneSum(msg)
  {
    ChecksumValueCases(msg);
    Hex4Width(ChecksumValue(msg));
    Hex4Value(ChecksumValue(msg));
  }

  /** An empty message (rune sum 0) gets the five-digit checksum "10000". */
  lemma ChecksumOfZeroSum(msg: string)
    requires RuneSum(msg) == 0
    ensures Checksum(msg) == "10000"
  {
    ChecksumValueCases(msg);
    Hex4Of10000();
  }

  // ---------------------------------------------------------------------
  // The "sip" validation tag

  /** strings.ContainsAny: some rune of s is one of chars. */
  function ContainsAny(s: string, chars: string): (r: bool)
    ensures r <==> exists i | 0 <= i < |s| :: s[i] in chars
  {
    if |s| == 0 then false
    else if s[0] in chars then true
    else
      assert forall i | 1 <= i < |s| :: s[i] == s[1..][i - 1];
      ContainsAny(s[1..], chars)
  }

  /**
   * The "sip" rule of the validator: at most 255 runes and none of the
   * configured bad characters (the delimiter and the terminator).
   */
  function SipField(s: string, badChars: string): (ok: bool)
    ensures ok <==> |s| <= 255 && forall i | 0 <= i < |s| :: s[i] !in badChars
  {
    if |s| > 255 then false else !ContainsAny(s, badChars)
  }
}
