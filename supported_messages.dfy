/**
 * The variable-length supported-messages field of an ACS status response:
 * one Y/N flag per message pair, sixteen in all, PatronStatusRequest first.
 */
module FieldsSupportedMessages {
  import Utils
  import Flags

  datatype SupportedMessages = SupportedMessages(
    PatronStatusRequest: bool,
    Checkout: bool,
    Checkin: bool,
    BlockPatron: bool,
    SCACSStatus: bool,
    RequestResend: bool,
    Login: bool,
    PatronInformation: bool,
    EndPatronSession: bool,
    FeePaid: bool,
    ItemInformation: bool,
    ItemStatusUpdate: bool,
    PatronEnable: bool,
    Hold: bool,
    Renew: bool,
    RenewAll: bool)

  /** The number of flags. */
  const Width: nat := 16

  /** The value with every flag false, as a fresh response holds it. */
  const NoneSupported: SupportedMessages :=
    SupportedMessages(false, false, false, false, false, false, false, false,
                      false, false, false, false, false, false, false, false)

  /** The flags in position order. */
  function Bits(sm: SupportedMessages): (bs: seq<bool>)
    ensures |bs| == Width
  {
    [sm.PatronStatusRequest, sm.Checkout, sm.Checkin, sm.BlockPatron, sm.SCACSStatus, sm.RequestResend,
     sm.Login, sm.PatronInformation, sm.EndPatronSession, sm.FeePaid, sm.ItemInformation,
     sm.ItemStatusUpdate, sm.PatronEnable, sm.Hold, sm.Renew, sm.RenewAll]
  }

  /** The value whose flags are bs, in position order. */
  function FromBits(bs: seq<bool>): SupportedMessages
    requires |bs| == Width
  {
    SupportedMessages(bs[0], bs[1], bs[2], bs[3], bs[4], bs[5], bs[6], bs[7],
                      bs[8], bs[9], bs[10], bs[11], bs[12], bs[13], bs[14], bs[15])
  }

  lemma FromBitsBits(sm: SupportedMessages)
    ensures FromBits(Bits(sm)) == sm
  {
  }

  lemma BitsFromBits(bs: seq<bool>)
    requires |bs| == Width
    ensures Bits(FromBits(bs)) == bs
  {
    assert bs == [bs[0], bs[1], bs[2], bs[3], bs[4], bs[5], bs[6], bs[7],
                  bs[8], bs[9], bs[10], bs[11], bs[12], bs[13], bs[14], bs[15]];
  }

  /** Marshal: sixteen runes, each Y or N, rune i telling flag i. */
  function Marshal(sm: SupportedMessages): (s: string)
    ensures |s| == Width
    ensures forall i | 0 <= i < Width :: s[i] in "YN" && Utils.ParseBool(s[i]) == Bits(sm)[i]
  {
    Flags.Text(Bits(sm))
  }

  /** Flags of bs with the first n replaced by the runes of line read as booleans. */
  function Overlay(bs: seq<bool>, line: string, n: nat): (r: seq<bool>)
    requires |bs| == Width && n <= |line| && n <= Width
    ensures |r| == Width
  {
    seq(Width, k requires 0 <= k < Width => if k < n then Utils.ParseBool(line[k]) else bs[k])
  }

  /**
   * What Unmarshal leaves in a receiver that held sm: flag i comes from rune
   * i where the line has one, and keeps its old value past the end of a
   * short line; runes past the sixteenth are ignored.
   */
  function Decoded(sm: SupportedMessages, line: string): (r: SupportedMessages)
  {
    var n := if |line| < Width then |line| else Width;
    FromBits(Overlay(Bits(sm), line, n))
  }

  /** The value with flag i set to b and every other flag kept. */
  function SetBit(sm: SupportedMessages, i: nat, b: bool): (r: SupportedMessages)
    requires i < Width
    ensures Bits(r) == Bits(sm)[i := b]
  {
    BitsFromBits(Bits(sm)[i := b]);
    FromBits(Bits(sm)[i := b])
  }

  /** One more rune read extends the overlay by one position. */
  lemma OverlayStep(bs: seq<bool>, line: string, i: nat)
    requires |bs| == Width && i < |line| && i < Width
    ensures Overlay(bs, line, i)[i := Utils.ParseBool(line[i])] == Overlay(bs, line, i + 1)
  {
  }

  /** Unmarshal never fails: it walks every rune and sets the flag at each of the first sixteen positions. */
  method Unmarshal(sm: SupportedMessages, line: string) returns (r: SupportedMessages)
    ensures r == Decoded(sm, line)
  {
    r := sm;
    var i := 0;
    while i < |line|
      invariant 0 <= i <= |line|
      invariant Bits(r) == Overlay(Bits(sm), line, if i < Width then i else Width)
    {
      if i < Width {
        OverlayStep(Bits(sm), line, i);
        r := SetBit(r, i, Utils.ParseBool(line[i]));
      }
      i := i + 1;
    }
    FromBitsBits(r);
  }

  /** Flag i of the decoded value, in terms of the line and the old value. */
  lemma DecodedAt(sm: SupportedMessages, line: string)
    ensures forall i | 0 <= i < Width ::
      Bits(Decoded(sm, line))[i] == if i < |line| then Utils.ParseBool(line[i]) else Bits(sm)[i]
  {
    var n := if |line| < Width then |line| else Width;
    BitsFromBits(Overlay(Bits(sm), line, n));
  }

  /** A line of sixteen or more runes replaces every flag, whatever the receiver held. */
  lemma FullLineReplaces(sm: SupportedMessages, other: SupportedMessages, line: string)
    requires |line| >= Width
    ensures Decoded(sm, line) == Decoded(other, line)
  {
    assert Overlay(Bits(sm), line, Width) == Overlay(Bits(other), line, Width);
  }

  /** An empty line leaves the receiver as it was. */
  lemma EmptyLineKeeps(sm: SupportedMessages)
    ensures Decoded(sm, "") == sm
  {
    assert Overlay(Bits(sm), "", 0) == Bits(sm);
    FromBitsBits(sm);
  }

  /** Decoding a marshalled value gives it back, whatever the receiver held. */
  lemma RoundTrip(sm: SupportedMessages, receiver: SupportedMessages)
    ensures Decoded(receiver, Marshal(sm)) == sm
  {
    var s := Marshal(sm);
    assert Overlay(Bits(receiver), s, Width) == Bits(sm);
    FromBitsBits(sm);
  }
}
