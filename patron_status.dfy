/**
 * The 14-position patron status field: one Y/N flag per condition, in the
 * order of the NISO Z39.70 draft, DenyCharges first.
 */
module FieldsPatronStatus {
  import opened Errors
  import Utils
  import Flags

  datatype PatronStatus = PatronStatus(
    DenyCharges: bool,
    DenyRenewals: bool,
    DenyRecalls: bool,
    DenyHolds: bool,
    CardLost: bool,
    TooManyCharged: bool,
    TooManyOverdue: bool,
    TooManyRenewals: bool,
    TooManyClaimsReturned: bool,
    TooManyItemsLost: bool,
    ExceedsFines: bool,
    ExceedsFees: bool,
    RecallOverdue: bool,
    TooManyBilled: bool)

  /** The number of positions of the field. */
  const Width: nat := 14

  /** The flags in position order. */
  function Bits(ps: PatronStatus): (bs: seq<bool>)
    ensures |bs| == Width
  {
    [ps.DenyCharges, ps.DenyRenewals, ps.DenyRecalls, ps.DenyHolds, ps.CardLost,
     ps.TooManyCharged, ps.TooManyOverdue, ps.TooManyRenewals, ps.TooManyClaimsReturned,
     ps.TooManyItemsLost, ps.ExceedsFines, ps.ExceedsFees, ps.RecallOverdue, ps.TooManyBilled]
  }

  /** The status whose flags are bs, in position order. */
  function FromBits(bs: seq<bool>): (ps: PatronStatus)
    requires |bs| == Width
  {
    PatronStatus(bs[0], bs[1], bs[2], bs[3], bs[4], bs[5], bs[6], bs[7], bs[8], bs[9], bs[10], bs[11], bs[12], bs[13])
  }

  /** Reading the flags back gives the status. */
  lemma FromBitsBits(ps: PatronStatus)
    ensures FromBits(Bits(ps)) == ps
  {
  }

  /** Writing the flags of a status read from bs gives bs. */
  lemma BitsFromBits(bs: seq<bool>)
    requires |bs| == Width
    ensures Bits(FromBits(bs)) == bs
  {
    assert bs == [bs[0], bs[1], bs[2], bs[3], bs[4], bs[5], bs[6], bs[7], bs[8], bs[9], bs[10], bs[11], bs[12], bs[13]];
  }

  /** Marshal: exactly 14 runes, each Y or N, rune i telling flag i. */
  function Marshal(ps: PatronStatus): (s: string)
    ensures |s| == Width
    ensures forall i | 0 <= i < Width :: s[i] in "YN" && Utils.ParseBool(s[i]) == Bits(ps)[i]
  {
    Flags.Text(Bits(ps))
  }

  /**
   * Unmarshal: fewer than 14 runes is an error; otherwise flag i is ParseBool
   * of rune i, and nothing past rune 13 is looked at.
   */
  function Unmarshal(line: string): (r: Result<PatronStatus>)
    ensures |line| < Width <==> r == Err(InvalidFieldPatronStatus)
    ensures r.Ok? ==> forall i | 0 <= i < Width :: Bits(r.value)[i] == Utils.ParseBool(line[i])
  {
    if |line| < Width then Err(InvalidFieldPatronStatus)
    else
      BitsFromBits(Flags.Read(line, Width));
      Ok(FromBits(Flags.Read(line, Width)))
  }

  /** Unmarshal(Marshal(ps)) restores all 14 flags, whatever text follows. */
  lemma RoundTrip(ps: PatronStatus, rest: string)
    ensures Unmarshal(Marshal(ps) + rest) == Ok(ps)
  {
    Flags.ReadText(Bits(ps), rest);
    FromBitsBits(ps);
  }

  /** The blank the standard uses for "not true" reads as false, like every rune but Y, y and 1. */
  lemma BlanksAreFalse()
    ensures Unmarshal("              ") == Ok(FromBits(seq(Width, _ => false)))
  {
  }
}
