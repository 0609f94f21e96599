/**
 * The 10-position summary field of a patron information request: six Y/N
 * flags, one per category of items the terminal wants detailed, then four
 * blanks.
 */
module FieldsSummary {
  import opened Errors
  import Utils
  import Flags

  datatype Summary = Summary(
    HoldItems: bool,
    OverdueItems: bool,
    ChargedItems: bool,
    FineItems: bool,
    RecallItems: bool,
    UnavailableHolds: bool)

  /** The number of flags. */
  const Width: nat := 6

  /** The flags in position order. */
  function Bits(s: Summary): (bs: seq<bool>)
    ensures |bs| == Width
  {
    [s.HoldItems, s.OverdueItems, s.ChargedItems, s.FineItems, s.RecallItems, s.UnavailableHolds]
  }

  /** The summary whose flags are bs, in position order. */
  function FromBits(bs: seq<bool>): Summary
    requires |bs| == Width
  {
    Summary(bs[0], bs[1], bs[2], bs[3], bs[4], bs[5])
  }

  lemma FromBitsBits(s: Summary)
    ensures FromBits(Bits(s)) == s
  {
  }

  lemma BitsFromBits(bs: seq<bool>)
    requires |bs| == Width
    ensures Bits(FromBits(bs)) == bs
  {
    assert bs == [bs[0], bs[1], bs[2], bs[3], bs[4], bs[5]];
  }

  /** Marshal: ten runes, the six flags as Y or N and then four blanks. */
  function Marshal(s: Summary): (r: string)
    ensures |r| == 10 && r[Width..] == "    "
    ensures forall i | 0 <= i < Width :: r[i] in "YN" && Utils.ParseBool(r[i]) == Bits(s)[i]
  {
    Flags.Text(Bits(s)) + "    "
  }

  /**
   * Unmarshal: fewer than six runes is an error; otherwise flag i is
   * ParseBool of rune i, and nothing past rune 5 is looked at.
   */
  function Unmarshal(line: string): (r: Result<Summary>)
    ensures |line| < Width <==> r == Err(InvalidFieldSummary)
    ensures r.Ok? ==> forall i | 0 <= i < Width :: Bits(r.value)[i] == Utils.ParseBool(line[i])
  {
    if |line| < Width then Err(InvalidFieldSummary)
    else
      BitsFromBits(Flags.Read(line, Width));
      Ok(FromBits(Flags.Read(line, Width)))
  }

  /** Unmarshal(Marshal(s)) restores all six flags. */
  lemma RoundTrip(s: Summary, rest: string)
    ensures Unmarshal(Marshal(s) + rest) == Ok(s)
  {
    assert Marshal(s) + rest == Flags.Text(Bits(s)) + ("    " + rest);
    Flags.ReadText(Bits(s), "    " + rest);
    FromBitsBits(s);
  }

  /** The first six runes of Marshal(s) are enough to read s back. */
  lemma RoundTripFlags(s: Summary)
    ensures Unmarshal(Marshal(s)[..Width]) == Ok(s)
  {
    assert Marshal(s)[..Width] == Flags.Text(Bits(s)) + "";
    Flags.ReadText(Bits(s), "");
    FromBitsBits(s);
  }

  /** The number of flags set. */
  function CountTrue(bs: seq<bool>): (n: nat)
    ensures n <= |bs|
  {
    if |bs| == 0 then 0 else CountTrue(bs[..|bs| - 1]) + (if bs[|bs| - 1] then 1 else 0)
  }

  /** Validate: at most one category may be asked for; the error carries the count. */
  function Validate(s: Summary): (r: Option<Error>)
    ensures r.Some? ==> r.value == SummaryTooManyFlags(CountTrue(Bits(s))) && CountTrue(Bits(s)) > 1
  {
    var n := CountTrue(Bits(s));
    if n > 1 then Some(SummaryTooManyFlags(n)) else None
  }

  /** Two distinct flags set make the count exceed one, and one flag alone does not. */
  lemma {:induction false} CountAtMostOne(bs: seq<bool>)
    ensures CountTrue(bs) <= 1 <==> forall i, j | 0 <= i < j < |bs| :: !(bs[i] && bs[j])
  {
    if |bs| > 0 {
      var init := bs[..|bs| - 1];
      CountAtMostOne(init);
      CountZero(init);
      if CountTrue(bs) <= 1 {
        forall i, j | 0 <= i < j < |bs| ensures !(bs[i] && bs[j]) {
          if j < |bs| - 1 {
            assert bs[i] == init[i] && bs[j] == init[j];
          } else if bs[j] {
            assert init[i] == bs[i];
          }
        }
      } else {
        if bs[|bs| - 1] {
          var k :| 0 <= k < |init| && init[k];
          assert bs[k] && bs[|bs| - 1];
        } else {
          var i, j :| 0 <= i < j < |init| && init[i] && init[j];
          assert bs[i] && bs[j];
        }
      }
    }
  }

  /** The count is zero exactly when no flag is set. */
  lemma {:induction false} CountZero(bs: seq<bool>)
    ensures CountTrue(bs) == 0 <==> forall i | 0 <= i < |bs| :: !bs[i]
  {
    if |bs| > 0 {
      var init := bs[..|bs| - 1];
      CountZero(init);
      assert forall i | 0 <= i < |init| :: init[i] == bs[i];
    }
  }

  /** A summary passes validation exactly when no two categories are asked for. */
  lemma ValidateIff(s: Summary)
    ensures Validate(s) == None <==> forall i, j | 0 <= i < j < Width :: !(Bits(s)[i] && Bits(s)[j])
  {
    CountAtMostOne(Bits(s));
  }
}
