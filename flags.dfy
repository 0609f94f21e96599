/**
 * Runs of one-character booleans, the building block of the fixed-length flag
 * fields: each flag is written as Y or N and read back with ParseBool.
 */
module Flags {
  import Utils

  /** The flags written one after the other: rune i is the Y/N code of flag i. */
  function Text(bs: seq<bool>): (s: string)
    ensures |s| == |bs|
    ensures forall i | 0 <= i < |bs| :: s[i] == Utils.YorN(bs[i])[0]
  {
    if |bs| == 0 then "" else Text(bs[..|bs| - 1]) + Utils.YorN(bs[|bs| - 1])
  }

  /** The first n runes of s read as flags. */
  function Read(s: string, n: nat): (bs: seq<bool>)
    requires n <= |s|
    ensures |bs| == n && forall i | 0 <= i < n :: bs[i] == Utils.ParseBool(s[i])
  {
    seq(n, i requires 0 <= i < n => Utils.ParseBool(s[i]))
  }

  /** Reading written flags gives them back, whatever follows them. */
  lemma ReadText(bs: seq<bool>, rest: string)
    ensures Read(Text(bs) + rest, |bs|) == bs
  {
    var s := Text(bs) + rest;
    forall i | 0 <= i < |bs|
      ensures Read(s, |bs|)[i] == bs[i]
    {
      assert s[i] == Text(bs)[i];
    }
  }
}
