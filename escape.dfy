/**
 * Escaping: a replacer built from a list of runes deletes every occurrence
 * of those runes from a text. The replacer is the package-wide setting that
 * ConfigureEscapeCharacters installs; here it is passed explicitly.
 */
module Escape {
  import Utils

  /** One old/new argument pair of strings.NewReplacer. */
  datatype Pair = Pair(from: string, to: string)

  /** The replacer arguments for the given runes: each rune as a one-rune old string, replaced by nothing. */
  function Pairs(chars: seq<char>): (args: seq<Pair>)
    ensures |args| == |chars|
    ensures forall j | 0 <= j < |chars| :: args[j] == Pair([chars[j]], "")
  {
    seq(|chars|, j requires 0 <= j < |chars| => Pair([chars[j]], ""))
  }

  /** ConfigureEscapeCharacters: the argument list is built one rune at a time. */
  method ConfigureEscapeCharacters(chars: seq<char>) returns (replace: seq<Pair>)
    ensures replace == Pairs(chars)
  {
    replace := [];
    for i := 0 to |chars|
      invariant replace == Pairs(chars[..i])
    {
      replace := replace + [Pair([chars[i]], "")];
    }
    assert chars[..|chars|] == chars;
  }

  /** An argument list whose old strings are not empty. */
  predicate Replacer(args: seq<Pair>)
  {
    forall j | 0 <= j < |args| :: |args[j].from| > 0
  }

  /** The old string of a pair starts the text. */
  predicate Starts(p: Pair, text: string)
  {
    |p.from| <= |text| && text[..|p.from|] == p.from
  }

  /** The first pair from j on, in argument order, whose old string starts the text; |args| when none does. */
  function FirstMatch(args: seq<Pair>, text: string, j: nat): (k: nat)
    requires j <= |args|
    ensures j <= k <= |args|
    ensures k < |args| ==> Starts(args[k], text)
    decreases |args| - j
  {
    if j == |args| then j
    else if Starts(args[j], text) then j
    else FirstMatch(args, text, j + 1)
  }

  /**
   * strings.Replacer.Replace: from left to right, the first pair in argument
   * order whose old string starts the remaining text is replaced by its new
   * string; a rune that starts no old string is copied.
   */
  function Replace(args: seq<Pair>, text: string): string
    requires Replacer(args)
    decreases |text|
  {
    if |text| == 0 then ""
    else
      var k := FirstMatch(args, text, 0);
      if k < |args| then args[k].to + Replace(args, text[|args[k].from|..])
      else [text[0]] + Replace(args, text[1..])
  }

  /** The runes of text that are not in chars, in order. */
  function Without(text: string, chars: seq<char>): (r: string)
    ensures |r| <= |text|
    ensures forall i | 0 <= i < |r| :: r[i] !in chars
  {
    if |text| == 0 then ""
    else if text[0] in chars then Without(text[1..], chars)
    else [text[0]] + Without(text[1..], chars)
  }

  /** EscapeSIP: the text through the configured replacer. */
  function EscapeSIP(replace: seq<Pair>, text: string): string
    requires Replacer(replace)
  {
    Replace(replace, text)
  }

  /** A pair found for the text is the pair of its first rune. */
  lemma FirstMatchHit(chars: seq<char>, text: string)
    requires |text| > 0 && FirstMatch(Pairs(chars), text, 0) < |chars|
    ensures text[0] == chars[FirstMatch(Pairs(chars), text, 0)]
  {
    var args := Pairs(chars);
    var k := FirstMatch(args, text, 0);
    StartsOne(args[k], chars[k], text);
  }


  /** A one-rune old string starts a text that begins with that rune, and no other. */
  lemma StartsOne(p: Pair, c: char, text: string)
    requires p.from == [c] && |text| > 0
    ensures Starts(p, text) <==> text[0] == c
  {
    assert text[..1] == [text[0]];
  }

  /** The pair of the first rune, if any, is found. */
  lemma FirstMatchFound(chars: seq<char>, text: string, j: int)
    requires |text| > 0 && 0 <= j < |chars| && chars[j] == text[0]
    ensures FirstMatch(Pairs(chars), text, 0) <= j
  {
    var args := Pairs(chars);
    StartsOne(args[j], chars[j], text);
    FirstMatchBefore(args, text, 0, j);
  }

  /** No pair after a pair that starts the text is chosen. */
  lemma {:induction false} FirstMatchBefore(args: seq<Pair>, text: string, j: nat, m: nat)
    requires j <= m < |args| && Starts(args[m], text)
    ensures FirstMatch(args, text, j) <= m
    decreases m - j
  {
    if j < m && !Starts(args[j], text) {
      FirstMatchBefore(args, text, j + 1, m);
    }
  }

  /** A one-rune old string starts the text exactly when it is the text's first rune. */
  lemma FirstMatchPairs(chars: seq<char>, text: string)
    requires |text| > 0
    ensures FirstMatch(Pairs(chars), text, 0) < |chars| <==> text[0] in chars
  {
    if FirstMatch(Pairs(chars), text, 0) < |chars| {
      FirstMatchHit(chars, text);
    }
    if text[0] in chars {
      var j :| 0 <= j < |chars| && chars[j] == text[0];
      FirstMatchFound(chars, text, j);
    }
  }

  /** The escape of a text is the text without the configured runes. */
  lemma {:induction false} EscapeDeletes(chars: seq<char>, text: string)
    ensures EscapeSIP(Pairs(chars), text) == Without(text, chars)
    decreases |text|
  {
    if |text| > 0 {
      FirstMatchPairs(chars, text);
      EscapeDeletes(chars, text[1..]);
    }
  }

  /** A text free of the runes is left as it is. */
  lemma {:induction false} WithoutClean(text: string, chars: seq<char>)
    requires forall i | 0 <= i < |text| :: text[i] !in chars
    ensures Without(text, chars) == text
  {
    if |text| > 0 {
      assert forall i | 0 <= i < |text[1..]| :: text[1..][i] == text[i + 1];
      WithoutClean(text[1..], chars);
    }
  }

  /** Escaping twice is escaping once. */
  lemma EscapeIdempotent(chars: seq<char>, text: string)
    ensures EscapeSIP(Pairs(chars), EscapeSIP(Pairs(chars), text)) == EscapeSIP(Pairs(chars), text)
  {
    EscapeDeletes(chars, text);
    EscapeDeletes(chars, Without(text, chars));
    WithoutClean(Without(text, chars), chars);
  }

  /**
   * Escaped with the runes the validator is configured with, a text of at
   * most 255 runes passes the "sip" rule.
   */
  lemma EscapedIsSip(chars: seq<char>, text: string)
    requires |text| <= 255
    ensures Utils.SipField(EscapeSIP(Pairs(chars), text), chars)
  {
    EscapeDeletes(chars, text);
  }
}
