/**
 * Decimal and hexadecimal text of integers: the formatting verbs (%d, %0Nd,
 * %4.4X) and the strconv.Atoi parser the codecs rely on.
 */
module Numbers {
  import opened Errors

  predicate IsDigit(c: char) { '0' <= c <= '9' }

  predicate AllDigits(s: string) { forall i | 0 <= i < |s| :: IsDigit(s[i]) }

  function DigitChar(n: int): (c: char)
    requires 0 <= n < 10
    ensures IsDigit(c)
  {
    ('0' as int + n) as char
  }

  function DigitValue(c: char): (n: int)
    requires IsDigit(c)
    ensures 0 <= n < 10 && DigitChar(n) == c
  {
    c as int - '0' as int
  }

  function Pow10(k: nat): (p: nat)
    ensures p >= 1
  {
    if k == 0 then 1 else 10 * Pow10(k - 1)
  }

  /** k copies of the character '0'. */
  function Zeros(k: nat): (s: string)
    ensures |s| == k && forall i | 0 <= i < k :: s[i] == '0'
  {
    if k == 0 then "" else Zeros(k - 1) + "0"
  }

  /** The decimal digits of n, most significant first, without leading zeros. */
  function Digits(n: nat): (s: string)
    ensures 1 <= |s| && AllDigits(s)
    ensures n < Pow10(|s|) && (|s| > 1 ==> Pow10(|s| - 1) <= n)
  {
    if n < 10 then [DigitChar(n)] else Digits(n / 10) + [DigitChar(n % 10)]
  }

  /** strconv.Itoa(n) and fmt's %d. */
  function Itoa(n: int): (s: string)
    ensures |s| >= 1
  {
    if n < 0 then "-" + Digits(-n) else Digits(n)
  }

  /**
   * fmt's %0wd: the sign, then zeros up to width w (the sign counts towards
   * the width), then the digits. Numbers wider than w are printed in full.
   */
  function Pad(n: int, w: nat): string
  {
    var sign := if n < 0 then "-" else "";
    var digits := Digits(if n < 0 then -n else n);
    var fill := if |sign| + |digits| < w then w - |sign| - |digits| else 0;
    sign + Zeros(fill) + digits
  }

  /** The value of a string of decimal digits (leading zeros allowed). */
  function ParseDigits(s: string): (n: nat)
    requires AllDigits(s)
    ensures n < Pow10(|s|)
  {
    if |s| == 0 then 0 else 10 * ParseDigits(s[..|s| - 1]) + DigitValue(s[|s| - 1])
  }

  /** The text after an optional leading '+' or '-'. */
  function Unsigned(s: string): (body: string)
    ensures |body| <= |s|
  {
    if |s| > 0 && (s[0] == '+' || s[0] == '-') then s[1..] else s
  }

  /**
   * strconv.Atoi: an optional '+' or '-' and then one or more ASCII digits;
   * anything else is a syntax error.
   */
  function Atoi(s: string): (r: Result<int>)
    ensures r.Ok? <==> |Unsigned(s)| > 0 && AllDigits(Unsigned(s))
    ensures r.Err? ==> r.error == SyntaxError
    ensures r.Ok? && AllDigits(s) ==> r.value == ParseDigits(s)
  {
    var body := Unsigned(s);
    if |body| == 0 || !AllDigits(body) then Err(SyntaxError)
    else
      var v: int := ParseDigits(body);
      if s[0] == '-' then Ok(-v) else Ok(v)
  }

  /** The upper-case hexadecimal digit for 0 <= n < 16. */
  function HexChar(n: nat): (c: char)
    requires n < 16
    ensures IsHexDigit(c)
  {
    if n < 10 then ('0' as int + n) as char else ('A' as int + n - 10) as char
  }

  /** The digits of n in base 16, upper case, without leading zeros. */
  function HexDigits(n: nat): (s: string)
    ensures 1 <= |s| && AllHex(s)
  {
    if n < 16 then [HexChar(n)] else HexDigits(n / 16) + [HexChar(n % 16)]
  }

  /** fmt's %4.4X: upper-case hexadecimal with at least four digits. */
  function Hex4(n: nat): (s: string)
    ensures |s| >= 4 && AllHex(s)
  {
    var digits := HexDigits(n);
    if |digits| < 4 then
      HexValueZerosPrefix(4 - |digits|, digits);
      Zeros(4 - |digits|) + digits
    else digits
  }

  // ---------------------------------------------------------------------
  // Lemmas

  lemma {:induction false} ParseDigitsOfDigits(n: nat)
    ensures ParseDigits(Digits(n)) == n
  {
    if n >= 10 {
      var s := Digits(n);
      assert s[..|s| - 1] == Digits(n / 10);
      ParseDigitsOfDigits(n / 10);
    }
  }

  lemma {:induction false} ParseDigitsZerosPrefix(k: nat, s: string)
    requires AllDigits(s)
    ensures AllDigits(Zeros(k) + s) && ParseDigits(Zeros(k) + s) == ParseDigits(s)
  {
    var t := Zeros(k) + s;
    if |s| == 0 {
      assert t == Zeros(k);
      ParseZeros(k);
    } else {
      assert t[..|t| - 1] == Zeros(k) + s[..|s| - 1];
      ParseDigitsZerosPrefix(k, s[..|s| - 1]);
    }
  }

  lemma {:induction false} ParseZeros(k: nat)
    ensures AllDigits(Zeros(k)) && ParseDigits(Zeros(k)) == 0
  {
    if k > 0 {
      var z := Zeros(k);
      assert z[..k - 1] == Zeros(k - 1);
      ParseZeros(k - 1);
      assert AllDigits(z);
      assert ParseDigits(z) == 10 * ParseDigits(Zeros(k - 1)) + DigitValue(z[k - 1]);
    }
  }

  /** Atoi reads back what Itoa (%d) writes, for every integer. */
  lemma AtoiItoa(n: int)
    ensures Atoi(Itoa(n)) == Ok(n)
  {
    var s := Itoa(n);
    if n < 0 {
      assert Unsigned(s) == Digits(-n);
      ParseDigitsOfDigits(-n);
    } else {
      assert IsDigit(s[0]);
      assert Unsigned(s) == Digits(n);
      ParseDigitsOfDigits(n);
    }
  }

  /** For 0 <= n < 10^w, %0wd is exactly w digits and Atoi reads n back. */
  lemma PadRoundTrip(n: int, w: nat)
    requires 0 <= n < Pow10(w) && w >= 1
    ensures |Pad(n, w)| == w && AllDigits(Pad(n, w)) && Atoi(Pad(n, w)) == Ok(n)
  {
    PadDigits(n, w);
    AtoiOfDigits(Pad(n, w));
  }

  /** Atoi of a non-empty run of digits is its value. */
  lemma AtoiOfDigits(s: string)
    requires |s| > 0 && AllDigits(s)
    ensures Atoi(s) == Ok(ParseDigits(s))
  {
    assert IsDigit(s[0]);
    assert Unsigned(s) == s;
  }

  /** For 0 <= n < 10^w, %0wd is w digits whose value is n. */
  lemma PadDigits(n: int, w: nat)
    requires 0 <= n < Pow10(w) && w >= 1
    ensures |Pad(n, w)| == w && AllDigits(Pad(n, w)) && ParseDigits(Pad(n, w)) == n
  {
    PadIsFixed(n, w);
    PadParse(n, w);
  }

  lemma {:induction false} PadParse(n: nat, w: nat)
    requires n < Pow10(w)
    ensures ParseDigits(FixedDigits(n, w)) == n
  {
    if w > 0 {
      var s := FixedDigits(n, w);
      assert s[..w - 1] == FixedDigits(n / 10, w - 1);
      PadParse(n / 10, w - 1);
    }
  }

  lemma {:induction false} DigitsFit(n: nat, w: nat)
    requires n < Pow10(w)
    ensures |Digits(n)| <= w || (n == 0 && w == 0)
  {
    var L := |Digits(n)|;
    if L > w && L > 1 {
      Pow10Mono(w, L - 1);
    }
  }

  lemma {:induction false} Pow10Mono(a: nat, b: nat)
    requires a <= b
    ensures Pow10(a) <= Pow10(b)
  {
    if a < b { Pow10Mono(a, b - 1); }
  }

  /** Every string of w digits is the %0wd text of the number it denotes. */
  lemma PadOfParse(s: string)
    requires AllDigits(s) && |s| >= 1
    ensures Pad(ParseDigits(s), |s|) == s
  {
    FixedDigitsOfParse(s);
    PadIsFixed(ParseDigits(s), |s|);
  }

  /** The last w decimal digits of n, zero-filled. */
  function FixedDigits(n: nat, w: nat): (s: string)
    ensures |s| == w && AllDigits(s)
  {
    if w == 0 then "" else FixedDigits(n / 10, w - 1) + [DigitChar(n % 10)]
  }

  lemma {:induction false} FixedDigitsOfParse(s: string)
    requires AllDigits(s)
    ensures FixedDigits(ParseDigits(s), |s|) == s
  {
    if |s| > 0 {
      var p := s[..|s| - 1];
      assert ParseDigits(s) / 10 == ParseDigits(p);
      FixedDigitsOfParse(p);
      assert s == p + [s[|s| - 1]];
    }
  }

  lemma {:induction false} PadIsFixed(n: nat, w: nat)
    requires n < Pow10(w) && w >= 1
    ensures Pad(n, w) == FixedDigits(n, w)
  {
    if n < 10 {
      FixedZeros(0, w - 1);
      assert Pad(n, w) == Zeros(w - 1) + [DigitChar(n)];
    } else {
      PadIsFixed(n / 10, w - 1);
      PadStep(n, w);
    }
  }

  /** Padding a number of two or more digits pads all but its last digit one narrower. */
  lemma PadStep(n: nat, w: nat)
    requires 10 <= n < Pow10(w) && w >= 1
    ensures n / 10 < Pow10(w - 1)
    ensures Pad(n, w) == Pad(n / 10, w - 1) + [DigitChar(n % 10)]
  {
    DigitsFit(n, w);
    var d := Digits(n / 10);
    var c := [DigitChar(n % 10)];
    var z := Zeros(w - 1 - |d|);
    assert Digits(n) == d + c;
    assert Pad(n, w) == z + (d + c);
    assert z + (d + c) == (z + d) + c;
    assert Pad(n / 10, w - 1) == z + d;
  }

  lemma {:induction false} FixedZeros(n: nat, k: nat)
    requires n == 0
    ensures FixedDigits(n, k) == Zeros(k)
  {
    if k > 0 { FixedZeros(0, k - 1); }
  }

  function Pow16(k: nat): (p: nat)
    ensures p >= 1
  {
    if k == 0 then 1 else 16 * Pow16(k - 1)
  }

  /** n has at most k hex digits exactly when n < 16^k. */
  lemma {:induction false} HexWidth(n: nat, k: nat)
    requires k >= 1
    ensures |HexDigits(n)| <= k <==> n < Pow16(k)
  {
    if n >= 16 {
      if k == 1 {
        assert |HexDigits(n)| >= 2;
      } else {
        HexWidth(n / 16, k - 1);
      }
    } else {
      Pow16Positive(k);
    }
  }

  lemma {:induction false} Pow16Positive(k: nat)
    requires k >= 1
    ensures Pow16(k) >= 16
  {
    if k > 1 { Pow16Positive(k - 1); }
  }

  predicate IsHexDigit(c: char) { '0' <= c <= '9' || 'A' <= c <= 'F' }

  function HexDigitValue(c: char): (n: nat)
    requires IsHexDigit(c)
    ensures n < 16 && HexChar(n) == c
  {
    if '0' <= c <= '9' then c as int - '0' as int else c as int - 'A' as int + 10
  }

  predicate AllHex(s: string) { forall i | 0 <= i < |s| :: IsHexDigit(s[i]) }

  /** The value of a string of upper-case hexadecimal digits. */
  function HexValue(s: string): nat
    requires AllHex(s)
  {
    if |s| == 0 then 0 else 16 * HexValue(s[..|s| - 1]) + HexDigitValue(s[|s| - 1])
  }

  lemma {:induction false} HexValueOfDigits(n: nat)
    ensures HexValue(HexDigits(n)) == n
  {
    if n >= 16 {
      var s := HexDigits(n);
      assert s[..|s| - 1] == HexDigits(n / 16);
      HexValueOfDigits(n / 16);
    }
  }

  lemma {:induction false} HexValueZerosPrefix(k: nat, s: string)
    requires AllHex(s)
    ensures AllHex(Zeros(k) + s) && HexValue(Zeros(k) + s) == HexValue(s)
  {
    var t := Zeros(k) + s;
    assert AllHex(t) by {
      forall i | 0 <= i < |t| ensures IsHexDigit(t[i]) {
        if i < k { assert t[i] == '0'; } else { assert t[i] == s[i - k]; }
      }
    }
    if |s| == 0 {
      assert t == Zeros(k);
      HexValueZeros(k);
    } else {
      assert t[..|t| - 1] == Zeros(k) + s[..|s| - 1];
      HexValueZerosPrefix(k, s[..|s| - 1]);
    }
  }

  lemma {:induction false} HexValueZeros(k: nat)
    ensures AllHex(Zeros(k)) && HexValue(Zeros(k)) == 0
  {
    assert AllHex(Zeros(k)) by {
      forall i | 0 <= i < k ensures IsHexDigit(Zeros(k)[i]) { assert Zeros(k)[i] == '0'; }
    }
    if k > 0 {
      assert Zeros(k)[..k - 1] == Zeros(k - 1);
      HexValueZeros(k - 1);
    }
  }

  /** %4.4X text denotes the number it was made from. */
  lemma Hex4Value(n: nat)
    ensures HexValue(Hex4(n)) == n
  {
    HexValueOfDigits(n);
    var digits := HexDigits(n);
    if |digits| < 4 {
      HexValueZerosPrefix(4 - |digits|, digits);
    }
  }

  /** %4.4X is exactly four digits when n < 16^4 and longer otherwise. */
  lemma Hex4Width(n: nat)
    ensures |Hex4(n)| == 4 <==> n < 0x10000
  {
    HexWidth(n, 4);
    assert Pow16(4) == 0x10000;
  }

  lemma Hex4Of10000()
    ensures Hex4(0x10000) == "10000"
  {
    assert HexDigits(0x1) == "1";
    assert HexDigits(0x10) == HexDigits(0x1) + "0";
    assert HexDigits(0x100) == HexDigits(0x10) + "0";
    assert HexDigits(0x1000) == HexDigits(0x100) + "0";
    assert HexDigits(0x10000) == HexDigits(0x1000) + "0";
  }
}
