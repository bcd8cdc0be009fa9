/** The bet-amount text box is read with Rust's `str::parse::<u32>`: an optional
    leading `+`, then one or more ASCII decimal digits whose value fits in 32 bits.
    Zero and leading zeros are accepted; a `-`, blanks or any other character are not. */
module AmountText {
  import opened Common

  predicate IsDigit(c: char) {
    '0' <= c <= '9'
  }

  predicate AllDigits(s: string) {
    forall i :: 0 <= i < |s| ==> IsDigit(s[i])
  }

  function DigitValue(c: char): (d: nat)
    requires IsDigit(c)
    ensures d < 10
  {
    c as int - '0' as int
  }

  function DigitChar(d: nat): (c: char)
    requires d < 10
    ensures IsDigit(c) && DigitValue(c) == d
  {
    ('0' as int + d) as char
  }

  /** Value of a digit string, most significant digit first. */
  function DecimalValue(s: string): nat
    requires AllDigits(s)
  {
    if |s| == 0 then 0 else DecimalValue(s[..|s| - 1]) * 10 + DigitValue(s[|s| - 1])
  }

  /** The canonical decimal rendering of `n` (what `format!("{}", n)` prints). */
  function ShowDecimal(n: nat): (s: string)
    ensures |s| > 0 && AllDigits(s)
    ensures n >= 10 ==> s[0] != '0'
  {
    if n < 10 then [DigitChar(n)] else ShowDecimal(n / 10) + [DigitChar(n % 10)]
  }

  /** The digits after an optional leading `+`. A lone `+` leaves nothing. */
  function Unsigned(s: string): string
  {
    if |s| > 0 && s[0] == '+' then s[1..] else s
  }

  /** `s.parse::<u32>().ok()`. */
  function ParseU32(s: string): (r: Option<Amount>)
    ensures |s| == 0 ==> r.None?
    ensures |s| > 0 && s[0] == '-' ==> r.None?
    ensures r.Some? ==> |Unsigned(s)| > 0 && AllDigits(Unsigned(s))
  {
    var digits := Unsigned(s);
    if |digits| == 0 || !AllDigits(digits) then None
    else
      var v := DecimalValue(digits);
      if v <= MaxAmount then Some(v) else None
  }

  /** Reading back what `ShowDecimal` wrote gives the number again. */
  lemma {:induction false} DecimalRoundTrip(n: nat)
    ensures DecimalValue(ShowDecimal(n)) == n
  {
    var s := ShowDecimal(n);
    if n >= 10 {
      DecimalRoundTrip(n / 10);
      assert s[..|s| - 1] == ShowDecimal(n / 10);
    }
  }

  /** Every `u32` survives printing and parsing, with or without a leading `+`. */
  lemma ParseShowRoundTrip(n: Amount)
    ensures ParseU32(ShowDecimal(n)) == Some(n)
    ensures ParseU32("+" + ShowDecimal(n)) == Some(n)
  {
    DecimalRoundTrip(n);
    assert Unsigned("+" + ShowDecimal(n)) == ShowDecimal(n);
  }

  /** A decimal number too large for 32 bits is rejected, not wrapped. */
  lemma ParseRejectsOverflow(n: nat)
    requires n > MaxAmount
    ensures ParseU32(ShowDecimal(n)).None?
  {
    DecimalRoundTrip(n);
  }

  /** Any character other than a digit (after the optional `+`) makes the parse fail. */
  lemma ParseRejectsNonDigit(s: string, i: nat)
    requires i < |Unsigned(s)| && !IsDigit(Unsigned(s)[i])
    ensures ParseU32(s).None?
  {
  }

  /** `k` zero digits. */
  function Zeros(k: nat): (z: string)
    ensures |z| == k && AllDigits(z)
    ensures forall i :: 0 <= i < k ==> z[i] == '0'
  {
    seq(k, _ => '0')
  }

  /** Leading zeros do not change a digit string's value. */
  lemma {:induction false} ZerosAddNothing(k: nat, t: string)
    requires AllDigits(t)
    ensures AllDigits(Zeros(k) + t)
    ensures DecimalValue(Zeros(k) + t) == DecimalValue(t)
    decreases |t|, k
  {
    var s := Zeros(k) + t;
    if |t| == 0 {
      assert s == Zeros(k);
      if k > 0 {
        assert s[..|s| - 1] == Zeros(k - 1) + t;
        ZerosAddNothing(k - 1, t);
      }
    } else {
      assert s[..|s| - 1] == Zeros(k) + t[..|t| - 1];
      ZerosAddNothing(k, t[..|t| - 1]);
    }
  }

  lemma DigitCharOfValue(c: char)
    requires IsDigit(c)
    ensures DigitChar(DigitValue(c)) == c
  {
  }

  /** Appending a digit to a positive number's rendering renders ten times it plus the digit. */
  lemma ShowAppend(v: nat, c: char)
    requires v > 0 && IsDigit(c)
    ensures ShowDecimal(v * 10 + DigitValue(c)) == ShowDecimal(v) + [c]
  {
    var n := v * 10 + DigitValue(c);
    assert n >= 10 && n / 10 == v && n % 10 == DigitValue(c);
    DigitCharOfValue(c);
  }

  /** A digit string of value zero is all zeros. */
  lemma {:induction false} ZeroValueIsZeros(d: string)
    requires AllDigits(d) && DecimalValue(d) == 0
    ensures d == Zeros(|d|)
    decreases |d|
  {
    if |d| > 0 {
      var d' := d[..|d| - 1];
      assert DecimalValue(d') * 10 + DigitValue(d[|d| - 1]) == 0;
      ZeroValueIsZeros(d');
      assert d == d' + [d[|d| - 1]];
    }
  }

  /** Every non-empty digit string is some zeros followed by the canonical rendering of
      its value. */
  lemma {:induction false} DigitsAreZerosThenShow(d: string)
    requires |d| > 0 && AllDigits(d)
    ensures |ShowDecimal(DecimalValue(d))| <= |d|
    ensures d == Zeros(|d| - |ShowDecimal(DecimalValue(d))|) + ShowDecimal(DecimalValue(d))
    decreases |d|
  {
    var c := d[|d| - 1];
    var d' := d[..|d| - 1];
    assert d == d' + [c];
    assert DecimalValue(d) == DecimalValue(d') * 10 + DigitValue(c);
    if DecimalValue(d') == 0 {
      ZeroValueIsZeros(d');
      DigitCharOfValue(c);
      assert ShowDecimal(DecimalValue(d)) == [c];
    } else {
      DigitsAreZerosThenShow(d');
      ShowAppend(DecimalValue(d'), c);
    }
  }

  /** Parsing is the inverse of printing up to the accepted spellings: a text parses to
      `n` exactly when it is an optional `+`, some zeros, then `n` printed in decimal. */
  lemma ParseIsInverseOfShow(s: string, n: Amount)
    requires ParseU32(s) == Some(n)
    ensures |ShowDecimal(n)| <= |Unsigned(s)|
    ensures Unsigned(s) == Zeros(|Unsigned(s)| - |ShowDecimal(n)|) + ShowDecimal(n)
  {
    DigitsAreZerosThenShow(Unsigned(s));
  }

  /** Conversely, every such spelling of a `u32` parses to it: leading zeros and a
      leading `+` are accepted. */
  lemma LeadingZerosAccepted(k: nat, n: Amount)
    ensures ParseU32(Zeros(k) + ShowDecimal(n)) == Some(n)
    ensures ParseU32("+" + Zeros(k) + ShowDecimal(n)) == Some(n)
  {
    DecimalRoundTrip(n);
    ZerosAddNothing(k, ShowDecimal(n));
    var t := Zeros(k) + ShowDecimal(n);
    if k > 0 {
      assert t[0] == '0';
    } else {
      assert t == ShowDecimal(n);
    }
    assert Unsigned(t) == t;
    assert Unsigned("+" + Zeros(k) + ShowDecimal(n)) == t;
  }
}
