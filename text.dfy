/** Text helpers the workflows rely on: Python's `str.lower()`, the
    `ljust(width, fill)[:width]` clamp applied to card details, and `str(n)`
    for the integers typed into the page. */
module Text {

  /** ASCII upper-case letters map to lower case; every other character is kept. */
  function LowerChar(c: char): char
  {
    if 'A' <= c <= 'Z' then (c as int + 32) as char else c
  }

  /** `s.lower()`, restricted to the ASCII letters. */
  function Lower(s: string): (r: string)
    ensures |r| == |s|
    ensures forall i :: 0 <= i < |s| ==> r[i] == LowerChar(s[i])
    ensures forall i :: 0 <= i < |r| ==> !('A' <= r[i] <= 'Z')
  {
    seq(|s|, i requires 0 <= i < |s| => LowerChar(s[i]))
  }

  /** Lower-casing twice is lower-casing once. */
  lemma LowerIdempotent(s: string)
    ensures Lower(Lower(s)) == Lower(s)
  {
  }

  /** `s.ljust(width, fill)[:width]`: the first `width` characters of `s`,
      padded on the right with `fill` when `s` is shorter. */
  function PadTruncate(s: string, width: nat, fill: char): (r: string)
    ensures |r| == width
    ensures forall i :: 0 <= i < width ==> r[i] == (if i < |s| then s[i] else fill)
  {
    if |s| >= width then s[..width] else s + seq(width - |s|, _ => fill)
  }

  /** The clamp keeps a short input as a prefix, cuts a long one, and is the
      identity on inputs of exactly the right width. */
  lemma PadTruncateShape(s: string, width: nat, fill: char)
    ensures |s| <= width ==> PadTruncate(s, width, fill) == s + seq(width - |s|, _ => fill)
    ensures |s| >= width ==> PadTruncate(s, width, fill) == s[..width]
    ensures |s| == width ==> PadTruncate(s, width, fill) == s
  {
    var r := PadTruncate(s, width, fill);
    if |s| <= width {
      var padded := s + seq(width - |s|, _ => fill);
      assert |padded| == |r|;
      forall i | 0 <= i < width ensures r[i] == padded[i] {
        if i < |s| {
          assert padded[i] == s[i];
        } else {
          assert padded[i] == fill;
        }
      }
    }
  }

  /** Clamping an already clamped value changes nothing. */
  lemma PadTruncateIdempotent(s: string, width: nat, fill: char)
    ensures PadTruncate(PadTruncate(s, width, fill), width, fill) == PadTruncate(s, width, fill)
  {
    PadTruncateShape(PadTruncate(s, width, fill), width, fill);
  }

  predicate IsDigit(c: char)
  {
    '0' <= c <= '9'
  }

  function DigitChar(d: nat): (c: char)
    requires d < 10
    ensures IsDigit(c)
  {
    ('0' as int + d) as char
  }

  function DigitValue(c: char): nat
  {
    if IsDigit(c) then c as int - '0' as int else 0
  }

  /** `str(n)` for a natural number: decimal, most significant digit first,
      no sign and no leading zero. */
  function DecimalString(n: nat): (r: string)
    ensures |r| >= 1
    ensures forall i :: 0 <= i < |r| ==> IsDigit(r[i])
    ensures r[0] == '0' ==> n == 0 && r == "0"
    decreases n
  {
    if n < 10 then [DigitChar(n)] else DecimalString(n / 10) + [DigitChar(n % 10)]
  }

  /** Reads a string of decimal digits back as a number. */
  function ParseDecimal(s: string): nat
    decreases |s|
  {
    if s == [] then 0 else ParseDecimal(s[..|s| - 1]) * 10 + DigitValue(s[|s| - 1])
  }

  /** `str(n)` loses nothing: reading it back gives `n`. */
  lemma {:induction false} DecimalRoundTrip(n: nat)
    ensures ParseDecimal(DecimalString(n)) == n
    decreases n
  {
    var r := DecimalString(n);
    if n < 10 {
      assert r[..|r| - 1] == [];
    } else {
      DecimalRoundTrip(n / 10);
      assert r[..|r| - 1] == DecimalString(n / 10);
    }
  }

  /** Two different numbers never print the same way. */
  lemma DecimalInjective(m: nat, n: nat)
    requires DecimalString(m) == DecimalString(n)
    ensures m == n
  {
    DecimalRoundTrip(m);
    DecimalRoundTrip(n);
  }

  /** `str(q)` for any Python int: a minus sign before the magnitude when negative. */
  function IntString(q: int): (r: string)
    ensures |r| >= 1 && (r[0] == '-' <==> q < 0)
  {
    if q < 0 then "-" + DecimalString(-q) else DecimalString(q)
  }

  /** Different numbers print differently, so comparing a shown quantity
      with `str(q)` compares it with `q` itself. */
  lemma IntStringInjective(p: int, q: int)
    requires IntString(p) == IntString(q)
    ensures p == q
  {
    if p < 0 {
      assert IntString(p)[1..] == DecimalString(-p);
      assert IntString(q)[1..] == DecimalString(-q);
      DecimalInjective(-p, -q);
    } else {
      DecimalInjective(p, q);
    }
  }
}
