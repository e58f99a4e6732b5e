/** Text as Unicode scalar values, measured in UTF-8 bytes. */
module Text {

  /** The bytes of one character in UTF-8. */
  function Width(c: char): (bytes: nat)
    ensures 1 <= bytes <= 4
  {
    var code := c as int;
    if code < 0x80 then 1 else if code < 0x800 then 2 else if code < 0x10000 then 3 else 4
  }

  function Bytes(text: string): (bytes: nat)
    ensures |text| <= bytes <= 4 * |text|
  {
    if text == "" then 0 else Width(text[0]) + Bytes(text[1..])
  }

  lemma {:induction false} BytesOfConcat(a: string, b: string)
    ensures Bytes(a + b) == Bytes(a) + Bytes(b)
  {
    if a == "" {
      assert a + b == b;
    } else {
      assert (a + b)[1..] == a[1..] + b;
      BytesOfConcat(a[1..], b);
    }
  }

  function Repeat(c: char, n: nat): (text: string)
    ensures |text| == n && forall i :: 0 <= i < n ==> text[i] == c
  {
    seq(n, _ => c)
  }

  lemma {:induction false} BytesOfRepeat(c: char, n: nat)
    ensures Bytes(Repeat(c, n)) == Width(c) * n
  {
    if n > 0 {
      assert Repeat(c, n)[1..] == Repeat(c, n - 1);
      BytesOfRepeat(c, n - 1);
    }
  }

  /** Every character is one byte. */
  predicate Ascii(text: string) { forall i :: 0 <= i < |text| ==> text[i] as int < 0x80 }

  lemma {:induction false} AsciiBytes(text: string)
    requires Ascii(text)
    ensures Bytes(text) == |text|
  {
    if text != "" { AsciiBytes(text[1..]); }
  }

  // ---------------------------------------------------------------- numbers

  function Digit(d: nat): char
    requires d < 10
  {
    ('0' as int + d) as char
  }

  function Decimal(n: nat): (text: string)
    ensures |text| >= 1 && Ascii(text)
  {
    if n < 10 then [Digit(n)] else Decimal(n / 10) + [Digit(n % 10)]
  }

  function Signed(n: int): (text: string)
    ensures |text| >= 1
  {
    if n < 0 then "-" + Decimal(-n) else Decimal(n)
  }

  lemma {:induction false} DecimalGrows(a: nat, b: nat)
    requires a <= b
    ensures |Decimal(a)| <= |Decimal(b)|
    decreases b
  {
    if b >= 10 && a >= 10 { DecimalGrows(a / 10, b / 10); }
  }

  function Power10(n: nat): nat { if n == 0 then 1 else 10 * Power10(n - 1) }

  /** Fewer than ten to the k has at most k digits. */
  lemma {:induction false} DecimalFits(n: nat, k: nat)
    requires 0 < k && n < Power10(k)
    ensures |Decimal(n)| <= k
    decreases k
  {
    if n >= 10 {
      assert Power10(k) == 10 * Power10(k - 1);
      DecimalFits(n / 10, k - 1);
    }
  }
}
