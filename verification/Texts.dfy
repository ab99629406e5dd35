/** Decimal and hexadecimal text, UUID text (section 4 of RFC 9562) and the order Python gives to strings. */
module Texts {
  import opened Prelude

  /* ---- decimal numbers ---- */

  predicate IsDigit(c: char) { '0' <= c <= '9' }

  function DigitChar(d: nat): (c: char)
    requires d < 10
    ensures IsDigit(c)
  {
    ('0' as int + d) as char
  }

  function DigitValue(c: char): (d: nat)
    requires IsDigit(c)
    ensures d < 10
  {
    c as int - '0' as int
  }

  predicate AllDigits(s: string) { forall i :: 0 <= i < |s| ==> IsDigit(s[i]) }

  function NatText(n: nat): (s: string)
    ensures s != "" && AllDigits(s)
  {
    if n < 10 then [DigitChar(n)] else NatText(n / 10) + [DigitChar(n % 10)]
  }

  function NatValue(s: string): nat
    requires AllDigits(s)
  {
    if s == "" then 0 else 10 * NatValue(s[..|s| - 1]) + DigitValue(s[|s| - 1])
  }

  lemma {:induction false} NatTextReadsBack(n: nat)
    ensures NatValue(NatText(n)) == n
    ensures NatText(n)[0] == '0' ==> n == 0
  {
    if n < 10 {
      assert NatText(n)[..0] == "";
    } else {
      NatTextReadsBack(n / 10);
      var front := NatText(n / 10);
      assert NatText(n)[..|NatText(n)| - 1] == front;
      assert NatText(n)[0] == front[0];
    }
  }

  /* ---- hexadecimal numbers of a fixed width ---- */

  function Pow16(k: nat): (p: nat)
    ensures p > 0
  {
    if k == 0 then 1 else 16 * Pow16(k - 1)
  }

  function HexChar(d: nat): char
    requires d < 16
  {
    if d < 10 then ('0' as int + d) as char else ('a' as int + d - 10) as char
  }

  /** Both cases are accepted when reading. */
  function HexDigitValue(c: char): (v: Option<nat>)
    ensures v.Some? ==> v.value < 16
  {
    if '0' <= c <= '9' then Some(c as int - '0' as int)
    else if 'a' <= c <= 'f' then Some(c as int - 'a' as int + 10)
    else if 'A' <= c <= 'F' then Some(c as int - 'A' as int + 10)
    else None
  }

  function HexText(n: nat, width: nat): (s: string)
    ensures |s| == width
  {
    if width == 0 then "" else HexText(n / 16, width - 1) + [HexChar(n % 16)]
  }

  function HexValue(s: string): (v: Option<nat>)
    ensures v.Some? ==> v.value < Pow16(|s|)
  {
    if s == "" then Some(0)
    else
      var front := HexValue(s[..|s| - 1]);
      var last := HexDigitValue(s[|s| - 1]);
      if front.Some? && last.Some? then Some(16 * front.value + last.value) else None
  }

  lemma {:induction false} HexTextReadsBack(n: nat, width: nat)
    requires n < Pow16(width)
    ensures HexValue(HexText(n, width)) == Some(n)
  {
    if width > 0 {
      assert n / 16 < Pow16(width - 1);
      HexTextReadsBack(n / 16, width - 1);
      assert HexText(n, width)[..width - 1] == HexText(n / 16, width - 1);
    }
  }

  lemma {:induction false} HexTextIsHex(n: nat, width: nat, i: nat)
    requires i < width
    ensures HexDigitValue(HexText(n, width)[i]).Some?
  {
    if i < width - 1 {
      HexTextIsHex(n / 16, width - 1, i);
    }
  }

  /* ---- UUIDs: 128-bit numbers, written 8-4-4-4-12 ---- */

  const UUID_LIMIT: nat := 0x1_0000_0000_0000_0000_0000_0000_0000_0000

  type Uuid = n: nat | n < UUID_LIMIT

  lemma UuidWidth()
    ensures Pow16(32) == UUID_LIMIT
  {
    assert Pow16(8) == 0x1_0000_0000;
    assert Pow16(16) == 0x1_0000_0000_0000_0000;
    assert Pow16(24) == 0x1_0000_0000_0000_0000_0000_0000;
  }

  function UuidText(u: Uuid): (s: string)
    ensures |s| == 36
  {
    var h := HexText(u, 32);
    h[..8] + "-" + h[8..12] + "-" + h[12..16] + "-" + h[16..20] + "-" + h[20..]
  }

  function ParseUuid(s: string): Option<Uuid> {
    if |s| == 36 && s[8] == '-' && s[13] == '-' && s[18] == '-' && s[23] == '-' then
      UuidWidth();
      var v := HexValue(s[..8] + s[9..13] + s[14..18] + s[19..23] + s[24..]);
      if v.Some? then Some(v.value as Uuid) else None
    else None
  }

  lemma UuidTextReadsBack(u: Uuid)
    ensures ParseUuid(UuidText(u)) == Some(u)
  {
    var h, s := HexText(u, 32), UuidText(u);
    assert s[..8] == h[..8];
    assert s[9..13] == h[8..12];
    assert s[14..18] == h[12..16];
    assert s[19..23] == h[16..20];
    assert s[24..] == h[20..];
    assert s[..8] + s[9..13] + s[14..18] + s[19..23] + s[24..] == h;
    UuidWidth();
    HexTextReadsBack(u, 32);
  }

  lemma UuidTextInjective(u: Uuid, v: Uuid)
    ensures UuidText(u) == UuidText(v) ==> u == v
  {
    UuidTextReadsBack(u);
    UuidTextReadsBack(v);
  }

  /* ---- the lexicographic order of strings ---- */

  predicate TextLess(a: string, b: string) {
    b != "" && (a == "" || a[0] < b[0] || (a[0] == b[0] && TextLess(a[1..], b[1..])))
  }

  lemma {:induction false} TextLessTransitive(a: string, b: string, c: string)
    requires TextLess(a, b) && TextLess(b, c)
    ensures TextLess(a, c)
  {
    if a != "" && a[0] == b[0] == c[0] {
      TextLessTransitive(a[1..], b[1..], c[1..]);
    }
  }

  lemma {:induction false} TextLessTotal(a: string, b: string)
    ensures TextLess(a, b) || TextLess(b, a) || a == b
    ensures !(TextLess(a, b) && TextLess(b, a))
    ensures a == b ==> !TextLess(a, b)
  {
    if a != "" && b != "" && a[0] == b[0] {
      TextLessTotal(a[1..], b[1..]);
      if a[1..] == b[1..] {
        assert a == [a[0]] + a[1..] && b == [b[0]] + b[1..];
      }
    }
  }
}
