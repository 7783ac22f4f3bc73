/**
  Player and room identifiers: 128-bit UUIDs. On the wire a UUID is a JSON
  string in the hyphenated 8-4-4-4-12 form with lower-case hex digits; reading
  accepts hex digits of either case.
*/
module Uuid {
  import opened Wrappers

  const UUID_LIMIT: nat := 0x1_0000_0000_0000_0000_0000_0000_0000_0000

  type Uuid = x: nat | x < UUID_LIMIT

  function Pow16(n: nat): (r: nat)
    ensures r >= 1
  {
    if n == 0 then 1 else 16 * Pow16(n - 1)
  }

  function HexDigit(d: nat): (c: char)
    requires d < 16
  {
    if d < 10 then ('0' as int + d) as char else ('a' as int + d - 10) as char
  }

  /** The value of a hex digit of either case. */
  function HexValue(c: char): (r: Option<nat>)
    ensures r.Some? ==> r.value < 16
  {
    if '0' <= c <= '9' then Some(c as int - '0' as int)
    else if 'a' <= c <= 'f' then Some(c as int - 'a' as int + 10)
    else if 'A' <= c <= 'F' then Some(c as int - 'A' as int + 10)
    else None
  }

  lemma HexValueOfDigit(d: nat)
    requires d < 16
    ensures HexValue(HexDigit(d)) == Some(d)
  {
  }

  predicate IsHex(s: string) {
    forall i :: 0 <= i < |s| ==> HexValue(s[i]).Some?
  }

  /** The low `width` hex digits of `n`, big-endian and lower-case. */
  function ToHex(n: nat, width: nat): (s: string)
    ensures |s| == width && IsHex(s)
  {
    if width == 0 then []
    else
      HexValueOfDigit(n % 16);
      ToHex(n / 16, width - 1) + [HexDigit(n % 16)]
  }

  function FromHex(s: string): (n: nat)
    requires IsHex(s)
    ensures n < Pow16(|s|)
  {
    if s == [] then 0 else FromHex(s[..|s| - 1]) * 16 + HexValue(s[|s| - 1]).value
  }

  lemma {:induction false} FromToHex(n: nat, width: nat)
    requires n < Pow16(width)
    ensures FromHex(ToHex(n, width)) == n
  {
    if width > 0 {
      var s := ToHex(n, width);
      assert s[..|s| - 1] == ToHex(n / 16, width - 1);
      FromToHex(n / 16, width - 1);
      HexValueOfDigit(n % 16);
    }
  }

  lemma Pow16Of32()
    ensures Pow16(32) == UUID_LIMIT
  {
    assert Pow16(4) == 0x1_0000;
    assert Pow16(8) == 0x1_0000_0000 by { Pow16Add(4, 4); }
    assert Pow16(16) == 0x1_0000_0000_0000_0000 by { Pow16Add(8, 8); }
    Pow16Add(16, 16);
  }

  lemma {:induction false} Pow16Add(a: nat, b: nat)
    ensures Pow16(a + b) == Pow16(a) * Pow16(b)
  {
    if a > 0 { Pow16Add(a - 1, b); }
  }

  /** The hyphenated text form (`Uuid`'s `Serialize`). */
  function Format(u: Uuid): (s: string)
    ensures |s| == 36
  {
    var h := ToHex(u, 32);
    h[0..8] + "-" + h[8..12] + "-" + h[12..16] + "-" + h[16..20] + "-" + h[20..32]
  }

  /** Where the 8-4-4-4-12 form puts its hyphens. */
  predicate IsHyphenAt(i: nat) {
    i == 8 || i == 13 || i == 18 || i == 23
  }

  /** How many hex digits of the 8-4-4-4-12 form come before position `i`. */
  function DigitIndex(i: nat): nat {
    if i <= 8 then i
    else if i <= 13 then i - 1
    else if i <= 18 then i - 2
    else if i <= 23 then i - 3
    else i - 4
  }

  /**
    The hex digits of `s[i..]` with the hyphens taken out, reading left to
    right; `None` as soon as a hyphen is missing or a digit is not hex.
  */
  function Unhyphenate(s: string, i: nat): (r: Option<string>)
    requires i <= |s|
    ensures r.Some? ==> IsHex(r.value)
    decreases |s| - i
  {
    if i == |s| then Some([])
    else if IsHyphenAt(i) then
      if s[i] == '-' then Unhyphenate(s, i + 1) else None
    else if HexValue(s[i]).None? then None
    else
      match Unhyphenate(s, i + 1)
      case None => None
      case Some(t) => Some([s[i]] + t)
  }

  /** Parses the hyphenated text form (`Uuid`'s `Deserialize`); hex digits may be of either case. */
  function Parse(s: string): (r: Option<Uuid>)
    ensures r.Some? ==> |s| == 36
  {
    if |s| != 36 then None
    else
      match Unhyphenate(s, 0)
      case None => None
      case Some(d) => if FromHex(d) < UUID_LIMIT then Some(FromHex(d)) else None
  }

  lemma FormatAt(u: Uuid, i: nat)
    requires i < 36
    ensures Format(u)[i] == if IsHyphenAt(i) then '-' else ToHex(u, 32)[DigitIndex(i)]
  {
    var h := ToHex(u, 32);
    var s := Format(u);
    assert s == h[0..8] + "-" + h[8..12] + "-" + h[12..16] + "-" + h[16..20] + "-" + h[20..32];
  }

  lemma {:induction false} UnhyphenateFormat(u: Uuid, i: nat)
    requires i <= 36
    ensures Unhyphenate(Format(u), i) == Some(ToHex(u, 32)[DigitIndex(i)..])
    decreases 36 - i
  {
    if i < 36 {
      FormatAt(u, i);
      UnhyphenateFormat(u, i + 1);
      var h := ToHex(u, 32);
      var k := DigitIndex(i);
      if IsHyphenAt(i) {
        assert DigitIndex(i + 1) == k;
      } else {
        assert DigitIndex(i + 1) == k + 1;
        assert HexValue(h[k]).Some?;
        assert h[k..] == [h[k]] + h[k + 1..];
      }
    } else {
      assert ToHex(u, 32)[DigitIndex(i)..] == [];
    }
  }

  /** Reading back the text of a UUID gives the same UUID. */
  lemma ParseFormat(u: Uuid)
    ensures Parse(Format(u)) == Some(u)
  {
    Pow16Of32();
    UnhyphenateFormat(u, 0);
    assert ToHex(u, 32)[0..] == ToHex(u, 32);
    FromToHex(u, 32);
  }

  lemma FormatInjective(u: Uuid, v: Uuid)
    requires Format(u) == Format(v)
    ensures u == v
  {
    ParseFormat(u);
    ParseFormat(v);
  }
}
