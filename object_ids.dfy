/**
 * MongoDB ObjectIds: 12-byte identifiers, written as 24 hexadecimal digits.
 * `new ObjectId(text)` accepts exactly 24 hexadecimal digits in either case and
 * throws otherwise; `toString()` writes 24 lower-case digits. Generation is
 * modelled as a counter that wraps around at 2^96.
 */
module ObjectIds {
  import opened Wrappers

  /** Number of hexadecimal digits in the text form of an ObjectId. */
  const HexWidth: nat := 24

  /** Number of distinct ObjectIds: 16^24 = 2^96. */
  const IdSpace: nat := 0x1_0000_0000_0000_0000_0000_0000

  type ObjectId = n: nat | n < 0x1_0000_0000_0000_0000_0000_0000

  predicate IsHexDigit(c: char) {
    '0' <= c <= '9' || 'a' <= c <= 'f' || 'A' <= c <= 'F'
  }

  predicate AllHex(s: string) {
    forall i :: 0 <= i < |s| ==> IsHexDigit(s[i])
  }

  /** The text `new ObjectId(text)` accepts. */
  predicate IsObjectIdText(s: string) {
    |s| == HexWidth && AllHex(s)
  }

  function DigitValue(c: char): (v: nat)
    requires IsHexDigit(c)
    ensures v < 16
  {
    if '0' <= c <= '9' then (c - '0') as nat
    else if 'a' <= c <= 'f' then (c - 'a') as nat + 10
    else (c - 'A') as nat + 10
  }

  function DigitChar(v: nat): (c: char)
    requires v < 16
    ensures IsHexDigit(c) && DigitValue(c) == v
    ensures '0' <= c <= '9' || 'a' <= c <= 'f'
  {
    if v < 10 then ('0' as int + v) as char else ('a' as int + v - 10) as char
  }

  function Pow16(k: nat): (p: nat)
    ensures p >= 1
  {
    if k == 0 then 1 else 16 * Pow16(k - 1)
  }

  /** The low `width` hexadecimal digits of `n`, most significant first, lower case. */
  function HexDigits(n: nat, width: nat): (s: string)
    ensures |s| == width && AllHex(s)
    ensures forall i :: 0 <= i < |s| ==> '0' <= s[i] <= '9' || 'a' <= s[i] <= 'f'
  {
    if width == 0 then [] else HexDigits(n / 16, width - 1) + [DigitChar(n % 16)]
  }

  /** The number a string of hexadecimal digits denotes. */
  function HexValue(s: string): nat
    requires AllHex(s)
  {
    if s == [] then 0 else 16 * HexValue(s[..|s| - 1]) + DigitValue(s[|s| - 1])
  }

  /** `ObjectId.toString()`. */
  function ToHexString(id: ObjectId): (s: string)
    ensures IsObjectIdText(s)
    ensures forall i :: 0 <= i < |s| ==> '0' <= s[i] <= '9' || 'a' <= s[i] <= 'f'
  {
    HexDigits(id, HexWidth)
  }

  /** `new ObjectId(text)`: `None` stands for the error bson throws. */
  function Parse(s: string): (r: Option<ObjectId>)
    ensures r.Some? <==> IsObjectIdText(s)
  {
    if IsObjectIdText(s) then
      HexValueBound(s);
      Pow16Width();
      Some(HexValue(s))
    else None
  }

  lemma Pow16Width()
    ensures Pow16(HexWidth) == IdSpace
  {
    assert Pow16(1) == 16;
    assert Pow16(2) == 256;
    assert Pow16(3) == 4096;
    assert Pow16(4) == 65536;
    assert Pow16(5) == 1048576;
    assert Pow16(6) == 16777216;
    assert Pow16(7) == 268435456;
    assert Pow16(8) == 4294967296;
    assert Pow16(9) == 68719476736;
    assert Pow16(10) == 1099511627776;
    assert Pow16(11) == 17592186044416;
    assert Pow16(12) == 281474976710656;
    assert Pow16(13) == 4503599627370496;
    assert Pow16(14) == 72057594037927936;
    assert Pow16(15) == 1152921504606846976;
    assert Pow16(16) == 18446744073709551616;
    assert Pow16(17) == 295147905179352825856;
    assert Pow16(18) == 4722366482869645213696;
    assert Pow16(19) == 75557863725914323419136;
    assert Pow16(20) == 1208925819614629174706176;
    assert Pow16(21) == 19342813113834066795298816;
    assert Pow16(22) == 309485009821345068724781056;
    assert Pow16(23) == 4951760157141521099596496896;
    assert Pow16(24) == 79228162514264337593543950336;
  }

  lemma {:induction false} HexValueBound(s: string)
    requires AllHex(s)
    ensures HexValue(s) < Pow16(|s|)
  {
    if s != [] {
      HexValueBound(s[..|s| - 1]);
    }
  }

  lemma DivModUnique(n: int, d: int, q: int, r: int)
    requires d > 0 && n == d * q + r && 0 <= r < d
    ensures n / d == q && n % d == r
  {
    var q', r' := n / d, n % d;
    assert n == d * q' + r';
    if q > q' {
      MulAtLeast(d, q - q');
    } else if q < q' {
      MulAtLeast(d, q' - q);
    }
  }

  lemma MulAtLeast(d: int, k: int)
    requires d > 0 && k >= 1
    ensures d * k >= d
  {
  }

  lemma ModSplit(n: nat, p: nat)
    requires p >= 1
    ensures 16 * ((n / 16) % p) + n % 16 == n % (16 * p)
  {
    var q, r := n / 16, n % 16;
    var a, b := q / p, q % p;
    assert n == 16 * q + r;
    assert q == p * a + b;
    assert n == (16 * p) * a + (16 * b + r);
    DivModUnique(n, 16 * p, a, 16 * b + r);
  }

  lemma {:induction false} HexRoundTrip(n: nat, width: nat)
    ensures HexValue(HexDigits(n, width)) == n % Pow16(width)
  {
    if width > 0 {
      var s := HexDigits(n, width);
      assert s[..|s| - 1] == HexDigits(n / 16, width - 1);
      HexRoundTrip(n / 16, width - 1);
      ModSplit(n, Pow16(width - 1));
    }
  }

  /** The text form of an ObjectId parses back to the same ObjectId. */
  lemma ParseToHexString(id: ObjectId)
    ensures Parse(ToHexString(id)) == Some(id)
  {
    var s := ToHexString(id);
    HexRoundTrip(id, HexWidth);
    Pow16Width();
    DivModUnique(id, IdSpace, 0, id);
    assert HexValue(s) == id;
  }

  /** Distinct ObjectIds have distinct text forms. */
  lemma ToHexStringInjective(a: ObjectId, b: ObjectId)
    requires a != b
    ensures ToHexString(a) != ToHexString(b)
  {
    ParseToHexString(a);
    ParseToHexString(b);
  }

  /** The successor of an id in the generator's sequence. */
  function NextId(n: ObjectId): (m: ObjectId)
    ensures m != n
  {
    if n + 1 == IdSpace then 0 else n + 1
  }

  /** Two successive ids and the one after them are pairwise distinct. */
  lemma NextIdsDistinct(n: ObjectId)
    ensures NextId(NextId(n)) != n
    ensures NextId(NextId(NextId(n))) != n
    ensures NextId(NextId(NextId(n))) != NextId(n)
  {
  }

  /** The source of fresh ObjectIds (`new mongoose.Types.ObjectId()`). */
  class IdGenerator {
    var next: ObjectId

    constructor (seed: ObjectId)
      ensures next == seed
    {
      next := seed;
    }

    method Fresh() returns (id: ObjectId)
      modifies this
      ensures id == old(next) && next == NextId(id)
    {
      id := next;
      next := NextId(next);
    }
  }
}
