/**
 * Database keys of evidence (evidence/pool.go): sixteen zero-padded hexadecimal digits of the height,
 * a slash, and the hash. Their order as strings is the order of the heights.
 */
module EvidenceKeys {

  predicate LexLess(a: string, b: string) {
    b != [] && (a == [] || a[0] < b[0] || (a[0] == b[0] && LexLess(a[1..], b[1..])))
  }

  function Power16(n: nat): (p: nat)
    ensures p > 0
  {
    if n == 0 then 1 else 16 * Power16(n - 1)
  }

  function HexDigit(d: nat): char
    requires d < 16
  {
    if d < 10 then '0' + d as char else 'A' + (d - 10) as char
  }

  lemma HexDigitMonotone(d: nat, e: nat)
    requires d < 16 && e < 16
    ensures HexDigit(d) < HexDigit(e) <==> d < e
    ensures HexDigit(d) == HexDigit(e) <==> d == e
  {
  }

  function Lead(n: nat, p: nat): nat
    requires p > 0
  {
    n / p
  }

  function Rest(n: nat, p: nat): (r: nat)
    requires p > 0
    ensures r < p
  {
    n % p
  }

  /** The number in exactly w upper-case hexadecimal digits. */
  function Hex(n: nat, w: nat): (s: string)
    requires n < Power16(w)
    ensures |s| == w
    decreases w
  {
    if w == 0 then ""
    else
      var p := Power16(w - 1);
      Quotient(n, p);
      [HexDigit(Lead(n, p))] + Hex(Rest(n, p), w - 1)
  }

  lemma Quotient(n: nat, p: nat)
    requires p > 0 && n < 16 * p
    ensures Lead(n, p) < 16
  {
    assert n == p * (n / p) + n % p;
  }

  lemma DivideCompare(a: nat, b: nat, p: nat)
    requires p > 0
    ensures a < b <==> Lead(a, p) < Lead(b, p) || (Lead(a, p) == Lead(b, p) && Rest(a, p) < Rest(b, p))
  {
    assert a == p * (a / p) + a % p && b == p * (b / p) + b % p;
    if a / p < b / p {
      assert p * (b / p) >= p * (a / p + 1) == p * (a / p) + p;
    } else if b / p < a / p {
      assert p * (a / p) >= p * (b / p + 1) == p * (b / p) + p;
    }
  }

  lemma HexStep(n: nat, w: nat, x: string)
    requires w > 0 && n < Power16(w)
    ensures var p := Power16(w - 1);
            Lead(n, p) < 16 && Hex(n, w) + x == [HexDigit(Lead(n, p))] + (Hex(Rest(n, p), w - 1) + x)
  {
    Quotient(n, Power16(w - 1));
    hide Lead, Rest, HexDigit;
  }

  /** The leading digits and the remainders decide the comparison. */
  lemma HexSplit(a: nat, b: nat, w: nat, x: string, y: string) returns (d: nat, m: nat, e: nat, n: nat)
    requires w > 0 && a < Power16(w) && b < Power16(w)
    ensures d < 16 && e < 16 && m < Power16(w - 1) && n < Power16(w - 1)
    ensures a < b <==> d < e || (d == e && m < n)
    ensures a == b ==> d == e && m == n
    ensures Hex(a, w) + x == [HexDigit(d)] + (Hex(m, w - 1) + x)
    ensures Hex(b, w) + y == [HexDigit(e)] + (Hex(n, w - 1) + y)
  {
    var p := Power16(w - 1);
    HexStep(a, w, x);
    HexStep(b, w, y);
    DivideCompare(a, b, p);
    hide Lead, Rest, Hex, HexDigit, Power16;
    d, m, e, n := Lead(a, p), Rest(a, p), Lead(b, p), Rest(b, p);
  }

  lemma LexHead(c: char, s: string, d: char, t: string)
    ensures LexLess([c] + s, [d] + t) <==> c < d || (c == d && LexLess(s, t))
  {
    assert ([c] + s)[1..] == s && ([d] + t)[1..] == t;
  }

  /** Zero-padded keys sort as strings the way the numbers do, whatever follows them. */
  lemma {:induction false} HexOrder(a: nat, b: nat, w: nat, x: string, y: string)
    requires a < Power16(w) && b < Power16(w)
    ensures a < b ==> LexLess(Hex(a, w) + x, Hex(b, w) + y)
    ensures a == b ==> (LexLess(Hex(a, w) + x, Hex(b, w) + y) <==> LexLess(x, y))
    decreases w
  {
    if w == 0 {
      assert Hex(a, w) + x == x && Hex(b, w) + y == y;
    } else {
      var d, m, e, n := HexSplit(a, b, w, x, y);
      HexDigitMonotone(d, e);
      HexOrder(m, n, w - 1, x, y);
      LexHead(HexDigit(d), Hex(m, w - 1) + x, HexDigit(e), Hex(n, w - 1) + y);
      hide Hex, HexDigit, LexLess, Power16;
    }
  }

  lemma {:induction false} LexAsymmetric(a: string, b: string)
    requires LexLess(a, b)
    ensures !LexLess(b, a)
  {
    if a != [] && a[0] == b[0] {
      LexAsymmetric(a[1..], b[1..]);
    }
  }

  /** Heights are non-negative 64-bit numbers, so sixteen digits hold them. */
  type Height = h: int | 0 <= h < 0x8000_0000_0000_0000

  lemma HeightFits(h: Height)
    ensures h < Power16(16)
  {
    assert Power16(4) == 0x1_0000;
    assert Power16(8) == 0x1_0000_0000;
    assert Power16(12) == 0x1_0000_0000_0000;
    assert Power16(16) == 0x1_0000_0000_0000_0000;
  }

  function KeySuffix(h: Height, hash: string): string {
    HeightFits(h);
    Hex(h, 16) + "/" + hash
  }

  /** In key order heights do not decrease. */
  lemma KeyOrder(h1: Height, hash1: string, h2: Height, hash2: string)
    ensures h1 < h2 ==> LexLess(KeySuffix(h1, hash1), KeySuffix(h2, hash2))
    ensures LexLess(KeySuffix(h1, hash1), KeySuffix(h2, hash2)) ==> h1 <= h2
  {
    HeightFits(h1);
    HeightFits(h2);
    Reassociate(Hex(h1, 16), hash1);
    Reassociate(Hex(h2, 16), hash2);
    hide LexLess, Hex, Power16;
    if h1 < h2 {
      HexOrder(h1, h2, 16, "/" + hash1, "/" + hash2);
    } else if h2 < h1 {
      HexOrder(h2, h1, 16, "/" + hash2, "/" + hash1);
      LexAsymmetric(KeySuffix(h2, hash2), KeySuffix(h1, hash1));
    }
  }

  lemma Reassociate(a: string, b: string)
    ensures a + "/" + b == a + ("/" + b)
  {
  }
}
