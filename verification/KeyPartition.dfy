/**
 The key hash of the in-memory broker (packages/broker/src/adapters/in-memory.ts): a base-31 rolling
 hash in wrapped signed 32-bit arithmetic, reduced to a partition number.
 */
module KeyPartition {
  import opened Prelude

  /** A UTF-16 code unit, what `charCodeAt` returns. */
  type CodeUnit = x: int | 0 <= x < 0x1_0000

  const TWO32: int := 0x1_0000_0000

  /** `x | 0`: the signed 32-bit integer congruent to `x`. */
  function ToInt32(x: int): (r: int)
    ensures -0x8000_0000 <= r < 0x8000_0000
    ensures (x - r) % 0x1_0000_0000 == 0
  {
    var u := x % TWO32;
    if u >= 0x8000_0000 then u - TWO32 else u
  }

  /** The remainder operator of JavaScript: it takes the sign of the dividend. */
  function JsRemainder(a: int, b: int): int
    requires b > 0
  {
    if a >= 0 then a % b else -((-a) % b)
  }

  function Power31(n: nat): int {
    if n == 0 then 1 else 31 * Power31(n - 1)
  }

  /** The key read as an exact base-31 number, most significant unit first. */
  function Polynomial(key: seq<CodeUnit>): int {
    if key == [] then 0 else key[0] * Power31(|key| - 1) + Polynomial(key[1..])
  }

  lemma {:induction false} PolynomialAppend(key: seq<CodeUnit>, c: CodeUnit)
    ensures Polynomial(key + [c]) == Polynomial(key) * 31 + c
  {
    var longer := key + [c];
    if key == [] {
      assert longer[1..] == [];
      assert Power31(0) == 1;
    } else {
      assert longer[1..] == key[1..] + [c];
      PolynomialAppend(key[1..], c);
      ShiftPower(key[0], |key| - 1);
    }
  }

  /** The value of a key by its first characters: nothing for the empty key, the unit itself for one
      character, and base 31 from there on (`PolynomialAppend`). */
  lemma ShortKeys(a: CodeUnit)
    ensures Polynomial([]) == 0 && Polynomial([a]) == a
  {
    assert [a][1..] == [];
    assert Power31(0) == 1;
  }

  /** The key "abc": its hash is 96354, and of three partitions it takes the first. */
  lemma HashOfAbc()
    ensures Polynomial([97, 98, 99]) == 96354
    ensures PartitionOf(Some([97, 98, 99]), 3) == 0
  {
    ShortKeys(97);
    PolynomialAppend([97], 98);
    PolynomialAppend([97, 98], 99);
    assert [97] + [98] == [97, 98] && [97, 98] + [99] == [97, 98, 99];
  }

  lemma ShiftPower(c: int, n: nat)
    ensures c * Power31(n + 1) == c * Power31(n) * 31
  {
    assert Power31(n + 1) == 31 * Power31(n);
  }

  /** Wrapping before the next step of the hash is invisible after it. */
  lemma WrapAbsorbs(x: int, c: int)
    ensures ToInt32(ToInt32(x) * 31 + c) == ToInt32(x * 31 + c)
  {
    var k := (x - ToInt32(x)) / TWO32;
    assert x == ToInt32(x) + k * TWO32;
    assert (x * 31 + c) % TWO32 == (ToInt32(x) * 31 + c) % TWO32;
  }

  lemma RemainderIsUnique(x: int, m: int, q: int, r: int)
    requires m > 0 && x == q * m + r && 0 <= r < m
    ensures x % m == r
  {
    var d := x / m - q;
    assert x == (x / m) * m + x % m;
    assert d * m == r - x % m;
    assert d >= 1 ==> d * m >= m;
    assert d <= -1 ==> d * m <= -m;
  }

  /** The double remainder of the code is the Euclidean remainder, for either sign of the hash. */
  lemma DoubleRemainderIsEuclidean(h: int, m: int)
    requires m > 0
    ensures JsRemainder(JsRemainder(h, m) + m, m) == h % m
  {
    if h >= 0 {
      RemainderIsUnique(h % m + m, m, 1, h % m);
    } else {
      var r, q := (-h) % m, (-h) / m;
      assert -h == q * m + r;
      if r == 0 {
        RemainderIsUnique(m, m, 1, 0);
        RemainderIsUnique(h, m, -q, 0);
      } else {
        RemainderIsUnique(m - r, m, 0, m - r);
        assert h == (-q - 1) * m + (m - r);
        RemainderIsUnique(h, m, -q - 1, m - r);
      }
    }
  }

  /** The partition a key belongs to, as a property of its polynomial. */
  function PartitionOf(key: Option<seq<CodeUnit>>, partitions: int): (p: nat)
    requires partitions > 0
    ensures p < partitions
  {
    if key.None? then 0 else ToInt32(Polynomial(key.value)) % partitions
  }

  /** The hash loop of the broker. */
  method PartitionForKey(key: Option<seq<CodeUnit>>, partitions: int) returns (p: int)
    requires partitions > 0
    ensures 0 <= p < partitions
    ensures p == PartitionOf(key, partitions)
    ensures key.None? ==> p == 0
    ensures key.Some? ==> p == ToInt32(Polynomial(key.value)) % partitions
  {
    if key.None? {
      return 0;
    }
    var units := key.value;
    var hash := 0;
    for i := 0 to |units|
      invariant hash == ToInt32(Polynomial(units[..i]))
    {
      assert units[..i + 1] == units[..i] + [units[i]];
      PolynomialAppend(units[..i], units[i]);
      WrapAbsorbs(Polynomial(units[..i]), units[i]);
      hash := ToInt32(hash * 31 + units[i]);
    }
    assert units[..|units|] == units;
    DoubleRemainderIsEuclidean(hash, partitions);
    p := JsRemainder(JsRemainder(hash, partitions) + partitions, partitions);
  }
}
