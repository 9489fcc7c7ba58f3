/** Machine integers as ranges of `int`, and their byte layouts. */
module Words {

  type u8 = x: int | 0 <= x < 0x100
  type u16 = x: int | 0 <= x < 0x1_0000
  type u32 = x: int | 0 <= x < 0x1_0000_0000

  /** A BD_ADDR. */
  type Address = b: seq<u8> | |b| == 6 witness [0, 0, 0, 0, 0, 0]

  function Le16(v: u16): seq<u8> {
    [v % 0x100, v / 0x100]
  }

  function FromLe16(lo: u8, hi: u8): u16 {
    lo + 0x100 * hi
  }

  function Be16(v: u16): seq<u8> {
    [v / 0x100, v % 0x100]
  }

  lemma Le16RoundTrip(v: u16, lo: u8, hi: u8)
    ensures FromLe16(Le16(v)[0], Le16(v)[1]) == v
    ensures Le16(FromLe16(lo, hi)) == [lo, hi]
  {
  }

  /** 256 to the power k. */
  function Pow256(k: nat): (p: nat)
    ensures p > 0
  {
    if k == 0 then 1 else 0x100 * Pow256(k - 1)
  }

  /** The value of a big-endian byte string. */
  function FromBe(b: seq<u8>): (v: nat)
    ensures v < Pow256(|b|)
  {
    if b == [] then 0 else FromBe(b[..|b| - 1]) * 0x100 + b[|b| - 1]
  }

  /** The k-byte big-endian form of v. */
  function ToBe(v: nat, k: nat): (b: seq<u8>)
    requires v < Pow256(k)
    ensures |b| == k
  {
    if k == 0 then [] else ToBe(v / 0x100, k - 1) + [v % 0x100]
  }

  lemma {:induction false} BeRoundTrip(v: nat, k: nat)
    requires v < Pow256(k)
    ensures FromBe(ToBe(v, k)) == v
  {
    if k > 0 {
      BeRoundTrip(v / 0x100, k - 1);
      var b := ToBe(v, k);
      assert b[..|b| - 1] == ToBe(v / 0x100, k - 1);
    }
  }

  lemma FromBe16(v: u16)
    ensures FromBe(Be16(v)) == v
  {
    var b := Be16(v);
    assert b[..1] == [v / 0x100] && b[..1][..0] == [];
  }

  /** The first byte weighs most. */
  lemma BigEndian(a: u8, b: u8, c: u8, d: u8)
    ensures FromBe([a]) == a && FromBe([a, b]) == 0x100 * a as nat + b as nat
    ensures FromBe([a, b, c, d]) == 0x100_0000 * a as nat + 0x1_0000 * b as nat + 0x100 * c as nat + d as nat
  {
    assert [a, b, c, d][..3] == [a, b, c] && [a, b, c][..2] == [a, b] && [a, b][..1] == [a] && [a][..0] == [];
  }
}
