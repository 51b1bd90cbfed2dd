// The shard an address belongs to (internal/stats/stats.go).

module ShardIndex {
  type Byte = b: int | 0 <= b < 256
  type Ip = seq<Byte>

  const NUM_SHARDS := 64
  const TWO_32 := 0x1_0000_0000

  function Pow31(n: nat): nat {
    if n == 0 then 1 else 31 * Pow31(n - 1)
  }

  // The unbounded base-31 polynomial: the sum of ip[i] * 31^(|ip|-1-i).
  function Poly31(ip: Ip): nat {
    if ip == [] then 0 else ip[0] * Pow31(|ip| - 1) + Poly31(ip[1..])
  }

  function ShardOf(ip: Ip): (k: nat)
    ensures k < NUM_SHARDS
  {
    Poly31(ip) % NUM_SHARDS
  }

  lemma {:induction false} Poly31Snoc(ip: Ip, b: Byte)
    ensures Poly31(ip + [b]) == 31 * Poly31(ip) + b
  {
    if ip == [] {
      assert (ip + [b])[1..] == [];
      assert Pow31(0) == 1;
    } else {
      var q := ip + [b];
      assert q[1..] == ip[1..] + [b];
      Poly31Snoc(ip[1..], b);
      assert Pow31(|ip|) == 31 * Pow31(|ip| - 1);
      assert q[0] * (31 * Pow31(|ip| - 1)) == 31 * (ip[0] * Pow31(|ip| - 1));
    }
  }

  // One wrapping round keeps the low 32 bits of the polynomial.
  lemma {:induction false} WrapStep(p: nat, b: Byte)
    ensures (((p % TWO_32) * 31) % TWO_32 + b) % TWO_32 == (31 * p + b) % TWO_32
  {
    var q, h := p / TWO_32, p % TWO_32;
    var q1, h1 := (h * 31) / TWO_32, (h * 31) % TWO_32;
    assert 31 * p + b == TWO_32 * (31 * q + q1) + (h1 + b);
    DropMultiple(31 * q + q1, h1 + b);
  }

  lemma {:induction false} DropMultiple(q: nat, x: nat)
    ensures (TWO_32 * q + x) % TWO_32 == x % TWO_32
  {
    var d, m := x / TWO_32, x % TWO_32;
    assert TWO_32 * q + x == TWO_32 * (q + d) + m;
  }

  // 2^32 is a multiple of the shard count, so wrapping does not change the shard.
  lemma {:induction false} WrapKeepsShard(p: nat)
    ensures (p % TWO_32) % NUM_SHARDS == p % NUM_SHARDS
  {
    var q, h := p / TWO_32, p % TWO_32;
    var d, m := h / NUM_SHARDS, h % NUM_SHARDS;
    assert p == NUM_SHARDS * (q * (TWO_32 / NUM_SHARDS) + d) + m;
  }

  // The source's loop over a wrapping 32-bit accumulator.
  method ShardFor(ip: Ip) returns (k: nat)
    ensures k == ShardOf(ip)
  {
    var h := 0;
    for i := 0 to |ip|
      invariant 0 <= h < TWO_32
      invariant h == Poly31(ip[..i]) % TWO_32
    {
      assert ip[..i + 1] == ip[..i] + [ip[i]];
      Poly31Snoc(ip[..i], ip[i]);
      WrapStep(Poly31(ip[..i]), ip[i]);
      h := ((h * 31) % TWO_32 + ip[i]) % TWO_32;
    }
    assert ip[..|ip|] == ip;
    WrapKeepsShard(Poly31(ip));
    k := h % NUM_SHARDS;
  }

  // Worked out: "ab" hashes to 97 * 31 + 98, which is 33 modulo 64.
  lemma {:induction false} ShardOfAb()
    ensures ShardOf([97, 98]) == 33
  {
    assert [97, 98][..1] == [97] && [97][..0] == [];
    assert Poly31([97]) == 97 by { Poly31Snoc([], 97); }
    Poly31Snoc([97], 98);
    assert [97] + [98] == [97, 98];
  }
}
