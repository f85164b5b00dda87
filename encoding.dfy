/**
 * Little-endian fixed-width integers (`u64::to_le_bytes`) and the request-tier
 * encoding built on them. A tier's 8-byte encoding is used as a derivation seed
 * and as the partition key of the bundle registry.
 */
module Encoding {
  import opened Primitives

  function Pow256(n: nat): (p: nat)
    ensures p >= 1
  {
    if n == 0 then 1 else 256 * Pow256(n - 1)
  }

  /** The `width` low-order bytes of `x`, least significant first. */
  function Le(x: nat, width: nat): (b: seq<byte>)
    ensures |b| == width
  {
    if width == 0 then [] else [(x % 256) as byte] + Le(x / 256, width - 1)
  }

  /** The number whose little-endian bytes are `b`. */
  function FromLe(b: seq<byte>): (x: nat)
    ensures x < Pow256(|b|)
  {
    if b == [] then 0
    else
      var rest := FromLe(b[1..]);
      assert rest + 1 <= Pow256(|b| - 1);
      assert 256 * (rest + 1) <= 256 * Pow256(|b| - 1);
      b[0] as nat + 256 * rest
  }

  lemma {:induction false} FromLeOfLe(x: nat, width: nat)
    requires x < Pow256(width)
    ensures FromLe(Le(x, width)) == x
  {
    if width > 0 {
      var b := Le(x, width);
      assert b[0] as nat == x % 256;
      assert b[1..] == Le(x / 256, width - 1);
      assert x / 256 < Pow256(width - 1);
      FromLeOfLe(x / 256, width - 1);
    }
  }

  lemma {:induction false} LeOfFromLe(b: seq<byte>)
    ensures Le(FromLe(b), |b|) == b
  {
    if b != [] {
      var x, rest := FromLe(b), FromLe(b[1..]);
      assert x == b[0] as nat + 256 * rest;
      assert x % 256 == b[0] as nat;
      assert x / 256 == rest;
      LeOfFromLe(b[1..]);
      assert b == [b[0]] + b[1..];
    }
  }

  /** `u64::to_le_bytes`. */
  function Le8(x: u64): (b: seq<byte>)
    ensures |b| == 8
  {
    Le(x as nat, 8)
  }

  /** `u64::from_le_bytes`. */
  function FromLe8(b: seq<byte>): (x: u64)
    requires |b| == 8
    ensures Le8(x) == b
  {
    assert Pow256(8) == 0x1_0000_0000_0000_0000;
    LeOfFromLe(b);
    FromLe(b) as u64
  }

  lemma Le8RoundTrip(x: u64)
    ensures FromLe8(Le8(x)) == x
  {
    assert Pow256(8) == 0x1_0000_0000_0000_0000;
    FromLeOfLe(x as nat, 8);
  }

  lemma Le8Injective(x: u64, y: u64)
    ensures Le8(x) == Le8(y) <==> x == y
  {
    Le8RoundTrip(x);
    Le8RoundTrip(y);
  }

  /**
   * A request tier (a context-length class or an expiry-duration class),
   * identified by its ordinal: the value of `tier as u64`.
   */
  datatype RequestTier = RequestTier(ordinal: u64)

  /** `(tier as u64).to_le_bytes()`. */
  function TierBytes(tier: RequestTier): (b: seq<byte>)
    ensures |b| == 8
  {
    Le8(tier.ordinal)
  }

  /** Inverse of `TierBytes`. */
  function TierFromBytes(b: seq<byte>): (tier: RequestTier)
    requires |b| == 8
    ensures TierBytes(tier) == b
  {
    RequestTier(FromLe8(b))
  }

  lemma TierRoundTrip(tier: RequestTier)
    ensures TierFromBytes(TierBytes(tier)) == tier
  {
    Le8RoundTrip(tier.ordinal);
  }

  lemma TierBytesInjective(s: RequestTier, t: RequestTier)
    ensures TierBytes(s) == TierBytes(t) <==> s == t
  {
    Le8Injective(s.ordinal, t.ordinal);
  }

  /** The tier with ordinal 3 is encoded as the bytes 3, 0, 0, 0, 0, 0, 0, 0. */
  lemma TierThreeBytes()
    ensures TierBytes(RequestTier(3)) == [3, 0, 0, 0, 0, 0, 0, 0]
  {
  }
}
