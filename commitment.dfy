/**
 * The sealed-bid price commitment. A bidder places `hashv([secret, le8(price)])`
 * and later reveals the secret and the price; the program recomputes the hash.
 * `hashv` feeds its slices to SHA-256 one after another, so it is SHA-256 of
 * their concatenation; SHA-256 itself is the environment's `sha256`.
 */
module BidCommitment {
  import opened Primitives
  import opened Encoding
  import opened Derivation

  function Concat(parts: seq<seq<byte>>): (joined: seq<byte>)
  {
    if parts == [] then [] else parts[0] + Concat(parts[1..])
  }

  /** `solana_sdk::hash::hashv`. */
  function Hashv(env: Env, parts: seq<seq<byte>>): Hash {
    env.sha256(Concat(parts))
  }

  /** The bytes hashed for a commitment: the 32-byte secret, then the price in 8 little-endian bytes. */
  function CommitmentPreimage(secret: Bytes32, price: u64): (preimage: seq<byte>)
    ensures |preimage| == 40
  {
    secret + Le8(price)
  }

  /** The price hash `place_bid` puts in the bid. */
  function PriceCommitment(env: Env, secret: Bytes32, price: u64): Hash {
    Hashv(env, [secret, Le8(price)])
  }

  /** What the reveal recomputes: the revealed secret and price hash to the committed value. */
  predicate RevealMatches(env: Env, secret: Bytes32, price: u64, commitment: Hash) {
    env.sha256(CommitmentPreimage(secret, price)) == commitment
  }

  /**
   * The commitment is SHA-256 of secret ‖ le8(price), so revealing the
   * committed secret and price always matches it.
   */
  lemma RevealOfCommitment(env: Env, secret: Bytes32, price: u64)
    ensures RevealMatches(env, secret, price, PriceCommitment(env, secret, price))
  {
    var tail: seq<seq<byte>> := [Le8(price)];
    assert Concat(tail[1..]) == [];
    assert Concat(tail) == Le8(price);
    assert [secret, Le8(price)][1..] == tail;
  }

  /**
   * The preimage determines secret and price. So a reveal of a different price
   * (or secret) can only match the commitment through a SHA-256 collision.
   */
  lemma PreimageInjective(s1: Bytes32, p1: u64, s2: Bytes32, p2: u64)
    ensures CommitmentPreimage(s1, p1) == CommitmentPreimage(s2, p2) <==> s1 == s2 && p1 == p2
  {
    var a, b := CommitmentPreimage(s1, p1), CommitmentPreimage(s2, p2);
    if a == b {
      assert s1 == a[..32] == b[..32] == s2;
      assert Le8(p1) == a[32..] == b[32..] == Le8(p2);
      Le8Injective(p1, p2);
    }
  }

  /** Distinct prices under one secret are committed through distinct preimages. */
  lemma DistinctPricesDistinctPreimages(secret: Bytes32, p1: u64, p2: u64)
    requires p1 != p2
    ensures CommitmentPreimage(secret, p1) != CommitmentPreimage(secret, p2)
  {
    PreimageInjective(secret, p1, secret, p2);
  }
}
