/**
 * The bundle chain `request_job` pre-provisions. Each bundle's address is
 * derived from its predecessor's with the request-bundle seed, and each
 * bundle's auction from the bundle with the auction seed; the chain is a
 * recurrence over derived addresses, not a stored list.
 */
module BundleChain {
  import opened Primitives
  import opened Derivation

  /** The bundle `k` derivation steps after `root`. */
  function BundleAt(env: Env, root: Pubkey, k: nat): Pubkey {
    if k == 0 then root else NextBundle(env, BundleAt(env, root, k - 1)).key
  }

  /** The account metas of the first `pairs` (bundle, auction) pairs of the chain from `root`. */
  function ChainMetas(env: Env, root: Pubkey, pairs: nat): (metas: seq<AccountMeta>)
    ensures |metas| == 2 * pairs
  {
    if pairs == 0 then []
    else
      var bundle := BundleAt(env, root, pairs - 1);
      ChainMetas(env, root, pairs - 1) + [Writable(bundle, false), Writable(AuctionOf(env, bundle).key, false)]
  }

  /** The bundle of pair `k` in a list of (bundle, auction) metas. */
  function BundleEntry(metas: seq<AccountMeta>, k: nat): Pubkey
    requires 2 * k < |metas|
  {
    metas[2 * k].pubkey
  }

  /** The auction of pair `k` in a list of (bundle, auction) metas. */
  function AuctionEntry(metas: seq<AccountMeta>, k: nat): Pubkey
    requires 2 * k + 1 < |metas|
  {
    metas[2 * k + 1].pubkey
  }

  /**
   * `metas` is a bundle chain from `root`: at least one pair, no gaps; pair 0
   * holds `root`; every auction is its bundle's auction; every bundle after the
   * first is the next bundle of the one before it; every slot is writable and
   * signs nothing.
   */
  predicate IsChainFrom(env: Env, root: Pubkey, metas: seq<AccountMeta>) {
    |metas| >= 2 && |metas| % 2 == 0 &&
    BundleEntry(metas, 0) == root &&
    (forall i | 0 <= i < |metas| :: metas[i].isWritable && !metas[i].isSigner) &&
    (forall k: nat | k < |metas| / 2 :: AuctionEntry(metas, k) == AuctionOf(env, BundleEntry(metas, k)).key) &&
    (forall k: nat | 0 < k < |metas| / 2 :: BundleEntry(metas, k) == NextBundle(env, BundleEntry(metas, k - 1)).key)
  }

  lemma {:induction false} ChainMetasAt(env: Env, root: Pubkey, pairs: nat, k: nat)
    requires k < pairs
    ensures ChainMetas(env, root, pairs)[2 * k] == Writable(BundleAt(env, root, k), false)
    ensures ChainMetas(env, root, pairs)[2 * k + 1] == Writable(AuctionOf(env, BundleAt(env, root, k)).key, false)
  {
    if k < pairs - 1 {
      ChainMetasAt(env, root, pairs - 1, k);
    }
  }

  /** The first `pairs` pairs of the chain from `root` form a bundle chain from `root`. */
  lemma ChainMetasIsChain(env: Env, root: Pubkey, pairs: nat)
    requires pairs >= 1
    ensures IsChainFrom(env, root, ChainMetas(env, root, pairs))
  {
    var metas := ChainMetas(env, root, pairs);
    forall k: nat | k < pairs
      ensures BundleEntry(metas, k) == BundleAt(env, root, k)
      ensures AuctionEntry(metas, k) == AuctionOf(env, BundleAt(env, root, k)).key
      ensures metas[2 * k].isWritable && !metas[2 * k].isSigner
      ensures metas[2 * k + 1].isWritable && !metas[2 * k + 1].isSigner
    {
      ChainMetasAt(env, root, pairs, k);
    }
    forall i | 0 <= i < |metas| ensures metas[i].isWritable && !metas[i].isSigner {
      var k: nat := i / 2;
      assert i == 2 * k || i == 2 * k + 1;
    }
  }

  /**
   * A bundle chain is determined by its root and its length: it is the
   * `|metas| / 2`-fold application of the successor step to the root.
   */
  lemma ChainIsUnique(env: Env, root: Pubkey, metas: seq<AccountMeta>)
    requires IsChainFrom(env, root, metas)
    ensures metas == ChainMetas(env, root, |metas| / 2)
  {
    var pairs := |metas| / 2;
    var expected := ChainMetas(env, root, pairs);
    BundleEntriesFollowRoot(env, root, metas, pairs - 1);
    forall i | 0 <= i < |metas| ensures metas[i] == expected[i] {
      var k: nat := i / 2;
      assert i == 2 * k || i == 2 * k + 1;
      BundleEntriesFollowRoot(env, root, metas, k);
      ChainMetasAt(env, root, pairs, k);
    }
  }

  lemma {:induction false} BundleEntriesFollowRoot(env: Env, root: Pubkey, metas: seq<AccountMeta>, k: nat)
    requires IsChainFrom(env, root, metas)
    requires k < |metas| / 2
    ensures BundleEntry(metas, k) == BundleAt(env, root, k)
  {
    if k > 0 {
      BundleEntriesFollowRoot(env, root, metas, k - 1);
    }
  }
}
