/**
 * Agreement between builders: an address that several instructions name is
 * derived the same way in each of them, so the instructions of one auction,
 * one bid or one tier pair refer to the same accounts.
 */
module Consistency {
  import opened Primitives
  import opened Args
  import opened Derivation
  import opened BundleChain
  import opened Sdk

  /** `place_bid`, `reveal_bid` and `submit_job` name the same bid account for one bidder in one auction. */
  lemma BidAccountAgrees(env: Env, authority: Pubkey, bundleKey: Pubkey, price: u64, secret: Bytes32,
                         endpoint: (IpAddr, u16), nodeKey: Option<Bytes32>, voteAccount: Pubkey,
                         voteAuthority: Pubkey, revealArgs: RevealBidArgs, jobRequestKey: Pubkey,
                         output: SubmitJobOutputArgs, outputDataAccount: Option<Pubkey>)
    ensures var auction := AuctionOf(env, bundleKey).key;
            var placed := PlaceBid(env, authority, auction, price, secret, endpoint, nodeKey);
            var revealed := RevealBid(env, authority, auction, bundleKey, voteAccount, voteAuthority, revealArgs);
            var submitted := SubmitJob(env, authority, bundleKey, jobRequestKey, output, outputDataAccount);
            placed.accounts[1].pubkey == revealed.accounts[1].pubkey == submitted.accounts[3].pubkey &&
            placed.accounts[2].pubkey == revealed.accounts[2].pubkey == submitted.accounts[4].pubkey
  {
  }

  /**
   * Every auction of a bundle chain is the auction `end_auction` and
   * `submit_job` derive for that pair's bundle.
   */
  lemma ChainAuctionsAgree(env: Env, root: Pubkey, metas: seq<AccountMeta>, k: nat, signer: Pubkey,
                           voteAccount: Pubkey, authority: Pubkey, jobRequestKey: Pubkey,
                           output: SubmitJobOutputArgs, outputDataAccount: Option<Pubkey>)
    requires IsChainFrom(env, root, metas)
    requires k < |metas| / 2
    ensures EndAuction(env, signer, BundleEntry(metas, k), voteAccount).accounts[0].pubkey == AuctionEntry(metas, k)
    ensures SubmitJob(env, authority, BundleEntry(metas, k), jobRequestKey, output, outputDataAccount)
              .accounts[4].pubkey == AuctionEntry(metas, k)
  {
  }

  /**
   * Closing the request of a chain's bundle, or cancelling that bundle,
   * names the chain's next bundle as the child, and closing names the next
   * pair's auction as the child auction.
   */
  lemma ChildrenFollowChain(env: Env, root: Pubkey, metas: seq<AccountMeta>, k: nat, close: CloseRequest,
                            signer: Pubkey, parent: Pubkey, bump: byte, lamports: u64)
    requires IsChainFrom(env, root, metas)
    requires k + 1 < |metas| / 2
    requires close.bundleKey == BundleEntry(metas, k)
    ensures CloseRequestIx(env, close).accounts[7].pubkey == BundleEntry(metas, k + 1)
    ensures CloseRequestIx(env, close).accounts[8].pubkey == AuctionEntry(metas, k + 1)
    ensures CancelBundle(env, signer, parent, BundleEntry(metas, k), bump, close.contextLengthTier,
                         close.expiryDurationTier, lamports).accounts[2].pubkey == BundleEntry(metas, k + 1)
  {
  }

  /** `cancel_bundle`, `close_request` and `init_bundle` of one tier pair name the same registry. */
  lemma RegistryAgrees(env: Env, close: CloseRequest, signer: Pubkey, parent: Pubkey, bundleKey: Pubkey,
                       bump: byte, lamports: u64, payer: Pubkey, registryLamports: u64)
    ensures var cancel := CancelBundle(env, signer, parent, bundleKey, bump, close.contextLengthTier,
                                       close.expiryDurationTier, lamports);
            var created := InitBundle(env, payer, close.contextLengthTier, close.expiryDurationTier, lamports,
                                   registryLamports);
            cancel.accounts[3].pubkey == CloseRequestIx(env, close).accounts[4].pubkey == created.accounts[2].pubkey
  {
  }
}
