/**
 * The instruction builders of the auction client. Each derives the addresses
 * it needs, lists the accounts in the order the instruction's account struct
 * declares them (its `iter_owned` is taken to yield the fields in declaration
 * order), and encodes its arguments.
 */
module Sdk {
  import opened Primitives
  import opened Encoding
  import opened Args
  import opened Derivation
  import opened BidCommitment
  import opened BundleChain

  /** Number of seed bytes `append_data` keeps: `min(seed.len(), MAX_SEED_LEN)`. */
  function SeedLen(seed: seq<byte>): (n: nat)
    ensures n <= |seed| && n <= MAX_SEED_LEN
    ensures n == |seed| || n == MAX_SEED_LEN
  {
    if |seed| < MAX_SEED_LEN then |seed| else MAX_SEED_LEN
  }

  /** The seed as `append_data` sends it: its first `SeedLen` bytes, then zeros up to 32 bytes. */
  function PadSeed(seed: seq<byte>): (padded: Bytes32)
    ensures padded[..SeedLen(seed)] == seed[..SeedLen(seed)]
    ensures forall i | SeedLen(seed) <= i < MAX_SEED_LEN :: padded[i] == 0
  {
    seed[..SeedLen(seed)] + Zeros(MAX_SEED_LEN - SeedLen(seed))
  }

  /**
   * The receiver reads `seed_len` bytes of the padded seed: it gets the seed
   * back exactly when the seed fits, and its first 32 bytes otherwise.
   */
  lemma PaddedSeedRecovery(seed: seq<byte>)
    ensures PadSeed(seed)[..SeedLen(seed)] == seed <==> |seed| <= MAX_SEED_LEN
    ensures |seed| > MAX_SEED_LEN ==> PadSeed(seed) == seed[..MAX_SEED_LEN]
  {
  }

  /** `append_data`: attach a chunk of data to a data account at `offset`. */
  method AppendData(env: Env, payer: Pubkey, accountData: seq<byte>, seed: seq<byte>, offset: u64,
                    dataAccountKey: Pubkey, decompressedDataLength: Option<NonZeroU64>)
    returns (ix: Instruction)
    ensures ix.programId == env.programId
    ensures HasLayout(ix.accounts, [payer, dataAccountKey, env.systemProgram], {0}, {2})
    ensures ix.data == env.codec.appendData(
                         AppendDataArgs(offset, PadSeed(seed), SeedLen(seed) as u64, decompressedDataLength))
                       + accountData
  {
    var seedLen := if |seed| < MAX_SEED_LEN then |seed| else MAX_SEED_LEN;
    var paddedSeed := new byte[MAX_SEED_LEN](_ => 0);
    // copy the first seedLen bytes of the seed; the rest stay zero
    var i := 0;
    while i < seedLen
      invariant 0 <= i <= seedLen
      invariant forall j | 0 <= j < i :: paddedSeed[j] == seed[j]
      invariant forall j | i <= j < MAX_SEED_LEN :: paddedSeed[j] == 0
    {
      paddedSeed[i] := seed[i];
      i := i + 1;
    }
    assert paddedSeed[..] == PadSeed(seed);

    var data := env.codec.appendData(AppendDataArgs(offset, paddedSeed[..], seedLen as u64, decompressedDataLength));
    data := data + accountData;

    ix := Instruction(
      env.programId,
      [Writable(payer, true), Writable(dataAccountKey, false), Readonly(env.systemProgram, false)],
      data);
  }

  /** Links `request_job` adds after the bundle it is given and that bundle's successor. */
  const ADDITIONAL_BUNDLES: nat := 8

  /** Pairs of (bundle, auction) accounts `request_job` lists: the given bundle and nine successors. */
  const CHAIN_PAIRS: nat := ADDITIONAL_BUNDLES + 2

  /** Position of the first chain account: after the fixed accounts and, with `global-config`, the config. */
  function ChainStart(env: Env): nat {
    if env.globalConfig then 6 else 5
  }

  /**
   * `request_job`: open a job request and pre-provision the bundle chain from
   * `bundleKey`. `additionalBundles` is accepted and ignored: the chain length
   * is fixed.
   */
  method RequestJob(env: Env, authority: Pubkey, inputHash: Bytes32, inputHashIv: Option<Bytes16>,
                    jobRequestSeed: Bytes32, inputTokens: u64, maxOutputTokens: u64,
                    newBundleLamports: u64, newAuctionLamports: u64, bundleKey: Pubkey,
                    maxPricePerOutputToken: u64, contextLengthTier: RequestTier,
                    expiryDurationTier: RequestTier, inputDataAccount: Option<Pubkey>,
                    additionalBundles: Option<u64>)
    returns (ix: Instruction)
    ensures ix.programId == env.programId
    ensures |ix.accounts| == ChainStart(env) + 2 * CHAIN_PAIRS + 1
    ensures HasLayout(ix.accounts[..5],
                      [authority,
                       JobRequestOf(env, contextLengthTier, expiryDurationTier, authority, jobRequestSeed).key,
                       RegistryOf(env, contextLengthTier, expiryDurationTier).key,
                       inputDataAccount.UnwrapOr(DEFAULT_PUBKEY),
                       env.systemProgram],
                      {0}, {4})
    ensures inputDataAccount == None ==> ix.accounts[3].pubkey == DEFAULT_PUBKEY
    ensures env.globalConfig ==> ix.accounts[5] == Writable(ConfigOf(env).key, false)
    ensures IsChainFrom(env, bundleKey, ix.accounts[ChainStart(env)..ChainStart(env) + 2 * CHAIN_PAIRS])
    ensures ix.accounts[ChainStart(env) + 2 * CHAIN_PAIRS] ==
            Writable(NextBundle(env, ix.accounts[ChainStart(env) + 2 * CHAIN_PAIRS - 2].pubkey).key, false)
    ensures ix.data == env.codec.requestJob(RequestJobArgs(
                         maxPricePerOutputToken, authority, inputHash, jobRequestSeed, newBundleLamports,
                         inputTokens,
                         JobRequestOf(env, contextLengthTier, expiryDurationTier, authority, jobRequestSeed).bump as u64,
                         maxOutputTokens, newAuctionLamports, inputHashIv.UnwrapOr(DEFAULT_IV), inputDataAccount))
  {
    var additions := ADDITIONAL_BUNDLES;
    var parentAuctionKey := FindProgramAddress(env, [env.seeds.auction, bundleKey]).key;

    var contextLengthBytes := Le8(contextLengthTier.ordinal);
    var expiryDurationBytes := Le8(expiryDurationTier.ordinal);
    var jobRequest := FindProgramAddress(
      env, [env.seeds.jobRequest, contextLengthBytes, expiryDurationBytes, authority, jobRequestSeed]);

    var newBundleKey := FindProgramAddress(env, [env.seeds.requestBundle, bundleKey]).key;
    var childAuctionKey := FindProgramAddress(env, [env.seeds.auction, newBundleKey]).key;

    var bundles := [Writable(bundleKey, false), Writable(parentAuctionKey, false),
                    Writable(newBundleKey, false), Writable(childAuctionKey, false)];
    var currentLast := newBundleKey;
    assert bundles == ChainMetas(env, bundleKey, 2);
    var n := 0;
    while n < additions
      invariant 0 <= n <= additions
      invariant bundles == ChainMetas(env, bundleKey, n + 2)
      invariant currentLast == BundleAt(env, bundleKey, n + 1)
    {
      var nextKey := FindProgramAddress(env, [env.seeds.requestBundle, currentLast]).key;
      var auctionKey := FindProgramAddress(env, [env.seeds.auction, nextKey]).key;
      bundles := bundles + [Writable(nextKey, false)];
      bundles := bundles + [Writable(auctionKey, false)];
      currentLast := nextKey;
      n := n + 1;
    }
    var lastBundle := FindProgramAddress(env, [env.seeds.requestBundle, currentLast]).key;

    var registry := FindProgramAddress(
      env, [env.seeds.bundleRegistry, contextLengthBytes, expiryDurationBytes]).key;

    var fixed := [Writable(authority, true), Writable(jobRequest.key, false), Writable(registry, false),
                  Writable(inputDataAccount.UnwrapOr(DEFAULT_PUBKEY), false),
                  Readonly(env.systemProgram, false)];
    var config := if env.globalConfig then [Writable(FindProgramAddress(env, [env.seeds.config]).key, false)]
                  else [];
    var accounts := fixed + config + bundles + [Writable(lastBundle, false)];

    var data := env.codec.requestJob(RequestJobArgs(
      maxPricePerOutputToken, authority, inputHash, jobRequestSeed, newBundleLamports, inputTokens,
      jobRequest.bump as u64, maxOutputTokens, newAuctionLamports, inputHashIv.UnwrapOr(DEFAULT_IV),
      inputDataAccount));
    ix := Instruction(env.programId, accounts, data);

    var start := ChainStart(env);
    assert accounts[..5] == fixed;
    assert accounts[start..start + 2 * CHAIN_PAIRS] == bundles;
    ChainMetasIsChain(env, bundleKey, CHAIN_PAIRS);
    ChainMetasAt(env, bundleKey, CHAIN_PAIRS, CHAIN_PAIRS - 1);
  }

  /** `place_bid`: submit a sealed bid on `auction`, committing to the price with a secret. */
  function PlaceBid(env: Env, authority: Pubkey, auction: Pubkey, pricePerOutputToken: u64,
                    priceHashSeed: Bytes32, endpoint: (IpAddr, u16),
                    nodeEncryptionPublicKey: Option<Bytes32>): (ix: Instruction)
    ensures ix.programId == env.programId
    ensures HasLayout(ix.accounts, [authority, BidOf(env, auction, authority).key, auction, env.systemProgram],
                      {0}, {3})
    ensures ix.data == env.codec.placeBid(PlaceBidArgs(
                         PriceCommitment(env, priceHashSeed, pricePerOutputToken), authority,
                         endpoint.0, endpoint.1, nodeEncryptionPublicKey))
  {
    var priceHash := Hashv(env, [priceHashSeed, Le8(pricePerOutputToken)]);
    var bid := FindProgramAddress(env, [env.seeds.bid, auction, authority]).key;
    Instruction(
      env.programId,
      [Writable(authority, true), Writable(bid, false), Writable(auction, false), Readonly(env.systemProgram, false)],
      env.codec.placeBid(PlaceBidArgs(priceHash, authority, endpoint.0, endpoint.1, nodeEncryptionPublicKey)))
  }

  /** `reveal_bid`: disclose the price committed by the bid of `bidderKey` in `auctionKey`. */
  function RevealBid(env: Env, bidderKey: Pubkey, auctionKey: Pubkey, bundleKey: Pubkey, voteAccount: Pubkey,
                     voteAuthority: Pubkey, args: RevealBidArgs): (ix: Instruction)
    ensures ix.programId == env.programId
    ensures HasLayout(ix.accounts,
                      [bidderKey, BidOf(env, auctionKey, bidderKey).key, auctionKey, bundleKey, voteAccount,
                       voteAuthority],
                      {0, 5}, {})
    ensures ix.data == env.codec.revealBid(args)
  {
    var bid := FindProgramAddress(env, [env.seeds.bid, auctionKey, bidderKey]).key;
    Instruction(
      env.programId,
      [Writable(bidderKey, true), Writable(bid, false), Writable(auctionKey, false), Writable(bundleKey, false),
       Writable(voteAccount, false), Writable(voteAuthority, true)],
      env.codec.revealBid(args))
  }

  /** `submit_job`: the winning bidder of `bundleKey`'s auction submits the job output. */
  function SubmitJob(env: Env, authority: Pubkey, bundleKey: Pubkey, jobRequestKey: Pubkey,
                     data: SubmitJobOutputArgs, outputDataAccount: Option<Pubkey>): (ix: Instruction)
    ensures ix.programId == env.programId
    ensures HasLayout(ix.accounts,
                      [authority, bundleKey, jobRequestKey,
                       BidOf(env, AuctionOf(env, bundleKey).key, authority).key,
                       AuctionOf(env, bundleKey).key,
                       outputDataAccount.UnwrapOr(DEFAULT_PUBKEY)],
                      {0}, {3, 4})
    ensures outputDataAccount == None ==> ix.accounts[5].pubkey == DEFAULT_PUBKEY
    ensures ix.data == env.codec.submitJobOutput(data)
  {
    var auctionKey := FindProgramAddress(env, [env.seeds.auction, bundleKey]).key;
    var bidKey := FindProgramAddress(env, [env.seeds.bid, auctionKey, authority]).key;
    Instruction(
      env.programId,
      [Writable(authority, true), Writable(bundleKey, false), Writable(jobRequestKey, false),
       Readonly(bidKey, false), Readonly(auctionKey, false),
       Writable(outputDataAccount.UnwrapOr(DEFAULT_PUBKEY), false)],
      env.codec.submitJobOutput(data))
  }

  /** `end_auction`: finalize the auction of `bundleKey`. */
  function EndAuction(env: Env, signer: Pubkey, bundleKey: Pubkey, voteAccount: Pubkey): (ix: Instruction)
    ensures ix.programId == env.programId
    ensures HasLayout(ix.accounts, [AuctionOf(env, bundleKey).key, bundleKey, voteAccount, signer], {3}, {})
    ensures ix.data == env.codec.endAuction
  {
    var auctionKey := FindProgramAddress(env, [env.seeds.auction, bundleKey]).key;
    Instruction(
      env.programId,
      [Writable(auctionKey, false), Writable(bundleKey, false), Writable(voteAccount, false), Writable(signer, true)],
      env.codec.endAuction)
  }

  /** `cancel_bundle`: cancel `bundleKey` (a child of `parentBundleKey`) and its pre-provisioned child. */
  function CancelBundle(env: Env, signer: Pubkey, parentBundleKey: Pubkey, bundleKey: Pubkey, bundleBump: byte,
                        contextLengthTier: RequestTier, expiryDurationTier: RequestTier,
                        bundleLamports: u64): (ix: Instruction)
    ensures ix.programId == env.programId
    ensures HasLayout(ix.accounts,
                      [signer, bundleKey, NextBundle(env, bundleKey).key,
                       RegistryOf(env, contextLengthTier, expiryDurationTier).key, env.systemProgram],
                      {0}, {4})
    ensures ix.data == env.codec.cancelBundle(CancelBundleArgs(
                         parentBundleKey, bundleBump as u64, contextLengthTier, expiryDurationTier,
                         NextBundle(env, bundleKey).bump as u64, bundleLamports))
  {
    var registry := FindProgramAddress(
      env, [env.seeds.bundleRegistry, Le8(contextLengthTier.ordinal), Le8(expiryDurationTier.ordinal)]).key;
    var child := FindProgramAddress(env, [env.seeds.requestBundle, bundleKey]);
    Instruction(
      env.programId,
      [Writable(signer, true), Writable(bundleKey, false), Writable(child.key, false), Writable(registry, false),
       Readonly(env.systemProgram, false)],
      env.codec.cancelBundle(CancelBundleArgs(
        parentBundleKey, bundleBump as u64, contextLengthTier, expiryDurationTier, child.bump as u64,
        bundleLamports)))
  }

  /** `close_bid`: close a settled bid. */
  function CloseBid(env: Env, bidAuthority: Pubkey, auctionPayer: Pubkey, bidKey: Pubkey, auctionKey: Pubkey,
                    bundleKey: Pubkey, voteAccount: Pubkey, voteAuthority: Pubkey): (ix: Instruction)
    ensures ix.programId == env.programId
    ensures HasLayout(ix.accounts,
                      [bidAuthority, bidKey, auctionPayer, auctionKey, bundleKey, voteAccount, voteAuthority,
                       env.voteProgram],
                      {0, 2, 6}, {1, 4, 7})
    ensures ix.data == env.codec.closeBid
  {
    Instruction(
      env.programId,
      [Writable(bidAuthority, true), Readonly(bidKey, false), Writable(auctionPayer, true),
       Writable(auctionKey, false), Readonly(bundleKey, false), Writable(voteAccount, false),
       Writable(voteAuthority, true), Readonly(env.voteProgram, false)],
      env.codec.closeBid)
  }

  /** The inputs of `close_request`, the `CloseRequest` struct. */
  datatype CloseRequest = CloseRequest(
    requestAuthority: Pubkey,
    jobRequestKey: Pubkey,
    bundlePayer: Pubkey,
    bundleKey: Pubkey,
    auctionKey: Pubkey,
    auctionPayer: Pubkey,
    contextLengthTier: RequestTier,
    expiryDurationTier: RequestTier,
    newBundleLamports: u64,
    newAuctionLamports: u64)

  /**
   * `close_request`: close a fulfilled job request; the request authority pays
   * for the child bundle, so it is listed first and last.
   */
  function CloseRequestIx(env: Env, args: CloseRequest): (ix: Instruction)
    ensures ix.programId == env.programId
    ensures HasLayout(ix.accounts,
                      [args.requestAuthority, args.jobRequestKey, args.bundlePayer, args.bundleKey,
                       RegistryOf(env, args.contextLengthTier, args.expiryDurationTier).key,
                       args.auctionKey, args.auctionPayer,
                       NextBundle(env, args.bundleKey).key,
                       AuctionOf(env, NextBundle(env, args.bundleKey).key).key,
                       args.requestAuthority],
                      {0, 9}, {})
    ensures ix.data == env.codec.closeRequest(CloseRequestArgs(
                         args.newBundleLamports, args.newAuctionLamports,
                         NextBundle(env, args.bundleKey).bump as u64))
  {
    var registry := FindProgramAddress(
      env, [env.seeds.bundleRegistry, Le8(args.contextLengthTier.ordinal), Le8(args.expiryDurationTier.ordinal)]).key;
    var childBundle := FindProgramAddress(env, [env.seeds.requestBundle, args.bundleKey]);
    var childAuction := FindProgramAddress(env, [env.seeds.auction, childBundle.key]).key;
    Instruction(
      env.programId,
      [Writable(args.requestAuthority, true), Writable(args.jobRequestKey, false),
       Writable(args.bundlePayer, false), Writable(args.bundleKey, false), Writable(registry, false),
       Writable(args.auctionKey, false), Writable(args.auctionPayer, false), Writable(childBundle.key, false),
       Writable(childAuction, false), Writable(args.requestAuthority, true)],
      env.codec.closeRequest(CloseRequestArgs(
        args.newBundleLamports, args.newAuctionLamports, childBundle.bump as u64)))
  }

  /** `submit_validation`: a validator attests to a job's output. */
  function SubmitValidation(env: Env, bundleKey: Pubkey, voteAccount: Pubkey, voteAuthority: Pubkey,
                            jobRequestKey: Pubkey, data: SubmitValidationArgs): (ix: Instruction)
    ensures ix.programId == env.programId
    ensures HasLayout(ix.accounts, [bundleKey, voteAccount, env.voteProgram, voteAuthority, jobRequestKey],
                      {3}, {2})
    ensures ix.data == env.codec.submitValidation(data)
  {
    Instruction(
      env.programId,
      [Writable(bundleKey, false), Writable(voteAccount, false), Readonly(env.voteProgram, false),
       Writable(voteAuthority, true), Writable(jobRequestKey, false)],
      env.codec.submitValidation(data))
  }

  /** `init_bundle`: create the first bundle and the registry of a tier pair. */
  function InitBundle(env: Env, payer: Pubkey, contextLengthTier: RequestTier, expiryDurationTier: RequestTier,
                      bundleLamports: u64, registryLamports: u64): (ix: Instruction)
    ensures ix.programId == env.programId
    ensures HasLayout(ix.accounts,
                      [payer, RootBundleOf(env, contextLengthTier, expiryDurationTier).key,
                       RegistryOf(env, contextLengthTier, expiryDurationTier).key, env.systemProgram],
                      {0}, {3})
    ensures ix.data == env.codec.initBundle(InitBundleArgs(
                         contextLengthTier, expiryDurationTier, bundleLamports,
                         RootBundleOf(env, contextLengthTier, expiryDurationTier).bump as u64,
                         RegistryOf(env, contextLengthTier, expiryDurationTier).bump as u64,
                         registryLamports))
  {
    var bundle := FindProgramAddress(
      env, [env.seeds.requestBundle, Le8(contextLengthTier.ordinal), Le8(expiryDurationTier.ordinal)]);
    var registry := FindProgramAddress(
      env, [env.seeds.bundleRegistry, Le8(contextLengthTier.ordinal), Le8(expiryDurationTier.ordinal)]);
    Instruction(
      env.programId,
      [Writable(payer, true), Writable(bundle.key, false), Writable(registry.key, false),
       Readonly(env.systemProgram, false)],
      env.codec.initBundle(InitBundleArgs(
        contextLengthTier, expiryDurationTier, bundleLamports, bundle.bump as u64, registry.bump as u64,
        registryLamports)))
  }

  /** `init_config`: create the global configuration; it exists only with the `global-config` feature. */
  function InitConfig(env: Env, payer: Pubkey, args: InitConfigArgs): (ix: Instruction)
    requires env.globalConfig
    ensures ix.programId == env.programId
    ensures HasLayout(ix.accounts, [payer, ConfigOf(env).key, env.systemProgram], {0}, {2})
    ensures ix.data == env.codec.initConfig(args)
  {
    var config := FindProgramAddress(env, [env.seeds.config]).key;
    Instruction(
      env.programId,
      [Writable(payer, true), Writable(config, false), Readonly(env.systemProgram, false)],
      env.codec.initConfig(args))
  }
}
