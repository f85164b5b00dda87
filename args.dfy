/**
 * The argument records the builders fill in, and the encoders that turn each
 * of them into instruction data. The record layouts and their `to_bytes`
 * encoders belong to the auction program's interface crate; here each record
 * keeps the field values the builders pass, and each encoder is a field of
 * `Codec`, an arbitrary function fixed by the caller's environment.
 */
module Args {
  import opened Primitives
  import opened Encoding

  datatype AppendDataArgs = AppendDataArgs(
    offset: u64,
    seed: Bytes32,
    seedLen: u64,
    decompressedDataLength: Option<NonZeroU64>)

  datatype RequestJobArgs = RequestJobArgs(
    maxPricePerOutputToken: u64,
    authority: Pubkey,
    inputHash: Bytes32,
    jobRequestSeed: Bytes32,
    newBundleLamports: u64,
    inputTokens: u64,
    bump: u64,
    maxOutputTokens: u64,
    newAuctionLamports: u64,
    inputHashIv: Bytes16,
    // `MaybePubkey`: the key, or a marker for "no input data account"
    inputDataAccount: Option<Pubkey>)

  /** A network address as the bidder hands it over; its conversion into the args is not modelled. */
  datatype IpAddr = V4(octets: seq<byte>) | V6(octets: seq<byte>)

  datatype PlaceBidArgs = PlaceBidArgs(
    priceHash: Hash,
    authority: Pubkey,
    ip: IpAddr,
    port: u16,
    nodeEncryptionPublicKey: Option<Bytes32>)

  datatype CancelBundleArgs = CancelBundleArgs(
    parentBundleKey: Pubkey,
    bundleBump: u64,
    contextLengthTier: RequestTier,
    expiryDurationTier: RequestTier,
    childBundleBump: u64,
    bundleLamports: u64)

  datatype CloseRequestArgs = CloseRequestArgs(
    newBundleLamports: u64,
    newAuctionLamports: u64,
    newBundleBump: u64)

  datatype InitBundleArgs = InitBundleArgs(
    contextLengthTier: RequestTier,
    expiryDurationTier: RequestTier,
    bundleLamports: u64,
    bundleBump: u64,
    registryBump: u64,
    registryLamports: u64)

  // Argument records the builders receive from their caller and forward
  // untouched; their fields are never read here.
  type RevealBidArgs(==)
  type SubmitJobOutputArgs(==)
  type SubmitValidationArgs(==)
  type InitConfigArgs(==)

  /** The `to_bytes` encoder of every argument record. */
  datatype Codec = Codec(
    appendData: AppendDataArgs -> seq<byte>,
    requestJob: RequestJobArgs -> seq<byte>,
    placeBid: PlaceBidArgs -> seq<byte>,
    revealBid: RevealBidArgs -> seq<byte>,
    submitJobOutput: SubmitJobOutputArgs -> seq<byte>,
    // `EndAuctionArgs {}` and `CloseBidArgs {}` have no fields: one encoding each
    endAuction: seq<byte>,
    cancelBundle: CancelBundleArgs -> seq<byte>,
    closeBid: seq<byte>,
    closeRequest: CloseRequestArgs -> seq<byte>,
    submitValidation: SubmitValidationArgs -> seq<byte>,
    initBundle: InitBundleArgs -> seq<byte>,
    initConfig: InitConfigArgs -> seq<byte>)
}
