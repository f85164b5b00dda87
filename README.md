# Auction client instruction builders, modelled in Dafny

This project models the instruction-builder layer of the auction client of a
decentralized compute-job marketplace (`src/sdk.rs`). Callers request jobs.
Providers place sealed price bids in an auction for each job. Winning
providers submit the job output, and validators attest to it. Each builder
computes the program addresses it needs, lists the account metas in the
order its account struct declares, and encodes its arguments into one
`Instruction { program_id, accounts, data }`.

Files, one module each:

- `primitives.dfy` (`Primitives`): fixed-width integers, 32-byte keys, the
  all-zero default key, `AccountMeta`, `Instruction`, and `HasLayout`. That
  predicate states an account schema: exact length and order, which
  positions sign, which are read-only.
- `encoding.dfy` (`Encoding`): `u64::to_le_bytes`, its inverse, and the
  8-byte encoding of a `RequestTier` ordinal.
- `args.dfy` (`Args`): the argument records the builders fill in, and the
  `Codec` of their `to_bytes` encoders.
- `derivation.dfy` (`Derivation`): the environment `Env` and the reference
  definition of every derived address. The environment holds the program
  ids, the seed prefixes, the `global-config` flag,
  `find_program_address`, SHA-256 and the codec. The reference definitions
  are: the auction of a bundle, the next bundle, a bid, a registry, a root
  bundle, a job request, and the config.
- `commitment.dfy` (`BidCommitment`): the sealed-bid price commitment
  `hashv([secret, le8(price)])`.
- `chain.dfy` (`BundleChain`): the bundle/auction hash chain as a
  recurrence, and the predicate `IsChainFrom` that says a list of metas is
  such a chain.
- `sdk.dfy` (`Sdk`): the twelve builders.
- `consistency.dfy` (`Consistency`): lemmas showing that builders derive a
  shared address (bid, auction, child bundle, registry) the same way.

`find_program_address` and SHA-256 are not modelled inside. Each is a field
of `Env`, an arbitrary function fixed by the caller. Because they are
functions, derivation is deterministic by construction: the same seeds and
program id always give the same address and bump. The builders call `find`
with seed lists written inline, as the source does. Their contracts are
stated against the named reference derivations (`AuctionOf`, `BidOf`,
`RegistryOf`, ...), so each contract also proves that the inline seeds
match the shared definition.

`append_data` and `request_job` change local state step by step. They are
methods: a loop copies the seed into a fixed 32-byte array, and a loop
pushes the chain onto a growing list. The other builders are pure
functions.

`request_job` accepts `_additional_bundles` and ignores it; the TODO at
src/sdk.rs:77 says it should be used. It lists the given bundle and its
successor, then runs 8 more iterations, so it lists 10 (bundle, auction)
pairs: 20 metas, then one more bundle. The model has the same fixed length:
`CHAIN_PAIRS` is 10. Only `append_data` truncates a seed, and that seed is
an argument, not a derivation seed. Every seed passed to derivation has a
fixed size: 8-byte tiers, 32-byte keys, and a 32-byte job-request seed.

## Model

| member | source | states |
|---|---|---|
| Encoding.Le | src/sdk.rs:86-87 | the little-endian encoding of a value at a given width has exactly that many bytes |
| Encoding.FromLe | src/sdk.rs:86-87 | decoding little-endian bytes gives a value below 256 to the power of the width |
| Encoding.FromLeOfLe | src/sdk.rs:86-87 | decoding the encoding of any value that fits the width gives the value back |
| Encoding.LeOfFromLe | src/sdk.rs:86-87 | encoding the decoded value of any byte string at its own width gives the bytes back |
| Encoding.FromLe8 | src/sdk.rs:86-87 | every 8-byte string is `to_le_bytes` of the u64 it decodes to |
| Encoding.Le8RoundTrip | src/sdk.rs:86-87 | `from_le_bytes(to_le_bytes(x)) == x` for every u64 |
| Encoding.Le8Injective | src/sdk.rs:86-87 | two u64 values have the same 8 little-endian bytes if and only if they are equal |
| Encoding.Le8 | src/sdk.rs:86-87 | `u64::to_le_bytes` is always 8 bytes; `FromLe8` and `Le8RoundTrip` fix their contents |
| Encoding.TierBytes | src/sdk.rs:86-87 | the tier encoding is always 8 bytes |
| Encoding.TierFromBytes | src/sdk.rs:298-299 | every 8-byte string decodes to a tier whose encoding is that string |
| Encoding.TierRoundTrip | src/sdk.rs:389-390 | decoding a tier's encoding gives the tier back |
| Encoding.TierBytesInjective | src/sdk.rs:468-469 | two tiers have the same encoding if and only if they are the same tier |
| Encoding.TierThreeBytes | src/sdk.rs:86-87 | the tier with ordinal 3 encodes as 3, 0, 0, 0, 0, 0, 0, 0 |
| Derivation.AuctionOf | src/sdk.rs:82-84 | the auction of a bundle is derived from the auction seed and the bundle key, in that order |
| Derivation.JobRequestOf | src/sdk.rs:88-95 | a job request is derived from the job-request seed, both tier encodings, the authority and the caller's 32-byte seed, in that order |
| Derivation.NextBundle | src/sdk.rs:97-98 | the next bundle is derived from the request-bundle seed and the previous bundle key |
| Derivation.RegistryOf | src/sdk.rs:126-133 | a registry is derived from the registry seed and the two tier encodings |
| Derivation.ConfigOf | src/sdk.rs:136 | the config is derived from the config seed alone |
| Derivation.BidOf | src/sdk.rs:186-187 | a bid is derived from the bid seed, the auction and the authority, in that order |
| Derivation.RootBundleOf | src/sdk.rs:465-472 | the root bundle of a tier pair is derived from the request-bundle seed and the two tier encodings |
| Derivation.RegistrySeedsDistinguishTiers | src/sdk.rs:126-133 | two tier pairs give the same registry seed list if and only if they are the same pair |
| BidCommitment.Hashv | src/sdk.rs:183-184 | `hashv` is SHA-256 of its slices concatenated in order |
| BidCommitment.PriceCommitment | src/sdk.rs:183-184 | the price hash is `hashv` of the 32-byte secret and the 8 little-endian price bytes |
| BidCommitment.CommitmentPreimage | src/sdk.rs:183-184 | the hashed commitment input is always 40 bytes: a 32-byte secret and an 8-byte price |
| BidCommitment.RevealOfCommitment | src/sdk.rs:175-184 | the price hash is SHA-256 of the secret followed by the little-endian price, so recomputing it from the revealed secret and price matches the commitment |
| BidCommitment.PreimageInjective | src/sdk.rs:183-184 | two commitment inputs are equal if and only if the secrets and the prices are both equal |
| BidCommitment.DistinctPricesDistinctPreimages | src/sdk.rs:183-184 | under one secret, different prices are hashed from different inputs, so they collide only through SHA-256 |
| BundleChain.BundleAt | src/sdk.rs:109-120 | `current_last` after k steps: the root, then each bundle derived from the one before with the request-bundle seed |
| BundleChain.IsChainFrom | src/sdk.rs:103-124 | a list of metas is a chain from a root when it holds whole pairs starting at the root, each auction is its bundle's auction, each later bundle follows the one before, and every slot is writable and non-signing |
| BundleChain.ChainMetas | src/sdk.rs:103-122 | the first n pairs of a chain are exactly 2n metas |
| BundleChain.ChainMetasAt | src/sdk.rs:103-122 | pair k of the chain is the bundle k steps after the root, then that bundle's auction, both writable and non-signing |
| BundleChain.ChainMetasIsChain | src/sdk.rs:97-122 | the computed chain starts at the root; each auction is derived from its bundle with the auction seed; each bundle after the first is derived from the previous bundle with the request-bundle seed |
| BundleChain.BundleEntriesFollowRoot | src/sdk.rs:109-120 | in any chain from a root, bundle k is the k-fold successor of the root |
| BundleChain.ChainIsUnique | src/sdk.rs:103-122 | any list that satisfies the chain recurrence from a root equals the computed chain of its length, so the recurrence determines the list |
| Sdk.SeedLen | src/sdk.rs:29 | the kept seed length is at most the seed's length and at most 32, and equals one of the two |
| Sdk.PadSeed | src/sdk.rs:29-37 | the padded seed is 32 bytes; its first min(len, 32) bytes are the seed's; the rest are zero |
| Sdk.PaddedSeedRecovery | src/sdk.rs:22-37 | reading `seed_len` bytes of the padded seed gives the seed back if and only if the seed has at most 32 bytes; a longer seed becomes exactly its first 32 bytes |
| Sdk.AppendData | src/sdk.rs:19-60 | accounts are payer (writable signer), data account (writable), system program (read-only); data is the encoded args (offset, padded seed, min(len, 32), decompressed length) followed by the account data verbatim |
| Sdk.RequestJob | src/sdk.rs:62-170 | accounts are payer (signer), job request, registry, input data (all-zero key when absent), system program (read-only), the config if the feature is on, then 20 metas forming a bundle chain from `bundle_key`, then the bundle one step past the last chain bundle; the list length is fixed and does not depend on `_additional_bundles`; the args carry the job-request bump and the IV (16 zero bytes when absent) |
| Sdk.PlaceBid | src/sdk.rs:171-211 | accounts are payer (signer), the bid derived from auction and authority, auction, system program (read-only); the args carry the price commitment of the secret and the price |
| Sdk.RevealBid | src/sdk.rs:212-237 | six accounts with the bid derived from auction and bidder; the bidder and the vote authority sign; all are writable |
| Sdk.SubmitJob | src/sdk.rs:238-270 | accounts are bid authority (signer), bundle, job request, bid and auction (both read-only, derived from the bundle and the authority), output data (all-zero key when absent) |
| Sdk.EndAuction | src/sdk.rs:271-287 | accounts are the bundle's derived auction, bundle, vote account, payer; only the payer signs |
| Sdk.CancelBundle | src/sdk.rs:288-332 | accounts are payer (signer), bundle, its derived child bundle, the tier pair's registry, system program (read-only); the args carry the child's bump from the same derivation |
| Sdk.CloseBid | src/sdk.rs:333-361 | eight accounts; exactly bid authority, auction payer and vote authority sign; exactly bid, bundle and vote program are read-only |
| Sdk.CloseRequestIx | src/sdk.rs:363-430 | ten accounts; the request authority is first and last, a writable signer both times; it signs nowhere else; registry, child bundle and child auction are derived; the args carry the child bundle's bump |
| Sdk.SubmitValidation | src/sdk.rs:431-454 | accounts are bundle, vote account, vote program (read-only), vote authority (signer), job request |
| Sdk.InitBundle | src/sdk.rs:456-505 | accounts are payer (signer), the tier pair's root bundle, its registry, system program (read-only); the args carry both bumps from the same derivations |
| Sdk.InitConfig | src/sdk.rs:507-525 | accounts are payer (signer), the config derived from the config seed alone, system program (read-only) |
| Consistency.BidAccountAgrees | src/sdk.rs:186-187 | `place_bid`, `reveal_bid` and `submit_job` name the same bid and the same auction for one bidder on one bundle |
| Consistency.ChainAuctionsAgree | src/sdk.rs:272-273 | each auction in a request's chain is the auction that `end_auction` and `submit_job` derive for that pair's bundle |
| Consistency.ChildrenFollowChain | src/sdk.rs:400-404 | closing a chain bundle's request, or cancelling that bundle, names the chain's next bundle (and, when closing, its auction) as the child |
| Consistency.RegistryAgrees | src/sdk.rs:300-307 | `cancel_bundle`, `close_request` and `init_bundle` name the same registry for one tier pair |

## Left out

- The internals of `Pubkey::find_program_address` are not modelled: the SHA-256 based search for an off-curve address over bumps. Derivation is an arbitrary function in `Env`. Its panic when no bump succeeds is not modelled either, because derivation here always returns.
- SHA-256 behind `hashv` is an arbitrary function in `Env`. So a reveal with a different price is shown to differ only in the hashed input. The model does not prove that the hash differs, since that would need collision resistance.
- Pairwise distinctness of the chain's bundle addresses is not proved, for the same reason: it needs derivation to be collision-free.
- The `to_bytes` encoders of the argument records and of `MaybePubkey` live in the program's interface crate. Each is an arbitrary function in `Codec`. The records keep only the field values the builders pass. `MaybePubkey` is modelled as an `Option` of a key.
- `RevealBidArgs`, `SubmitJobOutputArgs`, `SubmitValidationArgs` and `InitConfigArgs` are forwarded untouched by the builders, so they are abstract types.
- `iter_owned` on the account structs is external. It is assumed to yield the fields in the order the struct literal lists them. The `bundle_auction_account_pairs` Vec of `request_job` (src/sdk.rs:146) is assumed to be flattened in place into the account list, so the chain's metas sit between the config (or system program) and `last_bundle`.
- The bumps written into the argument records are modelled as u64 values. The exact integer types behind `.into()` are in the interface crate. The bump's value is unchanged by the conversion. The tiers in `CancelBundleArgs` and `InitBundleArgs` are `RequestTier` values, passed as given.
- Encoding.TierFromBytes: tiers are modelled by their u64 ordinal, with every ordinal allowed, because the enum's variants live in the interface crate. So decoding is total here, while a decoder for the real enum would reject an ordinal that names no variant.
- The conversion of the bidder's `IpAddr` into the bid arguments is not modelled. The address is passed through as given.
- The `global-config` feature is the flag `Env.globalConfig`. When it is on, `request_job` inserts the config account after the system program. `init_config` requires the flag, because it does not exist without the feature.
- Sdk.AppendData: the `debug_assert` that panics on a seed longer than 32 bytes in debug builds is not modelled. The model has the release behaviour, which truncates.
- The program id, the system and vote program ids and the seed prefixes are constants of other crates. They are fields of `Env`, not fixed values. `src/lib.rs` only declares the module and the program id and has no logic.
- Network submission, signing and on-chain execution are not part of this code and are not modelled.
- Reuse of a bid secret is left as it is. The commitment takes neither the bidder nor the auction as input (`PriceCommitment` has no such parameter). So one secret used for two bids at the same price gives the same hash, and a bidder who reuses a secret makes their sealed prices comparable. The comment at src/sdk.rs:181-182 says the bidder's key is the seed of the price hash, but the code hashes the caller's `price_hash_seed`. A caller who follows the comment and passes their public key as the secret gets a commitment that hides nothing: anyone can recover the price by hashing the public key with candidate prices.
