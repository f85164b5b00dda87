/**
 * Program-address derivation. `Pubkey::find_program_address` (a SHA-256 based
 * search for an off-curve point) is not modelled inside: it is the field
 * `find` of the environment, an arbitrary but fixed function from a seed list
 * and a program id to an address and its bump. Being a function, it gives the
 * same address and bump for the same seeds every time.
 */
module Derivation {
  import opened Primitives
  import opened Encoding
  import opened Args

  datatype Derived = Derived(key: Pubkey, bump: byte)

  /** The seed prefixes the auction program's interface crate defines. */
  datatype SeedPrefixes = SeedPrefixes(
    auction: seq<byte>,
    bid: seq<byte>,
    requestBundle: seq<byte>,
    bundleRegistry: seq<byte>,
    jobRequest: seq<byte>,
    config: seq<byte>)

  /**
   * Everything the builders use that lives outside the builders: the program
   * ids, the seed prefixes, whether the `global-config` feature is compiled in,
   * address derivation, SHA-256, and the argument encoders.
   */
  datatype Env = Env(
    programId: Pubkey,
    systemProgram: Pubkey,
    voteProgram: Pubkey,
    globalConfig: bool,
    seeds: SeedPrefixes,
    find: (seq<seq<byte>>, Pubkey) -> Derived,
    sha256: seq<byte> -> Hash,
    codec: Codec)

  /** `Pubkey::find_program_address(seeds, &program_id)`. */
  function FindProgramAddress(env: Env, seeds: seq<seq<byte>>): Derived {
    env.find(seeds, env.programId)
  }

  // The addresses of the protocol's records, each with the seeds it is
  // derived from. The builders derive these inline; their contracts are
  // stated against the definitions below.

  /** The auction of a bundle. */
  function AuctionOf(env: Env, bundle: Pubkey): Derived {
    env.find([env.seeds.auction, bundle], env.programId)
  }

  /** The next bundle of the chain after `bundle`. */
  function NextBundle(env: Env, bundle: Pubkey): Derived {
    env.find([env.seeds.requestBundle, bundle], env.programId)
  }

  /** The bid `authority` places in `auction`. */
  function BidOf(env: Env, auction: Pubkey, authority: Pubkey): Derived {
    env.find([env.seeds.bid, auction, authority], env.programId)
  }

  /** The bundle registry of a (context length, expiry duration) tier pair. */
  function RegistryOf(env: Env, contextLength: RequestTier, expiryDuration: RequestTier): Derived {
    env.find([env.seeds.bundleRegistry, TierBytes(contextLength), TierBytes(expiryDuration)], env.programId)
  }

  /** The first bundle of a tier pair, created with its registry. */
  function RootBundleOf(env: Env, contextLength: RequestTier, expiryDuration: RequestTier): Derived {
    env.find([env.seeds.requestBundle, TierBytes(contextLength), TierBytes(expiryDuration)], env.programId)
  }

  /** A job request, keyed by its tier pair, its requester and the requester's seed. */
  function JobRequestOf(env: Env, contextLength: RequestTier, expiryDuration: RequestTier,
                        authority: Pubkey, seed: Bytes32): Derived
  {
    env.find([env.seeds.jobRequest, TierBytes(contextLength), TierBytes(expiryDuration), authority, seed],
             env.programId)
  }

  /** The singleton global configuration. */
  function ConfigOf(env: Env): Derived {
    env.find([env.seeds.config], env.programId)
  }

  /**
   * Two tier pairs share a registry address when they have the same encoding,
   * that is, exactly when they are the same pair: the seeds differ otherwise.
   */
  lemma RegistrySeedsDistinguishTiers(env: Env, c1: RequestTier, e1: RequestTier, c2: RequestTier, e2: RequestTier)
    ensures ([env.seeds.bundleRegistry, TierBytes(c1), TierBytes(e1)] ==
             [env.seeds.bundleRegistry, TierBytes(c2), TierBytes(e2)]) <==> c1 == c2 && e1 == e2
  {
    var s1 := [env.seeds.bundleRegistry, TierBytes(c1), TierBytes(e1)];
    var s2 := [env.seeds.bundleRegistry, TierBytes(c2), TierBytes(e2)];
    if s1 == s2 {
      assert s1[1] == s2[1] && s1[2] == s2[2];
    }
    TierBytesInjective(c1, c2);
    TierBytesInjective(e1, e2);
  }
}
