/**
 * Fixed-width values, public keys, account metas and instructions: the
 * vocabulary every instruction builder of the auction client works in.
 */
module Primitives {

  newtype byte = x: int | 0 <= x < 0x100
  newtype u16 = x: int | 0 <= x < 0x1_0000
  newtype u64 = x: int | 0 <= x < 0x1_0000_0000_0000_0000
  type NonZeroU64 = x: u64 | x != 0 witness 1

  /** Longest seed a program address may be derived from. */
  const MAX_SEED_LEN: nat := 32

  type Bytes16 = b: seq<byte> | |b| == 16 witness seq(16, _ => 0)
  type Bytes32 = b: seq<byte> | |b| == 32 witness seq(32, _ => 0)

  /** A public key is its 32 bytes; `to_bytes` and `as_ref` are the identity. */
  type Pubkey = Bytes32
  type Hash = Bytes32

  datatype Option<T> = None | Some(value: T) {
    /** `unwrap_or_default` / `unwrap_or`: the value if present, else the default. */
    function UnwrapOr(default: T): T {
      match this
      case Some(v) => v
      case None => default
    }
  }

  function Zeros(n: nat): (z: seq<byte>)
    ensures |z| == n
    ensures forall i | 0 <= i < n :: z[i] == 0
  {
    seq(n, _ => 0)
  }

  /** `Pubkey::default()`: the all-zero key, the sentinel for an absent account. */
  const DEFAULT_PUBKEY: Pubkey := Zeros(32)

  /** `[u8; 16]::default()`. */
  const DEFAULT_IV: Bytes16 := Zeros(16)

  datatype AccountMeta = AccountMeta(pubkey: Pubkey, isSigner: bool, isWritable: bool)

  /** `AccountMeta::new`: a writable account. */
  function Writable(pubkey: Pubkey, isSigner: bool): AccountMeta {
    AccountMeta(pubkey, isSigner, true)
  }

  /** `AccountMeta::new_readonly`: a read-only account. */
  function Readonly(pubkey: Pubkey, isSigner: bool): AccountMeta {
    AccountMeta(pubkey, isSigner, false)
  }

  datatype Instruction = Instruction(programId: Pubkey, accounts: seq<AccountMeta>, data: seq<byte>)

  /**
   * The account schema of an instruction: `accounts` lists exactly `keys`, in
   * that order, the accounts at the positions in `signers` (and only those)
   * must sign, and the accounts at the positions in `readonly` (and only those)
   * are read-only.
   */
  predicate HasLayout(accounts: seq<AccountMeta>, keys: seq<Pubkey>, signers: set<nat>, readonly: set<nat>) {
    |accounts| == |keys| &&
    forall i | 0 <= i < |accounts| ::
      accounts[i].pubkey == keys[i] &&
      (accounts[i].isSigner <==> i in signers) &&
      (accounts[i].isWritable <==> i !in readonly)
  }
}
