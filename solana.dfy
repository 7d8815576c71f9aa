/**
 * The ledger types the staking utilities consume: public keys, account views,
 * program errors, and, as a `Runtime` value of parameters, the program's own
 * constants, the host's address derivations and spl_token's account decoding.
 */
module Solana {
  import opened Wrappers
  import opened Integers

  /** A public key, compared only for equality; `bytes` is what `as_ref()` yields. */
  datatype Pubkey = Pubkey(bytes: seq<bv8>)

  /** The parts of an `AccountInfo` the utilities read: its key and its data. */
  datatype AccountInfo = AccountInfo(key: Pubkey, data: seq<bv8>)

  /** The one field of an unpacked SPL token account that is inspected. */
  datatype TokenAccount = TokenAccount(owner: Pubkey)

  /**
   * The host's program error, restricted to the kinds this model can produce:
   * a program-defined custom code, the two failures of token-account decoding,
   * and the three converted failures of address derivation.
   */
  datatype ProgramError =
    | Custom(code: u32)
    | InvalidAccountData
    | UninitializedAccount
    | InvalidSeeds
    | MaxSeedLengthExceeded
    | IllegalOwner

  /**
   * What the utilities take as parameters:
   * - programId: the program's own id (the crate constant `id()`),
   * - authoritySeed, authorityBump: the crate's fixed seed and bump of the
   *   token-account authority (their values are not part of this model),
   * - createProgramAddress, findProgramAddress: the host's address derivations,
   *   uninterpreted, with their errors already converted to `ProgramError`,
   * - unpackTokenAccount: spl_token's `TokenAccount::unpack`, library code run
   *   inside the program, uninterpreted: it either yields the account or fails.
   */
  datatype Runtime = Runtime(
    programId: Pubkey,
    authoritySeed: seq<bv8>,
    authorityBump: bv8,
    createProgramAddress: (seq<seq<bv8>>, Pubkey) -> Result<Pubkey, ProgramError>,
    findProgramAddress: (seq<seq<bv8>>, Pubkey) -> (Pubkey, bv8),
    unpackTokenAccount: seq<bv8> -> Result<TokenAccount, ProgramError>)
}
