/**
 * The staking program's utilities: fixed-point reward bookkeeping over u64 and
 * u128, and the identity checks applied to the accounts an instruction passes.
 */
module Utils {
  import opened Wrappers
  import opened Integers
  import opened Solana
  import opened StakingErrors

  /** The pool configuration the validators read: who owns it and which mint it stakes. */
  datatype StakePool = StakePool(owner: Pubkey, mint: Pubkey)

  /**
   * What a validator reports.  The three mismatch kinds are raised by the
   * utilities but are not among the variants the error enum declares, so they
   * carry no custom code here; `Propagated` is a host error passed on by `?`.
   */
  datatype ValidationError =
    | StakePoolMissmatch
    | PoolTokenAccountMissmatch
    | UserInfoMissmatch
    | Propagated(error: ProgramError)

  /** The largest rank whose power of ten fits in a u64 (10^19 < 2^64 <= 10^20). */
  const MAX_PRECISION_RANK: nat := 19

  /** 10^rank, the fixed-point scale of the accrued-per-share counter. */
  ghost function PrecisionFactor(rank: nat): (f: nat)
    ensures f >= 1
  {
    Pow(10, rank)
  }

  /** A holder's accrued reward at unit precision: floor(amount * acc / 10^rank). */
  ghost function Share(amount: nat, acc: nat, rank: nat): nat
  {
    amount * acc / PrecisionFactor(rank)
  }

  lemma PowTenValues()
    ensures Pow(10, 19) == 10_000_000_000_000_000_000
    ensures Pow(10, 20) == 100_000_000_000_000_000_000
  {
    assert Pow(10, 4) == 10_000;
    assert Pow(10, 8) == 100_000_000;
    assert Pow(10, 12) == 1_000_000_000_000;
    assert Pow(10, 16) == 10_000_000_000_000_000;
  }

  lemma PrecisionFactorFits(rank: nat)
    ensures PrecisionFactor(rank) <= U64_MAX <==> rank <= MAX_PRECISION_RANK
  {
    PowTenValues();
    if rank <= MAX_PRECISION_RANK {
      PowMonotone(10, rank, 19);
    } else {
      PowMonotone(10, 20, rank);
    }
  }

  /** `get_precision_factor`: 10^rank when it fits in a u64, otherwise `Overflow`. */
  function GetPrecisionFactor(rank: u8): (r: Result<u64, StakingError>)
    ensures r.Ok? <==> rank <= MAX_PRECISION_RANK
    ensures r.Ok? ==> r.value == PrecisionFactor(rank)
    ensures r.Err? ==> r.error == Overflow
  {
    PrecisionFactorFits(rank);
    OkOr(CheckedPowU64(10, rank as u32), Overflow)
  }

  /**
   * `get_pending`: the reward accrued since the holder's checkpoint,
   * floor(amount * acc / 10^rank) - rewardDebt, computed in u128 and narrowed
   * to u64 with a check.
   */
  function GetPending(amount: u64, acc: u128, rank: u8, rewardDebt: u64): (r: Result<u64, StakingError>)
    ensures r.Ok? <==>
      && rank <= MAX_PRECISION_RANK
      && amount * acc <= U128_MAX
      && rewardDebt <= Share(amount, acc, rank)
      && Share(amount, acc, rank) - rewardDebt <= U64_MAX
    ensures r.Ok? ==> r.value == Share(amount, acc, rank) - rewardDebt
    ensures r.Err? ==> r.error == Overflow
  {
    var precisionFactor :- GetPrecisionFactor(rank);
    var product :- OkOr(CheckedMulU128(amount as u128, acc), Overflow);
    // the divisor is at least 1, so the division's failure arm is never taken
    match CheckedDivU128(product, precisionFactor as u128)
    case None => Err(Overflow)
    case Some(quotient) =>
      var pending :- OkOr(CheckedSubU128(quotient, rewardDebt as u128), Overflow);
      match TryFromU128(pending)
      case Ok(p) => Ok(p)
      case Err(e) => Err(FromTryFromIntError(e))
  }

  /**
   * A worked case at precision rank 12: a stake of 100 with 5 units of reward
   * per staked unit accrued (5 * 10^12 at that scale) and no prior debt.
   */
  lemma PendingExample()
    ensures GetPending(100, 5_000_000_000_000, 12, 0) == Ok(500)
  {
    assert PrecisionFactor(12) == 1_000_000_000_000 by {
      assert Pow(10, 6) == 1_000_000;
    }
  }

  /**
   * `get_reward_debt`: the holder's new checkpoint, floor(amount * acc / 10^rank),
   * computed in u128 and narrowed with an unchecked `as u64`.
   */
  function GetRewardDebt(amount: u64, acc: u128, rank: u8): (r: Result<u64, StakingError>)
    ensures r.Ok? <==> rank <= MAX_PRECISION_RANK && amount * acc <= U128_MAX
    ensures r.Ok? ==> r.value == Share(amount, acc, rank) % U64_MODULUS
    ensures r.Err? ==> r.error == Overflow
  {
    var precisionFactor :- GetPrecisionFactor(rank);
    var product :- OkOr(CheckedMulU128(amount as u128, acc), Overflow);
    match CheckedDivU128(product, precisionFactor as u128)
    case None => Err(Overflow)
    case Some(quotient) => Ok(TruncateToU64(quotient))
  }

  /**
   * Pending reward measured against a freshly computed reward debt is zero as
   * long as the share fits in a u64; when it does not, the truncated debt
   * makes the pending computation fail instead.
   */
  lemma PendingAfterFreshDebt(amount: u64, acc: u128, rank: u8, rewardDebt: u64)
    requires GetRewardDebt(amount, acc, rank) == Ok(rewardDebt)
    ensures Share(amount, acc, rank) <= U64_MAX ==> GetPending(amount, acc, rank, rewardDebt) == Ok(0)
    ensures Share(amount, acc, rank) > U64_MAX ==> GetPending(amount, acc, rank, rewardDebt) == Err(Overflow)
  {
    var s := Share(amount, acc, rank);
    if s > U64_MAX {
      // rewardDebt is s mod 2^64, so s - rewardDebt is a positive multiple of 2^64
      assert s - rewardDebt == (s / U64_MODULUS) * U64_MODULUS;
      assert s / U64_MODULUS >= 1;
    }
  }

  /** An example of the truncation: a share of 2^128 - 2^64 is recorded as a debt of 0. */
  lemma RewardDebtTruncationExample()
    ensures GetRewardDebt(U64_MAX, U64_MODULUS, 0) == Ok(0)
    ensures GetPending(U64_MAX, U64_MODULUS, 0, 0) == Err(Overflow)
  {
    assert PrecisionFactor(0) == 1;
    assert Share(U64_MAX, U64_MODULUS, 0) == U64_MAX * U64_MODULUS;
  }

  /** The reward debt with a checked narrowing, as `get_pending` narrows: `Overflow` when the share exceeds a u64. */
  function CheckedRewardDebt(amount: u64, acc: u128, rank: u8): (r: Result<u64, StakingError>)
    ensures r.Ok? <==>
      rank <= MAX_PRECISION_RANK && amount * acc <= U128_MAX && Share(amount, acc, rank) <= U64_MAX
    ensures r.Ok? ==> r.value == Share(amount, acc, rank)
    ensures r.Err? ==> r.error == Overflow
  {
    var precisionFactor :- GetPrecisionFactor(rank);
    var product :- OkOr(CheckedMulU128(amount as u128, acc), Overflow);
    match CheckedDivU128(product, precisionFactor as u128)
    case None => Err(Overflow)
    case Some(quotient) =>
      match TryFromU128(quotient)
      case Ok(d) => Ok(d)
      case Err(e) => Err(FromTryFromIntError(e))
  }

  /** With the checked debt, pending against a fresh debt is always zero, and the checked debt agrees with `get_reward_debt` whenever it succeeds. */
  lemma PendingAfterCheckedDebt(amount: u64, acc: u128, rank: u8, rewardDebt: u64)
    requires CheckedRewardDebt(amount, acc, rank) == Ok(rewardDebt)
    ensures GetPending(amount, acc, rank, rewardDebt) == Ok(0)
    ensures GetRewardDebt(amount, acc, rank) == Ok(rewardDebt)
  {
    var s := Share(amount, acc, rank);
    assert rewardDebt == s <= U64_MAX;
    var pending := GetPending(amount, acc, rank, rewardDebt);
    assert pending.Ok? && pending.value == 0;
    var debt := GetRewardDebt(amount, acc, rank);
    assert debt.Ok? && debt.value == s % U64_MODULUS == s;
  }

  /** `validate_stake_pool`: the pool must be owned by `ownerKey` and stake `mintKey`. */
  function ValidateStakePool(pool: StakePool, ownerKey: Pubkey, mintKey: Pubkey): (r: Result<(), ValidationError>)
    ensures r.Ok? <==> pool.owner == ownerKey && pool.mint == mintKey
    ensures r.Err? ==> r.error == StakePoolMissmatch
  {
    if pool.owner != ownerKey || pool.mint != mintKey then
      Err(StakePoolMissmatch)
    else
      Ok(())
  }

  /** The seeds of the token-account authority: the fixed seed string, then the bump byte. */
  function AuthoritySeeds(rt: Runtime): seq<seq<bv8>>
  {
    [rt.authoritySeed, [rt.authorityBump]]
  }

  /**
   * `validate_pool_token_account`: the account must decode as a token account
   * whose owner is the program's token-account authority.  Decoding runs
   * first, then the authority's derivation; an error of either is passed on.
   */
  function ValidatePoolTokenAccount(rt: Runtime, poolTokenAccount: AccountInfo): (r: Result<(), ValidationError>)
    ensures r.Ok? <==>
      && rt.unpackTokenAccount(poolTokenAccount.data).Ok?
      && rt.createProgramAddress(AuthoritySeeds(rt), rt.programId).Ok?
      && rt.unpackTokenAccount(poolTokenAccount.data).value.owner
         == rt.createProgramAddress(AuthoritySeeds(rt), rt.programId).value
    ensures rt.unpackTokenAccount(poolTokenAccount.data).Err? ==>
      r == Err(Propagated(rt.unpackTokenAccount(poolTokenAccount.data).error))
    ensures (rt.unpackTokenAccount(poolTokenAccount.data).Ok?
             && rt.createProgramAddress(AuthoritySeeds(rt), rt.programId).Err?) ==>
      r == Err(Propagated(rt.createProgramAddress(AuthoritySeeds(rt), rt.programId).error))
    ensures (rt.unpackTokenAccount(poolTokenAccount.data).Ok?
             && rt.createProgramAddress(AuthoritySeeds(rt), rt.programId).Ok?
             && r.Err?) ==>
      r.error == PoolTokenAccountMissmatch
  {
    match rt.unpackTokenAccount(poolTokenAccount.data)
    case Err(e) => Err(Propagated(e))
    case Ok(tokenAccount) =>
      match rt.createProgramAddress(AuthoritySeeds(rt), rt.programId)
      case Err(e) => Err(Propagated(e))
      case Ok(authority) =>
        if tokenAccount.owner != authority then
          Err(PoolTokenAccountMissmatch)
        else
          Ok(())
  }

  /** The address of the user-state record of a token account in a pool, derived from both keys. */
  function UserStateAddress(rt: Runtime, stakePoolKey: Pubkey, tokenAccountKey: Pubkey): Pubkey
  {
    rt.findProgramAddress([stakePoolKey.bytes, tokenAccountKey.bytes], rt.programId).0
  }

  /** `validate_user_state`: the user-state account must sit at the address derived from the pool and token account. */
  function ValidateUserState(rt: Runtime, userState: AccountInfo, stakePool: AccountInfo, tokenAccount: AccountInfo): (r: Result<(), ValidationError>)
    ensures r.Ok? <==> userState.key == UserStateAddress(rt, stakePool.key, tokenAccount.key)
    ensures r.Err? ==> r.error == UserInfoMissmatch
  {
    if UserStateAddress(rt, stakePool.key, tokenAccount.key) != userState.key then
      Err(UserInfoMissmatch)
    else
      Ok(())
  }

  /** A pool and token account admit at most one user-state account: a forged key is refused. */
  lemma UserStateIsUnique(rt: Runtime, u1: AccountInfo, u2: AccountInfo, stakePool: AccountInfo, tokenAccount: AccountInfo)
    requires ValidateUserState(rt, u1, stakePool, tokenAccount).Ok?
    requires ValidateUserState(rt, u2, stakePool, tokenAccount).Ok?
    ensures u1.key == u2.key
  {
  }
}
