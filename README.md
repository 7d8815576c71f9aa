# Staking program utilities in Dafny

A model of the bookkeeping core of a Solana staking program: the fixed-point
reward arithmetic that turns a holder's stake and the pool's accrued-reward-per-share
counter into a pending reward and a new reward debt, the identity checks applied to
the stake-pool, pool-token and user-state accounts an instruction receives, and the
program's error enum with its numeric custom codes.

Files and modules:

- `wrappers.dfy` (`Wrappers`): `Option` and a failure-compatible `Result`, so `?` in the
  Rust code becomes `:-` in Dafny; `OkOr` is `Option::ok_or`.
- `integers.dfy` (`Integers`): `u8`, `u32`, `u64`, `u128` as bounded subsets of `int`, and the
  standard-library operations the utilities call: `checked_pow`, `checked_mul`, `checked_div`,
  `checked_sub`, `u64::try_from` and the truncating `as u64` cast, each with its overflow
  behaviour written out.
- `solana.dfy` (`Solana`): public keys (compared only for equality), the key and data of an
  account, the owner of an unpacked token account, the host's `ProgramError` (only the kinds
  this model can produce), and a `Runtime` record of parameters: the program's own id and the
  authority seed and bump (crate constants whose values are not part of this model), the host's
  two address derivations (uninterpreted), and spl_token's token-account decoding
  (uninterpreted).
- `error.rs` becomes `error.dfy` (`StakingErrors`): the eight declared variants, their codes
  0..7 in declaration order, and the two conversions.
- `utils.rs` becomes `utils.dfy` (`Utils`): the three arithmetic helpers and the three
  validators, plus the lemmas relating them.

Notes on the source:

- `utils.rs` reads a `StakePool` with `owner` and `mint` fields, while `state.rs` declares a
  `StakingPool` with a single `token` field. The model follows `utils.rs`:
  `Utils.StakePool(owner, mint)`.
- `utils.rs` raises `StakePoolMissmatch`, `PoolTokenAccountMissmatch` and `UserInfoMissmatch`,
  but the enum in `error.rs` does not declare them. The model keeps the enum to its eight
  declared variants with codes 0..7. The validators report through a separate
  `Utils.ValidationError`, which has no custom code.
- The checked division by the precision factor can never fail, because the factor is at
  least 1. The model still keeps its error arm.

## Model

| member | source | states |
|---|---|---|
| `StakingErrors.Code` | program/src/error.rs:8-26 | the custom code of an error is its index in declaration order; it is below 8 and indexing the declaration order with it gives back the error |
| `StakingErrors.CodesFollowDeclarationOrder` | program/src/error.rs:8-26 | the i-th declared variant has code i, for every i < 8 |
| `StakingErrors.CodeIsInjective` | program/src/error.rs:34-37 | every code is at most 7, and distinct errors have distinct codes |
| `StakingErrors.DocumentedCodes` | program/src/error.rs:14-25 | `StakedTokenSupplyOverflow` has code 2 and `Overflow` has code 7, as the enum's comments say |
| `StakingErrors.FromTryFromIntError` | program/src/error.rs:28-32 | every failed integer narrowing, whatever it carries, becomes `Overflow`, code 7 |
| `StakingErrors.IntoProgramError` | program/src/error.rs:34-38 | a staking error becomes a custom program error whose code decodes back to that same error |
| `Integers.PowMonotone` | program/src/utils.rs:116-117 | powers of a positive base do not decrease as the exponent grows |
| `Utils.PrecisionFactorFits` | program/src/utils.rs:113-121 | 10^rank fits in a u64 exactly when rank <= 19 |
| `Utils.GetPrecisionFactor` | program/src/utils.rs:113-121 | succeeds exactly when rank <= 19, then returns 10^rank; otherwise the error is `Overflow` |
| `Utils.GetPending` | program/src/utils.rs:75-95 | succeeds exactly when rank <= 19, amount * acc fits in u128, the debt is at most the floored share, and the difference fits in u64; the result is floor(amount * acc / 10^rank) - debt; every failure is `Overflow` |
| `Utils.PendingExample` | program/src/utils.rs:75-95 | 100 staked units at 5 * 10^12 accrued per share and rank 12, with no debt, have a pending reward of 500 |
| `Utils.GetRewardDebt` | program/src/utils.rs:97-111 | succeeds exactly when rank <= 19 and amount * acc fits in u128; the result is the floored share mod 2^64; every failure is `Overflow` |
| `Utils.PendingAfterFreshDebt` | program/src/utils.rs:75-111 | against a debt just computed by `get_reward_debt`, the pending reward is `Ok(0)` when the share fits in u64, and `Err(Overflow)` when it does not |
| `Utils.RewardDebtTruncationExample` | program/src/utils.rs:104-108 | a share of (2^64 - 1) * 2^64 is recorded as a debt of 0, and the pending reward against that debt fails |
| `Utils.CheckedRewardDebt` | program/src/utils.rs:97-111 | the reward debt with a checked narrowing: it succeeds exactly when the share also fits in u64, and then equals the share |
| `Utils.PendingAfterCheckedDebt` | program/src/utils.rs:75-111 | against a checked debt the pending reward is always `Ok(0)`, and `get_reward_debt` returns the same debt |
| `Utils.ValidateStakePool` | program/src/utils.rs:24-36 | accepts exactly when the pool's owner and mint equal the given keys; otherwise `StakePoolMissmatch` |
| `Utils.ValidatePoolTokenAccount` | program/src/utils.rs:38-55 | accepts exactly when the account decodes, the authority address derives, and the account's owner is that authority; a decoding or derivation error is passed on, decoding first; any other rejection is `PoolTokenAccountMissmatch` |
| `Utils.ValidateUserState` | program/src/utils.rs:57-73 | accepts exactly when the user-state key equals the address derived from the stake-pool and token-account keys; otherwise `UserInfoMissmatch` |
| `Utils.UserStateIsUnique` | program/src/utils.rs:57-73 | for a given pool and token account, two accepted user-state accounts have the same key |

## Left out

- Address derivations (`create_program_address`, `find_program_address`): the host hashes seeds. They are uninterpreted fields of `Solana.Runtime`.
- The program id (`crate::id`) and the authority seed and bump: crate constants whose values are not part of this model. They are parameters in `Solana.Runtime`.
- `TokenAccount::unpack`: spl_token library code that decodes the account data inside the program. It is an uninterpreted field of `Solana.Runtime` that returns either the account's owner or a program error.
- Error logging through `.print()`: it writes to the host log and does not affect results.
- `Utils.ValidationError`: it gives the three mismatch errors no numeric code, because `error.rs` does not declare them.
- `instruction.rs`: a wire format whose decoding is generated by a derive macro, with no hand-written logic.
- `processor.rs`: it does not compile, and its only handler has an empty body.
- `state.rs`: a one-field struct with no operations.
- `lib.rs`: module wiring only.
- Pool accrual, bonus windows, deposits, withdrawals and token transfers: none of this is in the modelled source files.

## Findings

| source | as written | input that shows it | evidently intended | confidence | as-written member | corrected member |
|---|---|---|---|---|---|---|
| program/src/utils.rs:104-108 | `get_reward_debt` narrows the floored share to u64 with `as u64`, which silently keeps the low 64 bits. `get_pending` narrows the same quantity with a checked `try_from`. | amount = 2^64 - 1, acc = 2^64, rank = 0: the debt is recorded as 0, and `get_pending` against it returns `Overflow` instead of 0 | a checked narrowing that reports `Overflow`, as `get_pending` does | medium, not executed | `Utils.GetRewardDebt`, `Utils.RewardDebtTruncationExample`, `Utils.PendingAfterFreshDebt` | `Utils.CheckedRewardDebt`, `Utils.PendingAfterCheckedDebt` |
