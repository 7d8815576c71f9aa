/**
 * The staking program's error enum, its numeric custom codes, and its two
 * conversions: from a failed integer narrowing, and into a host program error.
 */
module StakingErrors {
  import opened Integers
  import opened Solana

  datatype StakingError =
    | InvalidInstruction
    | UnableToAddPool
    | StakedTokenSupplyOverflow
    | RewardOverflow
    | RewardMulPrecisionOverflow
    | RewardMulPrecisionDivSupplyOverflow
    | AccuredTokenPerShareOverflow
    | Overflow

  /** The variants in the order the enum declares them. */
  const DeclarationOrder: seq<StakingError> := [
    InvalidInstruction,
    UnableToAddPool,
    StakedTokenSupplyOverflow,
    RewardOverflow,
    RewardMulPrecisionOverflow,
    RewardMulPrecisionDivSupplyOverflow,
    AccuredTokenPerShareOverflow,
    Overflow
  ]

  /** `e as u32`: a fieldless enum's discriminant is its declaration index. */
  function Code(e: StakingError): (c: u32)
    ensures c < |DeclarationOrder| && DeclarationOrder[c] == e
  {
    match e
    case InvalidInstruction => 0
    case UnableToAddPool => 1
    case StakedTokenSupplyOverflow => 2
    case RewardOverflow => 3
    case RewardMulPrecisionOverflow => 4
    case RewardMulPrecisionDivSupplyOverflow => 5
    case AccuredTokenPerShareOverflow => 6
    case Overflow => 7
  }

  /** Every index of the declaration order is the code of the variant declared there. */
  lemma CodesFollowDeclarationOrder(i: nat)
    requires i < |DeclarationOrder|
    ensures Code(DeclarationOrder[i]) == i
  {
  }

  /** Distinct errors have distinct codes, and every code is at most 7. */
  lemma CodeIsInjective(a: StakingError, b: StakingError)
    ensures Code(a) <= 7
    ensures Code(a) == Code(b) ==> a == b
  {
  }

  /** The two codes the enum's comments document: 0x2 and 0x7. */
  lemma DocumentedCodes()
    ensures Code(StakedTokenSupplyOverflow) == 2
    ensures Code(Overflow) == 7
  {
  }

  /** `From<TryFromIntError>`: every failed narrowing is reported as `Overflow`. */
  function FromTryFromIntError(e: TryFromIntError): (r: StakingError)
    ensures r == Overflow && Code(r) == 7
  {
    Overflow
  }

  /** `From<StakingError> for ProgramError`: a custom error whose code decodes back to `e`. */
  function IntoProgramError(e: StakingError): (p: ProgramError)
    ensures p.Custom? && p.code < |DeclarationOrder| && DeclarationOrder[p.code] == e
  {
    Custom(Code(e))
  }
}
