/**
 * The program's custom error codes and their conversion to the host's
 * `ProgramError::Custom(code)`.
 */
module Errors {

  /** The error kinds, in declaration order. */
  datatype SwapError =
    | InvalidInstructionData
    | NotRentExempt
    | InvalidAccountOwner
    | UninitializedAccount
    | IncorrectProgramId
    | InvalidAccountData
    | TradeLoopVerificationFailed
    | MissingApprovals
    | StepAlreadyExecuted
    | UpgradeAuthorityMismatch
    | InvalidProgramVersion
    | InsufficientFunds
    | InvalidMetadataAccount
    | TradeTimeoutExceeded
    | TooManyParticipants
    | CancellationDenied

  /** The variants listed in the order they are declared: the reference for the numeric codes. */
  const DeclarationOrder: seq<SwapError> := [
    InvalidInstructionData, NotRentExempt, InvalidAccountOwner, UninitializedAccount,
    IncorrectProgramId, InvalidAccountData, TradeLoopVerificationFailed, MissingApprovals,
    StepAlreadyExecuted, UpgradeAuthorityMismatch, InvalidProgramVersion, InsufficientFunds,
    InvalidMetadataAccount, TradeTimeoutExceeded, TooManyParticipants, CancellationDenied
  ]

  /** The host's error value; only the custom-code variant is produced from a `SwapError`. */
  datatype ProgramError = Custom(code: nat)

  /** A validation step either passes or fails with one error kind. */
  datatype Check = Pass | Fail(error: SwapError)

  /** `e as u32`: the discriminant of the variant. */
  function Code(e: SwapError): (k: nat)
    ensures k < |DeclarationOrder| == 16
    ensures DeclarationOrder[k] == e
  {
    match e
    case InvalidInstructionData => 0
    case NotRentExempt => 1
    case InvalidAccountOwner => 2
    case UninitializedAccount => 3
    case IncorrectProgramId => 4
    case InvalidAccountData => 5
    case TradeLoopVerificationFailed => 6
    case MissingApprovals => 7
    case StepAlreadyExecuted => 8
    case UpgradeAuthorityMismatch => 9
    case InvalidProgramVersion => 10
    case InsufficientFunds => 11
    case InvalidMetadataAccount => 12
    case TradeTimeoutExceeded => 13
    case TooManyParticipants => 14
    case CancellationDenied => 15
  }

  /** `From<SwapError> for ProgramError`. */
  function IntoProgramError(e: SwapError): (p: ProgramError)
    ensures p.code < 16 && DeclarationOrder[p.code] == e
  {
    Custom(Code(e))
  }

  /** Distinct error kinds are reported with distinct codes, so the code identifies the kind. */
  lemma CodeInjective(a: SwapError, b: SwapError)
    ensures IntoProgramError(a) == IntoProgramError(b) <==> a == b
  {
  }

  /** The first and the last declared kinds. */
  lemma FirstAndLastCodes()
    ensures IntoProgramError(InvalidInstructionData) == Custom(0)
    ensures IntoProgramError(CancellationDenied) == Custom(15)
  {
  }

  /** Every variant has a code, and every code below 16 is used: the mapping is a bijection onto 0..15. */
  lemma {:induction false} CodesCoverRange(k: nat)
    requires k < 16
    ensures exists e :: Code(e) == k
  {
    var e := DeclarationOrder[k];
    assert Code(e) == k by {
      assert DeclarationOrder[Code(e)] == e;
      forall i, j | 0 <= i < j < 16 ensures DeclarationOrder[i] != DeclarationOrder[j] { }
    }
  }
}
