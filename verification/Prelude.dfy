/** Machine integers, keys, errors and the result type shared by every module. */
module Prelude {

  const U8_MAX: nat := 0xFF
  const U64_MAX: nat := 0xFFFF_FFFF_FFFF_FFFF
  const KEY_LIMIT: nat :=
    0x1_0000_0000_0000_0000_0000_0000_0000_0000_0000_0000_0000_0000_0000_0000_0000_0000

  type u8 = n: nat | n <= U8_MAX
  type u16 = n: nat | n <= 0xFFFF
  type u64 = n: nat | n <= U64_MAX

  /** A 32-byte public key, read as the little-endian number its bytes spell. */
  type Pubkey = n: nat | n < KEY_LIMIT

  /** `Pubkey::default()` and the id of the system program are both all zeroes. */
  const SYSTEM_PROGRAM: Pubkey := 0
  const INCINERATOR: Pubkey := 0xe13800e1a69cf7cccd2e4dd4db00ffbf11c9bd796011348d72903300
  const TOKEN_PROGRAM: Pubkey := 0xfc8ba1d828f9bdfe270db9834dfc1ab6dacd6ce4bc5d4218de8f75eee1f6dd06
  const LEGACY_TOKEN_PROGRAM: Pubkey := 0xa900ff7e85f58c3a91375b5fed85b41cac79ebce46e1cbd993a165d7e1f6dd06
  const NATIVE_MINT: Pubkey := 0x5e5b3e5cd849dfc919fa90ad4a26bbc68a1ee976a4047caab8e65fde9ffc0d83

  const MAX_SIGNERS: nat := 11

  datatype Option<+T> = None | Some(value: T) {
    function UnwrapOr(default: T): T {
      if Some? then value else default
    }
  }

  /** The token program's own errors, then the generic program errors it returns. */
  datatype Error =
    | NotRentExempt
    | InsufficientFunds
    | InvalidMint
    | MintMismatch
    | OwnerMismatch
    | FixedSupply
    | AlreadyInUse
    | InvalidNumberOfProvidedSigners
    | InvalidNumberOfRequiredSigners
    | NativeNotSupported
    | NonNativeHasBalance
    | InvalidInstruction
    | InvalidState
    | Overflow
    | AuthorityTypeNotSupported
    | MintCannotFreeze
    | AccountFrozen
    | MintDecimalsMismatch
    | NonNativeNotSupported
    | ExtensionTypeMismatch
    | ExtensionBaseMismatch
    | ExtensionNotFound
    | ImmutableOwner
    | AccountHasWithheldTransferFees
    | NoMemo
    | NonTransferable
    | NonTransferableNeedsImmutableOwnership
    | MintRequiredForTransfer
    | FeeMismatch
    | MintHasSupply
    | NoAuthorityExists
    | TransferFeeExceedsMaximum
    | ConfidentialTransferAccountHasBalance
    | ConfidentialTransferFeeAccountHasWithheldFee
    | NonConfidentialTransfersDisabled
    | CpiGuardTransferBlocked
    | CpiGuardBurnBlocked
    | CpiGuardApproveBlocked
    | CpiGuardSetAuthorityBlocked
    | CpiGuardOwnerChangeBlocked
    | CpiGuardCloseAccountBlocked
    | CpiGuardSettingsLocked
    | InvalidExtensionCombination
    | IllegalMintBurnConversion
    | MintPaused
    | InvalidArgument
    | InvalidInstructionData
    | InvalidAccountData
    | UninitializedAccount
    | MissingRequiredSignature
    | NotEnoughAccountKeys
    | IncorrectProgramId
    | AccountBorrowFailed
    | HookFailed
    | Panic
    | RuntimeRefused

  datatype Result<+T> = Ok(value: T) | Err(error: Error) {
    predicate IsFailure() {
      Err?
    }

    function PropagateFailure<U>(): Result<U>
      requires Err?
    {
      Err(error)
    }

    function Extract(): T
      requires Ok?
    {
      value
    }
  }

  datatype Outcome = Pass | Fail(error: Error) {
    predicate IsFailure() {
      Fail?
    }

    function PropagateFailure<U>(): Result<U>
      requires Fail?
    {
      Err(error)
    }
  }

  function Need(condition: bool, error: Error): Outcome {
    if condition then Pass else Fail(error)
  }

  /** The seventeen authorities `SetAuthority` can name, in the order of their codes. */
  datatype AuthorityType =
    | MintTokens
    | FreezeAccount
    | AccountOwner
    | CloseAccount
    | TransferFeeConfig
    | WithheldWithdraw
    | CloseMint
    | InterestRate
    | PermanentDelegate
    | ConfidentialTransferMint
    | TransferHookProgramId
    | ConfidentialTransferFeeConfig
    | MetadataPointer
    | GroupPointer
    | GroupMemberPointer
    | ScaledUiAmount
    | Pause
}
