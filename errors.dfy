/** The error values the three handlers can produce. */
module Errors {

  /** The variants of the program's error enum that the handlers raise. The
      remaining variants of that enum are never raised by this core. */
  datatype SubscriptionError =
    | IncorrectOwner
    | InvalidSubscriptionAccount
    | BalanceTooLow
    | DerivedKeyInvalid
    | TokenTransferFailed
    | IncorrectMint
    | DelegateShouldBeNone
    | CloseAuthorityShouldBeNone
    | MaxOwnersExceeded
    | OwnerAddressesToSharesMismatch
    | FundsTokenAccountOwnerMismatch
    | WithdrawerIsNotAnOwner
    | WithdrawalOverMaxAllowed

  /** What a failed call reports: one of the program's own codes, a failure
      propagated from the account allocator or from the record writer, or an
      abort (an `unwrap` of nothing, or checked arithmetic that overflows). */
  datatype ProgramError =
    | Custom(code: SubscriptionError)
    | AllocationFailed
    | BorshIoError
    | Panic

  datatype Result<T> = Ok(value: T) | Err(error: ProgramError)
}
