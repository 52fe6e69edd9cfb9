/** Machine integers, addresses, errors and results shared by the whole model. */
module Types {

  const I64_MAX: int := 0x7FFF_FFFF_FFFF_FFFF
  const I64_MIN: int := -0x8000_0000_0000_0000
  const U64_MAX: int := 0xFFFF_FFFF_FFFF_FFFF

  type U8 = x: int | 0 <= x <= 255
  type U64 = x: int | 0 <= x <= 0xFFFF_FFFF_FFFF_FFFF
  type I64 = x: int | -0x8000_0000_0000_0000 <= x <= 0x7FFF_FFFF_FFFF_FFFF
  type Bytes = seq<U8>

  /** Account addresses: ordinary keys, and queue addresses derived injectively from
      (authority, name). */
  datatype Pubkey = Wallet(id: nat) | QueuePda(authority: Pubkey, name: Bytes)

  /** The program's own error codes, then the framework's account-validation errors. */
  datatype Error =
    | NameTooLong | InvalidRetries | InvalidPriority | PayloadTooLarge | ResultTooLarge
    | JobNotPending | JobNotProcessing | JobNotReady | Unauthorized | CannotCancel
    | QueuePaused | QueueFull | Overflow | IndexFull | JobNotInIndex | IndexNotFull
    | HeadPageNotEmpty | NoSuccessorPage | QueueMismatch
    | AccountNotInitialized | AccountInUse | ConstraintSeeds | ConstraintHasOne

  datatype Option<+T> = None | Some(value: T)

  datatype Result<+T> = Ok(value: T) | Err(error: Error) {
    predicate IsFailure() {
      Err?
    }

    function PropagateFailure<U>(): Result<U>
      requires Err?
    {
      Err(error)
    }

    function Extract(): T
      requires Ok?
    {
      value
    }
  }

  /** The result of an instruction that returns no value. */
  datatype Outcome = Pass | Fail(error: Error)
}
