/** Shared vocabulary: options, error codes, currencies and integer money. */
module Common {

  datatype Option<+T> = None | Some(value: T)

  datatype ErrorCode =
    | ValidationFailed
    | InsufficientFunds
    | AccountNotFound
    | DuplicateRequest
    | FraudRejected
    | InvalidStateTransition
    | GatewayError
    | InternalError

  /** Outcome of an operation that returns nothing on success. */
  datatype Status = Okay | Fail(code: ErrorCode)

  datatype Result<+T> = Ok(value: T) | Err(code: ErrorCode)

  datatype Currency = INR | USD | EUR

  const INT64_MAX: int := 0x7FFF_FFFF_FFFF_FFFF
  const INT64_MIN: int := -0x8000_0000_0000_0000
  const UINT64_COUNT: int := 0x1_0000_0000_0000_0000

  predicate InInt64(n: int) {
    INT64_MIN <= n <= INT64_MAX
  }

  type int64 = n: int | -0x8000_0000_0000_0000 <= n <= 0x7FFF_FFFF_FFFF_FFFF

  type int32 = n: int | -0x8000_0000 <= n <= 0x7FFF_FFFF

  /** An amount in minor units. Signed overflow is undefined in the source, so every
      operation that computes a new amount has to show that it fits. */
  datatype Money = Money(minor: int64, ccy: Currency)

  /** No element occurs twice. */
  ghost predicate Distinct<T>(s: seq<T>) {
    forall i, j :: 0 <= i < j < |s| ==> s[i] != s[j]
  }
}
