/** Vocabulary shared by every contract: machine integers, addresses, results and errors. */
module Prelude {

  const INT128_MAX: int := 0x7FFF_FFFF_FFFF_FFFF_FFFF_FFFF_FFFF_FFFF
  const INT128_MIN: int := -0x8000_0000_0000_0000_0000_0000_0000_0000

  type Int128 = x: int | INT128_MIN <= x <= INT128_MAX
  type UInt64 = x: int | 0 <= x < 0x1_0000_0000_0000_0000
  type UInt32 = x: int | 0 <= x < 0x1_0000_0000
  type Byte = x: int | 0 <= x < 0x100
  type Bytes = seq<Byte>

  /** An address is its strkey text, as bytes; a host string's length is a u32. */
  type Address = s: Bytes | |s| < 0x1_0000_0000 witness []

  /** Ed25519 keys and signatures are opaque byte strings. */
  type Key = Bytes
  type Signature = Bytes

  datatype Option<+T> = None | Some(value: T)

  datatype Error =
    // errors raised by the factory
    | Unauthorized
    | InvalidAmount
    | NotVerified
    | RwaNotFound
    | RwaNotOpen
    | RwaNotSettled
    | SharesExhausted
    | InsufficientPool
    | InvalidBps
    | InvalidDeadline
    | RwaAlreadyExists
    // shared by the factory and sep57
    | ArithmeticOverflow
    // sep57
    | InsufficientBalance
    | PermitExpired
    | PermitAlreadyUsed
    | BadSignature
    // identity verifier and compliance
    | IdentityNotFound
    | IdentityNotVerified
    | TokenNotBound
    | MaxBalanceExceeded
    // USDC
    | NegativeAmount
    | UsdcInsufficientBalance
    | UsdcOverflow
    | AllowanceExpired
    | AllowanceExceeded
    // host: an authorisation that cannot be given, an address already taken,
    // a contract that does not exist, a token from outside the system that does
    // not pay, and a trap on plain i128 arithmetic
    | NotAuthorised
    | AddressTaken
    | NoSuchContract
    | ForeignToken
    | Trap

  datatype Result<+T> = Ok(value: T) | Err(error: Error) {
    predicate IsFailure() { Err? }
    function PropagateFailure<U>(): Result<U>
      requires Err?
    { Err(error) }
    function Extract(): T
      requires Ok?
    { value }
  }

  /** The verdict of a check, or of a whole contract call. */
  datatype Outcome = Pass | Fail(error: Error) {
    predicate IsFailure() { Fail? }
    function PropagateFailure<U>(): Result<U>
      requires Fail?
    { Err(error) }
  }

  function Require(condition: bool, error: Error): Outcome {
    if condition then Pass else Fail(error)
  }

  predicate Fits(x: int) {
    INT128_MIN <= x <= INT128_MAX
  }

  /** Plain i128 arithmetic under `overflow-checks = true`: a result out of range traps. */
  function Plain(x: int): Result<Int128> {
    if Fits(x) then Ok(x) else Err(Trap)
  }

  function CheckedAdd(a: int, b: int): Result<Int128> {
    if Fits(a + b) then Ok(a + b) else Err(ArithmeticOverflow)
  }

  /** A stored i128 that was never written reads as zero. */
  function Get<K>(m: map<K, int>, k: K): int {
    if k in m then m[k] else 0
  }

  /**
   * A contract call commits what its specification says, or fails with the
   * specified error and leaves everything as it was.
   */
  ghost predicate Commits<S>(spec: Result<S>, before: S, after: S, outcome: Outcome) {
    match spec
    case Ok(s) => outcome == Pass && after == s
    case Err(e) => outcome == Fail(e) && after == before
  }
}
