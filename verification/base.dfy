/** Shared vocabulary: optional values, the answer of one external read, and
    the bound of an exactly representable JavaScript number. */
module Base {

  datatype Option<+T> = None | Some(value: T)

  /** The answer of one read from a ledger or from an external service:
      either the value it returned or the message of the error it raised. */
  datatype Answer<+T> = Ok(value: T) | Err(message: string)

  /** 2^53 - 1, the largest integer a JavaScript number holds exactly. */
  const MaxSafeInteger: nat := 0x1F_FFFF_FFFF_FFFF

  /** `BigNumber.toNumber()`: the value as a JavaScript number, or `None`
      where the library raises its overflow fault. */
  function ToNumber(v: nat): Option<nat>
  {
    if v <= MaxSafeInteger then Some(v) else None
  }

  function Min(a: int, b: int): int
  {
    if a <= b then a else b
  }
}
