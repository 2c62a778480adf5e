/**
 * Small value types shared by the whole model: optional values, results
 * carrying one of the Python exceptions the core raises, and opaque floats.
 */
module Common {

  datatype Option<+T> = None | Some(value: T) {
    predicate IsFailure() { None? }

    function PropagateFailure<U>(): Option<U>
      requires None?
    {
      None
    }

    function Extract(): T
      requires Some?
    {
      value
    }
  }

  /** The exceptions raised by the modelled code, with their messages. */
  datatype Error =
    | RuntimeError(message: string)
    | RuntimeWarning(message: string)

  datatype Result<+T> = Success(value: T) | Failure(error: Error)

  /** Completion of an operation that returns nothing but may raise. */
  datatype Outcome = Pass | Fail(error: Error)

  /**
   * A Python float, kept as its IEEE-754 bit pattern. The modelled code only
   * stores and copies such values, it never computes with them.
   */
  datatype Float = Float(bits: bv64)

  const One: Float := Float(0x3FF0_0000_0000_0000)          // 1.0
  const OneThousandth: Float := Float(0x3F50_624D_D2F1_A9FC) // 0.001
}
