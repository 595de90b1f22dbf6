/** The two result shapes the modelled code needs: an absent value and a thrown error. */
module Options {

  /** `undefined`, `null` or a missing map entry against a present value. */
  datatype Option<+T> = None | Some(value: T)

  /** A call that returns against a call that throws. */
  datatype Result<+T, +E> = Ok(value: T) | Err(error: E)
}
