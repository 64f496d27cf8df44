/** Result carriers and number conversions shared by every component. */
module Prelude {

  datatype Option<+T> = None | Some(value: T)

  datatype Result<+T, +E> = Ok(value: T) | Err(error: E)

  const INT32_LIMIT := 0x8000_0000

  /** The conversion of a wider integer to 32 bits keeps the low bits. */
  function ToInt32(n: int): int {
    (n + INT32_LIMIT) % (2 * INT32_LIMIT) - INT32_LIMIT
  }

  /** A set that is not empty has an element to take. */
  lemma HasElement(s: set<int>)
    requires s != {}
    ensures exists k :: k in s
  {
    if !exists k :: k in s {
    }
  }
}
