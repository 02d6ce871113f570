/** Option and Result, and the exceptions the generator script can raise. */
module Wrappers {

  datatype Option<+T> = None | Some(value: T)

  /** The Python exception kinds the keymap generator can end with. */
  datatype Error =
    | KeyError          // a dict lookup of a missing key
    | IndexError        // a list index out of range
    | TypeError         // len() of an int keycode
    | AttributeError    // an attribute looked up on None or on a str
    | ValueError        // chr() of an out-of-range int, or a character with no name
    | Raised(msg: string)  // an explicit `raise Exception(...)`

  datatype Result<+T> = Ok(value: T) | Err(error: Error)

  /** Success or failure of a statement that returns nothing. */
  datatype Outcome = Pass | Fail(error: Error)
}
