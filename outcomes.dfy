/** Outcomes of wrapper and environment calls: a value, or the exception the Python code raises. */
module Outcomes {

  /** The exceptions the modelled code can raise. */
  datatype Error =
    | ScriptError           // the page script threw (a field read on `undefined`)
    | ValueError            // `int(...)` given something that is not a decimal numeral
    | KeyError              // a dictionary lookup of a missing key
    | UnsupportedInputMode  // the environment was built with an unknown input mode
    | UnsupportedScoreMode  // `set_score_mode` was given an unknown score mode
    | AssertionError        // `render` was asked for a mode other than 'rgb_array'

  datatype Result<+T> = Ok(value: T) | Err(error: Error)

  datatype Option<+T> = None | Some(value: T)
}
