/** Option and Result values shared by every module, and the exceptions the
    Python code raises, as one enumeration. */
module Types {

  datatype Option<+T> = None | Some(value: T)

  /** The Python exceptions that the modelled code can raise. */
  datatype Error =
    | MultipleResultsFound     // `one_or_none()` saw more than one row
    | IntegrityError           // a primary-key clash at flush/commit
    | KeyError(key: string)    // `del d[key]`, `d[key]` on a missing key
    | TypeError                // wrong keyword arguments to a constructor
    | ValueError               // an argument the code refuses
    | AssertionError           // a failed `assert`
    | UserProtected            // `UserProtectedError`

  datatype Result<+T> = Ok(value: T) | Err(error: Error)
}
