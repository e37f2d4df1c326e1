/** Optional arguments and the Python exceptions the builders raise. */
module Results {

  /** A keyword argument that defaults to `None`. */
  datatype Option<+T> = None | Some(value: T)

  /** The exception a builder raises, with its message where the source gives one. */
  datatype PyError =
    | ValueError(msg: string)   // an explicit `raise ValueError(msg)`
    | AssertionError            // a failing `assert`
    | TypeError                 // `'...'.format(*None)`
    | IndexError                // too few positional arguments for `format`
    | KeyError(key: string)     // a template field with no binding

  /** Either the built command, or the exception raised while building it. */
  datatype Result<+T> = Success(value: T) | Failure(error: PyError)
}
