/** Failure-compatible wrappers shared by every module, and the truthiness of optional arguments. */
module Common {

  datatype Option<+T> = None | Some(value: T)

  datatype Result<+T, +E> = Ok(value: T) | Err(error: E)

  /** An optional command-line string counts as supplied when it is present and non-empty:
      the scripts test it with Python's `if args.x:`, for which `""` is false. */
  predicate Given(arg: Option<string>) {
    arg.Some? && arg.value != ""
  }
}
