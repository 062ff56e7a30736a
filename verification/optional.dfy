/** The optional-value wrapper used for request fields that may be missing. */
module Optional {

  /** `None` stands for a JavaScript field that is `undefined` or `null`. */
  datatype Option<+T> = None | Some(value: T)
}
