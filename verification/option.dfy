/** An optional value: a document that did not parse, a message that was not
    posted. */
module Options {
  datatype Option<T> = None | Some(value: T)
}
