/** Small things every part uses: a value that may be absent, and blank texts. */
module Options {
  datatype Option<+T> = None | Some(value: T)

  /** Nothing but white space. */
  predicate Blank(s: string) {
    forall c | c in s :: c == ' ' || '\t' <= c <= '\r' || '\U{1C}' <= c <= '\U{1F}'
  }
}
