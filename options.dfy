/** The usual optional value: a JSON field or query parameter that may be absent. */
module Options {

  datatype Option<+T> = None | Some(value: T)
}
