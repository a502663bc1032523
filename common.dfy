/** Small value types shared by the models of the route and of the pages. */
module Common {

  datatype Option<T> = None | Some(value: T)

  /** A step that either yields a value or fails with the message of the thrown error. */
  datatype Result<T> = Ok(value: T) | Err(message: string)

  /** JavaScript truthiness of an optional string: `undefined`, `null` and `""` are falsy. */
  predicate Truthy(s: Option<string>)
  {
    s.Some? && s.value != ""
  }
}
