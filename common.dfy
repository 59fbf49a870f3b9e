/** Small shared vocabulary for the client and the backend models. */
module Common {

  /** An optional value: `None` stands for JavaScript's `undefined` and `null`. */
  datatype Option<+T> = None | Some(value: T)

  /** JavaScript truthiness of an optional string: present and not the empty string. */
  predicate Truthy(s: Option<string>)
  {
    s.Some? && s.value != ""
  }
}
