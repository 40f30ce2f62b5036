/** Optional values for the model. A JavaScript property that is `undefined`
    is `None`; a property holding a value `v` is `Some(v)`. */
module Optional {

  /** A file-system path, as the text JavaScript passes around. */
  type Path = string

  /** JavaScript truthiness of an optional string: defined and non-empty. */
  predicate Truthy(s: Option<string>) {
    s.Some? && s.value != ""
  }

  datatype Option<+T> = None | Some(value: T) {

    /** The held value, or `default` when the property is `undefined`. */
    function GetOr(default: T): T {
      match this
      case Some(v) => v
      case None => default
    }
  }
}
