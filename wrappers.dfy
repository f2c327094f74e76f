/** The conventional optional-value datatype. A remote call that gives no
    usable answer (a transport error, a wrong JSON shape, a caught
    exception) is `None` throughout the model. */
module Wrappers {

  datatype Option<+T> = None | Some(value: T) {

    /** The wrapped value, or `default` when there is none. */
    function GetOr(default: T): T {
      match this
      case Some(v) => v
      case None => default
    }
  }

  /** A member of a JSON object as `dict.get` and `in` see it: absent,
      present with value `null`, or present with a value. */
  datatype Field<+T> = Missing | Null | Present(value: T) {

    /** `d.get(key, default)`: the default only when the key is absent;
        a `null` value comes back as `None`. */
    function GetOr(default: T): Option<T> {
      match this
      case Missing => Some(default)
      case Null => None
      case Present(v) => Some(v)
    }
  }
}
