/** Optional values: a TypeScript optional field (`x?: T`), where `None` stands for both
    `undefined` and `null`, the two values that `x == null` accepts. */
module Wrappers {

  datatype Option<+T> = None | Some(value: T) {

    /** The value, or `default` when there is none. */
    function GetOr(default: T): T {
      match this
      case Some(v) => v
      case None => default
    }
  }
}
