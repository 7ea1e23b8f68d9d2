/** The optional value used throughout the model: `None` stands for a
    JavaScript value that is `undefined`, `null` or `NaN`. */
module Wrappers {

  datatype Option<+T> = None | Some(value: T) {

    /** The value, or `default` when there is none (the `??` / destructuring-default reading). */
    function GetOr(default: T): T
    {
      match this
      case Some(v) => v
      case None => default
    }
  }

  /** JavaScript truthiness of a string that may be missing: `undefined`
      and `''` are falsy. */
  predicate TruthyText(s: Option<string>)
  {
    s.Some? && s.value != ""
  }

  /** JavaScript truthiness of a number that may be missing: `undefined`,
      `NaN` and `0` are falsy. */
  predicate TruthyNumber(n: Option<int>)
  {
    n.Some? && n.value != 0
  }
}
