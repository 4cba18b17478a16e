/** The nullish-or-present view of a JavaScript value, as the `??` operator sees it. */
module Wrappers {

  /** `None` stands for `null` or `undefined`; every other value is `Some`. */
  datatype Option<+T> = None | Some(value: T) {

    /** `this ?? default`: only an absent value falls through. */
    function GetOr(default: T): (r: T)
      ensures Some? ==> r == value
      ensures None? ==> r == default
    {
      match this
      case Some(v) => v
      case None => default
    }

    /** `this ?? other` where the fallback may itself be absent. */
    function OrElse(other: Option<T>): (r: Option<T>)
      ensures Some? ==> r == this
      ensures None? ==> r == other
    {
      if Some? then this else other
    }
  }
}
