/** Optional values: a parse that may fail, a storage slot that may be empty. */
module Wrappers {

  datatype Option<+T> = None | Some(value: T) {

    /** The held value, or `default` when there is none. */
    function GetOr(default: T): T {
      match this
      case Some(v) => v
      case None => default
    }
  }

  /**
   * JavaScript's `Number(x) || 0` where the parse is abstract: `None` stands
   * for NaN. Zero and NaN are both falsy, so both give 0.
   */
  function OrZero(n: Option<int>): (r: int)
    ensures n.None? ==> r == 0
    ensures n.Some? ==> r == n.value
    ensures r != 0 ==> n == Some(r)
  {
    n.GetOr(0)
  }
}
