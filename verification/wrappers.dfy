/** Optional values. The model uses `None` where the source has a missing
    user, a `find` that matches nothing, or a remote call whose exception is
    caught. */
module Wrappers {

  datatype Option<T> = None | Some(value: T) {

    /** The value the source falls back to in its `catch` branch when there
        is nothing here. */
    function ValueOr(fallback: T): (r: T)
      ensures Some? ==> r == value
      ensures None? ==> r == fallback
    {
      if Some? then value else fallback
    }
  }
}
