/** The optional value used for Go's nil-able results and for partial functions. */
module Wrappers {

  datatype Option<+T> = None | Some(value: T) {

    /** The zero-or-one element sequence holding the value, if any. */
    function ToSeq(): (s: seq<T>)
      ensures |s| <= 1
      ensures |s| == 1 <==> Some?
      ensures Some? ==> s[0] == value
    {
      match this
      case Some(v) => [v]
      case None => []
    }
  }
}
