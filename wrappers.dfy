/** The optional value that stands for Go's nilable `error` results. */
module Wrappers {

  datatype Option<+T> = None | Some(value: T) {

    /** The value as a sequence of zero or one elements. */
    function ToSeq(): (s: seq<T>)
      ensures |s| == (if Some? then 1 else 0)
      ensures Some? ==> s[0] == value
    {
      if Some? then [value] else []
    }
  }
}
