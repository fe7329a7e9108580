/** The optional value the scripts express with null or undefined. */
module Wrappers {

  datatype Option<+T> = None | Some(value: T)

  /** An optional value as a sequence of zero or one elements. */
  function OptionToSeq<T>(o: Option<T>): (s: seq<T>)
    ensures |s| <= 1
    ensures o.Some? <==> |s| == 1
    ensures o.Some? ==> s[0] == o.value
  {
    match o
    case None => []
    case Some(v) => [v]
  }
}
