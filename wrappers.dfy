/** A value that may be absent: the model's stand-in for a Java reference that may be null. */
module Wrappers {

  datatype Option<+T> = None | Some(value: T)

  /** The zero- or one-element sequence holding the value of `o`, if any. */
  function OptionToSeq<T>(o: Option<T>): (s: seq<T>)
    ensures |s| <= 1
    ensures |s| == 1 <==> o.Some?
    ensures o.Some? ==> s[0] == o.value
  {
    match o
    case None => []
    case Some(v) => [v]
  }
}
