/** Small value types shared by every module of the model. */
module Wrappers {

  /** Go's "missing or nil" for a single value. */
  datatype Option<+T> = None | Some(value: T) {
    function GetOr(default: T): T {
      match this
      case Some(v) => v
      case None => default
    }
  }

  /** A Go slice, keeping apart the nil slice (JSON `null`) and a made
      slice (JSON `[...]`, possibly empty). */
  datatype Slice<T> = Nil | Made(elems: seq<T>) {
    /** The elements, `len(s)` of them; a nil slice has none. */
    function Elems(): seq<T> {
      match this
      case Nil => []
      case Made(xs) => xs
    }

    /** Go's `append(s, x)`: never nil afterwards. */
    function Append(x: T): (r: Slice<T>)
      ensures r.Made? && r.Elems() == Elems() + [x]
    {
      Made(Elems() + [x])
    }
  }

  // Sequence facts stated once at a generic element type, so that proofs
  // about sequences of records use them without looking inside the records.

  lemma ConsParts<T>(x: T, rest: seq<T>)
    ensures [x] + rest != [] && ([x] + rest)[0] == x && ([x] + rest)[1..] == rest
  {
  }

  lemma SplitHead<T>(a: seq<T>, b: seq<T>)
    requires a != []
    ensures a + b == [a[0]] + (a[1..] + b) && a == [a[0]] + a[1..]
  {
  }

  lemma ConcatNil<T>(s: seq<T>)
    ensures s + [] == s && [] + s == s
  {
  }

  lemma ConcatAssoc<T>(a: seq<T>, b: seq<T>, c: seq<T>)
    ensures a + (b + c) == (a + b) + c
  {
  }
}
