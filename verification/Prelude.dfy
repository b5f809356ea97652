/** Small helpers shared by every module of the model. */
module Prelude {

  datatype Option<+T> = None | Some(value: T)

  /** The last element of a non-empty sequence. */
  function Last<T>(s: seq<T>): T
    requires s != []
  {
    s[|s| - 1]
  }

  /** Everything but the last element. */
  function DropLast<T>(s: seq<T>): seq<T>
    requires s != []
  {
    s[..|s| - 1]
  }

  lemma DropLastAppend<T>(s: seq<T>, x: T)
    ensures s + [x] != [] && Last(s + [x]) == x && DropLast(s + [x]) == s
  {
    assert DropLast(s + [x]) == s;
  }
}
