/** The option type and the few text helpers every other module uses. */
module Wrappers {
  datatype Option<+T> = None | Some(value: T)

  /** The text an optional character contributes. */
  function Emit(c: Option<char>): string {
    match c
    case None => ""
    case Some(ch) => [ch]
  }

  /** Everything but the last element. */
  function Init<T>(s: seq<T>): seq<T>
    requires s != []
  {
    s[..|s| - 1]
  }

  function Last<T>(s: seq<T>): T
    requires s != []
  {
    s[|s| - 1]
  }

  lemma SamePrefix(a: string, b: string, c: string)
    ensures a + b == a + c <==> b == c
  {
    if a + b == a + c {
      assert (a + b)[|a|..] == b && (a + c)[|a|..] == c;
    }
  }
}
