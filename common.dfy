/**
 * Small shared types: an optional value, and what a widget's touch handler
 * answers to the event loop.
 */
module Common {
  datatype Option<T> = None | Some(value: T)

  /**
   * Consumed: the handler returned True and the touch goes no further.
   * PassedOn: the handler fell through to the base class (dragging and
   * dispatch to children), which is not part of this model.
   */
  datatype Touch = Consumed | PassedOn

  /** The el_type of the active sidebar tool, when a tool is active. */
  const RemoveTool: string := "REMOVE"
  const ConnectionTool: string := "CONNECTION"

  /** No element occurs twice. */
  ghost predicate Distinct<T>(s: seq<T>)
  {
    forall i, j | 0 <= i < j < |s| :: s[i] != s[j]
  }

  /**
   * The pending pair of the connection tool after icon n is touched: the
   * icons already waiting keep their places and n is appended at the end
   * unless it is already there, so the pair never joins an icon to itself.
   */
  function Pick<T(==)>(s: seq<T>, n: T): (r: seq<T>)
    ensures n in r
    ensures forall x | x in r :: x in s || x == n
    ensures |s| <= |r| <= |s| + 1
    ensures Distinct(s) ==> Distinct(r)
    ensures Distinct(s) && |r| == 2 ==> r[0] != r[1]
    ensures |r| == (if n in s then |s| else |s| + 1)
    ensures r[..|s|] == s && (n !in s ==> r[|s|] == n)
  {
    if n in s then s else s + [n]
  }
}
