/** Option values and script outcomes shared by every module of the model. */
module Wrappers {

  datatype Option<+T> = None | Some(value: T)

  /** How a script ends: `sys.exit` with a code, or an exception nobody catches. */
  datatype Run = Exited(code: int) | Crashed

  /**
   * A loop that builds one output per input in order and stops at the first
   * input that raises: it succeeds exactly when every input succeeds, and
   * output `i` is the result for input `i`.
   */
  function Traverse<A, B>(s: seq<A>, f: A -> Option<B>): (r: Option<seq<B>>)
    ensures r.Some? <==> forall i :: 0 <= i < |s| ==> f(s[i]).Some?
    ensures r.Some? ==> |r.value| == |s| && forall i :: 0 <= i < |s| ==> r.value[i] == f(s[i]).value
    decreases |s|
  {
    if s == [] then Some([])
    else
      match (Traverse(s[..|s| - 1], f), f(s[|s| - 1]))
      case (Some(xs), Some(x)) => Some(xs + [x])
      case (None, _) => None
      case (_, None) => None
  }

  /** One more input that succeeds extends the output by its result. */
  lemma TraverseStep<A, B>(s: seq<A>, f: A -> Option<B>, i: int, xs: seq<B>)
    requires 0 <= i < |s| && Traverse(s[..i], f) == Some(xs) && f(s[i]).Some?
    ensures Traverse(s[..i + 1], f) == Some(xs + [f(s[i]).value])
  {
    assert s[..i + 1][..i] == s[..i];
    assert s[..i + 1][i] == s[i];
  }

  /** An input that fails makes the whole traversal fail. */
  lemma TraverseFails<A, B>(s: seq<A>, f: A -> Option<B>, i: int)
    requires 0 <= i < |s| && f(s[i]).None?
    ensures Traverse(s, f).None?
  {
  }
}
