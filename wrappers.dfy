/** Option and Result values shared by the modules of the model. */
module Wrappers {

  datatype Option<+T> = None | Some(value: T)

  /** The outcome of an operation that may raise: Ok with its value, or Err with the exception. */
  datatype Result<+T, +E> = Ok(value: T) | Err(error: E)

  /** Index of the first element of `s` that satisfies `p`; the loops of the
      model scan oracle sequences with it. */
  function FirstIndex<T>(s: seq<T>, p: T -> bool): (k: nat)
    requires exists i :: 0 <= i < |s| && p(s[i])
    ensures k < |s| && p(s[k])
    ensures forall j :: 0 <= j < k ==> !p(s[j])
  {
    if p(s[0]) then 0
    else
      assert exists i :: 0 <= i < |s[1..]| && p(s[1..][i]) by {
        var i :| 0 <= i < |s| && p(s[i]);
        assert i > 0 && p(s[1..][i - 1]);
      }
      1 + FirstIndex(s[1..], p)
  }

  /** FirstIndex is the only index with its two properties. */
  lemma FirstIndexUnique<T>(s: seq<T>, p: T -> bool, k: nat)
    requires k < |s| && p(s[k])
    requires forall j :: 0 <= j < k ==> !p(s[j])
    ensures FirstIndex(s, p) == k
  {
  }
}
