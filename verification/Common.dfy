/** Small shared vocabulary: options and facts about sequences of values. */
module Common {

  datatype Option<+T> = None | Some(value: T)

  /** The sequence without the element at position `k`. */
  function Without<T>(s: seq<T>, k: nat): (r: seq<T>)
    requires k < |s|
    ensures |r| == |s| - 1
    ensures forall i :: 0 <= i < |r| ==> r[i] == s[if i < k then i else i + 1]
    ensures forall x :: x in r ==> x in s
    ensures forall x :: x in s ==> x == s[k] || x in r
  {
    var r := s[..k] + s[k + 1..];
    assert forall i :: 0 <= i < |s| && i != k ==> s[i] == r[if i < k then i else i - 1];
    r
  }

  /** Removing from the first part of a concatenation. */
  lemma WithoutConcat<T>(a: seq<T>, b: seq<T>, k: nat)
    requires k < |a|
    ensures Without(a + b, k) == Without(a, k) + b
  {
    var l, r := Without(a + b, k), Without(a, k) + b;
    assert |l| == |r|;
    forall i | 0 <= i < |l| ensures l[i] == r[i] {
      assert l[i] == (a + b)[if i < k then i else i + 1];
    }
  }
}
