/**
  Symbolic stand-ins for the tensors and loss descriptors the wrapper
  passes around, and the right-biased dictionary merge `{**a, **b}`.
 */
module Symbolic {

  /** A tensor, known only by how it was derived. */
  datatype Term =
    | Tensor(id: nat)           // a tensor produced by a sub-model
    | Detach(t: Term)           // `t.detach()`: same values, no gradient flows back into `t`
    | Div(t: Term, divisor: real)  // `t.div(divisor)`: element-wise division by a scalar

  /** The loss identifier handed to the external loss routine. */
  datatype LossKind = KL | Other(name: string)

  /** One loss-invocation descriptor: `dict(params=..., type=..., weight=...)`. */
  datatype LossEntry = LossEntry(params: seq<Term>, kind: LossKind, weight: real)

  /** `{**a, **b}`: every key of either side, the value of `b` winning on a shared key. */
  function Merge<K, V>(a: map<K, V>, b: map<K, V>): (r: map<K, V>)
    ensures r.Keys == a.Keys + b.Keys
    ensures forall k :: k in b ==> r[k] == b[k]
    ensures forall k :: k in a && k !in b ==> r[k] == a[k]
  {
    a + b
  }

  /** When the two sides share no key nothing is lost: the merge is as large as both together. */
  lemma MergeDisjointSize<K, V>(a: map<K, V>, b: map<K, V>)
    requires a.Keys !! b.Keys
    ensures |Merge(a, b)| == |a| + |b|
  {
    var r := Merge(a, b);
    assert r.Keys == a.Keys + b.Keys;
    assert |r.Keys| == |a.Keys| + |b.Keys|;
  }

  /** On a shared key whose values differ, the first side's value is silently dropped. */
  lemma MergeCollisionDropsFirst<K, V>(a: map<K, V>, b: map<K, V>, k: K)
    requires k in a && k in b && a[k] != b[k]
    ensures Merge(a, b)[k] != a[k]
  {
  }
}
