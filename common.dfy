/** Failure-carrying result types shared by the modules of this project. */
module Common {

  datatype Option<+T> = None | Some(value: T)

  datatype Result<+T, +E> = Ok(value: T) | Err(error: E)

  /** The first position of `s` whose key is `k` (a linear search by key). */
  function FirstWith<T, K(==)>(s: seq<T>, key: T -> K, k: K): (r: Option<nat>)
    ensures r.Some? ==> r.value < |s| && key(s[r.value]) == k
                        && forall j :: 0 <= j < r.value ==> key(s[j]) != k
    ensures r.None? <==> forall j :: 0 <= j < |s| ==> key(s[j]) != k
  {
    if s == [] then None
    else if key(s[0]) == k then Some(0)
    else match FirstWith(s[1..], key, k)
      case None => None
      case Some(i) => Some(i + 1)
  }

  /** Sum of a sequence of naturals. */
  function Sum(xs: seq<nat>): nat
  {
    if xs == [] then 0 else xs[0] + Sum(xs[1..])
  }

  lemma {:induction false} SumAppend(xs: seq<nat>, ys: seq<nat>)
    ensures Sum(xs + ys) == Sum(xs) + Sum(ys)
  {
    if xs == [] {
      assert xs + ys == ys;
    } else {
      assert (xs + ys)[1..] == xs[1..] + ys;
      SumAppend(xs[1..], ys);
    }
  }
}
