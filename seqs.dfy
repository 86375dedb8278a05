/** Small sequence utilities shared by the poll store and the command tokenizer. */
module Seqs {

  datatype Option<T> = None | Some(value: T)

  /** The position of the first occurrence of `x` in `xs`, as Go's
      `for i, v := range xs { if v == x { index = i; break } }` finds it. */
  function FirstIndex<T(==)>(xs: seq<T>, x: T): (r: Option<nat>)
    ensures r.Some? ==> r.value < |xs| && xs[r.value] == x && forall j :: 0 <= j < r.value ==> xs[j] != x
    ensures r.None? <==> x !in xs
  {
    if xs == [] then None
    else if xs[0] == x then Some(0)
    else match FirstIndex(xs[1..], x)
      case None => None
      case Some(k) => Some(k + 1)
  }

  /** The first occurrence is unique: any index holding `x` with no earlier `x` is it. */
  lemma FirstIndexAt<T>(xs: seq<T>, x: T, k: nat)
    requires k < |xs| && xs[k] == x && forall j :: 0 <= j < k ==> xs[j] != x
    ensures FirstIndex(xs, x) == Some(k)
  {
  }

  /** A sequence of `n` zeros, Go's `make([]int, n)`. */
  function Zeros(n: nat): (z: seq<nat>)
    ensures |z| == n && forall i :: 0 <= i < n ==> z[i] == 0
  {
    seq(n, _ => 0)
  }

  /** The total of a sequence of counts. */
  function Sum(v: seq<nat>): nat
  {
    if v == [] then 0 else v[0] + Sum(v[1..])
  }

  lemma {:induction false} SumZeros(n: nat)
    ensures Sum(Zeros(n)) == 0
  {
    if n > 0 {
      assert Zeros(n)[1..] == Zeros(n - 1);
      SumZeros(n - 1);
    }
  }

  /** Bumping one count by one bumps the total by exactly one. */
  lemma {:induction false} SumIncrement(v: seq<nat>, k: nat)
    requires k < |v|
    ensures Sum(v[k := v[k] + 1]) == Sum(v) + 1
  {
    if k > 0 {
      assert v[k := v[k] + 1][1..] == v[1..][k - 1 := v[k] + 1];
      SumIncrement(v[1..], k - 1);
    } else {
      assert v[k := v[k] + 1][1..] == v[1..];
    }
  }

  /** Regrouping lemmas for the proofs about concatenated text. */
  lemma SplitAt<T>(s: seq<T>, n: nat)
    requires n <= |s|
    ensures s[..n] + s[n..] == s
  {
  }

  lemma Regroup<T>(a: seq<T>, b: seq<T>, c: seq<T>, d: seq<T>, e: seq<T>, f: seq<T>, g: seq<T>)
    ensures a + b + c + d + e + f + g == a + (b + c + d + e + (f + g))
  {
  }

  lemma AppendAssoc<T>(a: seq<T>, b: seq<T>, c: seq<T>)
    ensures a + b + c == a + (b + c)
  {
  }

  lemma ConsConcat<T>(x: T, y: T, zs: seq<T>)
    ensures [x] + ([y] + zs) == [x, y] + zs
  {
  }
}
