/** Small building blocks shared by the whole model. */
module Prelude {

  datatype Option<+T> = None | Some(value: T)

  /** A value or a failure. Messages are not modelled, only that an operation failed. */
  datatype Result<+T> = Ok(value: T) | Err {
    predicate IsFailure() {
      Err?
    }

    function PropagateFailure<U>(): Result<U>
      requires Err?
    {
      Err
    }

    function Extract(): T
      requires Ok?
    {
      value
    }
  }

  function Pow2(n: nat): (r: nat)
    ensures r > 0
  {
    if n == 0 then 1 else 2 * Pow2(n - 1)
  }

  /** What a loop over xs computes when its body replaces acc by f(acc, x). */
  function FoldLeft<A, B>(f: (A, B) -> A, acc: A, xs: seq<B>): A {
    if xs == [] then acc else FoldLeft(f, f(acc, xs[0]), xs[1..])
  }

  lemma FoldLeftStep<A, B>(f: (A, B) -> A, acc: A, xs: seq<B>, i: nat)
    requires i < |xs|
    ensures FoldLeft(f, acc, xs[i..]) == FoldLeft(f, f(acc, xs[i]), xs[i + 1..])
  {
  }

  lemma FoldLeftCons<A, B>(f: (A, B) -> A, acc: A, x: B, xs: seq<B>)
    ensures FoldLeft(f, acc, [x] + xs) == FoldLeft(f, f(acc, x), xs)
  {
    Head(x, xs);
  }

  lemma FoldLeftNothing<A, B>(f: (A, B) -> A, acc: A)
    ensures FoldLeft(f, acc, []) == acc
  {
  }

  lemma {:induction false} FoldLeftAppend<A, B>(f: (A, B) -> A, acc: A, xs: seq<B>, ys: seq<B>)
    ensures FoldLeft(f, acc, xs + ys) == FoldLeft(f, FoldLeft(f, acc, xs), ys)
    decreases |xs|
  {
    if xs == [] {
      assert xs + ys == ys;
    } else {
      assert (xs + ys)[1..] == xs[1..] + ys;
      FoldLeftAppend(f, f(acc, xs[0]), xs[1..], ys);
    }
  }

  lemma Assoc<T>(a: seq<T>, b: seq<T>, c: seq<T>)
    ensures a + b + c == a + (b + c)
  {
  }

  lemma Head<T>(x: T, s: seq<T>)
    ensures ([x] + s)[0] == x && ([x] + s)[1..] == s
  {
  }

  /** Moving the first element of s onto the end of done. */
  lemma SnocCons<T>(done: seq<T>, s: seq<T>)
    requires s != []
    ensures done + [s[0]] + s[1..] == done + s
  {
  }

  /** A slice of a suffix, in terms of the whole. */
  lemma SliceOfSuffix<T>(s: seq<T>, start: nat, end: nat)
    requires start <= end <= |s|
    ensures s[start..][..end - start] == s[start..end]
    ensures s[start..][end - start..] == s[end..]
  {
  }

  /** A reader that has collected prefix and still has to read what r describes. */
  ghost function Prepend<T, R>(prefix: seq<T>, r: Result<(seq<T>, R)>): Result<(seq<T>, R)> {
    if r.Ok? then Ok((prefix + r.value.0, r.value.1)) else Err
  }

  lemma PrependMore<T, R>(prefix: seq<T>, more: seq<T>, r: Result<(seq<T>, R)>)
    ensures Prepend([], r) == r
    ensures Prepend(prefix + more, r) == Prepend(prefix, Prepend(more, r))
  {
    if r.Ok? {
      assert [] + r.value.0 == r.value.0;
      assert prefix + more + r.value.0 == prefix + (more + r.value.0);
    }
  }
}
