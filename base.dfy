/** Small value types shared by every part of the model: optional values
    (C# null), results of calls that may throw, and the exceptions thrown. */
module Base {

  /** A C# reference that may be null. */
  datatype Option<+T> = None | Some(value: T) {
    /** `x ?? fallback`. */
    function GetOr(fallback: T): T {
      match this
      case Some(v) => v
      case None => fallback
    }
  }

  /** The exceptions the library throws or lets escape. */
  datatype Error =
    | ArgumentNull(paramName: string)   // ArgumentNullException
    | Argument(message: string)         // ArgumentException
    | NullReference                     // NullReferenceException
    | Unity(message: string)            // UnityException, thrown by the engine

  /** The outcome of a call that returns a value or throws. */
  datatype Result<+T> = Ok(value: T) | Err(error: Error)

  /** The outcome of a call that returns nothing or throws. */
  datatype Status = Done | Threw(error: Error)

  /** `a` can be obtained from `b` by deleting elements: every element of
      `a` occurs in `b`, in the same relative order. */
  predicate Subsequence<T(==)>(a: seq<T>, b: seq<T>)
    decreases |b|
  {
    if a == [] then true
    else if b == [] then false
    else (a[0] == b[0] && Subsequence(a[1..], b[1..])) || Subsequence(a, b[1..])
  }

  /** LINQ `xs.Where(keep)`: the elements of `xs` that satisfy `keep`, in order. */
  function Keep<T(!new)>(xs: seq<T>, keep: T -> bool): (r: seq<T>)
    ensures |r| <= |xs|
    ensures forall x :: x in r <==> x in xs && keep(x)
  {
    if xs == [] then []
    else (if keep(xs[0]) then [xs[0]] else []) + Keep(xs[1..], keep)
  }

  /** `Where` never reorders: its result is a subsequence of its input. */
  lemma {:induction false} KeepIsSubsequence<T(!new)>(xs: seq<T>, keep: T -> bool)
    ensures Subsequence(Keep(xs, keep), xs)
  {
    if xs != [] {
      KeepIsSubsequence(xs[1..], keep);
      var r := Keep(xs, keep);
      if keep(xs[0]) {
        assert r[0] == xs[0] && r[1..] == Keep(xs[1..], keep);
      } else {
        assert r == Keep(xs[1..], keep);
      }
    }
  }

  /** Appending the same element to both sides keeps a subsequence, and so
      does appending any element to the longer side only. */
  lemma {:induction false} SubsequenceSnoc<T>(a: seq<T>, b: seq<T>, x: T)
    requires Subsequence(a, b)
    ensures Subsequence(a + [x], b + [x])
    ensures Subsequence(a, b + [x])
    decreases |b|
  {
    if a == [] {
      assert a + [x] == [x];
      SingletonSubsequence(b, x);
    } else {
      assert (a + [x])[0] == a[0] && (a + [x])[1..] == a[1..] + [x];
      assert (b + [x])[0] == b[0] && (b + [x])[1..] == b[1..] + [x];
      if a[0] == b[0] && Subsequence(a[1..], b[1..]) {
        SubsequenceSnoc(a[1..], b[1..], x);
      } else {
        SubsequenceSnoc(a, b[1..], x);
      }
    }
  }

  /** The last element alone is a subsequence. */
  lemma {:induction false} SingletonSubsequence<T>(b: seq<T>, x: T)
    ensures Subsequence([x], b + [x])
    decreases |b|
  {
    if b != [] {
      assert (b + [x])[1..] == b[1..] + [x];
      SingletonSubsequence(b[1..], x);
    } else {
      assert ([x] + [])[1..] == [];
    }
  }
}
