/**
  Failure-compatible wrappers for the rewriting pass. Every panic of the
  macro crate (`todo!()`, `unreachable!()`, `unwrap()` on `None`, and the
  panic of `Ident::new` on an empty string) becomes a `Fail` value, so a
  rewrite either produces its whole output or fails with no partial result.
 */
module Results {

  datatype Option<+T> = None | Some(value: T)

  /** The kind of panic the crate would raise. */
  datatype Failure =
    | NotImplemented   // `todo!()`
    | Unreachable      // `unreachable!()`
    | UnwrapNone       // `.unwrap()` on an empty `Option`
    | EmptyIdent       // `Ident::new("")`

  datatype Result<+T> = Ok(value: T) | Fail(error: Failure) {

    predicate IsFailure() {
      Fail?
    }

    function PropagateFailure<U>(): Result<U>
      requires Fail?
    {
      Fail(error)
    }

    function Extract(): T
      requires Ok?
    {
      value
    }
  }

  /** Applies `f` to every element in order and stops at the first failure,
      as an iterator chain that panics part-way does. */
  function MapAll<A, B>(f: A -> Result<B>, s: seq<A>): (r: Result<seq<B>>)
    ensures r.Ok? <==> forall i :: 0 <= i < |s| ==> f(s[i]).Ok?
    ensures r.Ok? ==> |r.value| == |s| && forall i :: 0 <= i < |s| ==> f(s[i]) == Ok(r.value[i])
    ensures r.Fail? ==> exists i :: 0 <= i < |s| && f(s[i]) == Fail(r.error) && forall j :: 0 <= j < i ==> f(s[j]).Ok?
  {
    if |s| == 0 then Ok([])
    else
      match f(s[0])
      case Fail(e) => Fail(e)
      case Ok(head) =>
        match MapAll(f, s[1..])
        case Fail(e) =>
          assert forall j :: 0 < j < |s| ==> s[j] == s[1..][j - 1];
          Fail(e)
        case Ok(tail) =>
          assert forall j :: 0 < j < |s| ==> s[j] == s[1..][j - 1];
          Ok([head] + tail)
  }

  /** When `f` succeeds on every element without changing it, mapping is the identity. */
  lemma MapAllIdentity<A>(f: A -> Result<A>, s: seq<A>)
    requires forall i :: 0 <= i < |s| ==> f(s[i]) == Ok(s[i])
    ensures MapAll(f, s) == Ok(s)
  {
    var r := MapAll(f, s);
    assert r.Ok?;
    forall i | 0 <= i < |s|
      ensures r.value[i] == s[i]
    {
      assert f(s[i]) == Ok(r.value[i]);
    }
    assert r.value == s;
  }

  /** Pairs up two sequences up to the length of the shorter one, as a `quote!`
      repetition over two lists does. */
  function Zip<A, B>(a: seq<A>, b: seq<B>): (r: seq<(A, B)>)
    ensures |r| == if |a| <= |b| then |a| else |b|
    ensures forall i :: 0 <= i < |r| ==> r[i] == (a[i], b[i])
  {
    if |a| == 0 || |b| == 0 then []
    else [(a[0], b[0])] + Zip(a[1..], b[1..])
  }
}
