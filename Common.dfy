/** Shared value types: an optional value and the outcome of one HTTP call. */
module Common {

  datatype Option<+T> = None | Some(value: T)

  /** The error response an HTTP call may carry: its status code and its body. */
  datatype HttpError = HttpError(status: int, body: string)

  /**
   * The outcome of one request to the server, supplied by the caller of a handler
   * in place of the network: either the response data, or a failure that carries
   * the server's error response when there was one (a network error has none).
   */
  datatype Reply<+T> = Ok(data: T) | Failed(response: Option<HttpError>)

  /** True when a failure carries exactly this status code and this body. */
  predicate FailedWith<T>(reply: Reply<T>, status: int, body: string)
  {
    reply.Failed? && reply.response == Some(HttpError(status, body))
  }

  /**
   * `r` is `s` with some elements left out and the rest kept in their order:
   * the first element of `r` is matched with the earliest possible one of `s`.
   */
  ghost predicate SubsequenceOf<T>(r: seq<T>, s: seq<T>)
    decreases |s|
  {
    if r == [] then true
    else if s == [] then false
    else if r[0] == s[0] then SubsequenceOf(r[1..], s[1..])
    else SubsequenceOf(r, s[1..])
  }

  /**
   * The `filter` a confirmed delete applies: every element whose id, as `idOf`
   * reads it, differs from `id`, in order, each with all of its copies.
   */
  function RemoveById<T(==,!new)>(xs: seq<T>, id: int, idOf: T -> int): (r: seq<T>)
    ensures |r| <= |xs|
    ensures forall x :: x in r <==> x in xs && idOf(x) != id
    ensures forall x :: multiset(r)[x] == if idOf(x) != id then multiset(xs)[x] else 0
  {
    if xs == [] then []
    else
      assert xs == [xs[0]] + xs[1..];
      (if idOf(xs[0]) != id then [xs[0]] else []) + RemoveById(xs[1..], id, idOf)
  }

  /** The elements that stay after a delete keep their relative order. */
  lemma {:induction false} RemoveByIdIsSubsequence<T(!new)>(xs: seq<T>, id: int, idOf: T -> int)
    ensures SubsequenceOf(RemoveById(xs, id, idOf), xs)
  {
    if xs != [] {
      var r := RemoveById(xs, id, idOf);
      RemoveByIdIsSubsequence(xs[1..], id, idOf);
      if idOf(xs[0]) != id {
        assert r[1..] == RemoveById(xs[1..], id, idOf);
      } else {
        assert r == RemoveById(xs[1..], id, idOf);
        assert r != [] ==> r[0] != xs[0];
      }
    }
  }
}
