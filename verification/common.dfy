/** Small value wrappers shared by the dashboard model. */
module Common {

  /** A JavaScript value that may be `null` (or `undefined`). */
  datatype Option<+T> = None | Some(value: T) {
    function GetOr(default: T): T {
      match this
      case Some(v) => v
      case None => default
    }
  }

  /** JavaScript truthiness of a nullable string: `null` and `""` are both falsy. */
  predicate Truthy(s: Option<string>) {
    s.Some? && s.value != ""
  }

  /** `s || fallback` for a nullable string. */
  function OrElse(s: Option<string>, fallback: string): string
  {
    if Truthy(s) then s.value else fallback
  }

  /** `a` is `b` with some elements left out, the rest in the same order. */
  predicate IsSubsequence<T(==)>(a: seq<T>, b: seq<T>)
  {
    if |b| == 0 then |a| == 0
    else (|a| > 0 && a[0] == b[0] && IsSubsequence(a[1..], b[1..])) || IsSubsequence(a, b[1..])
  }

  /** Appending the same element to both keeps a subsequence. */
  lemma {:induction false} SubsequenceKeepLast<T>(a: seq<T>, b: seq<T>, x: T)
    requires IsSubsequence(a, b)
    ensures IsSubsequence(a + [x], b + [x])
  {
    if |b| > 0 {
      assert (b + [x])[1..] == b[1..] + [x];
      if |a| > 0 && a[0] == b[0] && IsSubsequence(a[1..], b[1..]) {
        SubsequenceKeepLast(a[1..], b[1..], x);
        assert (a + [x])[1..] == a[1..] + [x];
      } else {
        SubsequenceKeepLast(a, b[1..], x);
      }
    } else {
      assert (a + [x])[1..] == [];
    }
  }

  /** Appending an element to the longer sequence only keeps a subsequence. */
  lemma {:induction false} SubsequenceSkipLast<T>(a: seq<T>, b: seq<T>, x: T)
    requires IsSubsequence(a, b)
    ensures IsSubsequence(a, b + [x])
  {
    if |b| > 0 {
      assert (b + [x])[1..] == b[1..] + [x];
      if |a| > 0 && a[0] == b[0] && IsSubsequence(a[1..], b[1..]) {
        SubsequenceSkipLast(a[1..], b[1..], x);
      } else {
        SubsequenceSkipLast(a, b[1..], x);
      }
    }
  }

  /** The outcome of one `fetch(...)` followed by `.json()`. */
  datatype Fetch<+T> = NetworkError | HttpError(status: int) | Fetched(body: T)
}
