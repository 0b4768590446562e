/** Shared value types and string predicates used by every part of the model. */
module Text {

  /** A value that may be absent (JavaScript `undefined` / `null`). */
  datatype Option<+T> = None | Some(value: T)

  /** The outcome of a call into a remote service (database, CSV parser):
      the data it returned, or the message of the error it reported. */
  datatype Remote<+T> = Ok(data: T) | Failed(message: string)

  /** `s.startsWith(prefix)` */
  predicate StartsWith(s: string, prefix: string)
  {
    |prefix| <= |s| && s[..|prefix|] == prefix
  }

  /** `s.includes(sub)`: some suffix of `s` starts with `sub`. */
  predicate Contains(s: string, sub: string)
    decreases |s|
  {
    StartsWith(s, sub) || (|s| > 0 && Contains(s[1..], sub))
  }

  /** JavaScript truthiness of an optional string: present and not empty. */
  predicate Truthy(s: Option<string>)
  {
    s.Some? && s.value != ""
  }

  /** `n` copies of `x`. */
  function Repeat<T>(x: T, n: nat): (r: seq<T>)
    ensures |r| == n
    ensures forall i :: 0 <= i < n ==> r[i] == x
  {
    if n == 0 then [] else Repeat(x, n - 1) + [x]
  }

  /** A prefix of a prefix is a prefix. */
  lemma StartsWithLonger(s: string, longer: string, shorter: string)
    requires StartsWith(s, longer) && StartsWith(longer, shorter)
    ensures StartsWith(s, shorter)
  {
    assert s[..|shorter|] == longer[..|shorter|];
  }
}
