/** Small value types shared by the dashboard model: optional values,
    the value-or-exception outcome of a JavaScript expression or network
    call, JavaScript truthiness of optional strings, and subsequences. */
module Common {

  /** A JavaScript value that may be `null` or `undefined`. */
  datatype Option<+T> = None | Some(value: T)

  /** The outcome of an expression or an awaited call: a value, or a thrown
      exception (whose message the dashboard never inspects). */
  datatype Result<+T> = Ok(value: T) | Thrown

  /** JavaScript truthiness of a value that is a string, `null` or
      `undefined`: only a non-empty string is truthy. */
  predicate Truthy(s: Option<string>)
  {
    s.Some? && s.value != ""
  }

  /** `sub` can be obtained from `s` by deleting elements, keeping the order
      of what remains. */
  predicate IsSubsequence<T(==)>(sub: seq<T>, s: seq<T>)
    decreases |s|
  {
    if sub == [] then true
    else if s == [] then false
    else (sub[0] == s[0] && IsSubsequence(sub[1..], s[1..])) || IsSubsequence(sub, s[1..])
  }

  /** A subsequence is never longer, and only holds elements of, the sequence
      it comes from. */
  lemma {:induction false} SubsequenceBounds<T>(sub: seq<T>, s: seq<T>)
    requires IsSubsequence(sub, s)
    ensures |sub| <= |s|
    ensures forall x :: x in sub ==> x in s
    decreases |s|
  {
    if sub != [] {
      if sub[0] == s[0] && IsSubsequence(sub[1..], s[1..]) {
        SubsequenceBounds(sub[1..], s[1..]);
        forall x | x in sub ensures x in s {
          if x != sub[0] {
            assert x in sub[1..];
          }
        }
      } else {
        SubsequenceBounds(sub, s[1..]);
      }
    }
  }
}
