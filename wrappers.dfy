/** Small shared vocabulary: an optional value and the two string tests the
    swap code uses (`startsWith` and `includes`). */
module Wrappers {

  /** A value that may be absent: `None` stands for JavaScript's `undefined`
      (a field or parameter that was not supplied, or a call that failed). */
  datatype Option<+T> = None | Some(value: T) {
    function GetOr(default: T): T {
      match this
      case Some(v) => v
      case None => default
    }
  }
}

module Strings {

  /** `s.startsWith(prefix)` */
  predicate StartsWith(s: string, prefix: string) {
    |prefix| <= |s| && s[..|prefix|] == prefix
  }

  /** `s.includes(sub)`: some suffix of `s` starts with `sub` */
  predicate Contains(s: string, sub: string)
    decreases |s|
  {
    StartsWith(s, sub) || (|s| > 0 && Contains(s[1..], sub))
  }

  /** A string that begins with `prefix` contains `prefix`, whatever follows. */
  lemma PrefixContained(prefix: string, rest: string)
    ensures Contains(prefix + rest, prefix)
  {
    assert (prefix + rest)[..|prefix|] == prefix;
  }

  /** Nothing longer than `s` is contained in `s`. */
  lemma {:induction false} ContainsNotLonger(s: string, sub: string)
    requires Contains(s, sub)
    ensures |sub| <= |s|
    decreases |s|
  {
    if !StartsWith(s, sub) {
      ContainsNotLonger(s[1..], sub);
    }
  }
}
