/** Values shared by the cache layers: keys, cached Python values and the outcomes of calls. */
module Values {
  datatype Option<+T> = None | Some(value: T)

  type Key = string

  // A Python value other than None.
  type Value(==, !new)

  // An exception object.
  type Failure(==, !new)

  // What a Python variable holds; `None` is Python's None.
  type Any = Option<Value>

  // Seconds, as `time.time()` reports them.
  type Time = real

  // How a call of the wrapped function ends.
  datatype Outcome = Returned(value: Any) | Raised(failure: Failure)

  /** `sub in s` of Python strings. */
  predicate Contains(s: string, sub: string) {
    exists i :: 0 <= i <= |s| - |sub| && sub <= s[i..]
  }

  /** A string occurs in another exactly if the other can be cut around it. */
  lemma ContainsIff(s: string, sub: string)
    ensures Contains(s, sub) <==> exists before, after :: s == before + sub + after
  {
    if Contains(s, sub) {
      var i :| 0 <= i <= |s| - |sub| && sub <= s[i..];
      assert s == s[..i] + sub + s[i + |sub|..];
    }
    if before, after :| s == before + sub + after {
      assert s[|before|..] == sub + after;
    }
  }
}
