/** Small vocabulary shared by every model module. */
module Basics {

  datatype Option<+T> = None | Some(value: T)

  datatype Result<+T, +E> = Ok(value: T) | Err(error: E)

  /** The value of a call that only succeeds or fails. */
  datatype Unit = Unit

  /** String-to-string parameter maps: StorageClass parameters, volume contexts, secrets. */
  type Params = map<string, string>

  /** Reading a missing key of a Go map gives the zero value. */
  function Get(p: Params, key: string): string {
    if key in p then p[key] else ""
  }

  function FirstNonEmpty(a: string, b: string): string {
    if a != "" then a else b
  }

  predicate HasPrefix(s: string, prefix: string) {
    prefix <= s
  }

  predicate HasSuffix(s: string, suffix: string) {
    |suffix| <= |s| && s[|s| - |suffix|..] == suffix
  }

  predicate Distinct<T(==)>(s: seq<T>) {
    forall i, j :: 0 <= i < j < |s| ==> s[i] != s[j]
  }

  /** File and tag names built by appending to, or prefixing, an ID identify it. */
  lemma AppendIsInjective(a: string, b: string, suffix: string)
    requires a + suffix == b + suffix
    ensures a == b
  {
    assert |a| == |b|;
    assert (a + suffix)[..|a|] == a;
    assert (b + suffix)[..|b|] == b;
  }

  lemma PrependIsInjective(prefix: string, a: string, b: string)
    requires prefix + a == prefix + b
    ensures a == b
  {
    assert (prefix + a)[|prefix|..] == a;
    assert (prefix + b)[|prefix|..] == b;
  }
}
