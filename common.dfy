/** Small building blocks shared by the other modules: an optional value
    (TypeScript's `T | undefined` / `T | null`), JavaScript truthiness for the
    two value kinds the core tests with `!!`, and `String.prototype.includes`. */
module Common {

  datatype Option<T> = None | Some(value: T) {
    /** `x || fallback` / `x ?? fallback` for a value that is either absent or truthy. */
    function GetOr(fallback: T): T {
      match this
      case Some(v) => v
      case None => fallback
    }
  }

  /** `!!s` for `s: string | null | undefined`: absent and the empty string are falsy. */
  predicate TruthyString(s: Option<string>) {
    s.Some? && s.value != ""
  }

  /** `!!n` for `n: number | undefined`, over integers: absent and 0 are falsy. */
  predicate TruthyNumber(n: Option<int>) {
    n.Some? && n.value != 0
  }

  /** A string-keyed object or storage lookup, `table[key]`: the entry, or
      `undefined` / `null` when the key is absent. */
  function Get<V>(table: map<string, V>, key: string): (e: Option<V>)
    ensures e.Some? <==> key in table
    ensures e.Some? ==> e.value == table[key]
  {
    if key in table then Some(table[key]) else None
  }

  /** `sub` occurs in `s` starting at index `i`. */
  predicate OccursAt(s: string, sub: string, i: int) {
    0 <= i <= |s| - |sub| && s[i..i + |sub|] == sub
  }

  /** `s.includes(sub)`: case-sensitive substring containment. */
  predicate Contains(s: string, sub: string) {
    exists i | 0 <= i <= |s| - |sub| :: OccursAt(s, sub, i)
  }

  /** A string contains whatever occurs inside it. */
  lemma ContainsInfix(a: string, sub: string, b: string)
    ensures Contains(a + sub + b, sub)
  {
    var s := a + sub + b;
    assert s[|a|..|a| + |sub|] == sub;
    assert OccursAt(s, sub, |a|);
  }

  /** If one character of `sub` never occurs in `s`, then `s` does not contain `sub`. */
  lemma NotContainsMissingChar(s: string, sub: string, k: nat)
    requires k < |sub| && sub[k] !in s
    ensures !Contains(s, sub)
  {
    forall i | 0 <= i <= |s| - |sub|
      ensures !OccursAt(s, sub, i)
    {
      assert s[i + k] in s;
    }
  }
}
