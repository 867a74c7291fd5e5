/** Small shared vocabulary: optional values and the two pieces of Python
    semantics the scrapers lean on (truthiness of an optional string and the
    substring test `needle in haystack`). */
module Common {

  /** A value that may be absent: a missing JSON key or a NULL column. */
  datatype Option<+T> = None | Some(value: T)

  /** `d.get(key, default)`: the stored value, or the default when absent. */
  function GetOr<T>(o: Option<T>, default: T): T {
    match o
    case Some(v) => v
    case None => default
  }

  /** Python truthiness of an optional string: present and non-empty. */
  predicate Truthy(s: Option<string>) {
    s.Some? && s.value != ""
  }

  predicate IsPrefix(prefix: string, s: string) {
    |prefix| <= |s| && s[..|prefix|] == prefix
  }

  /** Python's `needle in haystack` on strings. */
  predicate Contains(haystack: string, needle: string)
    decreases |haystack|
  {
    IsPrefix(needle, haystack) || (haystack != [] && Contains(haystack[1..], needle))
  }

  /** The needle occurs in the haystack starting at offset `i`. */
  predicate OccursAt(haystack: string, needle: string, i: nat) {
    i + |needle| <= |haystack| && haystack[i..i + |needle|] == needle
  }

  /** An occurrence of the needle at offset `i` makes `Contains` hold. */
  lemma {:induction false} ContainsAt(haystack: string, needle: string, i: nat)
    requires OccursAt(haystack, needle, i)
    ensures Contains(haystack, needle)
    decreases i
  {
    if i > 0 {
      assert haystack[1..][i - 1..i - 1 + |needle|] == haystack[i..i + |needle|];
      ContainsAt(haystack[1..], needle, i - 1);
    }
  }

  /** When `Contains` holds, the needle occurs at some offset. */
  lemma {:induction false} ContainsOffset(haystack: string, needle: string)
    requires Contains(haystack, needle)
    ensures exists i: nat :: OccursAt(haystack, needle, i)
    decreases |haystack|
  {
    if IsPrefix(needle, haystack) {
      assert OccursAt(haystack, needle, 0);
    } else {
      ContainsOffset(haystack[1..], needle);
      var i: nat :| OccursAt(haystack[1..], needle, i);
      assert haystack[i + 1..i + 1 + |needle|] == haystack[1..][i..i + |needle|];
      assert OccursAt(haystack, needle, i + 1);
    }
  }

  /** `Contains` is Python's `needle in haystack`: it holds exactly when the
      needle occurs at some offset of the haystack. */
  lemma ContainsMeaning(haystack: string, needle: string)
    ensures Contains(haystack, needle) <==> exists i: nat :: OccursAt(haystack, needle, i)
  {
    if Contains(haystack, needle) {
      ContainsOffset(haystack, needle);
    } else if i: nat :| OccursAt(haystack, needle, i) {
      ContainsAt(haystack, needle, i);
    }
  }

  /** One step of a fold that unions sets: `s` is `n` with `r` added, `n` is
      `m` with `a` added, so `s` is `m` with `a + r` added. */
  lemma UnionStep<K>(s: set<K>, n: set<K>, m: set<K>, a: set<K>, r: set<K>, u: set<K>)
    requires s == n + r && n == m + a && u == a + r
    ensures s == m + u
  {
  }

  /** A map whose keys include another's has at least as many entries. */
  lemma {:induction false} CardinalityGrows<K, V>(a: map<K, V>, b: map<K, V>)
    requires a.Keys <= b.Keys
    ensures |a| <= |b|
  {
    assert |a| == |a.Keys| && |b| == |b.Keys|;
    assert b.Keys == a.Keys + (b.Keys - a.Keys);
  }
}
