/** The PHP built-ins the autoloader relies on, restated for the values it
    gives them: strings and string-keyed arrays. */
module Php {

  /** A string is falsy in PHP (`empty($s)`, `!$s`, `if ($s = ...)`) exactly
      when it is the empty string or the string "0". */
  predicate Falsy(s: string)
    ensures Falsy(s) ==> |s| <= 1
    ensures |s| == 0 ==> Falsy(s)
    ensures |s| == 1 ==> (Falsy(s) <==> s[0] == '0')
  {
    s == "" || s == "0"
  }

  /** `rtrim($s, $c)` with a one-character mask: every trailing `c` is dropped.
      The result is the longest prefix of `s` that does not end in `c` and
      after which `s` holds nothing but `c`. */
  function RTrim(s: string, c: char): (r: string)
    ensures |r| <= |s| && r == s[..|r|]
    ensures forall i :: |r| <= i < |s| ==> s[i] == c
    ensures r == [] || r[|r| - 1] != c
    decreases |s|
  {
    if s != [] && s[|s| - 1] == c then RTrim(s[..|s| - 1], c) else s
  }

  /** `n` copies of the character `c`. */
  function Repeat(c: char, n: nat): (r: string)
    ensures |r| == n && forall i :: 0 <= i < n ==> r[i] == c
  {
    seq(n, _ => c)
  }

  /** The contract of RTrim pins its result down: any prefix with the same
      three properties is RTrim's result. */
  lemma RTrimUnique(s: string, c: char, r: string)
    requires |r| <= |s| && r == s[..|r|]
    requires forall i :: |r| <= i < |s| ==> s[i] == c
    requires r == [] || r[|r| - 1] != c
    ensures r == RTrim(s, c)
  {
  }

  /** PHP's rtrim strips exactly the trailing separators: whatever was removed
      is a run of `c`. */
  lemma RTrimRemovesOnlyMask(s: string, c: char)
    ensures s == RTrim(s, c) + Repeat(c, |s| - |RTrim(s, c)|)
  {
  }

  /** Trimming twice is trimming once. */
  lemma RTrimIdempotent(s: string, c: char)
    ensures RTrim(RTrim(s, c), c) == RTrim(s, c)
  {
  }

  /** Any number of trailing separators trims to the same string. */
  lemma {:induction false} RTrimIgnoresTrailingRun(s: string, c: char, n: nat)
    ensures RTrim(s + Repeat(c, n), c) == RTrim(s, c)
    decreases n
  {
    if n == 0 {
      assert s + Repeat(c, 0) == s;
    } else {
      var t := s + Repeat(c, n);
      assert t[|t| - 1] == c;
      assert t[..|t| - 1] == s + Repeat(c, n - 1);
      RTrimIgnoresTrailingRun(s, c, n - 1);
    }
  }

  /** `array_merge($a, $b)` on arrays whose keys are all non-numeric strings:
      every key of either array is present, a key of `b` takes `b`'s value,
      every other key keeps `a`'s value (last write wins). */
  function ArrayMerge<V>(a: map<string, V>, b: map<string, V>): (r: map<string, V>)
    ensures r.Keys == a.Keys + b.Keys
    ensures forall k :: k in b ==> r[k] == b[k]
    ensures forall k :: k in a && k !in b ==> r[k] == a[k]
  {
    a + b
  }

  /** Merging an empty array changes nothing. */
  lemma ArrayMergeEmpty<V>(a: map<string, V>)
    ensures ArrayMerge(a, map[]) == a
  {
  }

  /** Two merges in a row are one merge with the merged arguments. */
  lemma ArrayMergeAssociative<V>(a: map<string, V>, b: map<string, V>, c: map<string, V>)
    ensures ArrayMerge(ArrayMerge(a, b), c) == ArrayMerge(a, ArrayMerge(b, c))
  {
  }
}
