/** The string primitives the pages rely on: blank tests (`trim`), lower-casing,
    substring search and prefix tests. Whitespace and letter case are those of
    ASCII. */
module Text {

  predicate IsWhitespace(c: char)
  {
    c == ' ' || c == '\t' || c == '\n' || c == '\r' || c == '\U{0B}' || c == '\U{0C}'
  }

  /** `!s.trim()`: the text is empty once surrounding whitespace is removed. */
  predicate IsBlank(s: string)
  {
    forall i :: 0 <= i < |s| ==> IsWhitespace(s[i])
  }

  predicate IsCapital(c: char)
  {
    'A' <= c <= 'Z'
  }

  /** A capital becomes the same letter in lower case; nothing else changes,
      so no capital is left. */
  function LowerChar(c: char): (d: char)
    ensures !IsCapital(d)
    ensures IsCapital(c) ==> 'a' <= d <= 'z' && d as int - 'a' as int == c as int - 'A' as int
    ensures !IsCapital(c) ==> d == c
  {
    if 'A' <= c <= 'Z' then (c as int + 32) as char else c
  }

  /** `toLowerCase`: position by position, capitals become lower case and
      every other character stays; a text without capitals is unchanged. */
  function ToLower(s: string): (r: string)
    ensures |r| == |s|
    ensures forall i :: 0 <= i < |r| ==> !IsCapital(r[i])
    ensures forall i :: 0 <= i < |s| && !IsCapital(s[i]) ==> r[i] == s[i]
    ensures forall i :: 0 <= i < |s| && IsCapital(s[i]) ==> r[i] as int - 'a' as int == s[i] as int - 'A' as int
    ensures (forall i :: 0 <= i < |s| ==> !IsCapital(s[i])) ==> r == s
  {
    seq(|s|, i requires 0 <= i < |s| => LowerChar(s[i]))
  }

  /** `a.toLowerCase() === b.toLowerCase()`. */
  predicate EqualsIgnoreCase(a: string, b: string)
  {
    ToLower(a) == ToLower(b)
  }

  /** `s.startsWith(prefix)`. */
  predicate StartsWith(s: string, prefix: string)
  {
    |prefix| <= |s| && s[..|prefix|] == prefix
  }

  /** `s.includes(part)`: `part` starts at some position of `s`. */
  predicate Contains(s: string, part: string)
    decreases |s|
  {
    StartsWith(s, part) || (s != [] && Contains(s[1..], part))
  }

  /** Lower-casing twice is lower-casing once. */
  lemma ToLowerIdempotent(s: string)
    ensures ToLower(ToLower(s)) == ToLower(s)
  {
    forall i | 0 <= i < |s| ensures ToLower(ToLower(s))[i] == ToLower(s)[i] {
      assert ToLower(s)[i] == LowerChar(s[i]);
    }
  }

  /** An occurrence of `part` at position `k` makes `s` contain it. */
  lemma {:induction false} ContainsAt(s: string, part: string, k: nat)
    requires k <= |s| && StartsWith(s[k..], part)
    ensures Contains(s, part)
    decreases k
  {
    if k > 0 {
      assert s[1..][k - 1..] == s[k..];
      ContainsAt(s[1..], part, k - 1);
    } else {
      assert s[0..] == s;
    }
  }

  /** `part` starts at position `k` of `s`. */
  predicate OccursAt(s: string, part: string, k: int)
  {
    0 <= k <= |s| && StartsWith(s[k..], part)
  }

  /** A text that contains `part` holds it at some position. */
  lemma {:induction false} ContainsFound(s: string, part: string)
    requires Contains(s, part)
    ensures exists k :: OccursAt(s, part, k)
    decreases |s|
  {
    if StartsWith(s, part) {
      assert s[0..] == s;
      assert OccursAt(s, part, 0);
    } else {
      ContainsFound(s[1..], part);
      var k :| OccursAt(s[1..], part, k);
      assert s[1..][k..] == s[k + 1..];
      assert OccursAt(s, part, k + 1);
    }
  }

  /** `includes` exactly: `part` occurs at some position of `s`. */
  lemma ContainsIff(s: string, part: string)
    ensures Contains(s, part) <==> exists k :: OccursAt(s, part, k)
  {
    if Contains(s, part) {
      ContainsFound(s, part);
    }
    if exists k :: OccursAt(s, part, k) {
      var k :| OccursAt(s, part, k);
      ContainsAt(s, part, k);
    }
  }

  /** A text lacking one of the characters of `part` does not contain it. */
  lemma LackingCharNotContained(s: string, part: string, i: nat)
    requires i < |part|
    requires forall j :: 0 <= j < |s| ==> s[j] != part[i]
    ensures !Contains(s, part)
  {
    forall k | 0 <= k <= |s| ensures !OccursAt(s, part, k) {
      if k + i < |s| {
        assert s[k..][i] == s[k + i];
      }
    }
    ContainsIff(s, part);
  }
}
