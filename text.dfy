/** The JavaScript string operations the core relies on, over `seq<char>`. */
module Text {
  import opened Wrappers

  /** The characters `String.prototype.trim` strips: ECMAScript WhiteSpace and LineTerminator. */
  predicate IsJsWhitespace(c: char)
  {
    c in JsWhitespaceChars || ('\U{2000}' <= c <= '\U{200A}')
  }

  /** The whitespace and line terminators outside the U+2000..U+200A block. */
  const JsWhitespaceChars: set<char> := {'\t', '\n', '\U{0B}', '\U{0C}', '\r', ' ', '\U{A0}', '\U{1680}',
    '\U{2028}', '\U{2029}', '\U{202F}', '\U{205F}', '\U{3000}', '\U{FEFF}'}

  /** The index of the first non-whitespace character at or after `i`, or `|s|` when there is none. */
  function SkipWhitespace(s: string, i: nat): (j: nat)
    requires i <= |s|
    ensures i <= j <= |s|
    ensures forall m :: i <= m < j ==> IsJsWhitespace(s[m])
    ensures j < |s| ==> !IsJsWhitespace(s[j])
    decreases |s| - i
  {
    if i < |s| && IsJsWhitespace(s[i]) then SkipWhitespace(s, i + 1) else i
  }

  /** Scanning back from `j`, no further than `lo`: the index just past the last non-whitespace character. */
  function BackOverWhitespace(s: string, lo: nat, j: nat): (e: nat)
    requires lo <= j <= |s|
    ensures lo <= e <= j
    ensures forall m :: e <= m < j ==> IsJsWhitespace(s[m])
    ensures e > lo ==> !IsJsWhitespace(s[e - 1])
    decreases j
  {
    if j > lo && IsJsWhitespace(s[j - 1]) then BackOverWhitespace(s, lo, j - 1) else j
  }

  /** `r` is the slice of `s` starting at `k`, and everything before and after it is whitespace. */
  predicate IsTrimmedSlice(s: string, r: string, k: int)
  {
    && 0 <= k && k + |r| <= |s| && r == s[k..k + |r|]
    && (forall i :: 0 <= i < k ==> IsJsWhitespace(s[i]))
    && (forall i :: k + |r| <= i < |s| ==> IsJsWhitespace(s[i]))
  }

  /** `s.trim()`: a contiguous slice of `s` that neither starts nor ends with whitespace,
      everything outside it being whitespace. */
  function Trim(s: string): (r: string)
    ensures exists k :: IsTrimmedSlice(s, r, k)
    ensures r == [] || (!IsJsWhitespace(r[0]) && !IsJsWhitespace(r[|r| - 1]))
  {
    var lo := SkipWhitespace(s, 0);
    var hi := BackOverWhitespace(s, lo, |s|);
    var r := s[lo..hi];
    assert IsTrimmedSlice(s, r, lo);
    r
  }

  /** `!s.trim()`: the string is empty once trimmed. */
  predicate IsBlank(s: string)
  {
    Trim(s) == []
  }

  /** A string is blank exactly when each of its characters is whitespace. */
  lemma BlankIffAllWhitespace(s: string)
    ensures IsBlank(s) <==> forall i :: 0 <= i < |s| ==> IsJsWhitespace(s[i])
  {
    if !IsBlank(s) {
      var r := Trim(s);
      var k :| IsTrimmedSlice(s, r, k);
      assert s[k] == r[0] && !IsJsWhitespace(s[k]);
    }
  }

  /** `c.toLowerCase()` for a single character, for ASCII and Latin-1 letters. */
  function ToLowerChar(c: char): (r: char)
  {
    if 'A' <= c <= 'Z' || ('\U{C0}' <= c <= '\U{DE}' && c != '\U{D7}') then (c as int + 32) as char else c
  }

  /** `s.toLowerCase()`, character by character. */
  function ToLower(s: string): (r: string)
    ensures |r| == |s| && forall i :: 0 <= i < |s| ==> r[i] == ToLowerChar(s[i])
    ensures forall i :: 0 <= i < |r| ==> !('A' <= r[i] <= 'Z')
  {
    seq(|s|, i requires 0 <= i < |s| => ToLowerChar(s[i]))
  }

  /** `n` occurs in `h` starting at index `i`. */
  predicate OccursAt(h: string, n: string, i: int)
  {
    0 <= i && i + |n| <= |h| && h[i..i + |n|] == n
  }

  /** An occurrence in `h` past its first character is an occurrence in `h[1..]`, one index earlier. */
  lemma OccursShift(h: string, n: string)
    requires |n| <= |h| && h[..|n|] != n
    ensures forall i :: OccursAt(h, n, i) ==> i >= 1 && OccursAt(h[1..], n, i - 1)
    ensures forall i :: OccursAt(h[1..], n, i) ==> OccursAt(h, n, i + 1)
  {
    forall i | OccursAt(h, n, i) ensures i >= 1 && OccursAt(h[1..], n, i - 1) {
      assert h[1..][i - 1..i - 1 + |n|] == h[i..i + |n|];
    }
    forall i | OccursAt(h[1..], n, i) ensures OccursAt(h, n, i + 1) {
      assert h[1..][i..i + |n|] == h[i + 1..i + 1 + |n|];
    }
  }

  /** `h.includes(n)`: `n` occurs somewhere in `h`. */
  function Contains(h: string, n: string): (r: bool)
    ensures r <==> exists i :: OccursAt(h, n, i)
    decreases |h|
  {
    if |n| > |h| then false
    else if h[..|n|] == n then (assert OccursAt(h, n, 0); true)
    else
      var r := Contains(h[1..], n);
      OccursShift(h, n);
      r
  }

  /** The empty string is included in every string. */
  lemma ContainsEmpty(h: string)
    ensures Contains(h, [])
  {
    assert OccursAt(h, [], 0);
  }

  /** `h.toLowerCase().includes(q.toLowerCase())`: case-insensitive substring search. */
  predicate IncludesIgnoringCase(h: string, q: string)
  {
    Contains(ToLower(h), ToLower(q))
  }

  /** An empty search term matches every text. */
  lemma EmptyQueryMatches(h: string)
    ensures IncludesIgnoringCase(h, "")
  {
    ContainsEmpty(ToLower(h));
  }

  /** The number of UTF-16 code units that encode `c`: two for a character outside the Basic
      Multilingual Plane (a surrogate pair), one otherwise. */
  function Utf16Units(c: char): nat
  {
    if c as int > 0xFFFF then 2 else 1
  }

  /** JavaScript's `s.length`: the length of `s` in UTF-16 code units. */
  function Utf16Length(s: string): (n: nat)
    ensures |s| <= n <= 2 * |s|
    ensures n == |s| <==> forall i :: 0 <= i < |s| ==> s[i] as int <= 0xFFFF
  {
    if s == [] then 0 else Utf16Units(s[0]) + Utf16Length(s[1..])
  }

  /** The length, in characters, of the longest prefix of `s` that fits in `budget` UTF-16 code units. */
  function Utf16Prefix(s: string, budget: nat): (k: nat)
    ensures k <= |s|
    ensures Utf16Length(s[..k]) <= budget
    ensures k < |s| ==> Utf16Length(s[..k]) + Utf16Units(s[k]) > budget
    ensures Utf16Length(s) <= budget ==> k == |s|
  {
    if s == [] || Utf16Units(s[0]) > budget then 0
    else
      var k := 1 + Utf16Prefix(s[1..], budget - Utf16Units(s[0]));
      assert s[..k][1..] == s[1..][..k - 1];
      assert k == |s| ==> s[..k] == s;
      k
  }

  /** `s.substring(0, 50) + "..."`: the snippet used as a log entry's target name. `substring` counts
      UTF-16 code units, so the kept prefix is the longest one of at most 50 units. */
  function Snippet(s: string): (r: string)
    ensures |r| >= 3 && r[|r| - 3..] == "..."
    ensures exists k :: 0 <= k <= |s| && r == s[..k] + "..."
    ensures Utf16Length(r) <= 53
    ensures Utf16Length(s) <= 50 ==> r == s + "..."
    ensures Utf16Length(s) > 50 ==> Utf16Length(r) >= 52
  {
    var k := Utf16Prefix(s, 50);
    var r := s[..k] + "...";
    Utf16LengthAppend(s[..k], "...");
    assert Utf16Length("...") == 3;
    assert k == |s| ==> s[..k] == s;
    r
  }

  /** Code units add up over concatenation. */
  lemma {:induction false} Utf16LengthAppend(a: string, b: string)
    ensures Utf16Length(a + b) == Utf16Length(a) + Utf16Length(b)
  {
    if a != [] {
      assert (a + b)[1..] == a[1..] + b;
      Utf16LengthAppend(a[1..], b);
    } else {
      assert a + b == b;
    }
  }

  /** `email.split('@')[0]`: everything before the first '@', or the whole text without one. */
  function LocalPart(email: string): (r: string)
    ensures |r| <= |email| && r == email[..|r|]
    ensures '@' !in r
    ensures |r| < |email| ==> email[|r|] == '@'
  {
    if email == [] || email[0] == '@' then [] else [email[0]] + LocalPart(email[1..])
  }

  /** `x || fallback` on an optional string: empty and absent both fall back. */
  function OrIfEmpty(x: Option<string>, fallback: string): (r: string)
    ensures r == fallback || (x.Some? && r == x.value && r != [])
    ensures x.Some? && x.value != [] ==> r == x.value
  {
    if x.Some? && x.value != [] then x.value else fallback
  }
}
