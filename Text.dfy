/**
 * Character classes and the text normalisation shared by both outline
 * extractors and by the section analyser: `clean_text` (repeated characters
 * squeezed, whitespace runs collapsed, ends trimmed), Python's `strip`,
 * `lower`, `isupper`, `split` (as a word count), `in` on strings and
 * `" ".join`.
 */
module Text {

  /** Whitespace as Python's `str.isspace` and the regular-expression class `\s` see it. */
  predicate IsSpace(c: char)
  {
    ('\t' <= c <= '\r') || ('\U{1C}' <= c <= '\U{1F}') || c == ' ' || c == '\U{85}' || c == '\U{A0}'
    || c == '\U{1680}' || ('\U{2000}' <= c <= '\U{200A}') || c == '\U{2028}' || c == '\U{2029}'
    || c == '\U{202F}' || c == '\U{205F}' || c == '\U{3000}'
  }

  /**
   * Python's `\d` on `str` patterns: a Unicode decimal digit (general
   * category Nd, Unicode 15.0), as the 64 ranges of that category.
   */
  predicate IsDigit(c: char)
  {
       ('\U{30}' <= c <= '\U{39}') || ('\U{660}' <= c <= '\U{669}') || ('\U{6F0}' <= c <= '\U{6F9}') || ('\U{7C0}' <= c <= '\U{7C9}')
    || ('\U{966}' <= c <= '\U{96F}') || ('\U{9E6}' <= c <= '\U{9EF}') || ('\U{A66}' <= c <= '\U{A6F}') || ('\U{AE6}' <= c <= '\U{AEF}')
    || ('\U{B66}' <= c <= '\U{B6F}') || ('\U{BE6}' <= c <= '\U{BEF}') || ('\U{C66}' <= c <= '\U{C6F}') || ('\U{CE6}' <= c <= '\U{CEF}')
    || ('\U{D66}' <= c <= '\U{D6F}') || ('\U{DE6}' <= c <= '\U{DEF}') || ('\U{E50}' <= c <= '\U{E59}') || ('\U{ED0}' <= c <= '\U{ED9}')
    || ('\U{F20}' <= c <= '\U{F29}') || ('\U{1040}' <= c <= '\U{1049}') || ('\U{1090}' <= c <= '\U{1099}') || ('\U{17E0}' <= c <= '\U{17E9}')
    || ('\U{1810}' <= c <= '\U{1819}') || ('\U{1946}' <= c <= '\U{194F}') || ('\U{19D0}' <= c <= '\U{19D9}') || ('\U{1A80}' <= c <= '\U{1A89}')
    || ('\U{1A90}' <= c <= '\U{1A99}') || ('\U{1B50}' <= c <= '\U{1B59}') || ('\U{1BB0}' <= c <= '\U{1BB9}') || ('\U{1C40}' <= c <= '\U{1C49}')
    || ('\U{1C50}' <= c <= '\U{1C59}') || ('\U{A620}' <= c <= '\U{A629}') || ('\U{A8D0}' <= c <= '\U{A8D9}') || ('\U{A900}' <= c <= '\U{A909}')
    || ('\U{A9D0}' <= c <= '\U{A9D9}') || ('\U{A9F0}' <= c <= '\U{A9F9}') || ('\U{AA50}' <= c <= '\U{AA59}') || ('\U{ABF0}' <= c <= '\U{ABF9}')
    || ('\U{FF10}' <= c <= '\U{FF19}') || ('\U{104A0}' <= c <= '\U{104A9}') || ('\U{10D30}' <= c <= '\U{10D39}') || ('\U{11066}' <= c <= '\U{1106F}')
    || ('\U{110F0}' <= c <= '\U{110F9}') || ('\U{11136}' <= c <= '\U{1113F}') || ('\U{111D0}' <= c <= '\U{111D9}') || ('\U{112F0}' <= c <= '\U{112F9}')
    || ('\U{11450}' <= c <= '\U{11459}') || ('\U{114D0}' <= c <= '\U{114D9}') || ('\U{11650}' <= c <= '\U{11659}') || ('\U{116C0}' <= c <= '\U{116C9}')
    || ('\U{11730}' <= c <= '\U{11739}') || ('\U{118E0}' <= c <= '\U{118E9}') || ('\U{11950}' <= c <= '\U{11959}') || ('\U{11C50}' <= c <= '\U{11C59}')
    || ('\U{11D50}' <= c <= '\U{11D59}') || ('\U{11DA0}' <= c <= '\U{11DA9}') || ('\U{11F50}' <= c <= '\U{11F59}') || ('\U{16A60}' <= c <= '\U{16A69}')
    || ('\U{16AC0}' <= c <= '\U{16AC9}') || ('\U{16B50}' <= c <= '\U{16B59}') || ('\U{1D7CE}' <= c <= '\U{1D7FF}') || ('\U{1E140}' <= c <= '\U{1E149}')
    || ('\U{1E2F0}' <= c <= '\U{1E2F9}') || ('\U{1E4F0}' <= c <= '\U{1E4F9}') || ('\U{1E950}' <= c <= '\U{1E959}') || ('\U{1FBF0}' <= c <= '\U{1FBF9}')
  }

  /** The ASCII digits `0`-`9`, as written inside a character class. */
  predicate IsAsciiDigit(c: char) { '0' <= c <= '9' }

  predicate IsUpperLetter(c: char) { 'A' <= c <= 'Z' }

  predicate IsLowerLetter(c: char) { 'a' <= c <= 'z' }

  function ToLower(c: char): (d: char)
    ensures !IsUpperLetter(d)
    ensures IsUpperLetter(c) ==> d as int == c as int + 32
    ensures !IsUpperLetter(c) ==> d == c
  {
    if IsUpperLetter(c) then (c as int + 32) as char else c
  }

  /** Python's `str.lower`, restricted to ASCII letters. */
  function Lower(s: string): (r: string)
    ensures |r| == |s|
    ensures forall i :: 0 <= i < |s| ==> r[i] == ToLower(s[i])
  {
    seq(|s|, i requires 0 <= i < |s| => ToLower(s[i]))
  }

  /** Python's `str.isupper`: some cased character, and no lower-case one. */
  predicate IsUpperText(s: string)
  {
    (exists i :: 0 <= i < |s| && IsUpperLetter(s[i])) && (forall i :: 0 <= i < |s| ==> !IsLowerLetter(s[i]))
  }

  /** Python's `sub in s`: `s` starts with `sub`, or its tail contains it. */
  predicate IsSubstring(sub: string, s: string)
    decreases |s|
  {
    sub <= s || (s != [] && IsSubstring(sub, s[1..]))
  }

  predicate OccursAt(sub: string, s: string, i: int)
  {
    0 <= i <= |s| - |sub| && s[i..i + |sub|] == sub
  }

  /** `sub in s` holds exactly when `sub` occurs in `s` at some position. */
  lemma {:induction false} IsSubstringOccurs(sub: string, s: string)
    ensures IsSubstring(sub, s) <==> exists i :: OccursAt(sub, s, i)
    decreases |s|
  {
    if sub <= s {
      assert OccursAt(sub, s, 0);
    } else if s != [] {
      IsSubstringOccurs(sub, s[1..]);
      if IsSubstring(sub, s[1..]) {
        var j :| OccursAt(sub, s[1..], j);
        assert s[1..][j..j + |sub|] == s[j + 1..j + 1 + |sub|];
        assert OccursAt(sub, s, j + 1);
      }
      if i :| OccursAt(sub, s, i) {
        assert i != 0;
        assert s[1..][i - 1..i - 1 + |sub|] == s[i..i + |sub|];
        assert OccursAt(sub, s[1..], i - 1);
      }
    }
  }

  predicate EndsWith(s: string, c: char)
  {
    |s| > 0 && s[|s| - 1] == c
  }

  // ---------------------------------------------------------------------
  // Shapes of normalised text
  // ---------------------------------------------------------------------

  predicate NoAdjacentRepeats(s: string)
  {
    forall i :: 0 <= i < |s| - 1 ==> s[i] != s[i + 1]
  }

  /** Every whitespace character is a plain blank. */
  predicate SpacesAreBlanks(s: string)
  {
    forall i :: 0 <= i < |s| && IsSpace(s[i]) ==> s[i] == ' '
  }

  predicate NoAdjacentSpaces(s: string)
  {
    forall i :: 0 <= i < |s| - 1 ==> !(IsSpace(s[i]) && IsSpace(s[i + 1]))
  }

  /** No leading and no trailing whitespace. */
  predicate Trimmed(s: string)
  {
    |s| > 0 ==> !IsSpace(s[0]) && !IsSpace(s[|s| - 1])
  }

  /** What `re.sub(r'\s+', ' ', s).strip()` leaves: every whitespace run is one blank, none at the ends. */
  predicate IsSingleSpaced(s: string)
  {
    SpacesAreBlanks(s) && NoAdjacentSpaces(s) && Trimmed(s)
  }

  /** What `clean_text` leaves: single-spaced and no two equal neighbours. */
  predicate IsClean(s: string)
  {
    IsSingleSpaced(s) && NoAdjacentRepeats(s)
  }

  // ---------------------------------------------------------------------
  // clean_text and its parts
  // ---------------------------------------------------------------------

  /** `''.join(c for c, _ in itertools.groupby(s))`: one character per run of equal characters. */
  function Squeeze(s: string): (r: string)
    ensures NoAdjacentRepeats(r)
    ensures |r| <= |s|
    ensures |s| > 0 ==> |r| > 0 && r[0] == s[0]
    ensures NoAdjacentRepeats(s) ==> r == s
  {
    if |s| <= 1 then s
    else if s[0] == s[1] then Squeeze(s[1..])
    else [s[0]] + Squeeze(s[1..])
  }

  /** `re.sub(r'\s+', ' ', s)`: each maximal whitespace run becomes one blank. */
  function Collapse(s: string): (r: string)
    ensures SpacesAreBlanks(r) && NoAdjacentSpaces(r)
    ensures |r| <= |s|
    ensures |s| > 0 ==> |r| > 0 && r[0] == (if IsSpace(s[0]) then ' ' else s[0])
    ensures NoAdjacentRepeats(s) ==> NoAdjacentRepeats(r)
    ensures SpacesAreBlanks(s) && NoAdjacentSpaces(s) ==> r == s
  {
    if s == [] then []
    else if IsSpace(s[0]) then
      if |s| > 1 && IsSpace(s[1]) then Collapse(s[1..]) else [' '] + Collapse(s[1..])
    else [s[0]] + Collapse(s[1..])
  }

  /** Python's `str.strip()`: whitespace dropped from both ends. */
  function Strip(s: string): (r: string)
    ensures Trimmed(r)
    ensures |r| <= |s|
    ensures Trimmed(s) ==> r == s
    decreases |s|
  {
    if s != [] && IsSpace(s[0]) then Strip(s[1..])
    else if s != [] && IsSpace(s[|s| - 1]) then Strip(s[..|s| - 1])
    else s
  }

  /** The number of leading characters `strip` drops. */
  function StripOffset(s: string): nat
    decreases |s|
  {
    if s != [] && IsSpace(s[0]) then 1 + StripOffset(s[1..])
    else if s != [] && IsSpace(s[|s| - 1]) then StripOffset(s[..|s| - 1])
    else 0
  }

  /** `s.strip()` is the infix of `s` that starts after the dropped leading whitespace. */
  lemma {:induction false} StripIsInfix(s: string)
    ensures var k, r := StripOffset(s), Strip(s); k + |r| <= |s| && forall i :: 0 <= i < |r| ==> r[i] == s[k + i]
    decreases |s|
  {
    if s != [] && IsSpace(s[0]) {
      StripIsInfix(s[1..]);
    } else if s != [] && IsSpace(s[|s| - 1]) {
      StripIsInfix(s[..|s| - 1]);
    }
  }

  /** Only whitespace: what `strip()` turns into the empty string. */
  predicate IsBlank(s: string)
  {
    forall i :: 0 <= i < |s| ==> IsSpace(s[i])
  }

  /** `s.strip()` is empty exactly when `s` is blank. */
  lemma {:induction false} StripEmptyIffBlank(s: string)
    ensures Strip(s) == [] <==> IsBlank(s)
    decreases |s|
  {
    if s != [] && IsSpace(s[0]) {
      StripEmptyIffBlank(s[1..]);
      assert IsBlank(s) <==> IsBlank(s[1..]) by {
        assert forall i :: 0 < i < |s| ==> s[i] == s[1..][i - 1];
      }
    } else if s != [] && IsSpace(s[|s| - 1]) {
      StripEmptyIffBlank(s[..|s| - 1]);
      assert IsBlank(s) <==> IsBlank(s[..|s| - 1]) by {
        assert forall i :: 0 <= i < |s| - 1 ==> s[i] == s[..|s| - 1][i];
      }
    }
  }

  lemma InfixKeepsShape(s: string, t: string, k: int)
    requires 0 <= k && k + |t| <= |s|
    requires forall i :: 0 <= i < |t| ==> t[i] == s[k + i]
    ensures NoAdjacentRepeats(s) ==> NoAdjacentRepeats(t)
    ensures SpacesAreBlanks(s) ==> SpacesAreBlanks(t)
    ensures NoAdjacentSpaces(s) ==> NoAdjacentSpaces(t)
  {
  }

  lemma StripKeepsShape(s: string)
    ensures NoAdjacentRepeats(s) ==> NoAdjacentRepeats(Strip(s))
    ensures SpacesAreBlanks(s) && NoAdjacentSpaces(s) ==> IsSingleSpaced(Strip(s))
  {
    var r := Strip(s);
    var k := StripOffset(s);
    StripIsInfix(s);
    InfixKeepsShape(s, r, k);
    assert Trimmed(r);
  }

  /** `re.sub(r'\s+', ' ', s).strip()`. */
  function NormalizeSpace(s: string): (r: string)
    ensures IsSingleSpaced(r)
    ensures NoAdjacentRepeats(s) ==> NoAdjacentRepeats(r)
    ensures IsSingleSpaced(s) ==> r == s
  {
    var c := Collapse(s);
    StripKeepsShape(c);
    Strip(c)
  }

  /** `clean_text`: squeeze repeated characters, then normalise whitespace. */
  function CleanText(s: string): (r: string)
    ensures IsClean(r)
    ensures |r| <= |s|
  {
    NormalizeSpace(Squeeze(s))
  }

  /** Text that is already clean is left as it is. */
  lemma CleanTextFixesCleanText(t: string)
    requires IsClean(t)
    ensures CleanText(t) == t
  {
  }

  /** `clean_text` is idempotent. */
  lemma CleanTextIdempotent(s: string)
    ensures CleanText(CleanText(s)) == CleanText(s)
  {
    CleanTextFixesCleanText(CleanText(s));
  }

  // ---------------------------------------------------------------------
  // split and join
  // ---------------------------------------------------------------------

  /** Number of maximal non-whitespace runs that start in `s`, given whether the character before `s` was whitespace. */
  function CountWordStarts(s: string, afterSpace: bool): nat
  {
    if s == [] then 0
    else (if afterSpace && !IsSpace(s[0]) then 1 else 0) + CountWordStarts(s[1..], IsSpace(s[0]))
  }

  /** `len(s.split())`. */
  function WordCount(s: string): nat
  {
    CountWordStarts(s, true)
  }

  /** `sep.join(parts)`. */
  function JoinWith(sep: string, parts: seq<string>): (r: string)
    ensures parts == [] ==> r == []
    ensures |parts| == 1 ==> r == parts[0]
  {
    if parts == [] then []
    else if |parts| == 1 then parts[0]
    else parts[0] + sep + JoinWith(sep, parts[1..])
  }

  /** Sum of the lengths of the strings. */
  function TotalLength(parts: seq<string>): nat
  {
    if parts == [] then 0 else TotalLength(parts[..|parts| - 1]) + |parts[|parts| - 1]|
  }
}
