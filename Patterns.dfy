/**
 * The regular expressions of the two outline extractors, written as
 * predicates on strings. Each one reads its pattern deterministically:
 * wherever the pattern has a run such as `\d+` or `\s*`, the run that can
 * match is the maximal one, because the character that follows it in the
 * pattern (a dot, a blank, a letter, the end) can never be taken by the run.
 * `\d` is read as a Unicode decimal digit (`Text.IsDigit`), `\s` as Python's
 * whitespace, and the literal class `0-9` as the ASCII digits.
 */
module Patterns {
  import opened Text

  /** Length of the longest prefix of `s` whose characters all satisfy `p`. */
  function LeadingRun(s: string, p: char -> bool): (n: nat)
    ensures n <= |s|
    ensures forall i :: 0 <= i < n ==> p(s[i])
    ensures n < |s| ==> !p(s[n])
  {
    if s != [] && p(s[0]) then 1 + LeadingRun(s[1..], p) else 0
  }

  /** Length of the longest suffix of `s` whose characters all satisfy `p`. */
  function TrailingRun(s: string, p: char -> bool): (n: nat)
    ensures n <= |s|
    ensures forall i :: |s| - n <= i < |s| ==> p(s[i])
    ensures n < |s| ==> !p(s[|s| - n - 1])
  {
    if s != [] && p(s[|s| - 1]) then 1 + TrailingRun(s[..|s| - 1], p) else 0
  }

  predicate IsDot(c: char) { c == '.' }

  predicate AllDigits(s: string)
  {
    forall i :: 0 <= i < |s| ==> IsDigit(s[i])
  }

  /** `re.match(r'^\d+\.\s', s)`: a list number such as "3. ". */
  predicate StartsNumberedItem(s: string)
  {
    var n := LeadingRun(s, IsDigit);
    1 <= n && n + 1 < |s| && s[n] == '.' && IsSpace(s[n + 1])
  }

  /**
   * `re.match(r'^\d+(\.\d+){g-1}\s', s)` for `g` groups: "1.2 " has two
   * groups, "1.2.3.4 " four.
   */
  predicate DottedNumberThenSpace(s: string, groups: nat)
    requires groups >= 1
    decreases groups
  {
    var n := LeadingRun(s, IsDigit);
    1 <= n < |s| &&
    if groups == 1 then IsSpace(s[n]) else s[n] == '.' && DottedNumberThenSpace(s[n + 1..], groups - 1)
  }

  /** `re.match(r'^\d+(\.\d+)*\s', s)`: a section number of any depth, then whitespace. */
  predicate StartsSectionNumber(s: string)
    decreases |s|
  {
    var n := LeadingRun(s, IsDigit);
    1 <= n < |s| && (IsSpace(s[n]) || (s[n] == '.' && StartsSectionNumber(s[n + 1..])))
  }

  /** A number of every fixed depth is a section number. */
  lemma {:induction false} DottedNumberIsSectionNumber(s: string, groups: nat)
    requires groups >= 1 && DottedNumberThenSpace(s, groups)
    ensures StartsSectionNumber(s)
    decreases groups
  {
    if groups > 1 {
      var n := LeadingRun(s, IsDigit);
      DottedNumberIsSectionNumber(s[n + 1..], groups - 1);
    }
  }

  /** `re.match(r'^(Appendix\s[A-Z]|\d+)\.\s+', s)`: "Appendix B. " or "4. ". */
  predicate StartsChapterNumber(s: string)
  {
    StartsNumberedItem(s)
    || (|s| >= 12 && s[..8] == "Appendix" && IsSpace(s[8]) && IsUpperLetter(s[9]) && s[10] == '.' && IsSpace(s[11]))
  }

  predicate IsRevisionChar(c: char)
  {
    IsUpperLetter(c) || IsAsciiDigit(c) || IsSpace(c)
  }

  /**
   * `re.match(r'^\d\.\d\s+[A-Z0-9\s]+$', s)`: a version number, whitespace and
   * then only capitals, digits and whitespace (at least one character).
   * Because `\s` belongs to the class, the whitespace run can be one character.
   */
  predicate IsRevisionRow(s: string)
  {
    |s| >= 5 && IsDigit(s[0]) && s[1] == '.' && IsDigit(s[2]) && IsSpace(s[3])
    && forall i :: 4 <= i < |s| ==> IsRevisionChar(s[i])
  }

  /** `re.match(r'^\d\.\d\s', s)`. */
  predicate StartsMinorVersion(s: string)
  {
    |s| >= 4 && IsDigit(s[0]) && s[1] == '.' && IsDigit(s[2]) && IsSpace(s[3])
  }

  /** `s` ends with `\.{minDots,}\s*\d+`: dot leaders, optional whitespace, a page number. */
  predicate EndsWithLeader(s: string, minDots: nat)
  {
    var d := TrailingRun(s, IsDigit);
    var t := s[..|s| - d];
    var w := TrailingRun(t, IsSpace);
    d >= 1 && TrailingRun(t[..|t| - w], IsDot) >= minDots
  }

  /** `re.search(r'\.{minDots,}\s*\d+$', s)`; `$` also matches just before a final newline. */
  predicate HasLeaderAtEnd(s: string, minDots: nat)
  {
    EndsWithLeader(s, minDots) || (EndsWith(s, '\n') && EndsWithLeader(s[..|s| - 1], minDots))
  }

  /** `re.fullmatch(r'\d+', s)`. */
  predicate IsNumber(s: string)
  {
    |s| >= 1 && AllDigits(s)
  }

  /** Full match of `\s*of\s*\d+`, ignoring case. */
  predicate IsOfTotal(s: string)
  {
    var a := LeadingRun(s, IsSpace);
    var r := s[a..];
    |r| >= 2 && Lower(r[..2]) == "of" && IsNumber(r[2..][LeadingRun(r[2..], IsSpace)..])
  }

  /** Full match of `\s*\d+(\s*of\s*\d+)?`, ignoring case. */
  predicate IsPageNumberTail(s: string)
  {
    var a := LeadingRun(s, IsSpace);
    var r := s[a..];
    var d := LeadingRun(r, IsDigit);
    d >= 1 && (d == |r| || IsOfTotal(r[d..]))
  }

  /** `re.fullmatch(r'Page\s*\d+(\s*of\s*\d+)?', s, re.IGNORECASE)`: "Page 3", "page 3 of 10". */
  predicate IsPageFooter(s: string)
  {
    |s| >= 4 && Lower(s[..4]) == "page" && IsPageNumberTail(s[4..])
  }
}
