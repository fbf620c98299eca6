/**
 * The rank-based outline extractor (ext2.py). The four largest distinct
 * character sizes of the document are the heading thresholds; the title is
 * the text of the largest-size words of the first page; a line becomes a
 * heading when a list of rejection rules lets it through and either its
 * numbering or its style and size give it a level.
 *
 * The PDF library's output is the input here: each page brings its
 * characters, its words and its text lines. Character sizes are rounded to
 * hundredths of a point (ext2.py:75, 127), so they are integers in
 * hundredths; word sizes are unrounded reals in points; `y0` arrives rounded
 * to a whole point.
 */
module RankOutline {
  import opened Text
  import opened Patterns
  import opened Collections
  import opened Outline

  /** One entry of `page.chars`: text, size in hundredths of a point, font name. */
  datatype Glyph = Glyph(text: string, size: nat, fontName: string)

  /** One word of `extract_words`: text, size in points, rounded `y0`. */
  datatype Word = Word(text: string, size: real, y0: int)

  /** One line of `extract_text_lines`: its text and its characters. */
  datatype TextLine = TextLine(text: string, chars: seq<Glyph>)

  datatype Page = Page(chars: seq<Glyph>, words: seq<Word>, lines: seq<TextLine>)

  /** The four heading thresholds, in hundredths of a point; a missing rank is 0. */
  datatype FontStats = FontStats(h1: int, h2: int, h3: int, h4: int)

  // ---------------------------------------------------------------------
  // Phase 1: font statistics
  // ---------------------------------------------------------------------

  /** The sizes of the characters of each page. */
  function CharSizes(pages: seq<Page>): seq<seq<int>>
  {
    seq(|pages|, p requires 0 <= p < |pages| =>
      seq(|pages[p].chars|, c requires 0 <= c < |pages[p].chars| => pages[p].chars[c].size as int))
  }

  /** `sorted_sizes[k] if len(sorted_sizes) > k else 0`. */
  function RankOr0(sorted: seq<int>, k: nat): int
  {
    if k < |sorted| then sorted[k] else 0
  }

  function StatsFromSorted(sorted: seq<int>): FontStats
  {
    FontStats(RankOr0(sorted, 0), RankOr0(sorted, 1), RankOr0(sorted, 2), RankOr0(sorted, 3))
  }

  function Threshold(stats: FontStats, k: nat): int
    requires k < 4
  {
    if k == 0 then stats.h1 else if k == 1 then stats.h2 else if k == 2 then stats.h3 else stats.h4
  }

  /** The distinct character sizes of the document, largest first. */
  function SortedSizes(pages: seq<Page>): (r: seq<int>)
    ensures StrictlyDescending(r)
    ensures forall i :: 0 <= i < |r| ==> r[i] in Flatten(CharSizes(pages))
    ensures forall i :: 0 <= i < |Flatten(CharSizes(pages))| ==> Flatten(CharSizes(pages))[i] in r
  {
    Descending(FirstSeen(Flatten(CharSizes(pages))))
  }

  function StatsOf(pages: seq<Page>): FontStats
  {
    StatsFromSorted(SortedSizes(pages))
  }

  /**
   * Phase 1: the size histogram over every character of every page, its
   * keys sorted largest first, and the first four of them.
   */
  method GatherFontStats(pages: seq<Page>) returns (stats: FontStats)
    ensures stats == StatsOf(pages)
  {
    var fontSizes, order := CountOccurrences(CharSizes(pages));
    var sortedSizes := Descending(order);
    stats := FontStats(RankOr0(sortedSizes, 0), RankOr0(sortedSizes, 1), RankOr0(sortedSizes, 2), RankOr0(sortedSizes, 3));
  }

  /** Element `i` of the flattened sizes is the size of some character. */
  lemma SizesAreNonNegative(pages: seq<Page>)
    ensures forall i :: 0 <= i < |SortedSizes(pages)| ==> SortedSizes(pages)[i] >= 0
  {
    var g := CharSizes(pages);
    forall n | 0 <= n <= |g| ensures forall i :: 0 <= i < |Flatten(g[..n])| ==> Flatten(g[..n])[i] >= 0 {
      FlattenNonNegative(g, n);
    }
    assert g[..|g|] == g;
  }

  lemma {:induction false} FlattenNonNegative(g: seq<seq<int>>, n: nat)
    requires n <= |g|
    requires forall p, c :: 0 <= p < |g| && 0 <= c < |g[p]| ==> g[p][c] >= 0
    ensures forall i :: 0 <= i < |Flatten(g[..n])| ==> Flatten(g[..n])[i] >= 0
  {
    if n > 0 {
      FlattenNonNegative(g, n - 1);
      assert g[..n][..n - 1] == g[..n - 1];
    }
  }

  /** The thresholds never increase from H1 to H4. */
  lemma ThresholdsOrdered(pages: seq<Page>)
    ensures StatsOf(pages).h1 >= StatsOf(pages).h2 >= StatsOf(pages).h3 >= StatsOf(pages).h4
  {
    SizesAreNonNegative(pages);
  }

  /**
   * Threshold `k` (0 for H1) is the (k+1)-th largest distinct character size:
   * a size that occurs, exceeded only by the thresholds before it; without
   * that many distinct sizes it is 0.
   */
  lemma ThresholdsAreRankedSizes(pages: seq<Page>, k: nat)
    requires k < 4
    ensures var sizes, t := Flatten(CharSizes(pages)), Threshold(StatsOf(pages), k);
      if k < |SortedSizes(pages)| then
        t in sizes && forall i :: 0 <= i < |sizes| && sizes[i] > t ==> sizes[i] in SortedSizes(pages)[..k]
      else t == 0
  {
    var sorted := SortedSizes(pages);
    if k < |sorted| {
      DescendingRank(sorted, Flatten(CharSizes(pages)), k);
    }
  }

  // ---------------------------------------------------------------------
  // Heading filter and levels
  // ---------------------------------------------------------------------

  /**
   * `is_likely_heading`: the rejection rules in the order the source tries
   * them; a line that no rule rejects is accepted.
   */
  predicate IsLikelyHeading(lineText: string, fontSize: int, isBold: bool, stats: FontStats, wordCount: nat)
  {
    if |lineText| < 3 then false
    else if HasLeaderAtEnd(lineText, 4) then false
    else if wordCount > 12 || EndsWith(lineText, ',') then false
    else if IsRevisionRow(lineText) then false
    else if StartsNumberedItem(lineText) && wordCount > 8 then false
    else if IsUpperText(lineText) && wordCount > 1 && fontSize < stats.h2 then false
    else if IsPageFooter(lineText) || IsNumber(lineText) then false
    else if StartsNumberedItem(lineText) && !isBold && fontSize < stats.h2 then false
    else true
  }

  /** Rule 1: text shorter than three characters is never a heading, whatever its size and weight. */
  lemma ShortTextRejected(lineText: string, fontSize: int, isBold: bool, stats: FontStats, wordCount: nat)
    requires |lineText| < 3
    ensures !IsLikelyHeading(lineText, fontSize, isBold, stats, wordCount)
  {
  }

  /**
   * What an accepted line looks like: all the rejection rules read as
   * properties of the lines that pass.
   */
  lemma AcceptedLineShape(lineText: string, fontSize: int, isBold: bool, stats: FontStats, wordCount: nat)
    requires IsLikelyHeading(lineText, fontSize, isBold, stats, wordCount)
    ensures |lineText| >= 3 && wordCount <= 12 && !EndsWith(lineText, ',')
    ensures !HasLeaderAtEnd(lineText, 4) && !IsRevisionRow(lineText)
    ensures StartsNumberedItem(lineText) ==> wordCount <= 8 && (isBold || fontSize >= stats.h2)
    ensures IsUpperText(lineText) && wordCount > 1 ==> fontSize >= stats.h2
    ensures !IsPageFooter(lineText) && !IsNumber(lineText)
  {
  }

  /** Conversely, a line with all those properties is accepted. */
  lemma ShapeIsAccepted(lineText: string, fontSize: int, isBold: bool, stats: FontStats, wordCount: nat)
    requires |lineText| >= 3 && wordCount <= 12 && !EndsWith(lineText, ',')
    requires !HasLeaderAtEnd(lineText, 4) && !IsRevisionRow(lineText)
    requires StartsNumberedItem(lineText) ==> wordCount <= 8 && (isBold || fontSize >= stats.h2)
    requires IsUpperText(lineText) && wordCount > 1 ==> fontSize >= stats.h2
    requires !IsPageFooter(lineText) && !IsNumber(lineText)
    ensures IsLikelyHeading(lineText, fontSize, isBold, stats, wordCount)
  {
  }

  /** The size fallback: the first of H1, H2, H3 whose threshold the size reaches within 90%. */
  function FallbackLevel(fontSize: int, stats: FontStats): Option<nat>
  {
    if 10 * fontSize >= 9 * stats.h1 then Some(1)
    else if 10 * fontSize >= 9 * stats.h2 then Some(2)
    else if 10 * fontSize >= 9 * stats.h3 then Some(3)
    else None
  }

  /**
   * The level of an accepted line: the numbering patterns from H4 down to
   * H1 first; for an unnumbered line that is bold or upper-case, its size.
   */
  function LevelOf(lineText: string, fontSize: int, isBold: bool, stats: FontStats): Option<nat>
  {
    if DottedNumberThenSpace(lineText, 4) then Some(4)
    else if DottedNumberThenSpace(lineText, 3) then Some(3)
    else if DottedNumberThenSpace(lineText, 2) then Some(2)
    else if StartsChapterNumber(lineText) then Some(1)
    else if isBold || IsUpperText(lineText) then FallbackLevel(fontSize, stats)
    else None
  }

  predicate IsNumberedHeading(s: string)
  {
    DottedNumberThenSpace(s, 4) || DottedNumberThenSpace(s, 3) || DottedNumberThenSpace(s, 2) || StartsChapterNumber(s)
  }

  /** A dotted number has one depth only: "1.2 " is two groups deep and no other depth. */
  lemma {:induction false} NumberDepthIsUnique(s: string, g1: nat, g2: nat)
    requires 1 <= g1 && 1 <= g2
    requires DottedNumberThenSpace(s, g1) && DottedNumberThenSpace(s, g2)
    ensures g1 == g2
    decreases g1
  {
    var n := LeadingRun(s, IsDigit);
    if g1 > 1 && g2 > 1 {
      NumberDepthIsUnique(s[n + 1..], g1 - 1, g2 - 1);
    }
  }

  /** A number with two or more groups is not a "digits. " list number. */
  lemma DeepNumberIsNotListNumber(s: string, g: nat)
    requires g >= 2 && DottedNumberThenSpace(s, g)
    ensures !StartsNumberedItem(s)
  {
    var n := LeadingRun(s, IsDigit);
    var m := LeadingRun(s[n + 1..], IsDigit);
    assert s[n + 1..][0] == s[n + 1];
  }

  /**
   * The numbering patterns exclude each other, so the H4-first order of the
   * checks decides nothing: a numbered line's level is its numbering depth.
   */
  lemma NumberedLevel(lineText: string, fontSize: int, isBold: bool, stats: FontStats, g: nat)
    requires 2 <= g <= 4 && DottedNumberThenSpace(lineText, g)
    ensures LevelOf(lineText, fontSize, isBold, stats) == Some(g)
  {
    if g < 4 && DottedNumberThenSpace(lineText, 4) { NumberDepthIsUnique(lineText, g, 4); }
    if g < 3 && DottedNumberThenSpace(lineText, 3) { NumberDepthIsUnique(lineText, g, 3); }
  }

  /** Every level is one of H1 to H4, and H4 comes only from a four-group number. */
  lemma LevelRange(lineText: string, fontSize: int, isBold: bool, stats: FontStats)
    ensures var l := LevelOf(lineText, fontSize, isBold, stats);
      l.Some? ==> 1 <= l.value <= 4 && (l.value == 4 <==> DottedNumberThenSpace(lineText, 4))
  {
  }

  /** An unnumbered line that is neither bold nor upper-case gets no level. */
  lemma PlainUnnumberedHasNoLevel(lineText: string, fontSize: int, isBold: bool, stats: FontStats)
    requires !IsNumberedHeading(lineText) && !isBold && !IsUpperText(lineText)
    ensures LevelOf(lineText, fontSize, isBold, stats) == None
  {
  }

  /**
   * With ordered thresholds the size fallback is monotone: a larger size
   * never gets a deeper level, and never loses its level.
   */
  lemma FallbackMonotone(s1: int, s2: int, stats: FontStats)
    requires stats.h1 >= stats.h2 >= stats.h3 && s1 <= s2
    requires FallbackLevel(s1, stats).Some?
    ensures FallbackLevel(s2, stats).Some?
    ensures FallbackLevel(s2, stats).value <= FallbackLevel(s1, stats).value
  {
  }

  // ---------------------------------------------------------------------
  // Phase 3: headings
  // ---------------------------------------------------------------------

  /**
   * `next((c for c in chars if c['text'].strip()), None)`, as a position;
   * `|chars|` for none. A text strips to nothing exactly when it is blank
   * (`Text.StripEmptyIffBlank`).
   */
  function FirstInkIndex(chars: seq<Glyph>): (i: nat)
    ensures i <= |chars|
    ensures forall j :: 0 <= j < i ==> IsBlank(chars[j].text)
    ensures i < |chars| ==> !IsBlank(chars[i].text)
  {
    if chars == [] || !IsBlank(chars[0].text) then 0 else 1 + FirstInkIndex(chars[1..])
  }

  /** What one text line contributes to the outline. */
  function HeadingOfLine(line: TextLine, pageNo: PageNo, stats: FontStats): Option<Entry>
  {
    var lineText := CleanText(line.text);
    var k := FirstInkIndex(line.chars);
    if k == |line.chars| then None
    else
      var c := line.chars[k];
      if !IsLikelyHeading(lineText, c.size, IsBoldFont(c.fontName), stats, WordCount(lineText)) then None
      else
        match LevelOf(lineText, c.size, IsBoldFont(c.fontName), stats)
        case None => None
        case Some(l) => Some(Entry(l, lineText, pageNo))
  }

  /** The headings of the given lines of page `pageNo`, in line order. */
  function LineHeadings(lines: seq<TextLine>, pageNo: PageNo, stats: FontStats): seq<Entry>
  {
    if lines == [] then []
    else LineHeadings(lines[..|lines| - 1], pageNo, stats) + OptionToSeq(HeadingOfLine(lines[|lines| - 1], pageNo, stats))
  }

  /** The headings of the first `n` pages, page after page. */
  function PageHeadings(pages: seq<Page>, stats: FontStats, n: nat): seq<Entry>
    requires n <= |pages|
  {
    if n == 0 then [] else PageHeadings(pages, stats, n - 1) + LineHeadings(pages[n - 1].lines, n, stats)
  }

  /** One pass of the inner loop: the heading a line gives, if any. */
  method ClassifyLine(line: TextLine, pageNum: PageNo, stats: FontStats) returns (entry: Option<Entry>)
    ensures entry == HeadingOfLine(line, pageNum, stats)
  {
    var lineText := CleanText(line.text);
    var lineWordCount := WordCount(lineText);
    var k := FirstInkIndex(line.chars);
    if k == |line.chars| {
      return None;
    }
    var fontSize := line.chars[k].size;
    var isBold := IsBoldFont(line.chars[k].fontName);
    if !IsLikelyHeading(lineText, fontSize, isBold, stats, lineWordCount) {
      return None;
    }
    var currentLevel := LevelOf(lineText, fontSize, isBold, stats);
    if currentLevel.Some? {
      entry := Some(Entry(currentLevel.value, lineText, pageNum));
    } else {
      entry := None;
    }
  }

  /** The inner loop of phase 3, over the lines of one page. */
  method CollectLineHeadings(lines: seq<TextLine>, pageNum: PageNo, stats: FontStats) returns (found: seq<Entry>)
    ensures found == LineHeadings(lines, pageNum, stats)
  {
    found := [];
    for i := 0 to |lines|
      invariant found == LineHeadings(lines[..i], pageNum, stats)
    {
      assert lines[..i + 1][..i] == lines[..i];
      var entry := ClassifyLine(lines[i], pageNum, stats);
      if entry.Some? {
        found := found + [entry.value];
      }
    }
    assert lines[..|lines|] == lines;
  }

  /**
   * Phase 3: every line of every page is cleaned, measured by its first
   * visible character, filtered and given a level; the kept ones are
   * appended in document order.
   */
  method CollectHeadings(pages: seq<Page>, stats: FontStats) returns (outline: seq<Entry>)
    ensures outline == PageHeadings(pages, stats, |pages|)
  {
    outline := [];
    for p := 0 to |pages|
      invariant outline == PageHeadings(pages, stats, p)
    {
      var found := CollectLineHeadings(pages[p].lines, p + 1, stats);
      outline := outline + found;
    }
  }

  /**
   * What every line heading satisfies: the rules of `IsLikelyHeading` that
   * speak of the text alone (the font-size rules need the size, which an
   * entry does not keep).
   */
  ghost predicate WellFormedHeading(e: Entry, stats: FontStats, pages: nat)
  {
    && 1 <= e.level <= 4
    && IsClean(e.text) && |e.text| >= 3 && WordCount(e.text) <= 12
    && !EndsWith(e.text, ',') && !HasLeaderAtEnd(e.text, 4)
    && !IsRevisionRow(e.text) && (StartsNumberedItem(e.text) ==> WordCount(e.text) <= 8)
    && !IsPageFooter(e.text) && !IsNumber(e.text)
    && e.page <= pages
  }

  lemma HeadingOfLineWellFormed(line: TextLine, pageNo: PageNo, stats: FontStats, pages: nat)
    requires pageNo <= pages
    ensures HeadingOfLine(line, pageNo, stats).Some? ==> WellFormedHeading(HeadingOfLine(line, pageNo, stats).value, stats, pages)
  {
    var lineText := CleanText(line.text);
    var k := FirstInkIndex(line.chars);
    if k < |line.chars| {
      var c := line.chars[k];
      var isBold := IsBoldFont(c.fontName);
      if IsLikelyHeading(lineText, c.size, isBold, stats, WordCount(lineText)) {
        AcceptedLineShape(lineText, c.size, isBold, stats, WordCount(lineText));
        LevelRange(lineText, c.size, isBold, stats);
      }
    }
  }

  lemma {:induction false} LineHeadingsWellFormed(lines: seq<TextLine>, pageNo: PageNo, stats: FontStats, pages: nat)
    requires pageNo <= pages
    ensures forall i :: 0 <= i < |LineHeadings(lines, pageNo, stats)| ==> WellFormedHeading(LineHeadings(lines, pageNo, stats)[i], stats, pages)
  {
    if lines != [] {
      LineHeadingsWellFormed(lines[..|lines| - 1], pageNo, stats, pages);
      HeadingOfLineWellFormed(lines[|lines| - 1], pageNo, stats, pages);
    }
  }

  /**
   * Every collected heading has a level from H1 to H4, clean text of at
   * least three characters and at most twelve words that is neither a
   * dot-leader entry, a page footer nor a bare number, and a page number
   * of the document.
   */
  lemma {:induction false} HeadingsWellFormed(pages: seq<Page>, stats: FontStats, n: nat)
    requires n <= |pages|
    ensures forall i :: 0 <= i < |PageHeadings(pages, stats, n)| ==> WellFormedHeading(PageHeadings(pages, stats, n)[i], stats, |pages|)
  {
    if n > 0 {
      HeadingsWellFormed(pages, stats, n - 1);
      LineHeadingsWellFormed(pages[n - 1].lines, n, stats, |pages|);
    }
  }

  // ---------------------------------------------------------------------
  // Phase 2: title
  // ---------------------------------------------------------------------

  /** `abs(word.size - max_font_size) < 0.1`, the threshold being in hundredths. */
  predicate NearSize(h1: int, w: Word)
  {
    -0.1 < w.size - (h1 as real) / 100.0 < 0.1
  }

  function NearSizeTest(h1: int): Word -> bool
  {
    w => NearSize(h1, w)
  }

  function RowOf(w: Word): int
  {
    w.y0
  }

  function Texts(ws: seq<Word>): (r: seq<string>)
    ensures |r| == |ws| && forall i :: 0 <= i < |ws| ==> r[i] == ws[i].text
  {
    seq(|ws|, i requires 0 <= i < |ws| => ws[i].text)
  }

  /** The rows holding words of the largest size, top to bottom. */
  function TitleRows(words: seq<Word>, h1: int): (r: seq<int>)
    ensures StrictlyAscending(r) && Lists(r, RowsOf(words, RowOf, NearSizeTest(h1)))
  {
    Ascending(RowsOf(words, RowOf, NearSizeTest(h1)))
  }

  /** `sorted_y_coords[:3]`. */
  function TopRows(rows: seq<int>): (r: seq<int>)
    ensures |r| == (if |rows| < 3 then |rows| else 3)
    ensures forall i :: 0 <= i < |r| ==> r[i] == rows[i]
  {
    if |rows| <= 3 then rows else rows[..3]
  }

  /** The words of the largest size on row `y`, joined with blanks. */
  function RowText(words: seq<Word>, h1: int, y: int): string
  {
    JoinWith(" ", Texts(Bucket(words, RowOf, NearSizeTest(h1), y)))
  }

  function RowTexts(words: seq<Word>, h1: int, rows: seq<int>): (r: seq<string>)
    ensures |r| == |rows|
  {
    seq(|rows|, i requires 0 <= i < |rows| => RowText(words, h1, rows[i]))
  }

  /** The title text before the "Untitled Document" fallback. */
  function RawTitle(words: seq<Word>, h1: int): string
  {
    var rows := TitleRows(words, h1);
    if h1 > 0 && rows != [] then CleanText(JoinWith(" ", RowTexts(words, h1, TopRows(rows)))) else ""
  }

  function TitleOf(words: seq<Word>, h1: int): string
  {
    var t := RawTitle(words, h1);
    if |t| < 5 then "Untitled Document" else t
  }

  /** `[" ".join(lines_with_max_font[y]) for y in rows]`. */
  method JoinRows(rows: map<int, seq<Word>>, ys: seq<int>, ghost words: seq<Word>, ghost h1: int) returns (parts: seq<string>)
    requires forall i :: 0 <= i < |ys| ==> ys[i] in rows && rows[ys[i]] == Bucket(words, RowOf, NearSizeTest(h1), ys[i])
    ensures parts == RowTexts(words, h1, ys)
  {
    parts := [];
    for i := 0 to |ys|
      invariant parts == RowTexts(words, h1, ys[..i])
    {
      parts := parts + [JoinWith(" ", Texts(rows[ys[i]]))];
    }
    assert ys[..|ys|] == ys;
  }

  /**
   * Phase 2: the words of the first page within 0.1 pt of the largest size
   * are grouped by row; the first three rows, top to bottom, make the title.
   */
  method ExtractTitle(words: seq<Word>, h1: int) returns (title: string)
    ensures title == TitleOf(words, h1)
  {
    title := ExtractRawTitle(words, h1);
    if |title| < 5 {
      title := "Untitled Document";
    }
  }

  lemma TopRowsListed(sorted: seq<int>, order: seq<int>)
    requires Lists(sorted, order)
    ensures forall i :: 0 <= i < |TopRows(sorted)| ==> TopRows(sorted)[i] in order
  {
    var top := TopRows(sorted);
    forall i | 0 <= i < |top|
      ensures top[i] in order
    {
      assert top[i] == sorted[i];
    }
  }

  method ExtractRawTitle(words: seq<Word>, h1: int) returns (title: string)
    ensures title == RawTitle(words, h1)
  {
    title := "";
    if h1 > 0 {
      var linesWithMaxFont, order := GroupByRow(words, RowOf, NearSizeTest(h1));
      if order != [] {
        var sortedRows := Ascending(order);
        var top := TopRows(sortedRows);
        TopRowsListed(sortedRows, order);
        var titleParts := JoinRows(linesWithMaxFont, top, words, h1);
        title := CleanText(JoinWith(" ", titleParts));
      }
    }
  }

  /** The title is the fallback or a clean text of at least five characters. */
  lemma TitleShape(words: seq<Word>, h1: int)
    ensures var t := TitleOf(words, h1); t == "Untitled Document" || (|t| >= 5 && IsClean(t))
  {
  }

  /** Without a positive largest size, or without a word of that size, the title is the fallback. */
  lemma NoTitleWords(words: seq<Word>, h1: int)
    requires h1 <= 0 || forall i :: 0 <= i < |words| ==> !NearSize(h1, words[i])
    ensures TitleOf(words, h1) == "Untitled Document"
  {
    if h1 > 0 {
      NoKeptItemNoRow(words, RowOf, NearSizeTest(h1));
    }
  }

  /**
   * The title rows are the first three (or fewer) of all rows holding a
   * word of the largest size, in increasing `y0`: no row left out lies
   * above a row taken.
   */
  lemma TitleRowsAreTopMost(words: seq<Word>, h1: int)
    ensures var all, top := TitleRows(words, h1), TopRows(TitleRows(words, h1));
      && |top| == (if |all| < 3 then |all| else 3)
      && (forall i :: 0 <= i < |top| ==> top[i] == all[i])
      && Lists(all, RowsOf(words, RowOf, NearSizeTest(h1)))
      && (forall i, j :: 0 <= i < |top| <= j < |all| ==> top[i] < all[j])
  {
  }

  // ---------------------------------------------------------------------
  // The whole extractor
  // ---------------------------------------------------------------------

  /** `extract_outline_with_pdfplumber`, for a document that opened. */
  method ExtractOutline(pages: seq<Page>) returns (result: OutlineResult)
    ensures pages == [] ==> result == OutlineResult("Empty Document", [])
    ensures pages != [] ==> result.title == TitleOf(pages[0].words, StatsOf(pages).h1)
    ensures pages != [] ==> result.outline == FirstOccurrences(PageHeadings(pages, StatsOf(pages), |pages|))
    ensures UniqueKeys(result.outline)
  {
    if pages == [] {
      return OutlineResult("Empty Document", []);
    }
    var fontStats := GatherFontStats(pages);
    var title := ExtractTitle(pages[0].words, fontStats.h1);
    var outline := CollectHeadings(pages, fontStats);
    var finalOutline := Deduplicate(outline);
    result := OutlineResult(title, finalOutline);
  }
}
