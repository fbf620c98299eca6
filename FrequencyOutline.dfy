/**
 * The frequency-based outline extractor (ext3.py). The most frequent word
 * size is the body size; every size more than one point above it is a
 * heading size, and the i-th largest of them is level H(i+1). Words are
 * grouped into lines by their rounded `y0`, ordered by `x0`, and a line
 * whose first word has a heading size becomes a heading unless one of the
 * filter rules drops it.
 *
 * Each page brings the words of `extract_words(x_tolerance=2,
 * y_tolerance=2)` and, for the title, those of `extract_words(y_tolerance=3)`.
 * Word sizes and `y0` arrive rounded to whole points (ext3.py:29, 69, 76, 96,
 * 107); `x0` is a real.
 */
module FrequencyOutline {
  import opened Text
  import opened Patterns
  import opened Collections
  import opened Outline

  /** One word: text, size rounded to a point, `x0`, rounded `y0`, font name. */
  datatype Word = Word(text: string, size: int, x0: real, y0: int, fontName: string)

  datatype Page = Page(words: seq<Word>, titleWords: seq<Word>)

  // ---------------------------------------------------------------------
  // analyze_document_styles
  // ---------------------------------------------------------------------

  /** The sizes of the words of each page. */
  function WordSizes(pages: seq<Page>): seq<seq<int>>
  {
    seq(|pages|, p requires 0 <= p < |pages| =>
      seq(|pages[p].words|, w requires 0 <= w < |pages[p].words| => pages[p].words[w].size))
  }

  /** `[size for size in keys if size > t]`. */
  function SizesAbove(keys: seq<int>, t: int): (r: seq<int>)
    ensures forall i :: 0 <= i < |r| ==> r[i] in keys && r[i] > t
    ensures forall i :: 0 <= i < |keys| && keys[i] > t ==> keys[i] in r
    ensures Distinct(keys) ==> Distinct(r)
  {
    if keys == [] then []
    else
      var init, last := keys[..|keys| - 1], keys[|keys| - 1];
      var p := SizesAbove(init, t);
      assert forall i :: 0 <= i < |init| ==> init[i] == keys[i];
      if last > t then p + [last] else p
  }

  /** The most frequent size; among equally frequent sizes, the one seen first. */
  function ModalSize(sizes: seq<int>): (m: int)
    requires sizes != []
    ensures m in sizes
  {
    HistogramKeys(sizes);
    assert sizes[0] in FirstSeen(sizes);
    FirstSeen(sizes)[FirstMaxIndex(FirstSeen(sizes), Histogram(sizes))]
  }

  /** The sizes among `keys` more than one point above `body`, largest first. */
  function HeadingSizesOf(keys: seq<int>, body: int): (r: seq<int>)
    requires Distinct(keys)
    ensures StrictlyDescending(r)
    ensures forall x :: x in r <==> x in keys && x > body + 1
  {
    Descending(SizesAbove(keys, body + 1))
  }

  /** The body size and the heading sizes of a histogram over `sizes`. */
  function StylesOfSizes(sizes: seq<int>): (int, seq<int>)
  {
    if sizes == [] then (0, [])
    else (ModalSize(sizes), HeadingSizesOf(FirstSeen(sizes), ModalSize(sizes)))
  }

  function StylesOf(pages: seq<Page>): (int, seq<int>)
  {
    StylesOfSizes(Flatten(WordSizes(pages)))
  }

  /**
   * `analyze_document_styles`: a histogram of the rounded word sizes over
   * all pages, its most frequent key (the first one among equals), and the
   * keys more than one point above it, largest first.
   */
  method AnalyzeDocumentStyles(pages: seq<Page>) returns (bodySize: int, headingSizes: seq<int>)
    ensures (bodySize, headingSizes) == StylesOf(pages)
  {
    bodySize, headingSizes := StylesOfGroups(WordSizes(pages));
  }

  /** The same over the sizes of page after page. */
  method StylesOfGroups(groups: seq<seq<int>>) returns (bodySize: int, headingSizes: seq<int>)
    ensures (bodySize, headingSizes) == StylesOfSizes(Flatten(groups))
  {
    var fontSizes, order := CountOccurrences(groups);
    bodySize, headingSizes := StylesOfCounts(fontSizes, order, Flatten(groups));
  }

  /** The body size and the heading sizes read off the histogram of `sizes` and its key order. */
  method StylesOfCounts(fontSizes: map<int, nat>, order: seq<int>, ghost sizes: seq<int>) returns (bodySize: int, headingSizes: seq<int>)
    requires fontSizes == Histogram(sizes) && order == FirstSeen(sizes)
    ensures (bodySize, headingSizes) == StylesOfSizes(sizes)
  {
    NoKeysNoSizes(sizes);
    if |order| == 0 {
      return 0, [];
    }
    StylesOfHistogram(sizes, fontSizes, order);
    var m := FirstMaxIndex(order, fontSizes);
    bodySize := order[m];
    headingSizes := HeadingSizesOf(order, bodySize);
  }

  /** The styles read off the histogram and the first-seen order of the sizes. */
  lemma StylesOfHistogram(sizes: seq<int>, counts: map<int, nat>, order: seq<int>)
    requires sizes != [] && counts == Histogram(sizes) && order == FirstSeen(sizes)
    ensures |order| > 0 && (forall i :: 0 <= i < |order| ==> order[i] in counts) && Distinct(order)
    ensures StylesOfSizes(sizes).0 == order[FirstMaxIndex(order, counts)]
    ensures StylesOfSizes(sizes).1 == HeadingSizesOf(order, order[FirstMaxIndex(order, counts)])
  {
    HistogramKeys(sizes);
    assert sizes[0] in order;
  }

  lemma NoKeysNoSizes(sizes: seq<int>)
    ensures |FirstSeen(sizes)| == 0 <==> sizes == []
  {
    if sizes != [] {
      assert sizes[0] in FirstSeen(sizes);
    }
  }

  /** A document without words has body size 0 and no heading size. */
  lemma NoWordsNoStyles(pages: seq<Page>)
    requires forall p :: 0 <= p < |pages| ==> pages[p].words == []
    ensures StylesOf(pages) == (0, [])
  {
    FlattenEmpty(WordSizes(pages), |pages|);
    assert WordSizes(pages)[..|pages|] == WordSizes(pages);
  }

  lemma {:induction false} FlattenEmpty(g: seq<seq<int>>, n: nat)
    requires n <= |g| && forall p :: 0 <= p < |g| ==> g[p] == []
    ensures Flatten(g[..n]) == []
  {
    if n > 0 {
      FlattenEmpty(g, n - 1);
      assert g[..n][..n - 1] == g[..n - 1];
    }
  }

  /**
   * The body size occurs, no size occurs more often, and among the sizes
   * that occur as often it is the one seen first.
   */
  lemma BodySizeIsModal(sizes: seq<int>)
    requires sizes != []
    ensures var body := ModalSize(sizes);
      && body in sizes
      && (forall i :: 0 <= i < |sizes| ==> multiset(sizes)[sizes[i]] <= multiset(sizes)[body])
      && (forall j :: 0 <= j < |FirstSeen(sizes)| && multiset(sizes)[FirstSeen(sizes)[j]] == multiset(sizes)[body]
            ==> body in FirstSeen(sizes)[..j + 1])
  {
    var order, counts := FirstSeen(sizes), Histogram(sizes);
    HistogramCounts(sizes);
    assert sizes[0] in order;
    var m := FirstMaxIndex(order, counts);
    assert ModalSize(sizes) == order[m];
    forall i | 0 <= i < |sizes| ensures multiset(sizes)[sizes[i]] <= multiset(sizes)[order[m]] {
      var k :| 0 <= k < |order| && order[k] == sizes[i];
    }
    forall j | 0 <= j < |order| && multiset(sizes)[order[j]] == multiset(sizes)[order[m]]
      ensures order[m] in order[..j + 1]
    {
      assert order[..j + 1][m] == order[m];
    }
  }

  /** The heading sizes are strictly decreasing, and they are exactly the sizes more than one point above the body size. */
  lemma HeadingSizesAreLargeSizes(sizes: seq<int>)
    ensures var (body, hs) := StylesOfSizes(sizes);
      && StrictlyDescending(hs)
      && (forall x :: x in hs <==> x in sizes && x > body + 1)
  {
  }

  // ---------------------------------------------------------------------
  // The level map
  // ---------------------------------------------------------------------

  /** `{size: f"H{i+1}" for i, size in enumerate(heading_sizes)}`, the level as a number. */
  function LevelMap(hs: seq<int>): map<int, nat>
  {
    if hs == [] then map[] else LevelMap(hs[..|hs| - 1])[hs[|hs| - 1] := |hs|]
  }

  /** Each heading size maps to its rank, counted from 1, and nothing else is mapped. */
  lemma {:induction false} LevelMapRanks(hs: seq<int>)
    requires Distinct(hs)
    ensures forall x :: x in LevelMap(hs) <==> x in hs
    ensures forall i :: 0 <= i < |hs| ==> hs[i] in LevelMap(hs) && LevelMap(hs)[hs[i]] == i + 1
  {
    if hs != [] {
      var init := hs[..|hs| - 1];
      LevelMapRanks(init);
      forall i | 0 <= i < |init| ensures init[i] != hs[|hs| - 1] && init[i] == hs[i] { }
    }
  }

  /** Whatever the sizes, exactly they are mapped, each to a level from 1 to their number. */
  lemma {:induction false} LevelMapRange(hs: seq<int>)
    ensures forall x :: x in LevelMap(hs) <==> x in hs
    ensures forall x :: x in LevelMap(hs) ==> 1 <= LevelMap(hs)[x] <= |hs|
  {
    if hs != [] {
      LevelMapRange(hs[..|hs| - 1]);
      assert hs == hs[..|hs| - 1] + [hs[|hs| - 1]];
    }
  }

  /** `level_map.get(font_size, "H4")`. */
  function LevelOr4(levels: map<int, nat>, size: int): nat
  {
    if size in levels then levels[size] else 4
  }

  // ---------------------------------------------------------------------
  // Title
  // ---------------------------------------------------------------------

  function RowOf(w: Word): int
  {
    w.y0
  }

  function X0(w: Word): real
  {
    w.x0
  }

  function HasSizeTest(size: int): Word -> bool
  {
    (w: Word) => w.size == size
  }

  function KeepAll(w: Word): bool
  {
    true
  }

  function Texts(ws: seq<Word>): (r: seq<string>)
    ensures |r| == |ws| && forall i :: 0 <= i < |ws| ==> r[i] == ws[i].text
  {
    seq(|ws|, i requires 0 <= i < |ws| => ws[i].text)
  }

  /** The words of size `size` on row `y`, joined with blanks. */
  function RowText(words: seq<Word>, size: int, y: int): string
  {
    JoinWith(" ", Texts(Bucket(words, RowOf, HasSizeTest(size), y)))
  }

  function RowTexts(words: seq<Word>, size: int, rows: seq<int>): (r: seq<string>)
    ensures |r| == |rows|
  {
    seq(|rows|, i requires 0 <= i < |rows| => RowText(words, size, rows[i]))
  }

  /** The rows holding a word of the largest heading size, top to bottom. */
  function TitleRows(words: seq<Word>, size: int): (r: seq<int>)
    ensures StrictlyAscending(r) && Lists(r, RowsOf(words, RowOf, HasSizeTest(size)))
  {
    Ascending(RowsOf(words, RowOf, HasSizeTest(size)))
  }

  /** The cleaned title text before the "Untitled Document" fallback. */
  function RawTitle(words: seq<Word>, size: int): string
  {
    var rows := TitleRows(words, size);
    if rows != [] then CleanText(JoinWith(" ", RowTexts(words, size, rows))) else ""
  }

  function TitleOf(words: seq<Word>, hs: seq<int>): string
  {
    if hs == [] then "Untitled Document"
    else
      var t := RawTitle(words, hs[0]);
      if t != [] then t else "Untitled Document"
  }

  /** `[" ".join(title_lines[y]) for y in ys]`. */
  method JoinRows(rows: map<int, seq<Word>>, ys: seq<int>, ghost words: seq<Word>, ghost size: int) returns (parts: seq<string>)
    requires forall i :: 0 <= i < |ys| ==> ys[i] in rows && rows[ys[i]] == Bucket(words, RowOf, HasSizeTest(size), ys[i])
    ensures parts == RowTexts(words, size, ys)
  {
    parts := [];
    for i := 0 to |ys|
      invariant parts == RowTexts(words, size, ys[..i])
    {
      parts := parts + [JoinWith(" ", Texts(rows[ys[i]]))];
    }
    assert ys[..|ys|] == ys;
  }

  /**
   * Phase 2: the first-page words of the largest heading size, grouped by
   * row; all their rows, top to bottom, make the title if it is not empty
   * once cleaned.
   */
  method ExtractTitle(words: seq<Word>, headingSizes: seq<int>) returns (title: string)
    ensures title == TitleOf(words, headingSizes)
  {
    title := "Untitled Document";
    if headingSizes != [] {
      var cleanedTitle := ExtractRawTitle(words, headingSizes[0]);
      if cleanedTitle != [] {
        title := cleanedTitle;
      }
    }
  }

  method ExtractRawTitle(words: seq<Word>, maxHeadingSize: int) returns (title: string)
    ensures title == RawTitle(words, maxHeadingSize)
  {
    title := "";
    var titleLines, order := GroupByRow(words, RowOf, HasSizeTest(maxHeadingSize));
    if order != [] {
      var sortedY := Ascending(order);
      var parts := JoinRows(titleLines, sortedY, words, maxHeadingSize);
      title := CleanText(JoinWith(" ", parts));
    }
  }

  /** The title is the fallback or a clean, non-empty text; there is no minimum length and no cap on the rows. */
  lemma TitleShape(words: seq<Word>, hs: seq<int>)
    ensures var t := TitleOf(words, hs); t == "Untitled Document" || (t != [] && IsClean(t))
  {
  }

  /** Without a heading size the title is the fallback. */
  lemma NoHeadingSizeNoTitle(words: seq<Word>)
    ensures TitleOf(words, []) == "Untitled Document"
  {
  }

  // ---------------------------------------------------------------------
  // Phase 3: headings
  // ---------------------------------------------------------------------

  /** The words of row `y`, ordered by `x0` (a stable sort). */
  function LineWords(words: seq<Word>, y: int): seq<Word>
  {
    SortBy(Bucket(words, RowOf, KeepAll, y), X0)
  }

  /** The rows of a page, top to bottom. */
  function PageRows(words: seq<Word>): seq<int>
  {
    Ascending(RowsOf(words, RowOf, KeepAll))
  }

  function LineText(lineWords: seq<Word>): string
  {
    CleanText(JoinWith(" ", Texts(lineWords)))
  }

  /** The filter rules in order, then the level of the first word's size. */
  function HeadingOfLine(lineWords: seq<Word>, pageNo: PageNo, hs: seq<int>, levels: map<int, nat>): Option<Entry>
  {
    if lineWords == [] then None
    else
      var lineText := LineText(lineWords);
      var first := lineWords[0];
      if first.size !in hs then None
      else if !IsBoldFont(first.fontName) && !IsUpperText(lineText) then None
      else if HasLeaderAtEnd(lineText, 3) then None
      else if StartsMinorVersion(lineText) then None
      else if StartsSectionNumber(lineText) && |lineWords| > 8 then None
      else if |lineWords| > 12 then None
      else Some(Entry(LevelOr4(levels, first.size), lineText, pageNo))
  }

  /** The headings of the rows `ys` of a page, in that order. */
  function RowHeadings(words: seq<Word>, ys: seq<int>, pageNo: PageNo, hs: seq<int>, levels: map<int, nat>): seq<Entry>
  {
    if ys == [] then []
    else
      RowHeadings(words, ys[..|ys| - 1], pageNo, hs, levels)
      + OptionToSeq(HeadingOfLine(LineWords(words, ys[|ys| - 1]), pageNo, hs, levels))
  }

  /** The headings of one page, its rows taken top to bottom. */
  function PageOutlineOf(words: seq<Word>, pageNo: PageNo, hs: seq<int>, levels: map<int, nat>): seq<Entry>
  {
    RowHeadings(words, PageRows(words), pageNo, hs, levels)
  }

  /** The headings of each page, page `p + 1` at index `p`. */
  function PageOutlines(pages: seq<Page>, hs: seq<int>, levels: map<int, nat>): (r: seq<seq<Entry>>)
    ensures |r| == |pages|
    ensures forall p :: 0 <= p < |pages| ==> r[p] == PageOutlineOf(pages[p].words, p + 1, hs, levels)
  {
    seq(|pages|, p requires 0 <= p < |pages| => PageOutlineOf(pages[p].words, p + 1, hs, levels))
  }

  /** The headings of all pages, in page order. */
  function Headings(pages: seq<Page>, hs: seq<int>, levels: map<int, nat>): seq<Entry>
  {
    Flatten(PageOutlines(pages, hs, levels))
  }

  /** One pass of the loop over the rows: the filter rules, each a `continue`. */
  method ClassifyLine(lineWords: seq<Word>, pageNum: PageNo, headingSizes: seq<int>, levelMap: map<int, nat>)
    returns (entry: Option<Entry>)
    ensures entry == HeadingOfLine(lineWords, pageNum, headingSizes, levelMap)
  {
    if lineWords == [] {
      return None;
    }
    var lineText := CleanText(JoinWith(" ", Texts(lineWords)));
    var firstWord := lineWords[0];
    var fontSize := firstWord.size;
    var isBold := IsBoldFont(firstWord.fontName);
    if fontSize !in headingSizes {
      return None;
    }
    if !isBold && !IsUpperText(lineText) {
      return None;
    }
    if HasLeaderAtEnd(lineText, 3) {
      return None;
    }
    if StartsMinorVersion(lineText) {
      return None;
    }
    if StartsSectionNumber(lineText) && |lineWords| > 8 {
      return None;
    }
    if |lineWords| > 12 {
      return None;
    }
    var level := if fontSize in levelMap then levelMap[fontSize] else 4;
    entry := Some(Entry(level, lineText, pageNum));
  }

  /** The rows of one page, top to bottom, each ordered by `x0` and classified. */
  method ClassifyRows(lines: map<int, seq<Word>>, ys: seq<int>, pageNum: PageNo, headingSizes: seq<int>, levelMap: map<int, nat>, ghost words: seq<Word>)
    returns (found: seq<Entry>)
    requires forall i :: 0 <= i < |ys| ==> ys[i] in lines && lines[ys[i]] == Bucket(words, RowOf, KeepAll, ys[i])
    ensures found == RowHeadings(words, ys, pageNum, headingSizes, levelMap)
  {
    found := [];
    for i := 0 to |ys|
      invariant found == RowHeadings(words, ys[..i], pageNum, headingSizes, levelMap)
    {
      var lineWords := SortBy(lines[ys[i]], X0);
      var entry := ClassifyLine(lineWords, pageNum, headingSizes, levelMap);
      RowHeadingsSnoc(words, ys, i, pageNum, headingSizes, levelMap);
      if entry.Some? {
        found := found + [entry.value];
      }
    }
    assert ys[..|ys|] == ys;
  }

  lemma RowHeadingsSnoc(words: seq<Word>, ys: seq<int>, i: nat, pageNo: PageNo, hs: seq<int>, levels: map<int, nat>)
    requires i < |ys|
    ensures RowHeadings(words, ys[..i + 1], pageNo, hs, levels)
      == RowHeadings(words, ys[..i], pageNo, hs, levels) + OptionToSeq(HeadingOfLine(LineWords(words, ys[i]), pageNo, hs, levels))
  {
    assert ys[..i + 1][..i] == ys[..i];
  }

  /** The body of the page loop: words grouped by rounded `y0`, rows taken top to bottom. */
  method PageOutline(words: seq<Word>, pageNum: PageNo, headingSizes: seq<int>, levelMap: map<int, nat>) returns (found: seq<Entry>)
    ensures found == PageOutlineOf(words, pageNum, headingSizes, levelMap)
  {
    var lines, order := GroupByRow(words, RowOf, KeepAll);
    var sortedYCoords := Ascending(order);
    found := ClassifyRows(lines, sortedYCoords, pageNum, headingSizes, levelMap, words);
  }

  /** Phase 3 over all pages, in page order. */
  method CollectHeadings(pages: seq<Page>, headingSizes: seq<int>, levelMap: map<int, nat>) returns (outline: seq<Entry>)
    ensures outline == Headings(pages, headingSizes, levelMap)
  {
    ghost var g := PageOutlines(pages, headingSizes, levelMap);
    outline := [];
    for p := 0 to |pages|
      invariant outline == Flatten(g[..p])
    {
      var found := PageOutline(pages[p].words, p + 1, headingSizes, levelMap);
      FlattenSnoc(g, p);
      outline := outline + found;
    }
    assert g[..|pages|] == g;
  }

  /**
   * A kept line is bold or upper-case, has no dot leader and no "d.d "
   * prefix, has at most twelve words and at most eight when it starts with a
   * section number, and its first word has a heading size whose rank is its
   * level; so the "H4" default is never used.
   */
  lemma KeptLineShape(lineWords: seq<Word>, pageNo: PageNo, hs: seq<int>)
    requires Distinct(hs)
    requires HeadingOfLine(lineWords, pageNo, hs, LevelMap(hs)).Some?
    ensures var e, first := HeadingOfLine(lineWords, pageNo, hs, LevelMap(hs)).value, lineWords[0];
      && (IsBoldFont(first.fontName) || IsUpperText(e.text))
      && !HasLeaderAtEnd(e.text, 3) && !StartsMinorVersion(e.text)
      && |lineWords| <= 12 && (StartsSectionNumber(e.text) ==> |lineWords| <= 8)
      && e.text == LineText(lineWords) && IsClean(e.text)
      && exists i :: 0 <= i < |hs| && hs[i] == first.size && e.level == i + 1
  {
    LevelMapRanks(hs);
    var first := lineWords[0];
    var i :| 0 <= i < |hs| && hs[i] == first.size;
    assert LevelMap(hs)[hs[i]] == i + 1;
  }

  /** A line starting with a section number and made of more than eight words is dropped. */
  lemma LongNumberedLineDropped(lineWords: seq<Word>, pageNo: PageNo, hs: seq<int>, levels: map<int, nat>)
    requires StartsSectionNumber(LineText(lineWords)) && |lineWords| > 8
    ensures HeadingOfLine(lineWords, pageNo, hs, levels) == None
  {
  }

  /** A line's words are those of its row, each once, ordered by `x0`, equal `x0` keeping their order. */
  lemma LineWordsOrdered(words: seq<Word>, y: int)
    ensures var lw := LineWords(words, y);
      && SortedBy(lw, X0)
      && multiset(lw) == multiset(Bucket(words, RowOf, KeepAll, y))
      && (forall i :: 0 <= i < |lw| ==> lw[i].y0 == y)
      && forall k :: WithKey(lw, X0, k) == WithKey(Bucket(words, RowOf, KeepAll, y), X0, k)
  {
    var b := Bucket(words, RowOf, KeepAll, y);
    var lw := LineWords(words, y);
    forall i | 0 <= i < |lw| ensures lw[i].y0 == y {
      assert lw[i] in multiset(b);
      var j :| 0 <= j < |b| && b[j] == lw[i];
    }
  }

  /** What every collected heading satisfies. */
  ghost predicate WellFormedHeading(e: Entry, hs: seq<int>, pages: nat)
  {
    && 1 <= e.level <= |hs|
    && IsClean(e.text) && !HasLeaderAtEnd(e.text, 3) && !StartsMinorVersion(e.text)
    && e.page <= pages
  }

  lemma HeadingOfLineWellFormed(lineWords: seq<Word>, pageNo: PageNo, hs: seq<int>, pages: nat)
    requires pageNo <= pages
    ensures HeadingOfLine(lineWords, pageNo, hs, LevelMap(hs)).Some? ==>
      WellFormedHeading(HeadingOfLine(lineWords, pageNo, hs, LevelMap(hs)).value, hs, pages)
  {
    LevelMapRange(hs);
  }

  ghost predicate AllWellFormed(es: seq<Entry>, hs: seq<int>, pages: nat)
  {
    forall i :: 0 <= i < |es| ==> WellFormedHeading(es[i], hs, pages)
  }

  lemma AllWellFormedConcat(a: seq<Entry>, b: seq<Entry>, hs: seq<int>, pages: nat)
    requires AllWellFormed(a, hs, pages) && AllWellFormed(b, hs, pages)
    ensures AllWellFormed(a + b, hs, pages)
  {
    forall i | 0 <= i < |a + b| ensures WellFormedHeading((a + b)[i], hs, pages) {
      if i < |a| {
        assert (a + b)[i] == a[i];
      } else {
        assert (a + b)[i] == b[i - |a|];
      }
    }
  }

  lemma {:induction false} RowHeadingsWellFormed(words: seq<Word>, ys: seq<int>, pageNo: PageNo, hs: seq<int>, pages: nat)
    requires pageNo <= pages
    ensures AllWellFormed(RowHeadings(words, ys, pageNo, hs, LevelMap(hs)), hs, pages)
  {
    if ys != [] {
      RowHeadingsWellFormed(words, ys[..|ys| - 1], pageNo, hs, pages);
      var lw := LineWords(words, ys[|ys| - 1]);
      HeadingOfLineWellFormed(lw, pageNo, hs, pages);
      AllWellFormedConcat(RowHeadings(words, ys[..|ys| - 1], pageNo, hs, LevelMap(hs)),
        OptionToSeq(HeadingOfLine(lw, pageNo, hs, LevelMap(hs))), hs, pages);
    }
  }

  lemma PageOutlineWellFormed(words: seq<Word>, pageNo: PageNo, hs: seq<int>, pages: nat)
    requires pageNo <= pages
    ensures AllWellFormed(PageOutlineOf(words, pageNo, hs, LevelMap(hs)), hs, pages)
  {
    RowHeadingsWellFormed(words, PageRows(words), pageNo, hs, pages);
  }

  lemma PagesWellFormed(pages: seq<Page>, hs: seq<int>)
    ensures forall p :: 0 <= p < |pages| ==> AllWellFormed(PageOutlines(pages, hs, LevelMap(hs))[p], hs, |pages|)
  {
    forall p | 0 <= p < |pages| ensures AllWellFormed(PageOutlines(pages, hs, LevelMap(hs))[p], hs, |pages|) {
      PageOutlineWellFormed(pages[p].words, p + 1, hs, |pages|);
    }
  }

  /** Concatenating lists of well-formed headings gives well-formed headings. */
  lemma {:induction false} FlattenWellFormed(g: seq<seq<Entry>>, hs: seq<int>, pages: nat, n: nat)
    requires n <= |g| && forall p :: 0 <= p < |g| ==> AllWellFormed(g[p], hs, pages)
    ensures AllWellFormed(Flatten(g[..n]), hs, pages)
  {
    if n > 0 {
      FlattenWellFormed(g, hs, pages, n - 1);
      FlattenSnoc(g, n - 1);
      AllWellFormedConcat(Flatten(g[..n - 1]), g[n - 1], hs, pages);
    }
  }

  /**
   * Every collected heading has a level from 1 to the number of heading
   * sizes, clean text without a dot leader or a "d.d " prefix, and a page
   * number of the document.
   */
  lemma HeadingsWellFormed(pages: seq<Page>, hs: seq<int>)
    ensures forall i :: 0 <= i < |Headings(pages, hs, LevelMap(hs))| ==>
      WellFormedHeading(Headings(pages, hs, LevelMap(hs))[i], hs, |pages|)
  {
    var g := PageOutlines(pages, hs, LevelMap(hs));
    PagesWellFormed(pages, hs);
    FlattenWellFormed(g, hs, |pages|, |g|);
    assert g[..|g|] == g;
  }

  // ---------------------------------------------------------------------
  // The whole extractor
  // ---------------------------------------------------------------------

  /** `extract_outline_with_pdfplumber`, for a document that opened. */
  method ExtractOutline(pages: seq<Page>) returns (result: OutlineResult)
    ensures pages == [] ==> result == OutlineResult("Empty Document", [])
    ensures pages != [] ==> result.title == TitleOf(pages[0].titleWords, StylesOf(pages).1)
    ensures pages != [] ==> result.outline == FirstOccurrences(Headings(pages, StylesOf(pages).1, LevelMap(StylesOf(pages).1)))
    ensures UniqueKeys(result.outline)
  {
    if pages == [] {
      return OutlineResult("Empty Document", []);
    }
    var bodySize, headingSizes := AnalyzeDocumentStyles(pages);
    var levelMap := LevelMap(headingSizes);
    var title := ExtractTitle(pages[0].titleWords, headingSizes);
    var outline := CollectHeadings(pages, headingSizes, levelMap);
    var finalOutline := Deduplicate(outline);
    result := OutlineResult(title, finalOutline);
  }
}
