# PDF outline extraction and persona-driven section ranking, in Dafny

This project models three Python programs and their properties.

- `ext2.py` is the rank-based outline extractor. It takes the four largest distinct character sizes of a document as the H1 to H4 thresholds. It then builds a title and a list of headings.
  - The title comes from the largest-size words of the first page.
  - A line becomes a heading when eight rejection rules let it through. Its level then comes from its numbering, or from its style and size.
- `ext3.py` is the frequency-based outline extractor.
  - The most frequent word size is the body size. Every size more than one point above it is a heading size, ranked largest first.
  - Words are grouped into lines by their rounded `y0` and ordered by `x0`.
  - A line whose first word has a heading size is kept unless one of six filter rules drops it. Its level is its size's rank.
- `src/persona_analyst.py` is the persona analyst. Each outline entry of each document becomes a section. The section text is read from the page lines between the entry's title and the title of the entry after it.
  - Sections are scored against a query built from the persona and the job, then sorted by score.
  - The first five ranked sections are refined to the sentences whose lemma set overlaps the query's enough. The refinement is cut off greedily at 1000 characters.

Both extractors end with the same de-duplication: the first entry is kept for each pair (lower-cased text, page).

## Modules and approach

| module | models |
|---|---|
| `Text` | `clean_text`, `str.strip`, `re.sub(r'\s+', ' ', ...)`, ASCII `lower`/`isupper`, `in` on strings, `len(s.split())` and `" ".join` |
| `Patterns` | the regular expressions of both extractors, written out as predicates over strings |
| `Collections` | the `defaultdict` counters and groupings in first-insertion key order, `sorted(...)` of integer keys, and the stable sort by a key |
| `Outline` | the shared output records and the de-duplication loop |
| `RankOutline` | `ext2.py` |
| `FrequencyOutline` | `ext3.py` |
| `PersonaAnalyst` | `src/persona_analyst.py` |

How the model is built:

- Each loop of the source is a `method` with a `while` or `for` loop. It is proved equal to a specification function, and the lemmas state what the source promises about that function.
- Python's in-place `list.sort` and the dictionaries that are only filled and then read are modelled on values (`seq` and `map`).
- The PDF library's output is the input of each extractor:
  - for `ext2.py`: characters, words and text lines per page;
  - for `ext3.py`: words per page;
  - for the analyst: each document's outline and the text lines of each page.

### Notes on the code's behaviour

- **Section text.** `found_title` is reset to false on every scanned page (src/persona_analyst.py:49). So on each page after the first, the lines before a line containing the section title are skipped again, and a continuation page that does not repeat the title contributes nothing (`PersonaAnalyst.SkipsToTitle`).
- **Where a section stops.** The next section's title stops the scan only on the next section's page, and only when that title is non-empty (src/persona_analyst.py:64-68).
- **Refinement slots.** Refinement looks at the first five ranked sections, and a section with empty text uses up its slot (src/persona_analyst.py:174-179).
- **The `ext3.py` title.** It joins every row of the largest heading size, however many there are. It falls back to "Untitled Document" only when the cleaned text is empty, whatever its length otherwise (ext3.py:79-86).

## Model

| member | source | states |
|---|---|---|
| Text.IsDigit | ext2.py:51 | `\d` on text: a Unicode decimal digit, the 64 ranges of general category Nd |
| Text.IsSpace | ext2.py:16 | what `\s` and `str.isspace` count as whitespace: tab to carriage return, U+001C to U+001F, the blank, U+0085, U+00A0 and the Unicode space, line and paragraph separators |
| Text.IsUpperText | ext2.py:47 | `str.isupper`: the text has an upper-case letter and no lower-case one (ASCII letters; see Left out) |
| Text.IsSubstring | src/persona_analyst.py:55 | `sub in s`: `s` starts with `sub` or its tail contains it; IsSubstringOccurs equates it with an occurrence at some position |
| Text.Lower | ext2.py:159 | `str.lower` keeps the length and lower-cases each ASCII capital letter only |
| Text.IsSubstringOccurs | src/persona_analyst.py:55 | `sub in s` holds exactly when `sub` occurs in `s` at some position |
| Text.Squeeze | ext2.py:15 | the `groupby` join leaves no two equal neighbours, never grows, keeps the first character, and changes nothing in text without repeats |
| Text.Collapse | ext2.py:16 | each whitespace run becomes one blank: no other whitespace and no two adjacent blanks remain; text with no repeats keeps none; single-spaced text is unchanged |
| Text.Strip | src/persona_analyst.py:51 | `strip()` leaves no whitespace at either end, never grows, and leaves trimmed text unchanged |
| Text.StripIsInfix | src/persona_analyst.py:51 | the stripped text is a contiguous infix of the original |
| Text.StripEmptyIffBlank | ext2.py:124 | `c['text'].strip()` is empty exactly when the text is all whitespace |
| Text.StripKeepsShape | ext2.py:16 | stripping keeps the absence of repeats and of double blanks |
| Text.NormalizeSpace | src/persona_analyst.py:83 | `re.sub(r'\s+', ' ', t).strip()` is single-spaced and trimmed, keeps the absence of repeats, and is the identity on single-spaced text |
| Text.CleanText | ext2.py:9-16 | `clean_text` output has no two equal neighbours, no whitespace at either end, every whitespace run a single blank, and is never longer than its input |
| Text.CleanTextFixesCleanText | ext3.py:9-16 | `clean_text` leaves text that is already clean unchanged |
| Text.CleanTextIdempotent | ext2.py:9-16 | applying `clean_text` twice equals applying it once |
| Text.WordCount | ext2.py:122 | `len(s.split())`: the number of maximal runs of non-whitespace characters |
| Text.JoinWith | ext2.py:101 | joining no parts gives "" and joining one part gives that part |
| Patterns.StartsNumberedItem | ext2.py:42 | `^\d+\.\s`: one or more digits, a dot, then a whitespace character |
| Patterns.StartsSectionNumber | ext3.py:131 | `^\d+(\.\d+)*\s`: dot-separated digit groups, then a whitespace character |
| Patterns.StartsChapterNumber | ext2.py:111 | the H1 pattern: a list number `\d+\.\s`, or "Appendix", a whitespace, a capital `[A-Z]`, a dot and a whitespace |
| Patterns.IsRevisionRow | ext2.py:37 | `^\d\.\d\s+[A-Z0-9\s]+$`: digit, dot, digit, whitespace, then at least one character, all capitals, ASCII digits or whitespace |
| Patterns.StartsMinorVersion | ext3.py:125 | `^\d\.\d\s`: digit, dot, digit, whitespace |
| Patterns.HasLeaderAtEnd | ext2.py:28 | `re.search(r'\.{n,}\s*\d+$')`: the text, or the text before one final newline, ends in at least `n` dots, optional whitespace and digits |
| Patterns.IsNumber | ext2.py:51 | `re.fullmatch(r'\d+')`: a non-empty run of digits and nothing else |
| Patterns.IsPageFooter | ext2.py:51 | `re.fullmatch(r'Page\s*\d+(\s*of\s*\d+)?', re.IGNORECASE)`: "page" in any case, optional whitespace, digits, and optionally "of" in any case between optional whitespace and digits |
| Patterns.DottedNumberIsSectionNumber | ext3.py:131 | a number of any fixed depth followed by whitespace matches `^\d+(\.\d+)*\s` |
| Collections.FirstSeen | ext3.py:23-30 | a dictionary's key order: exactly the items seen, each once |
| Collections.HistogramKeys | ext2.py:72-75 | a counter dictionary has a key for each item counted and no other |
| Collections.HistogramCounts | ext3.py:23-30 | the counter holds, for each key, the number of occurrences of that item |
| Collections.TallyStep | ext2.py:75 | one `+= 1` bumps that key's count, and appends the key to the key order when it is new |
| Collections.Bump | ext2.py:75 | the `+= 1` statement extends the histogram and its key order by one item |
| Collections.TallyGroup | ext2.py:74-75 | the inner counting loop extends the histogram and its key order by one page's items |
| Collections.CountOccurrences | ext2.py:72-75 | the nested counting loops produce the histogram of all items of all pages, in first-seen key order; each count is the item's multiplicity |
| Collections.FirstMaxIndex | ext3.py:36 | `max(font_sizes, key=font_sizes.get)`: no key has a larger count, and every earlier key has a smaller one |
| Collections.Descending | ext2.py:77 | `sorted(keys, reverse=True)` lists exactly the keys, strictly decreasing |
| Collections.Ascending | ext2.py:99 | `sorted(keys)` lists exactly the keys, strictly increasing |
| Collections.DescendingRank | ext2.py:77-83 | entry `k` of the descending keys is a key, and only the entries before it are larger |
| Collections.Bucket | ext2.py:91-95 | a row's list holds only kept items of that row, all taken from the input |
| Collections.RowsOf | ext3.py:94-97 | the rows are distinct; every kept item's row is among them; a row is listed exactly when its bucket is non-empty |
| Collections.RowsOfStep | ext3.py:95-97 | one more item keeps the rows distinct, complete and each backed by a kept item |
| Collections.NoKeptItemNoRow | ext2.py:98 | when no item passes the test there is no row |
| Collections.GroupByRow | ext2.py:91-95 | the grouping loop's dictionary has exactly the rows of the kept items as keys, in first-seen order, each with its items in input order |
| Collections.InsertBy | src/persona_analyst.py:164 | inserting into a sorted list keeps it sorted, adds exactly that element, and keeps the elements of equal key in order |
| Collections.SortBy | src/persona_analyst.py:164 | the sort by key is sorted, a permutation of its input, and stable: the elements of each key keep their input order |
| Outline.IsBoldFont | ext2.py:128-129 | the lower-cased font name contains "bold", "black" or "heavy" |
| Outline.FirstOccurrences | ext2.py:156-162 | the first entry of each (lower-cased text, page) key, in order; FirstOccurrencesUnique, FirstOccurrencesKeepsEveryKey and Deduplicate state its properties |
| Outline.Deduplicate | ext2.py:156-162 | the `seen` loop returns the first entry of each (lower-cased text, page) key, in order, and no two kept entries share a key |
| Outline.FirstsUpToFrom | ext3.py:147-153 | each kept entry is an input entry that is first of its key |
| Outline.FirstsUpToUnique | ext3.py:147-153 | the keys of the kept entries are pairwise distinct and all occur in the input |
| Outline.FirstOccurrencesUnique | ext2.py:156-162 | no two kept entries share a key |
| Outline.FirstsUpToKeepsEveryKey | ext2.py:156-162 | every key of the first `n` entries is the key of a kept entry |
| Outline.FirstWithKey | ext2.py:160 | the first position that shares an entry's key, which is first of that key |
| Outline.FirstOccurrencesKeepsEveryKey | ext2.py:156-162 | de-duplication loses no key |
| Outline.UniqueKeysKept | ext3.py:147-153 | an outline whose keys are already unique is unchanged |
| Outline.FirstOccurrencesIdempotent | ext2.py:156-162 | de-duplicating twice is de-duplicating once |
| RankOutline.StatsOf | ext2.py:72-83 | the four thresholds: the first four distinct character sizes, largest first, 0 for a missing rank; ThresholdsOrdered and ThresholdsAreRankedSizes state its properties |
| RankOutline.SortedSizes | ext2.py:72-77 | the sorted size keys are strictly decreasing and are exactly the character sizes that occur |
| RankOutline.GatherFontStats | ext2.py:71-83 | phase 1 returns the first four descending size keys, 0 for each missing rank |
| RankOutline.ThresholdsOrdered | ext2.py:77-83 | h1 ≥ h2 ≥ h3 ≥ h4 |
| RankOutline.ThresholdsAreRankedSizes | ext2.py:77-83 | threshold `k` is a size that occurs and is exceeded only by the earlier thresholds; without `k + 1` distinct sizes it is 0 |
| RankOutline.IsLikelyHeading | ext2.py:18-58 | `is_likely_heading`: the eight rejection rules in source order, true when none rejects; AcceptedLineShape and ShapeIsAccepted characterise it in both directions |
| RankOutline.ShortTextRejected | ext2.py:23-25 | text shorter than three characters is rejected whatever its size, weight and word count |
| RankOutline.AcceptedLineShape | ext2.py:18-58 | an accepted line has at least 3 characters and at most 12 words; it does not end in ',' and has no `.{4,}\s*\d+` leader; it is not a revision row; a `digits. ` line has at most 8 words and is bold or at least h2; an upper-case line of several words is at least h2; it is not a page footer or bare number |
| RankOutline.ShapeIsAccepted | ext2.py:18-58 | conversely, every line with all of those properties is accepted |
| RankOutline.FallbackLevel | ext2.py:144-146 | the first of H1, H2, H3 whose threshold the size reaches within 90% (`10 * size >= 9 * threshold`), or none |
| RankOutline.LevelOf | ext2.py:134-146 | the H4, H3, H2, H1 patterns in that order; otherwise, for a bold or upper-case line, the size fallback; otherwise no level |
| RankOutline.NumberDepthIsUnique | ext2.py:110-115 | a line matches the dotted-number pattern of at most one depth |
| RankOutline.DeepNumberIsNotListNumber | ext2.py:112-114 | a line matching the H2, H3 or H4 pattern does not match `^\d+\.\s` |
| RankOutline.NumberedLevel | ext2.py:137-139 | a line numbered with `g` groups (2 to 4) gets level H`g`, whatever its size and weight |
| RankOutline.LevelRange | ext2.py:136-146 | every level is H1 to H4, and H4 exactly for a four-group number, so the size fallback never yields H4 |
| RankOutline.PlainUnnumberedHasNoLevel | ext2.py:143 | an unnumbered line that is neither bold nor upper-case gets no level |
| RankOutline.FallbackMonotone | ext2.py:144-146 | with ordered thresholds a larger size keeps a level and never gets a deeper one |
| RankOutline.FirstInkIndex | ext2.py:124 | the position of the first character that does not strip to nothing, or the count when there is none |
| RankOutline.HeadingOfLine | ext2.py:121-153 | the cleaned line text with the level of its first visible character, when that character exists, the line passes the filter and a level is found; otherwise nothing |
| RankOutline.ClassifyLine | ext2.py:121-153 | one pass of the line loop yields the heading the rules and levels give that line, or none |
| RankOutline.CollectLineHeadings | ext2.py:120-153 | the line loop yields the headings of the page's lines, in line order |
| RankOutline.CollectHeadings | ext2.py:117-153 | phase 3 yields the headings of every page, page after page |
| RankOutline.HeadingOfLineWellFormed | ext2.py:131-153 | a line's heading is well formed (see HeadingsWellFormed) |
| RankOutline.LineHeadingsWellFormed | ext2.py:120-153 | every heading of a page is well formed |
| RankOutline.HeadingsWellFormed | ext2.py:117-153 | every collected heading has level H1 to H4 and an existing page. Its text is clean, has at least 3 characters and at most 12 words, does not end in ',', has no dot leader, is not a revision row, has at most 8 words when it starts with `digits. `, and is neither a page footer nor a bare number |
| RankOutline.Texts | ext2.py:95 | the texts of the words, in order |
| RankOutline.TitleRows | ext2.py:91-99 | the title rows are the rows holding a word within 0.1 pt of the largest size, strictly increasing |
| RankOutline.TopRows | ext2.py:101 | `sorted_y_coords[:3]`: the first three rows, or all when fewer |
| RankOutline.RowTexts | ext2.py:101 | one joined text per title row |
| RankOutline.JoinRows | ext2.py:101 | the comprehension joins the words of each chosen row, in row order |
| RankOutline.ExtractTitle | ext2.py:86-105 | phase 2 returns the title the rows give, with the "Untitled Document" fallback |
| RankOutline.TopRowsListed | ext2.py:99-101 | each of the first three sorted rows is a key of the grouping |
| RankOutline.ExtractRawTitle | ext2.py:88-102 | the title text before the fallback: "" without a positive size or without a matching word |
| RankOutline.TitleShape | ext2.py:102-105 | the title is "Untitled Document" or a clean text of at least five characters |
| RankOutline.NoTitleWords | ext2.py:88-105 | without a positive largest size, or without a word of that size, the title is the fallback |
| RankOutline.TitleRowsAreTopMost | ext2.py:97-101 | the title rows are the first min(3, n) rows holding a largest-size word, and every row left out lies below every row taken |
| RankOutline.ExtractOutline | ext2.py:61-164 | an empty document gives "Empty Document" with no headings; otherwise the title of the first page and the de-duplicated headings of all pages, keys unique |
| FrequencyOutline.SizesAbove | ext3.py:40 | the comprehension keeps exactly the keys above the bound, without duplicates when the keys have none |
| FrequencyOutline.ModalSize | ext3.py:36 | the body size is a size that occurs |
| FrequencyOutline.HeadingSizesOf | ext3.py:40 | the heading sizes are strictly decreasing and are exactly the keys above body + 1 |
| FrequencyOutline.AnalyzeDocumentStyles | ext3.py:18-42 | the counting loop and the max/sort return the body and heading sizes of the word-size histogram |
| FrequencyOutline.StylesOfGroups | ext3.py:23-42 | the same result, computed over the sizes of page after page |
| FrequencyOutline.StylesOfCounts | ext3.py:32-42 | reading the histogram and its key order gives the same styles, (0, []) when empty |
| FrequencyOutline.StylesOfHistogram | ext3.py:36-40 | the styles are read off the histogram and its first-seen key order |
| FrequencyOutline.NoKeysNoSizes | ext3.py:32-33 | the counter is empty exactly when there are no words |
| FrequencyOutline.NoWordsNoStyles | ext3.py:32-33 | a document without words gives body size 0 and no heading size |
| FrequencyOutline.BodySizeIsModal | ext3.py:36 | the body size occurs, no size occurs more often, and it is the first-seen size among those equally frequent |
| FrequencyOutline.HeadingSizesAreLargeSizes | ext3.py:38-42 | the heading sizes are strictly decreasing and are exactly the sizes that occur more than one point above the body size |
| FrequencyOutline.LevelMap | ext3.py:58 | the dictionary from each heading size to its position counted from 1, a later equal size overwriting an earlier one |
| FrequencyOutline.LevelOr4 | ext3.py:139 | `level_map.get(font_size, "H4")`: the mapped level, or 4 for an unmapped size |
| FrequencyOutline.LevelMapRanks | ext3.py:58 | the level map sends `heading_sizes[i]` to `i + 1` and maps nothing else |
| FrequencyOutline.LevelMapRange | ext3.py:58 | every mapped level lies between 1 and the number of heading sizes |
| FrequencyOutline.Texts | ext3.py:77 | the texts of the words, in order |
| FrequencyOutline.TitleRows | ext3.py:72-81 | the title rows are the rows holding a word of the largest heading size, strictly increasing |
| FrequencyOutline.RowTexts | ext3.py:83 | one joined text per title row |
| FrequencyOutline.JoinRows | ext3.py:83 | the comprehension joins the words of every title row, in row order |
| FrequencyOutline.ExtractTitle | ext3.py:60-86 | phase 2 returns the cleaned join of all title rows, or "Untitled Document" without a heading size or when it is empty |
| FrequencyOutline.ExtractRawTitle | ext3.py:66-84 | the cleaned title text: "" without a word of the largest heading size |
| FrequencyOutline.TitleShape | ext3.py:84-86 | the title is "Untitled Document" or a clean non-empty text |
| FrequencyOutline.NoHeadingSizeNoTitle | ext3.py:61-62 | without a heading size the title is "Untitled Document" |
| FrequencyOutline.PageOutlines | ext3.py:91-144 | entry `p` holds the headings of page `p + 1` |
| FrequencyOutline.LineWords | ext3.py:102 | the words of one row, stably sorted by `x0`; LineWordsOrdered states it |
| FrequencyOutline.HeadingOfLine | ext3.py:102-144 | the skip of an empty row, then the six `continue` rules in source order on the first word's size and font and the line's text and word count; a line passing them is kept with its size's level, by default 4 |
| FrequencyOutline.ClassifyLine | ext3.py:102-144 | one pass of the row loop, with its `continue` rules, yields the heading of that line or none |
| FrequencyOutline.ClassifyRows | ext3.py:101-144 | the row loop yields the headings of the page's rows, top to bottom, each row ordered by `x0` |
| FrequencyOutline.RowHeadingsSnoc | ext3.py:101-144 | one row more appends that row's heading, if any |
| FrequencyOutline.PageOutline | ext3.py:92-144 | the body of the page loop yields the page's headings |
| FrequencyOutline.CollectHeadings | ext3.py:89-144 | phase 3 yields the headings of every page, page after page |
| FrequencyOutline.KeptLineShape | ext3.py:111-139 | a kept line is bold or upper-case, has no `.{3,}\s*\d+` leader and no `d.d ` prefix, and has at most 12 words, at most 8 when numbered. Its text is its cleaned words. Its level is the rank of its first word's size, so the "H4" default is never used |
| FrequencyOutline.LongNumberedLineDropped | ext3.py:128-132 | a line starting with a section number and of more than eight words is dropped |
| FrequencyOutline.LineWordsOrdered | ext3.py:102 | a line's words are exactly the words of its row, ordered by `x0`, with equal `x0` in input order |
| FrequencyOutline.HeadingOfLineWellFormed | ext3.py:111-144 | a line's heading is well formed (see HeadingsWellFormed) |
| FrequencyOutline.AllWellFormedConcat | ext3.py:140-144 | appending well-formed headings to well-formed headings keeps them well formed |
| FrequencyOutline.RowHeadingsWellFormed | ext3.py:101-144 | every heading of a page's rows is well formed |
| FrequencyOutline.PageOutlineWellFormed | ext3.py:91-144 | every heading of a page is well formed |
| FrequencyOutline.PagesWellFormed | ext3.py:91-144 | every page's headings are well formed |
| FrequencyOutline.FlattenWellFormed | ext3.py:140-144 | well-formed headings page after page stay well formed |
| FrequencyOutline.HeadingsWellFormed | ext3.py:111-144 | every collected heading has a level from 1 to the number of heading sizes and an existing page. Its text is clean, with no dot leader and no `d.d ` prefix |
| FrequencyOutline.ExtractOutline | ext3.py:44-155 | an empty document gives "Empty Document" with no headings; otherwise the phase-2 title and the de-duplicated headings of all pages, keys unique |
| PersonaAnalyst.BoundaryAt | src/persona_analyst.py:106-113 | boundary `i` carries entry `i`'s title and page, and entry `i + 1`'s title and page; both are absent exactly for the last entry |
| PersonaAnalyst.Boundaries | src/persona_analyst.py:105-113 | one boundary per outline entry, in order |
| PersonaAnalyst.SectionBoundaries | src/persona_analyst.py:105-113 | the loop builds that list of boundaries |
| PersonaAnalyst.Stripped | src/persona_analyst.py:51 | each line stripped, in order |
| PersonaAnalyst.StopTitle | src/persona_analyst.py:64-66 | the next section's title ends the scan of a page only when the next page and a non-empty next title are given and this is the next section's page |
| PersonaAnalyst.ScanFrom | src/persona_analyst.py:49-70 | one page's contribution: before the title, lines are skipped and the first line containing it is kept; after it, lines are kept up to the first containing the stop title; SkipsToTitle and CollectsUntilStop state it |
| PersonaAnalyst.PageParts | src/persona_analyst.py:45-70 | each page's contribution is scanned on its own, with the found flag starting false, against the stop title of that page |
| PersonaAnalyst.ScanEnd | src/persona_analyst.py:45-75 | the page loop reads from the start page up to the next section's page, or to the last page without one, and always reads the start page |
| PersonaAnalyst.SectionTextOf | src/persona_analyst.py:41-83 | a start page beyond the document gives ""; every section text is single-spaced and trimmed |
| PersonaAnalyst.ScanFromStep | src/persona_analyst.py:50-70 | one line of the inner loop: skip or take it before the title is found, stop at the stop title, take it otherwise |
| PersonaAnalyst.ScanPage | src/persona_analyst.py:47-70 | the inner loop with its `found_title` flag, `continue` and `break` yields the page's contribution |
| PersonaAnalyst.ScanSectionStep | src/persona_analyst.py:72-75 | one page more appends its contribution, and the `break` fires exactly at the page where the scan ends |
| PersonaAnalyst.ScanSection | src/persona_analyst.py:45-75 | the page loop collects the contributions of the pages from the start page up to its end, in page order |
| PersonaAnalyst.SectionText | src/persona_analyst.py:30-83 | `get_text_content_for_section` returns the section text of its arguments |
| PersonaAnalyst.FirstContaining | src/persona_analyst.py:55 | the first line containing a text, or the line count |
| PersonaAnalyst.SkipsToTitle | src/persona_analyst.py:53-61 | on each page, the lines before the first one containing the title are skipped, and that line is kept; a page without it contributes nothing |
| PersonaAnalyst.CollectsUntilStop | src/persona_analyst.py:63-70 | after the title, every line is kept up to the first one containing the stop title, which is excluded; without a stop title, to the end of the page |
| PersonaAnalyst.GatherPrefix | src/persona_analyst.py:45 | the contributions up to a page do not depend on the pages after it |
| PersonaAnalyst.PagePartsPrefix | src/persona_analyst.py:46-47 | each page's scan does not depend on the later pages |
| PersonaAnalyst.SectionLinesPrefix | src/persona_analyst.py:74-75 | the lines a section collects come only from the pages up to the next section's page |
| PersonaAnalyst.SectionTextReadsUpToNextPage | src/persona_analyst.py:64-75 | a section's text is unchanged when the pages after the next section's page are dropped: scanning never goes past it |
| PersonaAnalyst.SectionsUpToAt | src/persona_analyst.py:115-130 | section `i` is the section of boundary `i` |
| PersonaAnalyst.DocSectionLists | src/persona_analyst.py:99-130 | entry `d` holds the sections of document `d` |
| PersonaAnalyst.DocumentSections | src/persona_analyst.py:115-130 | the section loop of one document yields its sections in outline order |
| PersonaAnalyst.CollectSections | src/persona_analyst.py:99-130 | step 1 yields the sections of the documents, document after document |
| PersonaAnalyst.SectionsFollowOutline | src/persona_analyst.py:106-130 | section `i` of a document carries the document name and entry `i`'s title and page. Its text is read up to entry `i + 1`, or to the end for the last entry |
| PersonaAnalyst.QueryText | src/persona_analyst.py:137 | the query "Persona: <persona>. Job: <job>" |
| PersonaAnalyst.SectionTexts | src/persona_analyst.py:141 | the section texts, in order |
| PersonaAnalyst.AssignScores | src/persona_analyst.py:158-161 | the loop stores score `i` in section `i` and keeps the order |
| PersonaAnalyst.Ranked | src/persona_analyst.py:164 | `sort(key=importance, reverse=True)` as a stable ascending sort on the negated score; RankedOrder states it |
| PersonaAnalyst.RankedOrder | src/persona_analyst.py:163-164 | the ranking is a permutation of the scored sections, non-increasing in score; equal scores keep their input order |
| PersonaAnalyst.Relevant | src/persona_analyst.py:188-193 | the union of the lemma sets is non-empty and 20 times the intersection exceeds the union |
| PersonaAnalyst.RelevantIsJaccard | src/persona_analyst.py:188-193 | the whole-number relevance test holds exactly when union > 0 and intersection / union > 0.05 |
| PersonaAnalyst.RelevanceOf | src/persona_analyst.py:184-194 | the relevance test of each sentence, in order |
| PersonaAnalyst.KeptUpToSound | src/persona_analyst.py:191-194 | each kept text is a marked sentence, stripped |
| PersonaAnalyst.KeptUpToComplete | src/persona_analyst.py:191-194 | each marked sentence looked at is kept, stripped |
| PersonaAnalyst.KeptTotals | src/persona_analyst.py:197 | entry `k` is the total length kept after sentence `k` |
| PersonaAnalyst.StopFrom | src/persona_analyst.py:197-199 | the number of sentences the loop looks at from `j` on: up to and including the first whose kept total exceeds 1000, else all; StopFromBelow and StopFromAbove state it |
| PersonaAnalyst.StopFromBelow | src/persona_analyst.py:197-199 | before the stopping sentence, the running total is at most 1000 |
| PersonaAnalyst.StopFromAbove | src/persona_analyst.py:197-199 | stopping early means the total passed 1000 at the stopping sentence |
| PersonaAnalyst.SelectedTexts | src/persona_analyst.py:184-199 | the stripped relevant sentences among those the loop looks at, in order; SelectedSound, SelectedComplete and SelectionCutoff state it |
| PersonaAnalyst.SelectStep | src/persona_analyst.py:191-194 | one sentence more appends it, stripped, when it is relevant |
| PersonaAnalyst.KeepIfRelevant | src/persona_analyst.py:188-194 | the relevance test appends the stripped sentence exactly when it is relevant |
| PersonaAnalyst.SelectSentences | src/persona_analyst.py:182-199 | the sentence loop with its `break` yields the relevant sentences among those up to the cut-off |
| PersonaAnalyst.SelectedSound | src/persona_analyst.py:184-194 | every kept text is a relevant sentence looked at, stripped |
| PersonaAnalyst.SelectedComplete | src/persona_analyst.py:184-194 | every relevant sentence looked at is kept |
| PersonaAnalyst.SelectionCutoff | src/persona_analyst.py:196-199 | the greedy cut-off: the kept total is at most 1000 before the last sentence looked at, and above 1000 at it unless every sentence was looked at |
| PersonaAnalyst.RefinementOf | src/persona_analyst.py:178-206 | a refinement exists only for a section with text, and carries its document and page |
| PersonaAnalyst.RefinementsOf | src/persona_analyst.py:174-206 | the refinement of each ranked section, in rank order |
| PersonaAnalyst.PresentCount | src/persona_analyst.py:201-206 | at most one entry per section looked at |
| PersonaAnalyst.PresentFrom | src/persona_analyst.py:201-206 | each entry comes from one of the sections looked at |
| PersonaAnalyst.PresentNone | src/persona_analyst.py:201-206 | without any refinement there is no entry |
| PersonaAnalyst.TopCount | src/persona_analyst.py:169-176 | the number of ranked sections the refinement loop looks at: five, or all when fewer |
| PersonaAnalyst.RefineSections | src/persona_analyst.py:167-206 | the refinement loop yields the refinements of the first five ranked sections, in rank order |
| PersonaAnalyst.RefinedCount | src/persona_analyst.py:169-176 | there are no more entries than sections looked at |
| PersonaAnalyst.RefinedFromTop | src/persona_analyst.py:174-206 | every entry is the refinement of one of the first ranked sections that has text, carrying its document and page |
| PersonaAnalyst.EmptyTopRefinesNothing | src/persona_analyst.py:174-179 | sections without text use up their slot: when the first five have none, nothing is refined |
| PersonaAnalyst.Publish | src/persona_analyst.py:209 | a ranked section without its text, the other fields unchanged |
| PersonaAnalyst.PublishAll | src/persona_analyst.py:209 | the final records are the ranked sections without their text, all other fields unchanged, in rank order |
| PersonaAnalyst.DocumentNames | src/persona_analyst.py:92 | one name per document, in order |
| PersonaAnalyst.AnalyzeCollection | src/persona_analyst.py:86-215 | without sections, both lists are empty. Otherwise the ranked sections are published in score order, and the refinements are those of the first five ranked sections against the query's lemmas. The metadata lists the documents, the persona and the job |

## Left out

- The PDF library (`pdfplumber.open`, `page.chars`, `extract_words`, `extract_text_lines`) is not modelled. Its output is each operation's input: glyphs, words and text lines with the fields the code reads.
- `outline_extractor.extract_outline_with_pdfplumber`, as the analyst calls it, is not part of this model. Each document is given with its outline.
- spaCy is not modelled: model loading, lemmatisation and the split of a text into sentences.
  - The query's lemma set is a function parameter `lemmas`.
  - The sentences of a section text, each with its lemma set, come from a function parameter `segment`.
- TF-IDF vectorisation and cosine similarity are replaced by a function parameter `similarity`: the score of section `i` of a corpus. Scores are not shown to lie in [0, 1].
- `datetime.now().isoformat()` is a parameter `timestamp`, and each document's name is taken to be the result of `os.path.basename`.
- The `try`/`except` paths are not modelled: "Error Processing Document", and the empty text on an unreadable file. Each model covers a file that opened and a library that did not raise.
- The analyst uses `re` and `pdfplumber` without importing them (src/persona_analyst.py:40, 83). The model treats both names as available.
- run_local.py, the `__main__` blocks, printing, argument parsing and JSON output are I/O orchestration.
- `round(size, 2)`, `round(size)` and `round(y0)` are not modelled: sizes and `y0` arrive rounded.
  - In ext2.py, sizes are whole numbers of hundredths of a point, and the 0.9 and 0.1-point comparisons are exact whole-number and real comparisons.
  - Floating-point error in those comparisons is not modelled.
- Word sizes in ext2.py's title code, `x0` and the scores are reals. NaN and infinities are not modelled, so the sort's behaviour on NaN scores is not captured.
- Text.Lower: lower-cases ASCII letters only, not Python's full Unicode case mapping.
- Text.IsUpperText: ASCII letters only; Python's `str.isupper` also counts other cased characters.
- Python's in-place `list.sort` on `ranked_sections` is modelled on values: the sorted list replaces the old one. No other reference to the list exists in the source, so aliasing plays no part.
- The grouping dictionaries (`defaultdict(list)`) are modelled as maps from row to the items that `Collections.Bucket` selects. They are filled by the loops in `Collections.GroupByRow`.
- The `importance_rank` placeholder `0` (an integer in the source) is modelled as the real `0.0`.
