/**
 * The persona-driven analysis of a document collection
 * (src/persona_analyst.py): every outline entry of every document becomes a
 * section whose text is read from the page lines between its title and the
 * next entry's title; the sections are scored against a query made of the
 * persona and the job, sorted by score, and the first five ranked sections
 * are refined to their sentences that share enough lemmas with the query.
 *
 * The outline extractor, the PDF reader, spaCy and TF-IDF are outside the
 * model: a document arrives with its outline and the stripped lines of each
 * page; the section scores, the query's lemmas and the split of a text into
 * sentences (each with its lemma set) are parameters.
 */
module PersonaAnalyst {
  import opened Text
  import opened Collections
  import opened Outline

  /** A document: its file name, the outline extracted from it, and the text lines of each page. */
  datatype Document = Document(name: string, outline: seq<Entry>, pages: seq<seq<string>>)

  /** A section's title and page, and those of the entry after it, if any. */
  datatype Boundary = Boundary(title: string, page: PageNo, nextTitle: Option<string>, nextPage: Option<PageNo>)

  /** One record of `all_extracted_sections`. */
  datatype Section = Section(document: string, pageNumber: PageNo, sectionTitle: string, fullText: string, importance: real)

  /** One record of `extracted_sections`: a section without its text. */
  datatype RankedSection = RankedSection(document: string, pageNumber: PageNo, sectionTitle: string, importance: real)

  /** A sentence of a section's text, with the lemmas of its alphabetic, non-stop-word tokens. */
  datatype Sentence = Sentence(text: string, lemmas: set<string>)

  /** One record of `sub_section_analysis`. */
  datatype Refined = Refined(document: string, pageNumber: PageNo, refinedText: string)

  datatype Metadata = Metadata(inputDocuments: seq<string>, persona: string, job: string, timestamp: string)

  datatype Analysis = Analysis(metadata: Metadata, extractedSections: seq<RankedSection>, subSectionAnalysis: seq<Refined>)

  // ---------------------------------------------------------------------
  // Section boundaries
  // ---------------------------------------------------------------------

  /** Entry `i` with the title and page of entry `i + 1`, if there is one. */
  function BoundaryAt(outline: seq<Entry>, i: nat): (b: Boundary)
    requires i < |outline|
    ensures b.title == outline[i].text && b.page == outline[i].page
    ensures (b.nextTitle.None? <==> i == |outline| - 1) && (b.nextPage.None? <==> i == |outline| - 1)
    ensures i < |outline| - 1 ==> b.nextTitle == Some(outline[i + 1].text) && b.nextPage == Some(outline[i + 1].page)
  {
    if i + 1 < |outline| then Boundary(outline[i].text, outline[i].page, Some(outline[i + 1].text), Some(outline[i + 1].page))
    else Boundary(outline[i].text, outline[i].page, None, None)
  }

  /** The boundaries of all entries: the last one has no next title and no next page. */
  function Boundaries(outline: seq<Entry>): (bs: seq<Boundary>)
    ensures |bs| == |outline|
    ensures forall i :: 0 <= i < |bs| ==> bs[i] == BoundaryAt(outline, i)
  {
    seq(|outline|, i requires 0 <= i < |outline| => BoundaryAt(outline, i))
  }

  /** The loop that fills `section_boundaries`. */
  method SectionBoundaries(outline: seq<Entry>) returns (bs: seq<Boundary>)
    ensures bs == Boundaries(outline)
  {
    bs := [];
    for i := 0 to |outline|
      invariant bs == Boundaries(outline)[..i]
    {
      var nextTitle := if i + 1 < |outline| then Some(outline[i + 1].text) else None;
      var nextPage := if i + 1 < |outline| then Some(outline[i + 1].page) else None;
      bs := bs + [Boundary(outline[i].text, outline[i].page, nextTitle, nextPage)];
    }
  }

  // ---------------------------------------------------------------------
  // get_text_content_for_section
  // ---------------------------------------------------------------------

  /**
   * The title that ends the section on page index `p`: the next title, when
   * both the next page and a non-empty next title are given and `p` is the
   * next page's index.
   */
  function StopTitle(p: nat, nextPage: Option<PageNo>, nextTitle: Option<string>): Option<string>
  {
    if nextPage.Some? && nextTitle.Some? && nextTitle.value != [] && p == nextPage.value - 1 then nextTitle else None
  }

  /**
   * The lines one page contributes, from its stripped lines: before the
   * title is found, lines are skipped and the first one containing the title
   * is kept; afterwards every line is kept until one contains the stop
   * title, which ends the page.
   */
  function ScanFrom(cleaned: seq<string>, title: string, stop: Option<string>, found: bool): seq<string>
    decreases |cleaned|
  {
    if cleaned == [] then []
    else
      var t := cleaned[0];
      if !found then
        if IsSubstring(title, t) then [t] + ScanFrom(cleaned[1..], title, stop, true)
        else ScanFrom(cleaned[1..], title, stop, false)
      else if stop.Some? && IsSubstring(stop.value, t) then []
      else [t] + ScanFrom(cleaned[1..], title, stop, true)
  }

  /** `line.strip()` of every line. */
  function Stripped(lines: seq<string>): (r: seq<string>)
    ensures |r| == |lines| && forall i :: 0 <= i < |lines| ==> r[i] == Strip(lines[i])
  {
    seq(|lines|, i requires 0 <= i < |lines| => Strip(lines[i]))
  }

  /** The lines each page contributes on its own, with `found_title` starting out false on every page. */
  function PageParts(pages: seq<seq<string>>, title: string, nextPage: Option<PageNo>, nextTitle: Option<string>): (r: seq<seq<string>>)
    ensures |r| == |pages|
    ensures forall p {:trigger ScanFrom(Stripped(pages[p]), title, StopTitle(p, nextPage, nextTitle), false)} ::
      0 <= p < |pages| ==> r[p] == ScanFrom(Stripped(pages[p]), title, StopTitle(p, nextPage, nextTitle), false)
  {
    seq(|pages|, p requires 0 <= p < |pages| => ScanFrom(Stripped(pages[p]), title, StopTitle(p, nextPage, nextTitle), false))
  }

  /**
   * One past the last page index the loop reads from `start` on: it stops
   * after the next section's page, or else after the last page.
   */
  function ScanEnd(count: nat, start: nat, nextPage: Option<PageNo>): (e: nat)
    requires start < count
    ensures start < e <= count
    ensures nextPage.Some? && start < nextPage.value <= count ==> e == nextPage.value
    ensures nextPage.Some? && nextPage.value <= start + 1 ==> e == start + 1
    ensures nextPage.None? ==> e == count
  {
    if nextPage.None? then count
    else if nextPage.value - 1 <= start then start + 1
    else if nextPage.value < count then nextPage.value
    else count
  }

  /** The contributions of the pages from index `start` up to index `n`, in page order. */
  function GatherUpTo(heres: seq<seq<string>>, start: nat, n: nat): seq<string>
    requires n <= |heres|
  {
    if n <= start then [] else GatherUpTo(heres, start, n - 1) + heres[n - 1]
  }

  /** The lines a section collects, from its own page up to where its scan ends. */
  function SectionLines(pages: seq<seq<string>>, page: PageNo, title: string, nextPage: Option<PageNo>, nextTitle: Option<string>): seq<string>
    requires page <= |pages|
  {
    GatherUpTo(PageParts(pages, title, nextPage, nextTitle), page - 1, ScanEnd(|pages|, page - 1, nextPage))
  }

  /** The section text: "" for a page beyond the document, else the scanned lines joined and normalised. */
  function SectionTextOf(pages: seq<seq<string>>, page: PageNo, title: string, nextPage: Option<PageNo>, nextTitle: Option<string>): (r: string)
    ensures page > |pages| ==> r == ""
    ensures IsSingleSpaced(r)
  {
    if page > |pages| then ""
    else NormalizeSpace(JoinWith(" ", SectionLines(pages, page, title, nextPage, nextTitle)))
  }

  /** One line of the scan, after the lines already collected. */
  lemma ScanFromStep(cleaned: seq<string>, i: nat, title: string, stop: Option<string>, found: bool, parts: seq<string>)
    requires i < |cleaned|
    ensures parts + ScanFrom(cleaned[i..], title, stop, found) ==
      if !found then
        if IsSubstring(title, cleaned[i]) then (parts + [cleaned[i]]) + ScanFrom(cleaned[i + 1..], title, stop, true)
        else parts + ScanFrom(cleaned[i + 1..], title, stop, false)
      else if stop.Some? && IsSubstring(stop.value, cleaned[i]) then parts
      else (parts + [cleaned[i]]) + ScanFrom(cleaned[i + 1..], title, stop, true)
  {
    assert cleaned[i..][0] == cleaned[i] && cleaned[i..][1..] == cleaned[i + 1..];
  }

  /** The inner loop over the lines of page index `p`, with `found_title` reset to false. */
  method ScanPage(pages: seq<seq<string>>, p: nat, title: string, nextPage: Option<PageNo>, nextTitle: Option<string>)
    returns (parts: seq<string>)
    requires p < |pages|
    ensures parts == PageParts(pages, title, nextPage, nextTitle)[p]
  {
    var lines := pages[p];
    ghost var stop := StopTitle(p, nextPage, nextTitle);
    ghost var cleaned := Stripped(lines);
    parts := [];
    var foundTitle := false;
    var i := 0;
    while i < |lines|
      invariant 0 <= i <= |lines|
      invariant ScanFrom(cleaned, title, stop, false) == parts + ScanFrom(cleaned[i..], title, stop, foundTitle)
    {
      var cleanedLineText := Strip(lines[i]);
      assert cleanedLineText == cleaned[i];
      ScanFromStep(cleaned, i, title, stop, foundTitle, parts);
      if !foundTitle {
        if IsSubstring(title, cleanedLineText) {
          foundTitle := true;
          parts := parts + [cleanedLineText];
        }
        i := i + 1;
        continue;
      }
      if nextPage.Some? && nextTitle.Some? && nextTitle.value != [] {
        if p == nextPage.value - 1 {
          if IsSubstring(nextTitle.value, cleanedLineText) {
            assert stop == nextTitle;
            break;
          }
        }
      }
      assert !(stop.Some? && IsSubstring(stop.value, cleanedLineText));
      parts := parts + [cleanedLineText];
      i := i + 1;
    }
  }

  /** One page more of the loop over pages: its lines are appended, and the loop stops where `ScanEnd` says. */
  lemma ScanSectionStep(heres: seq<seq<string>>, start: nat, p: nat, nextPage: Option<PageNo>, parts: seq<string>)
    requires start < |heres| && start <= p < ScanEnd(|heres|, start, nextPage) && parts == GatherUpTo(heres, start, p)
    ensures parts + heres[p] == GatherUpTo(heres, start, p + 1)
    ensures nextPage.Some? && p >= nextPage.value - 1 ==> p + 1 == ScanEnd(|heres|, start, nextPage)
    ensures !(nextPage.Some? && p >= nextPage.value - 1) ==> p + 1 < ScanEnd(|heres|, start, nextPage) || p + 1 == |heres|
  {
  }

  /** The loop over the pages from the section's page on, collecting the lines each one contributes. */
  method ScanSection(pages: seq<seq<string>>, pageNumber: PageNo, sectionTitle: string, nextPage: Option<PageNo>, nextTitle: Option<string>)
    returns (parts: seq<string>)
    requires pageNumber <= |pages|
    ensures parts == GatherUpTo(PageParts(pages, sectionTitle, nextPage, nextTitle), pageNumber - 1, ScanEnd(|pages|, pageNumber - 1, nextPage))
  {
    ghost var heres := PageParts(pages, sectionTitle, nextPage, nextTitle);
    ghost var end := ScanEnd(|pages|, pageNumber - 1, nextPage);
    parts := [];
    var p := pageNumber - 1;
    while p < |pages|
      invariant pageNumber - 1 <= p <= end
      invariant p < end || p == |pages|
      invariant parts == GatherUpTo(heres, pageNumber - 1, p)
      decreases |pages| - p
    {
      var pageParts := ScanPage(pages, p, sectionTitle, nextPage, nextTitle);
      ScanSectionStep(heres, pageNumber - 1, p, nextPage, parts);
      parts := parts + pageParts;
      if nextPage.Some? && p >= nextPage.value - 1 {
        break;
      }
      p := p + 1;
    }
  }

  /** `get_text_content_for_section` over the lines of an opened document. */
  method SectionText(pages: seq<seq<string>>, pageNumber: PageNo, sectionTitle: string, nextPage: Option<PageNo>, nextTitle: Option<string>)
    returns (text: string)
    ensures text == SectionTextOf(pages, pageNumber, sectionTitle, nextPage, nextTitle)
  {
    if pageNumber > |pages| {
      return "";
    }
    var parts := ScanSection(pages, pageNumber, sectionTitle, nextPage, nextTitle);
    text := NormalizeSpace(JoinWith(" ", parts));
  }

  /** The index of the first line containing `t`, or the number of lines. */
  function FirstContaining(cleaned: seq<string>, t: string): (k: nat)
    ensures k <= |cleaned|
    ensures forall j :: 0 <= j < k ==> !IsSubstring(t, cleaned[j])
    ensures k < |cleaned| ==> IsSubstring(t, cleaned[k])
  {
    if cleaned == [] then 0
    else if IsSubstring(t, cleaned[0]) then 0
    else 1 + FirstContaining(cleaned[1..], t)
  }

  /** Before the title is found, the lines of a page are skipped up to the first one containing it, which is kept. */
  lemma {:induction false} SkipsToTitle(cleaned: seq<string>, title: string, stop: Option<string>)
    ensures var k := FirstContaining(cleaned, title);
      ScanFrom(cleaned, title, stop, false) == if k == |cleaned| then [] else [cleaned[k]] + ScanFrom(cleaned[k + 1..], title, stop, true)
  {
    if cleaned != [] && !IsSubstring(title, cleaned[0]) {
      SkipsToTitle(cleaned[1..], title, stop);
      var k := FirstContaining(cleaned, title);
      if k < |cleaned| {
        assert cleaned[1..][k - 1 + 1..] == cleaned[k + 1..];
      }
    }
  }

  /**
   * Once the title is found, every line is kept up to the first one
   * containing the stop title, which is not; without a stop title, to the
   * end of the page.
   */
  lemma {:induction false} CollectsUntilStop(cleaned: seq<string>, title: string, stop: Option<string>)
    ensures var m := if stop.Some? then FirstContaining(cleaned, stop.value) else |cleaned|;
      ScanFrom(cleaned, title, stop, true) == cleaned[..m]
  {
    if cleaned != [] {
      CollectsUntilStop(cleaned[1..], title, stop);
      var m := if stop.Some? then FirstContaining(cleaned, stop.value) else |cleaned|;
      if m > 0 {
        assert cleaned[..m] == [cleaned[0]] + cleaned[1..][..m - 1];
      }
    }
  }

  /** The contributions up to page index `n` are the same over any longer run of pages. */
  lemma {:induction false} GatherPrefix(heres: seq<seq<string>>, start: nat, n: nat, k: nat)
    requires n <= k <= |heres|
    ensures GatherUpTo(heres, start, n) == GatherUpTo(heres[..k], start, n)
  {
    if n > start {
      GatherPrefix(heres, start, n - 1, k);
      assert heres[..k][n - 1] == heres[n - 1];
    }
  }

  /** The scan of each page does not depend on the pages after it. */
  lemma PagePartsPrefix(pages: seq<seq<string>>, k: nat, title: string, nextPage: Option<PageNo>, nextTitle: Option<string>)
    requires k <= |pages|
    ensures PageParts(pages[..k], title, nextPage, nextTitle) == PageParts(pages, title, nextPage, nextTitle)[..k]
  {
    var heres := PageParts(pages, title, nextPage, nextTitle);
    var front := PageParts(pages[..k], title, nextPage, nextTitle);
    forall i | 0 <= i < k ensures front[i] == heres[i] {
      assert pages[..k][i] == pages[i];
      assert front[i] == ScanFrom(Stripped(pages[..k][i]), title, StopTitle(i, nextPage, nextTitle), false);
      assert heres[i] == ScanFrom(Stripped(pages[i]), title, StopTitle(i, nextPage, nextTitle), false);
    }
  }

  /** The lines a section collects come from the pages up to the next section's page only. */
  lemma SectionLinesPrefix(pages: seq<seq<string>>, page: PageNo, k: nat, title: string, nextPage: Option<PageNo>,
                           nextTitle: Option<string>)
    requires nextPage.Some? && page <= k <= |pages| && nextPage.value <= k
    ensures SectionLines(pages, page, title, nextPage, nextTitle) == SectionLines(pages[..k], page, title, nextPage, nextTitle)
  {
    PagePartsPrefix(pages, k, title, nextPage, nextTitle);
    var e := ScanEnd(|pages|, page - 1, nextPage);
    assert |pages[..k]| == k && e == ScanEnd(k, page - 1, nextPage);
    GatherPrefix(PageParts(pages, title, nextPage, nextTitle), page - 1, e, k);
  }

  /** A section's text depends only on the pages up to the next section's page: the later ones are never read. */
  lemma SectionTextReadsUpToNextPage(pages: seq<seq<string>>, page: PageNo, k: nat, title: string, nextPage: Option<PageNo>,
                                     nextTitle: Option<string>)
    requires nextPage.Some? && page <= k <= |pages| && nextPage.value <= k
    ensures SectionTextOf(pages, page, title, nextPage, nextTitle) == SectionTextOf(pages[..k], page, title, nextPage, nextTitle)
  {
    SectionLinesPrefix(pages, page, k, title, nextPage, nextTitle);
  }

  // ---------------------------------------------------------------------
  // Sections of the collection
  // ---------------------------------------------------------------------

  function SectionOf(doc: Document, b: Boundary): Section
  {
    Section(doc.name, b.page, b.title, SectionTextOf(doc.pages, b.page, b.title, b.nextPage, b.nextTitle), 0.0)
  }

  /** The sections of the first `n` outline entries of a document. */
  function SectionsUpTo(doc: Document, n: nat): (r: seq<Section>)
    requires n <= |doc.outline|
    ensures |r| == n
  {
    if n == 0 then [] else SectionsUpTo(doc, n - 1) + [SectionOf(doc, Boundaries(doc.outline)[n - 1])]
  }

  /** The sections of one document, one per outline entry, in outline order. */
  function DocSections(doc: Document): (r: seq<Section>)
    ensures |r| == |doc.outline|
  {
    SectionsUpTo(doc, |doc.outline|)
  }

  lemma {:induction false} SectionsUpToAt(doc: Document, n: nat, i: nat)
    requires i < n <= |doc.outline|
    ensures SectionsUpTo(doc, n)[i] == SectionOf(doc, Boundaries(doc.outline)[i])
  {
    if i < n - 1 {
      SectionsUpToAt(doc, n - 1, i);
    }
  }

  function DocSectionLists(docs: seq<Document>): (r: seq<seq<Section>>)
    ensures |r| == |docs| && forall d :: 0 <= d < |docs| ==> r[d] == DocSections(docs[d])
  {
    seq(|docs|, d requires 0 <= d < |docs| => DocSections(docs[d]))
  }

  /** `all_extracted_sections`: the sections of the documents, document after document. */
  function AllSections(docs: seq<Document>): seq<Section>
  {
    Flatten(DocSectionLists(docs))
  }

  /** The second loop of step 1, over one document's boundaries. */
  method DocumentSections(doc: Document) returns (sections: seq<Section>)
    ensures sections == DocSections(doc)
  {
    var bs := SectionBoundaries(doc.outline);
    sections := [];
    for i := 0 to |bs|
      invariant sections == SectionsUpTo(doc, i)
    {
      var content := SectionText(doc.pages, bs[i].page, bs[i].title, bs[i].nextPage, bs[i].nextTitle);
      sections := sections + [Section(doc.name, bs[i].page, bs[i].title, content, 0.0)];
    }
  }

  /** Step 1 over all documents. */
  method CollectSections(docs: seq<Document>) returns (sections: seq<Section>)
    ensures sections == AllSections(docs)
  {
    ghost var g := DocSectionLists(docs);
    sections := [];
    for d := 0 to |docs|
      invariant sections == Flatten(g[..d])
    {
      var docSections := DocumentSections(docs[d]);
      FlattenSnoc(g, d);
      sections := sections + docSections;
    }
    assert g[..|docs|] == g;
  }

  /** Every section of the collection carries the title and page of an outline entry of its document. */
  lemma SectionsFollowOutline(doc: Document, i: nat)
    requires i < |doc.outline|
    ensures var s := DocSections(doc)[i];
      && s.document == doc.name && s.sectionTitle == doc.outline[i].text && s.pageNumber == doc.outline[i].page
      && s.fullText == SectionTextOf(doc.pages, doc.outline[i].page, doc.outline[i].text,
           if i + 1 < |doc.outline| then Some(doc.outline[i + 1].page) else None,
           if i + 1 < |doc.outline| then Some(doc.outline[i + 1].text) else None)
  {
    SectionsUpToAt(doc, |doc.outline|, i);
    var bs := Boundaries(doc.outline);
    if i + 1 < |doc.outline| {
      assert bs[i].nextTitle == Some(doc.outline[i + 1].text);
    } else {
      assert bs[i].nextTitle.None? && bs[i].nextPage.None?;
    }
  }

  // ---------------------------------------------------------------------
  // Step 2: scores and ranking
  // ---------------------------------------------------------------------

  /** `f"Persona: {persona_definition}. Job: {job_to_be_done}"`. */
  function QueryText(persona: string, job: string): string
  {
    "Persona: " + persona + ". Job: " + job
  }

  function SectionTexts(sections: seq<Section>): (r: seq<string>)
    ensures |r| == |sections| && forall i :: 0 <= i < |sections| ==> r[i] == sections[i].fullText
  {
    seq(|sections|, i requires 0 <= i < |sections| => sections[i].fullText)
  }

  /** The section texts followed by the query: the corpus the scores are computed on. */
  function Corpus(sections: seq<Section>, query: string): seq<string>
  {
    SectionTexts(sections) + [query]
  }

  /** Each section with its score, `similarity(corpus, i)` being the score of section `i`. */
  function Scored(sections: seq<Section>, corpus: seq<string>, similarity: (seq<string>, nat) -> real): (r: seq<Section>)
    ensures |r| == |sections|
  {
    seq(|sections|, i requires 0 <= i < |sections| => sections[i].(importance := similarity(corpus, i)))
  }

  /** The loop that stores each score in its section and appends it to `ranked_sections`. */
  method AssignScores(sections: seq<Section>, corpus: seq<string>, similarity: (seq<string>, nat) -> real)
    returns (ranked: seq<Section>)
    ensures ranked == Scored(sections, corpus, similarity)
  {
    ranked := [];
    for i := 0 to |sections|
      invariant ranked == Scored(sections, corpus, similarity)[..i]
    {
      var section := sections[i].(importance := similarity(corpus, i));
      ranked := ranked + [section];
    }
  }

  /** The sort key: with it, an ascending stable sort is `sort(reverse=True)` by score. */
  function NegImportance(s: Section): real
  {
    -s.importance
  }

  /** `ranked_sections.sort(key=lambda x: x["importance_rank"], reverse=True)`. */
  function Ranked(scored: seq<Section>): seq<Section>
  {
    SortBy(scored, NegImportance)
  }

  /**
   * The ranking is a permutation of the scored sections, in non-increasing
   * order of score, and sections of equal score keep their order.
   */
  lemma RankedOrder(scored: seq<Section>)
    ensures var r := Ranked(scored);
      && multiset(r) == multiset(scored)
      && (forall i, j :: 0 <= i < j < |r| ==> r[i].importance >= r[j].importance)
      && (forall k :: WithKey(r, NegImportance, k) == WithKey(scored, NegImportance, k))
  {
    var r := Ranked(scored);
    forall i, j | 0 <= i < j < |r| ensures r[i].importance >= r[j].importance {
      assert NegImportance(r[i]) <= NegImportance(r[j]);
    }
  }

  // ---------------------------------------------------------------------
  // Step 3: refinement
  // ---------------------------------------------------------------------

  /** Jaccard overlap of the lemma sets above 0.05, written `20 * |I| > |U|` over whole numbers. */
  predicate Relevant(query: set<string>, s: Sentence)
  {
    |query + s.lemmas| > 0 && 20 * |query * s.lemmas| > |query + s.lemmas|
  }

  lemma ScaleMonotone(a: real, b: real, u: real)
    requires u > 0.0
    ensures a > b <==> a * u > b * u
  {
    if a > b {
      assert (a - b) * u > 0.0;
    }
    if a * u > b * u {
      assert (a - b) * u > 0.0;
    }
  }

  /** The whole-number test is the source's `union > 0 and intersection / union > 0.05`, read over the reals. */
  lemma RelevantIsJaccard(query: set<string>, s: Sentence)
    ensures Relevant(query, s) <==>
      |query + s.lemmas| > 0 && (|query * s.lemmas| as real) / (|query + s.lemmas| as real) > 0.05
  {
    var i, u := |query * s.lemmas|, |query + s.lemmas|;
    if u > 0 {
      var ir, ur := i as real, u as real;
      assert (ir / ur) * ur == ir;
      ScaleMonotone(ir / ur, 0.05, ur);
      assert 20 * i > u <==> ir > 0.05 * ur;
    }
  }

  /** The relevance test of every sentence, in order. */
  function RelevanceOf(sents: seq<Sentence>, query: set<string>): (rel: seq<bool>)
    ensures |rel| == |sents| && forall i :: 0 <= i < |sents| ==> rel[i] == Relevant(query, sents[i])
  {
    seq(|sents|, i requires 0 <= i < |sents| => Relevant(query, sents[i]))
  }

  /** The stripped texts of the sentences among the first `n` that `rel` marks, in order. */
  function KeptUpTo(sents: seq<Sentence>, rel: seq<bool>, n: nat): (r: seq<string>)
    requires n <= |sents| == |rel|
    ensures |r| <= n
  {
    if n == 0 then []
    else KeptUpTo(sents, rel, n - 1) + (if rel[n - 1] then [Strip(sents[n - 1].text)] else [])
  }

  /** Each kept text is a marked sentence, stripped. */
  lemma {:induction false} KeptUpToSound(sents: seq<Sentence>, rel: seq<bool>, n: nat, k: nat)
    requires n <= |sents| == |rel| && k < |KeptUpTo(sents, rel, n)|
    ensures exists i :: 0 <= i < n && rel[i] && KeptUpTo(sents, rel, n)[k] == Strip(sents[i].text)
  {
    var p := KeptUpTo(sents, rel, n - 1);
    if k < |p| {
      KeptUpToSound(sents, rel, n - 1, k);
      assert KeptUpTo(sents, rel, n)[k] == p[k];
    } else {
      assert rel[n - 1] && KeptUpTo(sents, rel, n)[k] == Strip(sents[n - 1].text);
    }
  }

  /** Each marked sentence among the first `n` is kept, stripped. */
  lemma {:induction false} KeptUpToComplete(sents: seq<Sentence>, rel: seq<bool>, n: nat, i: nat)
    requires i < n <= |sents| == |rel| && rel[i]
    ensures Strip(sents[i].text) in KeptUpTo(sents, rel, n)
  {
    if i < n - 1 {
      KeptUpToComplete(sents, rel, n - 1, i);
    }
  }

  /** The kept total after each sentence: entry `k` is the length of the texts kept from the first `k + 1` sentences. */
  function KeptTotals(sents: seq<Sentence>, rel: seq<bool>): (t: seq<nat>)
    requires |sents| == |rel|
    ensures |t| == |sents|
    ensures forall k {:trigger t[k]} :: 0 <= k < |sents| ==> t[k] == TotalLength(KeptUpTo(sents, rel, k + 1))
  {
    seq(|sents|, k requires 0 <= k < |sents| => TotalLength(KeptUpTo(sents, rel, k + 1)))
  }

  /** The number of sentences looked at from index `j` on: up to the first whose kept total is past 1000 characters. */
  function StopFrom(totals: seq<nat>, j: nat): (m: nat)
    requires j <= |totals|
    ensures j <= m <= |totals|
    decreases |totals| - j
  {
    if j == |totals| then |totals|
    else if totals[j] > 1000 then j + 1
    else StopFrom(totals, j + 1)
  }

  /** Every sentence looked at before the stopping one left the kept total at most 1000. */
  lemma {:induction false} StopFromBelow(totals: seq<nat>, j: nat, k: nat)
    requires j <= |totals| && j <= k && k + 1 < StopFrom(totals, j)
    ensures totals[k] <= 1000
    decreases |totals| - j
  {
    if k > j {
      StopFromBelow(totals, j + 1, k);
    }
  }

  /** Stopping before the end means the kept total went past 1000 at the stopping sentence. */
  lemma {:induction false} StopFromAbove(totals: seq<nat>, j: nat)
    requires j <= |totals| && StopFrom(totals, j) < |totals|
    ensures StopFrom(totals, j) > j && totals[StopFrom(totals, j) - 1] > 1000
    decreases |totals| - j
  {
    if totals[j] <= 1000 {
      StopFromAbove(totals, j + 1);
    }
  }

  /** The sentences the loop looks at: all of them, or up to the first that takes the kept total past 1000. */
  function StopIndex(sents: seq<Sentence>, query: set<string>): (m: nat)
    ensures m <= |sents|
  {
    StopFrom(KeptTotals(sents, RelevanceOf(sents, query)), 0)
  }

  /** The relevant sentences of a section, as the loop over `doc.sents` keeps them. */
  function SelectedTexts(sents: seq<Sentence>, query: set<string>): seq<string>
  {
    KeptUpTo(sents, RelevanceOf(sents, query), StopIndex(sents, query))
  }

  /** One sentence more: the kept texts grow by it when it is marked. */
  lemma SelectStep(sents: seq<Sentence>, rel: seq<bool>, i: nat)
    requires i < |sents| == |rel|
    ensures KeptUpTo(sents, rel, i + 1) == KeptUpTo(sents, rel, i) + (if rel[i] then [Strip(sents[i].text)] else [])
  {
  }

  /** The relevance test of one sentence: `union > 0` and then the Jaccard threshold. */
  method KeepIfRelevant(relevant: seq<string>, sent: Sentence, query: set<string>) returns (r: seq<string>)
    ensures r == relevant + (if Relevant(query, sent) then [Strip(sent.text)] else [])
  {
    r := relevant;
    if |query + sent.lemmas| > 0 {
      if 20 * |query * sent.lemmas| > |query + sent.lemmas| {
        r := r + [Strip(sent.text)];
      }
    }
  }

  /** The loop over the sentences of one section, with its early `break`. */
  method SelectSentences(sents: seq<Sentence>, query: set<string>) returns (relevant: seq<string>)
    ensures relevant == SelectedTexts(sents, query)
  {
    ghost var rel := RelevanceOf(sents, query);
    ghost var totals := KeptTotals(sents, rel);
    relevant := [];
    var i := 0;
    while i < |sents|
      invariant 0 <= i <= |sents|
      invariant relevant == KeptUpTo(sents, rel, i)
      invariant StopFrom(totals, i) == StopIndex(sents, query)
    {
      SelectStep(sents, rel, i);
      relevant := KeepIfRelevant(relevant, sents[i], query);
      var currentLength := TotalLength(relevant);
      i := i + 1;
      if currentLength > 1000 {
        return;
      }
    }
  }

  /** Every kept text is a relevant sentence among those looked at, stripped. */
  lemma SelectedSound(sents: seq<Sentence>, query: set<string>, k: nat)
    requires k < |SelectedTexts(sents, query)|
    ensures exists i ::
      0 <= i < StopIndex(sents, query) && Relevant(query, sents[i]) && SelectedTexts(sents, query)[k] == Strip(sents[i].text)
  {
    var rel := RelevanceOf(sents, query);
    KeptUpToSound(sents, rel, StopIndex(sents, query), k);
    var i :| 0 <= i < StopIndex(sents, query) && rel[i] && SelectedTexts(sents, query)[k] == Strip(sents[i].text);
    assert Relevant(query, sents[i]);
  }

  /** Every relevant sentence among those looked at is kept, stripped. */
  lemma SelectedComplete(sents: seq<Sentence>, query: set<string>, i: nat)
    requires i < StopIndex(sents, query) && Relevant(query, sents[i])
    ensures Strip(sents[i].text) in SelectedTexts(sents, query)
  {
    KeptUpToComplete(sents, RelevanceOf(sents, query), StopIndex(sents, query), i);
  }

  /**
   * The greedy cut-off, for the marking `rel` of `RelevanceOf` or any other:
   * the loop looks at the first `m` sentences (`StopFrom`); before the last
   * of those was looked at the kept total was at most 1000 characters; and
   * unless every sentence was looked at, the total is above 1000.
   */
  lemma SelectionCutoff(sents: seq<Sentence>, rel: seq<bool>)
    requires |sents| == |rel|
    ensures StopFrom(KeptTotals(sents, rel), 0) > 0 ==>
      TotalLength(KeptUpTo(sents, rel, StopFrom(KeptTotals(sents, rel), 0) - 1)) <= 1000
    ensures StopFrom(KeptTotals(sents, rel), 0) < |sents| ==>
      TotalLength(KeptUpTo(sents, rel, StopFrom(KeptTotals(sents, rel), 0))) > 1000
  {
    var totals := KeptTotals(sents, rel);
    var m := StopFrom(totals, 0);
    if m > 1 {
      StopFromBelow(totals, 0, m - 2);
      assert totals[m - 2] == TotalLength(KeptUpTo(sents, rel, m - 1));
    }
    if m < |sents| {
      StopFromAbove(totals, 0);
      assert totals[m - 1] == TotalLength(KeptUpTo(sents, rel, m));
    }
  }

  /** The refinement of one ranked section: none for an empty text or when no sentence is kept. */
  function RefinementOf(sec: Section, segment: string -> seq<Sentence>, query: set<string>): (o: Option<Refined>)
    ensures o.Some? ==> sec.fullText != [] && o.value.document == sec.document && o.value.pageNumber == sec.pageNumber
  {
    if sec.fullText == [] then None
    else
      var kept := SelectedTexts(segment(sec.fullText), query);
      if kept == [] then None else Some(Refined(sec.document, sec.pageNumber, JoinWith(" ", kept)))
  }

  /** The refinement of each ranked section, in rank order. */
  function RefinementsOf(ranked: seq<Section>, segment: string -> seq<Sentence>, query: set<string>): (opts: seq<Option<Refined>>)
    ensures |opts| == |ranked|
    ensures forall i {:trigger opts[i]} :: 0 <= i < |ranked| ==> opts[i] == RefinementOf(ranked[i], segment, query)
  {
    seq(|ranked|, i requires 0 <= i < |ranked| => RefinementOf(ranked[i], segment, query))
  }

  /** The values present among the first `n` options, in order. */
  function Present<T>(opts: seq<Option<T>>, n: nat): seq<T>
    requires n <= |opts|
  {
    if n == 0 then [] else Present(opts, n - 1) + (if opts[n - 1].Some? then [opts[n - 1].value] else [])
  }

  /** At most one value per option. */
  lemma {:induction false} PresentCount<T>(opts: seq<Option<T>>, n: nat)
    requires n <= |opts|
    ensures |Present(opts, n)| <= n
  {
    if n > 0 {
      PresentCount(opts, n - 1);
    }
  }

  /** Each present value is the content of one of the first `n` options. */
  lemma {:induction false} PresentFrom<T>(opts: seq<Option<T>>, n: nat, k: nat)
    requires n <= |opts| && k < |Present(opts, n)|
    ensures exists i :: 0 <= i < n && opts[i] == Some(Present(opts, n)[k])
  {
    var p := Present(opts, n - 1);
    if k < |p| {
      PresentFrom(opts, n - 1, k);
      var i :| 0 <= i < n - 1 && opts[i] == Some(p[k]);
      assert Present(opts, n)[k] == p[k];
    } else {
      assert opts[n - 1] == Some(Present(opts, n)[k]);
    }
  }

  /** No value is present when none of the first `n` options holds one. */
  lemma {:induction false} PresentNone<T>(opts: seq<Option<T>>, n: nat)
    requires n <= |opts| && forall i :: 0 <= i < n ==> opts[i].None?
    ensures Present(opts, n) == []
  {
    if n > 0 {
      PresentNone(opts, n - 1);
    }
  }

  /** The refined entries of the first `n` ranked sections, in rank order. */
  function RefinementsUpTo(ranked: seq<Section>, segment: string -> seq<Sentence>, query: set<string>, n: nat): seq<Refined>
    requires n <= |ranked|
  {
    Present(RefinementsOf(ranked, segment, query), n)
  }

  /** The number of ranked sections looked at: five, or fewer when there are fewer. */
  function TopCount(ranked: seq<Section>): nat
  {
    if |ranked| < 5 then |ranked| else 5
  }

  /** The refinement loop over the first five ranked sections. */
  method RefineSections(ranked: seq<Section>, segment: string -> seq<Sentence>, queryKeywords: set<string>)
    returns (subSections: seq<Refined>)
    ensures subSections == RefinementsUpTo(ranked, segment, queryKeywords, TopCount(ranked))
  {
    ghost var opts := RefinementsOf(ranked, segment, queryKeywords);
    subSections := [];
    var topN := 5;
    for i := 0 to |ranked|
      invariant i <= topN
      invariant subSections == Present(opts, i)
    {
      assert opts[i] == RefinementOf(ranked[i], segment, queryKeywords);
      if i >= topN {
        break;
      }
      var section := ranked[i];
      if section.fullText == [] {
        continue;
      }
      var relevant := SelectSentences(segment(section.fullText), queryKeywords);
      if relevant != [] {
        subSections := subSections + [Refined(section.document, section.pageNumber, JoinWith(" ", relevant))];
      }
    }
  }

  /** There are no more refined entries than sections looked at. */
  lemma RefinedCount(ranked: seq<Section>, segment: string -> seq<Sentence>, query: set<string>, n: nat)
    requires n <= |ranked|
    ensures |RefinementsUpTo(ranked, segment, query, n)| <= n
  {
    PresentCount(RefinementsOf(ranked, segment, query), n);
  }

  /** Every refined entry stems from a ranked section among the first `n` positions that has text. */
  lemma RefinedFromTop(ranked: seq<Section>, segment: string -> seq<Sentence>, query: set<string>, n: nat, k: nat)
    requires n <= |ranked| && k < |RefinementsUpTo(ranked, segment, query, n)|
    ensures var r := RefinementsUpTo(ranked, segment, query, n)[k];
      exists i :: 0 <= i < n && ranked[i].fullText != [] && RefinementOf(ranked[i], segment, query) == Some(r)
                  && r.document == ranked[i].document && r.pageNumber == ranked[i].pageNumber
  {
    var opts := RefinementsOf(ranked, segment, query);
    PresentFrom(opts, n, k);
    var i :| 0 <= i < n && opts[i] == Some(Present(opts, n)[k]);
    assert RefinementOf(ranked[i], segment, query) == Some(RefinementsUpTo(ranked, segment, query, n)[k]);
  }

  /** Sections without text use up their slot: when the first five have none, nothing is refined. */
  lemma EmptyTopRefinesNothing(ranked: seq<Section>, segment: string -> seq<Sentence>, query: set<string>, n: nat)
    requires n <= |ranked| && forall i :: 0 <= i < n ==> ranked[i].fullText == []
    ensures RefinementsUpTo(ranked, segment, query, n) == []
  {
    var opts := RefinementsOf(ranked, segment, query);
    forall i | 0 <= i < n
      ensures opts[i].None?
    {
      assert opts[i] == RefinementOf(ranked[i], segment, query);
    }
    PresentNone(opts, n);
  }

  // ---------------------------------------------------------------------
  // The whole analysis
  // ---------------------------------------------------------------------

  /** A ranked section without its text. */
  function Publish(s: Section): RankedSection
  {
    RankedSection(s.document, s.pageNumber, s.sectionTitle, s.importance)
  }

  /** `final_extracted_sections`: the records without `full_text_content`, in ranked order. */
  method PublishAll(ranked: seq<Section>) returns (final: seq<RankedSection>)
    ensures |final| == |ranked|
    ensures forall i :: 0 <= i < |ranked| ==>
      final[i].document == ranked[i].document && final[i].pageNumber == ranked[i].pageNumber
      && final[i].sectionTitle == ranked[i].sectionTitle && final[i].importance == ranked[i].importance
  {
    final := [];
    for i := 0 to |ranked|
      invariant |final| == i
      invariant forall j :: 0 <= j < i ==> final[j] == Publish(ranked[j])
    {
      final := final + [Publish(ranked[i])];
    }
  }

  function DocumentNames(docs: seq<Document>): (r: seq<string>)
    ensures |r| == |docs| && forall i :: 0 <= i < |docs| ==> r[i] == docs[i].name
  {
    seq(|docs|, i requires 0 <= i < |docs| => docs[i].name)
  }

  /** The sections of the collection, scored and ranked. */
  function RankedSectionsOf(docs: seq<Document>, persona: string, job: string, similarity: (seq<string>, nat) -> real): seq<Section>
  {
    var sections := AllSections(docs);
    Ranked(Scored(sections, Corpus(sections, QueryText(persona, job)), similarity))
  }

  /**
   * `analyze_document_collection`. `lemmas` gives the lemma set of the query,
   * `segment` splits a section text into sentences, `similarity` scores
   * section `i` of a corpus against its last text (the query).
   */
  method AnalyzeCollection(docs: seq<Document>, persona: string, job: string, timestamp: string,
                           similarity: (seq<string>, nat) -> real, lemmas: string -> set<string>,
                           segment: string -> seq<Sentence>)
    returns (result: Analysis)
    ensures result.metadata == Metadata(DocumentNames(docs), persona, job, timestamp)
    ensures AllSections(docs) == [] ==> result.extractedSections == [] && result.subSectionAnalysis == []
    ensures var ranked := RankedSectionsOf(docs, persona, job, similarity);
      && |result.extractedSections| == |ranked|
      && (forall i :: 0 <= i < |ranked| ==> result.extractedSections[i] == Publish(ranked[i]))
      && result.subSectionAnalysis == RefinementsUpTo(ranked, segment, lemmas(QueryText(persona, job)), TopCount(ranked))
  {
    var metadata := Metadata(DocumentNames(docs), persona, job, timestamp);
    var allSections := CollectSections(docs);
    if allSections == [] {
      return Analysis(metadata, [], []);
    }
    var queryText := QueryText(persona, job);
    var corpus := SectionTexts(allSections) + [queryText];
    var rankedSections := AssignScores(allSections, corpus, similarity);
    rankedSections := SortBy(rankedSections, NegImportance);
    var queryKeywords := lemmas(queryText);
    var subSections := RefineSections(rankedSections, segment, queryKeywords);
    var final := PublishAll(rankedSections);
    result := Analysis(metadata, final, subSections);
  }
}
