/**
 * `save_book_as_pdf`: build the ToC, render a draft, resolve the page map,
 * render the final document with the numbers filled in.
 */
module Exporter {
  import opened Wrappers
  import opened PyStr
  import opened Toc
  import opened Layout
  import opened PageMap

  /** One line of the contents page as rendered. */
  datatype ContentsLine = ContentsLine(title: string, href: string, pageNumber: string)

  /** The finished PDF: where it was written, its pages, its contents page. */
  datatype Pdf = Pdf(path: string, title: string, pages: seq<Page>, contents: seq<ContentsLine>)

  /**
   * The page-number cell: `{% if page_map %}{{ page_map.get(entry.href) }}{% endif %}`.
   * An absent or empty map is falsy; a missing key renders Python's None.
   */
  function PageNumberCell(pageMap: Option<map<string, int>>, href: string): string {
    if pageMap.None? || pageMap.value == map[] then ""
    else if href in pageMap.value then IntText(pageMap.value[href])
    else "None"
  }

  function ContentsLines(toc: seq<TocEntry>, pageMap: Option<map<string, int>>): (r: seq<ContentsLine>)
    ensures |r| == |toc|
  {
    seq(|toc|, i requires 0 <= i < |toc| => ContentsLine(toc[i].title, toc[i].href, PageNumberCell(pageMap, toc[i].href)))
  }

  /**
   * Pass 1 on the anchors of the document without the debug pages. By
   * DebugPagesDoNotMoveNumbers it is also pass 1 on the document as written.
   */
  function DraftPageMap(book: BookData, flow: Flow): Result<map<string, int>, string> {
    Resolve(Anchors(Document(book, flow)), TargetAnchors(TocOf(book)))
  }

  /** The number a body section gets: its anchor page counted from the first section's. */
  function SectionNumber(bs: seq<Block>, j: nat): int
    requires j < |bs|
  {
    AnchorIndex(bs, j) - AnchorIndex(bs, 0) + 1
  }

  /**
   * The two passes. The renderer's pagination comes in as `flow` and is the
   * same for both: the final pass differs from the draft only in the text of
   * the page-number cells. Both render the template as written, debug pages
   * included.
   */
  method SaveBookAsPdf(title: string, book: BookData, filename: string, outputDir: string, flow: Flow)
    returns (r: Result<Pdf, string>)
    ensures r.Failure? <==> TocOf(book) == []
    ensures r.Failure? ==> r.error == NoContentStart
    ensures r.Success? ==>
      && r.value.path == JoinPath(outputDir, filename)
      && r.value.title == title
      && r.value.pages == DocumentAsWritten(book, flow)
      && |r.value.contents| == |TocOf(book)|
      && forall i :: 0 <= i < |TocOf(book)| ==>
           r.value.contents[i] == ContentsLine(TocOf(book)[i].title, TocOf(book)[i].href,
                                               IntText(SectionNumber(BodyBlocks(book, flow), i)))
  {
    var outputPath := JoinPath(outputDir, filename);
    var toc := BuildToc(book);

    // Pass 1: draft render, no page numbers.
    var draft := DocumentAsWritten(book, flow);
    var targets := TargetAnchors(toc);
    var resolved := ResolvePageMap(Anchors(draft), targets);
    DebugPagesDoNotMoveNumbers(book, flow);
    DraftPageMapShape(book, flow);
    if resolved.Failure? {
      return Failure(resolved.error);
    }
    var pageMap := resolved.value;

    // Pass 2: final render with the resolved numbers.
    var finalPages := DocumentAsWritten(book, flow);
    var contents := ContentsLines(toc, Some(pageMap));
    assert |toc| > 0;
    assert pageMap != map[] by {
      assert toc[0].href in pageMap;
    }
    r := Success(Pdf(outputPath, title, finalPages, contents));
  }

  // ---------------------------------------------------------------------
  // Resolution over the template's page order

  /** The page each block's anchor lands on when `offset` pages precede the body. */
  function AnchorPages(offset: nat, bs: seq<Block>): (r: seq<nat>)
    ensures |r| == |bs| && forall j :: 0 <= j < |bs| ==> r[j] == offset + AnchorIndex(bs, j)
  {
    seq(|bs|, j requires 0 <= j < |bs| => offset + AnchorIndex(bs, j))
  }

  /** The set of ids listed in a sequence. */
  function IdSet(ids: seq<string>): set<string> {
    set j | 0 <= j < |ids| :: ids[j]
  }

  lemma {:induction false} LayoutAnchorsFound(front: seq<PageKind>, bs: seq<Block>, pages: seq<set<string>>)
    requires DistinctIds(bs) && pages == Anchors(Plain(front) + Render(bs))
    ensures var ids := BlockIds(bs); var pos := AnchorPages(|front|, bs);
      forall j :: 0 <= j < |ids| ==> pos[j] < |pages| && ids[j] in pages[pos[j]]
  {
    var ids := BlockIds(bs);
    var pos := AnchorPages(|front|, bs);
    forall j | 0 <= j < |ids| ensures pos[j] < |pages| && ids[j] in pages[pos[j]] {
      AnchorPageOf(front, bs, j);
    }
  }

  lemma {:induction false} LayoutAnchorsFirst(front: seq<PageKind>, bs: seq<Block>, pages: seq<set<string>>)
    requires DistinctIds(bs) && pages == Anchors(Plain(front) + Render(bs))
    ensures var ids := BlockIds(bs); var pos := AnchorPages(|front|, bs);
      && (forall j :: 0 <= j < |ids| ==> pos[j] < |pages|)
      && forall j, i :: 0 <= j < |ids| && 0 <= i < pos[j] ==> ids[j] !in pages[i]
  {
    var ids := BlockIds(bs);
    var pos := AnchorPages(|front|, bs);
    LayoutAnchorsFound(front, bs, pages);
    forall j, i | 0 <= j < |ids| && 0 <= i < pos[j] ensures ids[j] !in pages[i] {
      AnchorPageOf(front, bs, j);
    }
  }

  lemma {:induction false} LayoutAnchorsOrdered(offset: nat, bs: seq<Block>)
    requires bs != []
    ensures forall j :: 0 <= j < |bs| ==> AnchorPages(offset, bs)[0] <= AnchorPages(offset, bs)[j]
  {
    forall j | 0 <= j < |bs| ensures AnchorPages(offset, bs)[0] <= AnchorPages(offset, bs)[j] {
      AnchorIndexIncreasingOrEqual(bs, j);
    }
  }

  /**
   * Pass 1 over any front matter followed by blocks with distinct ids:
   * every block's id gets a number, counted from the first block's page.
   */
  lemma {:induction false} ResolveLayout(front: seq<PageKind>, bs: seq<Block>)
    requires DistinctIds(bs) && bs != []
    ensures var ids := BlockIds(bs); var pos := AnchorPages(|front|, bs);
      var r := Resolve(Anchors(Plain(front) + Render(bs)), IdSet(ids));
      && r.Success?
      && r.value.Keys == (set j | 0 <= j < |ids| :: Href(ids[j]))
      && forall j :: 0 <= j < |ids| ==> r.value[Href(ids[j])] == pos[j] - pos[0] + 1
  {
    var pages := Anchors(Plain(front) + Render(bs));
    var ids := BlockIds(bs);
    var pos := AnchorPages(|front|, bs);
    LayoutAnchorsFound(front, bs, pages);
    LayoutAnchorsFirst(front, bs, pages);
    LayoutAnchorsOrdered(|front|, bs);
    ResolveFromAnchorPages(pages, IdSet(ids), ids, pos);
  }

  /** With no blocks there is nothing to number and pass 1 fails. */
  lemma {:induction false} ResolveEmptyLayout(front: seq<PageKind>)
    ensures Resolve(Anchors(Plain(front) + Render([])), IdSet([])).Failure?
  {
    assert IdSet([]) == {};
    ResolveNoTargets(Anchors(Plain(front) + Render([])));
  }

  lemma {:induction false} AnchorIndexIncreasingOrEqual(bs: seq<Block>, j: nat)
    requires j < |bs|
    ensures AnchorIndex(bs, 0) <= AnchorIndex(bs, j)
  {
    if j > 0 {
      AnchorIndexIncreasing(bs, 0, j);
    }
  }

  /** Block j's id sits on page |front| + AnchorIndex(bs, j) and on no page before it. */
  lemma {:induction false} AnchorPageOf(front: seq<PageKind>, bs: seq<Block>, j: nat)
    requires DistinctIds(bs) && j < |bs|
    ensures var pages := Anchors(Plain(front) + Render(bs)); var q := |front| + AnchorIndex(bs, j);
      && q < |pages| && pages[q] == {bs[j].id}
      && forall i :: 0 <= i < q ==> bs[j].id !in pages[i]
  {
    var doc := Plain(front) + Render(bs);
    var q := |front| + AnchorIndex(bs, j);
    RenderAnchorPage(bs, j);
    assert doc[q] == Render(bs)[AnchorIndex(bs, j)];
    forall i | 0 <= i < q ensures bs[j].id !in doc[i].anchors {
      if i >= |front| {
        RenderBefore(bs, j, i - |front|);
        assert doc[i] == Render(bs)[i - |front|];
      }
    }
  }

  /** The ids the ToC links to are the ids the body blocks carry. */
  lemma {:induction false} TocTargetsAreBodyIds(book: BookData, flow: Flow)
    ensures TargetAnchors(TocOf(book)) == IdSet(BlockIds(BodyBlocks(book, flow)))
  {
    BodyIdsAreTocIds(book, flow);
    TargetAnchorsAreIds(book);
  }

  lemma {:induction false} DraftPageMapIsLayout(book: BookData, flow: Flow)
    ensures var bs := BodyBlocks(book, flow);
      && BlockIds(bs) == TocIds(TocOf(book))
      && DraftPageMap(book, flow) == Resolve(Anchors(Plain(FrontKinds(book, flow, false)) + Render(bs)), IdSet(BlockIds(bs)))
  {
    BodyIdsAreTocIds(book, flow);
    TargetAnchorsAreIds(book);
  }

  /** A page map keyed by block ids, read through the links of a matching ToC. */
  lemma {:induction false} NumbersThroughToc(m: map<string, int>, offset: nat, bs: seq<Block>, toc: seq<TocEntry>)
    requires bs != [] && |toc| == |bs|
    requires forall i :: 0 <= i < |toc| ==> toc[i].href == Href(BlockIds(bs)[i])
    requires m.Keys == set j | 0 <= j < |BlockIds(bs)| :: Href(BlockIds(bs)[j])
    requires forall j :: 0 <= j < |BlockIds(bs)| ==>
      m[Href(BlockIds(bs)[j])] == AnchorPages(offset, bs)[j] - AnchorPages(offset, bs)[0] + 1
    ensures m.Keys == set i | 0 <= i < |toc| :: toc[i].href
    ensures forall i :: 0 <= i < |toc| ==> m[toc[i].href] == SectionNumber(bs, i)
  {
    var ids := BlockIds(bs);
    assert (set i | 0 <= i < |toc| :: toc[i].href) == (set j | 0 <= j < |ids| :: Href(ids[j]));
  }

  /** Pass 1 over front matter and a non-empty body, read through the links of a matching ToC. */
  lemma {:induction false} ResolvedLayoutShape(front: seq<PageKind>, bs: seq<Block>, toc: seq<TocEntry>)
    requires DistinctIds(bs) && bs != [] && |toc| == |bs|
    requires forall i :: 0 <= i < |toc| ==> toc[i].href == Href(BlockIds(bs)[i])
    ensures var r := Resolve(Anchors(Plain(front) + Render(bs)), IdSet(BlockIds(bs)));
      && r.Success?
      && r.value.Keys == (set i | 0 <= i < |toc| :: toc[i].href)
      && forall i :: 0 <= i < |toc| ==> r.value[toc[i].href] == SectionNumber(bs, i)
  {
    ResolveLayout(front, bs);
    var r := Resolve(Anchors(Plain(front) + Render(bs)), IdSet(BlockIds(bs)));
    NumbersThroughToc(r.value, |front|, bs, toc);
  }

  /** The draft page map of a book, in closed form. */
  lemma {:induction false} DraftPageMapShape(book: BookData, flow: Flow)
    ensures var r := DraftPageMap(book, flow); var toc := TocOf(book); var bs := BodyBlocks(book, flow);
      && |bs| == |toc|
      && (r.Failure? <==> toc == [])
      && (r.Failure? ==> r.error == NoContentStart)
      && (r.Success? ==>
           && r.value.Keys == (set i | 0 <= i < |toc| :: toc[i].href)
           && forall i :: 0 <= i < |toc| ==> r.value[toc[i].href] == SectionNumber(bs, i))
  {
    var toc := TocOf(book);
    var bs := BodyBlocks(book, flow);
    var front := FrontKinds(book, flow, false);
    DraftPageMapIsLayout(book, flow);
    assert |bs| == |BlockIds(bs)| == |TocIds(toc)| == |toc|;
    if toc == [] {
      assert bs == [];
      ResolveEmptyLayout(front);
    } else {
      BodyIdsDistinct(book, flow);
      TocHrefsAreIds(book);
      ResolvedLayoutShape(front, bs, toc);
    }
  }

  /** For a book with a non-empty ToC, pass 1 numbers every entry with its section number. */
  lemma {:induction false} DraftNumbers(book: BookData, flow: Flow)
    requires TocOf(book) != []
    ensures var r := DraftPageMap(book, flow); var toc := TocOf(book);
      && r.Success?
      && |BodyBlocks(book, flow)| == |toc|
      && r.value.Keys == (set i | 0 <= i < |toc| :: toc[i].href)
      && forall i :: 0 <= i < |toc| ==> r.value[toc[i].href] == SectionNumber(BodyBlocks(book, flow), i)
  {
    DraftPageMapShape(book, flow);
  }

  // ---------------------------------------------------------------------
  // What the resolved numbers promise

  lemma {:induction false} HrefsByIndex(toc: seq<TocEntry>)
    ensures (set i | 0 <= i < |toc| :: toc[i].href) == set e | e in toc :: e.href
  {
    forall e | e in toc ensures e.href in set i | 0 <= i < |toc| :: toc[i].href {
      var i :| 0 <= i < |toc| && toc[i] == e;
    }
  }

  /** Pass 1 fails exactly when the ToC is empty; otherwise every entry, and nothing else, gets a number. */
  lemma {:induction false} DraftPageMapCoversToc(book: BookData, flow: Flow)
    ensures DraftPageMap(book, flow).Failure? <==>
      !Truthy(book.prefaceText) && !Truthy(book.prologueText) && book.chapters == [] && !Truthy(book.epilogueText)
    ensures DraftPageMap(book, flow).Success? ==>
      DraftPageMap(book, flow).value.Keys == set e | e in TocOf(book) :: e.href
  {
    DraftPageMapShape(book, flow);
    TocEmpty(book);
    HrefsByIndex(TocOf(book));
  }

  /** Section numbers in body order: they start at 1, increase strictly and stay within the body. */
  lemma {:induction false} SectionNumbersIncrease(bs: seq<Block>)
    requires bs != []
    ensures SectionNumber(bs, 0) == 1
    ensures forall i, j :: 0 <= i < j < |bs| ==> SectionNumber(bs, i) < SectionNumber(bs, j)
    ensures forall i :: 0 <= i < |bs| ==> 1 <= SectionNumber(bs, i) <= |Render(bs)|
  {
    forall i, j | 0 <= i < j < |bs| ensures SectionNumber(bs, i) < SectionNumber(bs, j) {
      AnchorIndexIncreasing(bs, i, j);
    }
    forall i | 0 <= i < |bs| ensures 1 <= SectionNumber(bs, i) <= |Render(bs)| {
      AnchorIndexIncreasingOrEqual(bs, i);
      RenderAnchorPage(bs, i);
    }
  }

  /** A map giving each ToC link its section number numbers the ToC in order. */
  lemma {:induction false} NumbersIncrease(m: map<string, int>, bs: seq<Block>, toc: seq<TocEntry>)
    requires |toc| == |bs| && bs != []
    requires m.Keys == set i | 0 <= i < |toc| :: toc[i].href
    requires forall i :: 0 <= i < |toc| ==> m[toc[i].href] == SectionNumber(bs, i)
    ensures m[toc[0].href] == 1
    ensures forall i, j :: 0 <= i < j < |toc| ==> m[toc[i].href] < m[toc[j].href]
    ensures forall i :: 0 <= i < |toc| ==> 1 <= m[toc[i].href] <= |Render(bs)|
  {
    SectionNumbersIncrease(bs);
  }

  /** Numbers increase strictly in ToC order, the first entry is page 1, all lie within the body. */
  lemma {:induction false} DraftPageMapIncreasing(book: BookData, flow: Flow)
    ensures var r := DraftPageMap(book, flow); var toc := TocOf(book);
      r.Success? ==>
        && |toc| > 0
        && (forall i :: 0 <= i < |toc| ==> toc[i].href in r.value)
        && r.value[toc[0].href] == 1
        && (forall i, j :: 0 <= i < j < |toc| ==> r.value[toc[i].href] < r.value[toc[j].href])
        && (forall i :: 0 <= i < |toc| ==> 1 <= r.value[toc[i].href] <= |Render(BodyBlocks(book, flow))|)
  {
    DraftPageMapShape(book, flow);
    var r := DraftPageMap(book, flow);
    if r.Success? {
      NumbersIncrease(r.value, BodyBlocks(book, flow), TocOf(book));
    }
  }

  /** Without preface and prologue, chapter 1 is page 1. */
  lemma {:induction false} FirstChapterIsPageOne(book: BookData, flow: Flow)
    requires !Truthy(book.prefaceText) && !Truthy(book.prologueText) && book.chapters != []
    ensures DraftPageMap(book, flow).Success?
    ensures "#chapter-1" in DraftPageMap(book, flow).value
    ensures DraftPageMap(book, flow).value["#chapter-1"] == 1
  {
    DraftPageMapCoversToc(book, flow);
    DraftPageMapIncreasing(book, flow);
    FirstEntryIsChapterOne(book);
  }

  // ---------------------------------------------------------------------
  // An illustration moves later numbers by one page

  /** The book with chapter k illustrated by the image at `path`. */
  function WithChapterImage(book: BookData, k: nat, path: string): BookData {
    if k < |book.chapters| then book.(chapters := book.chapters[k := book.chapters[k].(imagePath := Some(path))]) else book
  }

  /** Growing block m's lead by one page moves anchor pages from m on by one. */
  lemma {:induction false} LeadGrowShift(bs: seq<Block>, m: nat, x: PageKind, j: nat)
    requires m < |bs| && j < |bs|
    ensures var bs' := bs[m := bs[m].(lead := bs[m].lead + [x])];
      AnchorIndex(bs', j) == AnchorIndex(bs, j) + (if j >= m then 1 else 0)
  {
    var bs' := bs[m := bs[m].(lead := bs[m].lead + [x])];
    StartGrowShift(bs, m, x, j);
  }

  lemma {:induction false} StartGrowShift(bs: seq<Block>, m: nat, x: PageKind, j: nat)
    requires m < |bs| && j <= |bs|
    ensures var bs' := bs[m := bs[m].(lead := bs[m].lead + [x])];
      Start(bs', j) == Start(bs, j) + (if j > m then 1 else 0)
  {
    var bs' := bs[m := bs[m].(lead := bs[m].lead + [x])];
    if j > 0 {
      if m == 0 {
        assert bs'[1..] == bs[1..];
      } else {
        assert bs'[1..] == bs[1..][m - 1 := bs[1..][m - 1].(lead := bs[1..][m - 1].lead + [x])];
        StartGrowShift(bs[1..], m - 1, x, j - 1);
      }
    }
  }

  lemma {:induction false} ChapterBlocksWithImage(chs: seq<Chapter>, flow: Flow, k: nat, path: string)
    requires k < |chs| && !Truthy(chs[k].imagePath) && path != ""
    ensures var cb := ChapterBlocks(chs, flow);
      ChapterBlocks(chs[k := chs[k].(imagePath := Some(path))], flow) == cb[k := cb[k].(lead := cb[k].lead + [ChapterImage])]
  {
    var chs' := chs[k := chs[k].(imagePath := Some(path))];
    var cb := ChapterBlocks(chs, flow);
    forall i | 0 <= i < |chs| ensures ChapterBlocks(chs', flow)[i] == cb[k := cb[k].(lead := cb[k].lead + [ChapterImage])][i] {
      if i == k {
        assert ChapterLead(chs'[k]) == ChapterLead(chs[k]) + [ChapterImage];
      }
    }
  }

  lemma {:induction false} ChapterEntriesWithImage(chs: seq<Chapter>, k: nat, path: string)
    requires k < |chs|
    ensures ChapterEntries(chs[k := chs[k].(imagePath := Some(path))]) == ChapterEntries(chs)
  {
    var chs' := chs[k := chs[k].(imagePath := Some(path))];
    forall i | 0 <= i < |chs| ensures ChapterEntries(chs')[i] == ChapterEntries(chs)[i] {
    }
  }

  /** The illustration grows chapter k's lead by one page and leaves the ToC alone. */
  lemma {:induction false} BodyWithChapterImage(book: BookData, flow: Flow, k: nat, path: string)
    requires k < |book.chapters| && !Truthy(book.chapters[k].imagePath) && path != ""
    ensures var bs := BodyBlocks(book, flow); var m := FrontCount(book) + k;
      m < |bs| && BodyBlocks(WithChapterImage(book, k, path), flow) == bs[m := bs[m].(lead := bs[m].lead + [ChapterImage])]
    ensures TocOf(WithChapterImage(book, k, path)) == TocOf(book)
  {
    var book' := WithChapterImage(book, k, path);
    var cb := ChapterBlocks(book.chapters, flow);
    ChapterBlocksWithImage(book.chapters, flow, k, path);
    ChapterEntriesWithImage(book.chapters, k, path);
    var pre := PrefaceBlocks(book, flow) + PrologueBlocks(book, flow);
    var epi := EpilogueBlocks(book, flow);
    assert |pre| == FrontCount(book);
    assert PrefaceBlocks(book', flow) + PrologueBlocks(book', flow) == pre;
    assert EpilogueBlocks(book', flow) == epi;
    var bs := BodyBlocks(book, flow);
    var m := FrontCount(book) + k;
    assert bs == pre + cb + epi;
    assert BodyBlocks(book', flow) == pre + cb[k := cb[k].(lead := cb[k].lead + [ChapterImage])] + epi;
    assert pre + cb[k := cb[k].(lead := cb[k].lead + [ChapterImage])] + epi == bs[m := bs[m].(lead := bs[m].lead + [ChapterImage])];
  }

  /** Growing block m's lead by one page moves section m and later ones by one, unless m is the first. */
  lemma {:induction false} SectionNumberGrowShift(bs: seq<Block>, m: nat, x: PageKind, i: nat)
    requires m < |bs| && i < |bs|
    ensures var bs' := bs[m := bs[m].(lead := bs[m].lead + [x])];
      SectionNumber(bs', i) == SectionNumber(bs, i) + (if m > 0 && i >= m then 1 else 0)
  {
    LeadGrowShift(bs, m, x, i);
    LeadGrowShift(bs, m, x, 0);
  }

  /** Two page maps keyed by the same ToC, whose sections differ by one grown lead. */
  lemma {:induction false} ShiftedNumbers(r: map<string, int>, r': map<string, int>, bs: seq<Block>, toc: seq<TocEntry>, m: nat, x: PageKind)
    requires m < |bs| && |toc| == |bs|
    requires r.Keys == set i | 0 <= i < |toc| :: toc[i].href
    requires r'.Keys == set i | 0 <= i < |toc| :: toc[i].href
    requires forall i :: 0 <= i < |toc| ==> r[toc[i].href] == SectionNumber(bs, i)
    requires forall i :: 0 <= i < |toc| ==> r'[toc[i].href] == SectionNumber(bs[m := bs[m].(lead := bs[m].lead + [x])], i)
    ensures r'.Keys == r.Keys
    ensures forall i :: 0 <= i < |toc| ==> toc[i].href in r
    ensures forall i :: 0 <= i < |toc| ==> r'[toc[i].href] == r[toc[i].href] + (if m > 0 && i >= m then 1 else 0)
  {
    forall i | 0 <= i < |toc| ensures r'[toc[i].href] == r[toc[i].href] + (if m > 0 && i >= m then 1 else 0) {
      SectionNumberGrowShift(bs, m, x, i);
    }
  }

  /**
   * Giving chapter k an illustration adds one page before its content page:
   * if some anchored page precedes chapter k's title page, chapter k and every
   * later section move up by exactly one and earlier ones keep their numbers;
   * otherwise nothing moves.
   */
  lemma {:induction false} ChapterImageShift(book: BookData, flow: Flow, k: nat, path: string)
    requires k < |book.chapters| && !Truthy(book.chapters[k].imagePath) && path != ""
    ensures var r := DraftPageMap(book, flow);
            var r' := DraftPageMap(WithChapterImage(book, k, path), flow);
            var toc := TocOf(book);
            var m := FrontCount(book) + k;
      && r.Success? && r'.Success?
      && r'.value.Keys == r.value.Keys
      && (forall i :: 0 <= i < |toc| ==> toc[i].href in r.value)
      && forall i :: 0 <= i < |toc| ==>
           r'.value[toc[i].href] == r.value[toc[i].href] + (if m > 0 && i >= m then 1 else 0)
  {
    BodyWithChapterImage(book, flow, k, path);
    TocEmpty(book);
    GrownLeadShift(book, WithChapterImage(book, k, path), flow, FrontCount(book) + k);
  }

  /** Two books with the same ToC whose bodies differ by one page in one section's lead. */
  lemma {:induction false} GrownLeadShift(book: BookData, book': BookData, flow: Flow, m: nat)
    requires TocOf(book) != [] && TocOf(book') == TocOf(book)
    requires var bs := BodyBlocks(book, flow);
      m < |bs| && BodyBlocks(book', flow) == bs[m := bs[m].(lead := bs[m].lead + [ChapterImage])]
    ensures var r := DraftPageMap(book, flow); var r' := DraftPageMap(book', flow); var toc := TocOf(book);
      && r.Success? && r'.Success?
      && r'.value.Keys == r.value.Keys
      && (forall i :: 0 <= i < |toc| ==> toc[i].href in r.value)
      && forall i :: 0 <= i < |toc| ==>
           r'.value[toc[i].href] == r.value[toc[i].href] + (if m > 0 && i >= m then 1 else 0)
  {
    DraftNumbers(book, flow);
    DraftNumbers(book', flow);
    ShiftedNumbers(DraftPageMap(book, flow).value, DraftPageMap(book', flow).value,
                   BodyBlocks(book, flow), TocOf(book), m, ChapterImage);
  }

  // ---------------------------------------------------------------------
  // The contents page in the two passes

  /** The draft pass (no page map) prints no numbers. */
  lemma {:induction false} DraftContentsHaveNoNumbers(toc: seq<TocEntry>)
    ensures forall i :: 0 <= i < |toc| ==> ContentsLines(toc, None)[i].pageNumber == ""
    ensures forall i :: 0 <= i < |toc| ==> ContentsLines(toc, Some(map[]))[i].pageNumber == ""
  {
  }

  /** Two page maps that number the same blocks from different offsets are the same map. */
  lemma {:induction false} OffsetFreeNumbers(m1: map<string, int>, m2: map<string, int>, bs: seq<Block>, o1: nat, o2: nat)
    requires bs != []
    requires m1.Keys == set j | 0 <= j < |BlockIds(bs)| :: Href(BlockIds(bs)[j])
    requires m2.Keys == set j | 0 <= j < |BlockIds(bs)| :: Href(BlockIds(bs)[j])
    requires forall j :: 0 <= j < |BlockIds(bs)| ==>
      m1[Href(BlockIds(bs)[j])] == AnchorPages(o1, bs)[j] - AnchorPages(o1, bs)[0] + 1
    requires forall j :: 0 <= j < |BlockIds(bs)| ==>
      m2[Href(BlockIds(bs)[j])] == AnchorPages(o2, bs)[j] - AnchorPages(o2, bs)[0] + 1
    ensures m1 == m2
  {
    var ids := BlockIds(bs);
    forall h | h in m1 ensures h in m2 && m1[h] == m2[h] {
      var j :| 0 <= j < |ids| && h == Href(ids[j]);
    }
  }

  /** The pages before the body do not change the page map. */
  lemma {:induction false} FrontDoesNotMatter(front1: seq<PageKind>, front2: seq<PageKind>, bs: seq<Block>)
    requires DistinctIds(bs)
    ensures Resolve(Anchors(Plain(front1) + Render(bs)), IdSet(BlockIds(bs)))
         == Resolve(Anchors(Plain(front2) + Render(bs)), IdSet(BlockIds(bs)))
  {
    var r1 := Resolve(Anchors(Plain(front1) + Render(bs)), IdSet(BlockIds(bs)));
    var r2 := Resolve(Anchors(Plain(front2) + Render(bs)), IdSet(BlockIds(bs)));
    if bs == [] {
      ResolveEmptyLayout(front1);
      ResolveEmptyLayout(front2);
    } else {
      ResolveLayout(front1, bs);
      ResolveLayout(front2, bs);
      OffsetFreeNumbers(r1.value, r2.value, bs, |front1|, |front2|);
    }
  }

  /** The debug pages do not change the page map: numbering is relative to the first section. */
  lemma {:induction false} DebugPagesDoNotMoveNumbers(book: BookData, flow: Flow)
    ensures Resolve(Anchors(DocumentAsWritten(book, flow)), TargetAnchors(TocOf(book))) == DraftPageMap(book, flow)
  {
    var bs := BodyBlocks(book, flow);
    TocTargetsAreBodyIds(book, flow);
    BodyIdsDistinct(book, flow);
    FrontDoesNotMatter(FrontKinds(book, flow, true), FrontKinds(book, flow, false), bs);
  }
}
