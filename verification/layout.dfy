/**
 * The physical page sequence the HTML template asks the renderer for.
 * Every `.page` div is one page, except that a content page flows over
 * as many pages as its text needs; how many is the renderer's choice and
 * comes in as a `Flow`. Only the first page of a content section carries
 * that section's anchor id.
 */
module Layout {
  import opened Wrappers
  import opened PyStr
  import opened Toc

  datatype PageKind =
    | Debug | Blank | CoverImage | TitlePage | PrintDate | Contents
    | ChapterTitle | ChapterImage | Content

  datatype Page = Page(kind: PageKind, anchors: set<string>)

  /**
   * The renderer's pagination decisions: the pages each flowing region takes
   * beyond its first. The same Flow serves the draft and the final pass.
   */
  datatype Flow = Flow(
    debugCallExtra: nat,
    debugJsonExtra: nat,
    contentsExtra: nat,
    prefaceExtra: nat,
    prologueExtra: nat,
    chapterExtra: seq<nat>,
    epilogueExtra: nat)

  function ChapterExtra(flow: Flow, i: nat): nat {
    if i < |flow.chapterExtra| then flow.chapterExtra[i] else 0
  }

  /** A section of the main body: unanchored lead pages, the anchored content, trailing pages. */
  datatype Block = Block(lead: seq<PageKind>, id: string, paragraphs: seq<string>, extra: nat, trail: seq<PageKind>)

  function Repeat(k: PageKind, n: nat): (r: seq<PageKind>)
    ensures |r| == n && forall i :: 0 <= i < n ==> r[i] == k
  {
    seq(n, _ => k)
  }

  /** Pages that carry no anchor. */
  function Plain(kinds: seq<PageKind>): (r: seq<Page>)
    ensures |r| == |kinds|
    ensures forall i :: 0 <= i < |r| ==> r[i] == Page(kinds[i], {})
  {
    seq(|kinds|, i requires 0 <= i < |kinds| => Page(kinds[i], {}))
  }

  function Size(b: Block): nat {
    |b.lead| + 1 + b.extra + |b.trail|
  }

  /** A block's pages: only its first content page carries its id. */
  function BlockPages(b: Block): (r: seq<Page>)
    ensures |r| == Size(b)
    ensures forall i :: 0 <= i < |r| ==> r[i].anchors == (if i == |b.lead| then {b.id} else {})
  {
    Plain(b.lead) + [Page(Content, {b.id})] + Plain(Repeat(Content, b.extra)) + Plain(b.trail)
  }

  /** The pages of a sequence of blocks, one after the other. */
  function Render(bs: seq<Block>): seq<Page> {
    if bs == [] then [] else BlockPages(bs[0]) + Render(bs[1..])
  }

  /** Where block j starts in Render(bs). */
  function Start(bs: seq<Block>, j: nat): nat
    requires j <= |bs|
  {
    if j == 0 then 0 else Size(bs[0]) + Start(bs[1..], j - 1)
  }

  /** The page of Render(bs) that carries block j's anchor. */
  function AnchorIndex(bs: seq<Block>, j: nat): nat
    requires j < |bs|
  {
    Start(bs, j) + |bs[j].lead|
  }

  function BlockIds(bs: seq<Block>): seq<string> {
    seq(|bs|, i requires 0 <= i < |bs| => bs[i].id)
  }

  predicate DistinctIds(bs: seq<Block>) {
    forall i, j :: 0 <= i < j < |bs| ==> bs[i].id != bs[j].id
  }

  /** The per-page anchor sets, which is all the page-map resolution looks at. */
  function Anchors(pages: seq<Page>): (r: seq<set<string>>)
    ensures |r| == |pages| && forall i :: 0 <= i < |pages| ==> r[i] == pages[i].anchors
  {
    seq(|pages|, i requires 0 <= i < |pages| => pages[i].anchors)
  }

  /** Every id that some page carries. */
  function EmittedIds(pages: seq<Page>): set<string> {
    set i, a | 0 <= i < |pages| && a in pages[i].anchors :: a
  }

  // ---------------------------------------------------------------------
  // The template (lines 40-77)

  /**
   * The front matter. `debugPages` says whether the two debug divs before the
   * first blank pages are rendered: in the template as written they are.
   */
  function FrontKinds(book: BookData, flow: Flow, debugPages: bool): seq<PageKind> {
    (if debugPages then Repeat(Debug, 1 + flow.debugCallExtra) + Repeat(Debug, 1 + flow.debugJsonExtra) else [])
    + [Blank, Blank]
    + (if Truthy(book.imagePath) then [CoverImage] else [])
    + [TitlePage, PrintDate, Blank, Blank]
    + Repeat(Contents, 1 + flow.contentsExtra)
    + [Blank]
  }

  function PrefaceBlocks(book: BookData, flow: Flow): seq<Block> {
    if Truthy(book.prefaceText)
    then [Block([], "preface", SplitParagraphs(book.prefaceText.value), flow.prefaceExtra, [Blank])]
    else []
  }

  function PrologueBlocks(book: BookData, flow: Flow): seq<Block> {
    if Truthy(book.prologueText)
    then [Block([], "prologue", SplitParagraphs(book.prologueText.value), flow.prologueExtra, [Blank])]
    else []
  }

  function ChapterLead(ch: Chapter): seq<PageKind> {
    [ChapterTitle] + (if Truthy(ch.imagePath) then [ChapterImage] else [])
  }

  function ChapterBlock(chs: seq<Chapter>, flow: Flow, i: nat): Block
    requires i < |chs|
  {
    Block(ChapterLead(chs[i]), ChapterId(i + 1), SplitParagraphs(chs[i].content), ChapterExtra(flow, i), [])
  }

  function ChapterBlocks(chs: seq<Chapter>, flow: Flow): seq<Block> {
    seq(|chs|, i requires 0 <= i < |chs| => ChapterBlock(chs, flow, i))
  }

  function EpilogueBlocks(book: BookData, flow: Flow): seq<Block> {
    if Truthy(book.epilogueText)
    then [Block([Blank], "epilogue", SplitParagraphs(book.epilogueText.value), flow.epilogueExtra, [])]
    else []
  }

  /** The main content body, section by section. */
  function BodyBlocks(book: BookData, flow: Flow): seq<Block> {
    PrefaceBlocks(book, flow) + PrologueBlocks(book, flow) + ChapterBlocks(book.chapters, flow) + EpilogueBlocks(book, flow)
  }

  /** The document the template describes, debug pages included. */
  function DocumentAsWritten(book: BookData, flow: Flow): seq<Page> {
    Plain(FrontKinds(book, flow, true)) + Render(BodyBlocks(book, flow))
  }

  /** The document without the debug pages, which begins with the two blank filler pages. */
  function Document(book: BookData, flow: Flow): seq<Page> {
    Plain(FrontKinds(book, flow, false)) + Render(BodyBlocks(book, flow))
  }

  // ---------------------------------------------------------------------
  // Facts about Render

  lemma {:induction false} RenderLength(bs: seq<Block>)
    ensures |Render(bs)| == Start(bs, |bs|)
  {
    if bs != [] {
      RenderLength(bs[1..]);
    }
  }

  /** Block j's anchor sits on its first content page, alone. */
  lemma {:induction false} RenderAnchorPage(bs: seq<Block>, j: nat)
    requires j < |bs|
    ensures AnchorIndex(bs, j) < |Render(bs)|
    ensures Render(bs)[AnchorIndex(bs, j)] == Page(Content, {bs[j].id})
  {
    var b := bs[0];
    var bp := BlockPages(b);
    assert |bp| == Size(b);
    if j == 0 {
      assert bp[|b.lead|] == Page(Content, {b.id});
    } else {
      RenderAnchorPage(bs[1..], j - 1);
    }
  }

  /** Page i of Render(bs) lies in block 0 or, shifted, in the rest. */
  lemma {:induction false} RenderAt(bs: seq<Block>, i: nat)
    requires bs != [] && i < |Render(bs)|
    ensures i < Size(bs[0]) ==>
      Render(bs)[i].anchors == (if i == |bs[0].lead| then {bs[0].id} else {})
    ensures i >= Size(bs[0]) ==>
      i - Size(bs[0]) < |Render(bs[1..])| && Render(bs)[i] == Render(bs[1..])[i - Size(bs[0])]
  {
    var bp := BlockPages(bs[0]);
    if i < Size(bs[0]) {
      assert Render(bs)[i] == bp[i];
    }
  }

  /** No page before block j's anchor page carries block j's id. */
  lemma {:induction false} RenderBefore(bs: seq<Block>, j: nat, i: nat)
    requires DistinctIds(bs)
    requires j < |bs| && i < AnchorIndex(bs, j)
    ensures i < |Render(bs)| && bs[j].id !in Render(bs)[i].anchors
  {
    RenderAnchorPage(bs, j);
    RenderAt(bs, i);
    if i >= Size(bs[0]) {
      assert j > 0;
      assert DistinctIds(bs[1..]) by {
        forall x, y | 0 <= x < y < |bs[1..]| ensures bs[1..][x].id != bs[1..][y].id {
          assert bs[1..][x] == bs[x + 1] && bs[1..][y] == bs[y + 1];
        }
      }
      RenderBefore(bs[1..], j - 1, i - Size(bs[0]));
    } else if j > 0 {
      assert bs[0].id != bs[j].id;
    }
  }

  /** Pages before the first anchor page carry nothing. */
  lemma RenderLeadEmpty(bs: seq<Block>, i: nat)
    requires bs != [] && i < AnchorIndex(bs, 0)
    ensures i < |Render(bs)| && Render(bs)[i].anchors == {}
  {
    RenderAnchorPage(bs, 0);
    RenderAt(bs, i);
  }

  /** Every anchor on a rendered page is the id of some block. */
  lemma {:induction false} RenderAnchorsAreIds(bs: seq<Block>, i: nat, a: string)
    requires i < |Render(bs)| && a in Render(bs)[i].anchors
    ensures a in BlockIds(bs)
  {
    RenderAt(bs, i);
    if i >= Size(bs[0]) {
      RenderAnchorsAreIds(bs[1..], i - Size(bs[0]), a);
      assert BlockIds(bs[1..]) == BlockIds(bs)[1..];
    } else {
      assert BlockIds(bs)[0] == a;
    }
  }

  /** Anchor pages come in block order, strictly. */
  lemma {:induction false} AnchorIndexIncreasing(bs: seq<Block>, j: nat, k: nat)
    requires j < k < |bs|
    ensures AnchorIndex(bs, j) < AnchorIndex(bs, k)
  {
    if j > 0 {
      AnchorIndexIncreasing(bs[1..], j - 1, k - 1);
    }
  }

  /** The ids the body emits are exactly the ids of its blocks. */
  lemma EmittedIdsOfRender(front: seq<PageKind>, bs: seq<Block>)
    ensures EmittedIds(Plain(front) + Render(bs)) == set i | 0 <= i < |bs| :: bs[i].id
  {
    var pages := Plain(front) + Render(bs);
    var ids := set i | 0 <= i < |bs| :: bs[i].id;
    var emitted := EmittedIds(pages);
    assert emitted <= ids by {
      forall a | a in emitted ensures a in ids {
        var i :| 0 <= i < |pages| && a in pages[i].anchors;
        EmittedIdOfBody(front, bs, i, a);
      }
    }
    assert ids <= emitted by {
      forall k | 0 <= k < |bs| ensures bs[k].id in emitted {
        BodyIdEmitted(front, bs, k);
      }
    }
  }

  lemma {:induction false} BodyIdEmitted(front: seq<PageKind>, bs: seq<Block>, k: nat)
    requires k < |bs|
    ensures bs[k].id in EmittedIds(Plain(front) + Render(bs))
  {
    var pages := Plain(front) + Render(bs);
    RenderAnchorPage(bs, k);
    var i := |front| + AnchorIndex(bs, k);
    assert pages[i] == Render(bs)[AnchorIndex(bs, k)];
    assert bs[k].id in pages[i].anchors;
  }

  lemma {:induction false} EmittedIdOfBody(front: seq<PageKind>, bs: seq<Block>, i: nat, a: string)
    requires i < |Plain(front) + Render(bs)| && a in (Plain(front) + Render(bs))[i].anchors
    ensures exists k :: 0 <= k < |bs| && bs[k].id == a
  {
    var pages := Plain(front) + Render(bs);
    if i >= |front| {
      assert pages[i] == Render(bs)[i - |front|];
      RenderAnchorsAreIds(bs, i - |front|, a);
      var k :| 0 <= k < |bs| && BlockIds(bs)[k] == a;
      assert bs[k].id == a;
    }
  }

  // ---------------------------------------------------------------------
  // Facts about the body the template lays out

  lemma BlockIdsAppend(a: seq<Block>, b: seq<Block>)
    ensures BlockIds(a + b) == BlockIds(a) + BlockIds(b)
  {
    forall i | 0 <= i < |a + b| ensures BlockIds(a + b)[i] == (BlockIds(a) + BlockIds(b))[i] {
      if i >= |a| {
        assert (a + b)[i] == b[i - |a|];
      }
    }
  }

  /** The chapter sections carry the chapter entries' ids, in order. */
  lemma ChapterIdsAreTocIds(chs: seq<Chapter>, flow: Flow)
    ensures BlockIds(ChapterBlocks(chs, flow)) == TocIds(ChapterEntries(chs))
  {
    var bs, toc := ChapterBlocks(chs, flow), ChapterEntries(chs);
    forall i | 0 <= i < |chs| ensures BlockIds(bs)[i] == TocIds(toc)[i] {
      assert toc[i].href == Href(ChapterId(i + 1));
    }
  }

  /** The sections of the body carry the ids of the ToC entries, in ToC order. */
  lemma {:induction false} BodyIdsAreTocIds(book: BookData, flow: Flow)
    ensures BlockIds(BodyBlocks(book, flow)) == TocIds(TocOf(book))
  {
    var pre, pro, chs, epi := PrefaceBlocks(book, flow), PrologueBlocks(book, flow),
                              ChapterBlocks(book.chapters, flow), EpilogueBlocks(book, flow);
    var tpre, tpro, tchs, tepi := PrefaceEntries(book), PrologueEntries(book),
                                  ChapterEntries(book.chapters), EpilogueEntries(book);
    BlockIdsAppend(pre + pro + chs, epi);
    BlockIdsAppend(pre + pro, chs);
    BlockIdsAppend(pre, pro);
    TocIdsAppend(tpre + tpro + tchs, tepi);
    TocIdsAppend(tpre + tpro, tchs);
    TocIdsAppend(tpre, tpro);
    NamedHrefs();
    assert BlockIds(pre) == TocIds(tpre);
    assert BlockIds(pro) == TocIds(tpro);
    assert BlockIds(epi) == TocIds(tepi);
    ChapterIdsAreTocIds(book.chapters, flow);
  }

  lemma BodyIdsDistinct(book: BookData, flow: Flow)
    ensures DistinctIds(BodyBlocks(book, flow))
  {
    var bs := BodyBlocks(book, flow);
    var toc := TocOf(book);
    BodyIdsAreTocIds(book, flow);
    TocHrefsDistinct(book);
    forall i, j | 0 <= i < j < |bs| ensures bs[i].id != bs[j].id {
      EntryHref(book, i);
      EntryHref(book, j);
      assert BlockIds(bs)[i] == toc[i].href[1..];
      assert BlockIds(bs)[j] == toc[j].href[1..];
      assert toc[i].href == Href(toc[i].href[1..]);
      assert toc[j].href == Href(toc[j].href[1..]);
    }
  }

  /** The ToC's target anchors are the ids of the body's blocks. */
  lemma TargetsAreBlockIds(book: BookData, flow: Flow)
    ensures var bs := BodyBlocks(book, flow);
      TargetAnchors(TocOf(book)) == set i | 0 <= i < |bs| :: bs[i].id
  {
    var bs := BodyBlocks(book, flow);
    BodyIdsAreTocIds(book, flow);
    TargetAnchorsAreIds(book);
    var ids := TocIds(TocOf(book));
    assert (set i | 0 <= i < |bs| :: bs[i].id) == set i | 0 <= i < |ids| :: ids[i] by {
      forall i | 0 <= i < |bs| ensures bs[i].id == ids[i] {
        assert BlockIds(bs)[i] == bs[i].id;
      }
    }
  }

  /** The set of ids the document emits is the set of ToC target anchors. */
  lemma EmittedIdsAreTargets(book: BookData, flow: Flow, debugPages: bool)
    ensures EmittedIds(Plain(FrontKinds(book, flow, debugPages)) + Render(BodyBlocks(book, flow)))
         == TargetAnchors(TocOf(book))
  {
    EmittedIdsOfRender(FrontKinds(book, flow, debugPages), BodyBlocks(book, flow));
    TargetsAreBlockIds(book, flow);
  }

  /** The texts of the body sections in order: preface, prologue, each chapter, epilogue, each when present. */
  function SectionTexts(book: BookData): seq<string> {
    (if Truthy(book.prefaceText) then [book.prefaceText.value] else [])
    + (if Truthy(book.prologueText) then [book.prologueText.value] else [])
    + seq(|book.chapters|, i requires 0 <= i < |book.chapters| => book.chapters[i].content)
    + (if Truthy(book.epilogueText) then [book.epilogueText.value] else [])
  }

  /** Block k carries the paragraphs of text k, for every k. */
  predicate ParagraphsOf(bs: seq<Block>, texts: seq<string>) {
    |bs| == |texts| && forall k :: 0 <= k < |bs| ==> bs[k].paragraphs == SplitParagraphs(texts[k])
  }

  lemma ParagraphsOfAppend(bs1: seq<Block>, t1: seq<string>, bs2: seq<Block>, t2: seq<string>)
    requires ParagraphsOf(bs1, t1) && ParagraphsOf(bs2, t2)
    ensures ParagraphsOf(bs1 + bs2, t1 + t2)
  {
    forall k | 0 <= k < |bs1 + bs2|
      ensures (bs1 + bs2)[k].paragraphs == SplitParagraphs((t1 + t2)[k])
    {
      if k < |bs1| {
        assert (bs1 + bs2)[k] == bs1[k] && (t1 + t2)[k] == t1[k];
      } else {
        assert (bs1 + bs2)[k] == bs2[k - |bs1|] && (t1 + t2)[k] == t2[k - |bs1|];
      }
    }
  }

  lemma ParagraphsOfBody(book: BookData, flow: Flow)
    ensures ParagraphsOf(BodyBlocks(book, flow), SectionTexts(book))
  {
    var chs := ChapterBlocks(book.chapters, flow);
    var tChs := seq(|book.chapters|, i requires 0 <= i < |book.chapters| => book.chapters[i].content);
    forall k | 0 <= k < |chs|
      ensures chs[k].paragraphs == SplitParagraphs(tChs[k])
    {
      assert chs[k] == ChapterBlock(book.chapters, flow, k);
    }
    var tPre := if Truthy(book.prefaceText) then [book.prefaceText.value] else [];
    var tPro := if Truthy(book.prologueText) then [book.prologueText.value] else [];
    var tEpi := if Truthy(book.epilogueText) then [book.epilogueText.value] else [];
    ParagraphsOfAppend(PrefaceBlocks(book, flow), tPre, PrologueBlocks(book, flow), tPro);
    ParagraphsOfAppend(PrefaceBlocks(book, flow) + PrologueBlocks(book, flow), tPre + tPro, chs, tChs);
    ParagraphsOfAppend(PrefaceBlocks(book, flow) + PrologueBlocks(book, flow) + chs, tPre + tPro + tChs,
                       EpilogueBlocks(book, flow), tEpi);
  }

  /**
   * Each body section renders its own text as one paragraph per piece of
   * split('\n\n'), and the pieces rejoin to that text.
   */
  lemma {:induction false} ParagraphsRejoin(book: BookData, flow: Flow, j: nat)
    requires j < |BodyBlocks(book, flow)|
    ensures |SectionTexts(book)| == |BodyBlocks(book, flow)|
    ensures var b := BodyBlocks(book, flow)[j];
      && |b.paragraphs| >= 1
      && b.paragraphs == SplitParagraphs(SectionTexts(book)[j])
      && JoinParagraphs(b.paragraphs) == SectionTexts(book)[j]
  {
    ParagraphsOfBody(book, flow);
    JoinSplitParagraphs(SectionTexts(book)[j]);
  }

  /** The front matter as written starts with debug pages; without them it starts with the two blank pages. */
  lemma DebugPagesLeadTheDocument(book: BookData, flow: Flow)
    ensures DocumentAsWritten(book, flow)[0].kind == Debug
    ensures Document(book, flow)[0].kind == Blank && Document(book, flow)[1].kind == Blank
    ensures |DocumentAsWritten(book, flow)| == |Document(book, flow)| + 2 + flow.debugCallExtra + flow.debugJsonExtra
  {
  }
}
