/**
 * The book as the exporter receives it, and the table-of-contents index that
 * `save_book_as_pdf` builds from it before rendering.
 */
module Toc {
  import opened Wrappers
  import opened PyStr

  /** One entry of book_data["chapters"]. */
  datatype Chapter = Chapter(heading: string, content: string, imagePath: Option<string>)

  /**
   * book_data as read by the exporter and its template. None stands for a key
   * that is absent (or None); `chapters` is [] when the key is absent.
   * `imagePath` is the optional book-level cover image of the template.
   */
  datatype BookData = BookData(
    prefaceText: Option<string>,
    prologueText: Option<string>,
    prologueTitle: Option<string>,
    epilogueText: Option<string>,
    epilogueTitle: Option<string>,
    imagePath: Option<string>,
    chapters: seq<Chapter>)

  datatype TocEntry = TocEntry(title: string, href: string)

  /** The anchor of chapter n (1-based), as the template spells its id. */
  function ChapterId(n: nat): string {
    "chapter-" + Decimal(n)
  }

  /** A link to an anchor: "#" + id. */
  function Href(id: string): (h: string)
    ensures |h| == |id| + 1 && h[0] == '#' && h[1..] == id
  {
    "#" + id
  }

  /** The links to the named sections. */
  lemma NamedHrefs()
    ensures Href("preface") == "#preface" && Href("prologue") == "#prologue" && Href("epilogue") == "#epilogue"
  {
  }

  /** The link to chapter n is "#chapter-" and n in decimal. */
  lemma HrefSpelling(n: nat)
    ensures Href(ChapterId(n)) == "#chapter-" + Decimal(n)
  {
    assert Href(ChapterId(n)) == "#chapter-" + Decimal(n) by {
      assert ("#" + "chapter-") + Decimal(n) == "#" + ("chapter-" + Decimal(n));
    }
  }

  function PrologueTitle(book: BookData): string {
    book.prologueTitle.GetOr("Prologue")
  }

  function EpilogueTitle(book: BookData): string {
    book.epilogueTitle.GetOr("Epilogue")
  }

  function ChapterEntry(chs: seq<Chapter>, i: nat): TocEntry
    requires i < |chs|
  {
    TocEntry(chs[i].heading, Href(ChapterId(i + 1)))
  }

  function PrefaceEntries(book: BookData): seq<TocEntry> {
    if Truthy(book.prefaceText) then [TocEntry("Preface", Href("preface"))] else []
  }

  function PrologueEntries(book: BookData): seq<TocEntry> {
    if Truthy(book.prologueText) then [TocEntry(PrologueTitle(book), Href("prologue"))] else []
  }

  /** The entries of the first n chapters. */
  function ChapterEntriesUpTo(chs: seq<Chapter>, n: nat): seq<TocEntry>
    requires n <= |chs|
  {
    seq(n, i requires 0 <= i < n => ChapterEntry(chs, i))
  }

  function ChapterEntries(chs: seq<Chapter>): seq<TocEntry> {
    ChapterEntriesUpTo(chs, |chs|)
  }

  function EpilogueEntries(book: BookData): seq<TocEntry> {
    if Truthy(book.epilogueText) then [TocEntry(EpilogueTitle(book), Href("epilogue"))] else []
  }

  /** The list all_sections_for_toc, as a value. */
  function TocOf(book: BookData): seq<TocEntry> {
    PrefaceEntries(book) + PrologueEntries(book) + ChapterEntries(book.chapters) + EpilogueEntries(book)
  }

  /** How many optional front sections (preface, prologue) precede chapter 1. */
  function FrontCount(book: BookData): (n: nat)
    ensures n <= 2
  {
    |PrefaceEntries(book)| + |PrologueEntries(book)|
  }

  /** The loop that appends to all_sections_for_toc. */
  method BuildToc(book: BookData) returns (toc: seq<TocEntry>)
    ensures toc == TocOf(book)
    ensures |toc| == FrontCount(book) + |book.chapters| + |EpilogueEntries(book)|
    ensures forall i :: 0 <= i < |book.chapters| ==>
      toc[FrontCount(book) + i] == TocEntry(book.chapters[i].heading, "#chapter-" + Decimal(i + 1))
  {
    NamedHrefs();
    toc := [];
    if Truthy(book.prefaceText) {
      toc := toc + [TocEntry("Preface", "#preface")];
    }
    if Truthy(book.prologueText) {
      toc := toc + [TocEntry(PrologueTitle(book), "#prologue")];
    }
    ghost var front := toc;
    assert front == PrefaceEntries(book) + PrologueEntries(book);
    var i := 0;
    while i < |book.chapters|
      invariant 0 <= i <= |book.chapters|
      invariant toc == front + ChapterEntriesUpTo(book.chapters, i)
    {
      assert ChapterEntriesUpTo(book.chapters, i + 1)
          == ChapterEntriesUpTo(book.chapters, i) + [ChapterEntry(book.chapters, i)];
      HrefSpelling(i + 1);
      toc := toc + [TocEntry(book.chapters[i].heading, "#chapter-" + Decimal(i + 1))];
      i := i + 1;
    }
    if Truthy(book.epilogueText) {
      toc := toc + [TocEntry(EpilogueTitle(book), "#epilogue")];
    }
    assert toc == TocOf(book);
    TocShape(book);
  }

  /** target_anchors: the hrefs with their leading '#' dropped. */
  function TargetAnchors(toc: seq<TocEntry>): set<string> {
    set e | e in toc && |e.href| >= 1 :: e.href[1..]
  }

  /** The anchor ids of a ToC, in order. */
  function TocIds(toc: seq<TocEntry>): seq<string> {
    seq(|toc|, i requires 0 <= i < |toc| => if |toc[i].href| >= 1 then toc[i].href[1..] else "")
  }

  // ---------------------------------------------------------------------
  // Properties of the index

  /** An optional section has an entry exactly when its text is truthy, with its default title. */
  lemma OptionalEntries(book: BookData)
    ensures TocEntry("Preface", "#preface") in TocOf(book) <==> Truthy(book.prefaceText)
    ensures (exists e :: e in TocOf(book) && e.href == "#prologue") <==> Truthy(book.prologueText)
    ensures (exists e :: e in TocOf(book) && e.href == "#epilogue") <==> Truthy(book.epilogueText)
    ensures Truthy(book.prologueText) && book.prologueTitle.None? ==> TocEntry("Prologue", "#prologue") in TocOf(book)
    ensures Truthy(book.epilogueText) && book.epilogueTitle.None? ==> TocEntry("Epilogue", "#epilogue") in TocOf(book)
  {
    var pre, pro, chs, epi := PrefaceEntries(book), PrologueEntries(book), ChapterEntries(book.chapters), EpilogueEntries(book);
    NamedHrefs();
    assert TocOf(book) == pre + pro + chs + epi;
    forall e | e in chs ensures e.href != "#preface" && e.href != "#prologue" && e.href != "#epilogue" {
      var i :| 0 <= i < |chs| && chs[i] == e;
      ChapterHrefIsNotNamed(i + 1);
    }
  }

  /** A chapter's href is none of the three named sections' hrefs. */
  lemma ChapterHrefIsNotNamed(n: nat)
    ensures var h := Href(ChapterId(n)); h != "#preface" && h != "#prologue" && h != "#epilogue"
  {
    assert Href(ChapterId(n))[1] == 'c';
  }

  /** What entry i is, by region: preface, prologue, chapters, epilogue. */
  lemma EntryHref(book: BookData, i: nat)
    requires i < |TocOf(book)|
    ensures var e := TocOf(book)[i]; var f := FrontCount(book); var c := |book.chapters|;
      && (i < |PrefaceEntries(book)| ==> e == TocEntry("Preface", "#preface"))
      && (|PrefaceEntries(book)| <= i < f ==> e == TocEntry(PrologueTitle(book), "#prologue"))
      && (f <= i < f + c ==> e == TocEntry(book.chapters[i - f].heading, Href(ChapterId(i - f + 1))))
      && (f + c <= i ==> e == TocEntry(EpilogueTitle(book), "#epilogue"))
  {
  }

  /** The ToC is preface, prologue, chapters in order, epilogue; its length counts them. */
  lemma TocShape(book: BookData)
    ensures |TocOf(book)| == (if Truthy(book.prefaceText) then 1 else 0) + (if Truthy(book.prologueText) then 1 else 0)
                            + |book.chapters| + (if Truthy(book.epilogueText) then 1 else 0)
    ensures Truthy(book.prefaceText) ==> TocOf(book)[0] == TocEntry("Preface", "#preface")
    ensures Truthy(book.prologueText) ==>
      TocOf(book)[FrontCount(book) - 1] == TocEntry(PrologueTitle(book), "#prologue")
    ensures forall i :: 0 <= i < |book.chapters| ==>
      TocOf(book)[FrontCount(book) + i] == TocEntry(book.chapters[i].heading, "#chapter-" + Decimal(i + 1))
    ensures Truthy(book.epilogueText) ==>
      TocOf(book)[|TocOf(book)| - 1] == TocEntry(EpilogueTitle(book), "#epilogue")
  {
    var pre, pro, chs, epi := PrefaceEntries(book), PrologueEntries(book), ChapterEntries(book.chapters), EpilogueEntries(book);
    var toc := TocOf(book);
    NamedHrefs();
    assert toc == pre + pro + chs + epi;
    assert |chs| == |book.chapters|;
    forall i | 0 <= i < |book.chapters|
      ensures toc[FrontCount(book) + i] == TocEntry(book.chapters[i].heading, "#chapter-" + Decimal(i + 1))
    {
      assert toc[FrontCount(book) + i] == chs[i];
      HrefSpelling(i + 1);
    }
    if Truthy(book.epilogueText) {
      assert toc[|toc| - 1] == epi[0];
    }
  }

  /** Anchor ids of distinct sections differ. */
  lemma ChapterIdsDistinct(m: nat, n: nat)
    requires m != n
    ensures ChapterId(m) != ChapterId(n)
  {
    if ChapterId(m) == ChapterId(n) {
      assert Decimal(m) == ChapterId(m)[8..] == ChapterId(n)[8..] == Decimal(n);
      DecimalInjective(m, n);
    }
  }

  /** The ids of the ToC, in order. */
  lemma TocIdsShape(book: BookData)
    ensures TocIds(TocOf(book)) ==
      (if Truthy(book.prefaceText) then ["preface"] else [])
      + (if Truthy(book.prologueText) then ["prologue"] else [])
      + seq(|book.chapters|, i requires 0 <= i < |book.chapters| => ChapterId(i + 1))
      + (if Truthy(book.epilogueText) then ["epilogue"] else [])
  {
    var pre, pro, chs, epi := PrefaceEntries(book), PrologueEntries(book), ChapterEntries(book.chapters), EpilogueEntries(book);
    TocIdsAppend(pre, pro);
    TocIdsAppend(pre + pro, chs);
    TocIdsAppend(pre + pro + chs, epi);
    var chapterIds := seq(|book.chapters|, i requires 0 <= i < |book.chapters| => ChapterId(i + 1));
    assert TocIds(chs) == chapterIds by {
      forall i | 0 <= i < |chs| ensures TocIds(chs)[i] == chapterIds[i] {
        assert chs[i].href == Href(ChapterId(i + 1));
      }
    }
    assert TocIds(pre) == (if Truthy(book.prefaceText) then ["preface"] else []);
    assert TocIds(pro) == (if Truthy(book.prologueText) then ["prologue"] else []);
    assert TocIds(epi) == (if Truthy(book.epilogueText) then ["epilogue"] else []);
  }

  /** The ids of two lists joined are their ids joined. */
  lemma TocIdsAppend(a: seq<TocEntry>, b: seq<TocEntry>)
    ensures TocIds(a + b) == TocIds(a) + TocIds(b)
  {
    forall i | 0 <= i < |a + b| ensures TocIds(a + b)[i] == (TocIds(a) + TocIds(b))[i] {
      if i >= |a| {
        assert (a + b)[i] == b[i - |a|];
      }
    }
  }

  /** No two ToC entries share an href. */
  lemma TocHrefsDistinct(book: BookData)
    ensures forall i, j :: 0 <= i < j < |TocOf(book)| ==> TocOf(book)[i].href != TocOf(book)[j].href
  {
    var toc := TocOf(book);
    forall i, j | 0 <= i < j < |toc| ensures toc[i].href != toc[j].href {
      EntryHref(book, i);
      EntryHref(book, j);
      var f, c := FrontCount(book), |book.chapters|;
      if f <= i < f + c && f <= j < f + c {
        ChapterIdsDistinct(i - f + 1, j - f + 1);
        assert toc[i].href[1..] == ChapterId(i - f + 1);
        assert toc[j].href[1..] == ChapterId(j - f + 1);
      } else if f <= i < f + c {
        assert toc[i].href[1] == 'c';
      } else if f <= j < f + c {
        assert toc[j].href[1] == 'c';
      }
    }
  }

  /** The target anchors are exactly the ids of the ToC entries. */
  lemma TargetAnchorsAreIds(book: BookData)
    ensures TargetAnchors(TocOf(book)) == set i | 0 <= i < |TocIds(TocOf(book))| :: TocIds(TocOf(book))[i]
  {
    var toc := TocOf(book);
    var ids := TocIds(toc);
    forall i | 0 <= i < |toc| ensures |toc[i].href| >= 1 {
      EntryHref(book, i);
    }
    forall a | a in TargetAnchors(toc) ensures a in set i | 0 <= i < |ids| :: ids[i] {
      var e :| e in toc && |e.href| >= 1 && a == e.href[1..];
      var i :| 0 <= i < |toc| && toc[i] == e;
      assert ids[i] == a;
    }
    forall i | 0 <= i < |ids| ensures ids[i] in TargetAnchors(toc) {
      assert toc[i] in toc;
    }
  }

  /** Every ToC link points at the matching id. */
  lemma TocHrefsAreIds(book: BookData)
    ensures forall i :: 0 <= i < |TocOf(book)| ==> TocOf(book)[i].href == Href(TocIds(TocOf(book))[i])
  {
    var toc := TocOf(book);
    forall i | 0 <= i < |toc| ensures toc[i].href == Href(TocIds(toc)[i]) {
      EntryHref(book, i);
      var h := toc[i].href;
      assert |h| >= 1 && h[0] == '#';
      assert h == [h[0]] + h[1..];
    }
  }

  /** The ToC is empty exactly when the book has none of its four kinds of section. */
  lemma {:induction false} TocEmpty(book: BookData)
    ensures TocOf(book) == [] <==>
      !Truthy(book.prefaceText) && !Truthy(book.prologueText) && book.chapters == [] && !Truthy(book.epilogueText)
  {
    TocShape(book);
  }

  /** Without preface and prologue, the first entry links to chapter 1. */
  lemma {:induction false} FirstEntryIsChapterOne(book: BookData)
    requires !Truthy(book.prefaceText) && !Truthy(book.prologueText) && book.chapters != []
    ensures |TocOf(book)| > 0 && TocOf(book)[0].href == "#chapter-1"
  {
    TocShape(book);
    assert FrontCount(book) == 0;
    assert Decimal(1) == "1";
  }
}
