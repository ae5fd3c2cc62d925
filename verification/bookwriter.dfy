/**
 * `generate_astrology_book` of the web app: choose the chapter count from
 * the requested length, check the architect's structure, write one chapter
 * per theme, and return the book with its fixed preface and epilogue.
 *
 * Every model call is an input: the architect's chapter list, the chapter
 * writer, the summariser, the illustrator and the prologue reply.
 */
module BookWriter {
  import opened Wrappers
  import opened PyStr
  import opened Toc

  /**
   * One chapter of the architect's structure: its theme title (None when the
   * key is missing) and the rest of the object, which only reaches prompts.
   */
  datatype ArchitectChapter = ArchitectChapter(themeTitle: Option<string>, details: string)

  /** The model replies the writer consumes; None stands for a call that raised. */
  datatype Replies = Replies(
    architect: seq<ArchitectChapter>,
    write: (ArchitectChapter, int) -> string,
    summarize: string -> Option<string>,
    illustrate: string -> Option<string>,
    prologue: Option<string>)

  /** The dictionary the writer returns. */
  datatype WrittenBook = WrittenBook(
    swapiCallText: string,
    swapiJsonOutput: string,
    prefaceText: string,
    prologueText: string,
    epilogueText: string,
    chapters: seq<Chapter>)

  const SymbolicDataNote: string := "Symbolic data based on birth details."

  const PrefaceText: string :=
    "What you hold in your hands is not a " +
    "book of predictions, but a mirror. It " +
    "reflects the intricate, invisible " +
    "architecture of your inner world, drawn " +
    "from a single, powerful moment in time: " +
    "your beginning. The following chapters " +
    "are not a breakdown of cosmic " +
    "mechanics, but an exploration of the " +
    "core themes, tensions, and potentials " +
    "that make you who you are. This is a " +
    "journey into the 'why' behind your " +
    "drives, the 'how' of your connections, " +
    "and the 'what' of your unique purpose. " +
    "May it serve as a guide to deeper " +
    "self-understanding and a celebration of " +
    "the complex, beautiful story that is " +
    "you."

  const FallbackPrologue: string :=
    "Before we delve into the specific " +
    "themes of your personal narrative, let " +
    "us first set the stage. This " +
    "introduction serves as an overture, " +
    "touching upon the overarching energetic " +
    "signature of your being—the fundamental " +
    "rhythm to which your life tends to " +
    "move. It is the backdrop against which " +
    "all the individual stories, conflicts, " +
    "and triumphs detailed in the coming " +
    "chapters will unfold. It is a promise " +
    "of the journey to come, a journey not " +
    "of prediction, but of profound " +
    "self-recognition. We will explore the " +
    "currents that shape your desires, a " +
    "look into the foundations of your " +
    "emotional world, and an acknowledgment " +
    "of the unique challenges that forge " +
    "your strength. This is more than an " +
    "analysis; it is an invitation to see " +
    "yourself more clearly, to understand " +
    "the intricate patterns that make you " +
    "who you are, and to embrace the full " +
    "spectrum of your potential. Let us " +
    "begin."

  const EpilogueText: string :=
    "The journey through these pages has " +
    "been a journey inward. We have explored " +
    "the foundational pillars of your being, " +
    "navigated the currents of your internal " +
    "conflicts, and illuminated the pathways " +
    "of your greatest potential. This book " +
    "is now a map you hold, but the " +
    "territory is yours to explore. The " +
    "ultimate author of your story is, and " +
    "always will be, you. May you walk " +
    "forward with a renewed sense of " +
    "clarity, self-compassion, and purpose."

  /** str(KeyError('theme_title')), raised by the progress loop over the structure. */
  const MissingThemeTitle: string := "'theme_title'"

  // ---------------------------------------------------------------------
  // Sizing

  /** The chapter count for a requested length. */
  function NumChapters(target: int): (n: nat)
    ensures n == 4 || n == 8 || n == 12
  {
    if target <= 20000 then 4 else if target <= 40000 then 8 else 12
  }

  /** A longer book never gets fewer chapters. */
  lemma NumChaptersMonotone(a: int, b: int)
    requires a <= b
    ensures NumChapters(a) <= NumChapters(b)
  {
  }

  /** The three lengths the API accepts, and their chapter counts. */
  lemma AllowedLengths()
    ensures NumChapters(15000) == 4 && NumChapters(30000) == 8 && NumChapters(50000) == 12
  {
  }

  /** `int(target / n)`: the quotient truncated toward zero. */
  function WordsPerChapter(target: int, n: nat): (w: int)
    requires n > 0
    ensures target >= 0 ==> w >= 0 && w * n <= target < w * n + n
    ensures target < 0 ==> w <= 0 && w * n - n < target <= w * n
  {
    if target >= 0 then target / n
    else
      var q := (-target) / n;
      assert (-q) * n == -(q * n);
      -q
  }

  /** The ValueError text when the architect's list has the wrong size. */
  function ArchitectError(wanted: nat, got: nat): string {
    "The AI Architect failed to generate the required " + Decimal(wanted)
      + " chapters. It returned " + Decimal(got) + "."
  }

  /** The structure check: a non-empty list of exactly `n` chapters passes. */
  function StructureError(architect: seq<ArchitectChapter>, n: nat): (e: Option<string>)
    ensures e.None? <==> architect != [] && |architect| == n
    ensures e.Some? ==> e.value == ArchitectError(n, |architect|)
  {
    if architect == [] || |architect| != n then Some(ArchitectError(n, |architect|)) else None
  }

  predicate AllTitled(architect: seq<ArchitectChapter>) {
    forall i :: 0 <= i < |architect| ==> architect[i].themeTitle.Some?
  }

  // ---------------------------------------------------------------------
  // Chapters

  /** `summarize_section`: the stripped reply, or the first 300 characters and "...". */
  function Summary(text: string, reply: Option<string>): (s: string)
    ensures reply.None? ==> s == Take(text, 300) + "..."
  {
    if reply.Some? then Strip(reply.value) else Take(text, 300) + "..."
  }

  /** The record the writer appends for one architect chapter. */
  function WrittenChapter(c: ArchitectChapter, wpc: int, replies: Replies): (ch: Chapter)
    requires c.themeTitle.Some?
    ensures ch.heading == c.themeTitle.value
    ensures ch.content == Strip(replies.write(c, wpc))
  {
    var text := Strip(replies.write(c, wpc));
    Chapter(c.themeTitle.value, text, replies.illustrate(Summary(text, replies.summarize(text))))
  }

  /** The records for the first n architect chapters, in order. */
  function WrittenChapters(architect: seq<ArchitectChapter>, n: nat, wpc: int, replies: Replies): (chs: seq<Chapter>)
    requires n <= |architect| && AllTitled(architect)
    ensures |chs| == n
  {
    if n == 0 then [] else WrittenChapters(architect, n - 1, wpc, replies) + [WrittenChapter(architect[n - 1], wpc, replies)]
  }

  /**
   * The writing loop: one record per architect chapter, appended
   * in order.
   */
  method AssembleChapters(architect: seq<ArchitectChapter>, wpc: int, replies: Replies)
    returns (chapters: seq<Chapter>)
    requires AllTitled(architect)
    ensures chapters == WrittenChapters(architect, |architect|, wpc, replies)
  {
    chapters := [];
    var i := 0;
    while i < |architect|
      invariant 0 <= i <= |architect|
      invariant chapters == WrittenChapters(architect, i, wpc, replies)
    {
      var details := architect[i];
      var text := Strip(replies.write(details, wpc));
      var summary := Summary(text, replies.summarize(text));
      var imagePath := replies.illustrate(summary);
      chapters := chapters + [Chapter(details.themeTitle.value, text, imagePath)];
      i := i + 1;
    }
  }

  /** Record i of the first n is the record of architect chapter i. */
  lemma {:induction false} WrittenChapterAt(architect: seq<ArchitectChapter>, n: nat, wpc: int, replies: Replies, i: nat)
    requires n <= |architect| && AllTitled(architect) && i < n
    ensures WrittenChapters(architect, n, wpc, replies)[i] == WrittenChapter(architect[i], wpc, replies)
    decreases n
  {
    if i < n - 1 {
      WrittenChapterAt(architect, n - 1, wpc, replies, i);
    }
  }

  /**
   * The chapters follow the architect's list: same length and order, the
   * theme title as heading, the stripped reply as text, and the image the
   * illustrator made from the summary (None where it failed).
   */
  lemma {:induction false} ChaptersFollowArchitect(architect: seq<ArchitectChapter>, wpc: int, replies: Replies)
    requires AllTitled(architect)
    ensures var chs := WrittenChapters(architect, |architect|, wpc, replies);
      && |chs| == |architect|
      && forall i :: 0 <= i < |architect| ==>
           && chs[i].heading == architect[i].themeTitle.value
           && chs[i].content == Strip(replies.write(architect[i], wpc))
           && chs[i].imagePath == replies.illustrate(Summary(chs[i].content, replies.summarize(chs[i].content)))
  {
    forall i | 0 <= i < |architect|
      ensures WrittenChapters(architect, |architect|, wpc, replies)[i] == WrittenChapter(architect[i], wpc, replies)
    {
      WrittenChapterAt(architect, |architect|, wpc, replies, i);
    }
  }

  // ---------------------------------------------------------------------
  // The whole book

  /** The prologue: the stripped reply, or the fallback when the call raised. */
  function PrologueText(reply: Option<string>): (s: string)
    ensures reply.None? ==> s == FallbackPrologue
  {
    if reply.Some? then Strip(reply.value) else FallbackPrologue
  }

  method GenerateAstrologyBook(chartJson: string, target: int, replies: Replies)
    returns (r: Result<WrittenBook, string>)
    ensures StructureError(replies.architect, NumChapters(target)).Some? ==>
              r == Failure(ArchitectError(NumChapters(target), |replies.architect|))
    ensures StructureError(replies.architect, NumChapters(target)).None? && !AllTitled(replies.architect) ==>
              r == Failure(MissingThemeTitle)
    ensures r.Success? <==> StructureError(replies.architect, NumChapters(target)).None? && AllTitled(replies.architect)
    ensures r.Success? ==>
      && |r.value.chapters| == NumChapters(target)
      && r.value.chapters == WrittenChapters(replies.architect, |replies.architect|,
                                             WordsPerChapter(target, NumChapters(target)), replies)
      && (forall i :: 0 <= i < |r.value.chapters| ==>
            r.value.chapters[i] == WrittenChapter(replies.architect[i], WordsPerChapter(target, NumChapters(target)), replies))
      && r.value.swapiCallText == SymbolicDataNote
      && r.value.swapiJsonOutput == chartJson
      && r.value.prefaceText == PrefaceText
      && r.value.prologueText == PrologueText(replies.prologue)
      && r.value.epilogueText == EpilogueText
  {
    var numChapters := NumChapters(target);
    var dynamicChapters := replies.architect;
    var err := StructureError(dynamicChapters, numChapters);
    if err.Some? {
      return Failure(err.value);
    }
    if !AllTitled(dynamicChapters) {
      return Failure(MissingThemeTitle);
    }
    var wordsPerChapter := WordsPerChapter(target, numChapters);
    var chapters := AssembleChapters(dynamicChapters, wordsPerChapter, replies);
    forall i | 0 <= i < |chapters|
      ensures chapters[i] == WrittenChapter(dynamicChapters[i], wordsPerChapter, replies)
    {
      WrittenChapterAt(dynamicChapters, |dynamicChapters|, wordsPerChapter, replies, i);
    }
    var introText := PrologueText(replies.prologue);
    r := Success(WrittenBook(SymbolicDataNote, chartJson, PrefaceText, introText, EpilogueText, chapters));
  }

  /**
   * The returned dictionary as the exporter reads it: the three texts are
   * present, there are no custom titles and no cover image.
   */
  function AsBookData(w: WrittenBook): (b: BookData)
    ensures b.prefaceText == Some(w.prefaceText) && b.prologueText == Some(w.prologueText)
    ensures b.epilogueText == Some(w.epilogueText)
    ensures b.prologueTitle.None? && b.epilogueTitle.None? && b.imagePath.None?
    ensures b.chapters == w.chapters
  {
    BookData(Some(w.prefaceText), Some(w.prologueText), None, Some(w.epilogueText), None, None, w.chapters)
  }

  /** The fixed preface, epilogue and fallback prologue are non-empty texts. */
  lemma FixedTextsNonEmpty()
    ensures PrefaceText != [] && EpilogueText != [] && FallbackPrologue != []
  {
  }

  /**
   * A written book always has a preface, so its table of contents is never
   * empty and the exporter's first pass finds a content page.
   */
  lemma {:induction false} WrittenBookHasContents(w: WrittenBook)
    requires w.prefaceText == PrefaceText
    ensures TocOf(AsBookData(w)) != []
    ensures TocOf(AsBookData(w))[0] == TocEntry("Preface", "#preface")
  {
    FixedTextsNonEmpty();
    TocShape(AsBookData(w));
  }
}
