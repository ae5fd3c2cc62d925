/**
 * The PDF-generation Lambda: unwrap the Step Functions payload, check the
 * required fields, fetch each chapter's text and image, render the book with
 * `save_book_as_pdf` and upload it next to the order.
 *
 * S3 reads, image downloads and the upload are inputs; the renderer's
 * pagination is the same `Flow` the exporter takes.
 */
module GeneratePdf {
  import opened Wrappers
  import opened PyStr
  import opened Toc
  import opened Layout
  import opened Exporter

  /** One entry of chapters_data; None stands for an absent key. */
  datatype ChapterRef = ChapterRef(textPath: Option<string>, imageUrl: Option<string>, themeTitle: Option<string>)

  /**
   * The fields of the payload the handler reads or writes; None stands for an
   * absent key. `others` holds the remaining keys, passed through unchanged.
   */
  datatype PdfPayload = PdfPayload(
    orderId: Option<string>,
    lineItemId: Option<string>,
    chaptersData: Option<seq<ChapterRef>>,
    fullBookStructure: Option<map<string, string>>,
    astrologyJsonS3Path: Option<string>,
    finalPdfS3Path: Option<string>,
    others: map<string, string>)

  /** What the event's "Payload" key holds, when it is there. */
  datatype PayloadEntry = DictPayload(payload: PdfPayload) | NotADict

  /** The event: its own fields, and its "Payload" key if any. */
  datatype Event = Event(fields: PdfPayload, payloadEntry: Option<PayloadEntry>)

  /** The upload: the rendered PDF, the bucket and the key. */
  datatype Upload = Upload(pdf: Pdf, bucket: string, key: string)

  const MissingData: string := "Missing critical data in the payload for PDF generation."
  const DefaultBookTitle: string := "The Architecture of You"

  /** event['Payload'] when it is present and a dict; otherwise the event itself. */
  function Unwrap(event: Event): (p: PdfPayload)
    ensures event.payloadEntry.Some? && event.payloadEntry.value.DictPayload? ==> p == event.payloadEntry.value.payload
    ensures event.payloadEntry.None? || event.payloadEntry.value.NotADict? ==> p == event.fields
  {
    match event.payloadEntry
    case Some(DictPayload(p)) => p
    case _ => event.fields
  }

  /** `all([...])` over the five required fields: strings, list and dict must be non-empty. */
  predicate HasRequiredFields(p: PdfPayload) {
    && Truthy(p.orderId) && Truthy(p.lineItemId)
    && p.chaptersData.Some? && p.chaptersData.value != []
    && p.fullBookStructure.Some? && p.fullBookStructure.value != map[]
    && Truthy(p.astrologyJsonS3Path)
  }

  function Get(m: map<string, string>, k: string): Option<string> {
    if k in m then Some(m[k]) else None
  }

  function TmpDir(orderId: string, lineItemId: string): string {
    "/tmp/" + orderId + "/" + lineItemId
  }

  // ---------------------------------------------------------------------
  // Chapter records

  /** `chapter.get("theme_title", f"Chapter {idx}")`. */
  function Heading(ref: ChapterRef, idx: nat): string {
    ref.themeTitle.GetOr("Chapter " + Decimal(idx))
  }

  function ImageFile(tmpDir: string, idx: nat): string {
    JoinPath(tmpDir, "chapter_" + Decimal(idx) + "_image.png")
  }

  /** The local image: its path when there is a URL and the download succeeds. */
  function ImagePath(ref: ChapterRef, idx: nat, tmpDir: string, download: (string, string) -> bool): (p: Option<string>)
    ensures p.Some? <==> Truthy(ref.imageUrl) && download(ref.imageUrl.value, ImageFile(tmpDir, idx))
    ensures p.Some? ==> p.value == ImageFile(tmpDir, idx)
  {
    if Truthy(ref.imageUrl) && download(ref.imageUrl.value, ImageFile(tmpDir, idx)) then Some(ImageFile(tmpDir, idx))
    else None
  }

  /**
   * The record for the chapter at 1-based position idx: None when it has no
   * text path (skipped), a Failure when reading its text raises.
   * `fetchText` gives the "chapter_text" of the object at a path (None when
   * the key is absent).
   */
  function ChapterRecord(ref: ChapterRef, idx: nat, tmpDir: string, fetchText: string -> Result<Option<string>, string>,
                         download: (string, string) -> bool): Result<Option<Chapter>, string>
  {
    if !Truthy(ref.textPath) then Success(None)
    else
      var text := fetchText(ref.textPath.value);
      if text.Failure? then Failure(text.error)
      else Success(Some(Chapter(Heading(ref, idx), text.value.GetOr(""), ImagePath(ref, idx, tmpDir, download))))
  }

  /** The records of the first n chapter entries, in order; the first failure stops. */
  function ChaptersUpTo(refs: seq<ChapterRef>, n: nat, tmpDir: string, fetchText: string -> Result<Option<string>, string>,
                        download: (string, string) -> bool): (r: Result<seq<Chapter>, string>)
    requires n <= |refs|
    ensures r.Success? ==> |r.value| <= n
  {
    if n == 0 then Success([])
    else
      var before := ChaptersUpTo(refs, n - 1, tmpDir, fetchText, download);
      if before.Failure? then before
      else
        var here := ChapterRecord(refs[n - 1], n, tmpDir, fetchText, download);
        if here.Failure? then Failure(here.error)
        else Success(before.value + (if here.value.Some? then [here.value.value] else []))
  }

  /** The download loop: skip entries without a text path, append the others. */
  method AssembleChapters(refs: seq<ChapterRef>, tmpDir: string, fetchText: string -> Result<Option<string>, string>,
                          download: (string, string) -> bool)
    returns (r: Result<seq<Chapter>, string>)
    ensures r == ChaptersUpTo(refs, |refs|, tmpDir, fetchText, download)
  {
    var chapters: seq<Chapter> := [];
    var i := 0;
    while i < |refs|
      invariant 0 <= i <= |refs|
      invariant ChaptersUpTo(refs, i, tmpDir, fetchText, download) == Success(chapters)
    {
      var idx := i + 1;
      var chapter := refs[i];
      ChaptersStep(refs, i, tmpDir, fetchText, download);
      if !Truthy(chapter.textPath) {
        assert chapters + [] == chapters;
        i := i + 1;
        continue;
      }
      var content := fetchText(chapter.textPath.value);
      if content.Failure? {
        FailureStays(refs, i + 1, |refs|, tmpDir, fetchText, download);
        return Failure(content.error);
      }
      var fullChapterText := content.value.GetOr("");
      var localImagePath: Option<string> := None;
      if Truthy(chapter.imageUrl) {
        var imageFile := ImageFile(tmpDir, idx);
        if download(chapter.imageUrl.value, imageFile) {
          localImagePath := Some(imageFile);
        } else {
          localImagePath := None;
        }
      }
      chapters := chapters + [Chapter(Heading(chapter, idx), fullChapterText, localImagePath)];
      i := i + 1;
    }
    return Success(chapters);
  }

  /** One more entry: its record is appended, or its failure ends the loop. */
  lemma ChaptersStep(refs: seq<ChapterRef>, i: nat, tmpDir: string,
                     fetchText: string -> Result<Option<string>, string>, download: (string, string) -> bool)
    requires i < |refs| && ChaptersUpTo(refs, i, tmpDir, fetchText, download).Success?
    ensures var rec := ChapterRecord(refs[i], i + 1, tmpDir, fetchText, download);
      var before := ChaptersUpTo(refs, i, tmpDir, fetchText, download).value;
      ChaptersUpTo(refs, i + 1, tmpDir, fetchText, download)
        == if rec.Failure? then Failure(rec.error)
           else Success(before + (if rec.value.Some? then [rec.value.value] else []))
  {
  }

  /** Once reading a chapter raises, the whole loop fails with that error. */
  lemma {:induction false} FailureStays(refs: seq<ChapterRef>, i: nat, n: nat, tmpDir: string,
                                        fetchText: string -> Result<Option<string>, string>, download: (string, string) -> bool)
    requires i <= n <= |refs| && ChaptersUpTo(refs, i, tmpDir, fetchText, download).Failure?
    ensures ChaptersUpTo(refs, n, tmpDir, fetchText, download) == ChaptersUpTo(refs, i, tmpDir, fetchText, download)
    decreases n - i
  {
    if i < n {
      FailureStays(refs, i, n - 1, tmpDir, fetchText, download);
    }
  }

  /** The 1-based positions of the first n entries that have a text path. */
  function KeptPositions(refs: seq<ChapterRef>, n: nat): (ps: seq<nat>)
    requires n <= |refs|
    ensures |ps| <= n
    ensures forall k :: 0 <= k < |ps| ==> 1 <= ps[k] <= n && Truthy(refs[ps[k] - 1].textPath)
    ensures forall k, l :: 0 <= k < l < |ps| ==> ps[k] < ps[l]
    ensures forall j :: 1 <= j <= n && Truthy(refs[j - 1].textPath) ==> j in ps
  {
    if n == 0 then []
    else KeptPositions(refs, n - 1) + (if Truthy(refs[n - 1].textPath) then [n] else [])
  }

  /**
   * The chapters are the entries with a text path, in input order; each is
   * headed by its theme title or "Chapter {idx}" with idx its position in
   * the input (so skipped entries leave gaps), holds the text fetched from
   * its own path ("" when that object is missing), and has an image only
   * when its URL is non-empty and the download succeeded.
   */
  lemma {:induction false} ChaptersFollowInput(refs: seq<ChapterRef>, n: nat, tmpDir: string,
                                               fetchText: string -> Result<Option<string>, string>,
                                               download: (string, string) -> bool)
    requires n <= |refs| && ChaptersUpTo(refs, n, tmpDir, fetchText, download).Success?
    ensures var chs := ChaptersUpTo(refs, n, tmpDir, fetchText, download).value;
      var ps := KeptPositions(refs, n);
      && |chs| == |ps|
      && forall k :: 0 <= k < |chs| ==>
           && chs[k].heading == Heading(refs[ps[k] - 1], ps[k])
           && fetchText(refs[ps[k] - 1].textPath.value).Success?
           && chs[k].content == fetchText(refs[ps[k] - 1].textPath.value).value.GetOr("")
           && chs[k].imagePath == ImagePath(refs[ps[k] - 1], ps[k], tmpDir, download)
  {
    if n > 0 {
      ChaptersFollowInput(refs, n - 1, tmpDir, fetchText, download);
      var before := ChaptersUpTo(refs, n - 1, tmpDir, fetchText, download).value;
      var chs := ChaptersUpTo(refs, n, tmpDir, fetchText, download).value;
      var ps0, ps := KeptPositions(refs, n - 1), KeptPositions(refs, n);
      var kept := Truthy(refs[n - 1].textPath);
      if kept {
        var here := ChapterRecord(refs[n - 1], n, tmpDir, fetchText, download).value.value;
        assert chs == before + [here] && ps == ps0 + [n];
      } else {
        assert chs == before && ps == ps0;
      }
      forall k | 0 <= k < |chs|
        ensures chs[k].heading == Heading(refs[ps[k] - 1], ps[k])
        ensures fetchText(refs[ps[k] - 1].textPath.value).Success?
        ensures chs[k].content == fetchText(refs[ps[k] - 1].textPath.value).value.GetOr("")
        ensures chs[k].imagePath == ImagePath(refs[ps[k] - 1], ps[k], tmpDir, download)
      {
        if k < |before| {
          assert chs[k] == before[k] && ps[k] == ps0[k];
        } else {
          assert kept && ps[k] == n;
        }
      }
    }
  }

  // ---------------------------------------------------------------------
  // The handler

  /** book_data as the handler builds it: no custom titles, no cover image. */
  function PdfBook(structure: map<string, string>, chapters: seq<Chapter>): (b: BookData)
    ensures b.prologueTitle.None? && b.epilogueTitle.None? && b.imagePath.None?
  {
    BookData(Get(structure, "preface"), Get(structure, "prologue"), None, Get(structure, "epilogue"), None, None, chapters)
  }

  function FinalPdfKey(orderId: string, lineItemId: string): string {
    "final-pdfs/" + orderId + "/" + lineItemId + ".pdf"
  }

  /**
   * `lambda_handler`. `astrology` is the chart read from S3 (its text only
   * feeds a field the exporter does not read), `flow` the renderer's
   * pagination, `uploadError` the upload's exception (None when it succeeds), `bucket` the
   * artifacts bucket. A Failure is the exception the handler raises.
   */
  method HandlePdf(event: Event, astrology: Result<string, string>,
                   fetchText: string -> Result<Option<string>, string>, download: (string, string) -> bool,
                   flow: Flow, bucket: string, uploadError: Option<string>)
    returns (r: Result<PdfPayload, string>, upload: Option<Upload>)
    ensures !HasRequiredFields(Unwrap(event)) ==> r == Failure(MissingData) && upload.None?
    ensures r.Success? <==>
      (&& HasRequiredFields(Unwrap(event)) && astrology.Success?
       && (var p := Unwrap(event);
           var chs := ChaptersUpTo(p.chaptersData.value, |p.chaptersData.value|,
                                   TmpDir(p.orderId.value, p.lineItemId.value), fetchText, download);
           && chs.Success?
           && TocOf(PdfBook(p.fullBookStructure.value, chs.value)) != []
           && uploadError.None?))
    ensures r.Success? ==>
      var p := Unwrap(event);
      var key := FinalPdfKey(p.orderId.value, p.lineItemId.value);
      var tmpDir := TmpDir(p.orderId.value, p.lineItemId.value);
      var chs := ChaptersUpTo(p.chaptersData.value, |p.chaptersData.value|, tmpDir, fetchText, download).value;
      var book := PdfBook(p.fullBookStructure.value, chs);
      && r.value == p.(finalPdfS3Path := Some("s3://" + bucket + "/" + key))
      && upload.Some? && upload.value.bucket == bucket && upload.value.key == key
      && upload.value.pdf.path == JoinPath(tmpDir, p.lineItemId.value + ".pdf")
      && upload.value.pdf.title == Get(p.fullBookStructure.value, "title").GetOr(DefaultBookTitle)
      && upload.value.pdf.pages == DocumentAsWritten(book, flow)
  {
    var payload := Unwrap(event);
    if !HasRequiredFields(payload) {
      return Failure(MissingData), None;
    }
    var orderId := payload.orderId.value;
    var lineItemId := payload.lineItemId.value;
    var structure := payload.fullBookStructure.value;
    var localTmpDir := TmpDir(orderId, lineItemId);

    if astrology.Failure? {
      return Failure(astrology.error), None;
    }
    var chapters := AssembleChapters(payload.chaptersData.value, localTmpDir, fetchText, download);
    if chapters.Failure? {
      return Failure(chapters.error), None;
    }
    var bookData := PdfBook(structure, chapters.value);

    var bookTitle := Get(structure, "title").GetOr(DefaultBookTitle);
    var localPdfFilename := lineItemId + ".pdf";
    var saved := SaveBookAsPdf(bookTitle, bookData, localPdfFilename, localTmpDir, flow);
    if saved.Failure? {
      return Failure(saved.error), None;
    }

    var finalPdfS3Key := FinalPdfKey(orderId, lineItemId);
    if uploadError.Some? {
      return Failure(uploadError.value), None;
    }
    upload := Some(Upload(saved.value, bucket, finalPdfS3Key));
    var finalS3Path := "s3://" + bucket + "/" + finalPdfS3Key;
    r := Success(payload.(finalPdfS3Path := Some(finalS3Path)));
  }

  /**
   * A structure without preface, prologue or epilogue, whose chapters all
   * lack a text path, gives an empty contents list: the exporter's first
   * pass finds no content page and the handler raises.
   */
  lemma {:induction false} NothingToRender(structure: map<string, string>)
    requires "preface" !in structure && "prologue" !in structure && "epilogue" !in structure
    ensures TocOf(PdfBook(structure, [])) == []
  {
    TocEmpty(PdfBook(structure, []));
  }
}
