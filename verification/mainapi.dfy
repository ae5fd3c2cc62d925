/**
 * The web API's `/generate-book/` endpoint: request validation, the parsed
 * birth data with its keys renamed, the book writer, and the PDF filename
 * built from a sanitised title and a timestamp.
 *
 * The language model, the astrology service and the PDF writer are inputs;
 * the timestamp is a parameter.
 */
module MainApi {
  import opened Wrappers
  import opened PyStr
  import opened BookWriter

  // ---------------------------------------------------------------------
  // sanitize_filename

  /** The character class the sanitiser deletes. */
  const ForbiddenChars: set<char> := {'\\', '/', '*', '?', ':', '"', '<', '>', '|'}

  const MaxStemLength: nat := 50

  /**
   * Delete the forbidden characters, keep the first 50 of what is left,
   * strip surrounding whitespace, turn spaces into underscores.
   */
  function SanitizeFilename(text: string): (r: string)
    ensures |r| <= MaxStemLength
    ensures forall i :: 0 <= i < |r| ==> r[i] !in ForbiddenChars && r[i] != ' '
    ensures r == [] || (!IsSpace(r[0]) && !IsSpace(r[|r| - 1]))
  {
    var kept := Take(RemoveChars(text, ForbiddenChars), MaxStemLength);
    KeptIsClean(text, kept);
    UnderscoredShape(Strip(kept));
    ReplaceChar(Strip(kept), ' ', '_')
  }

  lemma {:induction false} KeptIsClean(text: string, kept: string)
    requires kept == Take(RemoveChars(text, ForbiddenChars), MaxStemLength)
    ensures forall c :: c in Strip(kept) ==> c !in ForbiddenChars
  {
    var removed := RemoveChars(text, ForbiddenChars);
    forall c | c in Strip(kept)
      ensures c !in ForbiddenChars
    {
      assert c in kept;
      assert c in removed;
    }
  }

  /** Spaces become underscores; the ends stay non-blank and nothing forbidden appears. */
  lemma {:induction false} UnderscoredShape(t: string)
    requires forall c :: c in t ==> c !in ForbiddenChars
    requires t == [] || (!IsSpace(t[0]) && !IsSpace(t[|t| - 1]))
    ensures var r := ReplaceChar(t, ' ', '_');
      && |r| == |t|
      && (forall i :: 0 <= i < |r| ==> r[i] !in ForbiddenChars && r[i] != ' ')
      && (r == [] || (!IsSpace(r[0]) && !IsSpace(r[|r| - 1])))
  {
    var r := ReplaceChar(t, ' ', '_');
    forall i | 0 <= i < |r|
      ensures r[i] !in ForbiddenChars && r[i] != ' '
    {
      assert t[i] in t;
    }
  }

  /** A name that is already clean only has its spaces replaced. */
  lemma {:induction false} SanitizeClean(s: string)
    requires |s| <= MaxStemLength
    requires forall i :: 0 <= i < |s| ==> s[i] !in ForbiddenChars
    requires s == [] || (!IsSpace(s[0]) && !IsSpace(s[|s| - 1]))
    ensures SanitizeFilename(s) == ReplaceChar(s, ' ', '_')
  {
    assert RemoveChars(s, ForbiddenChars) == s;
    assert Take(s, MaxStemLength) == s;
    StripUnchanged(s);
  }

  /** Sanitising a sanitised name changes nothing. */
  lemma {:induction false} SanitizeIdempotent(text: string)
    ensures SanitizeFilename(SanitizeFilename(text)) == SanitizeFilename(text)
  {
    var s := SanitizeFilename(text);
    SanitizeClean(s);
    ReplaceAbsentChar(s, ' ', '_');
  }

  lemma {:induction false} RemoveCharsAppend(p: string, s: string, bad: set<char>)
    ensures RemoveChars(p + s, bad) == RemoveChars(p, bad) + RemoveChars(s, bad)
    decreases |p|
  {
    if p == [] {
      assert p + s == s;
    } else {
      var ps := p + s;
      assert ps[0] == p[0] && ps[1..] == p[1..] + s;
      RemoveCharsAppend(p[1..], s, bad);
      if p[0] in bad {
        assert RemoveChars(ps, bad) == RemoveChars(ps[1..], bad);
      } else {
        assert RemoveChars(ps, bad) == [p[0]] + RemoveChars(ps[1..], bad);
      }
    }
  }

  lemma {:induction false} RemoveCharsAllBad(p: string, bad: set<char>)
    requires forall i :: 0 <= i < |p| ==> p[i] in bad
    ensures RemoveChars(p, bad) == []
    decreases |p|
  {
    if p != [] {
      RemoveCharsAllBad(p[1..], bad);
    }
  }

  /**
   * Removal comes before truncation: any run of forbidden characters in
   * front of a name leaves the result as it is, whatever its length.
   */
  lemma {:induction false} ForbiddenPrefixIgnored(p: string, s: string)
    requires forall i :: 0 <= i < |p| ==> p[i] in ForbiddenChars
    ensures SanitizeFilename(p + s) == SanitizeFilename(s)
  {
    RemoveCharsAppend(p, s, ForbiddenChars);
    RemoveCharsAllBad(p, ForbiddenChars);
    assert RemoveChars(p + s, ForbiddenChars) == RemoveChars(s, ForbiddenChars);
  }

  const BookTitle: string := "The Architecture of You"

  lemma BookTitleIsClean()
    ensures |BookTitle| <= MaxStemLength
    ensures forall i :: 0 <= i < |BookTitle| ==> BookTitle[i] !in ForbiddenChars
    ensures !IsSpace(BookTitle[0]) && !IsSpace(BookTitle[|BookTitle| - 1])
  {
  }

  lemma BookTitleUnderscored()
    ensures ReplaceChar(BookTitle, ' ', '_') == "The_Architecture_of_You"
  {
    var r := ReplaceChar(BookTitle, ' ', '_');
    assert forall i :: 0 <= i < |r| ==> r[i] == "The_Architecture_of_You"[i];
  }

  /** The web app's book title becomes "The_Architecture_of_You". */
  lemma {:induction false} BookTitleStem()
    ensures SanitizeFilename(BookTitle) == "The_Architecture_of_You"
  {
    BookTitleIsClean();
    SanitizeClean(BookTitle);
    BookTitleUnderscored();
  }

  /** `f"{sanitize_filename(book_title)}_{timestamp}.pdf"`. */
  function PdfFilename(title: string, timestamp: string): string {
    SanitizeFilename(title) + "_" + timestamp + ".pdf"
  }

  /** The file the endpoint writes is named after the title and the time. */
  lemma {:induction false} BookFilename(timestamp: string)
    ensures PdfFilename(BookTitle, timestamp) == "The_Architecture_of_You" + "_" + timestamp + ".pdf"
  {
    BookTitleStem();
  }

  // ---------------------------------------------------------------------
  // Request validation

  datatype BookRequest = BookRequest(birthDate: string, birthTime: string, birthLocation: string, targetWordCount: int)

  datatype HttpError = HttpError(status: int, detail: string)

  const EmptyFieldsDetail: string := "Date, time, and location fields cannot be empty."
  const WordCountDetail: string := "Word count must be one of: 15000, 30000, 50000."

  /** The two checks, empty fields first; None when the request is accepted. */
  function ValidateRequest(req: BookRequest): (e: Option<HttpError>)
    ensures e.None? <==>
      req.birthDate != [] && req.birthTime != [] && req.birthLocation != []
      && req.targetWordCount in {15000, 30000, 50000}
    ensures e.Some? ==> e.value.status == 400
    ensures (req.birthDate == [] || req.birthTime == [] || req.birthLocation == []) ==>
      e == Some(HttpError(400, EmptyFieldsDetail))
  {
    if req.birthDate == [] || req.birthTime == [] || req.birthLocation == [] then
      Some(HttpError(400, EmptyFieldsDetail))
    else if req.targetWordCount !in [15000, 30000, 50000] then
      Some(HttpError(400, WordCountDetail))
    else
      None
  }

  /** An accepted request asks for chapters of 3750 or 4166 words. */
  lemma {:induction false} AcceptedChapterLengths(req: BookRequest)
    requires ValidateRequest(req).None?
    ensures WordsPerChapter(req.targetWordCount, NumChapters(req.targetWordCount)) in {3750, 4166}
  {
  }

  function UserPrompt(req: BookRequest): string {
    req.birthDate + " at " + req.birthTime + " in " + req.birthLocation
  }

  // ---------------------------------------------------------------------
  // extract_birth_data_from_prompt

  const OldBirthKeys: set<string> := {"timezone_offset", "longitude", "latitude", "min"}
  const NewBirthKeys: set<string> := {"tzone", "lon", "lat", "minute"}

  const QuotaDetail: string :=
    "OpenAI API quota exceeded. Please check " +
    "your billing details and plan."
  const UnderstandDetail: string :=
    "Could not understand the provided birth " +
    "information. Please try again with a " +
    "clear format like 'Month Day, Year, " +
    "Time, City, State'."

  /** The parser's reply; values of the parsed object are opaque. */
  datatype ParseReply<V> = QuotaExceeded | ParseFailed | Parsed(data: map<string, V>)

  /** The renamed dictionary in closed form; None when a key to rename is missing. */
  function RenamedBirthData<V>(data: map<string, V>): Option<map<string, V>> {
    if OldBirthKeys <= data.Keys then
      Some((data - OldBirthKeys)["tzone" := data["timezone_offset"]]["lon" := data["longitude"]]
                                ["lat" := data["latitude"]]["minute" := data["min"]])
    else
      None
  }

  /** The four successive pops and stores; a missing key is a KeyError (None). */
  method RenameBirthKeys<V>(data: map<string, V>) returns (r: Option<map<string, V>>)
    ensures r == RenamedBirthData(data)
  {
    var d := data;
    if "timezone_offset" !in d { return None; }
    var v := d["timezone_offset"];
    d := d - {"timezone_offset"};
    d := d["tzone" := v];
    if "longitude" !in d { return None; }
    v := d["longitude"];
    d := d - {"longitude"};
    d := d["lon" := v];
    if "latitude" !in d { return None; }
    v := d["latitude"];
    d := d - {"latitude"};
    d := d["lat" := v];
    if "min" !in d { return None; }
    v := d["min"];
    d := d - {"min"};
    d := d["minute" := v];
    assert OldBirthKeys <= data.Keys;
    var m := RenamedBirthData(data).value;
    assert d.Keys == m.Keys;
    assert forall k :: k in d ==> d[k] == m[k];
    assert d == m;
    return Some(d);
  }

  /**
   * Renaming succeeds exactly when the four keys are there; the old names are
   * gone, the new ones carry their values and every other key is untouched.
   */
  lemma {:induction false} RenameProperties<V>(data: map<string, V>)
    ensures RenamedBirthData(data).Some? <==> OldBirthKeys <= data.Keys
    ensures RenamedBirthData(data).Some? ==>
      var m := RenamedBirthData(data).value;
      && m.Keys == (data.Keys - OldBirthKeys) + NewBirthKeys
      && m["tzone"] == data["timezone_offset"] && m["lon"] == data["longitude"]
      && m["lat"] == data["latitude"] && m["minute"] == data["min"]
      && forall k :: k in data && k !in OldBirthKeys && k !in NewBirthKeys ==> m[k] == data[k]
  {
  }

  /** The parse step with its two error texts. */
  method ExtractBirthData<V>(reply: ParseReply<V>) returns (r: Result<map<string, V>, string>)
    ensures reply.QuotaExceeded? ==> r == Failure(QuotaDetail)
    ensures reply.ParseFailed? ==> r == Failure(UnderstandDetail)
    ensures reply.Parsed? ==>
      && (r.Success? <==> OldBirthKeys <= reply.data.Keys)
      && (r.Success? ==> RenamedBirthData(reply.data) == Some(r.value))
      && (r.Failure? ==> r.error == UnderstandDetail)
  {
    match reply
    case QuotaExceeded => return Failure(QuotaDetail);
    case ParseFailed => return Failure(UnderstandDetail);
    case Parsed(data) =>
      var renamed := RenameBirthKeys(data);
      if renamed.None? {
        return Failure(UnderstandDetail);
      }
      return Success(renamed.value);
  }

  // ---------------------------------------------------------------------
  // generate_book

  /** The external calls the endpoint makes, in order. */
  datatype Call<V> = ParsePrompt(prompt: string) | FetchNatalChart(birthData: map<string, V>)
                   | WriteBook(targetWordCount: int) | SavePdf(filename: string)

  datatype BookResponse = BookResponse(title: string, pdfFile: string, preview: string)

  const PdfUrlPrefix: string := "/generated_books/"

  /** The prologue, a blank line, the first 1500 characters of chapter one, "...". */
  function Preview(w: WrittenBook): string
    requires |w.chapters| > 0
  {
    w.prologueText + "\n\n" + Take(w.chapters[0].content, 1500) + "..."
  }

  /**
   * The preview of the book written from these replies, in their terms: the
   * prologue (or its fallback), a blank line, the first 1500 characters of
   * the first planned chapter's stripped text, and "...".
   */
  function BookPreview(replies: Replies, targetWordCount: int): string
    requires replies.architect != []
  {
    var wpc := WordsPerChapter(targetWordCount, NumChapters(targetWordCount));
    PrologueText(replies.prologue) + "\n\n" + Take(Strip(replies.write(replies.architect[0], wpc)), 1500) + "..."
  }

  /**
   * The calls made once the prompt is parsed, in order: the natal chart;
   * the writer when the chart came back; the PDF writer when the book was
   * written.
   */
  function ExportCalls<V>(title: string, birth: map<string, V>, targetWordCount: int,
                          natalChart: map<string, V> -> Result<string, string>,
                          replies: Replies, timestamp: string): seq<Call<V>>
  {
    if natalChart(birth).Failure? then [FetchNatalChart(birth)]
    else if StructureError(replies.architect, NumChapters(targetWordCount)).Some? || !AllTitled(replies.architect)
    then [FetchNatalChart(birth), WriteBook(targetWordCount)]
    else [FetchNatalChart(birth), WriteBook(targetWordCount), SavePdf(PdfFilename(title, timestamp))]
  }

  /**
   * All three steps are called exactly when the chart came back and the
   * writer produced a book; the chart is always fetched first.
   */
  lemma ExportCallsInOrder<V>(title: string, birth: map<string, V>, targetWordCount: int,
                              natalChart: map<string, V> -> Result<string, string>,
                              replies: Replies, timestamp: string)
    ensures var calls := ExportCalls(title, birth, targetWordCount, natalChart, replies, timestamp);
      && 1 <= |calls| <= 3 && calls[0] == FetchNatalChart(birth)
      && (|calls| >= 2 <==> natalChart(birth).Success?)
      && (|calls| >= 2 ==> calls[1] == WriteBook(targetWordCount))
      && (calls == [FetchNatalChart(birth), WriteBook(targetWordCount), SavePdf(PdfFilename(title, timestamp))] <==>
            && natalChart(birth).Success?
            && StructureError(replies.architect, NumChapters(targetWordCount)).None?
            && AllTitled(replies.architect))
  {
  }

  /**
   * The steps after the prompt is parsed: the natal chart, the writer and
   * the PDF. `calls` are the calls these steps make, in order; a failure
   * carries the exception's message.
   */
  method WriteAndExport<V>(title: string, birth: map<string, V>, targetWordCount: int,
                           natalChart: map<string, V> -> Result<string, string>,
                           replies: Replies, timestamp: string, pdfError: Option<string>)
    returns (r: Result<BookResponse, string>, calls: seq<Call<V>>)
    ensures calls == ExportCalls(title, birth, targetWordCount, natalChart, replies, timestamp)
    ensures r.Success? <==>
      && natalChart(birth).Success?
      && StructureError(replies.architect, NumChapters(targetWordCount)).None?
      && AllTitled(replies.architect)
      && pdfError.None?
    ensures r.Success? ==>
      && r.value.title == title
      && r.value.pdfFile == PdfUrlPrefix + PdfFilename(title, timestamp)
      && r.value.preview == BookPreview(replies, targetWordCount)
  {
    var written;
    written, calls := ChartAndBook(birth, targetWordCount, natalChart, replies);
    if written.Failure? {
      return Failure(written.error), calls;
    }
    calls := calls + [SavePdf(PdfFilename(title, timestamp))];
    r := SaveAndRespond(title, written.value, timestamp, pdfError);
  }

  /**
   * The natal chart from the birth data, then the book from the chart. A
   * failure is the exception of the first step that raised.
   */
  method ChartAndBook<V>(birth: map<string, V>, targetWordCount: int,
                         natalChart: map<string, V> -> Result<string, string>, replies: Replies)
    returns (r: Result<WrittenBook, string>, calls: seq<Call<V>>)
    ensures natalChart(birth).Failure? ==> r == Failure(natalChart(birth).error) && calls == [FetchNatalChart(birth)]
    ensures natalChart(birth).Success? ==> calls == [FetchNatalChart(birth), WriteBook(targetWordCount)]
    ensures r.Success? <==>
      && natalChart(birth).Success?
      && StructureError(replies.architect, NumChapters(targetWordCount)).None?
      && AllTitled(replies.architect)
    ensures r.Success? ==>
      && |r.value.chapters| == NumChapters(targetWordCount) > 0
      && Preview(r.value) == BookPreview(replies, targetWordCount)
  {
    calls := [FetchNatalChart(birth)];
    var chart := natalChart(birth);
    if chart.Failure? {
      return Failure(chart.error), calls;
    }
    calls := calls + [WriteBook(targetWordCount)];
    r := GenerateAstrologyBook(chart.value, targetWordCount, replies);
  }

  /**
   * The PDF under a timestamped name, then the response: the title, the
   * file's URL and the preview. A failure is the PDF writer's exception.
   */
  method SaveAndRespond(title: string, written: WrittenBook, timestamp: string, pdfError: Option<string>)
    returns (r: Result<BookResponse, string>)
    requires |written.chapters| > 0
    ensures pdfError.Some? ==> r == Failure(pdfError.value)
    ensures pdfError.None? ==>
      && r.Success?
      && r.value.title == title
      && r.value.pdfFile == PdfUrlPrefix + PdfFilename(title, timestamp)
      && r.value.preview == Preview(written)
  {
    var filename := PdfFilename(title, timestamp);
    if pdfError.Some? {
      return Failure(pdfError.value);
    }
    r := Success(BookResponse(title, PdfUrlPrefix + filename, Preview(written)));
  }

  /**
   * The endpoint. `natalChart` is the astrology service, `replies` the book
   * writer's model calls, and `pdfError` the PDF writer's exception (None
   * when it wrote the file). Exceptions after validation become status 500
   * with their message.
   */
  method GenerateBook<V>(req: BookRequest, parse: ParseReply<V>, natalChart: map<string, V> -> Result<string, string>,
                         replies: Replies, timestamp: string, pdfError: Option<string>)
    returns (r: Result<BookResponse, HttpError>, calls: seq<Call<V>>)
    ensures ValidateRequest(req).Some? ==> r == Failure(ValidateRequest(req).value) && calls == []
    ensures ValidateRequest(req).None? ==>
      && calls == [ParsePrompt(UserPrompt(req))]
           + (if parse.Parsed? && OldBirthKeys <= parse.data.Keys
              then ExportCalls(BookTitle, RenamedBirthData(parse.data).value, req.targetWordCount, natalChart, replies, timestamp)
              else [])
      && (r.Failure? ==> r.error.status == 500)
    ensures r.Success? <==>
      && ValidateRequest(req).None?
      && parse.Parsed? && OldBirthKeys <= parse.data.Keys
      && natalChart(RenamedBirthData(parse.data).value).Success?
      && StructureError(replies.architect, NumChapters(req.targetWordCount)).None?
      && AllTitled(replies.architect)
      && pdfError.None?
    ensures r.Success? ==>
      && r.value.title == BookTitle
      && r.value.pdfFile == PdfUrlPrefix + PdfFilename(BookTitle, timestamp)
      && r.value.preview == BookPreview(replies, req.targetWordCount)
  {
    var invalid := ValidateRequest(req);
    if invalid.Some? {
      return Failure(invalid.value), [];
    }
    var prompt := UserPrompt(req);
    calls := [ParsePrompt(prompt)];
    var birth := ExtractBirthData(parse);
    if birth.Failure? {
      return Failure(HttpError(500, birth.error)), calls;
    }
    var rest, restCalls := WriteAndExport(BookTitle, birth.value, req.targetWordCount, natalChart, replies, timestamp, pdfError);
    calls := calls + restCalls;
    if rest.Failure? {
      return Failure(HttpError(500, rest.error)), calls;
    }
    r := Success(rest.value);
  }
}
