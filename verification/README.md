# The Architecture of You: a Dafny model of the book pipeline

This project models the core of a service that writes a personalised
astrology book and prints it. It covers these parts:

- **The PDF exporter** (`save_book_as_pdf`).
  - It builds the table of contents from the book's sections.
  - It lays the pages out in the HTML template's order.
  - It renders a draft and finds the first page that carries a section anchor.
  - It numbers every section from that page: the *page map*.
  - It renders again with the numbers filled into the contents page.
- **The web API** (`/generate-book/`).
  - It validates the request.
  - It asks a language model to parse the birth details, and renames four keys of the reply.
  - It fetches the natal chart and has the book written.
  - It names the PDF after the sanitised title and a timestamp.
- **The book writer** (`generate_astrology_book`).
  - It picks 4, 8 or 12 chapters from the requested length.
  - It checks the architect model's chapter list.
  - It writes, summarises and illustrates each chapter.
  - It adds the fixed preface and epilogue and a generated or fallback prologue.
- **Three AWS Lambda handlers.**
  - Order ingestion turns a Shopify order into a list of books.
  - PDF generation downloads the chapters and renders and uploads one book.
  - Lulu notification builds one print job for an order.

The page renderer is modelled by a `Layout.Flow` value. It says how many
overflow pages each text section takes. The two render passes use the same
`Flow`. The rest of the page order is the template's, page by page. Every
external service becomes an input of the operation that calls it:
the language models, S3, DynamoDB, SQS, Secrets Manager, the astrology API
and Lulu. A service either answers with a value or fails.

Modules:

- `Wrappers`: `Option` and `Result`.
- `PyStr`: the Python string operations the code relies on.
- `Toc`: the table of contents.
- `Layout`: the template's page order.
- `PageMap`: the first-pass search and numbering.
- `Exporter`: both passes together.
- `BookWriter`, `MainApi`, `OrderIngestion`, `GeneratePdf`, `NotifyLulu`: the callers.

Where the system's documentation and its code differ, the model follows the
code:

- A ToC entry missing from a non-empty page map prints `None` on the contents
  page, not a blank (`Exporter.PageNumberCell`).
- A book with no preface, prologue, chapter or epilogue raises the
  "could not find the start of the main content" error.
- Both render passes use the template as written, so the two debug pages
  are rendered (see "Findings"). `Exporter.DebugPagesDoNotMoveNumbers`
  shows that the page numbers are the same as without them.

Two specification functions describe the API's outcome in terms of its
inputs. `MainApi.ExportCalls` lists the external calls made after the
prompt is parsed, for each way those steps can end. `MainApi.BookPreview`
is the response's preview written from the model replies: the prologue
(or its fallback), a blank line, the first 1500 characters of the first
planned chapter's text, and `...`.

## Model

| member | source | states |
|---|---|---|
| Toc.BuildToc | src/generate_pdf/book_pdf_exporter.py:18-28 | the list built step by step is `TocOf(book)`; its length is the optional front entries plus one per chapter plus the epilogue; chapter i's entry is its heading with href `#chapter-{i+1}` |
| Toc.OptionalEntries | src/generate_pdf/book_pdf_exporter.py:19-28 | the preface, prologue and epilogue each have an entry exactly when their text is truthy; without a custom title, the prologue and epilogue are titled "Prologue" and "Epilogue" |
| Toc.EntryHref | src/generate_pdf/book_pdf_exporter.py:18-28 | the entry at every index, by the region it falls in (preface, prologue, chapter i - front, epilogue) |
| Toc.TocShape | src/generate_pdf/book_pdf_exporter.py:18-28 | the exact length; the preface comes first, the prologue just before chapter 1, the chapters in order, the epilogue last |
| Toc.NamedHrefs | src/generate_pdf/book_pdf_exporter.py:19-28 | the named sections link to `#preface`, `#prologue` and `#epilogue` |
| Toc.HrefSpelling | src/generate_pdf/book_pdf_exporter.py:24-25 | chapter n links to `#chapter-` followed by n in decimal |
| Toc.ChapterIdsDistinct | src/generate_pdf/book_pdf_exporter.py:25 | different chapter numbers give different anchor ids |
| Toc.TocIdsShape | src/generate_pdf/book_pdf_exporter.py:18-28 | the anchor ids of the ToC, in order, as an explicit sequence |
| Toc.TocHrefsDistinct | src/generate_pdf/book_pdf_exporter.py:18-28 | no two ToC entries share an href |
| Toc.TargetAnchorsAreIds | src/generate_pdf/book_pdf_exporter.py:153 | the set `target_anchors` (each href without its '#') is the set of the ToC's ids |
| Toc.TocHrefsAreIds | src/generate_pdf/book_pdf_exporter.py:153 | every href is '#' followed by its id |
| Toc.TocEmpty | src/generate_pdf/book_pdf_exporter.py:18-28 | the ToC is empty exactly when there is no preface, no prologue, no chapter and no epilogue |
| Toc.FirstEntryIsChapterOne | src/generate_pdf/book_pdf_exporter.py:18-28 | without a preface or prologue, the first entry links `#chapter-1` |
| PyStr.IntText | src/generate_pdf/book_pdf_exporter.py:51 | the decimal text of an integer is non-empty and starts with '-' exactly for negatives |
| PyStr.DecimalInjective | src/generate_pdf/book_pdf_exporter.py:25 | different naturals have different decimal texts |
| PyStr.IntTextInjective | src/order_ingestion/app.py:93 | different integers have different decimal texts |
| PyStr.JoinSplitParagraphs | src/generate_pdf/book_pdf_exporter.py:59-77 | joining the pieces of `split('\n\n')` with "\n\n" gives back the text |
| PyStr.SplitPiecesHaveNoBreak | src/generate_pdf/book_pdf_exporter.py:73 | no piece of the split contains "\n\n" |
| PyStr.FirstPieceIsPrefix | src/generate_pdf/book_pdf_exporter.py:73 | the first piece of the split is a prefix of the text |
| PyStr.Take | app/book_writer.py:65 | `s[:n]` has length min(|s|, n) and is a prefix of `s` |
| PyStr.Strip | app/main.py:45 | the stripped text is no longer than the input, begins and ends with a non-space, and takes its characters from the input |
| PyStr.RemoveChars | app/main.py:44 | the result contains no removed character, only characters of the input, and is the input when it has none to remove |
| PyStr.ReplaceChar | app/main.py:45 | same length; every `from` character becomes `to`, the rest is unchanged |
| PyStr.JoinPath | src/generate_pdf/book_pdf_exporter.py:15 | an absolute name replaces the directory; otherwise the path ends with the name |
| Layout.BlockPages | src/generate_pdf/book_pdf_exporter.py:59-77 | a section takes its lead pages, one anchored content page, its overflow pages and its trailing pages; only the anchored page carries the section's id |
| Layout.BodyIdsAreTocIds | src/generate_pdf/book_pdf_exporter.py:59-77 | the body's section ids, in page order, are the ToC's ids in ToC order |
| Layout.BodyIdsDistinct | src/generate_pdf/book_pdf_exporter.py:59-77 | no id is emitted by two body sections |
| Layout.TargetsAreBlockIds | src/generate_pdf/book_pdf_exporter.py:59-77 | the target anchors are exactly the ids of the body's sections |
| Layout.EmittedIdsAreTargets | src/generate_pdf/book_pdf_exporter.py:38-77 | the ids the whole document emits are exactly the target anchors, with or without the debug pages |
| Layout.ParagraphsRejoin | src/generate_pdf/book_pdf_exporter.py:59-77 | body section j holds at least one paragraph; its paragraphs are the split of that section's own text (preface, prologue, chapter content or epilogue, in order) and rejoin to it |
| Layout.RenderAnchorPage | src/generate_pdf/book_pdf_exporter.py:59-77 | section j's anchor sits on a content page of the rendered body that carries that id alone |
| Layout.RenderBefore | src/generate_pdf/book_pdf_exporter.py:59-77 | no page before section j's anchor page carries its id |
| Layout.AnchorIndexIncreasing | src/generate_pdf/book_pdf_exporter.py:59-77 | later sections have their anchor on later pages |
| Layout.DebugPagesLeadTheDocument | src/generate_pdf/book_pdf_exporter.py:38-40 | as written, the document opens with a debug page and is 2 + overflow pages longer; without them it opens with the two blank pages |
| PageMap.FindFirstContentPage | src/generate_pdf/book_pdf_exporter.py:152-158 | the result is the first page carrying a target anchor; it is -1 exactly when no page carries one |
| PageMap.BuildPageMap | src/generate_pdf/book_pdf_exporter.py:163-170 | the loop builds `PageMapUpTo` over every page |
| PageMap.PageMapKeys | src/generate_pdf/book_pdf_exporter.py:163-170 | every key is '#' + a target seen on a page from the first content page on, numbered 1..p - first |
| PageMap.PageMapFirstOccurrence | src/generate_pdf/book_pdf_exporter.py:163-170 | a target first seen on page q gets number q - first + 1; later pages do not overwrite it |
| PageMap.ResolvePageMap | src/generate_pdf/book_pdf_exporter.py:152-170 | pass 1 fails with the "could not find the start" message exactly when no page carries a target |
| PageMap.ResolveProperties | src/generate_pdf/book_pdf_exporter.py:152-170 | on success: the first hit is the first page with a target; keys are '#' + target, numbered 1..pages - first; every target on the first content page gets 1; a target first seen on page q gets q - first + 1 |
| PageMap.ResolveNoTargets | src/generate_pdf/book_pdf_exporter.py:153-161 | an empty target set always fails |
| PageMap.ResolveFromAnchorPages | src/generate_pdf/book_pdf_exporter.py:152-170 | when each id first appears on a known page, the map has exactly their hrefs, numbered from the earliest of those pages |
| Exporter.SaveBookAsPdf | src/generate_pdf/book_pdf_exporter.py:8-180 | fails exactly when the ToC is empty; otherwise writes `os.path.join(output_dir, filename)`, renders the template's pages as written, debug pages included, and prints each ToC line with its section's page number in the body |
| Exporter.AnchorPages | src/generate_pdf/book_pdf_exporter.py:154-158 | the page of each section's anchor is the offset plus its index in the body |
| Exporter.DraftPageMapShape | src/generate_pdf/book_pdf_exporter.py:146-170 | the draft map fails exactly for an empty ToC; its keys are the ToC hrefs, each numbered with its section's body page |
| Exporter.DraftNumbers | src/generate_pdf/book_pdf_exporter.py:146-170 | for a non-empty ToC, pass 1 succeeds with one number per entry, its section's body page |
| Exporter.DraftPageMapCoversToc | src/generate_pdf/book_pdf_exporter.py:152-170 | pass 1 fails exactly when the book has no preface, prologue, chapter or epilogue; otherwise every ToC href and nothing else is numbered |
| Exporter.SectionNumbersIncrease | src/generate_pdf/book_pdf_exporter.py:163-170 | body section numbers start at 1, strictly increase, and stay within the body |
| Exporter.DraftPageMapIncreasing | src/generate_pdf/book_pdf_exporter.py:163-170 | the first entry is page 1, later entries have strictly larger numbers, and each is within the body's pages |
| Exporter.FirstChapterIsPageOne | src/generate_pdf/book_pdf_exporter.py:163-170 | without a preface or prologue, `#chapter-1` is page 1 |
| Exporter.ChapterImageShift | src/generate_pdf/book_pdf_exporter.py:68-71 | illustrating one chapter moves that chapter and every later entry one page on, and nothing else |
| Exporter.DraftContentsHaveNoNumbers | src/generate_pdf/book_pdf_exporter.py:50-52 | with no page map, or an empty one, every contents line has a blank number |
| Exporter.FrontDoesNotMatter | src/generate_pdf/book_pdf_exporter.py:38-56 | the numbers do not depend on which pages precede the body |
| Exporter.DebugPagesDoNotMoveNumbers | src/generate_pdf/book_pdf_exporter.py:38-39 | the page map computed on the document as written equals the one without the debug pages |
| Exporter.TocTargetsAreBodyIds | src/generate_pdf/book_pdf_exporter.py:153 | the target anchors are the set of the body's section ids |
| BookWriter.NumChapters | app/book_writer.py:88-93 | the chapter count is always 4, 8 or 12 |
| BookWriter.NumChaptersMonotone | app/book_writer.py:88-93 | a longer book never gets fewer chapters |
| BookWriter.AllowedLengths | app/book_writer.py:88-93 | 15000, 30000 and 50000 words give 4, 8 and 12 chapters |
| BookWriter.WordsPerChapter | app/book_writer.py:116 | `int(t / n)` truncates toward zero: w ≥ 0 and w·n ≤ t < w·n + n for t ≥ 0; w ≤ 0 and w·n − n < t ≤ w·n for t < 0 |
| BookWriter.StructureError | app/book_writer.py:108-109 | the structure passes exactly when it is non-empty and has exactly the wanted count; otherwise the message names both counts |
| BookWriter.Summary | app/book_writer.py:56-65 | when the summariser fails, the summary is the first 300 characters and "..." |
| BookWriter.WrittenChapter | app/book_writer.py:120-130 | a chapter's heading is its theme title and its content the stripped reply |
| BookWriter.WrittenChapterAt | app/book_writer.py:118-130 | record i of the first n is the record written for architect chapter i |
| BookWriter.AssembleChapters | app/book_writer.py:118-130 | the loop builds `WrittenChapters`, one record per architect chapter, in order |
| BookWriter.ChaptersFollowArchitect | app/book_writer.py:118-130 | same length and order as the architect's list; heading, stripped text and the image made from the summary |
| BookWriter.PrologueText | app/book_writer.py:139-146 | when the prologue call fails, the prologue is the fixed fallback |
| BookWriter.GenerateAstrologyBook | app/book_writer.py:79-157 | a bad structure raises with both counts; a missing theme title raises KeyError; success exactly otherwise, with chapter i written from planned chapter i, the chart JSON, the fixed preface and epilogue and the prologue |
| BookWriter.AsBookData | app/book_writer.py:150-157 | the exporter reads the preface, prologue and epilogue texts as present, no custom titles, no cover image, and the same chapters |
| BookWriter.FixedTextsNonEmpty | app/book_writer.py:135-148 | the fixed preface, the fallback prologue and the epilogue are non-empty |
| BookWriter.WrittenBookHasContents | app/book_writer.py:135-157 | a written book's ToC is never empty and starts with the Preface, so the exporter's pass 1 always finds a content page |
| MainApi.SanitizeFilename | app/main.py:42-45 | the stem has at most 50 characters, none of `\/*?:"<>|` and no space, and does not begin or end with whitespace |
| MainApi.SanitizeClean | app/main.py:44-45 | a stem that is already clean only has its spaces turned into underscores |
| MainApi.SanitizeIdempotent | app/main.py:42-45 | sanitising twice is sanitising once |
| MainApi.RemoveCharsAppend | app/main.py:44 | removing characters distributes over concatenation |
| MainApi.ForbiddenPrefixIgnored | app/main.py:44-45 | a prefix made only of forbidden characters does not change the stem |
| MainApi.BookTitleStem | app/main.py:105-116 | the book's title sanitises to `The_Architecture_of_You` |
| MainApi.BookFilename | app/main.py:115-116 | the PDF is named `The_Architecture_of_You_<timestamp>.pdf` |
| MainApi.ValidateRequest | app/main.py:90-97 | a request passes exactly when date, time and location are non-empty and the count is 15000, 30000 or 50000; errors are 400, and the empty-field error comes first |
| MainApi.AcceptedChapterLengths | app/main.py:96-97 | every accepted request asks 3750 or 4166 words per chapter |
| MainApi.RenameBirthKeys | app/main.py:66-70 | the four pops and stores give `RenamedBirthData`; a missing key is a KeyError |
| MainApi.RenameProperties | app/main.py:66-70 | renaming succeeds exactly when the four old keys are present; the new keys carry their values and every other key is kept |
| MainApi.ExtractBirthData | app/main.py:55-78 | a quota error and any other failure give their fixed messages; a parsed reply succeeds exactly when the four keys are present, with the renamed data |
| MainApi.ChartAndBook | app/main.py:102-112 | the chart is fetched first; a chart failure stops before the writer; success exactly when the chart and the writer succeed, with the wanted number of chapters and the preview BookPreview gives for the replies |
| MainApi.SaveAndRespond | app/main.py:115-134 | a PDF writer failure is passed on; otherwise the response has the title, `/generated_books/` + the file name, and the preview |
| MainApi.WriteAndExport | app/main.py:102-134 | the calls are exactly ExportCalls on every path; success exactly when the chart, the structure check, the theme titles and the PDF all succeed, with the title, the file URL and the preview of the prologue and the first chapter |
| MainApi.ExportCallsInOrder | app/main.py:103-124 | the chart is always fetched first; the writer is called exactly when the chart came back; the chart, writer and PDF calls all happen exactly when the chart and the writer succeed |
| MainApi.GenerateBook | app/main.py:85-140 | an invalid request is a 400 before any call; otherwise the calls are the prompt parse followed, once the birth data is usable, by ExportCalls on the renamed birth data, and failures are 500; success exactly when every step succeeds, with the title, `/generated_books/` + file name, and the preview |
| OrderIngestion.FoldProperties | src/order_ingestion/app.py:107-109 | the loop builds `PropsDict`, failing on a property without a name or value |
| OrderIngestion.PropsKeys | src/order_ingestion/app.py:107-109 | the dictionary's keys are exactly the property names |
| OrderIngestion.PropsLastWins | src/order_ingestion/app.py:107-109 | a name's value is that of its last property |
| OrderIngestion.ProcessLineItem | src/order_ingestion/app.py:103-129 | one loop iteration yields `ItemBooks`: a failure for a malformed property or a failed parse, nothing for an item that is not a book, else its one book |
| OrderIngestion.CollectBooks | src/order_ingestion/app.py:98-130 | the loop builds `BooksUpTo`, failing as soon as one item fails |
| OrderIngestion.BooksFollowLineItems | src/order_ingestion/app.py:102-130 | one book per selected line item, in order, with its id text, its Custom Text as cover title and the birth data parsed from its Delivery Date and Address |
| OrderIngestion.SelectedItemsAreBooks | src/order_ingestion/app.py:111-118 | only items whose three properties are all truthy are selected |
| OrderIngestion.BookItemsAreSelected | src/order_ingestion/app.py:111-118 | every item whose three properties are all truthy is selected |
| OrderIngestion.HandleOrder | src/order_ingestion/app.py:92-177 | a missing id raises; a parse failure is 500 with no writes; no books is 200 with no writes; "OK" exactly when every service succeeds, after the raw payload, the order record (status "received", book count) and the queue message, in that order |
| OrderIngestion.OrderIdsDistinct | src/order_ingestion/app.py:93 | order ids start with `shpfy_`, and different Shopify ids give different order ids |
| GeneratePdf.Unwrap | src/generate_pdf/app.py:20-23 | the payload is `event['Payload']` when that is a dictionary, else the event |
| GeneratePdf.ImagePath | src/generate_pdf/app.py:67-81 | a chapter has an image exactly when its URL is truthy and the download succeeds, at `chapter_{idx}_image.png` in the order's directory |
| GeneratePdf.AssembleChapters | src/generate_pdf/app.py:56-87 | the loop builds `ChaptersUpTo`, failing when a text fetch fails |
| GeneratePdf.KeptPositions | src/generate_pdf/app.py:56-60 | the kept 1-based positions are increasing, each has a chapter text path, and every position with a text path is kept |
| GeneratePdf.ChaptersFollowInput | src/generate_pdf/app.py:56-87 | one chapter per kept input, in order, with its heading (or `Chapter {idx}`), the text fetched from its own path (`""` when the object is missing) and its image by its original position |
| GeneratePdf.HandlePdf | src/generate_pdf/app.py:17-115 | missing data raises before any work; success exactly when the astrology JSON, every chapter text, the exporter and the upload succeed; then the payload gets `s3://bucket/final-pdfs/<order>/<item>.pdf` and the uploaded PDF has the book's path, title and the template's pages as written |
| GeneratePdf.NothingToRender | src/generate_pdf/app.py:44-51 | a structure without preface, prologue or epilogue and no chapters renders no ToC |
| NotifyLulu.Printable | src/notify_lulu/app.py:58-65 | the books kept all have a PDF path and come from the input, and every input book with a PDF path is kept |
| NotifyLulu.BuildLineItems | src/notify_lulu/app.py:57-76 | the loop builds one line item per book with a PDF path, in order |
| NotifyLulu.LineItemsShape | src/notify_lulu/app.py:57-76 | every item prints one copy of the book's PDF with the package id, the line item id (or order id) and the cover title (or "A Personal Portrait") |
| NotifyLulu.PrintableCount | src/notify_lulu/app.py:60-65 | all books are kept when all have a PDF path, none when none do |
| NotifyLulu.LuluAddress | src/notify_lulu/app.py:87-95 | the name is first name, space, last name, with '' for a missing part |
| NotifyLulu.HandleNotify | src/notify_lulu/app.py:42-117 | missing credentials raise before any call; the token is requested first; no printable book raises after that one call; success exactly when all steps succeed, after a print job with the order id, the items, 1440 minutes' delay, "MAIL" and the address |

## Left out

- Rendering itself is not modelled: WeasyPrint, CSS, fonts, HTML escaping and the footer's CSS page counter. The renderer is the `Flow` value, and both passes are assumed to paginate the same way.
- A page map whose numbers change the contents page's length (a reflow in pass 2) is not modelled, for the same reason.
- `datetime.now()` is not modelled. The print date, the ISO timestamp and the file-name timestamp are parameters.
- The printed logs are not modelled.
- External services are inputs, not calls: the language models, the astrology API, S3, DynamoDB, SQS, Secrets Manager, HTTP downloads and Lulu.
- `asyncio`, `run_in_threadpool` and `asyncio.sleep` are not modelled. The writer's steps run in order.
- The Shopify HMAC check is commented out in the handler, and `verify_shopify_webhook` is not modelled.
- Prompt texts (`build_*_prompt`) are not modelled. They only reach the language models.
- `parse_s3_path` is not modelled. A path is fetched through the `fetchText` input.
- `json.dumps` of the chart is not modelled. Its text is a parameter.
- The floating-point values (latitude, longitude, time zone) are opaque.
- BookWriter.WordsPerChapter: Python divides as a float before `int(...)`. The model uses exact truncation, which agrees for every length the API accepts.
- Caching of secrets and clients at module level is not modelled.
- A key that is present with a JSON `null` value is modelled as a missing key. Where the code passes a `.get` default, the model then uses the default, although Python would return `None`.
- app/book_pdf_exporter.py is not part of this model. In `MainApi.GenerateBook`, the PDF step's outcome is the input `pdfError`.
- BookWriter.AsBookData: the API hands the book to app/book_pdf_exporter.py, which is not part of this model. The conversion assumes that exporter reads the dictionary as src/generate_pdf/book_pdf_exporter.py does.
- BookWriter.WrittenBookHasContents: this applies the ToC of src/generate_pdf/book_pdf_exporter.py. It assumes app/book_pdf_exporter.py builds the same ToC.
- NotifyLulu.HandleNotify: a `KeyError` for `order_id`, `shipping_address` or `processed_books_results` happens before the `try`. It is not modelled; those fields are parameters.
- GeneratePdf.HandlePdf: the upload's HTTP content type is not modelled.
- BookWriter.GenerateAstrologyBook: an exception from a chapter-writing call is not modelled. The writer reply is a total function.
- BookWriter.GenerateAstrologyBook: an exception from the architect call or its JSON is not modelled either. The architect reply is the chapter list.
- NotifyLulu.HandleNotify: the type of Lulu's job id is not modelled. It is an optional string.

## Findings

| source | as written | input that shows it | evidently intended | confidence | as-written member | corrected member |
|---|---|---|---|---|---|---|
| src/generate_pdf/book_pdf_exporter.py:38-39 | the two debug pages are commented out with `#`, which is HTML text, not a Jinja comment, so both pages are still rendered | any book: the document opens with the data-source page and the JSON page | the book opens with the two blank pages; the page numbers are unaffected either way | not executed | Layout.DebugPagesLeadTheDocument | Exporter.DebugPagesDoNotMoveNumbers |
