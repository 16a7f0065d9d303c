/**
 * The ingestion side of `RAGEngine` (Backend/app/core/rag_engine.py): locating the
 * Tesseract and Poppler installations, the OCR fallback, the `process_pdf` guards
 * and the retriever settings. The PDF loader, the rasteriser, Tesseract, the text
 * splitter and the Chroma store are parameters (oracles); nothing is assumed about
 * what they compute.
 */
module RagEngine {
  import opened Wrappers
  import opened Text
  import opened Seqs

  /** A rendered page image, as raster bytes. */
  type Image = seq<bv8>

  /** The metadata keys the engine reads or writes: `page`, `source`, `extraction`. */
  datatype Metadata = Metadata(page: Option<int>, source: string, extraction: Option<string>)

  /** A LangChain `Document`: page text plus metadata. */
  datatype Document = Document(pageContent: string, metadata: Metadata)

  const PERSIST_DIRECTORY := "./chroma_db"
  const OCR_UNAVAILABLE := "OCR libraries not installed. Please install pdf2image and pytesseract."
  const NO_TEXT := "Could not extract any text from PDF (tried both regular extraction and OCR)"
  const NO_CHUNKS := "Could not extract any text chunks from the PDF"

  function OcrFailed(e: string): string {
    "OCR extraction failed: " + e + ". Make sure Tesseract OCR and Poppler are installed."
  }

  function NoTextAndOcrFailed(e: string): string {
    "PDF has no extractable text and OCR failed: " + e
  }

  function Processed(n: nat): string {
    "Successfully processed " + NatToString(n) + " text chunks"
  }

  /**
   * The OCR collaborators: whether `pdf2image`/`pytesseract` imported (`OCR_AVAILABLE`),
   * the `LOCALAPPDATA` variable (empty when unset), `os.path.exists`,
   * `convert_from_path(file, dpi=300[, poppler_path])` and `pytesseract.image_to_string`
   * run with the configured Tesseract command (None: pytesseract's default).
   */
  datatype OcrToolkit = OcrToolkit(
    available: bool,
    localAppData: string,
    pathExists: string -> bool,
    rasterise: (string, Option<string>) -> Result<seq<Image>, string>,
    recognise: (Option<string>, Image) -> Result<string, string>)

  /** What `RAGEngine()` leaves behind: the Chroma directory and the Tesseract command it set, if any. */
  datatype Engine = Engine(persistDirectory: string, tesseractCmd: Option<string>)

  // ---------------------------------------------------------------- tool paths

  /** The Tesseract install locations tried, in order; `username` is `USERNAME` (empty when unset). */
  function TesseractCandidates(username: string): seq<string> {
    [ "C:\\Program Files\\Tesseract-OCR\\tesseract.exe",
      "C:\\Program Files (x86)\\Tesseract-OCR\\tesseract.exe",
      "C:\\Users\\" + username + "\\AppData\\Local\\Tesseract-OCR\\tesseract.exe" ]
  }

  /**
   * Windows `os.path.join(base, rest)` for a relative `rest`: no separator is added
   * after an empty base, a base ending in a separator, or a bare drive such as "C:".
   */
  function JoinPath(base: string, rest: string): string {
    if base == "" then rest
    else if EndsWith(base, "\\") || EndsWith(base, "/") then base + rest
    else if |base| == 2 && base[1] == ':' then base + rest
    else base + "\\" + rest
  }

  /** The Poppler `bin` directories tried, in order. */
  function PopplerCandidates(localAppData: string): seq<string> {
    [ JoinPath(localAppData, "poppler\\poppler-24.08.0\\Library\\bin"),
      JoinPath(localAppData, "poppler\\Library\\bin"),
      "C:\\Program Files\\poppler\\Library\\bin",
      "C:\\Program Files\\poppler-24.08.0\\Library\\bin" ]
  }

  /** The first candidate that exists, if any. */
  function FirstExisting(candidates: seq<string>, pathExists: string -> bool): Option<string>
    decreases |candidates|
  {
    if candidates == [] then None
    else if pathExists(candidates[0]) then Some(candidates[0])
    else FirstExisting(candidates[1..], pathExists)
  }

  /** `FirstExisting` picks the earliest existing candidate, and finds none only when none exists. */
  lemma {:induction false} FirstExistingIsFirst(candidates: seq<string>, pathExists: string -> bool)
    ensures FirstExisting(candidates, pathExists).None? <==>
              forall i :: 0 <= i < |candidates| ==> !pathExists(candidates[i])
    ensures FirstExisting(candidates, pathExists).Some? ==>
              exists k :: 0 <= k < |candidates| && candidates[k] == FirstExisting(candidates, pathExists).value
                          && pathExists(candidates[k])
                          && forall j :: 0 <= j < k ==> !pathExists(candidates[j])
    decreases |candidates|
  {
    if candidates != [] && !pathExists(candidates[0]) {
      var rest := candidates[1..];
      FirstExistingIsFirst(rest, pathExists);
      if FirstExisting(rest, pathExists).Some? {
        var k :| 0 <= k < |rest| && rest[k] == FirstExisting(rest, pathExists).value && pathExists(rest[k])
                 && forall j :: 0 <= j < k ==> !pathExists(rest[j]);
        assert candidates[k + 1] == rest[k];
        assert forall j :: 0 <= j < k + 1 ==> !pathExists(candidates[j]) by {
          forall j | 0 <= j < k + 1 ensures !pathExists(candidates[j]) {
            if j > 0 { assert candidates[j] == rest[j - 1]; }
          }
        }
      } else {
        assert forall i :: 0 <= i < |candidates| ==> !pathExists(candidates[i]) by {
          forall i | 0 <= i < |candidates| ensures !pathExists(candidates[i]) {
            if i > 0 { assert candidates[i] == rest[i - 1]; }
          }
        }
      }
    } else if candidates != [] {
      assert pathExists(candidates[0]);
    }
  }

  /** The `for path in ...: if os.path.exists(path): ...; break` search. */
  method SearchPaths(candidates: seq<string>, pathExists: string -> bool) returns (found: Option<string>)
    ensures found == FirstExisting(candidates, pathExists)
  {
    found := None;
    var i := 0;
    while i < |candidates|
      invariant 0 <= i <= |candidates|
      invariant FirstExisting(candidates, pathExists) == FirstExisting(candidates[i..], pathExists)
    {
      if pathExists(candidates[i]) {
        found := Some(candidates[i]);
        break;
      }
      assert candidates[i..][1..] == candidates[i + 1..];
      i := i + 1;
    }
  }

  /** `RAGEngine.__init__`: the Tesseract search runs only when the OCR libraries imported. */
  method NewEngine(ocrAvailable: bool, username: string, pathExists: string -> bool) returns (e: Engine)
    ensures e.persistDirectory == PERSIST_DIRECTORY
    ensures !ocrAvailable ==> e.tesseractCmd == None
    ensures ocrAvailable ==> e.tesseractCmd == FirstExisting(TesseractCandidates(username), pathExists)
  {
    var cmd := None;
    if ocrAvailable {
      cmd := SearchPaths(TesseractCandidates(username), pathExists);
    }
    e := Engine(PERSIST_DIRECTORY, cmd);
  }

  // ---------------------------------------------------------------- OCR

  /** Tesseract run over the images in order; the first failure ends the run. */
  function Recognised(engine: Engine, kit: OcrToolkit, images: seq<Image>): (r: Result<seq<string>, string>)
    ensures r.Success? ==> |r.value| == |images|
    decreases |images|
  {
    if images == [] then Success([])
    else match Recognised(engine, kit, images[..|images| - 1])
      case Failure(e) => Failure(e)
      case Success(texts) =>
        match kit.recognise(engine.tesseractCmd, images[|images| - 1])
        case Failure(e) => Failure(e)
        case Success(t) => Success(texts + [t])
  }

  /**
   * On success, text i is Tesseract's output for image i; a failure is the failure
   * of some image's call.
   */
  lemma {:induction false} RecognisedTexts(engine: Engine, kit: OcrToolkit, images: seq<Image>)
    ensures var r := Recognised(engine, kit, images);
            r.Success? ==> forall i :: 0 <= i < |images| ==>
              kit.recognise(engine.tesseractCmd, images[i]) == Success(r.value[i])
    ensures var r := Recognised(engine, kit, images);
            r.Failure? ==>
              exists i :: 0 <= i < |images| && kit.recognise(engine.tesseractCmd, images[i]) == Failure(r.error)
    decreases |images|
  {
    if images != [] {
      var init := images[..|images| - 1];
      RecognisedTexts(engine, kit, init);
      assert forall i :: 0 <= i < |init| ==> images[i] == init[i];
    }
  }

  function OcrDocument(filePath: string, text: string, page: int): Document {
    Document(text, Metadata(Some(page), filePath, Some("ocr")))
  }

  /** One OCR document per recognised text that is not blank, numbered from page 1. */
  function OcrDocuments(filePath: string, texts: seq<string>): (docs: seq<Document>)
    ensures |docs| <= |texts|
    ensures forall j :: 0 <= j < |docs| ==>
              docs[j].metadata.page.Some? && 1 <= docs[j].metadata.page.value <= |texts|
              && docs[j].metadata.source == filePath && docs[j].metadata.extraction == Some("ocr")
              && docs[j].pageContent == texts[docs[j].metadata.page.value - 1]
              && HasText(docs[j].pageContent)
    ensures forall j, k :: 0 <= j < k < |docs| ==> docs[j].metadata.page.value < docs[k].metadata.page.value
    decreases |texts|
  {
    if texts == [] then []
    else
      OcrDocuments(filePath, texts[..|texts| - 1])
      + (if HasText(texts[|texts| - 1]) then [OcrDocument(filePath, texts[|texts| - 1], |texts|)] else [])
  }

  /** Some document in `docs` carries page number `p`. */
  ghost predicate HasPage(docs: seq<Document>, p: int) {
    exists j :: 0 <= j < |docs| && docs[j].metadata.page == Some(p)
  }

  /** Every non-blank page gets a document, and only those do. */
  lemma {:induction false} OcrDocumentsCoverTextPages(filePath: string, texts: seq<string>, p: nat)
    requires 1 <= p <= |texts|
    ensures HasText(texts[p - 1]) <==> HasPage(OcrDocuments(filePath, texts), p)
    decreases |texts|
  {
    var n := |texts|;
    var init := texts[..n - 1];
    if p < n {
      OcrDocumentsCoverTextPages(filePath, init, p);
      assert texts[p - 1] == init[p - 1];
      OcrLastPageIsNew(filePath, texts, p);
    } else {
      OcrLastPage(filePath, texts);
    }
  }

  /** Appending the last text neither adds nor removes an earlier page number. */
  lemma OcrLastPageIsNew(filePath: string, texts: seq<string>, p: nat)
    requires 1 <= p < |texts|
    ensures HasPage(OcrDocuments(filePath, texts), p) <==> HasPage(OcrDocuments(filePath, texts[..|texts| - 1]), p)
  {
    var n := |texts|;
    var before := OcrDocuments(filePath, texts[..n - 1]);
    var docs := OcrDocuments(filePath, texts);
    var tail := if HasText(texts[n - 1]) then [OcrDocument(filePath, texts[n - 1], n)] else [];
    assert docs == before + tail;
    assert forall k :: 0 <= k < |tail| ==> tail[k].metadata.page == Some(n);
    assert forall j :: 0 <= j < |before| ==> docs[j] == before[j];
    assert forall j :: |before| <= j < |docs| ==> docs[j].metadata.page == Some(n);
  }

  /** The last text gets a document exactly when it is not blank. */
  lemma OcrLastPage(filePath: string, texts: seq<string>)
    requires |texts| > 0
    ensures HasText(texts[|texts| - 1]) <==> HasPage(OcrDocuments(filePath, texts), |texts|)
  {
    var n := |texts|;
    var before := OcrDocuments(filePath, texts[..n - 1]);
    var docs := OcrDocuments(filePath, texts);
    if HasText(texts[n - 1]) {
      assert docs[|before|] == OcrDocument(filePath, texts[n - 1], n);
    } else {
      assert docs == before;
      assert forall j :: 0 <= j < |before| ==> before[j].metadata.page.value <= n - 1;
    }
  }

  /** What `extract_text_with_ocr` returns or raises. */
  function OcrOutcome(engine: Engine, filePath: string, kit: OcrToolkit): Result<seq<Document>, string> {
    if !kit.available then Failure(OCR_UNAVAILABLE)
    else match kit.rasterise(filePath, FirstExisting(PopplerCandidates(kit.localAppData), kit.pathExists))
      case Failure(e) => Failure(OcrFailed(e))
      case Success(images) =>
        match Recognised(engine, kit, images)
        case Failure(e) => Failure(OcrFailed(e))
        case Success(texts) => Success(OcrDocuments(filePath, texts))
  }

  /** `extract_text_with_ocr`: rasterise the PDF, OCR page by page, keep the non-blank pages. */
  method ExtractTextWithOcr(engine: Engine, filePath: string, kit: OcrToolkit)
    returns (r: Result<seq<Document>, string>)
    ensures r == OcrOutcome(engine, filePath, kit)
  {
    if !kit.available {
      return Failure(OCR_UNAVAILABLE);
    }
    var popplerPath := SearchPaths(PopplerCandidates(kit.localAppData), kit.pathExists);
    var converted := kit.rasterise(filePath, popplerPath);
    if converted.Failure? {
      return Failure(OcrFailed(converted.error));
    }
    var images := converted.value;
    var documents := [];
    ghost var texts: seq<string> := [];
    var i := 0;
    while i < |images|
      invariant 0 <= i <= |images|
      invariant Recognised(engine, kit, images[..i]) == Success(texts)
      invariant documents == OcrDocuments(filePath, texts)
    {
      var text := kit.recognise(engine.tesseractCmd, images[i]);
      RecognisedStep(engine, kit, images, i);
      if text.Failure? {
        RecognisedPrefixFailure(engine, kit, images, i + 1);
        return Failure(OcrFailed(text.error));
      }
      OcrDocumentsStep(filePath, texts, text.value);
      if HasText(text.value) {
        documents := documents + [OcrDocument(filePath, text.value, i + 1)];
      }
      texts := texts + [text.value];
      i := i + 1;
    }
    assert images[..i] == images;
    r := Success(documents);
  }

  /** Recognising the image after a successful prefix: its failure, or one more text. */
  lemma RecognisedStep(engine: Engine, kit: OcrToolkit, images: seq<Image>, i: nat)
    requires i < |images| && Recognised(engine, kit, images[..i]).Success?
    ensures Recognised(engine, kit, images[..i + 1]) ==
              match kit.recognise(engine.tesseractCmd, images[i])
              case Failure(e) => Failure(e)
              case Success(t) => Success(Recognised(engine, kit, images[..i]).value + [t])
  {
    assert images[..i + 1][..i] == images[..i];
  }

  /** Recognising one more image appends at most its own document. */
  lemma OcrDocumentsStep(filePath: string, texts: seq<string>, text: string)
    ensures OcrDocuments(filePath, texts + [text]) ==
              OcrDocuments(filePath, texts) + (if HasText(text) then [OcrDocument(filePath, text, |texts| + 1)] else [])
  {
  }

  /** A failure on a prefix of the images is the failure of the whole run. */
  lemma {:induction false} RecognisedPrefixFailure(engine: Engine, kit: OcrToolkit, images: seq<Image>, n: nat)
    requires n <= |images|
    requires Recognised(engine, kit, images[..n]).Failure?
    ensures Recognised(engine, kit, images) == Recognised(engine, kit, images[..n])
    decreases |images| - n
  {
    if n < |images| {
      assert images[..n + 1][..n] == images[..n];
      RecognisedPrefixFailure(engine, kit, images, n + 1);
    } else {
      assert images[..n] == images;
    }
  }

  // ---------------------------------------------------------------- process_pdf

  function PageHasText(d: Document): bool {
    HasText(d.pageContent)
  }

  /** `[doc for doc in documents if doc.page_content.strip()]` */
  function TextDocuments(pages: seq<Document>): seq<Document> {
    Filter(pages, PageHasText)
  }

  /** The blank-page filter keeps the pages with text, in order, and only those. */
  lemma TextDocumentsFilter(pages: seq<Document>, d: Document)
    ensures IsSubsequence(TextDocuments(pages), pages)
    ensures d in TextDocuments(pages) <==> d in pages && HasText(d.pageContent)
  {
    FilterIsSubsequence(pages, PageHasText);
    FilterMembership(pages, PageHasText, d);
  }

  /** The text documents `process_pdf` hands to the splitter, or the error it raises before splitting. */
  function ExtractedText(engine: Engine, filePath: string, pages: seq<Document>, kit: OcrToolkit)
    : (r: Result<seq<Document>, string>)
    ensures r.Success? ==> r.value != [] && forall j :: 0 <= j < |r.value| ==> HasText(r.value[j].pageContent)
  {
    var text := TextDocuments(pages);
    if text != [] then Success(text)
    else match OcrOutcome(engine, filePath, kit)
      case Failure(e) => Failure(NoTextAndOcrFailed(e))
      case Success(docs) => if docs == [] then Failure(NO_TEXT) else Success(docs)
  }

  /** The chunks sent to the vector store and the message `process_pdf` returns. */
  datatype Ingestion = Ingestion(chunks: seq<Document>, message: string)

  /**
   * What `process_pdf` returns or raises, given the loader's result, the OCR toolkit,
   * the splitter and the store (`Some(e)`: `Chroma.from_documents` raised `e`).
   */
  function IngestOutcome(engine: Engine, filePath: string, loaded: Result<seq<Document>, string>,
                         kit: OcrToolkit, split: seq<Document> -> seq<Document>,
                         store: seq<Document> -> Option<string>): Result<Ingestion, string>
  {
    match loaded
    case Failure(e) => Failure(e)
    case Success(pages) =>
      match ExtractedText(engine, filePath, pages, kit)
      case Failure(e) => Failure(e)
      case Success(docs) =>
        var chunks := split(docs);
        if chunks == [] then Failure(NO_CHUNKS)
        else match store(chunks)
          case Some(e) => Failure(e)
          case None => Success(Ingestion(chunks, Processed(|chunks|)))
  }

  /** `process_pdf` */
  method ProcessPdf(engine: Engine, filePath: string, loaded: Result<seq<Document>, string>,
                    kit: OcrToolkit, split: seq<Document> -> seq<Document>,
                    store: seq<Document> -> Option<string>)
    returns (r: Result<Ingestion, string>)
    ensures r == IngestOutcome(engine, filePath, loaded, kit, split, store)
  {
    if loaded.Failure? {
      return Failure(loaded.error);
    }
    var textDocuments := TextDocuments(loaded.value);
    if textDocuments == [] {
      var ocr := ExtractTextWithOcr(engine, filePath, kit);
      if ocr.Failure? {
        return Failure(NoTextAndOcrFailed(ocr.error));
      }
      textDocuments := ocr.value;
    }
    if textDocuments == [] {
      return Failure(NO_TEXT);
    }
    var chunks := split(textDocuments);
    if chunks == [] {
      return Failure(NO_CHUNKS);
    }
    var stored := store(chunks);
    if stored.Some? {
      return Failure(stored.value);
    }
    r := Success(Ingestion(chunks, Processed(|chunks|)));
  }

  /** OCR is consulted only when no loaded page has text: otherwise the toolkit cannot change the outcome. */
  lemma OcrOnlyWithoutText(engine: Engine, filePath: string, pages: seq<Document>,
                           kit1: OcrToolkit, kit2: OcrToolkit,
                           split: seq<Document> -> seq<Document>, store: seq<Document> -> Option<string>)
    requires exists j :: 0 <= j < |pages| && HasText(pages[j].pageContent)
    ensures IngestOutcome(engine, filePath, Success(pages), kit1, split, store)
         == IngestOutcome(engine, filePath, Success(pages), kit2, split, store)
    ensures ExtractedText(engine, filePath, pages, kit1) == Success(TextDocuments(pages))
  {
    var j :| 0 <= j < |pages| && HasText(pages[j].pageContent);
    FilterMembership(pages, PageHasText, pages[j]);
  }

  /** With no text on any page, a failed OCR attempt is reported with its cause. */
  lemma OcrFailureReported(engine: Engine, filePath: string, pages: seq<Document>, kit: OcrToolkit,
                           split: seq<Document> -> seq<Document>, store: seq<Document> -> Option<string>)
    requires forall j :: 0 <= j < |pages| ==> !HasText(pages[j].pageContent)
    requires OcrOutcome(engine, filePath, kit).Failure?
    ensures IngestOutcome(engine, filePath, Success(pages), kit, split, store)
         == Failure(NoTextAndOcrFailed(OcrOutcome(engine, filePath, kit).error))
  {
    FilterDropsAll(pages, PageHasText);
  }

  /**
   * `process_pdf` succeeds exactly when some text was found, the splitter produced
   * chunks and the store accepted them; the message then reports the chunk count.
   */
  lemma IngestSucceedsIff(engine: Engine, filePath: string, loaded: Result<seq<Document>, string>,
                          kit: OcrToolkit, split: seq<Document> -> seq<Document>,
                          store: seq<Document> -> Option<string>)
    ensures var r := IngestOutcome(engine, filePath, loaded, kit, split, store);
            r.Success? <==>
              (loaded.Success? && ExtractedText(engine, filePath, loaded.value, kit).Success?
               && split(ExtractedText(engine, filePath, loaded.value, kit).value) != []
               && store(split(ExtractedText(engine, filePath, loaded.value, kit).value)).None?)
    ensures var r := IngestOutcome(engine, filePath, loaded, kit, split, store);
            r.Success? ==>
              r.value.chunks == split(ExtractedText(engine, filePath, loaded.value, kit).value)
              && StartsWith(r.value.message, "Successfully processed ")
              && ParseDecimal(r.value.message[23..|r.value.message| - 12]) == |r.value.chunks|
  {
    var r := IngestOutcome(engine, filePath, loaded, kit, split, store);
    if r.Success? {
      var n := |r.value.chunks|;
      var digits := NatToString(n);
      assert r.value.message == "Successfully processed " + digits + " text chunks";
      assert r.value.message[23..|r.value.message| - 12] == digits;
      ParseNatToString(n);
    }
  }

  // ---------------------------------------------------------------- retrieval

  /** The search settings `get_retriever` hands to Chroma's `as_retriever`. */
  datatype RetrieverConfig = RetrieverConfig(persistDirectory: string, searchType: string, k: nat, fetchK: nat)

  /** `get_retriever`: MMR over the persisted store, one result chosen from five candidates. */
  function GetRetriever(engine: Engine): (c: RetrieverConfig)
    ensures c.persistDirectory == engine.persistDirectory
    ensures c.searchType == "mmr" && c.k == 1 && c.fetchK == 5
    ensures c.k <= c.fetchK
  {
    RetrieverConfig(engine.persistDirectory, "mmr", 1, 5)
  }
}
