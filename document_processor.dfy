/** DocumentProcessor: turns one document (a URL or base64 payload plus a
    filename) into overlapping word-window chunks of normalised text.
    Fetching, base64 decoding and the PDF/DOCX/UTF-8 readers are abstract
    functions supplied in a DocumentReader. */
module DocumentProcessor {
  import opened Wrappers
  import opened Text

  /** Words per chunk, overlap between consecutive chunks, and the step. */
  const CHUNK_SIZE: nat := 500
  const CHUNK_OVERLAP: nat := 50
  const STEP: nat := CHUNK_SIZE - CHUNK_OVERLAP

  newtype byte = x: int | 0 <= x < 256

  /** process_document's input: content and the metadata dictionary. */
  datatype Document = Document(content: string, metadata: map<string, string>)

  /** The external readers: HTTP GET (with raise_for_status), base64 decoding,
      the pages of a PDF (extract_text may give None), the paragraphs of a
      DOCX, and UTF-8 decoding that drops invalid bytes (it cannot fail). */
  datatype DocumentReader = DocumentReader(
    fetch: string -> Result<seq<byte>, string>,
    decodeBase64: string -> Result<seq<byte>, string>,
    pdfPages: seq<byte> -> Result<seq<Option<string>>, string>,
    docxParagraphs: seq<byte> -> Result<seq<string>, string>,
    decodeUtf8: seq<byte> -> string)

  // ------------------------------------------------------ content stream

  datatype ContentSource = Fetch(url: string) | Base64(payload: string)

  /** _get_content_stream's dispatch: http(s) URLs are fetched, anything else
      is taken to be base64. */
  function SourceOf(content: string): (r: ContentSource)
    ensures r.Fetch? <==> StartsWith(content, "http://") || StartsWith(content, "https://")
    ensures r == Fetch(content) || r == Base64(content)
  {
    if StartsWith(content, "http://") || StartsWith(content, "https://") then Fetch(content)
    else Base64(content)
  }

  function ContentBytes(content: string, reader: DocumentReader): Result<seq<byte>, string>
  {
    match SourceOf(content)
    case Fetch(url) => reader.fetch(url)
    case Base64(payload) => reader.decodeBase64(payload)
  }

  // ---------------------------------------------------------- extraction

  datatype TextFormat = Pdf | Docx | PlainText

  /** The lower-cased text after the last '.', or "" when there is no '.'. */
  function FileExtension(filename: string): (ext: string)
    ensures '.' !in ext
    ensures '.' !in filename ==> ext == ""
    ensures '.' in filename ==>
      exists i :: 0 <= i < |filename| && filename[i] == '.' && '.' !in filename[i + 1..] && ext == Lower(filename[i + 1..])
  {
    if '.' in filename then Lower(AfterLast(filename, '.')) else ""
  }

  /** _extract_text's choice of reader. */
  function FormatOf(filename: string): (r: TextFormat)
    ensures r == PlainText <==> FileExtension(filename) != "pdf" && FileExtension(filename) != "docx"
  {
    var ext := FileExtension(filename);
    if ext == "pdf" then Pdf else if ext == "docx" then Docx else PlainText
  }

  lemma FormatOfCases(filename: string)
    ensures FormatOf(filename) == Pdf <==> FileExtension(filename) == "pdf"
    ensures FormatOf(filename) == Docx <==> FileExtension(filename) == "docx"
    ensures '.' !in filename ==> FormatOf(filename) == PlainText
  {
  }

  /** page.extract_text() or "". */
  function PageText(page: Option<string>): string
  {
    if page.Some? then page.value else ""
  }

  /** The text of a PDF: its pages' texts concatenated in page order. */
  function PdfText(pages: seq<Option<string>>): string
  {
    if pages == [] then "" else PdfText(pages[..|pages| - 1]) + PageText(pages[|pages| - 1])
  }

  /** The page loop of _extract_text. */
  method ConcatPages(pages: seq<Option<string>>) returns (text: string)
    ensures text == PdfText(pages)
  {
    text := "";
    for i := 0 to |pages|
      invariant text == PdfText(pages[..i])
    {
      assert pages[..i + 1][..i] == pages[..i];
      text := text + PageText(pages[i]);
    }
    assert pages[..|pages|] == pages;
  }

  lemma {:induction false} PdfTextAppend(pages: seq<Option<string>>, more: seq<Option<string>>)
    ensures PdfText(pages + more) == PdfText(pages) + PdfText(more)
    decreases |more|
  {
    if more == [] {
      assert pages + more == pages;
    } else {
      var init := more[..|more| - 1];
      assert (pages + more)[..|pages + more| - 1] == pages + init;
      PdfTextAppend(pages, init);
    }
  }

  function ExtractedText(bytes: seq<byte>, filename: string, reader: DocumentReader): Result<string, string>
  {
    match FormatOf(filename)
    case Pdf =>
      (match reader.pdfPages(bytes)
       case Ok(pages) => Ok(PdfText(pages))
       case Err(e) => Err(e))
    case Docx =>
      (match reader.docxParagraphs(bytes)
       case Ok(paragraphs) => Ok(Join(paragraphs, "\n"))
       case Err(e) => Err(e))
    case PlainText => Ok(reader.decodeUtf8(bytes))
  }

  /** _extract_text. */
  method ExtractText(bytes: seq<byte>, filename: string, reader: DocumentReader) returns (r: Result<string, string>)
    ensures r == ExtractedText(bytes, filename, reader)
  {
    var format := FormatOf(filename);
    if format == Pdf {
      var pages := reader.pdfPages(bytes);
      if pages.Err? {
        return Err(pages.error);
      }
      var text := ConcatPages(pages.value);
      r := Ok(text);
    } else if format == Docx {
      var paragraphs := reader.docxParagraphs(bytes);
      if paragraphs.Err? {
        return Err(paragraphs.error);
      }
      r := Ok(Join(paragraphs.value, "\n"));
    } else {
      r := Ok(reader.decodeUtf8(bytes));
    }
  }

  // ------------------------------------------------------------ cleaning

  /** re.sub(r'\s+', ' ', s): every maximal whitespace run becomes one space. */
  function CollapseWhitespace(s: string): (r: string)
    ensures |r| <= |s|
    ensures r == [] <==> s == []
    decreases |s|
  {
    if s == [] then []
    else if IsSpace(s[0]) then [' '] + CollapseWhitespace(TrimLeft(s[1..]))
    else [s[0]] + CollapseWhitespace(s[1..])
  }

  function DropNewlines(s: string): (r: string)
    ensures |r| <= |s|
  {
    if s != [] && s[0] == '\n' then DropNewlines(s[1..]) else s
  }

  /** re.sub(r'(\n)+', '\n', s): every run of newlines becomes one newline. */
  function CollapseNewlines(s: string): (r: string)
    ensures |r| <= |s|
    ensures r == [] <==> s == []
    decreases |s|
  {
    if s == [] then []
    else if s[0] == '\n' then ['\n'] + CollapseNewlines(DropNewlines(s[1..]))
    else [s[0]] + CollapseNewlines(s[1..])
  }

  /** _clean_text: strip, collapse whitespace runs, collapse newline runs. */
  function CleanText(text: string): (r: string)
    ensures |r| <= |text|
  {
    CollapseNewlines(CollapseWhitespace(Strip(text)))
  }

  lemma {:induction false} CollapseNewlinesWithoutNewline(s: string)
    requires '\n' !in s
    ensures CollapseNewlines(s) == s
  {
    if s != [] {
      assert '\n' !in s[1..];
      CollapseNewlinesWithoutNewline(s[1..]);
    }
  }

  lemma {:induction false} CollapseWordPrefix(w: string, x: string)
    requires forall i :: 0 <= i < |w| ==> !IsSpace(w[i])
    ensures CollapseWhitespace(w + x) == w + CollapseWhitespace(x)
  {
    if w == [] {
      assert w + x == x;
    } else {
      assert (w + x)[1..] == w[1..] + x;
      CollapseWordPrefix(w[1..], x);
      assert [w[0]] + (w[1..] + CollapseWhitespace(x)) == w + CollapseWhitespace(x);
    }
  }

  lemma {:induction false} TrimLeftKeepsLast(x: string)
    requires x != [] && !IsSpace(x[|x| - 1])
    ensures TrimLeft(x) != [] && TrimLeft(x)[|TrimLeft(x)| - 1] == x[|x| - 1]
  {
    if IsSpace(x[0]) {
      assert x[1..][|x| - 2] == x[|x| - 1];
      TrimLeftKeepsLast(x[1..]);
    }
  }

  /** The collapsed text is the first word, one space, and the collapsed rest. */
  lemma CollapseFirstWord(s: string, n: nat)
    requires n == WordLength(s) && 0 < n < |s|
    ensures CollapseWhitespace(s) == s[..n] + " " + CollapseWhitespace(TrimLeft(s[n + 1..]))
  {
    var w, rest := s[..n], s[n..];
    assert s == w + rest;
    CollapseWordPrefix(w, rest);
    assert rest[1..] == s[n + 1..];
    ConcatAssoc(w, [' '], CollapseWhitespace(TrimLeft(s[n + 1..])));
  }

  /** The words are the first word followed by the words of the rest. */
  lemma WordsFirstWord(s: string, n: nat)
    requires n == WordLength(s) && 0 < n < |s|
    ensures Words(s) == [s[..n]] + Words(TrimLeft(s[n + 1..]))
  {
    var rest := s[n..];
    assert Words(rest) == Words(rest[1..]);
    assert rest[1..] == s[n + 1..];
    WordsOfTrimLeft(s[n + 1..]);
  }

  /** On text without surrounding whitespace, collapsing the whitespace runs
      is the same as joining its words with single spaces. */
  lemma {:induction false} CollapseStripped(s: string)
    requires s == [] || (!IsSpace(s[0]) && !IsSpace(s[|s| - 1]))
    ensures CollapseWhitespace(s) == Join(Words(s), " ")
    decreases |s|
  {
    if s != [] {
      var n := WordLength(s);
      if n == |s| {
        CollapseWordPrefix(s, []);
        assert s + [] == s;
        WordsOfWord(s);
      } else {
        var tail := s[n + 1..];
        assert tail[|tail| - 1] == s[|s| - 1];
        TrimLeftKeepsLast(tail);
        var u := TrimLeft(tail);
        CollapseFirstWord(s, n);
        WordsFirstWord(s, n);
        CollapseStripped(u);
        JoinCons(s[..n], Words(u), " ");
      }
    }
  }

  /** Cleaning yields exactly the words of the text joined by single spaces. */
  lemma CleanTextIsJoinedWords(text: string)
    ensures CleanText(text) == Join(Words(text), " ")
  {
    var s := Strip(text);
    CollapseStripped(s);
    WordsOfStrip(text);
    var j := Join(Words(text), " ");
    JoinWordsShape(Words(text));
    assert '\n' !in j by {
      forall i | 0 <= i < |j| ensures j[i] != '\n' {
        assert IsSpace('\n');
      }
    }
    CollapseNewlinesWithoutNewline(j);
  }

  /** Cleaned text has no leading or trailing whitespace, and every whitespace
      character left is a single space between two words. */
  lemma CleanTextShape(text: string)
    ensures IsSingleSpaced(CleanText(text))
    ensures CleanText(text) == "" <==> Words(text) == []
  {
    CleanTextIsJoinedWords(text);
    JoinWordsShape(Words(text));
  }

  /** Cleaning keeps the words of the text. */
  lemma CleanTextKeepsWords(text: string)
    ensures Words(CleanText(text)) == Words(text)
  {
    CleanTextIsJoinedWords(text);
    WordsOfJoin(Words(text));
  }

  /** Cleaning is idempotent. */
  lemma CleanTextIdempotent(text: string)
    ensures CleanText(CleanText(text)) == CleanText(text)
  {
    CleanTextIsJoinedWords(text);
    CleanTextKeepsWords(text);
    CleanTextIsJoinedWords(CleanText(text));
  }

  // ------------------------------------------------------------ chunking

  /** The number of loop iterations of range(0, n, STEP). */
  function ChunkCount(n: nat): nat
  {
    (n + STEP - 1) / STEP
  }

  /** words[j * STEP : j * STEP + CHUNK_SIZE], with Python's clamping. */
  function Window(words: seq<string>, j: nat): seq<string>
    requires j < ChunkCount(|words|)
  {
    words[j * STEP..Min(j * STEP + CHUNK_SIZE, |words|)]
  }

  /** The chunks of a text: every window joined by single spaces. */
  function Chunks(text: string): (r: seq<string>)
    ensures |r| == ChunkCount(|Words(text)|)
    ensures r == [] <==> Words(text) == []
  {
    var words := Words(text);
    seq(ChunkCount(|words|), j requires 0 <= j < ChunkCount(|words|) => Join(Window(words, j), " "))
  }

  /** _chunk_text. */
  method ChunkText(text: string) returns (chunks: seq<string>)
    ensures chunks == Chunks(text)
  {
    var words := Words(text);
    if |words| == 0 {
      return [];
    }
    chunks := [];
    var i := 0;
    while i < |words|
      invariant i == |chunks| * STEP
      invariant i < |words| + STEP
      invariant forall j :: 0 <= j < |chunks| ==> j < ChunkCount(|words|) && chunks[j] == Join(Window(words, j), " ")
    {
      StartBelowCount(|words|, |chunks|);
      var chunkWords := words[i..Min(i + CHUNK_SIZE, |words|)];
      chunks := chunks + [Join(chunkWords, " ")];
      i := i + STEP;
    }
  }

  lemma StartBelowCount(n: nat, c: nat)
    requires c * STEP < n
    ensures c < ChunkCount(n)
  {
  }

  /** There are ceil(n / STEP) chunks: the last start is below n, the next is not. */
  lemma ChunkCountIsCeiling(n: nat)
    ensures n == 0 ==> ChunkCount(n) == 0
    ensures n > 0 ==> (ChunkCount(n) - 1) * STEP < n <= ChunkCount(n) * STEP
  {
  }

  /** Empty or whitespace-only text has no chunks; other text has some. */
  lemma BlankTextHasNoChunks(text: string)
    ensures Chunks(text) == [] <==> Words(text) == []
    ensures AllSpace(text) ==> Chunks(text) == []
  {
    if AllSpace(text) {
      WordsOfAllSpace(text);
    }
  }

  /** Window j starts at word j * STEP, is non-empty, holds at most CHUNK_SIZE
      words, and the last window holds all the remaining words. */
  lemma WindowBounds(words: seq<string>, j: nat)
    requires j < ChunkCount(|words|)
    ensures j * STEP < |words|
    ensures 0 < |Window(words, j)| <= CHUNK_SIZE
    ensures Window(words, j) == words[j * STEP..j * STEP + |Window(words, j)|]
    ensures j == ChunkCount(|words|) - 1 ==> Window(words, j) == words[j * STEP..]
  {
    ChunkCountIsCeiling(|words|);
  }

  /** Chunk j consists of exactly the words of window j, separated by single
      spaces. */
  lemma ChunkWords(text: string, j: nat)
    requires j < |Chunks(text)|
    ensures Words(Chunks(text)[j]) == Window(Words(text), j)
    ensures IsSingleSpaced(Chunks(text)[j]) && Chunks(text)[j] != ""
  {
    var words := Words(text);
    var w := Window(words, j);
    WindowBounds(words, j);
    assert AllWords(w) by {
      forall i | 0 <= i < |w| ensures IsWord(w[i]) {
        assert w[i] == words[j * STEP + i];
      }
    }
    WordsOfJoin(w);
    JoinWordsShape(w);
  }

  /** Consecutive windows share the words from (j + 1) * STEP to the end of
      window j; a full window shares exactly CHUNK_OVERLAP words. */
  lemma WindowOverlap(words: seq<string>, j: nat)
    requires j + 1 < ChunkCount(|words|)
    ensures |Window(words, j)| > STEP
    ensures Window(words, j)[STEP..] == Window(words, j + 1)[..|Window(words, j)| - STEP]
    ensures |Window(words, j)| == CHUNK_SIZE ==>
      Window(words, j)[STEP..] == Window(words, j + 1)[..CHUNK_OVERLAP] == words[(j + 1) * STEP..(j + 1) * STEP + CHUNK_OVERLAP]
  {
    ChunkCountIsCeiling(|words|);
    WindowBounds(words, j + 1);
  }

  /** Every word lies in some window: word i is at offset i % STEP of window i / STEP. */
  lemma EveryWordInAWindow(words: seq<string>, i: nat)
    requires i < |words|
    ensures i / STEP < ChunkCount(|words|)
    ensures i % STEP < |Window(words, i / STEP)|
    ensures Window(words, i / STEP)[i % STEP] == words[i]
  {
    ChunkCountIsCeiling(|words|);
  }

  /** 1200 words: windows start at 0, 450 and 900, the last has 300 words. */
  lemma ExampleTwelveHundredWords(words: seq<string>)
    requires |words| == 1200
    ensures ChunkCount(|words|) == 3
    ensures Window(words, 0) == words[0..500]
    ensures Window(words, 1) == words[450..950]
    ensures Window(words, 2) == words[900..1200] && |Window(words, 2)| == 300
  {
  }

  // ---------------------------------------------------- process_document

  function FilenameOf(doc: Document): string
  {
    if "filename" in doc.metadata then doc.metadata["filename"] else ""
  }

  /** What process_document yields: the chunks of the cleaned extracted text,
      or the message of the exception a reader raised. */
  function DocumentChunks(doc: Document, reader: DocumentReader): (r: Result<seq<string>, string>)
    ensures r.Ok? <==>
      ContentBytes(doc.content, reader).Ok? && ExtractedText(ContentBytes(doc.content, reader).value, FilenameOf(doc), reader).Ok?
  {
    match ContentBytes(doc.content, reader)
    case Err(e) => Err(e)
    case Ok(bytes) =>
      match ExtractedText(bytes, FilenameOf(doc), reader)
      case Err(e) => Err(e)
      case Ok(text) => Ok(Chunks(CleanText(text)))
  }

  /** A document's chunks are all words of its extracted text, in windows. */
  lemma DocumentChunksAreWindows(doc: Document, reader: DocumentReader, text: string)
    requires ContentBytes(doc.content, reader).Ok?
    requires ExtractedText(ContentBytes(doc.content, reader).value, FilenameOf(doc), reader) == Ok(text)
    ensures DocumentChunks(doc, reader) == Ok(Chunks(text))
  {
    CleanTextKeepsWords(text);
  }

  /** process_document. */
  method ProcessDocument(doc: Document, reader: DocumentReader) returns (r: Result<seq<string>, string>)
    ensures r == DocumentChunks(doc, reader)
  {
    var bytes: Result<seq<byte>, string>;
    if StartsWith(doc.content, "http://") || StartsWith(doc.content, "https://") {
      bytes := reader.fetch(doc.content);
    } else {
      bytes := reader.decodeBase64(doc.content);
    }
    if bytes.Err? {
      return Err(bytes.error);
    }
    var text := ExtractText(bytes.value, FilenameOf(doc), reader);
    if text.Err? {
      return Err(text.error);
    }
    var chunks := ChunkText(CleanText(text.value));
    r := Ok(chunks);
  }
}
