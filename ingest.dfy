/** The document-ingestion route: `POST /process` turns an uploaded text file
    into a `documents` row and a run of `chunks` rows of three sentences each,
    and `GET /status/:documentId` reports a document with its chunk count.
    Base64 and UTF-8 decoding, the clock, `uniqueId`, the embedding model and
    statement failures of the database are parameters (`IngestEnv`). */
module Ingest {
  import opened Common
  import opened Schema

  // ---------------------------------------------------------------------------
  // Request shape

  /** `req.body.file`: absent, a data-URL string, or an object with `data`,
      `type`, `name` and `size` (an absent string field is "", an absent size 0). */
  datatype FileField =
    | NoFile
    | UrlFile(url: string)
    | ObjectFile(data: string, fileType: string, name: string, size: nat)

  datatype IngestRequest = IngestRequest(userId: string, file: FileField, metadata: Option<string>)

  /** Everything the route takes from outside: decoders, clock readings, the
      ids `uniqueId()` returns on its n-th call, the embedder's answer for the
      n-th chunk, and the error each database statement may throw. */
  datatype IngestEnv = IngestEnv(
    base64: string -> seq<bv8>,
    utf8: seq<bv8> -> string,
    nowMs: int,
    uploadedAt: int,
    processedAt: int,
    uniqueId: nat -> string,
    embed: (nat, string) -> Option<Embedding>,
    documentFault: Option<string>,
    chunksFault: Option<string>,
    updateFault: Option<string>)

  datatype IngestBody = ErrorBody(error: string) | Processed(documentId: string, chunksCreated: nat)

  datatype IngestResponse = IngestResponse(status: nat, body: IngestBody)

  const NoFileError := "No file provided"
  const NoUserError := "User ID is required"
  const BadDataError := "Invalid file data format"
  const BadFileError := "Invalid file format"
  const PdfError := "PDF processing not yet implemented"
  const UnsupportedError := "Unsupported file type"
  const ProcessedMessage := "Document processed and embedded successfully"

  // ---------------------------------------------------------------------------
  // The data URL `^data:([^;]+);base64,(.+)$`

  datatype DataUrl = DataUrl(mime: string, payload: string)

  predicate NoLineTerminator(s: string)
  {
    forall i :: 0 <= i < |s| ==> !IsLineTerminator(s[i])
  }

  /** `s` matches the pattern with `mime` as group 1 and `payload` as group 2:
      `[^;]+` is a non-empty run without `;`, `.+` a non-empty run without a
      line terminator, and the anchors make the match cover all of `s`. */
  predicate MatchesDataUrl(s: string, mime: string, payload: string)
  {
    && s == "data:" + mime + ";base64," + payload
    && |mime| > 0 && ';' !in mime
    && |payload| > 0 && NoLineTerminator(payload)
  }

  function ParseDataUrl(s: string): Option<DataUrl>
  {
    if !StartsWith(s, "data:") then None
    else
      var rest := s[5..];
      var i := IndexOf(rest, ';');
      if i <= 0 then None
      else
        var tail := rest[i..];
        if !StartsWith(tail, ";base64,") then None
        else
          var payload := tail[|";base64,"|..];
          if |payload| > 0 && NoLineTerminator(payload) then Some(DataUrl(rest[..i], payload)) else None
  }

  /** What the parser returns is a match of the pattern. */
  lemma ParseDataUrlSound(s: string)
    requires ParseDataUrl(s).Some?
    ensures MatchesDataUrl(s, ParseDataUrl(s).value.mime, ParseDataUrl(s).value.payload)
  {
    var rest := s[5..];
    var i := IndexOf(rest, ';');
    var tail := rest[i..];
    assert s == "data:" + rest;
    assert rest == rest[..i] + tail;
    assert tail == ";base64," + tail[8..];
  }

  /** Every match of the pattern is found, with the same groups. */
  lemma ParseDataUrlComplete(s: string, mime: string, payload: string)
    requires MatchesDataUrl(s, mime, payload)
    ensures ParseDataUrl(s) == Some(DataUrl(mime, payload))
  {
    var rest := s[5..];
    assert s[..5] == "data:";
    assert rest == mime + ";base64," + payload;
    assert rest[|mime|] == ';';
    assert rest[..|mime|] == mime;
    IndexOfIs(rest, ';', |mime|);
    assert rest[|mime|..] == ";base64," + payload;
  }

  // ---------------------------------------------------------------------------
  // Reading the upload (lines 17-69)

  datatype Upload = Upload(name: string, mediaType: string, size: nat, bytes: seq<bv8>)

  /** `!file` in JavaScript: no file, or the empty string. */
  predicate IsFalsyFile(file: FileField)
  {
    file.NoFile? || file == UrlFile("")
  }

  /** The data URL a truthy file carries ("" when an object has no `data`). */
  function DataOf(file: FileField): string
  {
    match file
    case NoFile => ""
    case UrlFile(url) => url
    case ObjectFile(data, _, _, _) => data
  }

  function DefaultName(nowMs: int): string
  {
    "document_" + IntToString(nowMs)
  }

  /** Name, media type and size of the upload: taken from the data URL and the
      clock for a string, and from the object's own fields where they are truthy. */
  function ReadUpload(file: FileField, env: IngestEnv): (r: Result<Upload>)
    requires !IsFalsyFile(file)
    ensures r.Ok? <==> DataOf(file) != "" && ParseDataUrl(DataOf(file)).Some?
    ensures r.Err? ==> r.error == (if DataOf(file) == "" then BadFileError else BadDataError)
    ensures r.Ok? ==> r.value.mediaType != "" && r.value.bytes == env.base64(ParseDataUrl(DataOf(file)).value.payload)
  {
    match file
    case UrlFile(url) =>
      (match ParseDataUrl(url)
       case None => Err(BadDataError)
       case Some(d) =>
         var bytes := env.base64(d.payload);
         Ok(Upload(DefaultName(env.nowMs), d.mime, |bytes|, bytes)))
    case ObjectFile(data, fileType, name, size) =>
      if data == "" then Err(BadFileError)
      else
        (match ParseDataUrl(data)
         case None => Err(BadDataError)
         case Some(d) =>
           var bytes := env.base64(d.payload);
           Ok(Upload(if name != "" then name else DefaultName(env.nowMs),
                     if fileType != "" then fileType else d.mime,
                     if size != 0 then size else |bytes|,
                     bytes)))
  }

  /** The extraction switch: only `text/plain` yields text. */
  function ExtractText(u: Upload, env: IngestEnv): (r: Result<string>)
    ensures r.Ok? <==> u.mediaType == "text/plain"
    ensures r.Ok? ==> r.value == env.utf8(u.bytes)
    ensures u.mediaType == "application/pdf" ==> r == Err(PdfError)
  {
    if u.mediaType == "text/plain" then Ok(env.utf8(u.bytes))
    else if u.mediaType == "application/pdf" then Err(PdfError)
    else Err(UnsupportedError)
  }

  datatype Prepared = Prepared(upload: Upload, text: string)

  /** All checks that precede the first write, in the route's order. */
  function Prepare(req: IngestRequest, env: IngestEnv): (r: Result<Prepared>)
    ensures IsFalsyFile(req.file) ==> r == Err(NoFileError)
    ensures !IsFalsyFile(req.file) && req.userId == "" ==> r == Err(NoUserError)
    ensures r.Ok? ==> r.value.upload.mediaType == "text/plain"
  {
    if IsFalsyFile(req.file) then Err(NoFileError)
    else if req.userId == "" then Err(NoUserError)
    else
      match ReadUpload(req.file, env)
      case Err(e) => Err(e)
      case Ok(u) =>
        match ExtractText(u, env)
        case Err(e) => Err(e)
        case Ok(text) => Ok(Prepared(u, text))
  }

  // ---------------------------------------------------------------------------
  // Sentences: `text.split(/[.!?]+\s+/).filter(s => s.trim().length > 0)`

  predicate IsPunct(c: char)
  {
    c == '.' || c == '!' || c == '?'
  }

  /** The end of the run of `.`, `!`, `?` that starts at `k`. */
  function PunctRunEnd(s: string, k: nat): (e: nat)
    requires k <= |s|
    ensures k <= e <= |s|
    ensures forall j :: k <= j < e ==> IsPunct(s[j])
    ensures e == |s| || !IsPunct(s[e])
    decreases |s| - k
  {
    if k < |s| && IsPunct(s[k]) then PunctRunEnd(s, k + 1) else k
  }

  /** The end of the run of white space that starts at `k`. */
  function WhiteRunEnd(s: string, k: nat): (e: nat)
    requires k <= |s|
    ensures k <= e <= |s|
    ensures forall j :: k <= j < e ==> IsWhite(s[j])
    ensures e == |s| || !IsWhite(s[e])
    decreases |s| - k
  {
    if k < |s| && IsWhite(s[k]) then WhiteRunEnd(s, k + 1) else k
  }

  /** Where a match of `[.!?]+\s+` that starts at `q` ends, if one does. Both
      runs are greedy, and shortening the first cannot help because the
      character after a shorter run is punctuation, not white space. */
  function BreakAt(s: string, q: nat): (r: Option<nat>)
    requires q <= |s|
    ensures r.Some? ==> q + 2 <= r.value <= |s|
  {
    if q < |s| && IsPunct(s[q]) then
      var k := PunctRunEnd(s, q);
      if k < |s| && IsWhite(s[k]) then Some(WhiteRunEnd(s, k)) else None
    else None
  }

  /** The `split` algorithm of ECMAScript for a separator that never matches
      the empty string: `p` is where the current piece starts and `q` is the
      next position tried. */
  function SplitFrom(s: string, p: nat, q: nat): (r: seq<string>)
    requires p <= q <= |s|
    ensures |r| >= 1
    decreases |s| - q
  {
    if q == |s| then [s[p..]]
    else
      match BreakAt(s, q)
      case Some(e) => [s[p..q]] + SplitFrom(s, e, e)
      case None => SplitFrom(s, p, q + 1)
  }

  function SplitSentences(text: string): seq<string>
  {
    SplitFrom(text, 0, 0)
  }

  /** A piece contains no sentence break: no punctuation mark followed by white space. */
  predicate NoBreak(t: string)
  {
    forall j :: 0 <= j < |t| - 1 ==> !(IsPunct(t[j]) && IsWhite(t[j + 1]))
  }

  /** Where no break starts, no punctuation mark is followed by white space. */
  lemma NoMatchNoBreak(s: string, j: nat)
    requires j + 1 < |s| && BreakAt(s, j).None?
    ensures !(IsPunct(s[j]) && IsWhite(s[j + 1]))
  {
    if IsWhite(s[j + 1]) {
      assert !IsPunct(s[j + 1]);
      assert PunctRunEnd(s, j + 1) == j + 1;
    }
  }

  lemma SliceNoBreak(s: string, p: nat, q: nat)
    requires p <= q <= |s|
    requires forall j :: p <= j < q ==> BreakAt(s, j).None?
    ensures NoBreak(s[p..q])
  {
    var t := s[p..q];
    forall j | 0 <= j < |t| - 1 ensures !(IsPunct(t[j]) && IsWhite(t[j + 1])) {
      NoMatchNoBreak(s, p + j);
    }
  }

  lemma {:induction false} SplitFromNoBreak(s: string, p: nat, q: nat)
    requires p <= q <= |s|
    requires forall j :: p <= j < q ==> BreakAt(s, j).None?
    ensures forall i :: 0 <= i < |SplitFrom(s, p, q)| ==> NoBreak(SplitFrom(s, p, q)[i])
    decreases |s| - q
  {
    if q == |s| {
      SliceNoBreak(s, p, q);
      assert s[p..q] == s[p..];
      assert SplitFrom(s, p, q) == [s[p..q]];
    } else {
      match BreakAt(s, q)
      case Some(e) =>
        SliceNoBreak(s, p, q);
        SplitFromNoBreak(s, e, e);
        assert SplitFrom(s, p, q) == [s[p..q]] + SplitFrom(s, e, e);
      case None =>
        SplitFromNoBreak(s, p, q + 1);
    }
  }

  /** No sentence piece still contains a break. */
  lemma SentencesHaveNoBreak(text: string)
    ensures forall i :: 0 <= i < |SplitSentences(text)| ==> NoBreak(SplitSentences(text)[i])
  {
    SplitFromNoBreak(text, 0, 0);
  }

  lemma {:induction false} SplitFromWhole(s: string, q: nat)
    requires q <= |s|
    requires forall j :: q <= j < |s| ==> BreakAt(s, j).None?
    ensures SplitFrom(s, 0, q) == [s]
    decreases |s| - q
  {
    if q < |s| {
      SplitFromWhole(s, q + 1);
    }
  }

  lemma NoBreakNoMatch(s: string, q: nat)
    requires q < |s| && NoBreak(s)
    ensures BreakAt(s, q).None?
  {
    if IsPunct(s[q]) {
      var k := PunctRunEnd(s, q);
      assert IsPunct(s[k - 1]);
      if k < |s| {
        assert !(IsPunct(s[k - 1]) && IsWhite(s[k - 1 + 1]));
      }
    }
  }

  /** A text without a break is one sentence. */
  lemma NoBreakOneSentence(text: string)
    requires NoBreak(text)
    ensures SplitSentences(text) == [text]
  {
    forall j | 0 <= j < |text| ensures BreakAt(text, j).None? {
      NoBreakNoMatch(text, j);
    }
    SplitFromWhole(text, 0);
  }

  /** `filter(s => s.trim().length > 0)`. */
  function KeepNonBlank(ps: seq<string>): (r: seq<string>)
    ensures |r| <= |ps|
    ensures forall i :: 0 <= i < |r| ==> HasNonWhite(r[i])
  {
    if |ps| == 0 then []
    else
      TrimEnds(ps[0]);
      (if |Trim(ps[0])| > 0 then [ps[0]] else []) + KeepNonBlank(ps[1..])
  }

  /** The filter keeps a list of non-blank pieces as it is. */
  lemma {:induction false} KeepAllNonBlank(ps: seq<string>)
    requires forall i :: 0 <= i < |ps| ==> HasNonWhite(ps[i])
    ensures KeepNonBlank(ps) == ps
  {
    if |ps| > 0 {
      TrimEnds(ps[0]);
      KeepAllNonBlank(ps[1..]);
      assert ps == [ps[0]] + ps[1..];
    }
  }

  function Sentences(text: string): seq<string>
  {
    KeepNonBlank(SplitSentences(text))
  }

  predicate AllNonBlank(ss: seq<string>)
  {
    forall i :: 0 <= i < |ss| ==> HasNonWhite(ss[i])
  }

  // ---------------------------------------------------------------------------
  // Chunks of three sentences (lines 86-105)

  /** `sentences.slice(i, i + 3).join('. ').trim()`. */
  function GroupText(ss: seq<string>, i: nat): string
    requires i < |ss|
  {
    Trim(Join(ss[i..Min(i + 3, |ss|)], ". "))
  }

  /** The chunk object the loop builds at sentence index `i`. */
  function ChunkAt(ss: seq<string>, i: nat, documentId: string, id: string): ChunkRow
    requires i < |ss|
  {
    var text := GroupText(ss, i);
    var last := Min(i + 3 - 1, |ss| - 1);
    ChunkRow(id, documentId, text, CeilDiv(|text|, 4), i / 3 + 1, i, last,
             SentenceRange(i, last), None)
  }

  /** The chunks the loop pushes from sentence index `i` on, when `made`
      chunks (and one document id) have already taken an id. */
  function ChunksFrom(ss: seq<string>, i: nat, documentId: string, uniqueId: nat -> string, made: nat): seq<ChunkRow>
    decreases |ss| - i
  {
    if i >= |ss| then []
    else if |GroupText(ss, i)| > 0 then
      [ChunkAt(ss, i, documentId, uniqueId(made + 1))] + ChunksFrom(ss, i + 3, documentId, uniqueId, made + 1)
    else ChunksFrom(ss, i + 3, documentId, uniqueId, made)
  }

  lemma JoinHead(g: seq<string>, sep: string)
    requires |g| >= 1
    ensures IsPrefix(g[0], Join(g, sep))
  {
  }

  /** A group whose first sentence is not blank has non-empty text. */
  lemma GroupTextNonEmpty(ss: seq<string>, i: nat)
    requires i < |ss| && HasNonWhite(ss[i])
    ensures |GroupText(ss, i)| > 0
  {
    var g := ss[i..Min(i + 3, |ss|)];
    var joined := Join(g, ". ");
    JoinHead(g, ". ");
    var w :| 0 <= w < |ss[i]| && !IsWhite(ss[i][w]);
    assert joined[w] == g[0][w];
    TrimEnds(joined);
  }

  lemma CeilDivStep(rem: nat)
    requires rem >= 1
    ensures CeilDiv(rem, 3) == 1 + CeilDiv(if rem >= 3 then rem - 3 else 0, 3)
  {
  }

  lemma CeilDivThird(n: nat, k: nat)
    requires k < CeilDiv(n, 3)
    ensures 3 * k < n
  {
    var c := CeilDiv(n, 3);
    assert 3 * k + 3 <= 3 * c;
  }

  /** With non-blank sentences every group becomes a chunk. */
  lemma {:induction false} ChunksFromCount(ss: seq<string>, i: nat, documentId: string, uniqueId: nat -> string, made: nat)
    requires AllNonBlank(ss)
    ensures |ChunksFrom(ss, i, documentId, uniqueId, made)| == CeilDiv(if i <= |ss| then |ss| - i else 0, 3)
    decreases |ss| - i
  {
    if i < |ss| {
      GroupTextNonEmpty(ss, i);
      ChunksFromCount(ss, i + 3, documentId, uniqueId, made + 1);
      CeilDivStep(|ss| - i);
    }
  }

  /** With non-blank sentences, chunk `k` from sentence index `i` starts at
      sentence `i + 3k` and takes the id of the `made + k + 1`-th call. */
  lemma {:induction false} ChunksFromAt(ss: seq<string>, i: nat, documentId: string, uniqueId: nat -> string, made: nat, k: nat)
    requires AllNonBlank(ss) && i + 3 * k < |ss|
    ensures k < |ChunksFrom(ss, i, documentId, uniqueId, made)|
    ensures ChunksFrom(ss, i, documentId, uniqueId, made)[k] == ChunkAt(ss, i + 3 * k, documentId, uniqueId(made + k + 1))
    decreases k
  {
    var rest := ChunksFrom(ss, i + 3, documentId, uniqueId, made + 1);
    var first := ChunkAt(ss, i, documentId, uniqueId(made + 1));
    assert ChunksFrom(ss, i, documentId, uniqueId, made) == [first] + rest by {
      GroupTextNonEmpty(ss, i);
      ChunksFromUnfold(ss, i, documentId, uniqueId, made);
    }
    var target := ChunkAt(ss, i + 3 * k, documentId, uniqueId(made + k + 1));
    if k > 0 {
      var k' := k - 1;
      assert k' < |rest| && rest[k'] == target by {
        assert 3 * k == 3 * k' + 3;
        ChunksFromAt(ss, i + 3, documentId, uniqueId, made + 1, k');
        assert (i + 3) + 3 * k' == i + 3 * k;
        assert made + 1 + k' + 1 == made + k + 1;
      }
    } else {
      assert target == first by {
        assert i + 3 * k == i;
      }
    }
    ConsIndex(first, rest, k, target);
  }

  /** The fields of chunk `k`: page `k + 1`, sentences `3k` to `min(3k + 2, n - 1)`,
      the trimmed joined text (non-empty when its first sentence is not blank)
      and `ceil(length / 4)` tokens. */
  lemma ChunkAtShape(ss: seq<string>, k: nat, documentId: string, id: string)
    requires 3 * k < |ss|
    ensures var c := ChunkAt(ss, 3 * k, documentId, id);
      && c.id == id && c.documentId == documentId
      && c.content == Trim(Join(ss[3 * k..Min(3 * k + 3, |ss|)], ". "))
      && (HasNonWhite(ss[3 * k]) ==> |c.content| > 0)
      && c.page == k + 1
      && c.start == 3 * k && c.end == Min(3 * k + 2, |ss| - 1) && c.start <= c.end
      && c.metadata == SentenceRange(c.start, c.end)
      && 4 * c.tokenCount >= |c.content| && 4 * c.tokenCount < |c.content| + 4
      && c.embedding.None?
  {
    if HasNonWhite(ss[3 * k]) {
      GroupTextNonEmpty(ss, 3 * k);
    }
  }

  /** The chunking loop: the chunks `ChunksFrom` describes, whose layout
      `ChunksLayout` gives. */
  method BuildChunks(ss: seq<string>, documentId: string, uniqueId: nat -> string) returns (rows: seq<ChunkRow>)
    ensures rows == ChunksFrom(ss, 0, documentId, uniqueId, 0)
  {
    rows := [];
    var i := 0;
    while i < |ss|
      invariant ChunksFrom(ss, 0, documentId, uniqueId, 0) == rows + ChunksFrom(ss, i, documentId, uniqueId, |rows|)
      decreases |ss| - i
    {
      var text := GroupText(ss, i);
      if |text| > 0 {
        var last := Min(i + 3 - 1, |ss| - 1);
        var chunk := ChunkRow(uniqueId(|rows| + 1), documentId, text, CeilDiv(|text|, 4), i / 3 + 1,
                              i, last, SentenceRange(i, last), None);
        ChunkPushed(ss, i, documentId, uniqueId, rows, chunk);
        rows := rows + [chunk];
      } else {
        ChunkSkipped(ss, i, documentId, uniqueId, |rows|);
      }
      i := i + 3;
    }
    assert ChunksFrom(ss, i, documentId, uniqueId, |rows|) == [];
  }

  /** A round of the chunking loop that pushes the chunk it built. */
  lemma ChunkPushed(ss: seq<string>, i: nat, documentId: string, uniqueId: nat -> string, rows: seq<ChunkRow>,
                    chunk: ChunkRow)
    requires i < |ss| && |GroupText(ss, i)| > 0
    requires chunk == ChunkRow(uniqueId(|rows| + 1), documentId, GroupText(ss, i), CeilDiv(|GroupText(ss, i)|, 4),
                               i / 3 + 1, i, Min(i + 3 - 1, |ss| - 1),
                               SentenceRange(i, Min(i + 3 - 1, |ss| - 1)), None)
    ensures rows + ChunksFrom(ss, i, documentId, uniqueId, |rows|) ==
      (rows + [chunk]) + ChunksFrom(ss, i + 3, documentId, uniqueId, |rows + [chunk]|)
  {
    ChunksFromUnfold(ss, i, documentId, uniqueId, |rows|);
    assert chunk == ChunkAt(ss, i, documentId, uniqueId(|rows| + 1));
    PushAssoc(rows, chunk, ChunksFrom(ss, i + 3, documentId, uniqueId, |rows| + 1));
  }

  lemma ConsIndex<T>(first: T, rest: seq<T>, k: nat, v: T)
    requires k == 0 ==> v == first
    requires k > 0 ==> k - 1 < |rest| && rest[k - 1] == v
    ensures k < |[first] + rest| && ([first] + rest)[k] == v
  {
  }

  lemma ChunksFromUnfold(ss: seq<string>, i: nat, documentId: string, uniqueId: nat -> string, made: nat)
    requires i < |ss| && |GroupText(ss, i)| > 0
    ensures ChunksFrom(ss, i, documentId, uniqueId, made) ==
      [ChunkAt(ss, i, documentId, uniqueId(made + 1))] + ChunksFrom(ss, i + 3, documentId, uniqueId, made + 1)
  {
  }

  lemma PushAssoc<T>(a: seq<T>, x: T, b: seq<T>)
    ensures a + ([x] + b) == (a + [x]) + b && |a + [x]| == |a| + 1
  {
  }

  /** A round of the chunking loop whose group text is empty. */
  lemma ChunkSkipped(ss: seq<string>, i: nat, documentId: string, uniqueId: nat -> string, made: nat)
    requires i < |ss| && |GroupText(ss, i)| == 0
    ensures ChunksFrom(ss, i, documentId, uniqueId, made) == ChunksFrom(ss, i + 3, documentId, uniqueId, made)
  {
  }

  /** With non-blank sentences there are `ceil(n / 3)` chunks and chunk `k`
      is built at sentence `3k` with the id of the `k + 1`-th call. */
  lemma ChunksLayout(ss: seq<string>, documentId: string, uniqueId: nat -> string)
    requires AllNonBlank(ss)
    ensures |ChunksFrom(ss, 0, documentId, uniqueId, 0)| == CeilDiv(|ss|, 3)
    ensures forall k :: 0 <= k < |ChunksFrom(ss, 0, documentId, uniqueId, 0)| ==>
      3 * k < |ss| && ChunksFrom(ss, 0, documentId, uniqueId, 0)[k] == ChunkAt(ss, 3 * k, documentId, uniqueId(k + 1))
  {
    var rows := ChunksFrom(ss, 0, documentId, uniqueId, 0);
    ChunksFromCount(ss, 0, documentId, uniqueId, 0);
    forall k | 0 <= k < |rows| ensures 3 * k < |ss| && rows[k] == ChunkAt(ss, 3 * k, documentId, uniqueId(k + 1)) {
      CeilDivThird(|ss|, k);
      ChunksFromAt(ss, 0, documentId, uniqueId, 0, k);
    }
  }

  // ---------------------------------------------------------------------------
  // Embeddings (lines 107-119)

  /** A chunk gets the embedder's vector when it has one; a failure leaves it as it was. */
  function Embedded(c: ChunkRow, answer: Option<Embedding>): ChunkRow
  {
    if answer.Some? then c.(embedding := answer) else c
  }

  function WithEmbeddings(rows: seq<ChunkRow>, embed: (nat, string) -> Option<Embedding>): seq<ChunkRow>
  {
    seq(|rows|, k requires 0 <= k < |rows| => Embedded(rows[k], embed(k, rows[k].content)))
  }

  /** The embedding loop: a failed call affects only its own chunk and the loop goes on. */
  method EmbedChunks(rows: seq<ChunkRow>, embed: (nat, string) -> Option<Embedding>) returns (out: seq<ChunkRow>)
    ensures out == WithEmbeddings(rows, embed)
    ensures |out| == |rows|
    ensures forall k :: 0 <= k < |rows| ==>
      out[k].(embedding := None) == rows[k].(embedding := None) &&
      out[k].embedding == if embed(k, rows[k].content).Some? then embed(k, rows[k].content) else rows[k].embedding
  {
    out := rows;
    var k := 0;
    while k < |out|
      invariant |out| == |rows| && k <= |rows|
      invariant forall j :: 0 <= j < k ==> out[j] == Embedded(rows[j], embed(j, rows[j].content))
      invariant forall j :: k <= j < |rows| ==> out[j] == rows[j]
    {
      var answer := embed(k, out[k].content);
      if answer.Some? {
        out := out[k := out[k].(embedding := answer)];
      }
      k := k + 1;
    }
  }

  // ---------------------------------------------------------------------------
  // The whole `/process` request

  /** The response and the two tables after a request. */
  datatype IngestEffect = IngestEffect(response: IngestResponse, documents: seq<DocumentRow>, chunks: seq<ChunkRow>)

  function NewDocument(req: IngestRequest, u: Upload, env: IngestEnv): DocumentRow
  {
    DocumentRow(env.uniqueId(0), req.userId, u.name, u.mediaType, u.size, Processing, env.uploadedAt, None,
                if req.metadata == Some("") then None else req.metadata)
  }

  function ChunksOf(text: string, documentId: string, env: IngestEnv): seq<ChunkRow>
  {
    WithEmbeddings(ChunksFrom(Sentences(text), 0, documentId, env.uniqueId, 0), env.embed)
  }

  /** The shape every chunk of a text has: non-blank sentences give `ceil(n / 3)`
      chunks, all owned by the new document. */
  lemma ChunksOfShape(text: string, documentId: string, env: IngestEnv)
    ensures |ChunksOf(text, documentId, env)| == CeilDiv(|Sentences(text)|, 3)
    ensures forall k :: 0 <= k < |ChunksOf(text, documentId, env)| ==> ChunksOf(text, documentId, env)[k].documentId == documentId
  {
    var ss := Sentences(text);
    var built := ChunksFrom(ss, 0, documentId, env.uniqueId, 0);
    ChunksLayout(ss, documentId, env.uniqueId);
    var rows := ChunksOf(text, documentId, env);
    assert |rows| == |built|;
    forall k | 0 <= k < |rows| ensures rows[k].documentId == documentId {
      assert rows[k] == Embedded(built[k], env.embed(k, built[k].content));
    }
  }

  /** The writes after the checks: document insert, chunk insert when there
      are chunks, status update. A throw at any statement ends the request
      with 500 and keeps the writes made before it. */
  function Store(docs: seq<DocumentRow>, chunks: seq<ChunkRow>, doc: DocumentRow, rows: seq<ChunkRow>, env: IngestEnv): IngestEffect
  {
    var docErr := DocumentInsertError(docs, doc, env.documentFault);
    if docErr.Some? then IngestEffect(IngestResponse(500, ErrorBody(docErr.value)), docs, chunks)
    else
      var docs1 := docs + [doc];
      var rowsErr := if |rows| > 0 then ChunksInsertError(docs1, rows, env.chunksFault) else None;
      if rowsErr.Some? then IngestEffect(IngestResponse(500, ErrorBody(rowsErr.value)), docs1, chunks)
      else
        var chunks1 := chunks + rows;
        if env.updateFault.Some? then IngestEffect(IngestResponse(500, ErrorBody(env.updateFault.value)), docs1, chunks1)
        else IngestEffect(IngestResponse(200, Processed(doc.id, |rows|)), MarkCompleted(docs1, doc.id, env.processedAt), chunks1)
  }

  /** The whole handler: the checks, then the chunks of the extracted text are
      built and embedded between the document insert and the chunk insert. */
  function Outcome(docs: seq<DocumentRow>, chunks: seq<ChunkRow>, req: IngestRequest, env: IngestEnv): IngestEffect
  {
    match Prepare(req, env)
    case Err(e) => IngestEffect(IngestResponse(400, ErrorBody(e)), docs, chunks)
    case Ok(p) => Store(docs, chunks, NewDocument(req, p.upload, env), ChunksOf(p.text, env.uniqueId(0), env), env)
  }

  /** `POST /process` against the database. */
  method Process(db: Database, req: IngestRequest, env: IngestEnv) returns (resp: IngestResponse)
    requires db.Valid()
    modifies db
    ensures db.Valid()
    ensures var eff := Outcome(old(db.documents), old(db.chunks), req, env);
      resp == eff.response && db.documents == eff.documents && db.chunks == eff.chunks
    ensures db.usageLogs == old(db.usageLogs) && db.quotas == old(db.quotas)
  {
    var prepared := Prepare(req, env);
    if prepared.Err? {
      return IngestResponse(400, ErrorBody(prepared.error));
    }
    var upload := prepared.value.upload;
    var doc := NewDocument(req, upload, env);
    var documentId := doc.id;
    var err := db.InsertDocument(doc, env.documentFault);
    if err.Some? {
      return IngestResponse(500, ErrorBody(err.value));
    }
    var built := BuildChunks(Sentences(prepared.value.text), documentId, env.uniqueId);
    var rows := EmbedChunks(built, env.embed);
    if |rows| > 0 {
      err := db.InsertChunks(rows, env.chunksFault);
      if err.Some? {
        return IngestResponse(500, ErrorBody(err.value));
      }
    }
    err := db.SetCompleted(documentId, env.processedAt, env.updateFault);
    if err.Some? {
      return IngestResponse(500, ErrorBody(err.value));
    }
    resp := IngestResponse(200, Processed(documentId, |rows|));
  }

  // ---------------------------------------------------------------------------
  // `GET /status/:documentId`

  datatype StatusReply =
    | StatusNotFound
    | StatusFailed(error: string)
    | StatusFound(id: string, name: string, status: DocStatus, size: nat, uploadedAt: int,
                  processedAt: Option<int>, chunkCount: nat)

  const NotFoundError := "Document not found"

  /** `SELECT ... WHERE id = documentId LIMIT 1`. */
  function FindDocument(docs: seq<DocumentRow>, id: string): (r: Option<DocumentRow>)
    ensures r.Some? <==> HasDocument(docs, id)
    ensures r.Some? ==> r.value.id == id && r.value in docs
  {
    if |docs| == 0 then None
    else if docs[0].id == id then Some(docs[0])
    else
      var r := FindDocument(docs[1..], id);
      assert HasDocument(docs, id) ==> docs[0].id == id || HasDocument(docs[1..], id) by {
        if HasDocument(docs, id) {
          var i :| 0 <= i < |docs| && docs[i].id == id;
          if i > 0 { assert docs[1..][i - 1] == docs[i]; }
        }
      }
      assert r.Some? ==> HasDocument(docs, id) by {
        if r.Some? {
          var i :| 0 <= i < |docs[1..]| && docs[1..][i].id == id;
          assert docs[i + 1].id == id;
        }
      }
      r
  }

  /** The number of chunk rows of a document. */
  function CountChunks(chunks: seq<ChunkRow>, id: string): (n: nat)
    ensures n <= |chunks|
  {
    if |chunks| == 0 then 0
    else CountChunks(chunks[..|chunks| - 1], id) + (if chunks[|chunks| - 1].documentId == id then 1 else 0)
  }

  lemma {:induction false} CountChunksAppend(a: seq<ChunkRow>, b: seq<ChunkRow>, id: string)
    ensures CountChunks(a + b, id) == CountChunks(a, id) + CountChunks(b, id)
    decreases |b|
  {
    if |b| == 0 {
      assert a + b == a;
    } else {
      assert (a + b)[..|a + b| - 1] == a + b[..|b| - 1];
      CountChunksAppend(a, b[..|b| - 1], id);
    }
  }

  lemma {:induction false} CountChunksAll(rows: seq<ChunkRow>, id: string)
    requires forall k :: 0 <= k < |rows| ==> rows[k].documentId == id
    ensures CountChunks(rows, id) == |rows|
  {
    if |rows| > 0 {
      CountChunksAll(rows[..|rows| - 1], id);
    }
  }

  lemma {:induction false} CountChunksNone(rows: seq<ChunkRow>, id: string)
    requires forall k :: 0 <= k < |rows| ==> rows[k].documentId != id
    ensures CountChunks(rows, id) == 0
  {
    if |rows| > 0 {
      CountChunksNone(rows[..|rows| - 1], id);
    }
  }

  function Status(docs: seq<DocumentRow>, chunks: seq<ChunkRow>, id: string, fault: Option<string>): (r: StatusReply)
    ensures r.StatusNotFound? <==> fault.None? && !HasDocument(docs, id)
    ensures r.StatusFound? ==> r.id == id && r.chunkCount == CountChunks(chunks, id)
  {
    if fault.Some? then StatusFailed(fault.value)
    else match FindDocument(docs, id)
      case None => StatusNotFound
      case Some(d) => StatusFound(d.id, d.name, d.status, d.size, d.uploadedAt, d.processedAt, CountChunks(chunks, id))
  }

  /** HTTP status of a status reply. */
  function StatusCode(r: StatusReply): nat
  {
    match r
    case StatusNotFound => 404
    case StatusFailed(_) => 500
    case StatusFound(_, _, _, _, _, _, _) => 200
  }

  // ---------------------------------------------------------------------------
  // Properties of a whole request

  /** Every 400 comes from the checks, and a rejected request writes nothing. */
  lemma RejectedBeforeWrite(docs: seq<DocumentRow>, chunks: seq<ChunkRow>, req: IngestRequest, env: IngestEnv)
    ensures Outcome(docs, chunks, req, env).response.status == 400 <==> Prepare(req, env).Err?
    ensures Prepare(req, env).Err? ==>
      Outcome(docs, chunks, req, env) == IngestEffect(IngestResponse(400, ErrorBody(Prepare(req, env).error)), docs, chunks)
  {
  }

  /** A request that changes a table carried a user id and a `text/plain` file,
      and it added exactly one document. */
  lemma OnlyPlainTextIsStored(docs: seq<DocumentRow>, chunks: seq<ChunkRow>, req: IngestRequest, env: IngestEnv)
    requires Outcome(docs, chunks, req, env).documents != docs || Outcome(docs, chunks, req, env).chunks != chunks
    ensures Prepare(req, env).Ok? && Prepare(req, env).value.upload.mediaType == "text/plain"
    ensures !IsFalsyFile(req.file) && req.userId != ""
    ensures |Outcome(docs, chunks, req, env).documents| == |docs| + 1
  {
    match Prepare(req, env)
    case Ok(p) =>
      StoreGrows(docs, chunks, NewDocument(req, p.upload, env), ChunksOf(p.text, env.uniqueId(0), env), env);
  }

  /** A store that changes a table has added the document. */
  lemma StoreGrows(docs: seq<DocumentRow>, chunks: seq<ChunkRow>, doc: DocumentRow, rows: seq<ChunkRow>, env: IngestEnv)
    requires Store(docs, chunks, doc, rows, env).documents != docs || Store(docs, chunks, doc, rows, env).chunks != chunks
    ensures |Store(docs, chunks, doc, rows, env).documents| == |docs| + 1
  {
  }

  lemma StoreSuccess(docs: seq<DocumentRow>, chunks: seq<ChunkRow>, doc: DocumentRow, rows: seq<ChunkRow>, env: IngestEnv)
    requires Store(docs, chunks, doc, rows, env).response.status == 200
    ensures var eff := Store(docs, chunks, doc, rows, env);
      && eff.response.body == Processed(doc.id, |rows|)
      && !HasDocument(docs, doc.id)
      && |eff.documents| == |docs| + 1
      && eff.documents[..|docs|] == docs
      && eff.documents[|docs|] == doc.(status := Completed, processedAt := Some(env.processedAt))
      && eff.chunks == chunks + rows
  {
    var eff := Store(docs, chunks, doc, rows, env);
    var docs1 := docs + [doc];
    assert eff.documents == MarkCompleted(docs1, doc.id, env.processedAt);
    forall i | 0 <= i < |docs| ensures eff.documents[i] == docs[i] {
      assert docs1[i] == docs[i];
    }
  }

  /** A successful request adds one completed document and its `ceil(n / 3)`
      chunks, `n` being the number of non-blank sentences. */
  lemma SuccessfulIngest(docs: seq<DocumentRow>, chunks: seq<ChunkRow>, req: IngestRequest, env: IngestEnv)
    requires Outcome(docs, chunks, req, env).response.status == 200
    ensures Prepare(req, env).Ok?
    ensures var eff := Outcome(docs, chunks, req, env);
      var p := Prepare(req, env).value;
      var id := env.uniqueId(0);
      && eff.response.body == Processed(id, CeilDiv(|Sentences(p.text)|, 3))
      && !HasDocument(docs, id)
      && |eff.documents| == |docs| + 1
      && eff.documents[..|docs|] == docs
      && eff.documents[|docs|] == NewDocument(req, p.upload, env).(status := Completed, processedAt := Some(env.processedAt))
      && eff.chunks == chunks + ChunksOf(p.text, id, env)
  {
    var p := Prepare(req, env).value;
    var doc := NewDocument(req, p.upload, env);
    ChunksOfShape(p.text, doc.id, env);
    StoreSuccess(docs, chunks, doc, ChunksOf(p.text, doc.id, env), env);
  }

  /** A throw after the document insert leaves the document `processing`. */
  lemma FailureLeavesProcessing(docs: seq<DocumentRow>, chunks: seq<ChunkRow>, req: IngestRequest, env: IngestEnv)
    requires Outcome(docs, chunks, req, env).response.status == 500
    requires Outcome(docs, chunks, req, env).documents != docs
    ensures Prepare(req, env).Ok?
    ensures var eff := Outcome(docs, chunks, req, env);
      && eff.documents == docs + [NewDocument(req, Prepare(req, env).value.upload, env)]
      && eff.documents[|docs|].status == Processing
      && eff.response.body.ErrorBody?
  {
  }

  /** After a successful request on a consistent database, the status route
      reports the new document as completed with as many chunks as created. */
  lemma IngestThenStatus(docs: seq<DocumentRow>, chunks: seq<ChunkRow>, req: IngestRequest, env: IngestEnv)
    requires DistinctIds(docs) && ChunksReferenceDocuments(docs, chunks)
    requires Outcome(docs, chunks, req, env).response.status == 200
    ensures var eff := Outcome(docs, chunks, req, env);
      var id := eff.response.body.documentId;
      var st := Status(eff.documents, eff.chunks, id, None);
      && st.StatusFound?
      && st.status == Completed
      && st.processedAt == Some(env.processedAt)
      && st.chunkCount == eff.response.body.chunksCreated
  {
    var eff := Outcome(docs, chunks, req, env);
    var p := Prepare(req, env).value;
    var id := env.uniqueId(0);
    SuccessfulIngest(docs, chunks, req, env);
    var rows := ChunksOf(p.text, id, env);
    ChunksOfShape(p.text, id, env);
    forall k | 0 <= k < |chunks| ensures chunks[k].documentId != id {
      assert HasDocument(docs, chunks[k].documentId);
    }
    CountChunksNone(chunks, id);
    CountChunksAll(rows, id);
    CountChunksAppend(chunks, rows, id);
    DocumentAfterSuccess(docs, eff.documents, id);
  }

  /** In `docs + [d]` with `d` fresh, looking up `d`'s id finds `d`. */
  lemma DocumentAfterSuccess(docs: seq<DocumentRow>, after: seq<DocumentRow>, id: string)
    requires !HasDocument(docs, id)
    requires |after| == |docs| + 1 && after[..|docs|] == docs && after[|docs|].id == id
    ensures FindDocument(after, id) == Some(after[|docs|])
  {
    if |docs| > 0 {
      assert after[0] == docs[0];
      assert after[1..][..|docs| - 1] == docs[1..];
      HasDocumentTail(docs, id);
      DocumentAfterSuccess(docs[1..], after[1..], id);
    }
  }

  lemma HasDocumentTail(docs: seq<DocumentRow>, id: string)
    requires |docs| > 0
    ensures HasDocument(docs[1..], id) ==> HasDocument(docs, id)
  {
    if HasDocument(docs[1..], id) {
      var i :| 0 <= i < |docs[1..]| && docs[1..][i].id == id;
      assert docs[i + 1].id == id;
    }
  }
}
