/** DocumentQASystem of 20251215/chatbot_v1.py: a chunk store filled by
    load_document and emptied by clear_documents, the relevance scorer, the
    top-k chunk selector and the deterministic part of ask_question. File
    reading, the text splitter and the language model are parameters. */
module DocumentQA {
  import opened Results
  import opened Text
  import opened Relevance
  import opened Ranking

  /** A chunk record as load_document builds it. */
  datatype Chunk = Chunk(content: string, chunkId: nat, documentName: string, charCount: nat, wordCount: nat)

  /** The doc_info record of a loaded document. */
  datatype DocInfo = DocInfo(
    fileName: string,
    filePath: string,
    loadedAt: string,
    fullText: string,
    chunks: seq<Chunk>,
    totalChunks: nat,
    totalChars: nat,
    totalWords: nat)

  datatype LoaderKind = PdfLoader | DocxLoader | TextLoader

  datatype Confidence = High | Medium | Low

  /** One entry of the `sources` list (the score is kept unrounded). */
  datatype Source = Source(document: string, chunkId: nat, relevanceScore: real, preview: string)

  /** The dictionary ask_question returns; absent keys are None. */
  datatype Response = Response(
    answer: string,
    question: string,
    confidence: Confidence,
    sources: Option<seq<Source>>,
    chunksUsed: Option<nat>,
    documentsSearched: Option<nat>)

  const NoDocumentsToSearch := "No documents loaded! Load documents first."
  const NoDocumentsToAsk := "No documents loaded! Load documents first using load_document()"
  const NoMatchAnswer := "I couldn't find relevant information in the documents to answer this question."
  const ContextSeparator := "\n---\n"
  const PageSeparator := "\n\n"

  // ---------------------------------------------------------------- loading

  /** Path(p).name: the text after the last '/'. */
  function FileName(path: string): string {
    path[LastIndexOf(path, '/') + 1..]
  }

  /** The file name is the longest suffix of the path without a '/'. */
  lemma FileNameIsLastPart(path: string)
    ensures var r := FileName(path);
      && |r| <= |path| && r == path[|path| - |r|..]
      && (forall j :: 0 <= j < |r| ==> r[j] != '/')
      && (|r| < |path| ==> path[|path| - |r| - 1] == '/')
  {
    var i := LastIndexOf(path, '/');
    var r := path[i + 1..];
    assert r == FileName(path);
    assert |r| == |path| - (i + 1);
    forall j | 0 <= j < |r|
      ensures r[j] != '/'
    {
      assert r[j] == path[i + 1 + j];
    }
    if |r| < |path| {
      assert i >= 0 && path[|path| - |r| - 1] == path[i];
    }
  }

  /** Path.suffix of a file name: from the last '.' on, unless that dot is the
      first or the last character, in which case there is no suffix. */
  function Suffix(name: string): (r: string)
    ensures r != [] <==> exists i :: 0 < i < |name| - 1 && name[i] == '.' &&
                                     forall j :: i < j < |name| ==> name[j] != '.'
    ensures r != [] ==> 2 <= |r| < |name| && r == name[|name| - |r|..] && r[0] == '.'
                        && forall k :: 1 <= k < |r| ==> r[k] != '.'
  {
    var i := LastIndexOf(name, '.');
    if 0 < i < |name| - 1 then name[i..] else ""
  }

  /** The loader chosen by the lower-cased suffix; any other suffix is a ValueError. */
  function ClassifyLoader(path: string): (r: Result<LoaderKind>)
    ensures var suffix := Lower(Suffix(FileName(path)));
      && (r == Ok(PdfLoader) <==> suffix == ".pdf")
      && (r == Ok(DocxLoader) <==> suffix == ".docx")
      && (r == Ok(TextLoader) <==> suffix == ".txt")
      && (r.Err? <==> suffix !in {".pdf", ".docx", ".txt"})
      && (r.Err? ==> r.error == ValueError("Unsupported file type: " + suffix))
  {
    var suffix := Lower(Suffix(FileName(path)));
    if suffix == ".pdf" then Ok(PdfLoader)
    else if suffix == ".docx" then Ok(DocxLoader)
    else if suffix == ".txt" then Ok(TextLoader)
    else Err(ValueError("Unsupported file type: " + suffix))
  }

  /** The metadata attached to the chunk at position idx. */
  function MakeChunk(name: string, idx: nat, content: string): Chunk {
    Chunk(content, idx, name, |content|, |Fields(content)|)
  }

  function ChunkMetadata(name: string, texts: seq<string>): seq<Chunk> {
    seq(|texts|, i requires 0 <= i < |texts| => MakeChunk(name, i, texts[i]))
  }

  lemma ChunkMetadataStep(name: string, texts: seq<string>, idx: nat)
    requires idx < |texts|
    ensures ChunkMetadata(name, texts)[..idx + 1] == ChunkMetadata(name, texts)[..idx] + [MakeChunk(name, idx, texts[idx])]
  {
    var m := ChunkMetadata(name, texts);
    assert m[..idx + 1] == m[..idx] + [m[idx]];
  }

  /** A document record as load_document builds it: chunk ids are positions,
      counts match the content, and total_chunks is the number of chunks. */
  ghost predicate WellFormed(d: DocInfo) {
    && d.totalChunks == |d.chunks|
    && d.totalChars == |d.fullText|
    && d.totalWords == |Fields(d.fullText)|
    && forall i :: 0 <= i < |d.chunks| ==> d.chunks[i] == MakeChunk(d.fileName, i, d.chunks[i].content)
  }

  /** The record load_document returns for a file whose loader yields `pages`
      and whose full text the splitter cuts into `split(full_text)`. */
  function NewDocInfo(path: string, pages: seq<string>, split: string -> seq<string>, loadedAt: string): (d: DocInfo)
    ensures WellFormed(d)
    ensures d.fileName == FileName(path) && d.fullText == Join(PageSeparator, pages)
    ensures |d.chunks| == |split(d.fullText)|
    ensures forall i :: 0 <= i < |d.chunks| ==> d.chunks[i].content == split(d.fullText)[i]
  {
    var name := FileName(path);
    var fullText := Join(PageSeparator, pages);
    var texts := split(fullText);
    var chunks := ChunkMetadata(name, texts);
    assert forall i :: 0 <= i < |chunks| ==> chunks[i] == MakeChunk(name, i, texts[i]);
    DocInfo(name, path, loadedAt, fullText, chunks, |chunks|, |fullText|, |Fields(fullText)|)
  }

  /** all_chunks as the concatenation of every document's chunks, in load order. */
  function AllChunksOf(docs: seq<DocInfo>): seq<Chunk> {
    if docs == [] then [] else AllChunksOf(docs[..|docs| - 1]) + docs[|docs| - 1].chunks
  }

  lemma AllChunksOfAppend(docs: seq<DocInfo>, d: DocInfo)
    ensures AllChunksOf(docs + [d]) == AllChunksOf(docs) + d.chunks
  {
    assert (docs + [d])[..|docs|] == docs;
  }

  // ---------------------------------------------------------------- selection

  /** The scorer find_relevant_chunks applies to every chunk. The selection
      below is stated for any scorer, so that its lemmas hold whatever the
      scores are. */
  function ScoreOf(query: string): Chunk -> Result<real> {
    (c: Chunk) => RelevanceScore(query, c.content)
  }

  /** The scoring loop of find_relevant_chunks: every chunk scored in order,
      those scoring above zero kept; a scorer error stops the loop. */
  function ScorePositive(chunks: seq<Chunk>, score: Chunk -> Result<real>): Result<seq<Scored<Chunk>>> {
    if chunks == [] then Ok([])
    else
      match ScorePositive(chunks[..|chunks| - 1], score)
      case Err(e) => Err(e)
      case Ok(kept) =>
        var c := chunks[|chunks| - 1];
        match score(c)
        case Err(e) => Err(e)
        case Ok(v) => Ok(if v > 0.0 then kept + [Scored(c, v)] else kept)
  }

  /** The search over a store with a given scorer: an empty store is a
      ValueError, otherwise the positive-scoring chunks ranked and cut to top_k. */
  function Search(chunks: seq<Chunk>, score: Chunk -> Result<real>, topK: int): Result<seq<Scored<Chunk>>> {
    if chunks == [] then Err(ValueError(NoDocumentsToSearch))
    else
      match ScorePositive(chunks, score)
      case Err(e) => Err(e)
      case Ok(kept) => Ok(Select(kept, topK))
  }

  /** find_relevant_chunks(query, top_k) over the chunk store `chunks`. */
  function RelevantChunks(chunks: seq<Chunk>, query: string, topK: int): Result<seq<Scored<Chunk>>> {
    Search(chunks, ScoreOf(query), topK)
  }

  /** The scoring loop fails exactly when some chunk's score fails, and then
      with the error of the first chunk whose score fails. */
  lemma {:induction false} ScorePositiveErr(chunks: seq<Chunk>, score: Chunk -> Result<real>)
    ensures ScorePositive(chunks, score).Err? <==> exists k :: 0 <= k < |chunks| && score(chunks[k]).Err?
    ensures ScorePositive(chunks, score).Err? ==>
      exists k :: 0 <= k < |chunks| && score(chunks[k]) == Err(ScorePositive(chunks, score).error)
                  && forall j :: 0 <= j < k ==> score(chunks[j]).Ok?
  {
    if chunks != [] {
      var init := chunks[..|chunks| - 1];
      ScorePositiveErr(init, score);
      assert forall k :: 0 <= k < |init| ==> init[k] == chunks[k];
    }
  }

  /** A successful scoring loop keeps exactly the chunks scoring above zero,
      each with its own score. */
  lemma {:induction false} ScorePositiveKept(chunks: seq<Chunk>, score: Chunk -> Result<real>)
    requires ScorePositive(chunks, score).Ok?
    ensures forall k :: 0 <= k < |chunks| ==> score(chunks[k]).Ok?
    ensures forall e :: e in ScorePositive(chunks, score).value ==>
      e.score > 0.0 && e.item in chunks && score(e.item) == Ok(e.score)
    ensures forall k :: 0 <= k < |chunks| && score(chunks[k]).value > 0.0 ==>
      Scored(chunks[k], score(chunks[k]).value) in ScorePositive(chunks, score).value
  {
    if chunks != [] {
      var init := chunks[..|chunks| - 1];
      ScorePositiveKept(init, score);
      assert forall k :: 0 <= k < |init| ==> init[k] == chunks[k];
    }
  }

  /** The kept chunks are in store order: kept[t] is the chunk at a strictly
      increasing position idx[t] of the store, with that chunk's score. */
  lemma {:induction false} ScorePositiveInOrder(chunks: seq<Chunk>, score: Chunk -> Result<real>) returns (idx: seq<nat>)
    requires ScorePositive(chunks, score).Ok?
    ensures var kept := ScorePositive(chunks, score).value;
      && |idx| == |kept|
      && (forall t :: 0 <= t < |idx| ==>
            idx[t] < |chunks| && score(chunks[idx[t]]).Ok? && kept[t] == Scored(chunks[idx[t]], score(chunks[idx[t]]).value))
      && (forall t, u :: 0 <= t < u < |idx| ==> idx[t] < idx[u])
  {
    if chunks == [] {
      idx := [];
    } else {
      var n := |chunks| - 1;
      var init := chunks[..n];
      idx := ScorePositiveInOrder(init, score);
      assert forall k :: 0 <= k < n ==> init[k] == chunks[k];
      if score(chunks[n]).value > 0.0 {
        idx := idx + [n];
      }
    }
  }

  /** One step of the scoring loop. */
  lemma ScorePositiveStep(chunks: seq<Chunk>, i: nat, score: Chunk -> Result<real>)
    requires i < |chunks| && ScorePositive(chunks[..i], score).Ok?
    ensures score(chunks[i]).Err? ==> ScorePositive(chunks[..i + 1], score) == Err(score(chunks[i]).error)
    ensures score(chunks[i]).Ok? ==>
      var kept := ScorePositive(chunks[..i], score).value;
      ScorePositive(chunks[..i + 1], score)
        == Ok(if score(chunks[i]).value > 0.0 then kept + [Scored(chunks[i], score(chunks[i]).value)] else kept)
  {
    assert chunks[..i + 1][..i] == chunks[..i];
  }

  /** An empty store or a scorer error makes the search fail; nothing else does. */
  lemma SearchErrors(chunks: seq<Chunk>, score: Chunk -> Result<real>, topK: int)
    ensures Search(chunks, score, topK).Err? <==>
      chunks == [] || exists k :: 0 <= k < |chunks| && score(chunks[k]).Err?
    ensures chunks == [] ==> Search(chunks, score, topK) == Err(ValueError(NoDocumentsToSearch))
  {
    ScorePositiveErr(chunks, score);
  }

  /** A failed relevance search is either the empty store or a zero divisor:
      some query term survives while some chunk has no word token. */
  lemma RelevantChunksErrors(chunks: seq<Chunk>, query: string, topK: int)
    ensures RelevantChunks(chunks, query, topK).Err? <==>
      chunks == [] || (QueryTerms(query) != [] && exists k :: 0 <= k < |chunks| && Tokens(Lower(chunks[k].content)) == [])
    ensures chunks != [] && RelevantChunks(chunks, query, topK).Err? ==>
      RelevantChunks(chunks, query, topK).error == ZeroDivisionError
  {
    var score := ScoreOf(query);
    SearchErrors(chunks, score, topK);
    ScorePositiveErr(chunks, score);
    assert forall k :: 0 <= k < |chunks| ==> score(chunks[k]) == RelevanceScore(query, chunks[k].content);
  }

  /** What a successful search returns: at most top_k chunks of the store,
      each scoring above zero with its own score, best first. */
  lemma SearchShape(chunks: seq<Chunk>, score: Chunk -> Result<real>, topK: int)
    requires Search(chunks, score, topK).Ok?
    ensures var r := Search(chunks, score, topK).value;
      && |ScorePositive(chunks, score).value| == |PositivePositions(chunks, score)|
      && (topK >= 0 ==> |r| == if topK <= |PositivePositions(chunks, score)| then topK
                               else |PositivePositions(chunks, score)|)
      && (forall e :: e in r ==> e.score > 0.0 && e.item in chunks && score(e.item) == Ok(e.score))
      && SortedDesc(r)
  {
    var kept := ScorePositive(chunks, score).value;
    var r := Select(kept, topK);
    ScorePositiveKept(chunks, score);
    ScorePositiveCount(chunks, score);
    SelectShape(kept, topK);
    forall e | e in r ensures e in kept {
      assert e in multiset(r);
    }
  }

  /** No chunk scoring above zero is left out while a returned chunk scores
      lower. Left-out entries are counted as a multiset difference, so a
      second copy of a returned chunk (the same file loaded twice) is covered. */
  lemma SearchLeftOutNoHigher(chunks: seq<Chunk>, score: Chunk -> Result<real>, topK: int, x: Scored<Chunk>, y: Scored<Chunk>)
    requires Search(chunks, score, topK).Ok?
    requires x in multiset(ScorePositive(chunks, score).value) - multiset(Search(chunks, score, topK).value)
    requires y in Search(chunks, score, topK).value
    ensures x.score <= y.score
  {
    SelectLeftOutNoHigher(ScorePositive(chunks, score).value, topK, x, y);
  }

  /** The positions of the store whose chunk scores above zero. */
  function PositivePositions(chunks: seq<Chunk>, score: Chunk -> Result<real>): set<nat>
  {
    set k: nat | k < |chunks| && score(chunks[k]).Ok? && score(chunks[k]).value > 0.0
  }

  /** A successful scoring loop keeps one entry per store position scoring
      above zero. */
  lemma {:induction false} ScorePositiveCount(chunks: seq<Chunk>, score: Chunk -> Result<real>)
    requires ScorePositive(chunks, score).Ok?
    ensures |ScorePositive(chunks, score).value| == |PositivePositions(chunks, score)|
  {
    if chunks != [] {
      var n := |chunks| - 1;
      var init := chunks[..n];
      ScorePositiveCount(init, score);
      ScorePositiveStep(chunks, n, score);
      assert chunks[..n + 1] == chunks;
      var before := PositivePositions(init, score);
      assert forall k :: 0 <= k < n ==> init[k] == chunks[k];
      if score(chunks[n]).value > 0.0 {
        assert PositivePositions(chunks, score) == before + {n};
        assert n !in before;
      } else {
        assert PositivePositions(chunks, score) == before;
      }
    }
  }

  /** Equal scores keep store order: the returned chunks of any one score are
      the first of the store's kept chunks of that score. */
  lemma SearchStable(chunks: seq<Chunk>, score: Chunk -> Result<real>, topK: int, v: real)
    requires Search(chunks, score, topK).Ok?
    ensures var e := WithScore(Search(chunks, score, topK).value, v);
      |e| <= |WithScore(ScorePositive(chunks, score).value, v)|
      && e == WithScore(ScorePositive(chunks, score).value, v)[..|e|]
  {
    SelectStable(ScorePositive(chunks, score).value, topK, v);
  }

  /** The first returned chunk scores above a threshold exactly when some
      chunk of the store does. */
  lemma SearchTopScore(chunks: seq<Chunk>, score: Chunk -> Result<real>, topK: int, threshold: real)
    requires Search(chunks, score, topK).Ok? && Search(chunks, score, topK).value != []
    requires threshold >= 0.0
    ensures Search(chunks, score, topK).value[0].score > threshold <==>
      exists k :: 0 <= k < |chunks| && score(chunks[k]).Ok? && score(chunks[k]).value > threshold
  {
    var kept := ScorePositive(chunks, score).value;
    var r := Search(chunks, score, topK).value;
    assert r == Select(kept, topK);
    ScorePositiveKept(chunks, score);
    SelectHead(kept, topK);
    if exists k :: 0 <= k < |chunks| && score(chunks[k]).Ok? && score(chunks[k]).value > threshold {
      var k :| 0 <= k < |chunks| && score(chunks[k]).Ok? && score(chunks[k]).value > threshold;
      assert Scored(chunks[k], score(chunks[k]).value) in kept;
    }
    if r[0].score > threshold {
      var k :| 0 <= k < |chunks| && chunks[k] == r[0].item;
    }
  }

  // ---------------------------------------------------------------- answering

  /** One context block: the document and chunk tag, then the content. */
  function ContextPart(c: Chunk): string {
    "[Document: " + c.documentName + ", Chunk " + NatToString(c.chunkId) + "]\n" + c.content + "\n"
  }

  function ContextParts(selected: seq<Scored<Chunk>>): seq<string> {
    seq(|selected|, i requires 0 <= i < |selected| => ContextPart(selected[i].item))
  }

  /** The context handed to the model: the blocks joined by "\n---\n". */
  function Context(selected: seq<Scored<Chunk>>): string {
    Join(ContextSeparator, ContextParts(selected))
  }

  /** Every selected chunk's tagged content reaches the model. */
  lemma ContextHoldsEveryChunk(selected: seq<Scored<Chunk>>, i: nat)
    requires i < |selected|
    ensures Contains(Context(selected), ContextPart(selected[i].item))
    ensures Contains(Context(selected), selected[i].item.content)
  {
    var part := ContextPart(selected[i].item);
    JoinHoldsEachPart(ContextSeparator, ContextParts(selected), i);
    var head := "[Document: " + selected[i].item.documentName + ", Chunk " + NatToString(selected[i].item.chunkId) + "]\n";
    var content := selected[i].item.content;
    ContainsSelf(content);
    ContainsExtended(content, "\n", content);
    assert part == head + (content + "\n");
    assert part[|head|..] == content + "\n";
    ContainsInSuffix(part, |head|, content);
    ContainsTransitive(Context(selected), part, content);
  }

  lemma {:induction false} ContainsTransitive(a: string, b: string, c: string)
    requires Contains(a, b) && Contains(b, c)
    ensures Contains(a, c)
    decreases |a|
  {
    if |b| <= |a| && a[..|b|] == b {
      ContainsExtended(b, a[|b|..], c);
      assert b + a[|b|..] == a;
    } else {
      ContainsTransitive(a[1..], b, c);
      ContainsInSuffix(a, 1, c);
    }
  }

  /** The preview of a source: the first 200 characters and "..." when longer. */
  function Preview(content: string): (p: string)
    ensures |content| <= 200 ==> p == content
    ensures |content| > 200 ==> |p| == 203 && p[..200] == content[..200] && p[200..] == "..."
  {
    if |content| > 200 then content[..200] + "..." else content
  }

  function Sources(selected: seq<Scored<Chunk>>): seq<Source> {
    seq(|selected|, i requires 0 <= i < |selected| =>
      Source(selected[i].item.documentName, selected[i].item.chunkId, selected[i].score, Preview(selected[i].item.content)))
  }

  /** One source per selected chunk, in order, naming its document, its chunk
      id and its score, with the preview of its content. */
  lemma SourcesDescribeSelection(selected: seq<Scored<Chunk>>)
    ensures var r := Sources(selected);
      && |r| == |selected|
      && forall i :: 0 <= i < |r| ==>
           && r[i].document == selected[i].item.documentName
           && r[i].chunkId == selected[i].item.chunkId
           && r[i].relevanceScore == selected[i].score
           && r[i].preview == Preview(selected[i].item.content)
  {
  }

  function ConfidenceOf(topScore: real): Confidence {
    if topScore > 0.5 then High else Medium
  }

  /** ask_question over the given store; `llm(context, question)` is the
      language-model chain, whose failure propagates. */
  function Ask(documents: seq<DocInfo>, chunks: seq<Chunk>, question: string, topK: int,
               showSources: bool, llm: (string, string) -> Result<string>): Result<Response>
  {
    if documents == [] then Err(ValueError(NoDocumentsToAsk))
    else
      match RelevantChunks(chunks, question, topK)
      case Err(e) => Err(e)
      case Ok(selected) =>
        if selected == [] then
          Ok(Response(NoMatchAnswer, question, Low, Some([]), None, None))
        else
          match llm(Context(selected), question)
          case Err(e) => Err(e)
          case Ok(answer) =>
            Ok(Response(answer, question, ConfidenceOf(selected[0].score),
                        if showSources then Some(Sources(selected)) else None,
                        Some(|selected|), Some(|documents|)))
  }

  /** With nothing relevant the answer is the fixed apology with confidence
      'low' and no sources, whatever the model would say: it is not consulted. */
  lemma AskWithoutMatch(documents: seq<DocInfo>, chunks: seq<Chunk>, question: string, topK: int,
                        showSources: bool, llm1: (string, string) -> Result<string>, llm2: (string, string) -> Result<string>)
    requires documents != []
    requires RelevantChunks(chunks, question, topK) == Ok([])
    ensures Ask(documents, chunks, question, topK, showSources, llm1)
         == Ask(documents, chunks, question, topK, showSources, llm2)
         == Ok(Response(NoMatchAnswer, question, Low, Some([]), None, None))
  {
  }

  /** When some chunk is used, confidence is 'high' exactly when some chunk of
      the whole store scores above 0.5, and 'medium' otherwise; chunks_used is
      the number of chunks selected, at most top_k. */
  lemma AskConfidence(documents: seq<DocInfo>, chunks: seq<Chunk>, question: string, topK: int,
                      showSources: bool, llm: (string, string) -> Result<string>)
    requires Ask(documents, chunks, question, topK, showSources, llm).Ok?
    requires Ask(documents, chunks, question, topK, showSources, llm).value.confidence != Low
    ensures var resp := Ask(documents, chunks, question, topK, showSources, llm).value;
      && (resp.confidence == High <==>
            exists k :: 0 <= k < |chunks| && RelevanceScore(question, chunks[k].content).Ok?
                        && RelevanceScore(question, chunks[k].content).value > 0.5)
      && resp.chunksUsed.Some?
      && resp.chunksUsed.value == |RelevantChunks(chunks, question, topK).value|
      && (topK >= 0 ==> resp.chunksUsed.value <= topK)
  {
    var score := ScoreOf(question);
    SearchTopScore(chunks, score, topK, 0.5);
    SearchShape(chunks, score, topK);
    assert forall k :: 0 <= k < |chunks| ==> score(chunks[k]) == RelevanceScore(question, chunks[k].content);
  }

  /** With show_sources, an answer that used chunks lists one source per
      chunk used, each naming a chunk of the store by its document and id,
      with that chunk's own positive score and the preview of its content,
      best first. */
  lemma AskSources(documents: seq<DocInfo>, chunks: seq<Chunk>, question: string, topK: int,
                   llm: (string, string) -> Result<string>)
    requires Ask(documents, chunks, question, topK, true, llm).Ok?
    requires Ask(documents, chunks, question, topK, true, llm).value.confidence != Low
    ensures var resp := Ask(documents, chunks, question, topK, true, llm).value;
      && resp.sources.Some? && resp.chunksUsed == Some(|resp.sources.value|)
      && (forall i :: 0 <= i < |resp.sources.value| ==>
            exists k :: 0 <= k < |chunks|
              && resp.sources.value[i].document == chunks[k].documentName
              && resp.sources.value[i].chunkId == chunks[k].chunkId
              && resp.sources.value[i].preview == Preview(chunks[k].content)
              && RelevanceScore(question, chunks[k].content) == Ok(resp.sources.value[i].relevanceScore)
              && resp.sources.value[i].relevanceScore > 0.0)
      && (forall i, j :: 0 <= i < j < |resp.sources.value| ==>
            resp.sources.value[i].relevanceScore >= resp.sources.value[j].relevanceScore)
  {
    var score := ScoreOf(question);
    var selected := RelevantChunks(chunks, question, topK).value;
    SearchShape(chunks, score, topK);
    SourcesDescribeSelection(selected);
    var src := Sources(selected);
    forall i | 0 <= i < |src|
      ensures exists k :: (0 <= k < |chunks|
              && src[i].document == chunks[k].documentName
              && src[i].chunkId == chunks[k].chunkId
              && src[i].preview == Preview(chunks[k].content)
              && RelevanceScore(question, chunks[k].content) == Ok(src[i].relevanceScore)
              && src[i].relevanceScore > 0.0)
    {
      var k :| 0 <= k < |chunks| && selected[i].item == chunks[k] && score(chunks[k]) == Ok(selected[i].score);
      assert score(chunks[k]) == RelevanceScore(question, chunks[k].content);
    }
  }

  /** Every chunk of the concatenated store sits at its own chunk id within
      the chunks of a loaded document of its name, with counts that match its
      content. */
  lemma {:induction false} ChunksCarryTheirPosition(docs: seq<DocInfo>)
    requires forall d :: d in docs ==> WellFormed(d)
    ensures forall c :: c in AllChunksOf(docs) ==>
      && c.charCount == |c.content| && c.wordCount == |Fields(c.content)|
      && exists d :: d in docs && d.fileName == c.documentName && c.chunkId < |d.chunks| && d.chunks[c.chunkId] == c
    decreases |docs|
  {
    if docs != [] {
      var init := docs[..|docs| - 1];
      var last := docs[|docs| - 1];
      assert forall d :: d in init ==> d in docs;
      ChunksCarryTheirPosition(init);
      assert WellFormed(last);
      forall c | c in AllChunksOf(docs)
        ensures c.charCount == |c.content| && c.wordCount == |Fields(c.content)|
        ensures exists d :: d in docs && d.fileName == c.documentName && c.chunkId < |d.chunks| && d.chunks[c.chunkId] == c
      {
        if c !in AllChunksOf(init) {
          var i :| 0 <= i < |last.chunks| && last.chunks[i] == c;
          assert c == MakeChunk(last.fileName, i, c.content);
        }
      }
    }
  }

  // ---------------------------------------------------------------- the store

  class DocumentQASystem {
    var documents: seq<DocInfo>
    var allChunks: seq<Chunk>

    /** all_chunks always holds the chunks of the loaded documents, in load order. */
    ghost predicate Valid()
      reads this
    {
      && allChunks == AllChunksOf(documents)
      && forall d :: d in documents ==> WellFormed(d)
    }

    /** What the invariant gives a query: each chunk of all_chunks is the
        chunk at its own id in a loaded document of its name. */
    lemma ValidChunksLocated()
      requires Valid()
      ensures forall c :: c in allChunks ==>
        exists d :: d in documents && d.fileName == c.documentName && c.chunkId < |d.chunks| && d.chunks[c.chunkId] == c
    {
      ChunksCarryTheirPosition(documents);
    }

    constructor ()
      ensures Valid() && documents == [] && allChunks == []
    {
      documents := [];
      allChunks := [];
    }

    /** __init__: an empty API key is a ValueError; otherwise an empty store. */
    static method Create(apiKey: string) returns (r: Result<DocumentQASystem>)
      ensures r.Err? <==> apiKey == ""
      ensures r.Ok? ==> fresh(r.value) && r.value.Valid() && r.value.documents == [] && r.value.allChunks == []
    {
      if apiKey == "" {
        return Err(ValueError("API key required! Set ANTHROPIC_API_KEY environment variable or pass api_key parameter"));
      }
      var system := new DocumentQASystem();
      return Ok(system);
    }

    /** load_document: `fileExists` stands for the file-existence check, `pages`
        for what the loader reads and `split` for the text splitter. On success
        the document is appended to `documents` and its chunks, in order, to
        `all_chunks`; on an error nothing changes. */
    method LoadDocument(path: string, fileExists: bool, pages: seq<string>,
                        split: string -> seq<string>, loadedAt: string) returns (r: Result<DocInfo>)
      requires Valid()
      modifies this
      ensures Valid()
      ensures !fileExists ==> r == Err(FileNotFoundError("File not found: " + path))
      ensures fileExists && ClassifyLoader(path).Err? ==> r == Err(ClassifyLoader(path).error)
      ensures r.Ok? <==> fileExists && ClassifyLoader(path).Ok?
      ensures r.Ok? ==> r.value == NewDocInfo(path, pages, split, loadedAt)
                        && documents == old(documents) + [r.value]
                        && allChunks == old(allChunks) + r.value.chunks
      ensures r.Err? ==> documents == old(documents) && allChunks == old(allChunks)
    {
      if !fileExists {
        return Err(FileNotFoundError("File not found: " + path));
      }
      var loader := ClassifyLoader(path);
      if loader.Err? {
        return Err(loader.error);
      }
      var name := FileName(path);
      var fullText := Join(PageSeparator, pages);
      var texts := split(fullText);
      var chunkDicts: seq<Chunk> := [];
      var idx := 0;
      while idx < |texts|
        invariant 0 <= idx <= |texts|
        invariant |chunkDicts| == idx
        invariant chunkDicts == ChunkMetadata(name, texts)[..idx]
        invariant allChunks == old(allChunks) + chunkDicts
        invariant documents == old(documents)
      {
        var chunk := MakeChunk(name, idx, texts[idx]);
        ChunkMetadataStep(name, texts, idx);
        chunkDicts := chunkDicts + [chunk];
        allChunks := allChunks + [chunk];
        idx := idx + 1;
      }
      assert chunkDicts == ChunkMetadata(name, texts);
      var info := DocInfo(name, path, loadedAt, fullText, chunkDicts, |chunkDicts|, |fullText|, |Fields(fullText)|);
      assert info == NewDocInfo(path, pages, split, loadedAt);
      AllChunksOfAppend(documents, info);
      documents := documents + [info];
      r := Ok(info);
    }

    /** clear_documents: both lists become empty. */
    method ClearDocuments()
      modifies this
      ensures Valid() && documents == [] && allChunks == []
    {
      documents := [];
      allChunks := [];
    }

    /** _calculate_relevance_score, with the source's accumulation loops. */
    method CalculateRelevanceScore(query: string, chunkText: string) returns (r: Result<real>)
      ensures r == RelevanceScore(query, chunkText)
    {
      var queryTerms := QueryTerms(query);
      if queryTerms == [] {
        return Ok(0.0);
      }
      var chunkLower := Lower(chunkText);
      var chunkWords := Tokens(chunkLower);
      var score: real := 0.0;
      var i := 0;
      while i < |queryTerms|
        invariant 0 <= i <= |queryTerms|
        invariant score == RawScore(queryTerms[..i], chunkWords, chunkLower)
      {
        var term := queryTerms[i];
        ghost var before := score;
        if Contains(chunkLower, term) {
          score := score + Count(chunkWords, term) as real * 2.0;
        }
        ghost var exact := score - before;
        score := AddPartialMatches(score, term, chunkWords);
        assert exact + 0.5 * PartialMatches(term, chunkWords) as real == TermScore(term, chunkWords, chunkLower);
        RawScoreStep(queryTerms, i, chunkWords, chunkLower);
        i := i + 1;
      }
      assert queryTerms[..i] == queryTerms;
      if |chunkWords| == 0 {
        return Err(ZeroDivisionError);
      }
      r := Ok(Normalize(score, |queryTerms|, |chunkWords|));
    }

    /** The inner loop of _calculate_relevance_score: half a point for every
        word that contains the term or is contained in it. */
    static method AddPartialMatches(score: real, term: string, chunkWords: seq<string>) returns (r: real)
      ensures r == score + 0.5 * PartialMatches(term, chunkWords) as real
    {
      r := score;
      var j := 0;
      while j < |chunkWords|
        invariant 0 <= j <= |chunkWords|
        invariant r == score + 0.5 * PartialMatches(term, chunkWords[..j]) as real
      {
        var word := chunkWords[j];
        PartialMatchesStep(term, chunkWords, j);
        if Contains(word, term) || Contains(term, word) {
          r := r + 0.5;
        }
        j := j + 1;
      }
      assert chunkWords[..j] == chunkWords;
    }

    /** find_relevant_chunks: reads the store and changes nothing. */
    method FindRelevantChunks(query: string, topK: int) returns (r: Result<seq<Scored<Chunk>>>)
      ensures r == RelevantChunks(allChunks, query, topK)
    {
      if allChunks == [] {
        return Err(ValueError(NoDocumentsToSearch));
      }
      var scoredChunks: seq<Scored<Chunk>> := [];
      var i := 0;
      while i < |allChunks|
        invariant 0 <= i <= |allChunks|
        invariant ScorePositive(allChunks[..i], ScoreOf(query)) == Ok(scoredChunks)
      {
        var chunk := allChunks[i];
        var score := CalculateRelevanceScore(query, chunk.content);
        assert ScoreOf(query)(chunk) == score;
        ScorePositiveStep(allChunks, i, ScoreOf(query));
        if score.Err? {
          ScoreErrorPropagates(allChunks, i + 1, ScoreOf(query));
          return Err(score.error);
        }
        if score.value > 0.0 {
          scoredChunks := scoredChunks + [Scored(chunk, score.value)];
        }
        i := i + 1;
      }
      assert allChunks[..i] == allChunks;
      r := Ok(Select(scoredChunks, topK));
    }

    /** Context assembly of ask_question, with the source's append loop. */
    static method BuildContext(selected: seq<Scored<Chunk>>) returns (context: string)
      ensures context == Context(selected)
      ensures forall i :: 0 <= i < |selected| ==> Contains(context, selected[i].item.content)
    {
      var contextParts: seq<string> := [];
      var i := 0;
      while i < |selected|
        invariant 0 <= i <= |selected|
        invariant contextParts == ContextParts(selected[..i])
      {
        contextParts := contextParts + [ContextPart(selected[i].item)];
        i := i + 1;
      }
      assert selected[..i] == selected;
      context := Join(ContextSeparator, contextParts);
      forall i | 0 <= i < |selected| ensures Contains(context, selected[i].item.content) {
        ContextHoldsEveryChunk(selected, i);
      }
    }

    /** ask_question: reads the store and changes nothing. */
    method AskQuestion(question: string, topK: int, showSources: bool,
                       llm: (string, string) -> Result<string>) returns (r: Result<Response>)
      ensures r == Ask(documents, allChunks, question, topK, showSources, llm)
      ensures documents == [] ==> r == Err(ValueError(NoDocumentsToAsk))
    {
      if documents == [] {
        return Err(ValueError(NoDocumentsToAsk));
      }
      var relevant := FindRelevantChunks(question, topK);
      if relevant.Err? {
        return Err(relevant.error);
      }
      var selected := relevant.value;
      if selected == [] {
        return Ok(Response(NoMatchAnswer, question, Low, Some([]), None, None));
      }
      var context := BuildContext(selected);
      var answer := llm(context, question);
      if answer.Err? {
        return Err(answer.error);
      }
      var sources := if showSources then Some(Sources(selected)) else None;
      r := Ok(Response(answer.value, question, ConfidenceOf(selected[0].score), sources,
                       Some(|selected|), Some(|documents|)));
    }
  }

  /** A scorer error on any prefix of the store is an error of the whole loop. */
  lemma {:induction false} ScoreErrorPropagates(chunks: seq<Chunk>, n: nat, score: Chunk -> Result<real>)
    requires n <= |chunks|
    requires ScorePositive(chunks[..n], score).Err?
    ensures ScorePositive(chunks, score) == ScorePositive(chunks[..n], score)
    decreases |chunks| - n
  {
    if n < |chunks| {
      assert chunks[..n + 1][..n] == chunks[..n];
      ScoreErrorPropagates(chunks, n + 1, score);
    } else {
      assert chunks[..n] == chunks;
    }
  }
}
