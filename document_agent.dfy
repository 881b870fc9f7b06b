/** `src/agent/document_agent.py`: the bookkeeping around the language model —
    routing a query to a handler, the citations and the confidence of an answer,
    and the bounded conversation history. The model itself is a parameter. */
module Agent {
  import opened Wrappers
  import opened PyStrings
  import opened PySeqs
  import opened TextChunking
  import opened VectorStores
  import opened Retrieval
  import opened QueryPlanning
  import opened Synthesis

  /** The answer given when retrieval finds nothing. */
  const NotFoundAnswer: string := "I couldn't find relevant information in the documents to answer your question."

  /** How many interactions the history keeps. */
  const HistoryLimit: nat := 10

  /** The four handlers `process_query` dispatches to. */
  datatype Handler = QaHandler | ExtractHandler | SummarizeHandler | CompareHandler

  /** The language model, given the handler whose prompt it answers, the context
      built from the chunks, and the query. */
  type Llm = (Handler, string, string) -> string

  /** The dictionary `process_query` returns; `chunksUsed` is absent from the
      not-found answer. */
  datatype Response = Response(
    answer: string,
    sources: seq<Source>,
    chunksUsed: Option<nat>,
    confidence: real,
    mode: string)

  /** One entry of `conversation_history`. */
  datatype Interaction = Interaction(query: string, response: Response)

  /** The relevance of a chunk, 0 when it carries none. */
  function RelevanceOf(chunk: Chunk): real {
    chunk.relevanceScore.GetOr(0.0)
  }

  // ---------------------------------------------------------------------------
  // _extract_sources

  predicate StrictlyIncreasing(s: seq<int>) {
    forall i, j :: 0 <= i < j < |s| ==> s[i] < s[j]
  }

  /** Adds a page to a sorted list of distinct pages: the set `add` followed, at the
      end, by `sorted`. */
  function InsertPage(pages: seq<int>, p: int): seq<int>
    decreases |pages|
  {
    if pages == [] then [p]
    else if p == pages[0] then pages
    else if p < pages[0] then [p] + pages
    else [pages[0]] + InsertPage(pages[1..], p)
  }

  /** Every element of `s` is above `b`. */
  predicate Above(s: seq<int>, b: int) {
    forall k :: 0 <= k < |s| ==> b < s[k]
  }

  /** The tail of a strictly increasing list is strictly increasing and above its head. */
  lemma TailIncreasing(pages: seq<int>)
    requires pages != [] && StrictlyIncreasing(pages)
    ensures StrictlyIncreasing(pages[1..]) && Above(pages[1..], pages[0])
  {
    var tail := pages[1..];
    forall i, j | 0 <= i < j < |tail| ensures tail[i] < tail[j] {
      assert tail[i] == pages[i + 1] && tail[j] == pages[j + 1];
    }
    forall k | 0 <= k < |tail| ensures pages[0] < tail[k] {
      assert tail[k] == pages[k + 1];
    }
  }

  /** A value below a strictly increasing list can head it. */
  lemma ConsIncreasing(b: int, s: seq<int>)
    requires StrictlyIncreasing(s) && Above(s, b)
    ensures StrictlyIncreasing([b] + s)
  {
    var r := [b] + s;
    forall i, j | 0 <= i < j < |r| ensures r[i] < r[j] {
      assert r[j] == s[j - 1];
      if i > 0 {
        assert r[i] == s[i - 1];
      }
    }
  }

  /** Inserting a value above `b` into a list above `b` keeps it above `b`. */
  lemma {:induction false} InsertPageAbove(pages: seq<int>, p: int, b: int)
    requires Above(pages, b) && b < p
    ensures Above(InsertPage(pages, p), b)
    decreases |pages|
  {
    if pages != [] && p > pages[0] {
      assert Above(pages[1..], b) by {
        forall k | 0 <= k < |pages[1..]| ensures b < pages[1..][k] {
          assert pages[1..][k] == pages[k + 1];
        }
      }
      InsertPageAbove(pages[1..], p, b);
      var rest := InsertPage(pages[1..], p);
      assert InsertPage(pages, p) == [pages[0]] + rest;
      forall k | 0 <= k < |[pages[0]] + rest| ensures b < ([pages[0]] + rest)[k] {
        if k > 0 {
          assert ([pages[0]] + rest)[k] == rest[k - 1];
        }
      }
    }
  }

  lemma {:induction false} InsertPageSpec(pages: seq<int>, p: int)
    requires StrictlyIncreasing(pages)
    ensures StrictlyIncreasing(InsertPage(pages, p))
    ensures forall x :: x in InsertPage(pages, p) <==> x in pages || x == p
    decreases |pages|
  {
    if pages != [] && p > pages[0] {
      var tail := pages[1..];
      TailIncreasing(pages);
      InsertPageSpec(tail, p);
      InsertPageAbove(tail, p, pages[0]);
      ConsIncreasing(pages[0], InsertPage(tail, p));
      assert InsertPage(pages, p) == [pages[0]] + InsertPage(tail, p);
      assert pages == [pages[0]] + tail;
    } else if pages != [] && p < pages[0] {
      TailIncreasing(pages);
      assert Above(pages, p) by {
        forall k | 0 <= k < |pages| ensures p < pages[k] {
          if k > 0 {
            assert pages[k] == pages[1..][k - 1];
          }
        }
      }
      ConsIncreasing(p, pages);
    }
  }

  /** The position of the source of `doc`, if there is one. */
  function FindSource(sources: seq<Source>, doc: string): (r: Option<nat>)
    ensures r.Some? ==> r.value < |sources| && sources[r.value].document == doc
    ensures r.None? ==> forall i :: 0 <= i < |sources| ==> sources[i].document != doc
    decreases |sources|
  {
    if sources == [] then None
    else if sources[0].document == doc then Some(0)
    else
      match FindSource(sources[1..], doc)
      case None => None
      case Some(i) => Some(i + 1)
  }

  /** One step of the first loop of `_extract_sources`: a new document opens an
      entry at the end with the chunk's relevance; the chunk's page joins the pages
      of its document's entry. */
  function AddSource(sources: seq<Source>, c: Chunk): seq<Source>
    decreases |sources|
  {
    if sources == [] then [Source(c.document, [c.pageNumber], RelevanceOf(c))]
    else if sources[0].document == c.document then
      [sources[0].(pages := InsertPage(sources[0].pages, c.pageNumber))] + sources[1..]
    else [sources[0]] + AddSource(sources[1..], c)
  }

  /** The step as the dictionary does it: look the document up, then add the page. */
  lemma {:induction false} AddSourceFind(sources: seq<Source>, c: Chunk)
    ensures FindSource(sources, c.document).None? ==>
      AddSource(sources, c) == sources + [Source(c.document, [c.pageNumber], RelevanceOf(c))]
    ensures FindSource(sources, c.document).Some? ==>
      var i := FindSource(sources, c.document).value;
      AddSource(sources, c) == sources[i := sources[i].(pages := InsertPage(sources[i].pages, c.pageNumber))]
    decreases |sources|
  {
    if sources != [] && sources[0].document != c.document {
      AddSourceFind(sources[1..], c);
      assert sources == [sources[0]] + sources[1..];
    }
  }

  /** The dictionary of sources after the first loop, in insertion order. */
  function CollectedSources(chunks: seq<Chunk>): seq<Source>
    decreases |chunks|
  {
    if chunks == [] then [] else AddSource(CollectedSources(chunks[..|chunks| - 1]), chunks[|chunks| - 1])
  }

  function SourceRelevance(s: Source): real {
    s.relevance
  }

  /** The list `_extract_sources` returns: the entries sorted by relevance, highest
      first, ties in insertion order. */
  function ExtractedSources(chunks: seq<Chunk>): seq<Source> {
    SortDesc(CollectedSources(chunks), SourceRelevance)
  }

  /** `_extract_sources`. The pages are kept sorted and distinct as they are added,
      which is what `sorted(list(pages))` makes of the set at the end. */
  method ExtractSources(chunks: seq<Chunk>) returns (sourceList: seq<Source>)
    ensures sourceList == ExtractedSources(chunks)
  {
    var sources: seq<Source> := [];
    for k := 0 to |chunks|
      invariant sources == CollectedSources(chunks[..k])
    {
      var chunk := chunks[k];
      var doc := chunk.document;
      assert chunks[..k + 1][..k] == chunks[..k];
      ghost var before := sources;
      var found := FindSource(sources, doc);
      if found.None? {
        sources := sources + [Source(doc, [], RelevanceOf(chunk))];
        found := Some(|sources| - 1);
      }
      var i := found.value;
      sources := sources[i := sources[i].(pages := InsertPage(sources[i].pages, chunk.pageNumber))];
      AddSourceFind(before, chunk);
      if FindSource(before, doc).None? {
        assert sources == before + [Source(doc, [chunk.pageNumber], RelevanceOf(chunk))];
      }
    }
    assert chunks[..|chunks|] == chunks;
    sourceList := SortDesc(sources, SourceRelevance);
  }

  /** The position of the first chunk of `doc`. */
  function FirstIndexOf(chunks: seq<Chunk>, doc: string): (r: Option<nat>)
    ensures r.Some? ==> r.value < |chunks| && chunks[r.value].document == doc
    ensures r.Some? ==> forall j :: 0 <= j < r.value ==> chunks[j].document != doc
    ensures r.None? ==> forall j :: 0 <= j < |chunks| ==> chunks[j].document != doc
    decreases |chunks|
  {
    if chunks == [] then None
    else
      var n := |chunks| - 1;
      match FirstIndexOf(chunks[..n], doc)
      case Some(i) => Some(i)
      case None => if chunks[n].document == doc then Some(n) else None
  }

  /** What `_extract_sources` promises of the entry of a document: its pages are the
      document's distinct page numbers in increasing order, and its relevance is that
      of the document's first chunk. */
  ghost predicate EntryOf(chunks: seq<Chunk>, e: Source) {
    FirstIndexOf(chunks, e.document).Some? &&
    e.relevance == RelevanceOf(chunks[FirstIndexOf(chunks, e.document).value]) &&
    StrictlyIncreasing(e.pages) &&
    forall p :: p in e.pages <==> (e.document, p) in PageSet(chunks)
  }

  function SourceDocuments(sources: seq<Source>): seq<string> {
    seq(|sources|, i requires 0 <= i < |sources| => sources[i].document)
  }

  lemma FindSourceDocuments(sources: seq<Source>, doc: string)
    ensures FindSource(sources, doc).None? <==> doc !in SourceDocuments(sources)
  {
    if FindSource(sources, doc).Some? {
      assert SourceDocuments(sources)[FindSource(sources, doc).value] == doc;
    }
  }

  lemma AddSourceDocuments(sources: seq<Source>, c: Chunk)
    ensures SourceDocuments(AddSource(sources, c)) ==
      SourceDocuments(sources) + (if c.document in SourceDocuments(sources) then [] else [c.document])
  {
    FindSourceDocuments(sources, c.document);
    AddSourceFind(sources, c);
  }

  /** The entries are the distinct documents in order of first appearance. */
  lemma {:induction false} CollectedDocuments(chunks: seq<Chunk>)
    ensures SourceDocuments(CollectedSources(chunks)) == Distinct(Documents(chunks))
    decreases |chunks|
  {
    if chunks != [] {
      var init := chunks[..|chunks| - 1];
      CollectedDocuments(init);
      DocumentsInit(chunks);
      AddSourceDocuments(CollectedSources(init), chunks[|chunks| - 1]);
    }
  }

  lemma PageSetStep(chunks: seq<Chunk>)
    requires chunks != []
    ensures PageSet(chunks) ==
      PageSet(chunks[..|chunks| - 1]) + {(chunks[|chunks| - 1].document, chunks[|chunks| - 1].pageNumber)}
  {
    var init := chunks[..|chunks| - 1];
    forall p | p in PageSet(chunks)
      ensures p in PageSet(init) + {(chunks[|chunks| - 1].document, chunks[|chunks| - 1].pageNumber)}
    {
      var k :| 0 <= k < |chunks| && p == (chunks[k].document, chunks[k].pageNumber);
      if k < |init| {
        assert init[k] == chunks[k];
      }
    }
    forall p | p in PageSet(init) ensures p in PageSet(chunks) {
      var k :| 0 <= k < |init| && p == (init[k].document, init[k].pageNumber);
      assert chunks[k] == init[k];
    }
  }

  /** An entry of another document is untouched by a chunk. */
  lemma EntryOfOther(chunks: seq<Chunk>, e: Source)
    requires chunks != [] && e.document != chunks[|chunks| - 1].document
    requires EntryOf(chunks[..|chunks| - 1], e)
    ensures EntryOf(chunks, e)
  {
    PageSetStep(chunks);
  }

  /** The entry of the chunk's document gains the chunk's page. */
  lemma EntryOfSame(chunks: seq<Chunk>, e: Source)
    requires chunks != [] && e.document == chunks[|chunks| - 1].document
    requires EntryOf(chunks[..|chunks| - 1], e)
    ensures EntryOf(chunks, e.(pages := InsertPage(e.pages, chunks[|chunks| - 1].pageNumber)))
  {
    PageSetStep(chunks);
    InsertPageSpec(e.pages, chunks[|chunks| - 1].pageNumber);
  }

  /** The entry a chunk of a new document opens. */
  lemma EntryOfNew(chunks: seq<Chunk>)
    requires chunks != []
    requires chunks[|chunks| - 1].document !in Documents(chunks[..|chunks| - 1])
    ensures var c := chunks[|chunks| - 1]; EntryOf(chunks, Source(c.document, [c.pageNumber], RelevanceOf(c)))
  {
    var init := chunks[..|chunks| - 1];
    var c := chunks[|chunks| - 1];
    PageSetStep(chunks);
    forall k | 0 <= k < |init| ensures init[k].document != c.document {
      assert Documents(init)[k] == init[k].document;
    }
  }

  /** Every entry after the first loop is the entry of its document. */
  lemma {:induction false} CollectedEntries(chunks: seq<Chunk>)
    ensures forall i :: 0 <= i < |CollectedSources(chunks)| ==> EntryOf(chunks, CollectedSources(chunks)[i])
    decreases |chunks|
  {
    if chunks != [] {
      var init := chunks[..|chunks| - 1];
      var c := chunks[|chunks| - 1];
      var s0 := CollectedSources(init);
      var s := CollectedSources(chunks);
      CollectedEntries(init);
      AddSourceFind(s0, c);
      FindSourceDocuments(s0, c.document);
      match FindSource(s0, c.document)
      case None =>
        CollectedDocuments(init);
        DistinctSpec(Documents(init));
        EntryOfNew(chunks);
        forall i | 0 <= i < |s| ensures EntryOf(chunks, s[i]) {
          if i < |s0| {
            assert s[i] == s0[i] && s0[i].document != c.document;
            EntryOfOther(chunks, s0[i]);
          }
        }
      case Some(j) =>
        CollectedDocuments(init);
        DistinctSpec(Documents(init));
        forall i | 0 <= i < |s| ensures EntryOf(chunks, s[i]) {
          if i == j {
            EntryOfSame(chunks, s0[j]);
          } else {
            assert SourceDocuments(s0)[i] != SourceDocuments(s0)[j];
            EntryOfOther(chunks, s0[i]);
          }
        }
    }
  }

  lemma SortedHasDocument(collected: seq<Source>, sorted: seq<Source>, d: string)
    requires multiset(collected) == multiset(sorted)
    requires d in SourceDocuments(collected)
    ensures d in SourceDocuments(sorted)
  {
    var i :| 0 <= i < |collected| && SourceDocuments(collected)[i] == d;
    assert collected[i] in multiset(sorted);
    var j :| 0 <= j < |sorted| && sorted[j] == collected[i];
    assert SourceDocuments(sorted)[j] == d;
  }

  /** `_extract_sources` gives one entry per distinct document — as many entries as
      documents, every document among them — each with its document's sorted
      distinct pages and its first chunk's relevance; the entries are ordered by
      relevance, highest first, and entries of equal relevance keep the order in
      which their documents first appear. */
  lemma ExtractedSourcesSpec(chunks: seq<Chunk>)
    ensures |ExtractedSources(chunks)| == |Distinct(Documents(chunks))|
    ensures forall d :: d in Documents(chunks) ==> d in SourceDocuments(ExtractedSources(chunks))
    ensures forall e :: e in ExtractedSources(chunks) ==> EntryOf(chunks, e)
    ensures SortedDesc(ExtractedSources(chunks), SourceRelevance)
    ensures forall v ::
      KeyFilter(ExtractedSources(chunks), SourceRelevance, v) == KeyFilter(CollectedSources(chunks), SourceRelevance, v)
  {
    var collected := CollectedSources(chunks);
    var sorted := ExtractedSources(chunks);
    SortDescSpec(collected, SourceRelevance);
    CollectedDocuments(chunks);
    CollectedEntries(chunks);
    DistinctSpec(Documents(chunks));
    forall e | e in sorted ensures EntryOf(chunks, e) {
      assert e in multiset(collected);
    }
    forall d | d in Documents(chunks) ensures d in SourceDocuments(sorted) {
      SortedHasDocument(collected, sorted, d);
    }
  }

  // ---------------------------------------------------------------------------
  // _estimate_confidence

  /** The summed relevance of the chunks. */
  function TotalRelevance(chunks: seq<Chunk>): real
    decreases |chunks|
  {
    if chunks == [] then 0.0 else TotalRelevance(chunks[..|chunks| - 1]) + RelevanceOf(chunks[|chunks| - 1])
  }

  /** `min(len(chunks) / 5, 1.0)`. */
  function Coverage(n: nat): real {
    if (n as real) / 5.0 < 1.0 then (n as real) / 5.0 else 1.0
  }

  /** `_estimate_confidence` before rounding. */
  function Confidence(chunks: seq<Chunk>): real {
    if chunks == [] then 0.0
    else TotalRelevance(chunks) / (|chunks| as real) * 0.7 + Coverage(|chunks|) * 0.3
  }

  lemma {:induction false} TotalRelevanceBounds(chunks: seq<Chunk>, lo: real, hi: real)
    requires forall k :: 0 <= k < |chunks| ==> lo <= RelevanceOf(chunks[k]) <= hi
    ensures lo * (|chunks| as real) <= TotalRelevance(chunks) <= hi * (|chunks| as real)
    decreases |chunks|
  {
    if chunks != [] {
      var init := chunks[..|chunks| - 1];
      assert forall k :: 0 <= k < |init| ==> init[k] == chunks[k];
      TotalRelevanceBounds(init, lo, hi);
      var n := |init| as real;
      assert (|chunks| as real) == n + 1.0;
      assert lo * (n + 1.0) == lo * n + lo && hi * (n + 1.0) == hi * n + hi;
    }
  }

  lemma AverageBounds(total: real, n: real, lo: real, hi: real)
    requires n > 0.0 && lo * n <= total <= hi * n
    ensures lo <= total / n <= hi
  {
    assert total / n * n == total;
  }

  /** With the relevance of every chunk between `lo` and `hi`, the confidence lies
      between 0.7·lo and 0.7·hi plus the coverage share, which grows with the number
      of chunks up to 0.3 at five chunks and stays there; no chunks give 0. */
  lemma ConfidenceBounds(chunks: seq<Chunk>, lo: real, hi: real)
    requires forall k :: 0 <= k < |chunks| ==> lo <= RelevanceOf(chunks[k]) <= hi
    ensures chunks == [] ==> Confidence(chunks) == 0.0
    ensures chunks != [] ==>
      lo * 0.7 + Coverage(|chunks|) * 0.3 <= Confidence(chunks) <= hi * 0.7 + Coverage(|chunks|) * 0.3
    ensures 0.0 < Coverage(|chunks| + 1) <= 1.0
    ensures Coverage(|chunks|) <= Coverage(|chunks| + 1)
    ensures Coverage(|chunks|) == 1.0 <==> |chunks| >= 5
  {
    if chunks != [] {
      TotalRelevanceBounds(chunks, lo, hi);
      AverageBounds(TotalRelevance(chunks), |chunks| as real, lo, hi);
    }
  }

  // ---------------------------------------------------------------------------
  // _add_to_history

  /** The history after `_add_to_history`: the entry appended, then only the last
      `HistoryLimit` entries kept. */
  function Remember(history: seq<Interaction>, entry: Interaction): seq<Interaction> {
    var appended := history + [entry];
    if |appended| > HistoryLimit then SliceFrom(appended, -(HistoryLimit as int)) else appended
  }

  /** The new history ends with the new entry, is a suffix of the old history with
      the entry appended, and holds `min(n + 1, 10)` entries. */
  lemma RememberSpec(history: seq<Interaction>, entry: Interaction)
    ensures var h := Remember(history, entry);
      |h| == (if |history| + 1 > HistoryLimit then HistoryLimit else |history| + 1) &&
      h[|h| - 1] == entry &&
      h == (history + [entry])[|history| + 1 - |h|..]
  {
    SliceShape(history + [entry], -(HistoryLimit as int));
  }

  // ---------------------------------------------------------------------------
  // process_query

  /** The handler of a mode; an unknown mode is answered as a question. */
  function HandlerFor(mode: string): Handler {
    if mode == "qa" then QaHandler
    else if mode == "extract" then ExtractHandler
    else if mode == "summarize" then SummarizeHandler
    else if mode == "compare" then CompareHandler
    else QaHandler
  }

  /** The mode a handler writes into its response. */
  function ModeName(h: Handler): string {
    match h
    case QaHandler => "qa"
    case ExtractHandler => "extract"
    case SummarizeHandler => "summarize"
    case CompareHandler => "compare"
  }

  /** A known mode is echoed in the response; any other mode answers as "qa". */
  lemma DispatchFacts(mode: string)
    ensures mode in {"qa", "extract", "summarize", "compare"} ==> ModeName(HandlerFor(mode)) == mode
    ensures mode !in {"qa", "extract", "summarize", "compare"} ==> HandlerFor(mode) == QaHandler
    ensures HandlerFor(ModeName(HandlerFor(mode))) == HandlerFor(mode)
  {
  }

  /** The response of a handler (`_answer_question`, `_extract_information`,
      `_summarize`, `_compare`). */
  function HandlerResponse(llm: Llm, h: Handler, query: string, chunks: seq<Chunk>): Response {
    Response(llm(h, Context(chunks, DefaultMaxChars), query), ExtractedSources(chunks), Some(|chunks|),
             Confidence(chunks), ModeName(h))
  }

  /** A handler: build the context, ask the model, and attach sources, count,
      confidence and mode. */
  method Respond(llm: Llm, h: Handler, query: string, chunks: seq<Chunk>) returns (response: Response)
    ensures response == HandlerResponse(llm, h, query, chunks)
  {
    var context := BuildContext(chunks, DefaultMaxChars);
    var responseText := llm(h, context, query);
    var sources := ExtractSources(chunks);
    response := Response(responseText, sources, Some(|chunks|), Confidence(chunks), ModeName(h));
  }

  /** What `process_query` returns for what retrieval returned. */
  function Answer(llm: Llm, query: string, mode: string, retrieved: Result<seq<Chunk>>): Result<Response> {
    match retrieved
    case Err(e) => Err(e)
    case Ok(chunks) =>
      if chunks == [] then Ok(Response(NotFoundAnswer, [], None, 0.0, mode))
      else Ok(HandlerResponse(llm, HandlerFor(mode), query, chunks))
  }

  /** A failed retrieval fails the query; no chunks give the fixed answer with no
      sources, confidence 0 and the requested mode; otherwise the response uses all
      the chunks, cites one entry per document and carries the handler's mode. */
  lemma AnswerFacts(llm: Llm, query: string, mode: string, retrieved: Result<seq<Chunk>>)
    ensures retrieved.Err? ==> Answer(llm, query, mode, retrieved) == Err(retrieved.error)
    ensures retrieved == Ok([]) ==>
      Answer(llm, query, mode, retrieved) == Ok(Response(NotFoundAnswer, [], None, 0.0, mode))
    ensures retrieved.Ok? && retrieved.value != [] ==>
      var r := Answer(llm, query, mode, retrieved).value;
      r.chunksUsed == Some(|retrieved.value|) &&
      |r.sources| == |Distinct(Documents(retrieved.value))| &&
      (mode in {"qa", "extract", "summarize", "compare"} ==> r.mode == mode) &&
      (mode !in {"qa", "extract", "summarize", "compare"} ==> r.mode == "qa")
  {
    if retrieved.Ok? && retrieved.value != [] {
      ExtractedSourcesSpec(retrieved.value);
    }
  }

  /** A query answered from retrieval uses at most ten chunks: the plan asks for at
      most ten. */
  lemma AnswerUsesAtMostTen(llm: Llm, query: string, mode: string, hits: seq<Hit>, r: Response)
    requires Answer(llm, query, mode, RetrieveOutcome(query, Ok(hits), MakePlan(query, mode).maxChunks, None)) == Ok(r)
    ensures r.chunksUsed.Some? ==> r.chunksUsed.value <= 10
  {
    PlanFacts(query, mode);
    var retrieved := RetrieveOutcome(query, Ok(hits), MakePlan(query, mode).maxChunks, None);
    RetrieveResults(query, hits, MakePlan(query, mode).maxChunks, None, retrieved.value);
  }

  class DocumentAgent {
    const retriever: Retriever
    var history: seq<Interaction>

    /** The agent starts with an empty history. The model client and the API key
        check are not part of this model. */
    constructor (r: Retriever)
      ensures retriever == r && history == []
    {
      retriever := r;
      history := [];
    }

    /** `_add_to_history`. */
    method AddToHistory(query: string, response: Response)
      modifies this
      ensures history == Remember(old(history), Interaction(query, response))
    {
      history := history + [Interaction(query, response)];
      if |history| > HistoryLimit {
        history := SliceFrom(history, -(HistoryLimit as int));
      }
    }

    /** `process_query`: plan, retrieve as many chunks as the plan asks for, answer
        through the mode's handler, and remember the interaction unless nothing was
        found. What the store returned and its ranking are ghost results. */
    method ProcessQuery(scorer: Scorer, llm: Llm, query: string, mode: string)
      returns (r: Result<Response>, ghost searched: Result<seq<Hit>>, ghost order: seq<nat>)
      requires retriever.store.Valid()
      modifies this
      ensures !retriever.store.isIndexed ==> searched == Ok([])
      ensures retriever.store.isIndexed ==>
        var sims := Similarities(scorer, EnhancedQuery(query), retriever.store.fitted.value);
        IsRanking(order, sims) &&
        searched == Collect(retriever.store.chunks, sims, SliceTo(order, MakePlan(query, mode).maxChunks * 2), RelevanceThreshold)
      ensures r == Answer(llm, query, mode, RetrieveOutcome(query, searched, MakePlan(query, mode).maxChunks, None))
      ensures history == (if r.Ok? && r.value.chunksUsed.Some?
                          then Remember(old(history), Interaction(query, r.value)) else old(history))
    {
      var queryPlan := MakePlan(query, mode);
      var chunks;
      chunks, searched, order := retriever.Retrieve(scorer, query, queryPlan.maxChunks, RelevanceThreshold, None);
      if chunks.Err? {
        return Err(chunks.error), searched, order;
      }
      if chunks.value == [] {
        return Ok(Response(NotFoundAnswer, [], None, 0.0, mode)), searched, order;
      }
      var handler;
      if mode == "qa" {
        handler := QaHandler;
      } else if mode == "extract" {
        handler := ExtractHandler;
      } else if mode == "summarize" {
        handler := SummarizeHandler;
      } else if mode == "compare" {
        handler := CompareHandler;
      } else {
        handler := QaHandler;
      }
      assert handler == HandlerFor(mode);
      var response := Respond(llm, handler, query, chunks.value);
      AddToHistory(query, response);
      r := Ok(response);
    }
  }
}
