/** `src/search/retriever.py`: a query is expanded with domain terms, sent to the
    vector store for twice as many results as wanted, optionally restricted to one
    document, rescored with bonuses for phrase and term matches and for chunk
    length, re-sorted, and cut to the number wanted, each chunk carrying its final
    score. */
module Retrieval {
  import opened Wrappers
  import opened PyStrings
  import opened PySeqs
  import opened TextChunking
  import opened VectorStores

  /** `MAX_SEARCH_RESULTS` and `RELEVANCE_THRESHOLD` of `config.py`. */
  const MaxSearchResults: int := 8
  const RelevanceThreshold: real := 0.3

  /** The expansion table of `_enhance_query`, in its iteration order. */
  const Enhancements: seq<(string, string)> := [
    ("address", "address registered office location"),
    ("director", "director board member officer"),
    ("kyc", "kyc know your customer verification"),
    ("document", "document form certificate")
  ]

  /** The position of the first key of `table` that occurs in `lowered`. */
  function FirstKey(table: seq<(string, string)>, lowered: string): (r: Option<nat>)
    ensures r.Some? ==> r.value < |table| && Contains(lowered, table[r.value].0)
    ensures forall j :: 0 <= j < |table| && (r.None? || j < r.value) ==> !Contains(lowered, table[j].0)
    decreases |table|
  {
    if table == [] then None
    else if Contains(lowered, table[0].0) then Some(0)
    else
      match FirstKey(table[1..], lowered)
      case None => None
      case Some(i) => Some(i + 1)
  }

  /** The query `_enhance_query` returns. */
  function EnhancedQuery(query: string): string {
    match FirstKey(Enhancements, Lower(query))
    case None => query
    case Some(i) => query + " " + Enhancements[i].1
  }

  /** A query none of whose lower-cased text contains a key is left as it is; otherwise
      the expansion of the first key found, and of that key only, is appended after a
      space. */
  lemma EnhancedQueryCases(query: string)
    ensures (forall i :: 0 <= i < |Enhancements| ==> !Contains(Lower(query), Enhancements[i].0))
      ==> EnhancedQuery(query) == query
    ensures forall i :: (0 <= i < |Enhancements| && Contains(Lower(query), Enhancements[i].0) &&
                         (forall j :: 0 <= j < i ==> !Contains(Lower(query), Enhancements[j].0)))
                        ==> EnhancedQuery(query) == query + " " + Enhancements[i].1
  {
    var r := FirstKey(Enhancements, Lower(query));
    if r.Some? {
      assert Contains(Lower(query), Enhancements[r.value].0);
    }
  }

  /** `_enhance_query`: the loop over the table that stops at the first key found. */
  method EnhanceQuery(query: string) returns (enhanced: string)
    ensures enhanced == EnhancedQuery(query)
  {
    var queryLower := Lower(query);
    enhanced := query;
    for i := 0 to |Enhancements|
      invariant forall j :: 0 <= j < i ==> !Contains(queryLower, Enhancements[j].0)
      invariant enhanced == query
    {
      var (key, expansion) := Enhancements[i];
      if Contains(queryLower, key) {
        enhanced := query + " " + expansion;
        return;
      }
    }
  }

  /** `set(query.lower().split())`. */
  function QueryTerms(query: string): set<string> {
    set t | t in Split(Lower(query))
  }

  /** Lower-casing maps whitespace to whitespace and nothing else to whitespace. */
  lemma LowerBlank(s: string)
    ensures Blank(Lower(s)) <==> Blank(s)
  {
    forall k | 0 <= k < |s| ensures IsSpace(Lower(s)[k]) <==> IsSpace(s[k]) {
      if 'A' <= s[k] <= 'Z' {
        assert 'a' <= Lower(s)[k] <= 'z';
      }
    }
  }

  /** A query has no terms exactly when it is empty or all whitespace. */
  lemma QueryTermsEmpty(query: string)
    ensures QueryTerms(query) == {} <==> Blank(query)
  {
    SplitShape(Lower(query));
    LowerBlank(query);
    if Split(Lower(query)) != [] {
      assert Split(Lower(query))[0] in QueryTerms(query);
    }
  }

  /** The query terms found in the text. */
  function MatchedTerms(terms: set<string>, textLower: string): set<string> {
    set t | t in terms && Contains(textLower, t)
  }

  /** The number of query terms found in the text. */
  function TermMatches(terms: set<string>, textLower: string): (n: nat)
    ensures n <= |terms|
  {
    SubsetCardinality(MatchedTerms(terms, textLower), terms);
    |MatchedTerms(terms, textLower)|
  }

  /** When every term occurs in the text, all of them count. */
  lemma AllTermsMatch(terms: set<string>, textLower: string)
    requires forall t :: t in terms ==> Contains(textLower, t)
    ensures TermMatches(terms, textLower) == |terms|
  {
    assert MatchedTerms(terms, textLower) == terms by {
      forall t | t in terms ensures t in MatchedTerms(terms, textLower) {
      }
    }
  }

  /** Every term of a query is a substring of the lower-cased query, so a text that
      contains the query contains all its terms. */
  lemma PhraseHasAllTerms(query: string, textLower: string)
    requires Contains(textLower, Lower(query))
    ensures TermMatches(QueryTerms(query), textLower) == |QueryTerms(query)|
  {
    SplitWordsOccur(Lower(query));
    forall t | t in QueryTerms(query) ensures Contains(textLower, t) {
      ContainsTrans(t, Lower(query), textLower);
    }
    AllTermsMatch(QueryTerms(query), textLower);
  }

  function RMin(a: real, b: real): real {
    if a <= b then a else b
  }

  /** 0.2 when the text contains the whole lower-cased query. */
  function PhraseBonus(query: string, textLower: string): real {
    if Contains(textLower, Lower(query)) then 0.2 else 0.0
  }

  /** 0.1 times the share of the query terms found in the text. */
  function TermBonus(terms: set<string>, textLower: string): real
    requires terms != {}
  {
    (TermMatches(terms, textLower) as real / |terms| as real) * 0.1
  }

  /** 0.05 times the chunk length in thousands of characters, capped at 1. */
  function LengthFactor(charCount: nat): real {
    RMin(charCount as real / 1000.0, 1.0) * 0.05
  }

  /** The score `_rerank_results` gives a chunk found with similarity `baseScore`. */
  function FinalScore(query: string, chunk: Chunk, baseScore: real): real
    requires QueryTerms(query) != {}
  {
    var textLower := Lower(chunk.text);
    baseScore + PhraseBonus(query, textLower) + TermBonus(QueryTerms(query), textLower) + LengthFactor(chunk.charCount)
  }

  lemma RatioAtMostOne(m: nat, n: nat)
    requires 0 < n && m <= n
    ensures 0.0 <= m as real / n as real <= 1.0
  {
  }

  lemma TermBonusFull(terms: set<string>, textLower: string)
    requires terms != {} && TermMatches(terms, textLower) == |terms|
    ensures TermBonus(terms, textLower) == 0.1
  {
    var n := |terms| as real;
    assert n / n == 1.0;
  }

  /** Reranking only adds: at most 0.2 for the phrase, 0.1 for the terms and 0.05
      for the length. */
  lemma FinalScoreBounds(query: string, chunk: Chunk, baseScore: real)
    requires QueryTerms(query) != {}
    ensures baseScore <= FinalScore(query, chunk, baseScore) <= baseScore + 0.35
  {
    var terms := QueryTerms(query);
    RatioAtMostOne(TermMatches(terms, Lower(chunk.text)), |terms|);
    assert 0.0 <= TermBonus(terms, Lower(chunk.text)) <= 0.1;
  }

  /** A chunk containing the whole query contains each of its terms, so it earns the
      full phrase and term bonuses. */
  lemma PhraseMatchScore(query: string, chunk: Chunk, baseScore: real)
    requires QueryTerms(query) != {}
    requires Contains(Lower(chunk.text), Lower(query))
    ensures FinalScore(query, chunk, baseScore) == baseScore + 0.3 + LengthFactor(chunk.charCount)
  {
    PhraseHasAllTerms(query, Lower(chunk.text));
    TermBonusFull(QueryTerms(query), Lower(chunk.text));
  }

  function HitScore(h: Hit): real {
    h.score
  }

  /** A search result with its similarity replaced by its final score. */
  function Rescore(query: string, h: Hit): Hit
    requires QueryTerms(query) != {}
  {
    Hit(h.chunk, FinalScore(query, h.chunk, h.score))
  }

  /** `scored_results` before the sort. */
  function Rescored(query: string, results: seq<Hit>): (scored: seq<Hit>)
    requires QueryTerms(query) != {}
  {
    seq(|results|, k requires 0 <= k < |results| => Rescore(query, results[k]))
  }

  /** What `_rerank_results` returns: an empty list unchanged, `ZeroDivisionError`
      when there are results but the query has no terms, and otherwise the rescored
      results sorted by final score, best first. */
  function RerankOutcome(query: string, results: seq<Hit>): Result<seq<Hit>> {
    if results == [] then Ok([])
    else if QueryTerms(query) == {} then Err(ZeroDivisionError)
    else Ok(SortDesc(Rescored(query, results), HitScore))
  }

  /** The reranked list holds each result once, rescored, sorted by final score, and
      results with equal final scores keep their search order. */
  lemma RerankedSpec(query: string, results: seq<Hit>)
    requires QueryTerms(query) != {}
    ensures |SortDesc(Rescored(query, results), HitScore)| == |results|
    ensures multiset(SortDesc(Rescored(query, results), HitScore)) == multiset(Rescored(query, results))
    ensures SortedDesc(SortDesc(Rescored(query, results), HitScore), HitScore)
    ensures forall v :: KeyFilter(SortDesc(Rescored(query, results), HitScore), HitScore, v)
                     == KeyFilter(Rescored(query, results), HitScore, v)
    ensures forall h :: h in SortDesc(Rescored(query, results), HitScore) ==> FromHit(query, results, h)
  {
    var scored := Rescored(query, results);
    SortDescSpec(scored, HitScore);
    forall h | h in SortDesc(scored, HitScore) ensures FromHit(query, results, h) {
      assert h in multiset(scored);
      var j :| 0 <= j < |scored| && scored[j] == h;
      assert h == Rescore(query, results[j]);
    }
  }

  /** The scoring loop of `_rerank_results`: the first result divides by the number
      of query terms. */
  method ScoreResults(query: string, results: seq<Hit>) returns (r: Result<seq<Hit>>)
    requires results != []
    ensures QueryTerms(query) == {} ==> r == Err(ZeroDivisionError)
    ensures QueryTerms(query) != {} ==> r == Ok(Rescored(query, results))
  {
    var queryTerms := QueryTerms(query);
    var scoredResults: seq<Hit> := [];
    for k := 0 to |results|
      invariant queryTerms != {} || k == 0
      invariant |scoredResults| == k
      invariant forall j :: 0 <= j < k ==> scoredResults[j] == Rescore(query, results[j])
    {
      if |queryTerms| == 0 {
        return Err(ZeroDivisionError);
      }
      var scored := Rescore(query, results[k]);
      scoredResults := scoredResults + [scored];
    }
    assert scoredResults == Rescored(query, results);
    r := Ok(scoredResults);
  }

  /** `_rerank_results`. */
  method RerankResults(query: string, results: seq<Hit>) returns (r: Result<seq<Hit>>)
    ensures r == RerankOutcome(query, results)
  {
    if results == [] {
      return Ok(results);
    }
    var scoredResults := ScoreResults(query, results);
    if scoredResults.Err? {
      return scoredResults;
    }
    r := Ok(SortDesc(scoredResults.value, HitScore));
  }

  /** The `filter_document` step: a non-empty name keeps the results of that
      document only; no name, or an empty one, keeps them all. */
  function KeepDocument(hits: seq<Hit>, filterDocument: Option<string>): seq<Hit> {
    if filterDocument.Some? && filterDocument.value != "" then
      Filter(hits, (h: Hit) => h.chunk.document == filterDocument.value)
    else hits
  }

  /** A result chunk: the chunk with its `relevance_score` set to its final score. */
  function Annotate(h: Hit): Chunk {
    h.chunk.(relevanceScore := Some(h.score))
  }

  function Annotated(hits: seq<Hit>): seq<Chunk> {
    seq(|hits|, k requires 0 <= k < |hits| => Annotate(hits[k]))
  }

  /** The final loop of `retrieve`. */
  method AnnotateHits(hits: seq<Hit>) returns (formattedResults: seq<Chunk>)
    ensures formattedResults == Annotated(hits)
  {
    formattedResults := [];
    for k := 0 to |hits|
      invariant formattedResults == Annotated(hits[..k])
    {
      var chunk := hits[k].chunk.(relevanceScore := Some(hits[k].score));
      formattedResults := formattedResults + [chunk];
    }
    assert hits[..|hits|] == hits;
  }

  /** What `retrieve` returns once the store has answered with `searched`. */
  function RetrieveOutcome(query: string, searched: Result<seq<Hit>>, maxResults: int,
                           filterDocument: Option<string>): Result<seq<Chunk>>
  {
    match searched
    case Err(e) => Err(e)
    case Ok(hits) =>
      match RerankOutcome(query, KeepDocument(hits, filterDocument))
      case Err(e) => Err(e)
      case Ok(reranked) => Ok(Annotated(SliceTo(reranked, maxResults)))
  }

  /** `c` is a search result's chunk, annotated with that result's final score. */
  predicate RescoredFrom(query: string, hits: seq<Hit>, c: Chunk) {
    QueryTerms(query) != {} &&
    exists j :: 0 <= j < |hits| && c == Annotate(Rescore(query, hits[j]))
  }

  /** Reranking fails exactly when some result survives the document filter and the
      query is blank. */
  lemma RetrieveFails(query: string, hits: seq<Hit>, maxResults: int, filterDocument: Option<string>)
    ensures RetrieveOutcome(query, Ok(hits), maxResults, filterDocument).Err? <==>
      KeepDocument(hits, filterDocument) != [] && Blank(query)
    ensures RetrieveOutcome(query, Ok(hits), maxResults, filterDocument).Err? ==>
      RetrieveOutcome(query, Ok(hits), maxResults, filterDocument) == Err(ZeroDivisionError)
  {
    QueryTermsEmpty(query);
  }

  /** `h` is one of `hits`, rescored. */
  predicate FromHit(query: string, hits: seq<Hit>, h: Hit)
    requires QueryTerms(query) != {}
  {
    exists j :: 0 <= j < |hits| && h == Rescore(query, hits[j])
  }

  lemma FromKeptHit(query: string, hits: seq<Hit>, kept: seq<Hit>, h: Hit)
    requires QueryTerms(query) != {}
    requires FromHit(query, kept, h) && forall x :: x in kept ==> x in hits
    ensures FromHit(query, hits, h)
  {
    var j :| 0 <= j < |kept| && h == Rescore(query, kept[j]);
    assert kept[j] in kept;
    var i :| 0 <= i < |hits| && hits[i] == kept[j];
  }

  /** The first `max_results` of the reranked results: rescored results, best first. */
  lemma RerankedTop(query: string, kept: seq<Hit>, maxResults: int)
    requires QueryTerms(query) != {}
    ensures var top := SliceTo(SortDesc(Rescored(query, kept), HitScore), maxResults);
      && |top| <= |kept|
      && (maxResults >= 0 ==> |top| <= maxResults)
      && (forall k :: 0 <= k < |top| ==> FromHit(query, kept, top[k]))
      && SortedDesc(top, HitScore)
  {
    var reranked := SortDesc(Rescored(query, kept), HitScore);
    var top := SliceTo(reranked, maxResults);
    RerankedSpec(query, kept);
    SliceShape(reranked, maxResults);
    forall k | 0 <= k < |top| ensures FromHit(query, kept, top[k]) {
      assert top[k] == reranked[k];
      assert reranked[k] in reranked;
    }
    forall i, j | 0 <= i < j < |top| ensures HitScore(top[i]) >= HitScore(top[j]) {
      assert top[i] == reranked[i] && top[j] == reranked[j];
    }
  }

  /** `retrieve` returns at most `max_results` chunks, never more than the search
      found, all of the filtered document, each a found chunk annotated with its
      final score, best first. */
  lemma RetrieveResults(query: string, hits: seq<Hit>, maxResults: int, filterDocument: Option<string>, out: seq<Chunk>)
    requires RetrieveOutcome(query, Ok(hits), maxResults, filterDocument) == Ok(out)
    ensures maxResults >= 0 ==> |out| <= maxResults
    ensures |out| <= |hits|
    ensures forall k :: 0 <= k < |out| ==> RescoredFrom(query, hits, out[k])
    ensures filterDocument.Some? && filterDocument.value != "" ==>
      forall k :: 0 <= k < |out| ==> out[k].document == filterDocument.value
    ensures forall k :: 0 <= k < |out| ==> out[k].relevanceScore.Some?
    ensures forall i, j :: 0 <= i < j < |out| ==> out[i].relevanceScore.value >= out[j].relevanceScore.value
  {
    var kept := KeepDocument(hits, filterDocument);
    var filtering := filterDocument.Some? && filterDocument.value != "";
    if filtering {
      FilterSpec(hits, (h: Hit) => h.chunk.document == filterDocument.value);
    }
    assert forall x :: x in kept ==> x in hits && (filtering ==> x.chunk.document == filterDocument.value);
    if kept != [] {
      var top := SliceTo(SortDesc(Rescored(query, kept), HitScore), maxResults);
      RerankedTop(query, kept, maxResults);
      assert out == Annotated(top);
      forall k | 0 <= k < |out|
        ensures RescoredFrom(query, hits, out[k])
        ensures filtering ==> out[k].document == filterDocument.value
      {
        FromKeptHit(query, hits, kept, top[k]);
        var i :| 0 <= i < |hits| && top[k] == Rescore(query, hits[i]);
        assert out[k] == Annotate(Rescore(query, hits[i]));
        var j :| 0 <= j < |kept| && top[k] == Rescore(query, kept[j]);
        assert kept[j] in kept;
      }
      forall i, j | 0 <= i < j < |out| ensures out[i].relevanceScore.value >= out[j].relevanceScore.value {
        assert HitScore(top[i]) >= HitScore(top[j]);
      }
    }
  }

  /** `get_document_chunks`: the stored chunks of one document. */
  function DocumentChunksOf(chunks: seq<Chunk>, documentName: string): seq<Chunk> {
    Filter(chunks, (c: Chunk) => c.document == documentName)
  }

  /** Exactly the stored chunks of that document, never more than are stored, in
      store order and with their multiplicity: none from an empty store, and a
      chunk stored after the others comes last exactly when it is of that document. */
  lemma DocumentChunksOfSpec(chunks: seq<Chunk>, documentName: string)
    ensures |DocumentChunksOf(chunks, documentName)| <= |chunks|
    ensures forall c :: c in DocumentChunksOf(chunks, documentName) <==> c in chunks && c.document == documentName
    ensures DocumentChunksOf([], documentName) == []
    ensures forall c :: (DocumentChunksOf(chunks + [c], documentName) ==
      DocumentChunksOf(chunks, documentName) + (if c.document == documentName then [c] else []))
  {
    FilterSpec(chunks, (c: Chunk) => c.document == documentName);
    forall c ensures DocumentChunksOf(chunks + [c], documentName) ==
      DocumentChunksOf(chunks, documentName) + (if c.document == documentName then [c] else [])
    {
      FilterSnoc(chunks, c, (c: Chunk) => c.document == documentName);
    }
  }

  /** `Retriever`, holding the store it searches. */
  class Retriever {
    const store: VectorStore

    constructor (vectorStore: VectorStore)
      ensures store == vectorStore
    {
      store := vectorStore;
    }

    /** `retrieve`. The store's answer and the ranking it used are ghost results. */
    method Retrieve(scorer: Scorer, query: string, maxResults: int, threshold: real,
                    filterDocument: Option<string>)
      returns (r: Result<seq<Chunk>>, ghost searched: Result<seq<Hit>>, ghost order: seq<nat>)
      requires store.Valid()
      ensures !store.isIndexed ==> searched == Ok([])
      ensures store.isIndexed ==>
        var sims := Similarities(scorer, EnhancedQuery(query), store.fitted.value);
        IsRanking(order, sims) && searched == Collect(store.chunks, sims, SliceTo(order, maxResults * 2), threshold)
      ensures r == RetrieveOutcome(query, searched, maxResults, filterDocument)
    {
      var enhancedQuery := EnhanceQuery(query);
      var results;
      results, order := store.Search(scorer, enhancedQuery, maxResults * 2, threshold);
      searched := results;
      if results.Err? {
        return Err(results.error), searched, order;
      }
      var kept := KeepDocument(results.value, filterDocument);
      var reranked := RerankResults(query, kept);
      if reranked.Err? {
        return Err(reranked.error), searched, order;
      }
      var formattedResults := AnnotateHits(SliceTo(reranked.value, maxResults));
      r := Ok(formattedResults);
    }

    /** `get_document_chunks`. */
    function GetDocumentChunks(documentName: string): seq<Chunk>
      reads store
    {
      DocumentChunksOf(store.chunks, documentName)
    }
  }
}
