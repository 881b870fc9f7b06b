# Document intelligence pipeline — a Dafny model

This project models the in-memory retrieval and answer-bookkeeping pipeline of the
document-intelligence-system repository. It has nine modules.

- `TextChunking` (`text_chunker.dfy`) splits each page into blank-line-delimited paragraphs.
  - It packs the paragraphs greedily into buffers bounded by `chunk_size`.
  - It seeds each new buffer with the last `chunk_overlap` characters of the closed one.
  - It drops a final fragment shorter than `min_chunk_size`.
  - It stamps `chunk_id` and `document` on every record.
- `VectorStores` (`vector_store.dfy`) is the store as a class with the fields `chunks`, `fitted` and `isIndexed`.
  - `fitted` stands for the fitted vectorizer and its matrix.
  - The similarity function is a parameter.
  - `search` takes the `top_k` best rows and then drops those under the threshold.
- `Retrieval` (`retriever.dfy`) covers the rest of the retrieval path.
  - It expands the query from a fixed table, first match wins.
  - It over-fetches `2 * max_results` and applies the optional document filter.
  - It reranks with three bounded bonuses and a stable descending sort.
  - It truncates to `max_results` and annotates `relevance_score`.
- `QueryPlanning` (`query_planner.dfy`) holds the table-driven classifiers of the planner: query type, complexity, chunk count, keywords and the multi-document flag.
- `Synthesis` (`response_synthesizer.dfy`) builds the prompt context.
  - It groups chunks by document and formats one block per document.
  - It packs blocks under a character budget, stopping at the first block that does not fit.
  - It also holds the relevance stars, the citation list and the summary line.
- `Agent` (`document_agent.dfy`) is the agent as a class holding its retriever and its conversation history.
  - It covers query routing and the empty-retrieval short-circuit.
  - It covers source aggregation, the confidence formula and the ten-entry history.
  - The language model is a function parameter.
- `PyStrings`, `PySeqs` and `Wrappers` hold the Python behaviour the code relies on.
  - `PyStrings`: `strip`, `split`, ASCII `lower`, `in`, `join` and `str(int)`.
  - `PySeqs`: slicing with negative and clamped bounds, the stable `sort(reverse=True)`, comprehensions and `map`.
  - `Wrappers`: `Option` and `Result`. Python exceptions are `Result` errors: `IndexError` from a stale index, `ZeroDivisionError` from reranking a blank query.

Each loop or in-place update of the source is a `method`. Each method is proved equal to a specification function, and the properties are lemmas about those functions. The exception is the planner's first-match loops over its pattern tables: they return from inside the loop, so they are the recursive function `QueryPlanning.FirstMatching`.

## Model

| member | source | states |
|---|---|---|
| TextChunking.NextBreak | src/processors/text_chunker.py:95 | the leftmost match of the paragraph separator at or after a position, and no match before it |
| TextChunking.SplitOnBlankLines | src/processors/text_chunker.py:95 | `re.split` on the separator yields at least one piece |
| TextChunking.SplitOnBlankLinesShape | src/processors/text_chunker.py:95 | no piece of the split contains a blank line |
| TextChunking.ParagraphText | src/processors/text_chunker.py:96 | stripping a paragraph gives back its non-empty text without the trailing "\n\n" |
| TextChunking.SplitIntoParagraphsShape | src/processors/text_chunker.py:92-96 | every paragraph is a non-empty stripped text followed by "\n\n" with no blank line inside |
| TextChunking.SingleParagraph | src/processors/text_chunker.py:92-96 | a non-blank page without blank lines is the single paragraph `strip(text) + "\n\n"` |
| TextChunking.CreateChunkWellFormed | src/processors/text_chunker.py:98-113 | the record's text is the stripped buffer; `char_count` is its length; `word_count` is the number of its whitespace-separated words, 0 exactly when the text is empty |
| TextChunking.StepFields | src/processors/text_chunker.py:59-79 | one loop step: a paragraph that does not fit closes the buffer, which is recorded only if it is not blank; the next buffer is the overlap seed; the start advances by the seed length minus the overlap; otherwise the paragraph is appended |
| TextChunking.ScanClosedNotBlank | src/processors/text_chunker.py:61-68 | no buffer closed at a split strips to nothing |
| TextChunking.StepHoldsParagraph | src/processors/text_chunker.py:59-79 | after a loop step the buffer holds the paragraph just read, whether it was appended or seeded after a split |
| TextChunking.StepKeepsCovered | src/processors/text_chunker.py:59-79 | a loop step loses no text that is not blank: the buffer closed at a split holding it is not blank, so it is recorded |
| TextChunking.ScanCovers | src/processors/text_chunker.py:59-79 | no paragraph that is not blank is dropped by the packing loop: each is in the remaining buffer or in a buffer closed at a split |
| TextChunking.PackOk | src/processors/text_chunker.py:59-88 | every record of a page is well formed and carries that page's number and source; it is empty only when `min_chunk_size <= 0` lets the final flush record a blank buffer |
| TextChunking.PackFlush | src/processors/text_chunker.py:61-88 | the records are the non-blank buffers closed at splits, in order, each with the start it had then; they are followed by the remaining buffer exactly when its stripped length reaches `min_chunk_size`, otherwise that buffer is dropped |
| TextChunking.PackOrigin | src/processors/text_chunker.py:62-88 | every record of a page carries that page's number and source |
| TextChunking.SeedShape | src/processors/text_chunker.py:71-75 | the new buffer is the last `chunk_overlap` characters plus the paragraph when the closed buffer is longer than the overlap; the whole buffer plus the paragraph when the overlap is 0 (`s[-0:]`); otherwise just the paragraph |
| TextChunking.ScanBound | src/processors/text_chunker.py:59-79 | with a positive overlap, every buffer stays within max(`chunk_size`, `chunk_overlap` + longest paragraph) |
| TextChunking.PackBound | src/processors/text_chunker.py:59-88 | with a positive overlap, no record's text is longer than max(`chunk_size`, `chunk_overlap` + longest paragraph) |
| TextChunking.ZeroOverlapKeepsWholeBuffer | src/processors/text_chunker.py:71-73 | with overlap 0, two oversized paragraphs end up in one buffer that breaks that bound |
| TextChunking.StepStart | src/processors/text_chunker.py:77 | the start never decreases when 0 <= overlap and 2 * overlap <= `chunk_size` |
| TextChunking.ScanStartMonotone | src/processors/text_chunker.py:57-77 | under the same condition the start and every recorded start stay non-negative |
| TextChunking.PackStartsNonNegative | src/processors/text_chunker.py:57-88 | under the same condition every record's `start_position` is non-negative |
| TextChunking.NegativeStartPosition | src/processors/text_chunker.py:77 | the start is not clamped: chunk size 5 with overlap 4 drives it to -1 |
| TextChunking.ChunkPage | src/processors/text_chunker.py:49-90 | `_chunk_page` returns the records of the page's paragraphs |
| TextChunking.PackStep | src/processors/text_chunker.py:59-79 | one iteration of the paragraph loop moves the buffer, the start and the closed buffers exactly as one `Step` of the specification, and the records built so far stay those of the closed buffers |
| TextChunking.PackParagraphs | src/processors/text_chunker.py:56-88 | the packing loop with its final flush returns exactly `Pack` of the paragraphs |
| TextChunking.AppendPage | src/processors/text_chunker.py:41-45 | the inner loop appends the page's records numbered from the current `chunk_id`, and the counter advances by their number |
| TextChunking.DocumentChunksStamped | src/processors/text_chunker.py:31-47 | records are numbered 0, 1, 2, … in page order within one document; each names the document, has no relevance score and keeps its page record |
| TextChunking.PagesChunksFromOnePage | src/processors/text_chunker.py:34-45 | every record comes from the chunks of one page: no chunk spans two pages |
| TextChunking.DocumentChunkPage | src/processors/text_chunker.py:34-45 | each chunk carries the number of the page it was cut from |
| TextChunking.ChunkDocument | src/processors/text_chunker.py:21-47 | `chunk_document` returns the stamped records of its pages in order |
| TextChunking.CorpusChunkOrigin | src/processors/text_chunker.py:126-134 | every chunk of the corpus names one of the input documents |
| TextChunking.ChunkDocuments | src/processors/text_chunker.py:116-134 | `chunk_documents` returns each document's chunks concatenated in input order |
| VectorStores.Similarities | src/search/vector_store.py:67-70 | one similarity per fitted row |
| VectorStores.RankDescIsRanking | src/search/vector_store.py:73 | the descending argsort lists every row once, best similarity first |
| VectorStores.TopDescending | src/search/vector_store.py:73 | the first `top_k` rows of a ranking keep its order and are valid rows |
| VectorStores.CollectBound | src/search/vector_store.py:75-80 | the loop yields at most one hit per selected row, and every hit reaches the threshold |
| VectorStores.CollectPrefix | src/search/vector_store.py:75-80 | along descending rows the hits are copies of the rows of a prefix, each with its own similarity; every later row is below the threshold |
| VectorStores.ThresholdMonotone | src/search/vector_store.py:75-80 | raising the threshold never adds a hit or an error |
| VectorStores.CollectOk | src/search/vector_store.py:75-80 | when every selected row exists and has a stored chunk, the loop does not fail |
| VectorStores.CollectErrSticks | src/search/vector_store.py:76-79 | once a row raises `IndexError`, the whole search raises it |
| VectorStores.SearchHits | src/search/vector_store.py:73-82 | at most `top_k` hits, all at or above the threshold, non-increasing in score, each a stored chunk with the similarity of its row |
| VectorStores.FreshSearchOk | src/search/vector_store.py:73-80 | a store fitted on its current chunks never fails a search |
| VectorStores.StaleSearchFails | src/search/vector_store.py:76-79 | after `add_chunks([])` on an indexed store, the stale matrix makes a search with `top_k >= 1` raise `IndexError` as soon as the best row reaches the threshold |
| VectorStores.CollectHits | src/search/vector_store.py:75-82 | the result loop of `search` computes `Collect` |
| VectorStores.DocumentNamesBound | src/search/vector_store.py:111 | there are no more distinct documents than chunks, and none only when there are no chunks |
| VectorStores.VectorStore.constructor | src/search/vector_store.py:14-22 | a new store is empty and not indexed |
| VectorStores.VectorStore.AddChunks | src/search/vector_store.py:24-32 | replaces the chunk list wholesale; a non-empty list leaves the store indexed on exactly these chunks; an empty one keeps the old flag and matrix |
| VectorStores.VectorStore.BuildIndex | src/search/vector_store.py:34-44 | refits on the chunk texts unless there are no chunks, and leaves the chunks unchanged |
| VectorStores.VectorStore.Search | src/search/vector_store.py:46-82 | an unindexed store returns no hits; otherwise `Collect` over the first `top_k` rows of a ranking of the similarities; a fresh store never fails; the store is not modified |
| VectorStores.StatsFacts | src/search/vector_store.py:105-112 | `total_chunks` is the chunk count; `documents` is the number of distinct documents, at most the chunk count; the vocabulary size is 0 when not indexed |
| Retrieval.FirstKey | src/search/retriever.py:82-85 | the first table key found in the lower-cased query, with no earlier key found |
| Retrieval.EnhancedQueryCases | src/search/retriever.py:72-87 | no key found leaves the query unchanged; otherwise the expansion of the first key found (address, director, kyc, document) is appended after a space, and only that one |
| Retrieval.EnhanceQuery | src/search/retriever.py:61-87 | the loop of `_enhance_query` returns `EnhancedQuery` |
| Retrieval.LowerBlank | src/search/retriever.py:107 | lower-casing keeps a string blank or non-blank |
| Retrieval.QueryTermsEmpty | src/search/retriever.py:107 | a query has no terms exactly when it is blank |
| Retrieval.TermMatches | src/search/retriever.py:112-119 | no more matched terms than terms |
| Retrieval.AllTermsMatch | src/search/retriever.py:112-119 | when every term occurs in the text, all of them count |
| Retrieval.PhraseHasAllTerms | src/search/retriever.py:107-119 | a text containing the whole lower-cased query contains every term of it |
| Retrieval.FinalScoreBounds | src/search/retriever.py:115-125 | base <= final <= base + 0.35 |
| Retrieval.PhraseMatchScore | src/search/retriever.py:115-125 | a chunk containing the whole query earns the phrase and the full term bonus: base + 0.3 + the length factor |
| Retrieval.TermBonusFull | src/search/retriever.py:119 | all terms matched give a term bonus of exactly 0.1 |
| Retrieval.RerankedSpec | src/search/retriever.py:125-130 | the reranked list is a permutation of the rescored results, sorted by final score, stable among equal scores, each a rescored input |
| Retrieval.ScoreResults | src/search/retriever.py:107-126 | the scoring loop divides by zero on a blank query and otherwise rescores every result in order |
| Retrieval.RerankResults | src/search/retriever.py:89-132 | `_rerank_results` returns an empty input unchanged and otherwise the stably sorted rescored results, or the division error |
| Retrieval.AnnotateHits | src/search/retriever.py:54-57 | every chunk gets `relevance_score` set to its reranked score, in order |
| Retrieval.RetrieveFails | src/search/retriever.py:44-51 | `retrieve` fails exactly when some hit survives the filter and the query is blank, and then with `ZeroDivisionError` |
| Retrieval.FromKeptHit | src/search/retriever.py:44-48 | a rescored kept hit is a rescored search hit |
| Retrieval.RerankedTop | src/search/retriever.py:51-55 | the first `max_results` reranked results are rescored hits, best first |
| Retrieval.RetrieveResults | src/search/retriever.py:37-59 | at most `max_results` chunks and no more than the store found; each a found chunk annotated with its final score; all of the filter document when one is given; scores non-increasing |
| Retrieval.DocumentChunksOfSpec | src/search/retriever.py:144-147 | exactly the stored chunks of that document, in store order and with their multiplicity: none from an empty store, and a chunk stored last is kept last exactly when it is of that document |
| Retrieval.Retriever.constructor | src/search/retriever.py:11-12 | the retriever holds the store it is given |
| Retrieval.Retriever.Retrieve | src/search/retriever.py:14-59 | searches the store for the enhanced query with `top_k = 2 * max_results`, then filters, reranks, truncates and annotates |
| QueryPlanning.AnyInSpec | src/agent/query_planner.py:62-64 | `any(p in text for p in patterns)` holds exactly when some pattern is a substring |
| QueryPlanning.FirstMatching | src/agent/query_planner.py:62-64 | the first table row with a pattern in the text, and no earlier row has one |
| QueryPlanning.FirstMatchingIs | src/agent/query_planner.py:62-64 | a matching row that every earlier row fails is the first match |
| QueryPlanning.QuestionTypesNotGeneral | src/agent/query_planner.py:11-21 | no row of the pattern table is `general` |
| QueryPlanning.DetectQueryTypeSpec | src/agent/query_planner.py:60-65 | the type is that of the first row in table order with a pattern in the query, and `general` exactly when no row matches |
| QueryPlanning.AssessComplexitySpec | src/agent/query_planner.py:67-82 | the level of the first of high, medium, low with an indicator in the lower-cased query; otherwise high iff more than 10 words |
| QueryPlanning.ChunkCountFacts | src/agent/query_planner.py:84-98 | the count is in {3, 5, 7, 8, 10}, grows with complexity, and gets +2, capped at 10, for list, compare and summarize |
| QueryPlanning.WordPrefix | src/agent/query_planner.py:108 | the longest word-character prefix, non-empty when the string starts with a word character |
| QueryPlanning.WordPrefixWord | src/agent/query_planner.py:108 | the prefix is a word, and the character after it is not a word character |
| QueryPlanning.WordRunsShape | src/agent/query_planner.py:108 | every token of `\b\w+\b` is a non-empty run of word characters |
| QueryPlanning.ExtractKeywordsSpec | src/agent/query_planner.py:100-111 | exactly the first 10 (all of them when there are fewer) of the word tokens, in query order, that are not stop words and are longer than 2 |
| QueryPlanning.RequiresMultiDocumentSpec | src/agent/query_planner.py:113-120 | true iff some indicator is a substring of the lower-cased query |
| QueryPlanning.PlanFacts | src/agent/query_planner.py:23-58 | `requires_synthesis` iff high complexity; the mode is echoed; `max_chunks` in {3, 5, 7, 8, 10}; at most 10 keywords |
| Synthesis.FindGroup | src/agent/response_synthesizer-final.py:47 | the position of the document's group, or none exactly when no group has that document |
| Synthesis.AddToGroupsFind | src/agent/response_synthesizer-final.py:46-49 | a new document appends a group holding the chunk; a known one appends the chunk to its group |
| Synthesis.GroupByDocument | src/agent/response_synthesizer-final.py:41-51 | the dictionary loop computes `Grouped` |
| Synthesis.DistinctSpec | src/agent/response_synthesizer-final.py:47-48 | the first-appearance list keeps exactly the input values, once each |
| Synthesis.ChunksOfAbsent | src/agent/response_synthesizer-final.py:41-51 | a document with no chunk has no chunks in its group |
| Synthesis.AddToGroupsKeys | src/agent/response_synthesizer-final.py:47-48 | a new document adds its key at the end; a known one leaves the keys alone |
| Synthesis.AddToGroupsChunks | src/agent/response_synthesizer-final.py:49 | only the chunk's own group gains the chunk, at its end |
| Synthesis.AddToGroupsFlatten | src/agent/response_synthesizer-final.py:49 | one step adds the chunk exactly once to the grouped chunks |
| Synthesis.GroupedKeys | src/agent/response_synthesizer-final.py:41-51 | the group keys are the distinct documents in order of first appearance |
| Synthesis.GroupedKeysDistinct | src/agent/response_synthesizer-final.py:41-51 | no document has two groups, and every document of the input has one |
| Synthesis.GroupedChunks | src/agent/response_synthesizer-final.py:41-51 | each group holds exactly its document's chunks in input order |
| Synthesis.GroupedFlatten | src/agent/response_synthesizer-final.py:41-51 | the groups together are a permutation of the input |
| Synthesis.GroupedSpec | src/agent/response_synthesizer-final.py:41-51 | first-appearance keys, no duplicates, input order within groups, and a permutation of the input |
| Synthesis.RelevanceIndicatorFacts | src/agent/response_synthesizer-final.py:72-80 | at most three stars, nothing but stars, never fewer for a higher score, empty iff the score is below 0.3 |
| Synthesis.FormatDocumentContext | src/agent/response_synthesizer-final.py:53-70 | the loop builds the header and one part per chunk, joined by "\n" |
| Synthesis.DocumentContextShape | src/agent/response_synthesizer-final.py:59-70 | a block opens with "=== name ===\n"; its length is the header plus the parts plus one newline per chunk; with no chunks it is the header alone |
| Synthesis.TakeWithinSpec | src/agent/response_synthesizer-final.py:30-37 | the kept blocks are a prefix whose total length is within the budget, and the next block would overflow it |
| Synthesis.PackBlocksSpec | src/agent/response_synthesizer-final.py:30-39 | the context is a prefix of the blocks joined by "\n\n"; the blocks fit the budget but the joined string may exceed it by the separators; the next block overflows; no blocks give "" |
| Synthesis.BuildContext | src/agent/response_synthesizer-final.py:9-39 | the loop with `break` returns the packed blocks of the grouped chunks |
| Synthesis.FormatSources | src/agent/response_synthesizer-final.py:82-99 | the loop builds one citation line per source, joined by "\n", or "No sources" |
| Synthesis.PageTextNoNewline | src/agent/response_synthesizer-final.py:92-95 | the page text of a citation has no newline |
| Synthesis.SourceLineNoNewline | src/agent/response_synthesizer-final.py:97 | a citation line has no newline when the document name has none |
| Synthesis.CitationsShape | src/agent/response_synthesizer-final.py:82-99 | "No sources" iff there are no sources; otherwise one bullet line per source |
| Synthesis.PageSetBound | src/agent/response_synthesizer-final.py:107-109 | no more (document, page) pairs than chunks |
| Synthesis.SummaryCounts | src/agent/response_synthesizer-final.py:106-111 | for some chunks: 1 <= documents <= pages <= chunks |
| Synthesis.SummaryShape | src/agent/response_synthesizer-final.py:101-111 | the fixed notice iff there are no chunks; otherwise the line opens with "Found " |
| Agent.InsertPageSpec | src/agent/document_agent.py:249-254 | adding a page keeps the list sorted and distinct, holding the old pages and the new one |
| Agent.FindSource | src/agent/document_agent.py:243 | the position of the document's entry, or none exactly when no entry has it |
| Agent.AddSourceFind | src/agent/document_agent.py:242-249 | a new document opens an entry with the chunk's page and relevance; a known one gains the page |
| Agent.ExtractSources | src/agent/document_agent.py:238-260 | the two loops and the sort compute `ExtractedSources` |
| Agent.FirstIndexOf | src/agent/document_agent.py:243-248 | the first chunk of a document |
| Agent.CollectedDocuments | src/agent/document_agent.py:241-249 | entries are the distinct documents in first-appearance order |
| Agent.CollectedEntries | src/agent/document_agent.py:241-255 | every entry has the first chunk's relevance and the sorted distinct pages of its document |
| Agent.ExtractedSourcesSpec | src/agent/document_agent.py:238-260 | one entry per distinct document; pages sorted, distinct and exactly the document's pages; relevance of its first chunk; sorted by relevance, stably |
| Agent.TotalRelevanceBounds | src/agent/document_agent.py:267-269 | the summed relevance lies between n times the lowest and n times the highest |
| Agent.ConfidenceBounds | src/agent/document_agent.py:262-276 | 0 for no chunks; otherwise between lo*0.7 + coverage*0.3 and hi*0.7 + coverage*0.3; coverage is in (0, 1], grows with the count and reaches 1 exactly at 5 chunks |
| Agent.RememberSpec | src/agent/document_agent.py:278-288 | the history keeps min(n + 1, 10) entries, ends with the new one and is a suffix of the old history plus it |
| Agent.DispatchFacts | src/agent/document_agent.py:70-79 | a known mode is echoed by its handler; any other mode goes to the question handler; the dispatch is idempotent |
| Agent.Respond | src/agent/document_agent.py:86-120 | a handler answers from the model on the context and reports the sources, the chunk count, the confidence and its mode |
| Agent.AnswerFacts | src/agent/document_agent.py:56-84 | a retrieval error fails the query; no chunks give the fixed answer with no sources, confidence 0 and the requested mode; otherwise the mode's handler answers |
| Agent.AnswerUsesAtMostTen | src/agent/document_agent.py:53-59 | an answer uses at most ten chunks, because the plan never asks for more |
| Agent.DocumentAgent.constructor | src/agent/document_agent.py:22-33 | the agent starts with its retriever and an empty history |
| Agent.DocumentAgent.AddToHistory | src/agent/document_agent.py:278-288 | appends the interaction and keeps the last ten |
| Agent.DocumentAgent.ProcessQuery | src/agent/document_agent.py:35-84 | retrieves `max_chunks` of the plan with the configured threshold; answers by mode; records the interaction exactly once when chunks were found and never otherwise |
| PyStrings.StripShape | src/processors/text_chunker.py:107 | `strip()` is a slice without whitespace at either end, empty iff the string is blank |
| PyStrings.StripIdempotent | src/processors/text_chunker.py:107 | stripping twice is stripping once |
| PyStrings.StripAppendBlank | src/processors/text_chunker.py:96 | a stripped text followed by whitespace strips back to itself |
| PyStrings.SplitShape | src/processors/text_chunker.py:112 | `split()` is empty iff the string is blank, and each word is a non-empty run without whitespace |
| PyStrings.SplitWordsOccur | src/search/retriever.py:107 | every word of `split()` is a substring of the string |
| PyStrings.Lower | src/search/retriever.py:79 | `lower()` keeps the length and leaves no ASCII capital |
| PyStrings.LowerIdempotent | src/search/retriever.py:79 | lower-casing twice is lower-casing once |
| PyStrings.Contains | src/search/retriever.py:83 | `p in s` holds exactly when `p` occurs in `s` at some index |
| PyStrings.ContainsTrans | src/search/retriever.py:115 | a substring of a substring is a substring |
| PyStrings.JoinNewlines | src/agent/response_synthesizer-final.py:99 | joining newline-free lines with "\n" gives one newline fewer than lines |
| PyStrings.JoinStartsWith | src/agent/response_synthesizer-final.py:70 | a join opens with its first part |
| PyStrings.JoinLength | src/agent/response_synthesizer-final.py:39 | a join is as long as its parts plus one separator between each two |
| PyStrings.NatToStringRoundTrip | src/agent/response_synthesizer-final.py:95 | the decimal digits of a number read back as that number |
| PySeqs.SliceShape | src/agent/document_agent.py:288 | `s[-k:]` is the suffix of the last k elements (all of `s` when shorter); `s[:k]` is the prefix of the first k |
| PySeqs.SortDescSpec | src/agent/document_agent.py:258 | `sort(key, reverse=True)` is a permutation, sorted non-increasing, and stable among equal keys |
| PySeqs.FilterSpec | src/search/retriever.py:45-48 | a filtering comprehension keeps exactly the elements that satisfy the condition |
| PySeqs.FilterAppend | src/search/retriever.py:45-48 | a filtering comprehension keeps order and multiplicity: on a concatenation it gives the kept elements of the first part followed by those of the second |
| PySeqs.FilterSnoc | src/search/retriever.py:45-48 | built element by element: nothing from nothing, and one more element is appended exactly when it satisfies the condition |
| PySeqs.MapAt | src/agent/response_synthesizer-final.py:95 | `map(f, s)` applies `f` at every position |

## Left out

- TF-IDF and cosine similarity are not modelled. This covers the sklearn vectorizer (stop words, feature cap, bigrams, IDF weighting) and `cosine_similarity`. They are replaced by a `Scorer` parameter giving one similarity per fitted row. `fitted` stands for the vectorizer and its matrix.
- The tie order of `np.argsort` among equal similarities is unspecified. `VectorStores.VectorStore.Search` promises only some ranking: every row once, best first. That ranking is returned as a ghost value.
- `VectorStore.save` and `load` are pickle and file I/O, and are not modelled.
- VectorStores.VectorStore.AddChunks: the `ValueError` that `fit_transform` raises when every word of the chunks is a stop word (an empty vocabulary) is not modelled, since the fit is a total `Scorer` parameter. In the source that error leaves the new chunk list in place with the old matrix and `is_indexed` flag.
- The regex split of `_split_into_paragraphs` is modelled by its matches, not by a regex engine. A match is a newline, then whitespace, then a newline, with the greedy `\s*` ending at the last newline of the whitespace run.
- Agent.Confidence: `round(…, 2)` is floating-point formatting. The model states the unrounded formula over `real`.
- Scores and similarities are `real`, not floating point.
- `_call_claude`, the prompts and the Anthropic client are not modelled. This includes the error-message fallback and the API-key check in `__init__`. The model is the `Llm` function parameter, given the handler, the context and the query.
- `get_capabilities` returns a constant list and is not modelled.
- The progress line `chunk_documents` prints is not modelled.
- Agent.DocumentAgent.ProcessQuery: the unused `context` argument is dropped, and so is the `plan` argument the handlers ignore. The four handlers differ only in their prompts, so they share one response shape.
- The history entry's `timestamp` is always `None` and is not stored.
- `lower()` is modelled on ASCII letters only, and `\w` as ASCII letters, digits and `_`. Python's Unicode case mapping and word classes are not modelled.
- The stray closing brackets and duplicated `return` lines of the source are ignored. So is the import of `.response_synthesizer`, which names a different file than `response_synthesizer-final.py`.
- `app.py` is not part of this model: it is UI, session state and timing.
- `src/processors/pdf_processor.py` is not part of this model: it is PDF extraction and file discovery.
- `config.py` is not part of this model beyond its constants `CHUNK_SIZE`, `CHUNK_OVERLAP`, `MIN_CHUNK_SIZE`, `MAX_SEARCH_RESULTS` and `RELEVANCE_THRESHOLD`.
- `chunk.get('relevance_score', 0)` is modelled as an optional score defaulting to 0. The source reads it from a dictionary.
- Behaviour of the code worth noting:
  - `chunk_id` restarts at 0 for each document.
  - `start_position` is never clamped and can go negative (`TextChunking.NegativeStartPosition`).
  - An overlap of 0 seeds the next buffer with the whole closed buffer (`TextChunking.ZeroOverlapKeepsWholeBuffer`).
  - `build_context` checks the budget without counting the "\n\n" separators, so the context can exceed `max_chars` by those separators (`Synthesis.PackBlocksSpec`).
  - `add_chunks([])` on an indexed store keeps the old matrix, which can make a later search raise `IndexError` (`VectorStores.StaleSearchFails`).
