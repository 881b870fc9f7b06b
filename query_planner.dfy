/** `src/agent/query_planner.py`: table-driven classification of a query into a
    question type and a complexity level, the number of chunks to retrieve for
    them, its keywords, and whether it spans several documents. */
module QueryPlanning {
  import opened Wrappers
  import opened PyStrings
  import opened PySeqs

  datatype QueryType = What | Who | Where | When | How | Why | List | Compare | Summarize | General

  datatype Complexity = Low | Medium | High

  /** `any(pattern in text for pattern in patterns)`. */
  predicate AnyIn(patterns: seq<string>, text: string)
    decreases |patterns|
  {
    patterns != [] && (Contains(text, patterns[0]) || AnyIn(patterns[1..], text))
  }

  /** Some pattern is a substring of the text. */
  lemma {:induction false} AnyInSpec(patterns: seq<string>, text: string)
    ensures AnyIn(patterns, text) <==> exists k :: 0 <= k < |patterns| && Contains(text, patterns[k])
    decreases |patterns|
  {
    if patterns != [] {
      AnyInSpec(patterns[1..], text);
      if !Contains(text, patterns[0]) && exists k :: 0 <= k < |patterns| && Contains(text, patterns[k]) {
        var k :| 0 <= k < |patterns| && Contains(text, patterns[k]);
        assert patterns[1..][k - 1] == patterns[k];
      }
      if AnyIn(patterns[1..], text) {
        var k :| 0 <= k < |patterns[1..]| && Contains(text, patterns[1..][k]);
        assert patterns[1..][k] == patterns[k + 1];
      }
    }
  }

  /** The position of the first row of `table` with a pattern in the text: the loops
      of `_detect_query_type` and `_assess_complexity`. */
  function FirstMatching<L>(table: seq<(L, seq<string>)>, text: string): (r: Option<nat>)
    ensures r.Some? ==> r.value < |table| && AnyIn(table[r.value].1, text)
    ensures forall j :: 0 <= j < |table| && (r.None? || j < r.value) ==> !AnyIn(table[j].1, text)
    decreases |table|
  {
    if table == [] then None
    else if AnyIn(table[0].1, text) then Some(0)
    else
      match FirstMatching(table[1..], text)
      case None => None
      case Some(i) => Some(i + 1)
  }

  /** `question_patterns`, in its iteration order. */
  const QuestionPatterns: seq<(QueryType, seq<string>)> := [
    (What, ["what", "which"]),
    (Who, ["who"]),
    (Where, ["where", "location"]),
    (When, ["when", "date", "time"]),
    (How, ["how"]),
    (Why, ["why", "reason"]),
    (List, ["list", "enumerate", "all"]),
    (Compare, ["compare", "difference", "versus", "vs"]),
    (Summarize, ["summarize", "summary", "overview"])
  ]

  /** `_detect_query_type`, given the lower-cased query. */
  function DetectQueryType(queryLower: string): QueryType {
    match FirstMatching(QuestionPatterns, queryLower)
    case None => General
    case Some(i) => QuestionPatterns[i].0
  }

  /** The first matching row is the one every earlier row fails. */
  lemma FirstMatchingIs<L>(table: seq<(L, seq<string>)>, text: string, i: nat)
    requires i < |table| && AnyIn(table[i].1, text)
    requires forall j :: 0 <= j < i ==> !AnyIn(table[j].1, text)
    ensures FirstMatching(table, text) == Some(i)
  {
    assert FirstMatching(table, text).Some?;
  }

  lemma QuestionTypesNotGeneral()
    ensures forall i :: 0 <= i < |QuestionPatterns| ==> QuestionPatterns[i].0 != General
  {
  }

  /** The type is that of the first row with a pattern in the query, and `General`
      exactly when no row has one. */
  lemma DetectQueryTypeSpec(queryLower: string)
    ensures DetectQueryType(queryLower) == General <==>
      forall i :: 0 <= i < |QuestionPatterns| ==> !AnyIn(QuestionPatterns[i].1, queryLower)
    ensures forall i :: (0 <= i < |QuestionPatterns| && AnyIn(QuestionPatterns[i].1, queryLower) &&
                         (forall j :: 0 <= j < i ==> !AnyIn(QuestionPatterns[j].1, queryLower)))
                        ==> DetectQueryType(queryLower) == QuestionPatterns[i].0
  {
    var r := FirstMatching(QuestionPatterns, queryLower);
    if r.Some? {
      QuestionTypesNotGeneral();
      assert AnyIn(QuestionPatterns[r.value].1, queryLower);
    }
    forall i | 0 <= i < |QuestionPatterns| && AnyIn(QuestionPatterns[i].1, queryLower) &&
               (forall j :: 0 <= j < i ==> !AnyIn(QuestionPatterns[j].1, queryLower))
      ensures DetectQueryType(queryLower) == QuestionPatterns[i].0
    {
      FirstMatchingIs(QuestionPatterns, queryLower, i);
    }
  }

  /** The indicator table of `_assess_complexity`, in its iteration order. */
  const ComplexityIndicators: seq<(Complexity, seq<string>)> := [
    (High, ["compare", "analyze", "explain", "relationship", "how does"]),
    (Medium, ["list", "describe", "what are", "tell me about"]),
    (Low, ["what is", "where", "when", "who"])
  ]

  /** `_assess_complexity`. */
  function AssessComplexity(query: string): Complexity {
    match FirstMatching(ComplexityIndicators, Lower(query))
    case Some(i) => ComplexityIndicators[i].0
    case None => if |Split(query)| > 10 then High else Medium
  }

  /** The level is that of the first row with an indicator in the lower-cased query;
      with none, a query of more than ten words is `High` and any other `Medium`. */
  lemma AssessComplexitySpec(query: string)
    ensures forall i :: (0 <= i < |ComplexityIndicators| && AnyIn(ComplexityIndicators[i].1, Lower(query)) &&
                         (forall j :: 0 <= j < i ==> !AnyIn(ComplexityIndicators[j].1, Lower(query))))
                        ==> AssessComplexity(query) == ComplexityIndicators[i].0
    ensures (forall i :: 0 <= i < |ComplexityIndicators| ==> !AnyIn(ComplexityIndicators[i].1, Lower(query))) ==>
      AssessComplexity(query) == (if |Split(query)| > 10 then High else Medium)
  {
    forall i | 0 <= i < |ComplexityIndicators| && AnyIn(ComplexityIndicators[i].1, Lower(query)) &&
               (forall j :: 0 <= j < i ==> !AnyIn(ComplexityIndicators[j].1, Lower(query)))
      ensures AssessComplexity(query) == ComplexityIndicators[i].0
    {
      FirstMatchingIs(ComplexityIndicators, Lower(query), i);
    }
  }

  /** `base_counts`. */
  function BaseCount(complexity: Complexity): nat {
    match complexity
    case Low => 3
    case Medium => 5
    case High => 8
  }

  /** `_determine_chunk_count`. */
  function DetermineChunkCount(queryType: QueryType, complexity: Complexity): nat {
    var count := BaseCount(complexity) + (if queryType in {List, Compare, Summarize} then 2 else 0);
    if count < 10 then count else 10
  }

  function Rank(c: Complexity): nat {
    match c
    case Low => 0
    case Medium => 1
    case High => 2
  }

  /** The chunk count is capped at 10 and so is one of 3, 5, 7, 8 or 10; it grows
      with the complexity, and a list, comparison or summary never gets fewer
      chunks than another query of the same complexity. */
  lemma ChunkCountFacts(queryType: QueryType, complexity: Complexity, other: Complexity)
    ensures DetermineChunkCount(queryType, complexity) in {3, 5, 7, 8, 10}
    ensures Rank(complexity) <= Rank(other) ==>
      DetermineChunkCount(queryType, complexity) <= DetermineChunkCount(queryType, other)
    ensures queryType in {List, Compare, Summarize} ==>
      DetermineChunkCount(queryType, complexity) >= DetermineChunkCount(General, complexity)
  {
  }

  /** `\w` over ASCII: letters, digits and the underscore. */
  predicate IsWordChar(c: char) {
    'a' <= c <= 'z' || 'A' <= c <= 'Z' || '0' <= c <= '9' || c == '_'
  }

  /** The longest prefix of `s` made of word characters. */
  function WordPrefix(s: string): (w: string)
    ensures |w| <= |s| && w == s[..|w|]
    ensures s != "" && IsWordChar(s[0]) ==> w != ""
    decreases |s|
  {
    if s != "" && IsWordChar(s[0]) then [s[0]] + WordPrefix(s[1..]) else ""
  }

  /** `re.findall(r'\b\w+\b', s)`: the maximal runs of word characters, in order. */
  function WordRuns(s: string): seq<string>
    decreases |s|
  {
    if s == "" then []
    else if !IsWordChar(s[0]) then WordRuns(s[1..])
    else
      var w := WordPrefix(s);
      [w] + WordRuns(s[|w|..])
  }

  /** A string of word characters only. */
  predicate IsWord(w: string) {
    w != "" && forall k :: 0 <= k < |w| ==> IsWordChar(w[k])
  }

  lemma {:induction false} WordPrefixWord(s: string)
    requires s != "" && IsWordChar(s[0])
    ensures IsWord(WordPrefix(s))
    ensures |WordPrefix(s)| < |s| ==> !IsWordChar(s[|WordPrefix(s)|])
    decreases |s|
  {
    if |s| > 1 && IsWordChar(s[1]) {
      WordPrefixWord(s[1..]);
    }
  }

  /** Each token is a non-empty run of word characters. */
  lemma {:induction false} WordRunsShape(s: string)
    ensures forall k :: 0 <= k < |WordRuns(s)| ==> IsWord(WordRuns(s)[k])
    decreases |s|
  {
    if s != "" {
      if !IsWordChar(s[0]) {
        WordRunsShape(s[1..]);
      } else {
        var w := WordPrefix(s);
        WordPrefixWord(s);
        WordRunsShape(s[|w|..]);
        var runs := WordRuns(s);
        forall k | 0 <= k < |runs| ensures IsWord(runs[k]) {
          if k > 0 {
            assert runs[k] == WordRuns(s[|w|..])[k - 1];
          }
        }
      }
    }
  }

  /** The stop words of `_extract_keywords`. */
  const StopWords: set<string> := {
    "what", "is", "are", "the", "a", "an", "in", "on", "at",
    "to", "for", "of", "with", "by", "from", "about", "tell", "me"
  }

  predicate IsKeyword(w: string) {
    w !in StopWords && |w| > 2
  }

  /** The keywords before the cut to ten. */
  function CandidateKeywords(query: string): seq<string> {
    Filter(WordRuns(Lower(query)), IsKeyword)
  }

  /** `_extract_keywords`. */
  function ExtractKeywords(query: string): seq<string> {
    SliceTo(CandidateKeywords(query), 10)
  }

  /** The first ten candidates (all of them when there are ten or fewer), each a
      word token of the lower-cased query that is not a stop word and is longer
      than two characters, taken in query order. */
  lemma ExtractKeywordsSpec(query: string)
    ensures |ExtractKeywords(query)| == if |CandidateKeywords(query)| <= 10 then |CandidateKeywords(query)| else 10
    ensures ExtractKeywords(query) == CandidateKeywords(query)[..|ExtractKeywords(query)|]
    ensures |CandidateKeywords(query)| <= 10 ==> ExtractKeywords(query) == CandidateKeywords(query)
    ensures forall k :: 0 <= k < |ExtractKeywords(query)| ==>
      var w := ExtractKeywords(query)[k];
      IsKeyword(w) && IsWord(w) && w in WordRuns(Lower(query))
  {
    var candidates := CandidateKeywords(query);
    var runs := WordRuns(Lower(query));
    SliceShape(candidates, 10);
    FilterSpec(runs, IsKeyword);
    WordRunsShape(Lower(query));
    forall k | 0 <= k < |ExtractKeywords(query)|
      ensures IsKeyword(ExtractKeywords(query)[k]) && IsWord(ExtractKeywords(query)[k])
      ensures ExtractKeywords(query)[k] in runs
    {
      var w := ExtractKeywords(query)[k];
      assert w == candidates[k];
      assert w in candidates;
      var j :| 0 <= j < |runs| && runs[j] == w;
    }
  }

  /** The indicators of `_requires_multi_document`. */
  const MultiDocIndicators: seq<string> := ["compare", "both", "all documents", "across", "different", "versus", "vs"]

  /** `_requires_multi_document`, given the lower-cased query. */
  function RequiresMultiDocument(queryLower: string): bool {
    AnyIn(MultiDocIndicators, queryLower)
  }

  lemma RequiresMultiDocumentSpec(queryLower: string)
    ensures RequiresMultiDocument(queryLower) <==>
      exists k :: 0 <= k < |MultiDocIndicators| && Contains(queryLower, MultiDocIndicators[k])
  {
    AnyInSpec(MultiDocIndicators, queryLower);
  }

  /** The plan dictionary. */
  datatype Plan = Plan(
    queryType: QueryType,
    complexity: Complexity,
    maxChunks: nat,
    keywords: seq<string>,
    mode: string,
    requiresMultiDoc: bool,
    requiresSynthesis: bool)

  /** `plan`. The type and the multi-document flag look at the lower-cased query;
      complexity and keywords are given the query as typed and lower-case it
      themselves. */
  function MakePlan(query: string, mode: string): Plan {
    var queryLower := Lower(query);
    var queryType := DetectQueryType(queryLower);
    var complexity := AssessComplexity(query);
    Plan(queryType, complexity, DetermineChunkCount(queryType, complexity), ExtractKeywords(query),
         mode, RequiresMultiDocument(queryLower), complexity == High)
  }

  /** A plan asks for synthesis exactly when the query is of high complexity, keeps
      the requested mode, asks for 3, 5, 7, 8 or 10 chunks, and has at most ten
      keywords. */
  lemma PlanFacts(query: string, mode: string)
    ensures MakePlan(query, mode).requiresSynthesis <==> MakePlan(query, mode).complexity == High
    ensures MakePlan(query, mode).mode == mode
    ensures MakePlan(query, mode).maxChunks in {3, 5, 7, 8, 10}
    ensures |MakePlan(query, mode).keywords| <= 10
    ensures MakePlan(query, mode).complexity == High && MakePlan(query, mode).queryType in {List, Compare, Summarize}
      ==> MakePlan(query, mode).maxChunks == 10
  {
    var p := MakePlan(query, mode);
    ChunkCountFacts(p.queryType, p.complexity, p.complexity);
    ExtractKeywordsSpec(query);
  }
}
