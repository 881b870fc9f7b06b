/** `src/agent/response_synthesizer-final.py`: the context handed to the language
    model (chunks grouped by document, one formatted block per document, packed
    under a character budget), the citation list and the one-line summary. */
module Synthesis {
  import opened Wrappers
  import opened PyStrings
  import opened PySeqs
  import opened TextChunking

  /** The budget `build_context` uses unless told otherwise. */
  const DefaultMaxChars: int := 8000

  /** One entry of `grouped`: a document and its chunks. */
  datatype Group = Group(document: string, chunks: seq<Chunk>)

  /** The position of the group of `doc`, if there is one. */
  function FindGroup(groups: seq<Group>, doc: string): (r: Option<nat>)
    ensures r.Some? ==> r.value < |groups| && groups[r.value].document == doc
    ensures r.None? ==> forall i :: 0 <= i < |groups| ==> groups[i].document != doc
    decreases |groups|
  {
    if groups == [] then None
    else if groups[0].document == doc then Some(0)
    else
      match FindGroup(groups[1..], doc)
      case None => None
      case Some(i) => Some(i + 1)
  }

  /** One step of `_group_by_document`: the chunk joins the group of its document,
      or opens a new group at the end when its document has none yet. */
  function AddToGroups(groups: seq<Group>, c: Chunk): seq<Group>
    decreases |groups|
  {
    if groups == [] then [Group(c.document, [c])]
    else if groups[0].document == c.document then [Group(c.document, groups[0].chunks + [c])] + groups[1..]
    else [groups[0]] + AddToGroups(groups[1..], c)
  }

  /** The step as the dictionary does it: look the document up, then append. */
  lemma {:induction false} AddToGroupsFind(groups: seq<Group>, c: Chunk)
    ensures FindGroup(groups, c.document).None? ==> AddToGroups(groups, c) == groups + [Group(c.document, [c])]
    ensures FindGroup(groups, c.document).Some? ==>
      var i := FindGroup(groups, c.document).value;
      AddToGroups(groups, c) == groups[i := Group(c.document, groups[i].chunks + [c])]
    decreases |groups|
  {
    if groups != [] && groups[0].document != c.document {
      AddToGroupsFind(groups[1..], c);
      assert groups == [groups[0]] + groups[1..];
    }
  }

  /** The dictionary `_group_by_document` returns, in its insertion order. */
  function Grouped(chunks: seq<Chunk>): seq<Group>
    decreases |chunks|
  {
    if chunks == [] then [] else AddToGroups(Grouped(chunks[..|chunks| - 1]), chunks[|chunks| - 1])
  }

  /** `_group_by_document`. */
  method GroupByDocument(chunks: seq<Chunk>) returns (grouped: seq<Group>)
    ensures grouped == Grouped(chunks)
  {
    grouped := [];
    for k := 0 to |chunks|
      invariant grouped == Grouped(chunks[..k])
    {
      var chunk := chunks[k];
      var doc := chunk.document;
      assert chunks[..k + 1][..k] == chunks[..k];
      ghost var before := grouped;
      var found := FindGroup(grouped, doc);
      if found.None? {
        grouped := grouped + [Group(doc, [])];
        found := Some(|grouped| - 1);
      }
      grouped := grouped[found.value := Group(doc, grouped[found.value].chunks + [chunk])];
      if FindGroup(before, doc).None? {
        assert grouped == before + [Group(doc, [chunk])] by {
          assert [] + [chunk] == [chunk];
        }
      }
      AddToGroupsFind(before, chunk);
      assert grouped == AddToGroups(before, chunk);
    }
    assert chunks[..|chunks|] == chunks;
  }

  /** The documents of the chunks, in order. */
  function Documents(chunks: seq<Chunk>): seq<string> {
    seq(|chunks|, k requires 0 <= k < |chunks| => chunks[k].document)
  }

  lemma DocumentsInit(chunks: seq<Chunk>)
    requires chunks != []
    ensures Documents(chunks[..|chunks| - 1]) == Documents(chunks)[..|chunks| - 1]
    ensures Documents(chunks)[|chunks| - 1] == chunks[|chunks| - 1].document
  {
  }

  /** The values of `xs` in order of first appearance, each once. */
  function Distinct(xs: seq<string>): seq<string>
    decreases |xs|
  {
    if xs == [] then []
    else
      var d := Distinct(xs[..|xs| - 1]);
      if xs[|xs| - 1] in d then d else d + [xs[|xs| - 1]]
  }

  predicate NoDuplicates(xs: seq<string>) {
    forall i, j :: 0 <= i < j < |xs| ==> xs[i] != xs[j]
  }

  /** `Distinct` keeps exactly the values of its input, once each. */
  lemma {:induction false} DistinctSpec(xs: seq<string>)
    ensures forall x :: x in Distinct(xs) <==> x in xs
    ensures NoDuplicates(Distinct(xs))
    decreases |xs|
  {
    if xs != [] {
      DistinctSpec(xs[..|xs| - 1]);
      assert xs == xs[..|xs| - 1] + [xs[|xs| - 1]];
    }
  }

  /** The chunks of one document, in input order. */
  function ChunksOf(chunks: seq<Chunk>, doc: string): seq<Chunk>
    decreases |chunks|
  {
    if chunks == [] then []
    else
      var last := chunks[|chunks| - 1];
      ChunksOf(chunks[..|chunks| - 1], doc) + (if last.document == doc then [last] else [])
  }

  lemma {:induction false} ChunksOfAbsent(chunks: seq<Chunk>, doc: string)
    requires doc !in Documents(chunks)
    ensures ChunksOf(chunks, doc) == []
    decreases |chunks|
  {
    if chunks != [] {
      DocumentsInit(chunks);
      ChunksOfAbsent(chunks[..|chunks| - 1], doc);
    }
  }

  function Keys(groups: seq<Group>): seq<string> {
    seq(|groups|, i requires 0 <= i < |groups| => groups[i].document)
  }

  /** The chunks of all groups, group after group. */
  function Flatten(groups: seq<Group>): seq<Chunk>
    decreases |groups|
  {
    if groups == [] then [] else Flatten(groups[..|groups| - 1]) + groups[|groups| - 1].chunks
  }

  /** Appending a chunk to one group adds it once to the flattened groups. */
  lemma {:induction false} FlattenUpdate(groups: seq<Group>, i: nat, g: Group, c: Chunk)
    requires i < |groups| && g.chunks == groups[i].chunks + [c]
    ensures multiset(Flatten(groups[i := g])) == multiset(Flatten(groups)) + multiset{c}
    decreases |groups|
  {
    var n := |groups| - 1;
    if i < n {
      assert groups[i := g][..n] == groups[..n][i := g];
      FlattenUpdate(groups[..n], i, g, c);
    } else {
      assert groups[i := g][..n] == groups[..n];
    }
  }

  lemma FindGroupKeys(groups: seq<Group>, doc: string)
    ensures FindGroup(groups, doc).None? <==> doc !in Keys(groups)
  {
    if FindGroup(groups, doc).Some? {
      assert Keys(groups)[FindGroup(groups, doc).value] == doc;
    }
  }

  /** A new document adds its key at the end; a known one leaves the keys as they are. */
  lemma AddToGroupsKeys(groups: seq<Group>, c: Chunk)
    ensures Keys(AddToGroups(groups, c)) == Keys(groups) + (if c.document in Keys(groups) then [] else [c.document])
  {
    FindGroupKeys(groups, c.document);
    AddToGroupsFind(groups, c);
  }

  /** Each old group gains the chunk exactly when it is the chunk's document's group,
      and a new document's group holds the chunk alone. */
  lemma AddToGroupsChunks(groups: seq<Group>, c: Chunk)
    requires NoDuplicates(Keys(groups))
    ensures |AddToGroups(groups, c)| == |groups| + (if c.document in Keys(groups) then 0 else 1)
    ensures forall i :: 0 <= i < |groups| ==> (AddToGroups(groups, c)[i] ==
      Group(groups[i].document, groups[i].chunks + (if groups[i].document == c.document then [c] else [])))
    ensures c.document !in Keys(groups) ==> AddToGroups(groups, c)[|groups|] == Group(c.document, [c])
  {
    FindGroupKeys(groups, c.document);
    AddToGroupsFind(groups, c);
    match FindGroup(groups, c.document)
    case None =>
    case Some(j) =>
      forall i | 0 <= i < |groups| && i != j ensures groups[i].document != c.document {
        assert Keys(groups)[i] != Keys(groups)[j];
      }
  }

  lemma AddToGroupsFlatten(groups: seq<Group>, c: Chunk)
    ensures multiset(Flatten(AddToGroups(groups, c))) == multiset(Flatten(groups)) + multiset{c}
  {
    AddToGroupsFind(groups, c);
    match FindGroup(groups, c.document)
    case None =>
      assert (groups + [Group(c.document, [c])])[..|groups|] == groups;
    case Some(i) =>
      FlattenUpdate(groups, i, Group(c.document, groups[i].chunks + [c]), c);
  }

  /** The group keys are the distinct documents in order of first appearance. */
  lemma {:induction false} GroupedKeys(chunks: seq<Chunk>)
    ensures Keys(Grouped(chunks)) == Distinct(Documents(chunks))
    decreases |chunks|
  {
    if chunks != [] {
      var init := chunks[..|chunks| - 1];
      GroupedKeys(init);
      DocumentsInit(chunks);
      AddToGroupsKeys(Grouped(init), chunks[|chunks| - 1]);
    }
  }

  lemma GroupedKeysDistinct(chunks: seq<Chunk>)
    ensures NoDuplicates(Keys(Grouped(chunks)))
    ensures forall d :: d in Keys(Grouped(chunks)) <==> d in Documents(chunks)
  {
    GroupedKeys(chunks);
    DistinctSpec(Documents(chunks));
  }

  /** Each group holds exactly its document's chunks, in input order. */
  lemma {:induction false} GroupedChunks(chunks: seq<Chunk>)
    ensures forall i :: 0 <= i < |Grouped(chunks)| ==>
      Grouped(chunks)[i].chunks == ChunksOf(chunks, Grouped(chunks)[i].document)
    decreases |chunks|
  {
    if chunks != [] {
      var init := chunks[..|chunks| - 1];
      var c := chunks[|chunks| - 1];
      var g0 := Grouped(init);
      GroupedChunks(init);
      GroupedKeysDistinct(init);
      AddToGroupsChunks(g0, c);
      if c.document !in Keys(g0) {
        ChunksOfAbsent(init, c.document);
      }
    }
  }

  lemma FlattenStep(chunks: seq<Chunk>)
    requires chunks != []
    ensures multiset(Flatten(Grouped(chunks))) ==
      multiset(Flatten(Grouped(chunks[..|chunks| - 1]))) + multiset{chunks[|chunks| - 1]}
  {
    var g0 := Grouped(chunks[..|chunks| - 1]);
    var c := chunks[|chunks| - 1];
    assert Grouped(chunks) == AddToGroups(g0, c);
    AddToGroupsFlatten(g0, c);
  }

  lemma MultisetLast(chunks: seq<Chunk>)
    requires chunks != []
    ensures multiset(chunks) == multiset(chunks[..|chunks| - 1]) + multiset{chunks[|chunks| - 1]}
  {
    assert chunks == chunks[..|chunks| - 1] + [chunks[|chunks| - 1]];
  }

  /** Together the groups hold every chunk exactly once. */
  lemma {:induction false} GroupedFlatten(chunks: seq<Chunk>)
    ensures multiset(Flatten(Grouped(chunks))) == multiset(chunks)
    decreases |chunks|
  {
    if chunks != [] {
      var init := chunks[..|chunks| - 1];
      GroupedFlatten(init);
      FlattenStep(chunks);
      MultisetLast(chunks);
    }
  }

  /** The groups are the distinct documents in order of first appearance; each group
      holds exactly its document's chunks in input order; and together the groups
      hold every chunk exactly once. */
  lemma GroupedSpec(chunks: seq<Chunk>)
    ensures Keys(Grouped(chunks)) == Distinct(Documents(chunks))
    ensures NoDuplicates(Keys(Grouped(chunks)))
    ensures forall i :: 0 <= i < |Grouped(chunks)| ==>
      Grouped(chunks)[i].chunks == ChunksOf(chunks, Grouped(chunks)[i].document)
    ensures multiset(Flatten(Grouped(chunks))) == multiset(chunks)
  {
    GroupedKeys(chunks);
    GroupedKeysDistinct(chunks);
    GroupedChunks(chunks);
    GroupedFlatten(chunks);
  }

  /** `_get_relevance_indicator`: three, two, one or no stars. */
  function RelevanceIndicator(score: real): string {
    if score >= 0.7 then "\U{2B50}\U{2B50}\U{2B50}"
    else if score >= 0.5 then "\U{2B50}\U{2B50}"
    else if score >= 0.3 then "\U{2B50}"
    else ""
  }

  /** The indicator is a row of at most three stars that never gets shorter as the
      score grows. */
  lemma RelevanceIndicatorFacts(score: real, higher: real)
    ensures |RelevanceIndicator(score)| <= 3
    ensures forall k :: 0 <= k < |RelevanceIndicator(score)| ==> RelevanceIndicator(score)[k] == '\U{2B50}'
    ensures score <= higher ==> |RelevanceIndicator(score)| <= |RelevanceIndicator(higher)|
    ensures score < 0.3 <==> RelevanceIndicator(score) == ""
  {
  }

  /** The first line of a document block. */
  function Header(documentName: string): string {
    "=== " + documentName + " ===\n"
  }

  /** The part of a document block for one chunk; a chunk without a relevance score
      counts as 0. */
  function PagePart(chunk: Chunk): string {
    var pageInfo := "[Page " + IntToString(chunk.pageNumber) + "]";
    pageInfo + " " + RelevanceIndicator(chunk.relevanceScore.GetOr(0.0)) + "\n" + chunk.text + "\n"
  }

  function PageParts(chunks: seq<Chunk>): seq<string> {
    Map(PagePart, chunks)
  }

  /** The block `_format_document_context` returns. */
  function DocumentContext(documentName: string, chunks: seq<Chunk>): string {
    Join("\n", [Header(documentName)] + PageParts(chunks))
  }

  /** `_format_document_context`. */
  method FormatDocumentContext(documentName: string, chunks: seq<Chunk>) returns (block: string)
    ensures block == DocumentContext(documentName, chunks)
  {
    var parts := [Header(documentName)];
    for k := 0 to |chunks|
      invariant parts == [Header(documentName)] + PageParts(chunks[..k])
    {
      var chunk := chunks[k];
      var pageInfo := "[Page " + IntToString(chunk.pageNumber) + "]";
      var relevance := chunk.relevanceScore.GetOr(0.0);
      var relevanceIndicator := RelevanceIndicator(relevance);
      var part := pageInfo + " " + relevanceIndicator + "\n" + chunk.text + "\n";
      assert part == PagePart(chunk);
      MapStep(PagePart, chunks, k);
      parts := parts + [part];
    }
    assert chunks[..|chunks|] == chunks;
    block := Join("\n", parts);
  }

  /** A block opens with its document's header, has one line-separated part per
      chunk, and with no chunks is the header alone. */
  lemma DocumentContextShape(documentName: string, chunks: seq<Chunk>)
    ensures |Header(documentName)| <= |DocumentContext(documentName, chunks)|
    ensures DocumentContext(documentName, chunks)[..|Header(documentName)|] == Header(documentName)
    ensures |DocumentContext(documentName, chunks)| ==
      |Header(documentName)| + TotalLength(PageParts(chunks)) + |chunks|
    ensures chunks == [] ==> DocumentContext(documentName, chunks) == Header(documentName)
  {
    var parts := [Header(documentName)] + PageParts(chunks);
    JoinStartsWith("\n", parts);
    JoinLength("\n", parts);
    assert parts[1..] == PageParts(chunks);
  }

  /** One block per group. */
  function Blocks(groups: seq<Group>): seq<string> {
    seq(|groups|, i requires 0 <= i < |groups| => DocumentContext(groups[i].document, groups[i].chunks))
  }

  /** The blocks `build_context` keeps with `budget` characters left: it takes blocks
      while they fit and stops at the first that does not. */
  function TakeWithin(blocks: seq<string>, budget: int): seq<string>
    decreases |blocks|
  {
    if blocks == [] || |blocks[0]| > budget then []
    else [blocks[0]] + TakeWithin(blocks[1..], budget - |blocks[0]|)
  }

  /** The kept blocks are a prefix of the blocks whose total length is within the
      budget (when any is kept), and the next block, if any, would overflow it. */
  lemma {:induction false} TakeWithinSpec(blocks: seq<string>, budget: int)
    ensures |TakeWithin(blocks, budget)| <= |blocks|
    ensures TakeWithin(blocks, budget) == blocks[..|TakeWithin(blocks, budget)|]
    ensures TakeWithin(blocks, budget) != [] ==> TotalLength(TakeWithin(blocks, budget)) <= budget
    ensures |TakeWithin(blocks, budget)| < |blocks| ==>
      TotalLength(TakeWithin(blocks, budget)) + |blocks[|TakeWithin(blocks, budget)|]| > budget
    decreases |blocks|
  {
    if blocks != [] && |blocks[0]| <= budget {
      var rest := TakeWithin(blocks[1..], budget - |blocks[0]|);
      TakeWithinSpec(blocks[1..], budget - |blocks[0]|);
      var t := TakeWithin(blocks, budget);
      assert t[1..] == rest;
      assert blocks[..|t|] == [blocks[0]] + blocks[1..][..|rest|];
      if |t| < |blocks| {
        assert blocks[|t|] == blocks[1..][|rest|];
      }
    }
  }

  /** The blocks kept under the budget, separated by blank lines. */
  function PackBlocks(blocks: seq<string>, maxChars: int): string {
    Join("\n\n", TakeWithin(blocks, maxChars))
  }

  /** The packed string is whole blocks, a prefix of them in order; the blocks kept
      fit the budget, and the first one left out would not have fit. The budget
      counts the blocks only: the string is longer by the two-character separators
      between them. */
  lemma PackBlocksSpec(blocks: seq<string>, maxChars: int)
    ensures |TakeWithin(blocks, maxChars)| <= |blocks|
    ensures var kept := TakeWithin(blocks, maxChars);
      kept == blocks[..|kept|] &&
      (kept != [] ==> (TotalLength(kept) <= maxChars &&
        |PackBlocks(blocks, maxChars)| == TotalLength(kept) + 2 * (|kept| - 1))) &&
      (|kept| < |blocks| ==> TotalLength(kept) + |blocks[|kept|]| > maxChars)
    ensures blocks == [] ==> PackBlocks(blocks, maxChars) == ""
  {
    TakeWithinSpec(blocks, maxChars);
    if TakeWithin(blocks, maxChars) != [] {
      JoinLength("\n\n", TakeWithin(blocks, maxChars));
    }
  }

  /** The string `build_context` returns: the document blocks of the groups, in
      group order, packed under the budget. */
  function Context(chunks: seq<Chunk>, maxChars: int): string {
    PackBlocks(Blocks(Grouped(chunks)), maxChars)
  }

  /** `build_context`. */
  method BuildContext(chunks: seq<Chunk>, maxChars: int) returns (context: string)
    ensures context == Context(chunks, maxChars)
  {
    var contextParts: seq<string> := [];
    var totalChars := 0;
    var chunksByDoc := GroupByDocument(chunks);
    ghost var blocks := Blocks(chunksByDoc);
    for i := 0 to |chunksByDoc|
      invariant contextParts + TakeWithin(blocks[i..], maxChars - totalChars) == TakeWithin(blocks, maxChars)
    {
      var docContext := FormatDocumentContext(chunksByDoc[i].document, chunksByDoc[i].chunks);
      assert blocks[i..][0] == docContext && blocks[i..][1..] == blocks[i + 1..];
      if totalChars + |docContext| > maxChars {
        assert TakeWithin(blocks[i..], maxChars - totalChars) == [];
        assert contextParts == TakeWithin(blocks, maxChars);
        break;
      }
      contextParts := contextParts + [docContext];
      totalChars := totalChars + |docContext|;
    }
    assert contextParts == TakeWithin(blocks, maxChars) by {
      assert blocks[|chunksByDoc|..] == [];
    }
    context := Join("\n\n", contextParts);
    assert context == PackBlocks(blocks, maxChars);
  }

  /** One cited document: its name, its pages and its relevance. */
  datatype Source = Source(document: string, pages: seq<int>, relevance: real)

  /** `map(str, pages)`. */
  function PageStrings(pages: seq<int>): seq<string> {
    Map(IntToString, pages)
  }

  /** The pages of a citation: "page N" for one page, otherwise "pages " and the
      numbers separated by commas. */
  function PageText(pages: seq<int>): string {
    if |pages| == 1 then "page " + IntToString(pages[0])
    else "pages " + Join(", ", PageStrings(pages))
  }

  /** One citation line of `format_sources`. */
  function SourceLine(source: Source): string {
    "\U{2022} " + source.document + " (" + PageText(source.pages) + ")"
  }

  function SourceLines(sources: seq<Source>): seq<string> {
    Map(SourceLine, sources)
  }

  /** The string `format_sources` returns. */
  function Citations(sources: seq<Source>): string {
    if sources == [] then "No sources" else Join("\n", SourceLines(sources))
  }

  /** `format_sources`. */
  method FormatSources(sources: seq<Source>) returns (text: string)
    ensures text == Citations(sources)
  {
    if sources == [] {
      return "No sources";
    }
    var formatted: seq<string> := [];
    for k := 0 to |sources|
      invariant formatted == SourceLines(sources[..k])
    {
      var source := sources[k];
      var doc := source.document;
      var pages := source.pages;
      var pageStr;
      if |pages| == 1 {
        pageStr := "page " + IntToString(pages[0]);
      } else {
        pageStr := "pages " + Join(", ", PageStrings(pages));
      }
      assert pageStr == PageText(pages);
      var line := "\U{2022} " + doc + " (" + pageStr + ")";
      MapStep(SourceLine, sources, k);
      formatted := formatted + [line];
    }
    assert sources[..|sources|] == sources;
    text := Join("\n", formatted);
  }

  lemma PageTextNoNewline(pages: seq<int>)
    ensures CountChar(PageText(pages), '\n') == 0
  {
    if |pages| == 1 {
      NoNewlineCount("page ");
      CountCharAppend("page ", IntToString(pages[0]), '\n');
    } else {
      NoNewlineCount(", ");
      NoNewlineCount("pages ");
      MapAt(IntToString, pages);
      JoinNoNewline(", ", PageStrings(pages));
      CountCharAppend("pages ", Join(", ", PageStrings(pages)), '\n');
    }
  }

  lemma SourceLineNoNewline(source: Source)
    requires CountChar(source.document, '\n') == 0
    ensures CountChar(SourceLine(source), '\n') == 0
  {
    var bullet := "\U{2022} " + source.document;
    var open := bullet + " (";
    var pages := open + PageText(source.pages);
    PageTextNoNewline(source.pages);
    NoNewlineCount("\U{2022} ");
    NoNewlineCount(" (");
    NoNewlineCount(")");
    CountCharAppend("\U{2022} ", source.document, '\n');
    CountCharAppend(bullet, " (", '\n');
    CountCharAppend(open, PageText(source.pages), '\n');
    CountCharAppend(pages, ")", '\n');
  }

  /** One line per source, each opening with a bullet, when the document names hold
      no newline; "No sources" only when there are none. */
  lemma CitationsShape(sources: seq<Source>)
    requires forall k :: 0 <= k < |sources| ==> CountChar(sources[k].document, '\n') == 0
    ensures sources == [] <==> Citations(sources) == "No sources"
    ensures sources != [] ==>
      CountChar(Citations(sources), '\n') == |sources| - 1 && Citations(sources)[0] == '\U{2022}'
  {
    if sources != [] {
      var lines := SourceLines(sources);
      MapAt(SourceLine, sources);
      forall k | 0 <= k < |lines| ensures CountChar(lines[k], '\n') == 0 {
        SourceLineNoNewline(sources[k]);
      }
      JoinNewlines(lines);
      JoinStartsWith("\n", lines);
      assert lines[0][0] == '\U{2022}';
      assert Citations(sources)[0] == lines[0][0];
      assert Citations(sources) != "No sources" by {
        assert "No sources"[0] == 'N';
      }
    }
  }

  /** The distinct documents of the chunks. */
  function DocumentSet(chunks: seq<Chunk>): set<string> {
    set k | 0 <= k < |chunks| :: chunks[k].document
  }

  /** The distinct (document, page) pairs of the chunks. */
  function PageSet(chunks: seq<Chunk>): set<(string, int)> {
    set k | 0 <= k < |chunks| :: (chunks[k].document, chunks[k].pageNumber)
  }

  /** The line `create_summary_response` returns. */
  function SummaryResponse(chunks: seq<Chunk>): string {
    if chunks == [] then "No relevant information found."
    else
      "Found " + IntToString(|chunks|) + " relevant passages from " + IntToString(|DocumentSet(chunks)|)
        + " document(s) across " + IntToString(|PageSet(chunks)|) + " pages."
  }

  lemma {:induction false} ImageCard(pairs: set<(string, int)>)
    ensures |set p | p in pairs :: p.0| <= |pairs|
    decreases pairs
  {
    if pairs != {} {
      var p :| p in pairs;
      var rest := pairs - {p};
      ImageCard(rest);
      assert (set q | q in pairs :: q.0) <= (set q | q in rest :: q.0) + {p.0};
      SubsetCardinality(set q | q in pairs :: q.0, (set q | q in rest :: q.0) + {p.0});
    }
  }

  lemma {:induction false} PageSetBound(chunks: seq<Chunk>)
    ensures |PageSet(chunks)| <= |chunks|
    decreases |chunks|
  {
    if chunks != [] {
      var init := chunks[..|chunks| - 1];
      var c := chunks[|chunks| - 1];
      PageSetBound(init);
      assert PageSet(chunks) <= PageSet(init) + {(c.document, c.pageNumber)} by {
        forall p | p in PageSet(chunks) ensures p in PageSet(init) + {(c.document, c.pageNumber)} {
          var k :| 0 <= k < |chunks| && p == (chunks[k].document, chunks[k].pageNumber);
          if k < |init| {
            assert init[k] == chunks[k];
          }
        }
      }
      SubsetCardinality(PageSet(chunks), PageSet(init) + {(c.document, c.pageNumber)});
    }
  }

  /** For some chunks, the summary counts at least one document, no more documents
      than (document, page) pairs and no more pairs than chunks. */
  lemma SummaryCounts(chunks: seq<Chunk>)
    requires chunks != []
    ensures 1 <= |DocumentSet(chunks)| <= |PageSet(chunks)| <= |chunks|
  {
    PageSetBound(chunks);
    ImageCard(PageSet(chunks));
    assert DocumentSet(chunks) == set p | p in PageSet(chunks) :: p.0 by {
      forall d | d in DocumentSet(chunks) ensures d in set p | p in PageSet(chunks) :: p.0 {
        var k :| 0 <= k < |chunks| && chunks[k].document == d;
        assert (chunks[k].document, chunks[k].pageNumber) in PageSet(chunks);
      }
    }
    assert chunks[0].document in DocumentSet(chunks);
  }

  /** No chunks gives the fixed notice; otherwise the line opens with "Found ". */
  lemma SummaryShape(chunks: seq<Chunk>)
    ensures chunks == [] <==> SummaryResponse(chunks) == "No relevant information found."
    ensures chunks != [] ==> |SummaryResponse(chunks)| > 6 && SummaryResponse(chunks)[..6] == "Found "
  {
    if chunks != [] {
      var rest := IntToString(|chunks|) + " relevant passages from " + IntToString(|DocumentSet(chunks)|)
        + " document(s) across " + IntToString(|PageSet(chunks)|) + " pages.";
      assert SummaryResponse(chunks) == "Found " + rest;
      assert ("Found " + rest)[..6] == "Found ";
      assert SummaryResponse(chunks)[0] != "No relevant information found."[0];
    }
  }
}
