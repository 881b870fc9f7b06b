/** The structure-aware chunker of `src/processors/text_chunker.py`: each page's
    text is cut into blank-line-separated paragraphs, which are packed greedily into
    a buffer bounded by `chunkSize`; a closed buffer seeds the next one with its
    last `chunkOverlap` characters, and a trailing buffer shorter than
    `minChunkSize` is dropped. */
module TextChunking {
  import opened Wrappers
  import opened PyStrings
  import opened PySeqs

  /** The defaults of config.py. */
  const CHUNK_SIZE: int := 2000
  const CHUNK_OVERLAP: int := 300
  const MIN_CHUNK_SIZE: int := 100

  /** The three parameters of a `TextChunker`; Python accepts any integers here. */
  datatype Config = Config(chunkSize: int, chunkOverlap: int, minChunkSize: int)

  const DefaultConfig: Config := Config(CHUNK_SIZE, CHUNK_OVERLAP, MIN_CHUNK_SIZE)

  /** One page as the loader delivers it. */
  datatype Page = Page(pageNumber: int, text: string)

  /** One loaded document: its file name and its pages in order. */
  datatype Document = Document(fileName: string, pages: seq<Page>)

  /** The record `_create_chunk` builds for one buffer. */
  datatype PageChunk = PageChunk(
    text: string,
    pageNumber: int,
    source: string,
    startPosition: int,
    charCount: nat,
    wordCount: nat)

  /** A chunk once `chunk_document` has stamped `chunk_id` and `document` on it.
      `relevanceScore` is the key the retriever adds to its copies; a chunk
      fresh from the chunker has none. */
  datatype Chunk = Chunk(
    chunkId: int,
    document: string,
    text: string,
    pageNumber: int,
    source: string,
    startPosition: int,
    charCount: nat,
    wordCount: nat,
    relevanceScore: Option<real>)
  {
    /** The fields `_create_chunk` set. */
    function Piece(): PageChunk {
      PageChunk(text, pageNumber, source, startPosition, charCount, wordCount)
    }
  }

  // ---------------------------------------------------------------------------
  // Paragraph splitting: re.split(r'\n\s*\n|\n{2,}', text), then strip and drop blanks.
  // ---------------------------------------------------------------------------

  /** From index `j` on, `s` holds whitespace up to and including a newline. */
  predicate NewlineAfterSpaces(s: string, j: nat)
    decreases |s| - j
  {
    j < |s| && (s[j] == '\n' || (IsSpace(s[j]) && NewlineAfterSpaces(s, j + 1)))
  }

  /** The separator pattern matches at `i`: a newline, whitespace, and another newline.
      (The alternative `\n{2,}` only matches where this one already does.) */
  predicate BreakAt(s: string, i: int) {
    0 <= i < |s| && s[i] == '\n' && NewlineAfterSpaces(s, i + 1)
  }

  /** `s` contains a blank line, that is, the separator pattern matches somewhere. */
  predicate HasBlankLine(s: string) {
    exists i | 0 <= i < |s| :: BreakAt(s, i)
  }

  /** The leftmost position at or after `i` where the separator matches, or `|s|`. */
  function NextBreak(s: string, i: nat): (b: nat)
    requires i <= |s|
    ensures i <= b <= |s|
    ensures b < |s| ==> BreakAt(s, b)
    ensures forall p :: i <= p < b ==> !BreakAt(s, p)
    decreases |s| - i
  {
    if i == |s| then i else if BreakAt(s, i) then i else NextBreak(s, i + 1)
  }

  /** Where a match that started with the newline at `last` ends: `\s*` runs to the
      end of the whitespace and backtracks to its last newline. */
  function BreakEnd(s: string, j: nat, last: nat): (e: nat)
    requires last < j <= |s|
    ensures last < e <= |s|
    decreases |s| - j
  {
    if j < |s| && IsSpace(s[j]) then BreakEnd(s, j + 1, if s[j] == '\n' then j else last)
    else last + 1
  }

  lemma {:induction false} NewlineAfterSpacesInSlice(s: string, a: nat, b: nat, j: nat)
    requires a <= b <= |s|
    requires NewlineAfterSpaces(s[a..b], j)
    ensures NewlineAfterSpaces(s, a + j)
    decreases b - a - j
  {
    assert s[a..b][j] == s[a + j];
    if s[a..b][j] != '\n' {
      NewlineAfterSpacesInSlice(s, a, b, j + 1);
    }
  }

  /** A blank line inside a slice is a blank line of the whole string. */
  lemma BreakInSlice(s: string, a: nat, b: nat, p: int)
    requires a <= b <= |s| && BreakAt(s[a..b], p)
    ensures BreakAt(s, a + p)
  {
    NewlineAfterSpacesInSlice(s, a, b, p + 1);
  }

  /** `re.split` with the separator pattern: the pieces between matches. */
  function SplitOnBlankLines(s: string): (pieces: seq<string>)
    ensures |pieces| >= 1
    decreases |s|
  {
    var b := NextBreak(s, 0);
    if b == |s| then [s]
    else [s[..b]] + SplitOnBlankLines(s[BreakEnd(s, b + 1, b)..])
  }

  /** No piece `re.split` returns contains a blank line. */
  lemma {:induction false} SplitOnBlankLinesShape(s: string)
    ensures forall k :: 0 <= k < |SplitOnBlankLines(s)| ==> !HasBlankLine(SplitOnBlankLines(s)[k])
    decreases |s|
  {
    var b := NextBreak(s, 0);
    if b < |s| {
      var e := BreakEnd(s, b + 1, b);
      assert !HasBlankLine(s[..b]) by {
        forall p | 0 <= p < b && BreakAt(s[..b], p) ensures false {
          assert s[..b] == s[0..b];
          BreakInSlice(s, 0, b, p);
        }
      }
      var rest := SplitOnBlankLines(s[e..]);
      SplitOnBlankLinesShape(s[e..]);
      assert forall k :: 1 <= k < |[s[..b]] + rest| ==> ([s[..b]] + rest)[k] == rest[k - 1];
    }
  }

  /** The shape of every element `_split_into_paragraphs` returns: a non-empty
      stripped text without blank lines, followed by "\n\n". */
  predicate IsParagraph(p: string) {
    |p| > 2 && p[|p| - 2..] == "\n\n" && IsStripped(p[..|p| - 2]) && !HasBlankLine(p[..|p| - 2])
  }

  /** Stripping a paragraph gives back its text. */
  lemma ParagraphText(p: string)
    requires IsParagraph(p)
    ensures Strip(p) == p[..|p| - 2] && Strip(p) != ""
  {
    assert p == p[..|p| - 2] + "\n\n";
    StripAppendBlank(p[..|p| - 2], "\n\n");
  }

  /** A piece without blank lines keeps none once stripped. */
  lemma StripNoBlankLine(piece: string)
    requires !HasBlankLine(piece)
    ensures !HasBlankLine(Strip(piece))
  {
    var t := Strip(piece);
    var a := StripShape(piece);
    forall p | 0 <= p < |t| && BreakAt(t, p) ensures false {
      BreakInSlice(piece, a, a + |t|, p);
    }
  }

  lemma ParagraphOf(piece: string)
    requires !HasBlankLine(piece) && Strip(piece) != ""
    ensures IsParagraph(Strip(piece) + "\n\n")
  {
    var t := Strip(piece);
    var _ := StripShape(piece);
    StripNoBlankLine(piece);
    assert (t + "\n\n")[..|t|] == t;
  }

  /** `[p.strip() + '\n\n' for p in pieces if p.strip()]`. */
  function Paragraphs(pieces: seq<string>): (paras: seq<string>)
    ensures |paras| <= |pieces|
    decreases |pieces|
  {
    if pieces == [] then []
    else if Strip(pieces[0]) == "" then Paragraphs(pieces[1..])
    else [Strip(pieces[0]) + "\n\n"] + Paragraphs(pieces[1..])
  }

  lemma {:induction false} ParagraphsShape(pieces: seq<string>)
    requires forall k :: 0 <= k < |pieces| ==> !HasBlankLine(pieces[k])
    ensures forall k :: 0 <= k < |Paragraphs(pieces)| ==> IsParagraph(Paragraphs(pieces)[k])
    decreases |pieces|
  {
    if pieces != [] {
      var rest := Paragraphs(pieces[1..]);
      assert forall k :: 0 <= k < |pieces[1..]| ==> pieces[1..][k] == pieces[k + 1];
      ParagraphsShape(pieces[1..]);
      var t := Strip(pieces[0]);
      if t != "" {
        ParagraphOf(pieces[0]);
        assert forall k :: 1 <= k < |[t + "\n\n"] + rest| ==> ([t + "\n\n"] + rest)[k] == rest[k - 1];
      }
    }
  }

  /** `_split_into_paragraphs`. */
  function SplitIntoParagraphs(text: string): (paras: seq<string>)
    ensures |paras| <= |SplitOnBlankLines(text)|
  {
    Paragraphs(SplitOnBlankLines(text))
  }

  /** Every element `_split_into_paragraphs` returns is a stripped, non-empty text
      without blank lines, followed by "\n\n". */
  lemma SplitIntoParagraphsShape(text: string)
    ensures forall k :: 0 <= k < |SplitIntoParagraphs(text)| ==> IsParagraph(SplitIntoParagraphs(text)[k])
  {
    SplitOnBlankLinesShape(text);
    ParagraphsShape(SplitOnBlankLines(text));
  }

  /** A page without blank lines, and not blank, is a single paragraph. */
  lemma SingleParagraph(text: string)
    requires !HasBlankLine(text) && !Blank(text)
    ensures SplitIntoParagraphs(text) == [Strip(text) + "\n\n"]
  {
    var b := NextBreak(text, 0);
    var _ := StripShape(text);
    assert b == |text|;
    assert SplitOnBlankLines(text) == [text];
    assert [text][1..] == [];
  }

  // ---------------------------------------------------------------------------
  // The packing loop of `_chunk_page`, stated as a fold over the paragraphs.
  // ---------------------------------------------------------------------------

  /** `_create_chunk`. */
  function CreateChunk(buffer: string, pageNumber: int, source: string, startPos: int): PageChunk {
    var t := Strip(buffer);
    PageChunk(t, pageNumber, source, startPos, |t|, |Split(t)|)
  }

  /** What every record built by `_create_chunk` satisfies. */
  predicate WellFormed(c: PageChunk) {
    && IsStripped(c.text)
    && c.charCount == |c.text|
    && c.wordCount == |Split(c.text)|
    && (c.wordCount == 0 <==> c.text == "")
  }

  lemma CreateChunkWellFormed(buffer: string, pageNumber: int, source: string, startPos: int)
    ensures WellFormed(CreateChunk(buffer, pageNumber, source, startPos))
    ensures CreateChunk(buffer, pageNumber, source, startPos).text == Strip(buffer)
  {
    var t := Strip(buffer);
    var _ := StripShape(buffer);
    SplitShape(t);
    if t != "" {
      assert !Blank(t) by {
        assert !IsSpace(t[0]);
      }
    }
  }

  /** A buffer handed to `_create_chunk`, with the value `current_start` had then. */
  datatype Span = Span(buffer: string, start: int)

  /** The loop variables of `_chunk_page`: the buffers closed so far (each becomes one
      record of `chunks`), `current_chunk` and `current_start`. */
  datatype ScanState = ScanState(closed: seq<Span>, buffer: string, start: int)

  /** The buffer opened after a split: the last `chunkOverlap` characters of the closed
      buffer followed by the paragraph when the closed buffer is longer than the
      overlap, the paragraph alone otherwise. The slice is Python's `buffer[-overlap:]`. */
  function Seed(cfg: Config, buffer: string, para: string): string {
    if |buffer| > cfg.chunkOverlap then SliceFrom(buffer, -cfg.chunkOverlap) + para else para
  }

  /** One iteration of the loop over paragraphs. The closed buffer is recorded only
      when `current_chunk.strip()` is non-empty. */
  function Step(cfg: Config, st: ScanState, para: string): ScanState {
    if |st.buffer| + |para| > cfg.chunkSize then
      var closed := if Strip(st.buffer) != "" then st.closed + [Span(st.buffer, st.start)] else st.closed;
      var buffer := Seed(cfg, st.buffer, para);
      ScanState(closed, buffer, st.start + |buffer| - cfg.chunkOverlap)
    else
      ScanState(st.closed, st.buffer + para, st.start)
  }

  /** The loop state after the given paragraphs. */
  function Scan(cfg: Config, paras: seq<string>): ScanState
    decreases |paras|
  {
    if paras == [] then ScanState([], "", 0)
    else Step(cfg, Scan(cfg, paras[..|paras| - 1]), paras[|paras| - 1])
  }

  /** The final flush: the remaining buffer is recorded only when its stripped length
      reaches `minChunkSize`. */
  function Flush(cfg: Config, st: ScanState): seq<Span> {
    if |Strip(st.buffer)| >= cfg.minChunkSize then st.closed + [Span(st.buffer, st.start)] else st.closed
  }

  /** `_create_chunk` applied to each recorded buffer, in order. */
  function Records(spans: seq<Span>, pageNumber: int, source: string): seq<PageChunk> {
    seq(|spans|, k requires 0 <= k < |spans| => CreateChunk(spans[k].buffer, pageNumber, source, spans[k].start))
  }

  lemma RecordsSnoc(spans: seq<Span>, s: Span, pageNumber: int, source: string)
    ensures Records(spans + [s], pageNumber, source)
         == Records(spans, pageNumber, source) + [CreateChunk(s.buffer, pageNumber, source, s.start)]
  {
  }

  /** The buffers `_chunk_page` records for the given paragraphs. */
  function PageSpans(cfg: Config, paras: seq<string>): seq<Span> {
    Flush(cfg, Scan(cfg, paras))
  }

  /** What the packing loop of `_chunk_page` returns for the given paragraphs. */
  function Pack(cfg: Config, paras: seq<string>, pageNumber: int, source: string): seq<PageChunk> {
    Records(PageSpans(cfg, paras), pageNumber, source)
  }

  /** What `_chunk_page` returns for one page. */
  function PageChunks(cfg: Config, text: string, pageNumber: int, source: string): seq<PageChunk> {
    Pack(cfg, SplitIntoParagraphs(text), pageNumber, source)
  }

  lemma ScanSnoc(cfg: Config, paras: seq<string>, i: nat)
    requires i < |paras|
    ensures Scan(cfg, paras[..i + 1]) == Step(cfg, Scan(cfg, paras[..i]), paras[i])
  {
    assert paras[..i + 1][..i] == paras[..i];
  }

  /** The loop variables after one step, field by field. */
  lemma StepFields(cfg: Config, st: ScanState, para: string)
    ensures Step(cfg, st, para).closed ==
      if |st.buffer| + |para| > cfg.chunkSize && Strip(st.buffer) != "" then st.closed + [Span(st.buffer, st.start)]
      else st.closed
    ensures Step(cfg, st, para).buffer ==
      if |st.buffer| + |para| > cfg.chunkSize then Seed(cfg, st.buffer, para) else st.buffer + para
    ensures Step(cfg, st, para).start ==
      if |st.buffer| + |para| > cfg.chunkSize then st.start + |Seed(cfg, st.buffer, para)| - cfg.chunkOverlap
      else st.start
  {
  }

  // ---------------------------------------------------------------------------
  // What the records of a page satisfy.
  // ---------------------------------------------------------------------------

  /** What every record of a page satisfies: it is well-formed and carries that page's
      number and source, and it is empty only when `minChunkSize` lets the final flush
      record a blank buffer. */
  predicate PageChunkOk(cfg: Config, pageNumber: int, source: string, c: PageChunk) {
    WellFormed(c) && c.pageNumber == pageNumber && c.source == source
    && (c.text != "" || cfg.minChunkSize <= 0)
  }

  /** No buffer closed at a split strips to nothing. */
  predicate ClosedNotBlank(spans: seq<Span>) {
    forall k :: 0 <= k < |spans| ==> Strip(spans[k].buffer) != ""
  }

  lemma {:induction false} ScanClosedNotBlank(cfg: Config, paras: seq<string>)
    ensures ClosedNotBlank(Scan(cfg, paras).closed)
    decreases |paras|
  {
    if paras != [] {
      var init := paras[..|paras| - 1];
      var st := Scan(cfg, init);
      ScanClosedNotBlank(cfg, init);
      StepFields(cfg, st, paras[|paras| - 1]);
      var next := Step(cfg, st, paras[|paras| - 1]);
      assert forall k :: 0 <= k < |st.closed| ==> next.closed[k] == st.closed[k];
    }
  }

  /** Every record `_chunk_page` returns is a well-formed record of that page, and only
      a final flush with `minChunkSize <= 0` can be empty. */
  lemma PackOk(cfg: Config, paras: seq<string>, pageNumber: int, source: string)
    ensures forall k :: 0 <= k < |Pack(cfg, paras, pageNumber, source)| ==>
      PageChunkOk(cfg, pageNumber, source, Pack(cfg, paras, pageNumber, source)[k])
  {
    var st := Scan(cfg, paras);
    var spans := PageSpans(cfg, paras);
    var chunks := Pack(cfg, paras, pageNumber, source);
    ScanClosedNotBlank(cfg, paras);
    assert forall k :: 0 <= k < |st.closed| ==> spans[k] == st.closed[k];
    forall k | 0 <= k < |chunks| ensures PageChunkOk(cfg, pageNumber, source, chunks[k]) {
      CreateChunkWellFormed(spans[k].buffer, pageNumber, source, spans[k].start);
    }
  }

  /** The records of a page are the non-blank buffers closed at splits, in order, with
      the value `current_start` had when each was closed, followed by the remaining
      buffer exactly when its stripped length reaches `minChunkSize`. */
  lemma PackFlush(cfg: Config, paras: seq<string>, pageNumber: int, source: string)
    ensures |Pack(cfg, paras, pageNumber, source)| ==
      |Scan(cfg, paras).closed| + (if |Strip(Scan(cfg, paras).buffer)| >= cfg.minChunkSize then 1 else 0)
    ensures forall k :: 0 <= k < |Scan(cfg, paras).closed| ==>
      var span := Scan(cfg, paras).closed[k];
      && Pack(cfg, paras, pageNumber, source)[k].text == Strip(span.buffer) != ""
      && Pack(cfg, paras, pageNumber, source)[k].startPosition == span.start
    ensures |Pack(cfg, paras, pageNumber, source)| > |Scan(cfg, paras).closed| ==>
      var last := Pack(cfg, paras, pageNumber, source)[|Scan(cfg, paras).closed|];
      last.text == Strip(Scan(cfg, paras).buffer) && last.charCount >= cfg.minChunkSize
      && last.startPosition == Scan(cfg, paras).start
  {
    ScanClosedNotBlank(cfg, paras);
  }

  /** `p` is in the remaining buffer or in one of the buffers closed so far. */
  predicate Covered(st: ScanState, p: string) {
    Contains(st.buffer, p) || exists k :: 0 <= k < |st.closed| && Contains(st.closed[k].buffer, p)
  }

  /** After a step the buffer holds the paragraph just read. */
  lemma StepHoldsParagraph(cfg: Config, st: ScanState, para: string)
    ensures Contains(Step(cfg, st, para).buffer, para)
  {
    StepFields(cfg, st, para);
    if |st.buffer| + |para| > cfg.chunkSize && |st.buffer| > cfg.chunkOverlap {
      ConcatContains(SliceFrom(st.buffer, -cfg.chunkOverlap), para);
    } else if |st.buffer| + |para| > cfg.chunkSize {
      assert OccursAt(para, para, 0);
    } else {
      ConcatContains(st.buffer, para);
    }
  }

  /** A step loses no text that is not blank: a buffer closed at a split holding such
      a text is itself not blank, so it is recorded. */
  lemma StepKeepsCovered(cfg: Config, st: ScanState, para: string, p: string)
    requires !Blank(p) && Covered(st, p)
    ensures Covered(Step(cfg, st, para), p)
  {
    var next := Step(cfg, st, para);
    StepFields(cfg, st, para);
    if Contains(st.buffer, p) {
      if |st.buffer| + |para| > cfg.chunkSize {
        ContainsNotBlank(st.buffer, p);
        var _ := StripShape(st.buffer);
        assert next.closed[|st.closed|].buffer == st.buffer;
      } else {
        ConcatContains(st.buffer, para);
        ContainsTrans(p, st.buffer, next.buffer);
      }
    } else {
      var k :| 0 <= k < |st.closed| && Contains(st.closed[k].buffer, p);
      assert next.closed[k] == st.closed[k];
    }
  }

  /** No paragraph that is not blank is dropped by the packing loop: each one is in
      the remaining buffer or in one of the buffers closed at a split, all of which
      are recorded. */
  lemma {:induction false} ScanCovers(cfg: Config, paras: seq<string>)
    ensures forall i :: 0 <= i < |paras| && !Blank(paras[i]) ==> Covered(Scan(cfg, paras), paras[i])
    decreases |paras|
  {
    if paras != [] {
      var n := |paras| - 1;
      var init := paras[..n];
      ScanCovers(cfg, init);
      var st := Scan(cfg, init);
      StepHoldsParagraph(cfg, st, paras[n]);
      forall i | 0 <= i < |paras| && !Blank(paras[i]) ensures Covered(Scan(cfg, paras), paras[i]) {
        if i < n {
          assert init[i] == paras[i];
          StepKeepsCovered(cfg, st, paras[n], paras[i]);
        }
      }
    }
  }

  /** Every record of a page carries that page's number and source. */
  lemma PackOrigin(cfg: Config, paras: seq<string>, pageNumber: int, source: string, k: nat)
    requires k < |Pack(cfg, paras, pageNumber, source)|
    ensures Pack(cfg, paras, pageNumber, source)[k].pageNumber == pageNumber
    ensures Pack(cfg, paras, pageNumber, source)[k].source == source
  {
  }

  /** The overlap seed, case by case. With a positive overlap the new buffer starts
      with exactly the last `chunkOverlap` characters of the closed one. With
      `chunkOverlap == 0`, Python's `buffer[-0:]` is the whole buffer, so a non-empty
      closed buffer is carried over entirely. */
  lemma SeedShape(cfg: Config, buffer: string, para: string)
    ensures cfg.chunkOverlap > 0 && |buffer| > cfg.chunkOverlap ==>
      Seed(cfg, buffer, para) == buffer[|buffer| - cfg.chunkOverlap..] + para
    ensures cfg.chunkOverlap == 0 && buffer != "" ==> Seed(cfg, buffer, para) == buffer + para
    ensures |buffer| <= cfg.chunkOverlap ==> Seed(cfg, buffer, para) == para
  {
    SliceShape(buffer, -cfg.chunkOverlap);
  }

  function Max(a: int, b: int): int {
    if a >= b then a else b
  }

  /** The buffer and every closed buffer are at most `n` characters long. */
  predicate Bounded(st: ScanState, n: int) {
    |st.buffer| <= n && forall k :: 0 <= k < |st.closed| ==> |st.closed[k].buffer| <= n
  }

  lemma StepBound(cfg: Config, st: ScanState, para: string, longest: nat)
    requires cfg.chunkOverlap > 0 && |para| <= longest
    requires Bounded(st, Max(cfg.chunkSize, cfg.chunkOverlap + longest))
    ensures Bounded(Step(cfg, st, para), Max(cfg.chunkSize, cfg.chunkOverlap + longest))
  {
    var next := Step(cfg, st, para);
    StepFields(cfg, st, para);
    assert forall k :: 0 <= k < |st.closed| ==> next.closed[k] == st.closed[k];
  }

  /** With a positive overlap, a paragraph is added only while the buffer stays within
      `chunkSize`, and a buffer beyond it is a seed (overlap tail plus one paragraph):
      no buffer is longer than `max(chunkSize, chunkOverlap + L)` where `L` bounds the
      paragraph lengths. */
  lemma {:induction false} ScanBound(cfg: Config, paras: seq<string>, longest: nat)
    requires cfg.chunkOverlap > 0
    requires forall k :: 0 <= k < |paras| ==> |paras[k]| <= longest
    ensures Bounded(Scan(cfg, paras), Max(cfg.chunkSize, cfg.chunkOverlap + longest))
    decreases |paras|
  {
    if paras != [] {
      var init := paras[..|paras| - 1];
      assert forall k :: 0 <= k < |init| ==> init[k] == paras[k];
      ScanBound(cfg, init, longest);
      StepBound(cfg, Scan(cfg, init), paras[|paras| - 1], longest);
    }
  }

  /** The longest paragraph length. */
  function LongestLength(paras: seq<string>): (n: nat)
    ensures forall k :: 0 <= k < |paras| ==> |paras[k]| <= n
    ensures paras != [] ==> exists k :: 0 <= k < |paras| && |paras[k]| == n
    decreases |paras|
  {
    if paras == [] then 0
    else
      var init := paras[..|paras| - 1];
      var m := LongestLength(init);
      var last := |paras[|paras| - 1]|;
      assert forall k :: 0 <= k < |init| ==> paras[k] == init[k];
      if last > m then last else m
  }

  /** With a positive overlap no record of a page is longer than
      `max(chunkSize, chunkOverlap + L)`, `L` the length of its longest paragraph. */
  lemma PackBound(cfg: Config, paras: seq<string>, pageNumber: int, source: string)
    requires cfg.chunkOverlap > 0
    ensures forall k :: 0 <= k < |Pack(cfg, paras, pageNumber, source)| ==>
      |Pack(cfg, paras, pageNumber, source)[k].text| <= Max(cfg.chunkSize, cfg.chunkOverlap + LongestLength(paras))
  {
    var st := Scan(cfg, paras);
    var spans := PageSpans(cfg, paras);
    var chunks := Pack(cfg, paras, pageNumber, source);
    ScanBound(cfg, paras, LongestLength(paras));
    assert forall k :: 0 <= k < |st.closed| ==> spans[k] == st.closed[k];
    forall k | 0 <= k < |chunks|
      ensures |chunks[k].text| <= Max(cfg.chunkSize, cfg.chunkOverlap + LongestLength(paras))
    {
      assert |chunks[k].text| <= |spans[k].buffer|;
    }
  }

  lemma ScanTwo(cfg: Config, a: string, b: string)
    ensures Scan(cfg, [a, b]) == Step(cfg, Step(cfg, ScanState([], "", 0), a), b)
  {
    assert [a, b][..1] == [a];
    assert [a][..0] == [];
    assert Scan(cfg, []) == ScanState([], "", 0);
    assert Scan(cfg, [a]) == Step(cfg, Scan(cfg, []), a);
  }

  lemma LongestOfTwo(a: string, b: string)
    ensures LongestLength([a, b]) == Max(|a|, |b|)
  {
    assert [a, b][..1] == [a];
    assert [a][..0] == [];
  }

  /** With `chunkOverlap == 0` the bound above fails: two paragraphs each longer than
      `chunkSize` end up in one buffer, because Python's `buffer[-0:]` is the whole
      closed buffer, which is carried into the next one. */
  lemma ZeroOverlapKeepsWholeBuffer(cfg: Config, a: string, b: string)
    requires cfg.chunkOverlap == 0 && 0 <= cfg.chunkSize < |a| && cfg.chunkSize < |b|
    ensures Scan(cfg, [a, b]).buffer == a + b
    ensures |Scan(cfg, [a, b]).buffer| > Max(cfg.chunkSize, cfg.chunkOverlap + LongestLength([a, b]))
  {
    var st0 := ScanState([], "", 0);
    ScanTwo(cfg, a, b);
    StepFields(cfg, st0, a);
    var st1 := Step(cfg, st0, a);
    assert st1.buffer == a;
    StepFields(cfg, st1, b);
    assert SliceFrom(a, -cfg.chunkOverlap) == a;
    LongestOfTwo(a, b);
  }

  /** `current_start` and every recorded start are non-negative. */
  predicate StartsOk(st: ScanState) {
    st.start >= 0 && forall k :: 0 <= k < |st.closed| ==> st.closed[k].start >= 0
  }

  /** `current_start` never decreases when the overlap is non-negative and at most half
      of `chunkSize`: a seed is then at least `chunkOverlap` characters long. */
  lemma StepStart(cfg: Config, st: ScanState, para: string)
    requires 0 <= cfg.chunkOverlap && 2 * cfg.chunkOverlap <= cfg.chunkSize
    ensures Step(cfg, st, para).start >= st.start
    ensures StartsOk(st) ==> StartsOk(Step(cfg, st, para))
  {
    var next := Step(cfg, st, para);
    StepFields(cfg, st, para);
    if |st.buffer| + |para| > cfg.chunkSize {
      assert |Seed(cfg, st.buffer, para)| >= cfg.chunkOverlap;
    }
    assert forall k :: 0 <= k < |st.closed| ==> next.closed[k] == st.closed[k];
  }

  lemma {:induction false} ScanStartMonotone(cfg: Config, paras: seq<string>)
    requires 0 <= cfg.chunkOverlap && 2 * cfg.chunkOverlap <= cfg.chunkSize
    ensures StartsOk(Scan(cfg, paras))
    decreases |paras|
  {
    if paras != [] {
      var init := paras[..|paras| - 1];
      ScanStartMonotone(cfg, init);
      StepStart(cfg, Scan(cfg, init), paras[|paras| - 1]);
    }
  }

  /** Every start position of a page is non-negative when the overlap is non-negative
      and at most half of `chunkSize`, as with the defaults 2000 and 300. */
  lemma PackStartsNonNegative(cfg: Config, paras: seq<string>, pageNumber: int, source: string)
    requires 0 <= cfg.chunkOverlap && 2 * cfg.chunkOverlap <= cfg.chunkSize
    ensures forall k :: 0 <= k < |Pack(cfg, paras, pageNumber, source)| ==>
      Pack(cfg, paras, pageNumber, source)[k].startPosition >= 0
  {
    var st := Scan(cfg, paras);
    var spans := PageSpans(cfg, paras);
    ScanStartMonotone(cfg, paras);
    assert forall k :: 0 <= k < |st.closed| ==> spans[k] == st.closed[k];
  }

  /** The start position is not clamped: with an overlap above half of `chunkSize` a
      paragraph shorter than the overlap drives it below zero. */
  lemma NegativeStartPosition(a: string, b: string)
    requires |a| == 4 && |b| == 3
    ensures Scan(Config(5, 4, 1), [a, b]).start == -1
  {
    var cfg := Config(5, 4, 1);
    var st0 := ScanState([], "", 0);
    ScanTwo(cfg, a, b);
    StepFields(cfg, st0, a);
    StepFields(cfg, Step(cfg, st0, a), b);
  }

  /** `_chunk_page`. */
  method ChunkPage(cfg: Config, text: string, pageNumber: int, source: string) returns (chunks: seq<PageChunk>)
    ensures chunks == PageChunks(cfg, text, pageNumber, source)
  {
    var paragraphs := SplitIntoParagraphs(text);
    chunks := PackParagraphs(cfg, paragraphs, pageNumber, source);
  }

  /** One iteration of the loop of `_chunk_page`: the buffer is closed (and recorded
      unless blank) when the paragraph does not fit, and reseeded with the overlap;
      otherwise the paragraph is appended. */
  method PackStep(cfg: Config, chunks: seq<PageChunk>, currentChunk: string, currentStart: int, para: string,
                  pageNumber: int, source: string, ghost closed: seq<Span>)
    returns (newChunks: seq<PageChunk>, nextChunk: string, nextStart: int, ghost nextClosed: seq<Span>)
    requires chunks == Records(closed, pageNumber, source)
    ensures ScanState(nextClosed, nextChunk, nextStart) == Step(cfg, ScanState(closed, currentChunk, currentStart), para)
    ensures newChunks == Records(nextClosed, pageNumber, source)
  {
    StepFields(cfg, ScanState(closed, currentChunk, currentStart), para);
    newChunks, nextChunk, nextStart, nextClosed := chunks, currentChunk, currentStart, closed;
    if |currentChunk| + |para| > cfg.chunkSize {
      if Strip(currentChunk) != "" {
        RecordsSnoc(closed, Span(currentChunk, currentStart), pageNumber, source);
        newChunks := chunks + [CreateChunk(currentChunk, pageNumber, source, currentStart)];
        nextClosed := closed + [Span(currentChunk, currentStart)];
      }
      if |currentChunk| > cfg.chunkOverlap {
        var overlapText := SliceFrom(currentChunk, -cfg.chunkOverlap);
        nextChunk := overlapText + para;
      } else {
        nextChunk := para;
      }
      nextStart := currentStart + |nextChunk| - cfg.chunkOverlap;
    } else {
      nextChunk := currentChunk + para;
    }
  }

  /** The loop of `_chunk_page` over the paragraphs, with the final flush. */
  method PackParagraphs(cfg: Config, paragraphs: seq<string>, pageNumber: int, source: string) returns (chunks: seq<PageChunk>)
    ensures chunks == Pack(cfg, paragraphs, pageNumber, source)
  {
    chunks := [];
    var currentChunk := "";
    var currentStart := 0;
    ghost var closed: seq<Span> := [];
    for i := 0 to |paragraphs|
      invariant ScanState(closed, currentChunk, currentStart) == Scan(cfg, paragraphs[..i])
      invariant chunks == Records(closed, pageNumber, source)
    {
      chunks, currentChunk, currentStart, closed :=
        PackStep(cfg, chunks, currentChunk, currentStart, paragraphs[i], pageNumber, source, closed);
      ScanSnoc(cfg, paragraphs, i);
    }
    assert paragraphs[..|paragraphs|] == paragraphs;
    ghost var last := ScanState(closed, currentChunk, currentStart);
    if |Strip(currentChunk)| >= cfg.minChunkSize {
      RecordsSnoc(closed, Span(currentChunk, currentStart), pageNumber, source);
      chunks := chunks + [CreateChunk(currentChunk, pageNumber, source, currentStart)];
      closed := closed + [Span(currentChunk, currentStart)];
    }
    assert closed == Flush(cfg, last);
  }

  // ---------------------------------------------------------------------------
  // chunk_document and chunk_documents
  // ---------------------------------------------------------------------------

  /** The chunks of the given pages, page after page. */
  function PagesChunks(cfg: Config, fileName: string, pages: seq<Page>): seq<PageChunk>
    decreases |pages|
  {
    if pages == [] then []
    else
      var p := pages[|pages| - 1];
      PagesChunks(cfg, fileName, pages[..|pages| - 1]) + PageChunks(cfg, p.text, p.pageNumber, fileName)
  }

  /** Stamps `chunk_id` and `document` on a record. */
  function Stamp(c: PageChunk, id: int, fileName: string): Chunk {
    Chunk(id, fileName, c.text, c.pageNumber, c.source, c.startPosition, c.charCount, c.wordCount, None)
  }

  /** Numbers the records `first`, `first + 1`, ... in order. */
  function StampFrom(s: seq<PageChunk>, first: int, fileName: string): seq<Chunk> {
    seq(|s|, k requires 0 <= k < |s| => Stamp(s[k], first + k, fileName))
  }

  /** Numbers the records 0, 1, 2, ... in order. */
  function StampAll(s: seq<PageChunk>, fileName: string): seq<Chunk> {
    StampFrom(s, 0, fileName)
  }

  lemma StampAllAppend(a: seq<PageChunk>, b: seq<PageChunk>, fileName: string)
    ensures StampAll(a + b, fileName) == StampAll(a, fileName) + StampFrom(b, |a|, fileName)
  {
    var l := StampAll(a + b, fileName);
    var r := StampAll(a, fileName) + StampFrom(b, |a|, fileName);
    forall k | 0 <= k < |l| ensures l[k] == r[k] {
      if k < |a| {
        assert (a + b)[k] == a[k];
      } else {
        assert (a + b)[k] == b[k - |a|];
      }
    }
  }

  /** The inner loop of `chunk_document`: stamps each record of one page with the next
      `chunk_id` and the document name, and appends it. */
  method AppendPage(allChunks: seq<Chunk>, chunkId: int, pageChunks: seq<PageChunk>, fileName: string)
    returns (newChunks: seq<Chunk>, nextId: int)
    ensures newChunks == allChunks + StampFrom(pageChunks, chunkId, fileName)
    ensures nextId == chunkId + |pageChunks|
  {
    newChunks := allChunks;
    nextId := chunkId;
    for j := 0 to |pageChunks|
      invariant nextId == chunkId + j
      invariant newChunks == allChunks + StampFrom(pageChunks[..j], chunkId, fileName)
    {
      newChunks := newChunks + [Stamp(pageChunks[j], nextId, fileName)];
      nextId := nextId + 1;
      assert StampFrom(pageChunks[..j + 1], chunkId, fileName)
          == StampFrom(pageChunks[..j], chunkId, fileName) + [Stamp(pageChunks[j], chunkId + j, fileName)];
    }
    assert pageChunks[..|pageChunks|] == pageChunks;
  }

  lemma PagesChunksSnoc(cfg: Config, fileName: string, pages: seq<Page>, p: nat)
    requires p < |pages|
    ensures PagesChunks(cfg, fileName, pages[..p + 1])
         == PagesChunks(cfg, fileName, pages[..p]) + PageChunks(cfg, pages[p].text, pages[p].pageNumber, fileName)
  {
    assert pages[..p + 1][..p] == pages[..p];
    assert pages[..p + 1][p] == pages[p];
  }

  /** What `chunk_document` returns. */
  function DocumentChunks(cfg: Config, doc: Document): seq<Chunk> {
    StampAll(PagesChunks(cfg, doc.fileName, doc.pages), doc.fileName)
  }

  /** `chunk_document` numbers the records of a document 0, 1, 2, ... in page order,
      names the document on each, leaves `relevance_score` unset and keeps every other
      field of the page record. */
  lemma DocumentChunksStamped(cfg: Config, doc: Document)
    ensures |DocumentChunks(cfg, doc)| == |PagesChunks(cfg, doc.fileName, doc.pages)|
    ensures forall k :: 0 <= k < |DocumentChunks(cfg, doc)| ==>
      var c := DocumentChunks(cfg, doc)[k];
      c.chunkId == k && c.document == doc.fileName && c.relevanceScore == None
      && c.Piece() == PagesChunks(cfg, doc.fileName, doc.pages)[k]
  {
  }

  /** No chunk spans two pages: every record comes from the chunks of a single page. */
  lemma {:induction false} PagesChunksFromOnePage(cfg: Config, fileName: string, pages: seq<Page>, k: nat)
    requires k < |PagesChunks(cfg, fileName, pages)|
    ensures exists j :: (0 <= j < |pages| &&
      PagesChunks(cfg, fileName, pages)[k] in PageChunks(cfg, pages[j].text, pages[j].pageNumber, fileName))
    decreases |pages|
  {
    var init := pages[..|pages| - 1];
    var p := pages[|pages| - 1];
    var before := PagesChunks(cfg, fileName, init);
    if k < |before| {
      PagesChunksFromOnePage(cfg, fileName, init, k);
      var j :| 0 <= j < |init| && before[k] in PageChunks(cfg, init[j].text, init[j].pageNumber, fileName);
      assert init[j] == pages[j];
    } else {
      assert PagesChunks(cfg, fileName, pages)[k] == PageChunks(cfg, p.text, p.pageNumber, fileName)[k - |before|];
    }
  }

  /** Each chunk of a document carries the page number of the page it came from. */
  lemma DocumentChunkPage(cfg: Config, doc: Document, k: nat)
    requires k < |DocumentChunks(cfg, doc)|
    ensures exists j :: 0 <= j < |doc.pages| && DocumentChunks(cfg, doc)[k].pageNumber == doc.pages[j].pageNumber
  {
    var all := PagesChunks(cfg, doc.fileName, doc.pages);
    PagesChunksFromOnePage(cfg, doc.fileName, doc.pages, k);
    var j :| 0 <= j < |doc.pages| && all[k] in PageChunks(cfg, doc.pages[j].text, doc.pages[j].pageNumber, doc.fileName);
    var pcs := PageChunks(cfg, doc.pages[j].text, doc.pages[j].pageNumber, doc.fileName);
    var m :| 0 <= m < |pcs| && pcs[m] == all[k];
    PackOrigin(cfg, SplitIntoParagraphs(doc.pages[j].text), doc.pages[j].pageNumber, doc.fileName, m);
  }

  /** `TextChunker.chunk_document`: `chunk_id` restarts at 0 for every document. */
  method ChunkDocument(cfg: Config, doc: Document) returns (allChunks: seq<Chunk>)
    ensures allChunks == DocumentChunks(cfg, doc)
  {
    allChunks := [];
    var chunkId := 0;
    for p := 0 to |doc.pages|
      invariant chunkId == |allChunks|
      invariant allChunks == StampAll(PagesChunks(cfg, doc.fileName, doc.pages[..p]), doc.fileName)
    {
      var page := doc.pages[p];
      var pageChunks := ChunkPage(cfg, page.text, page.pageNumber, doc.fileName);
      StampAllAppend(PagesChunks(cfg, doc.fileName, doc.pages[..p]), pageChunks, doc.fileName);
      allChunks, chunkId := AppendPage(allChunks, chunkId, pageChunks, doc.fileName);
      PagesChunksSnoc(cfg, doc.fileName, doc.pages, p);
    }
    assert doc.pages[..|doc.pages|] == doc.pages;
  }

  /** What module-level `chunk_documents` returns: each document's chunks, in input
      order, all chunked with the default configuration. */
  function CorpusChunks(docs: seq<Document>): seq<Chunk>
    decreases |docs|
  {
    if docs == [] then []
    else CorpusChunks(docs[..|docs| - 1]) + DocumentChunks(DefaultConfig, docs[|docs| - 1])
  }

  /** Every chunk of the corpus names one of the input documents. */
  lemma {:induction false} CorpusChunkOrigin(docs: seq<Document>)
    ensures forall k :: 0 <= k < |CorpusChunks(docs)| ==>
      exists d :: 0 <= d < |docs| && CorpusChunks(docs)[k].document == docs[d].fileName
    decreases |docs|
  {
    if docs != [] {
      var init := docs[..|docs| - 1];
      var last := docs[|docs| - 1];
      var before := CorpusChunks(init);
      var all := CorpusChunks(docs);
      CorpusChunkOrigin(init);
      DocumentChunksStamped(DefaultConfig, last);
      forall k | 0 <= k < |all|
        ensures exists d :: 0 <= d < |docs| && all[k].document == docs[d].fileName
      {
        if k < |before| {
          var d :| 0 <= d < |init| && before[k].document == init[d].fileName;
          assert all[k] == before[k] && init[d] == docs[d];
        } else {
          assert all[k] == DocumentChunks(DefaultConfig, last)[k - |before|];
          assert all[k].document == docs[|docs| - 1].fileName;
        }
      }
    } else {
      assert CorpusChunks(docs) == [];
    }
  }

  /** `chunk_documents`. The progress line it prints is not modelled. */
  method ChunkDocuments(documents: seq<Document>) returns (allChunks: seq<Chunk>)
    ensures allChunks == CorpusChunks(documents)
  {
    allChunks := [];
    for d := 0 to |documents|
      invariant allChunks == CorpusChunks(documents[..d])
    {
      var docChunks := ChunkDocument(DefaultConfig, documents[d]);
      allChunks := allChunks + docChunks;
      assert documents[..d + 1][..d] == documents[..d];
    }
    assert documents[..|documents|] == documents;
  }
}
