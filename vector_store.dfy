/** The in-memory store of `src/search/vector_store.py`: a list of chunks, the
    TF-IDF matrix fitted on their texts, and an `is_indexed` flag. The vectorizer
    and the cosine similarity are library code; they are a `Scorer` here, and what
    is proved is the selection around it: the `top_k` best rows by similarity, then
    the threshold, then copies of the stored chunks. */
module VectorStores {
  import opened Wrappers
  import opened PySeqs
  import opened TextChunking

  /** The similarity of a query to row `i` of the matrix fitted on `fitted`:
      `cosine_similarity(vectorizer.transform([query]), vectors)[0][i]`. */
  type Scorer = (string, seq<string>, nat) -> real

  /** One score per fitted row. */
  function Similarities(scorer: Scorer, query: string, fitted: seq<string>): (sims: seq<real>)
    ensures |sims| == |fitted|
  {
    seq(|fitted|, i requires 0 <= i < |fitted| => scorer(query, fitted, i))
  }

  /** `[chunk['text'] for chunk in chunks]`. */
  function Texts(chunks: seq<Chunk>): (texts: seq<string>)
    ensures |texts| == |chunks|
  {
    seq(|chunks|, i requires 0 <= i < |chunks| => chunks[i].text)
  }

  /** One search result: a copy of a stored chunk and its similarity. */
  datatype Hit = Hit(chunk: Chunk, score: real)

  /** The row indices `0 .. n - 1`. */
  function Range(n: nat): (r: seq<nat>)
    ensures |r| == n
  {
    seq(n, i requires 0 <= i < n => i)
  }

  /** Similarity is non-increasing along `idxs`. */
  predicate DescendingAlong(sims: seq<real>, idxs: seq<nat>) {
    forall i, j :: 0 <= i < j < |idxs| && idxs[i] < |sims| && idxs[j] < |sims| ==>
      sims[idxs[i]] >= sims[idxs[j]]
  }

  /** `order` lists every row index exactly once, best similarity first: what
      `np.argsort(similarities)[::-1]` returns. The order among equal similarities
      is left open, as numpy does not fix it. */
  predicate IsRanking(order: seq<nat>, sims: seq<real>) {
    && multiset(order) == multiset(Range(|sims|))
    && (forall k :: 0 <= k < |order| ==> order[k] < |sims|)
    && DescendingAlong(sims, order)
  }

  /** The sort key of row indices. */
  function SimKey(sims: seq<real>): nat -> real {
    (i: nat) => if i < |sims| then sims[i] else 0.0
  }

  /** One ranking: the row indices sorted by similarity, best first. */
  function RankDesc(sims: seq<real>): seq<nat> {
    SortDesc(Range(|sims|), SimKey(sims))
  }

  lemma RankDescIsRanking(sims: seq<real>)
    ensures IsRanking(RankDesc(sims), sims)
  {
    var r := Range(|sims|);
    var o := RankDesc(sims);
    SortDescSpec(r, SimKey(sims));
    forall k | 0 <= k < |o| ensures o[k] < |sims| {
      assert o[k] in multiset(o);
      assert o[k] in r;
    }
    forall i, j | 0 <= i < j < |o| && o[i] < |sims| && o[j] < |sims| ensures sims[o[i]] >= sims[o[j]] {
      assert SimKey(sims)(o[i]) >= SimKey(sims)(o[j]);
    }
  }

  /** The loop of `search` over the selected indices: an index past the similarity
      row raises `IndexError`; a row whose similarity reaches the threshold
      contributes a copy of the stored chunk at that index, and raises `IndexError`
      when the chunk list is shorter than the matrix. */
  function Collect(chunks: seq<Chunk>, sims: seq<real>, idxs: seq<nat>, threshold: real): Result<seq<Hit>>
    decreases |idxs|
  {
    if idxs == [] then Ok([])
    else
      match Collect(chunks, sims, idxs[..|idxs| - 1], threshold)
      case Err(e) => Err(e)
      case Ok(hits) =>
        var i := idxs[|idxs| - 1];
        if i >= |sims| then Err(IndexError)
        else if sims[i] < threshold then Ok(hits)
        else if i < |chunks| then Ok(hits + [Hit(chunks[i], sims[i])])
        else Err(IndexError)
  }

  lemma {:induction false} CollectBound(chunks: seq<Chunk>, sims: seq<real>, idxs: seq<nat>, threshold: real)
    ensures Collect(chunks, sims, idxs, threshold).Ok? ==>
      var hits := Collect(chunks, sims, idxs, threshold).value;
      |hits| <= |idxs| && forall j :: 0 <= j < |hits| ==> hits[j].score >= threshold
    decreases |idxs|
  {
    if idxs != [] {
      CollectBound(chunks, sims, idxs[..|idxs| - 1], threshold);
    }
  }

  /** With similarities non-increasing along the indices, the hits are exactly the
      rows of a prefix of the indices, and every row after that prefix is below the
      threshold: the threshold cuts the top-`k` list, it does not pick from it. */
  lemma {:induction false} CollectPrefix(chunks: seq<Chunk>, sims: seq<real>, idxs: seq<nat>, threshold: real)
    requires DescendingAlong(sims, idxs)
    ensures Collect(chunks, sims, idxs, threshold).Ok? ==>
      var hits := Collect(chunks, sims, idxs, threshold).value;
      && |hits| <= |idxs|
      && (forall j :: 0 <= j < |hits| ==>
            idxs[j] < |chunks| && idxs[j] < |sims| && hits[j] == Hit(chunks[idxs[j]], sims[idxs[j]]))
      && (forall j :: |hits| <= j < |idxs| ==> idxs[j] < |sims| && sims[idxs[j]] < threshold)
    decreases |idxs|
  {
    if idxs != [] {
      var init := idxs[..|idxs| - 1];
      assert DescendingAlong(sims, init) by {
        forall a, b | 0 <= a < b < |init| && init[a] < |sims| && init[b] < |sims|
          ensures sims[init[a]] >= sims[init[b]]
        {
          assert init[a] == idxs[a] && init[b] == idxs[b];
        }
      }
      CollectPrefix(chunks, sims, init, threshold);
    }
  }

  /** Raising the threshold over the same ranked indices never adds a hit nor an
      error. */
  lemma {:induction false} ThresholdMonotone(chunks: seq<Chunk>, sims: seq<real>, idxs: seq<nat>, t1: real, t2: real)
    requires t1 <= t2
    ensures Collect(chunks, sims, idxs, t1).Ok? ==>
      Collect(chunks, sims, idxs, t2).Ok? &&
      |Collect(chunks, sims, idxs, t2).value| <= |Collect(chunks, sims, idxs, t1).value|
    decreases |idxs|
  {
    if idxs != [] {
      ThresholdMonotone(chunks, sims, idxs[..|idxs| - 1], t1, t2);
    }
  }

  /** When every selected row exists and has a stored chunk, the loop never fails. */
  lemma {:induction false} CollectOk(chunks: seq<Chunk>, sims: seq<real>, idxs: seq<nat>, threshold: real)
    requires forall k :: 0 <= k < |idxs| ==> idxs[k] < |sims|
    requires |sims| <= |chunks|
    ensures Collect(chunks, sims, idxs, threshold).Ok?
    decreases |idxs|
  {
    if idxs != [] {
      CollectOk(chunks, sims, idxs[..|idxs| - 1], threshold);
    }
  }

  /** Once an index fails, the whole loop fails with that error. */
  lemma {:induction false} CollectErrSticks(chunks: seq<Chunk>, sims: seq<real>, idxs: seq<nat>, k: nat, threshold: real)
    requires k <= |idxs| && Collect(chunks, sims, idxs[..k], threshold).Err?
    ensures Collect(chunks, sims, idxs, threshold) == Collect(chunks, sims, idxs[..k], threshold)
    decreases |idxs| - k
  {
    if k < |idxs| {
      assert idxs[..k + 1][..k] == idxs[..k];
      CollectErrSticks(chunks, sims, idxs, k + 1, threshold);
    } else {
      assert idxs[..k] == idxs;
    }
  }

  /** `h` is a copy of a stored chunk together with the similarity of its row. */
  predicate StoredHit(chunks: seq<Chunk>, sims: seq<real>, h: Hit) {
    exists i :: 0 <= i < |chunks| && i < |sims| && h == Hit(chunks[i], sims[i])
  }

  /** The first `top_k` indices of a ranking keep its order. */
  lemma TopDescending(order: seq<nat>, sims: seq<real>, topK: int)
    requires IsRanking(order, sims)
    ensures DescendingAlong(sims, SliceTo(order, topK))
    ensures forall k :: 0 <= k < |SliceTo(order, topK)| ==> SliceTo(order, topK)[k] < |sims|
  {
    var top := SliceTo(order, topK);
    SliceShape(order, topK);
    forall i, j | 0 <= i < j < |top| && top[i] < |sims| && top[j] < |sims| ensures sims[top[i]] >= sims[top[j]] {
      assert top[i] == order[i] && top[j] == order[j];
    }
  }

  /** What `search` returns from an indexed store: at most `top_k` hits, each at or
      above the threshold, in non-increasing similarity, each a copy of the chunk
      stored at its row together with that row's similarity. */
  lemma SearchHits(chunks: seq<Chunk>, sims: seq<real>, order: seq<nat>, topK: int, threshold: real, hits: seq<Hit>)
    requires IsRanking(order, sims)
    requires Collect(chunks, sims, SliceTo(order, topK), threshold) == Ok(hits)
    ensures topK >= 0 ==> |hits| <= topK
    ensures forall j :: 0 <= j < |hits| ==> hits[j].score >= threshold
    ensures forall i, j :: 0 <= i < j < |hits| ==> hits[i].score >= hits[j].score
    ensures forall j :: 0 <= j < |hits| ==> StoredHit(chunks, sims, hits[j])
  {
    var top := SliceTo(order, topK);
    SliceShape(order, topK);
    TopDescending(order, sims, topK);
    CollectBound(chunks, sims, top, threshold);
    CollectPrefix(chunks, sims, top, threshold);
    forall i, j | 0 <= i < j < |hits| ensures hits[i].score >= hits[j].score {
      assert hits[i].score == sims[top[i]] && hits[j].score == sims[top[j]];
    }
    forall j | 0 <= j < |hits| ensures StoredHit(chunks, sims, hits[j]) {
      var i := top[j];
      assert hits[j] == Hit(chunks[i], sims[i]);
    }
  }

  /** A store whose matrix was fitted on its current chunks never fails a search. */
  lemma FreshSearchOk(chunks: seq<Chunk>, sims: seq<real>, order: seq<nat>, topK: int, threshold: real)
    requires IsRanking(order, sims) && |sims| <= |chunks|
    ensures Collect(chunks, sims, SliceTo(order, topK), threshold).Ok?
  {
    TopDescending(order, sims, topK);
    CollectOk(chunks, sims, SliceTo(order, topK), threshold);
  }

  /** The stale index left behind by `add_chunks([])` on an indexed store: the chunk
      list is empty while the matrix still has rows, so as soon as the best row
      reaches the threshold and `top_k` keeps it, `search` raises `IndexError`. */
  lemma StaleSearchFails(sims: seq<real>, order: seq<nat>, topK: int, threshold: real)
    requires topK >= 1 && IsRanking(order, sims)
    requires order != [] && sims[order[0]] >= threshold
    ensures Collect([], sims, SliceTo(order, topK), threshold) == Err(IndexError)
  {
    var top := SliceTo(order, topK);
    SliceShape(order, topK);
    assert top[0] == order[0];
    assert top[..1] == [top[0]];
    assert [top[0]][..0] == [];
    CollectErrSticks([], sims, top, 1, threshold);
  }

  /** The loop of `search`, from the selected indices to the hits. */
  method CollectHits(chunks: seq<Chunk>, sims: seq<real>, topIndices: seq<nat>, threshold: real)
    returns (r: Result<seq<Hit>>)
    ensures r == Collect(chunks, sims, topIndices, threshold)
  {
    var results: seq<Hit> := [];
    for k := 0 to |topIndices|
      invariant Collect(chunks, sims, topIndices[..k], threshold) == Ok(results)
    {
      var idx := topIndices[k];
      assert topIndices[..k + 1][..k] == topIndices[..k];
      if idx >= |sims| {
        CollectErrSticks(chunks, sims, topIndices, k + 1, threshold);
        return Err(IndexError);
      }
      var similarity := sims[idx];
      if similarity >= threshold {
        if idx >= |chunks| {
          CollectErrSticks(chunks, sims, topIndices, k + 1, threshold);
          return Err(IndexError);
        }
        results := results + [Hit(chunks[idx], similarity)];
      }
    }
    assert topIndices[..|topIndices|] == topIndices;
    r := Ok(results);
  }

  /** The statistics `get_stats` reports. */
  datatype Stats = Stats(totalChunks: nat, isIndexed: bool, vocabularySize: nat, documents: nat)

  /** The distinct `document` values of the chunks. */
  function DocumentNames(chunks: seq<Chunk>): set<string> {
    set k | 0 <= k < |chunks| :: chunks[k].document
  }

  lemma {:induction false} DocumentNamesBound(chunks: seq<Chunk>)
    ensures |DocumentNames(chunks)| <= |chunks|
    ensures |DocumentNames(chunks)| == 0 <==> chunks == []
    decreases |chunks|
  {
    if chunks != [] {
      var init := chunks[..|chunks| - 1];
      DocumentNamesBound(init);
      assert DocumentNames(chunks) == DocumentNames(init) + {chunks[|chunks| - 1].document} by {
        forall d | d in DocumentNames(chunks) ensures d in DocumentNames(init) + {chunks[|chunks| - 1].document} {
          var k :| 0 <= k < |chunks| && chunks[k].document == d;
          if k < |init| {
            assert init[k] == chunks[k];
          }
        }
        forall d | d in DocumentNames(init) ensures d in DocumentNames(chunks) {
          var k :| 0 <= k < |init| && init[k].document == d;
          assert chunks[k] == init[k];
        }
      }
      assert chunks[|chunks| - 1].document in DocumentNames(chunks);
    }
  }

  /** `VectorStore`. `fitted` holds the texts the vectorizer was last fitted on, and
      so stands for both `vectors` and the vectorizer's vocabulary. */
  class VectorStore {
    var chunks: seq<Chunk>
    var fitted: Option<seq<string>>
    var isIndexed: bool

    /** A store is indexed exactly when a matrix has been fitted, always on at least
        one text. */
    predicate Valid()
      reads this
    {
      (isIndexed <==> fitted.Some?) && (fitted.Some? ==> fitted.value != [])
    }

    /** The matrix is the one fitted on the current chunks. */
    predicate Fresh()
      reads this
    {
      fitted == Some(Texts(chunks))
    }

    constructor ()
      ensures Valid() && !isIndexed
      ensures chunks == [] && fitted == None
    {
      chunks := [];
      fitted := None;
      isIndexed := false;
    }

    /** `add_chunks`: replaces the chunk list wholesale, then rebuilds the index. */
    method AddChunks(newChunks: seq<Chunk>)
      requires Valid()
      modifies this
      ensures Valid()
      ensures chunks == newChunks
      ensures newChunks != [] ==> isIndexed && Fresh()
      ensures newChunks == [] ==> isIndexed == old(isIndexed) && fitted == old(fitted)
    {
      chunks := newChunks;
      BuildIndex();
    }

    /** `_build_index`: refits on the chunk texts unless there are no chunks, in which
        case the previous matrix and flag stay as they were. */
    method BuildIndex()
      requires Valid()
      modifies this
      ensures Valid()
      ensures chunks == old(chunks)
      ensures chunks != [] ==> isIndexed && Fresh()
      ensures chunks == [] ==> isIndexed == old(isIndexed) && fitted == old(fitted)
    {
      if chunks == [] {
        return;
      }
      var texts := Texts(chunks);
      fitted := Some(texts);
      isIndexed := true;
    }

    /** `search`. The ranking it used is returned as a ghost value. */
    method Search(scorer: Scorer, query: string, topK: int, threshold: real)
      returns (r: Result<seq<Hit>>, ghost order: seq<nat>)
      requires Valid()
      ensures !isIndexed ==> r == Ok([])
      ensures isIndexed ==>
        var sims := Similarities(scorer, query, fitted.value);
        IsRanking(order, sims) && r == Collect(chunks, sims, SliceTo(order, topK), threshold)
      ensures Fresh() ==> r.Ok?
    {
      if !isIndexed {
        return Ok([]), [];
      }
      var sims := Similarities(scorer, query, fitted.value);
      var ranked := RankDesc(sims);
      RankDescIsRanking(sims);
      order := ranked;
      if Fresh() {
        FreshSearchOk(chunks, sims, ranked, topK, threshold);
      }
      var topIndices := SliceTo(ranked, topK);
      r := CollectHits(chunks, sims, topIndices, threshold);
    }

    /** `get_stats`. The vocabulary size of a fitted vectorizer is a parameter. */
    function GetStats(vocabularySize: seq<string> -> nat): Stats
      reads this
      requires Valid()
    {
      Stats(|chunks|, isIndexed, if isIndexed then vocabularySize(fitted.value) else 0, |DocumentNames(chunks)|)
    }
  }

  /** `get_stats` counts every chunk, counts each document once (so never more
      documents than chunks, and none only for an empty store), and reports an empty
      vocabulary before the first fit. */
  lemma StatsFacts(store: VectorStore, vocabularySize: seq<string> -> nat)
    requires store.Valid()
    ensures store.GetStats(vocabularySize).totalChunks == |store.chunks|
    ensures store.GetStats(vocabularySize).documents == |DocumentNames(store.chunks)|
    ensures store.GetStats(vocabularySize).documents <= store.GetStats(vocabularySize).totalChunks
    ensures store.GetStats(vocabularySize).documents == 0 <==> store.chunks == []
    ensures !store.isIndexed ==> store.GetStats(vocabularySize).vocabularySize == 0
  {
    DocumentNamesBound(store.chunks);
  }
}
