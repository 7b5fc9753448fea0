/**
 * The earlier `RAGSystem` without a course filter: the same chunk store and
 * the same per-course cap of three, with `k = 4` by default and a search for
 * `num_courses * k * 2` rows. The rows in a result and the hits are those of
 * module `Rag`.
 */
module RagNoFilter {
  import opened Py
  import Text
  import Rag

  /** `retrieve`'s default `k`. */
  const DefaultK: int := 4

  /** The number of rows asked of the index: `num_courses * k * 2`. */
  function TopN(numCourses: int, k: int): int {
    numCourses * k * 2
  }

  /**
   * The selection loop from candidate `i` on: the results it adds, or the
   * IndexError that an index out of range raises.
   */
  function SelectFrom(cands: seq<Rag.Candidate>, i: nat, chunks: seq<string>, meta: seq<string>,
                      k: int, counts: map<string, int>, taken: nat): (r: Outcome<seq<Rag.Hit>>)
    requires i <= |cands| && |chunks| == |meta|
    ensures r.Raise? ==> r.exception == IndexError
    ensures r.Return? ==> taken + |r.value| <= Max(k, taken + 1)
    decreases |cands| - i
  {
    if i == |cands| then Return([])
    else
      var c := cands[i];
      match At(meta, c.index)
      case Raise(e) => Raise(e)
      case Return(course) =>
        if Rag.CountOf(counts, course) >= Rag.PerCourseCap then
          SelectFrom(cands, i + 1, chunks, meta, k, counts, taken)
        else
          var hit := Rag.HitAt(c, chunks, meta);
          if taken + 1 >= k then Return([hit])
          else Rag.Prepend([hit], SelectFrom(cands, i + 1, chunks, meta, k, counts[course := Rag.CountOf(counts, course) + 1], taken + 1))
  }

  /**
   * `retrieve` on a store, given the rows the search returns: [] while no
   * index exists, else the selection over every row, FAISS padding included
   * (see `PaddingRepeatsLastChunk`; `RetrieveFixedOf` skips it).
   */
  function RetrieveOf(indexed: bool, chunks: seq<string>, meta: seq<string>, k: int,
                      cands: seq<Rag.Candidate>): Outcome<seq<Rag.Hit>>
    requires |chunks| == |meta|
  {
    if !indexed then Return([]) else SelectFrom(cands, 0, chunks, meta, k, map[], 0)
  }

  /** `retrieve` as evidently intended: the padding rows are dropped before the selection. */
  function RetrieveFixedOf(indexed: bool, chunks: seq<string>, meta: seq<string>, k: int,
                           cands: seq<Rag.Candidate>): (r: Outcome<seq<Rag.Hit>>)
    requires |chunks| == |meta|
    ensures !indexed ==> r == Return([])
    ensures r.Return? ==> Rag.Picks(r.value, Rag.RealRows(cands), 0, chunks, meta)
  {
    SameAsUnfiltered(Rag.RealRows(cands), 0, chunks, meta, k, map[], 0);
    Rag.SelectionIsSubsequence(Rag.RealRows(cands), 0, chunks, meta, None, k, map[], 0);
    RetrieveOf(indexed, chunks, meta, k, Rag.RealRows(cands))
  }

  /** On the same rows and `k`, this loop selects exactly what the filtered one does with no filter. */
  lemma {:induction false} SameAsUnfiltered(cands: seq<Rag.Candidate>, i: nat, chunks: seq<string>, meta: seq<string>,
                                            k: int, counts: map<string, int>, taken: nat)
    requires i <= |cands| && |chunks| == |meta|
    ensures SelectFrom(cands, i, chunks, meta, k, counts, taken)
         == Rag.SelectFrom(cands, i, chunks, meta, None, k, counts, taken)
    decreases |cands| - i
  {
    if i < |cands| && At(meta, cands[i].index).Return? {
      var course := At(meta, cands[i].index).value;
      SameAsUnfiltered(cands, i + 1, chunks, meta, k, counts, taken);
      SameAsUnfiltered(cands, i + 1, chunks, meta, k, counts[course := Rag.CountOf(counts, course) + 1], taken + 1);
    }
  }

  /**
   * With `k >= 1`: at most `k` results, at most three per course, and the
   * results are an order-preserving subsequence of the candidates' entries.
   */
  lemma RetrieveBounded(chunks: seq<string>, meta: seq<string>, k: int, cands: seq<Rag.Candidate>, course: string)
    requires |chunks| == |meta| && k >= 1
    ensures var r := RetrieveOf(true, chunks, meta, k, cands);
      r.Return? ==> && |r.value| <= k
                    && Rag.Occurrences(r.value, course) <= Rag.PerCourseCap
                    && Rag.Picks(r.value, cands, 0, chunks, meta)
  {
    SameAsUnfiltered(cands, 0, chunks, meta, k, map[], 0);
    Rag.CapRespected(cands, 0, chunks, meta, None, k, map[], 0, course);
    Rag.SelectionIsSubsequence(cands, 0, chunks, meta, None, k, map[], 0);
  }

  /** The corrected retrieval keeps the same bounds, and its hits come from real rows only. */
  lemma RetrieveFixedBounded(chunks: seq<string>, meta: seq<string>, k: int, cands: seq<Rag.Candidate>, course: string)
    requires |chunks| == |meta| && k >= 1
    ensures var r := RetrieveFixedOf(true, chunks, meta, k, cands);
      r.Return? ==> && |r.value| <= k
                    && Rag.Occurrences(r.value, course) <= Rag.PerCourseCap
                    && Rag.Picks(r.value, Rag.RealRows(cands), 0, chunks, meta)
  {
    RetrieveBounded(chunks, meta, k, Rag.RealRows(cands), course);
  }

  /** The rows for a one-chunk index asked for eight rows. */
  const OneChunkRows: seq<Rag.Candidate> := [Rag.Candidate(0, 0.25)] + seq(7, _ => Rag.Padding)

  /**
   * The loop as written, on the rows of a one-chunk index searched with the
   * default `k = 4`: rows 2 to 8 are padding, Python reads index -1 as the
   * last chunk, and the result holds the same chunk three times, until the
   * per-course cap stops it.
   */
  lemma PaddingRepeatsLastChunk()
    ensures var chunks, meta := ["Late work loses 10% per day."], ["CS316"];
      var pad := Rag.Hit(chunks[0], "CS316", Rag.PaddingDistance);
      && TopN(1, DefaultK) == 8
      && Rag.FaissRows(OneChunkRows, 8, 1)
      && RetrieveOf(true, chunks, meta, DefaultK, OneChunkRows) == Return([Rag.Hit(chunks[0], "CS316", 0.25), pad, pad])
  {
    var chunks, meta := ["Late work loses 10% per day."], ["CS316"];
    var pad := Rag.Hit(chunks[0], "CS316", Rag.PaddingDistance);
    var full: map<string, int> := map["CS316" := 3];
    assert At(meta, -1) == Return("CS316");
    assert SelectFrom(OneChunkRows, 7, chunks, meta, 4, full, 3) == Return([]);
    assert SelectFrom(OneChunkRows, 5, chunks, meta, 4, full, 3) == Return([]);
    assert SelectFrom(OneChunkRows, 3, chunks, meta, 4, full, 3) == Return([]);
    assert [pad] + [] == [pad];
    assert OneChunkRows[1] == OneChunkRows[2] == Rag.Padding;
    assert map["CS316" := 2]["CS316" := 3] == full;
    assert map["CS316" := 1]["CS316" := 2] == map["CS316" := 2];
    assert SelectFrom(OneChunkRows, 2, chunks, meta, 4, map["CS316" := 2], 2) == Return([pad]);
    assert [pad] + [pad] == [pad, pad];
    assert SelectFrom(OneChunkRows, 1, chunks, meta, 4, map["CS316" := 1], 1) == Return([pad, pad]);
    assert [Rag.Hit(chunks[0], "CS316", 0.25)] + [pad, pad] == [Rag.Hit(chunks[0], "CS316", 0.25), pad, pad];
  }

  /** On the same rows, the corrected retrieval keeps only the real hit. */
  lemma SkippingPaddingKeepsRealHit()
    ensures var chunks, meta := ["Late work loses 10% per day."], ["CS316"];
      RetrieveFixedOf(true, chunks, meta, DefaultK, OneChunkRows) == Return([Rag.Hit(chunks[0], "CS316", 0.25)])
  {
    var chunks, meta := ["Late work loses 10% per day."], ["CS316"];
    Rag.NoRealRows(OneChunkRows[1..]);
    assert Rag.RealRows(OneChunkRows) == [Rag.Candidate(0, 0.25)];
    var hit := Rag.Hit(chunks[0], "CS316", 0.25);
    assert SelectFrom([Rag.Candidate(0, 0.25)], 1, chunks, meta, 4, map["CS316" := 1], 1) == Return([]);
    assert [hit] + [] == [hit];
  }

  /** With no padding in the rows, the corrected retrieval selects what the code as written selects. */
  lemma FullIndexAsWritten(chunks: seq<string>, meta: seq<string>, k: int, cands: seq<Rag.Candidate>,
                           topN: nat, ntotal: nat)
    requires |chunks| == |meta| && Rag.FaissRows(cands, topN, ntotal) && topN <= ntotal
    ensures RetrieveFixedOf(true, chunks, meta, k, cands) == RetrieveOf(true, chunks, meta, k, cands)
  {
    Rag.AllRealRows(cands);
  }

  /**
   * The `for i, dist in zip(...)` loop of `retrieve` over the rows `cands`,
   * keeping at most `k` results and three per course.
   */
  method SelectLoop(cands: seq<Rag.Candidate>, chunks: seq<string>, meta: seq<string>, k: int)
    returns (r: Outcome<seq<Rag.Hit>>)
    requires |chunks| == |meta|
    ensures r == SelectFrom(cands, 0, chunks, meta, k, map[], 0)
  {
    var results: seq<Rag.Hit> := [];
    var counts: map<string, int> := map[];
    Rag.PrependNothing(SelectFrom(cands, 0, chunks, meta, k, counts, 0));
    var j := 0;
    while j < |cands|
      invariant 0 <= j <= |cands|
      invariant SelectFrom(cands, 0, chunks, meta, k, map[], 0)
             == Rag.Prepend(results, SelectFrom(cands, j, chunks, meta, k, counts, |results|))
    {
      var index, dist := cands[j].index, cands[j].distance;
      var course := At(meta, index);
      if course.Raise? {
        return Raise(IndexError);
      }
      var currentCount := Rag.CountOf(counts, course.value);
      if currentCount >= Rag.PerCourseCap {
        j := j + 1;
        continue;
      }
      var chunk := At(chunks, index).value;
      var hit := Rag.Hit(chunk, course.value, dist);
      if |results| + 1 < k {
        Rag.PrependTwice(results, [hit], SelectFrom(cands, j + 1, chunks, meta, k,
                                                    counts[course.value := currentCount + 1], |results| + 1));
      }
      counts := counts[course.value := currentCount + 1];
      results := results + [hit];
      if |results| >= k {
        return Return(results);
      }
      j := j + 1;
    }
    assert results + [] == results;
    return Return(results);
  }

  class RAGSystem {
    /** Chunks from every syllabus added so far. */
    var chunks: seq<string>
    /** `chunk_metadata[i]` is the course of `chunks[i]`. */
    var chunkMetadata: seq<string>
    /** Whether `index_chunks` has built an index. */
    var indexed: bool

    ghost predicate Valid()
      reads this
    {
      |chunks| == |chunkMetadata|
    }

    constructor()
      ensures Valid() && chunks == [] && chunkMetadata == [] && !indexed
    {
      chunks, chunkMetadata, indexed := [], [], false;
    }

    /** `add_course`: the chunks go last, each tagged with the upper-cased course name. */
    method AddCourse(courseName: string, newChunks: seq<string>)
      requires Valid()
      modifies this
      ensures Valid()
      ensures chunks == old(chunks) + newChunks
      ensures chunkMetadata == old(chunkMetadata) + Rag.Tags(courseName, |newChunks|)
      ensures indexed == old(indexed)
    {
      for j := 0 to |newChunks|
        invariant chunks == old(chunks) + newChunks[..j]
        invariant chunkMetadata == old(chunkMetadata) + Rag.Tags(courseName, j)
        invariant indexed == old(indexed)
      {
        chunks := chunks + [newChunks[j]];
        chunkMetadata := chunkMetadata + [Text.Upper(courseName)];
        assert Rag.Tags(courseName, j + 1) == Rag.Tags(courseName, j) + [Text.Upper(courseName)];
        assert newChunks[..j + 1] == newChunks[..j] + [newChunks[j]];
      }
      assert newChunks[..|newChunks|] == newChunks;
    }

    /** `index_chunks`: builds the index over the current chunks (the embeddings are not modelled). */
    method IndexChunks()
      modifies this
      ensures indexed && chunks == old(chunks) && chunkMetadata == old(chunkMetadata)
    {
      indexed := true;
    }

    /**
     * `retrieve(question, num_courses, k)`: `search` stands for encoding the
     * question and searching the index. Returns the result and the search
     * issued, if any.
     */
    method Retrieve(question: string, numCourses: int, search: (string, int) -> seq<Rag.Candidate>, k: int := DefaultK)
      returns (r: Outcome<seq<Rag.Hit>>, request: Option<(string, int)>)
      requires Valid()
      ensures request == if indexed then Some((question, TopN(numCourses, k))) else None
      ensures r == RetrieveOf(indexed, chunks, chunkMetadata, k, search(question, TopN(numCourses, k)))
    {
      if !indexed {
        return Return([]), None;
      }
      var topN := numCourses * k * 2;
      request := Some((question, topN));
      r := SelectLoop(search(question, topN), chunks, chunkMetadata, k);
    }

    /** `retrieve` as evidently intended: the same search, with the padding rows skipped. */
    method RetrieveFixed(question: string, numCourses: int, search: (string, int) -> seq<Rag.Candidate>, k: int := DefaultK)
      returns (r: Outcome<seq<Rag.Hit>>, request: Option<(string, int)>)
      requires Valid()
      ensures request == if indexed then Some((question, TopN(numCourses, k))) else None
      ensures r == RetrieveFixedOf(indexed, chunks, chunkMetadata, k, search(question, TopN(numCourses, k)))
    {
      if !indexed {
        return Return([]), None;
      }
      var topN := numCourses * k * 2;
      request := Some((question, topN));
      r := SelectLoop(Rag.RealRows(search(question, topN)), chunks, chunkMetadata, k);
    }
  }
}
