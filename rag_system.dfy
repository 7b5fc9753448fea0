/**
 * The chunk store and the course-balanced selection of `RAGSystem`.
 *
 * The embedding model and the FAISS index are not modelled: a search is a
 * function from the question and `top_n` to the rows FAISS returns, nearest
 * first. What is modelled is the store of chunks with their course tags and
 * the loop that picks results from the rows: filter by course, at most three
 * chunks per course, stop at `k`.
 */
module Rag {
  import opened Py
  import Text

  /** One row of a FAISS search result: the chunk index and its distance. */
  datatype Candidate = Candidate(index: int, distance: real)

  /** One element of `retrieve`'s result: `{'chunk': .., 'course': .., 'distance': ..}`. */
  datatype Hit = Hit(chunk: string, course: string, distance: real)

  /** `retrieve`'s default `k`. */
  const DefaultK: int := 2

  /** No course contributes more chunks than this to one result. */
  const PerCourseCap: int := 3

  /** The course filter as Python's truthiness sees it: given and non-empty. */
  predicate Filtering(filter: Option<seq<string>>) {
    filter.Some? && filter.value != []
  }

  /** `k` after `k = len(course_filter) * k`, which only a non-empty filter triggers. */
  function ScaledK(filter: Option<seq<string>>, k: int): int {
    if Filtering(filter) then |filter.value| * k else k
  }

  /** The number of rows asked of the index: `num_courses * k * 3`, with the scaled `k`. */
  function TopN(numCourses: int, filter: Option<seq<string>>, k: int): int {
    numCourses * ScaledK(filter, k) * 3
  }

  /** `retrieved_course_counts.get(course, 0)` */
  function CountOf(counts: map<string, int>, course: string): int {
    if course in counts then counts[course] else 0
  }

  /** The result entry for candidate `c`, whose index Python's list indexing accepts. */
  function HitAt(c: Candidate, chunks: seq<string>, meta: seq<string>): Hit
    requires |chunks| == |meta| && At(meta, c.index).Return?
  {
    Hit(At(chunks, c.index).value, At(meta, c.index).value, c.distance)
  }

  /** How many entries of `hits` belong to `course`. */
  function Occurrences(hits: seq<Hit>, course: string): nat {
    if hits == [] then 0
    else (if hits[0].course == course then 1 else 0) + Occurrences(hits[1..], course)
  }

  /** `results` followed by what the rest of the loop adds. */
  function Prepend(results: seq<Hit>, o: Outcome<seq<Hit>>): Outcome<seq<Hit>> {
    match o
    case Raise(e) => Raise(e)
    case Return(rest) => Return(results + rest)
  }

  lemma PrependTwice(a: seq<Hit>, b: seq<Hit>, o: Outcome<seq<Hit>>)
    ensures Prepend(a, Prepend(b, o)) == Prepend(a + b, o)
  {
    if o.Return? {
      assert a + (b + o.value) == (a + b) + o.value;
    }
  }

  lemma PrependNothing(o: Outcome<seq<Hit>>)
    ensures Prepend([], o) == o
  {
    if o.Return? {
      assert [] + o.value == o.value;
    }
  }

  /**
   * The selection loop of `retrieve` from candidate `i` on, given the
   * per-course tallies so far and the number `taken` of results already kept:
   * the results it adds, or the IndexError that an index out of range raises.
   */
  function SelectFrom(cands: seq<Candidate>, i: nat, chunks: seq<string>, meta: seq<string>,
                      filter: Option<seq<string>>, k: int, counts: map<string, int>, taken: nat): (r: Outcome<seq<Hit>>)
    requires i <= |cands| && |chunks| == |meta|
    ensures r.Raise? ==> r.exception == IndexError
    ensures r.Return? ==> taken + |r.value| <= Max(k, taken + 1)
    ensures r.Return? && Filtering(filter) ==> forall h :: h in r.value ==> h.course in filter.value
    decreases |cands| - i
  {
    if i == |cands| then Return([])
    else
      var c := cands[i];
      match At(meta, c.index)
      case Raise(e) => Raise(e)
      case Return(course) =>
        if Filtering(filter) && course !in filter.value then
          SelectFrom(cands, i + 1, chunks, meta, filter, k, counts, taken)
        else if CountOf(counts, course) >= PerCourseCap then
          SelectFrom(cands, i + 1, chunks, meta, filter, k, counts, taken)
        else
          var hit := HitAt(c, chunks, meta);
          if taken + 1 >= k then Return([hit])
          else Prepend([hit], SelectFrom(cands, i + 1, chunks, meta, filter, k, counts[course := CountOf(counts, course) + 1], taken + 1))
  }

  /**
   * `retrieve` on a store, given the rows the search returns: [] while no
   * index exists, else the selection over every row, the padding rows FAISS
   * adds included (see `PaddingRepeatsLastChunk`; `RetrieveFixedOf` skips them).
   */
  function RetrieveOf(indexed: bool, chunks: seq<string>, meta: seq<string>, filter: Option<seq<string>>,
                      k: int, cands: seq<Candidate>): Outcome<seq<Hit>>
    requires |chunks| == |meta|
  {
    if !indexed then Return([])
    else SelectFrom(cands, 0, chunks, meta, filter, ScaledK(filter, k), map[], 0)
  }

  /**
   * `hits` is an order-preserving subsequence of the entries that the
   * candidates from `i` on stand for.
   */
  predicate Picks(hits: seq<Hit>, cands: seq<Candidate>, i: nat, chunks: seq<string>, meta: seq<string>)
    requires i <= |cands| && |chunks| == |meta|
    decreases |cands| - i
  {
    if hits == [] then true
    else if i == |cands| then false
    else
      (At(meta, cands[i].index).Return? && hits[0] == HitAt(cands[i], chunks, meta)
       && Picks(hits[1..], cands, i + 1, chunks, meta))
      || Picks(hits, cands, i + 1, chunks, meta)
  }

  /** The results are an order-preserving subsequence of the candidates' entries. */
  lemma {:induction false} SelectionIsSubsequence(cands: seq<Candidate>, i: nat, chunks: seq<string>, meta: seq<string>,
                                                  filter: Option<seq<string>>, k: int, counts: map<string, int>, taken: nat)
    requires i <= |cands| && |chunks| == |meta|
    ensures var r := SelectFrom(cands, i, chunks, meta, filter, k, counts, taken);
      r.Return? ==> Picks(r.value, cands, i, chunks, meta)
    decreases |cands| - i
  {
    if i < |cands| {
      var c := cands[i];
      if At(meta, c.index).Return? {
        var course := At(meta, c.index).value;
        if (Filtering(filter) && course !in filter.value) || CountOf(counts, course) >= PerCourseCap {
          SelectionIsSubsequence(cands, i + 1, chunks, meta, filter, k, counts, taken);
        } else if taken + 1 < k {
          var counts' := counts[course := CountOf(counts, course) + 1];
          SelectionIsSubsequence(cands, i + 1, chunks, meta, filter, k, counts', taken + 1);
          var rest := SelectFrom(cands, i + 1, chunks, meta, filter, k, counts', taken + 1);
          if rest.Return? {
            var hits := [HitAt(c, chunks, meta)] + rest.value;
            assert hits[1..] == rest.value;
          }
        }
      }
    }
  }

  /**
   * A course's tally plus its entries in the results never passes three
   * (a course already at three or more gets no entry at all).
   */
  lemma {:induction false} CapRespected(cands: seq<Candidate>, i: nat, chunks: seq<string>, meta: seq<string>,
                                        filter: Option<seq<string>>, k: int, counts: map<string, int>, taken: nat, course: string)
    requires i <= |cands| && |chunks| == |meta|
    ensures var r := SelectFrom(cands, i, chunks, meta, filter, k, counts, taken);
      r.Return? ==> CountOf(counts, course) + Occurrences(r.value, course) <= Max(CountOf(counts, course), PerCourseCap)
    decreases |cands| - i
  {
    if i < |cands| {
      var c := cands[i];
      if At(meta, c.index).Return? {
        var got := At(meta, c.index).value;
        if (Filtering(filter) && got !in filter.value) || CountOf(counts, got) >= PerCourseCap {
          CapRespected(cands, i + 1, chunks, meta, filter, k, counts, taken, course);
        } else {
          var hit := HitAt(c, chunks, meta);
          OccurrencesCons(hit, [], course);
          if taken + 1 < k {
            var counts' := counts[got := CountOf(counts, got) + 1];
            CapRespected(cands, i + 1, chunks, meta, filter, k, counts', taken + 1, course);
            var rest := SelectFrom(cands, i + 1, chunks, meta, filter, k, counts', taken + 1);
            if rest.Return? {
              OccurrencesCons(hit, rest.value, course);
            }
          }
        }
      }
    }
  }

  lemma OccurrencesCons(hit: Hit, rest: seq<Hit>, course: string)
    ensures Occurrences([hit] + rest, course) == (if hit.course == course then 1 else 0) + Occurrences(rest, course)
  {
    assert ([hit] + rest)[1..] == rest;
  }

  /**
   * Candidate `c` is accounted for by a result `hits` that started from the
   * tallies `counts`: it names a course, and that course is filtered out, has
   * reached three, or `c`'s entry is among the results.
   */
  predicate Accounted(c: Candidate, chunks: seq<string>, meta: seq<string>, filter: Option<seq<string>>,
                      counts: map<string, int>, hits: seq<Hit>)
    requires |chunks| == |meta|
  {
    && At(meta, c.index).Return?
    && var course := At(meta, c.index).value;
       || (Filtering(filter) && course !in filter.value)
       || CountOf(counts, course) + Occurrences(hits, course) >= PerCourseCap
       || HitAt(c, chunks, meta) in hits
  }

  /** When the loop ends with fewer than `k` results, every candidate from `i` on is accounted for. */
  lemma {:induction false} ShortResultSawEverything(cands: seq<Candidate>, i: nat, chunks: seq<string>, meta: seq<string>,
                                                     filter: Option<seq<string>>, k: int, counts: map<string, int>, taken: nat, j: nat)
    requires i <= j < |cands| && |chunks| == |meta|
    ensures var r := SelectFrom(cands, i, chunks, meta, filter, k, counts, taken);
      r.Return? && taken + |r.value| < k ==> Accounted(cands[j], chunks, meta, filter, counts, r.value)
    decreases |cands| - i
  {
    var c := cands[i];
    if At(meta, c.index).Return? {
      var got := At(meta, c.index).value;
      if (Filtering(filter) && got !in filter.value) || CountOf(counts, got) >= PerCourseCap {
        if j > i {
          ShortResultSawEverything(cands, i + 1, chunks, meta, filter, k, counts, taken, j);
        }
      } else if taken + 1 < k && j > i {
        var counts' := counts[got := CountOf(counts, got) + 1];
        var hit := HitAt(c, chunks, meta);
        var rest := SelectFrom(cands, i + 1, chunks, meta, filter, k, counts', taken + 1);
        ShortResultSawEverything(cands, i + 1, chunks, meta, filter, k, counts', taken + 1, j);
        if rest.Return? && taken + 1 + |rest.value| < k {
          AccountedCons(cands[j], chunks, meta, filter, counts, got, hit, rest.value);
        }
      }
    }
  }

  /**
   * Where the loop from candidate `i` on stops reading: just after the row of
   * the `k`-th pick or of an index out of range, else at the end of the rows.
   */
  function StopAt(cands: seq<Candidate>, i: nat, chunks: seq<string>, meta: seq<string>,
                  filter: Option<seq<string>>, k: int, counts: map<string, int>, taken: nat): (n: nat)
    requires i <= |cands| && |chunks| == |meta|
    ensures i <= n <= |cands|
    decreases |cands| - i
  {
    if i == |cands| then i
    else
      match At(meta, cands[i].index)
      case Raise(_) => i + 1
      case Return(course) =>
        if (Filtering(filter) && course !in filter.value) || CountOf(counts, course) >= PerCourseCap then
          StopAt(cands, i + 1, chunks, meta, filter, k, counts, taken)
        else if taken + 1 >= k then i + 1
        else StopAt(cands, i + 1, chunks, meta, filter, k, counts[course := CountOf(counts, course) + 1], taken + 1)
  }

  /**
   * Every candidate the loop read before it stopped is accounted for, so a
   * full result holds the first eligible entries in ranking order.
   */
  lemma {:induction false} AccountedUpToStop(cands: seq<Candidate>, i: nat, chunks: seq<string>, meta: seq<string>,
                                             filter: Option<seq<string>>, k: int, counts: map<string, int>, taken: nat, j: nat)
    requires i <= |cands| && |chunks| == |meta|
    requires i <= j < StopAt(cands, i, chunks, meta, filter, k, counts, taken)
    ensures var r := SelectFrom(cands, i, chunks, meta, filter, k, counts, taken);
      r.Return? ==> Accounted(cands[j], chunks, meta, filter, counts, r.value)
    decreases |cands| - i
  {
    var c := cands[i];
    var r := SelectFrom(cands, i, chunks, meta, filter, k, counts, taken);
    if At(meta, c.index).Return? {
      var got := At(meta, c.index).value;
      if (Filtering(filter) && got !in filter.value) || CountOf(counts, got) >= PerCourseCap {
        if j > i {
          assert r == SelectFrom(cands, i + 1, chunks, meta, filter, k, counts, taken);
          AccountedUpToStop(cands, i + 1, chunks, meta, filter, k, counts, taken, j);
        }
      } else if taken + 1 < k {
        var counts' := counts[got := CountOf(counts, got) + 1];
        var hit := HitAt(c, chunks, meta);
        var rest := SelectFrom(cands, i + 1, chunks, meta, filter, k, counts', taken + 1);
        assert r == Prepend([hit], rest);
        if j > i {
          AccountedUpToStop(cands, i + 1, chunks, meta, filter, k, counts', taken + 1, j);
          if rest.Return? {
            AccountedCons(cands[j], chunks, meta, filter, counts, got, hit, rest.value);
          }
        }
      }
    }
  }

  /** The last of `hits` is the entry candidate `c` names. */
  predicate EndsWith(hits: seq<Hit>, c: Candidate, chunks: seq<string>, meta: seq<string>)
    requires |chunks| == |meta|
  {
    hits != [] && At(meta, c.index).Return? && hits[|hits| - 1] == HitAt(c, chunks, meta)
  }

  lemma EndsWithCons(hit: Hit, rest: seq<Hit>, c: Candidate, chunks: seq<string>, meta: seq<string>)
    requires |chunks| == |meta| && EndsWith(rest, c, chunks, meta)
    ensures EndsWith([hit] + rest, c, chunks, meta)
  {
    assert ([hit] + rest)[|rest|] == rest[|rest| - 1];
  }

  /** One step of the loop at a row that names a course: skip it, take it as the last pick, or take it and go on. */
  lemma SelectStep(cands: seq<Candidate>, i: nat, chunks: seq<string>, meta: seq<string>,
                   filter: Option<seq<string>>, k: int, counts: map<string, int>, taken: nat)
    requires i < |cands| && |chunks| == |meta| && At(meta, cands[i].index).Return?
    ensures var got := At(meta, cands[i].index).value;
      var skip := (Filtering(filter) && got !in filter.value) || CountOf(counts, got) >= PerCourseCap;
      var counts' := counts[got := CountOf(counts, got) + 1];
      && (skip ==> && SelectFrom(cands, i, chunks, meta, filter, k, counts, taken)
                      == SelectFrom(cands, i + 1, chunks, meta, filter, k, counts, taken)
                   && StopAt(cands, i, chunks, meta, filter, k, counts, taken)
                      == StopAt(cands, i + 1, chunks, meta, filter, k, counts, taken))
      && (!skip && taken + 1 >= k ==>
            && SelectFrom(cands, i, chunks, meta, filter, k, counts, taken) == Return([HitAt(cands[i], chunks, meta)])
            && StopAt(cands, i, chunks, meta, filter, k, counts, taken) == i + 1)
      && (!skip && taken + 1 < k ==>
            && SelectFrom(cands, i, chunks, meta, filter, k, counts, taken)
               == Prepend([HitAt(cands[i], chunks, meta)], SelectFrom(cands, i + 1, chunks, meta, filter, k, counts', taken + 1))
            && StopAt(cands, i, chunks, meta, filter, k, counts, taken)
               == StopAt(cands, i + 1, chunks, meta, filter, k, counts', taken + 1))
  {
  }

  /** A result that reaches `k` ends with the entry of the last row the loop read. */
  lemma {:induction false} LastPickAtStop(cands: seq<Candidate>, i: nat, chunks: seq<string>, meta: seq<string>,
                                          filter: Option<seq<string>>, k: int, counts: map<string, int>, taken: nat,
                                          hits: seq<Hit>)
    requires i <= |cands| && |chunks| == |meta|
    requires SelectFrom(cands, i, chunks, meta, filter, k, counts, taken) == Return(hits)
    requires hits != [] && taken + |hits| >= k
    ensures var n := StopAt(cands, i, chunks, meta, filter, k, counts, taken);
      i < n && EndsWith(hits, cands[n - 1], chunks, meta)
    decreases |cands| - i
  {
    assert i < |cands| && At(meta, cands[i].index).Return?;
    SelectStep(cands, i, chunks, meta, filter, k, counts, taken);
    var got := At(meta, cands[i].index).value;
    if (Filtering(filter) && got !in filter.value) || CountOf(counts, got) >= PerCourseCap {
      LastPickAtStop(cands, i + 1, chunks, meta, filter, k, counts, taken, hits);
    } else if taken + 1 < k {
      var counts' := counts[got := CountOf(counts, got) + 1];
      var rest := SelectFrom(cands, i + 1, chunks, meta, filter, k, counts', taken + 1).value;
      LastPickAtStop(cands, i + 1, chunks, meta, filter, k, counts', taken + 1, rest);
      EndsWithCons(HitAt(cands[i], chunks, meta), rest, cands[StopAt(cands, i, chunks, meta, filter, k, counts, taken) - 1], chunks, meta);
    }
  }

  /** A candidate accounted for after a hit of `got` was counted stays accounted for with that hit in front. */
  lemma AccountedCons(c: Candidate, chunks: seq<string>, meta: seq<string>, filter: Option<seq<string>>,
                      counts: map<string, int>, got: string, hit: Hit, rest: seq<Hit>)
    requires |chunks| == |meta| && hit.course == got
    requires Accounted(c, chunks, meta, filter, counts[got := CountOf(counts, got) + 1], rest)
    ensures Accounted(c, chunks, meta, filter, counts, [hit] + rest)
  {
    var course := At(meta, c.index).value;
    OccurrencesCons(hit, rest, course);
    assert CountOf(counts[got := CountOf(counts, got) + 1], course) + Occurrences(rest, course)
        == CountOf(counts, course) + Occurrences([hit] + rest, course);
  }

  // ---------------------------------------------------------------------------
  // FAISS pads a short answer with index -1
  // ---------------------------------------------------------------------------

  /**
   * What `IndexFlatL2.search` returns for an index of `ntotal` vectors asked
   * for `topN` rows: real labels first, then rows with label -1 once the index
   * runs out.
   */
  predicate FaissRows(cands: seq<Candidate>, topN: nat, ntotal: nat) {
    && |cands| == topN
    && (forall j :: 0 <= j < |cands| && j < ntotal ==> 0 <= cands[j].index < ntotal)
    && (forall j :: ntotal <= j < |cands| ==> cands[j].index == -1)
  }

  /** The distance FAISS reports on a padding row (the largest 32-bit float). */
  const PaddingDistance: real := 340282346638528859811704183484516925440.0

  /** A row FAISS adds when the index holds fewer vectors than asked for. */
  const Padding: Candidate := Candidate(-1, PaddingDistance)

  /** The rows for a one-chunk index asked for six rows. */
  const OneChunkRows: seq<Candidate> := [Candidate(0, 0.25), Padding, Padding, Padding, Padding, Padding]

  /**
   * The loop as written, on the rows of a one-chunk index asked for six rows
   * (no filter, `k = 2`): FAISS pads rows 2 to 6 with -1, Python reads index
   * -1 as the last chunk, and the result holds the same chunk twice.
   */
  lemma PaddingRepeatsLastChunk()
    ensures var chunks, meta := ["Late work loses 10% per day."], ["CS316"];
      && TopN(1, None, 2) == 6
      && FaissRows(OneChunkRows, 6, 1)
      && RetrieveOf(true, chunks, meta, None, 2, OneChunkRows)
         == Return([Hit(chunks[0], "CS316", 0.25), Hit(chunks[0], "CS316", PaddingDistance)])
  {
    var chunks, meta := ["Late work loses 10% per day."], ["CS316"];
    var counts: map<string, int> := map[];
    var second := Hit(chunks[0], "CS316", PaddingDistance);
    assert At(meta, -1) == Return("CS316");
    assert SelectFrom(OneChunkRows, 1, chunks, meta, None, 2, counts["CS316" := 1], 1) == Return([second]);
    assert [Hit(chunks[0], "CS316", 0.25)] + [second] == [Hit(chunks[0], "CS316", 0.25), second];
  }

  /** The candidates that are real search hits, in order: padding rows (index < 0) dropped. */
  function RealRows(cands: seq<Candidate>): (r: seq<Candidate>)
    ensures forall j :: 0 <= j < |r| ==> r[j].index >= 0 && r[j] in cands
    ensures forall c :: c in cands && c.index >= 0 ==> c in r
  {
    if cands == [] then []
    else
      var rest := RealRows(cands[1..]);
      if cands[0].index >= 0 then [cands[0]] + rest else rest
  }

  lemma {:induction false} NoRealRows(cands: seq<Candidate>)
    requires forall j :: 0 <= j < |cands| ==> cands[j].index < 0
    ensures RealRows(cands) == []
  {
    if cands != [] {
      NoRealRows(cands[1..]);
    }
  }

  /** Rows without padding are all kept. */
  lemma {:induction false} AllRealRows(cands: seq<Candidate>)
    requires forall j :: 0 <= j < |cands| ==> cands[j].index >= 0
    ensures RealRows(cands) == cands
  {
    if cands != [] {
      AllRealRows(cands[1..]);
    }
  }

  /**
   * `retrieve` as evidently intended: the padding rows are dropped before the
   * selection, so every hit is an entry a real row names.
   */
  function RetrieveFixedOf(indexed: bool, chunks: seq<string>, meta: seq<string>, filter: Option<seq<string>>,
                           k: int, cands: seq<Candidate>): (r: Outcome<seq<Hit>>)
    requires |chunks| == |meta|
    ensures !indexed ==> r == Return([])
    ensures r.Return? ==> Picks(r.value, RealRows(cands), 0, chunks, meta)
  {
    SelectionIsSubsequence(RealRows(cands), 0, chunks, meta, filter, ScaledK(filter, k), map[], 0);
    RetrieveOf(indexed, chunks, meta, filter, k, RealRows(cands))
  }

  /**
   * When the index holds at least `top_n` vectors FAISS adds no padding, and
   * the corrected retrieval selects exactly what the code as written selects.
   */
  lemma FullIndexAsWritten(chunks: seq<string>, meta: seq<string>, filter: Option<seq<string>>, k: int,
                           cands: seq<Candidate>, topN: nat, ntotal: nat)
    requires |chunks| == |meta| && FaissRows(cands, topN, ntotal) && topN <= ntotal
    ensures RetrieveFixedOf(true, chunks, meta, filter, k, cands) == RetrieveOf(true, chunks, meta, filter, k, cands)
  {
    AllRealRows(cands);
  }

  /** On the rows of the example above, the corrected retrieval keeps only the real hit. */
  lemma SkippingPaddingKeepsRealHit()
    ensures var chunks, meta := ["Late work loses 10% per day."], ["CS316"];
      RetrieveFixedOf(true, chunks, meta, None, 2, OneChunkRows) == Return([Hit(chunks[0], "CS316", 0.25)])
  {
    var chunks, meta := ["Late work loses 10% per day."], ["CS316"];
    NoRealRows(OneChunkRows[1..]);
    assert RealRows(OneChunkRows) == [Candidate(0, 0.25)];
    var hit := Hit(chunks[0], "CS316", 0.25);
    assert SelectFrom([Candidate(0, 0.25)], 1, chunks, meta, None, 2, map["CS316" := 1], 1) == Return([]);
    assert [hit] + [] == [hit];
  }

  // ---------------------------------------------------------------------------
  // The store
  // ---------------------------------------------------------------------------

  /** The course tag of each of `n` chunks added for `course`. */
  function Tags(course: string, n: nat): seq<string> {
    seq(n, _ => Text.Upper(course))
  }

  class RAGSystem {
    /** Chunks from every syllabus added so far. */
    var chunks: seq<string>
    /** `chunk_metadata[i]` is the course of `chunks[i]`. */
    var chunkMetadata: seq<string>
    /** Whether `index_chunks` has built an index (`self.index is not None`). */
    var indexed: bool

    ghost predicate Valid()
      reads this
    {
      |chunks| == |chunkMetadata|
    }

    constructor()
      ensures Valid() && chunks == [] && chunkMetadata == [] && !indexed
    {
      chunks, chunkMetadata, indexed := [], [], false;
    }

    /** `add_course`: the chunks go last, each tagged with the upper-cased course name. */
    method AddCourse(courseName: string, newChunks: seq<string>)
      requires Valid()
      modifies this
      ensures Valid()
      ensures chunks == old(chunks) + newChunks
      ensures chunkMetadata == old(chunkMetadata) + Tags(courseName, |newChunks|)
      ensures indexed == old(indexed)
    {
      for j := 0 to |newChunks|
        invariant chunks == old(chunks) + newChunks[..j]
        invariant chunkMetadata == old(chunkMetadata) + Tags(courseName, j)
        invariant indexed == old(indexed)
      {
        chunks := chunks + [newChunks[j]];
        chunkMetadata := chunkMetadata + [Text.Upper(courseName)];
        assert Tags(courseName, j + 1) == Tags(courseName, j) + [Text.Upper(courseName)];
        assert newChunks[..j + 1] == newChunks[..j] + [newChunks[j]];
      }
      assert newChunks[..|newChunks|] == newChunks;
    }

    /** `index_chunks`: builds the index over the current chunks (the embeddings are not modelled). */
    method IndexChunks()
      modifies this
      ensures indexed && chunks == old(chunks) && chunkMetadata == old(chunkMetadata)
    {
      indexed := true;
    }

    /**
     * `retrieve(question, num_courses, course_filter, k)`: `search` stands for
     * encoding the question and searching the index. Returns the result and
     * the search issued, if any.
     */
    method Retrieve(question: string, numCourses: int, search: (string, int) -> seq<Candidate>,
                    filter: Option<seq<string>> := None, k: int := DefaultK)
      returns (r: Outcome<seq<Hit>>, request: Option<(string, int)>)
      requires Valid()
      ensures request == if indexed then Some((question, TopN(numCourses, filter, k))) else None
      ensures r == RetrieveOf(indexed, chunks, chunkMetadata, filter, k, search(question, TopN(numCourses, filter, k)))
    {
      if !indexed {
        return Return([]), None;
      }
      var limit := k;
      if Filtering(filter) {
        var numFilters := |filter.value|;
        limit := numFilters * k;
      }
      var topN := numCourses * limit * 3;
      request := Some((question, topN));
      assert limit == ScaledK(filter, k);
      r := SelectLoop(search(question, topN), chunks, chunkMetadata, filter, limit);
    }

    /** `retrieve` as evidently intended: the same search, with the padding rows skipped. */
    method RetrieveFixed(question: string, numCourses: int, search: (string, int) -> seq<Candidate>,
                         filter: Option<seq<string>> := None, k: int := DefaultK)
      returns (r: Outcome<seq<Hit>>, request: Option<(string, int)>)
      requires Valid()
      ensures request == if indexed then Some((question, TopN(numCourses, filter, k))) else None
      ensures r == RetrieveFixedOf(indexed, chunks, chunkMetadata, filter, k, search(question, TopN(numCourses, filter, k)))
    {
      if !indexed {
        return Return([]), None;
      }
      var limit := k;
      if Filtering(filter) {
        var numFilters := |filter.value|;
        limit := numFilters * k;
      }
      var topN := numCourses * limit * 3;
      request := Some((question, topN));
      assert limit == ScaledK(filter, k);
      r := SelectLoop(RealRows(search(question, topN)), chunks, chunkMetadata, filter, limit);
    }
  }

  /**
   * The `for i, dist in zip(...)` loop of `retrieve` over the rows `cands`,
   * keeping at most `limit` results and three per course.
   */
  method SelectLoop(cands: seq<Candidate>, chunks: seq<string>, meta: seq<string>, filter: Option<seq<string>>,
                    limit: int) returns (r: Outcome<seq<Hit>>)
    requires |chunks| == |meta|
    ensures r == SelectFrom(cands, 0, chunks, meta, filter, limit, map[], 0)
  {
    var results: seq<Hit> := [];
    var counts: map<string, int> := map[];
    PrependNothing(SelectFrom(cands, 0, chunks, meta, filter, limit, counts, 0));
    var j := 0;
    while j < |cands|
      invariant 0 <= j <= |cands|
      invariant SelectFrom(cands, 0, chunks, meta, filter, limit, map[], 0)
             == Prepend(results, SelectFrom(cands, j, chunks, meta, filter, limit, counts, |results|))
    {
      var index, dist := cands[j].index, cands[j].distance;
      var course := At(meta, index);
      if course.Raise? {
        return Raise(IndexError);
      }
      if Filtering(filter) && course.value !in filter.value {
        j := j + 1;
        continue;
      }
      var currentCount := CountOf(counts, course.value);
      if currentCount >= PerCourseCap {
        j := j + 1;
        continue;
      }
      var chunk := At(chunks, index).value;
      var hit := Hit(chunk, course.value, dist);
      if |results| + 1 < limit {
        PrependTwice(results, [hit], SelectFrom(cands, j + 1, chunks, meta, filter, limit,
                                                counts[course.value := currentCount + 1], |results| + 1));
      }
      counts := counts[course.value := currentCount + 1];
      results := results + [hit];
      if |results| >= limit {
        return Return(results);
      }
      j := j + 1;
    }
    assert results + [] == results;
    return Return(results);
  }

  /**
   * With `k >= 1`, a retrieval returns at most the scaled `k` results, each
   * course at most three times, only filtered courses under a filter, and
   * only entries the rows name, in the order the search ranked them.
   */
  lemma RetrieveBounded(chunks: seq<string>, meta: seq<string>, filter: Option<seq<string>>, k: int,
                        cands: seq<Candidate>, course: string)
    requires |chunks| == |meta| && k >= 1
    ensures var r := RetrieveOf(true, chunks, meta, filter, k, cands);
      r.Return? ==> && |r.value| <= ScaledK(filter, k)
                    && Occurrences(r.value, course) <= PerCourseCap
                    && (Filtering(filter) ==> forall h :: h in r.value ==> h.course in filter.value)
                    && Picks(r.value, cands, 0, chunks, meta)
  {
    CapRespected(cands, 0, chunks, meta, filter, ScaledK(filter, k), map[], 0, course);
    SelectionIsSubsequence(cands, 0, chunks, meta, filter, ScaledK(filter, k), map[], 0);
    if Filtering(filter) {
      assert |filter.value| * k >= k;
    }
  }

  /** The corrected retrieval keeps the same bounds, and its hits come from real rows only. */
  lemma RetrieveFixedBounded(chunks: seq<string>, meta: seq<string>, filter: Option<seq<string>>, k: int,
                             cands: seq<Candidate>, course: string)
    requires |chunks| == |meta| && k >= 1
    ensures var r := RetrieveFixedOf(true, chunks, meta, filter, k, cands);
      r.Return? ==> && |r.value| <= ScaledK(filter, k)
                    && Occurrences(r.value, course) <= PerCourseCap
                    && (Filtering(filter) ==> forall h :: h in r.value ==> h.course in filter.value)
                    && Picks(r.value, RealRows(cands), 0, chunks, meta)
  {
    RetrieveBounded(chunks, meta, filter, k, RealRows(cands), course);
  }
}
