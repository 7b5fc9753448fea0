/**
 * The conversation plumbing of `RAGChat`: the six-entry history window, the
 * cleaning of the query rewriter's reply, the fallback directive when that
 * reply does not parse, and the order of one chat turn.
 *
 * The two language-model calls are function parameters (`rewriter` gives the
 * reply text for the history, the message and the course list; `answerer`
 * gives the answer for the assembled prompt), `json.loads` is the parameter
 * `decode` (None for a decode failure), and the index search is the `search`
 * parameter of `Rag.RAGSystem.Retrieve`.
 */
module Chat {
  import opened Py
  import Text
  import Grades
  import Rag

  datatype Role = User | Assistant

  /** One `{"role": .., "content": ..}` entry of the conversation history. */
  datatype Entry = Entry(role: Role, content: string)

  /** `MAX_HISTORY_SIZE` */
  const MaxHistorySize: nat := 6

  /** The `k` the chat asks the retriever for. */
  const ChatK: int := 3

  /**
   * The history at the start of `rewrite_query`: a longer history is cut to
   * its last six entries, a shorter one is kept as it is.
   */
  function Truncate(h: seq<Entry>): (r: seq<Entry>)
    ensures |r| == Min(|h|, MaxHistorySize)
    ensures r == h[|h| - |r|..]
  {
    if |h| > MaxHistorySize then Slice(h, -(MaxHistorySize as int), |h|) else h
  }

  /** A history of at most six entries is left alone. */
  lemma TruncateShort(h: seq<Entry>)
    requires |h| <= MaxHistorySize
    ensures Truncate(h) == h
  {
    assert h[0..] == h;
  }

  /** `text[4:].strip()` when `text` starts with "json", else `text`. */
  function DropJsonTag(t: string): string {
    if Text.JsonTag(t) then Text.Strip(t[4..]) else t
  }

  /** Stripping whitespace cannot create a fence. */
  lemma StripKeepsNoFence(t: string)
    requires !Text.HasFence(t)
    ensures !Text.HasFence(Text.Strip(t))
  {
    var e := Text.TrimEnd(t);
    Text.NoFenceInSlice(t, 0, |e|);
    assert t[0..|e|] == e;
    var s := Text.TrimStart(e);
    Text.NoFenceInSlice(e, |e| - |s|, |e|);
    assert e[|e| - |s|..|e|] == s;
  }

  /** A string without a fence keeps none after `DropJsonTag`. */
  lemma DropJsonTagKeepsNoFence(t: string)
    requires !Text.HasFence(t)
    ensures !Text.HasFence(DropJsonTag(t))
  {
    if Text.JsonTag(t) {
      Text.NoFenceInSlice(t, 4, |t|);
      assert t[4..|t|] == t[4..];
      StripKeepsNoFence(t[4..]);
    }
  }

  /**
   * The text `rewrite_query` hands to `json.loads`. A stripped reply that does
   * not start with "```" goes through unchanged; otherwise it is the text
   * between the first two fences, a leading "json" tag dropped, trimmed. The
   * closing `rsplit("```", 1)` finds no fence left and changes nothing.
   */
  function CleanReply(reply: string): (r: string)
    ensures !Text.FenceAt(Text.Strip(reply), 0) ==> r == Text.Strip(reply)
    ensures Text.FenceAt(Text.Strip(reply), 0) ==>
      && r == Text.Strip(DropJsonTag(Text.SecondFencePiece(Text.Strip(reply))))
      && !Text.HasFence(r)
    ensures Text.Strip(r) == r
  {
    var t := Text.Strip(reply);
    Text.StripIdempotent(reply);
    if Text.FenceAt(t, 0) then
      var piece := Text.SecondFencePiece(t);
      var untagged := if Text.JsonTag(piece) then Text.Strip(piece[4..]) else piece;
      DropJsonTagKeepsNoFence(piece);
      var r := Text.Strip(Text.BeforeLastFence(untagged));
      StripKeepsNoFence(untagged);
      Text.StripIdempotent(untagged);
      r
    else t
  }

  /** The parsed reply: `{question, courses, skip_RAG, context_summary}`. */
  datatype Directive = Directive(question: string, courses: Option<seq<string>>, skipRag: bool, contextSummary: string)

  /** What `rewrite_query` returns for a decode outcome: the parsed reply, or the fallback. */
  function DirectiveOf(parsed: Option<Directive>, userMessage: string): (d: Directive)
    ensures parsed.Some? ==> d == parsed.value
    ensures parsed.None? ==> d.question == userMessage && d.courses == None && !d.skipRag && d.contextSummary == ""
  {
    match parsed
    case Some(p) => p
    case None => Directive(userMessage, None, false, "")
  }

  /**
   * What `rewrite_query` gives once the history is cut, from what the
   * rewriter call gave: the exception the API call raised, or the directive
   * decoded from the cleaned reply (the fallback when decoding fails).
   */
  function RewriteOf(reply: Outcome<string>, decode: string -> Option<Directive>, userMessage: string): Outcome<Directive> {
    match reply
    case Raise(e) => Raise(e)
    case Return(text) => Return(DirectiveOf(decode(CleanReply(text)), userMessage))
  }

  lemma AppendTwo(w: seq<Entry>, a: Entry, b: Entry)
    ensures w + [a] + [b] == w + [a, b]
  {
  }

  /** `[r['chunk'] for r in rag_results]` */
  function ChunksOf(hits: seq<Rag.Hit>): (r: seq<string>)
    ensures |r| == |hits| && forall i :: 0 <= i < |hits| ==> r[i] == hits[i].chunk
  {
    if hits == [] then [] else [hits[0].chunk] + ChunksOf(hits[1..])
  }

  /**
   * The syllabus context of a turn: "" when the directive skips retrieval,
   * otherwise the retrieved chunks joined by blank lines, or the exception the
   * retrieval raised.
   */
  function ContextOf(d: Directive, numCourses: int, indexed: bool, chunks: seq<string>, meta: seq<string>,
                     search: (string, int) -> seq<Rag.Candidate>): (r: Outcome<string>)
    requires |chunks| == |meta|
    ensures d.skipRag ==> r == Return("")
  {
    if d.skipRag then Return("")
    else
      match Rag.RetrieveOf(indexed, chunks, meta, d.courses, ChatK, search(d.question, Rag.TopN(numCourses, d.courses, ChatK)))
      case Raise(e) => Raise(e)
      case Return(hits) => Return(Text.Join(ChunksOf(hits), "\n\n"))
  }

  /** The pieces of the answering prompt: syllabus context, grade summaries, chat context, question. */
  datatype AnswerPrompt = AnswerPrompt(syllabusContext: string, grades: seq<Grades.Summary>,
                                       contextSummary: string, question: string)

  /**
   * The grade summaries of the first `n` courses, in course order, or the
   * first exception: KeyError for a course without a calculator, or what its
   * `get_summary` raises.
   */
  function SummariesUpTo(courses: seq<string>, n: nat, calculators: map<string, Grades.GradeCalculator>): (r: Outcome<seq<Grades.Summary>>)
    requires n <= |courses|
    reads calculators.Values
    ensures r.Return? ==> |r.value| == n
    ensures r.Return? ==> forall i :: 0 <= i < n ==> courses[i] in calculators
  {
    if n == 0 then Return([])
    else
      match SummariesUpTo(courses, n - 1, calculators)
      case Raise(e) => Raise(e)
      case Return(prev) =>
        var c := courses[n - 1];
        if c !in calculators then Raise(KeyError)
        else
          var gc := calculators[c];
          match Grades.SummaryOf(gc.name, gc.breakdown, gc.counts, gc.grades)
          case Raise(e) => Raise(e)
          case Return(s) => Return(prev + [s])
  }

  /** The summary collected for course `j` is that course's calculator's `get_summary`. */
  lemma {:induction false} SummaryPerCourse(courses: seq<string>, n: nat, calculators: map<string, Grades.GradeCalculator>, j: nat)
    requires j < n <= |courses|
    ensures var r := SummariesUpTo(courses, n, calculators);
      r.Return? ==> var gc := calculators[courses[j]];
        Return(r.value[j]) == Grades.SummaryOf(gc.name, gc.breakdown, gc.counts, gc.grades)
    decreases n
  {
    if j < n - 1 {
      SummaryPerCourse(courses, n - 1, calculators, j);
    }
  }

  /** One more course: KeyError for a course without a calculator, else its summary's failure or the summary appended. */
  lemma SummariesStep(courses: seq<string>, n: nat, calculators: map<string, Grades.GradeCalculator>)
    requires n < |courses| && SummariesUpTo(courses, n, calculators).Return?
    ensures courses[n] !in calculators ==> SummariesUpTo(courses, n + 1, calculators) == Raise(KeyError)
    ensures courses[n] in calculators ==>
      var gc := calculators[courses[n]];
      var s := Grades.SummaryOf(gc.name, gc.breakdown, gc.counts, gc.grades);
      && (s.Raise? ==> SummariesUpTo(courses, n + 1, calculators) == Raise(s.exception))
      && (s.Return? ==> SummariesUpTo(courses, n + 1, calculators) == Return(SummariesUpTo(courses, n, calculators).value + [s.value]))
  {
  }

  /** Once collecting the summaries has raised, it raises the same for every longer prefix. */
  lemma {:induction false} RaiseStays(courses: seq<string>, n: nat, m: nat, calculators: map<string, Grades.GradeCalculator>)
    requires n <= m <= |courses|
    requires SummariesUpTo(courses, n, calculators).Raise?
    ensures SummariesUpTo(courses, m, calculators) == SummariesUpTo(courses, n, calculators)
    decreases m - n
  {
    if n < m {
      RaiseStays(courses, n, m - 1, calculators);
    }
  }

  /** The arguments of a `retrieve` call: question, number of courses, course filter, `k`. */
  type RetrieveCall = (string, int, Option<seq<string>>, int)

  /** What a chat turn returns, the history it leaves, and the `retrieve` call it made, if any. */
  datatype Turn = Turn(result: Outcome<string>, history: seq<Entry>, retrieval: Option<RetrieveCall>)

  /**
   * One turn of `chat`, given the history before it, the collected grade
   * summaries, what the rewrite gave, the syllabus context and the answering
   * call. A failure collecting the summaries happens before the rewrite and
   * leaves the history alone; a failed rewrite, retrieval or answering call
   * comes after the truncation; the two new entries are added only once the
   * answer exists.
   */
  function TurnOf(h: seq<Entry>, userMessage: string, numCourses: int, summaries: Outcome<seq<Grades.Summary>>,
                  rewritten: Outcome<Directive>, ctx: Outcome<string>, answerer: AnswerPrompt -> Outcome<string>): (t: Turn)
    requires rewritten.Return? && rewritten.value.skipRag ==> ctx == Return("")
    ensures summaries.Raise? ==> t == Turn(Raise(summaries.exception), h, None)
    ensures summaries.Return? && rewritten.Raise? ==> t == Turn(Raise(rewritten.exception), Truncate(h), None)
    ensures summaries.Return? && rewritten.Return? ==> (t.retrieval.Some? <==> !rewritten.value.skipRag)
    ensures t.retrieval.Some? ==>
      rewritten.Return? && t.retrieval.value == (rewritten.value.question, numCourses, rewritten.value.courses, ChatK)
    ensures summaries.Return? && rewritten.Return? && ctx.Raise? ==>
      t.result == Raise(ctx.exception) && t.history == Truncate(h)
    ensures summaries.Return? && rewritten.Return? && rewritten.value.skipRag ==>
      t.result == answerer(AnswerPrompt("", summaries.value, rewritten.value.contextSummary, userMessage))
    ensures summaries.Return? && rewritten.Return? && ctx.Return? ==>
      && t.result == answerer(AnswerPrompt(ctx.value, summaries.value, rewritten.value.contextSummary, userMessage))
      && (t.result.Raise? ==> t.history == Truncate(h))
    ensures t.result.Return? ==>
      && summaries.Return? && rewritten.Return? && ctx.Return?
      && t.history == Truncate(h) + [Entry(User, userMessage), Entry(Assistant, t.result.value)]
    ensures t.history == h || |t.history| <= MaxHistorySize + 2
  {
    if summaries.Raise? then Turn(Raise(summaries.exception), h, None)
    else
      match rewritten
      case Raise(e) => Turn(Raise(e), Truncate(h), None)
      case Return(d) => AnswerTurn(Truncate(h), userMessage, numCourses, summaries.value, d, ctx, answerer)
  }

  /**
   * The part of a turn after the rewrite, on the cut history `window`: the
   * retrieval unless the directive skips it, the answering call, and only
   * then the two new entries.
   */
  function AnswerTurn(window: seq<Entry>, userMessage: string, numCourses: int, summaries: seq<Grades.Summary>,
                      d: Directive, ctx: Outcome<string>, answerer: AnswerPrompt -> Outcome<string>): Turn
  {
    var retrieval := if d.skipRag then None else Some((d.question, numCourses, d.courses, ChatK));
    match ctx
    case Raise(e) => Turn(Raise(e), window, retrieval)
    case Return(context) =>
      match answerer(AnswerPrompt(context, summaries, d.contextSummary, userMessage))
      case Raise(e) => Turn(Raise(e), window, retrieval)
      case Return(answer) => Turn(Return(answer), window + [Entry(User, userMessage), Entry(Assistant, answer)], retrieval)
  }

  class RAGChat {
    const rag: Rag.RAGSystem
    /** `self.calculator`: the grade calculator of each course. */
    const calculators: map<string, Grades.GradeCalculator>
    const courses: seq<string>
    var history: seq<Entry>

    constructor (rag: Rag.RAGSystem, calculators: map<string, Grades.GradeCalculator>, courses: seq<string>)
      ensures this.rag == rag && this.calculators == calculators && this.courses == courses
      ensures history == []
    {
      this.rag := rag;
      this.calculators := calculators;
      this.courses := courses;
      history := [];
    }

    /**
     * `rewrite_query`: cuts the history to its window, asks the rewriter with
     * that window, and decodes the cleaned reply (or falls back). When the
     * rewriter call raises, the exception propagates and the history stays cut.
     */
    method RewriteQuery(userMessage: string, courseList: seq<string>,
                        rewriter: (seq<Entry>, string, seq<string>) -> Outcome<string>,
                        decode: string -> Option<Directive>) returns (d: Outcome<Directive>)
      modifies this
      ensures history == Truncate(old(history))
      ensures var reply := rewriter(history, userMessage, courseList);
        && (reply.Raise? ==> d == Raise(reply.exception))
        && (reply.Return? ==> d == Return(DirectiveOf(decode(CleanReply(reply.value)), userMessage)))
    {
      ghost var h0 := history;
      if |history| > MaxHistorySize {
        history := Slice(history, -(MaxHistorySize as int), |history|);
      }
      assert history == Truncate(h0);
      var response := rewriter(history, userMessage, courseList);
      if response.Raise? {
        return Raise(response.exception);
      }
      var jsonText := CleanReply(response.value);
      var parsed := decode(jsonText);
      if parsed.None? {
        d := Return(Directive(userMessage, None, false, ""));
      } else {
        d := Return(parsed.value);
      }
      assert d.value == DirectiveOf(parsed, userMessage);
    }

    /** The `grade_summary` list `chat` builds, one `get_summary()` per course in order. */
    method CollectSummaries() returns (r: Outcome<seq<Grades.Summary>>)
      ensures r == SummariesUpTo(courses, |courses|, calculators)
    {
      var summaries: seq<Grades.Summary> := [];
      for i := 0 to |courses|
        invariant SummariesUpTo(courses, i, calculators) == Return(summaries)
      {
        var c := courses[i];
        SummariesStep(courses, i, calculators);
        if c !in calculators {
          RaiseStays(courses, i + 1, |courses|, calculators);
          return Raise(KeyError);
        }
        var s := calculators[c].GetSummary();
        if s.Raise? {
          RaiseStays(courses, i + 1, |courses|, calculators);
          return Raise(s.exception);
        }
        summaries := summaries + [s.value];
      }
      return Return(summaries);
    }

    /**
     * `chat`: collects the grade summaries, rewrites the query, retrieves
     * unless the directive says to skip, asks for the answer, and only then
     * appends the user message and the answer to the history. Also returns
     * the arguments of the `retrieve` call, if one was made.
     */
    method Chat(userMessage: string,
                rewriter: (seq<Entry>, string, seq<string>) -> Outcome<string>,
                decode: string -> Option<Directive>,
                answerer: AnswerPrompt -> Outcome<string>,
                search: (string, int) -> seq<Rag.Candidate>)
      returns (r: Outcome<string>, retrieval: Option<RetrieveCall>)
      requires rag.Valid()
      modifies this
      ensures var rw := RewriteOf(rewriter(Truncate(old(history)), userMessage, courses), decode, userMessage);
        Turn(r, history, retrieval)
        == TurnOf(old(history), userMessage, |courses|, old(SummariesUpTo(courses, |courses|, calculators)), rw,
                  if rw.Raise? then Return("") else ContextOf(rw.value, |courses|, rag.indexed, rag.chunks, rag.chunkMetadata, search),
                  answerer)
    {
      ghost var h0 := history;
      var collected := CollectSummaries();
      if collected.Raise? {
        return Raise(collected.exception), None;
      }
      var summaries := collected.value;
      var rewritten := RewriteQuery(userMessage, courses, rewriter, decode);
      ghost var window := history;
      assert window == Truncate(h0);
      assert rewritten == RewriteOf(rewriter(Truncate(h0), userMessage, courses), decode, userMessage);
      if rewritten.Raise? {
        return Raise(rewritten.exception), None;
      }
      r, retrieval := Respond(userMessage, summaries, rewritten.value, answerer, search);
      assert collected == old(SummariesUpTo(courses, |courses|, calculators));
    }

    /**
     * `chat` after the rewrite: retrieves unless the directive says to skip,
     * asks for the answer, and only then appends the user message and the
     * answer to the history.
     */
    method Respond(userMessage: string, summaries: seq<Grades.Summary>, memory: Directive,
                   answerer: AnswerPrompt -> Outcome<string>,
                   search: (string, int) -> seq<Rag.Candidate>)
      returns (r: Outcome<string>, retrieval: Option<RetrieveCall>)
      requires rag.Valid()
      modifies this
      ensures Turn(r, history, retrieval)
           == AnswerTurn(old(history), userMessage, |courses|, summaries, memory,
                         ContextOf(memory, |courses|, rag.indexed, rag.chunks, rag.chunkMetadata, search), answerer)
    {
      ghost var ctx := ContextOf(memory, |courses|, rag.indexed, rag.chunks, rag.chunkMetadata, search);
      var retrievedChunks := "";
      retrieval := None;
      if !memory.skipRag {
        retrieval := Some((memory.question, |courses|, memory.courses, ChatK));
        var results, _ := rag.Retrieve(memory.question, |courses|, search, memory.courses, ChatK);
        if results.Raise? {
          assert ctx == Raise(results.exception);
          return Raise(results.exception), retrieval;
        }
        retrievedChunks := Text.Join(ChunksOf(results.value), "\n\n");
      }
      assert ctx == Return(retrievedChunks);
      var response := answerer(AnswerPrompt(retrievedChunks, summaries, memory.contextSummary, userMessage));
      if response.Raise? {
        return Raise(response.exception), retrieval;
      }
      var answer := response.value;
      ghost var window := history;
      history := history + [Entry(User, userMessage)];
      history := history + [Entry(Assistant, answer)];
      AppendTwo(window, Entry(User, userMessage), Entry(Assistant, answer));
      return Return(answer), retrieval;
    }
  }
}
