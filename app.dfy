/**
 * The rules of the web front end in `app.py`: registering a course from an
 * uploaded syllabus, passing chat messages to the chatbot, building the grade
 * table of a course, and adding a grade behind the capacity gate. The module
 * globals are the fields of `AppState`. Gradio widgets and `gr.update`
 * objects are not modelled; a status message is a constructor of a reply
 * datatype, and a table cell or header says what it shows rather than how it
 * is formatted.
 */
module App {
  import opened Py
  import Text
  import Grades
  import Rag
  import Chat
  import Extraction
  import SyllabusParser

  /** `course_name.strip().upper()` */
  function Normalise(name: string): string {
    Text.Upper(Text.Strip(name))
  }

  /** A normalised name is already upper case: tagging its chunks keeps it as it is. */
  lemma TagsOfNormalised(name: string, n: nat)
    ensures Rag.Tags(Normalise(name), n) == seq(n, _ => Normalise(name))
  {
    Text.UpperIdempotent(Text.Strip(name));
  }

  // ---------------------------------------------------------------------------
  // add_course
  // ---------------------------------------------------------------------------

  /** The status `add_course` reports, by kind. */
  datatype AddReply =
    | NoPdf                         // "Please upload a PDF file"
    | NoName                        // "Please enter a course name"
    | AlreadyExists(name: string)   // "Course ... already exists!"
    | ProcessFailed                 // "Failed to process PDF"
    | ParseFailed                   // "Failed to parse grading structure"
    | AddError(error: Exception)    // "Error adding course: ..."
    | Added(name: string)           // "Successfully added ...!"

  /** An upload with a PDF and a non-blank name not registered yet: the one `add_course` goes on to process. */
  predicate NewUpload(pdfPath: Option<string>, courseName: Option<string>, courseNames: seq<string>) {
    pdfPath.Some? && courseName.Some? && Text.Strip(courseName.value) != "" && Normalise(courseName.value) !in courseNames
  }

  /**
   * The reply of `add_course` given the registered names, the PDF reader
   * (None when no text could be read), the model call on the grading
   * prompt (its reply, or the exception the API call raises) and the JSON
   * decoder. A failed model call is reported as the error it raised; the
   * grading reply is missing a key exactly when `grading_info[...]` (or the
   * parser's default counts) raises KeyError.
   */
  function AddReplyOf(pdfPath: Option<string>, courseName: Option<string>, courseNames: seq<string>,
                      readPdf: string -> Option<string>, ask: string -> Outcome<string>,
                      decode: string -> Option<SyllabusParser.GradingInfo>): (r: AddReply)
    ensures pdfPath.None? <==> r == NoPdf
    ensures r == NoName <==> pdfPath.Some? && (courseName.None? || Text.Strip(courseName.value) == "")
    ensures r.AlreadyExists? <==>
      pdfPath.Some? && courseName.Some? && Text.Strip(courseName.value) != "" && Normalise(courseName.value) in courseNames
    ensures r.AlreadyExists? ==> r.name == Normalise(courseName.value)
    ensures r.Added? ==> && pdfPath.Some? && courseName.Some? && Text.Strip(courseName.value) != ""
                         && r.name == Normalise(courseName.value) && r.name !in courseNames && r.name != ""
                         && Extraction.ProcessSyllabus(pdfPath.value, readPdf(pdfPath.value)).Some?
                         && ask(Extraction.ProcessSyllabus(pdfPath.value, readPdf(pdfPath.value)).value.text).Return?
                         && var info := decode(SyllabusParser.CleanReply(
                              ask(Extraction.ProcessSyllabus(pdfPath.value, readPdf(pdfPath.value)).value.text).value));
                            info.Some? && info.value.breakdown.Some? && info.value.counts.Some?
    ensures r.AddError? ==>
      && pdfPath.Some? && Extraction.ProcessSyllabus(pdfPath.value, readPdf(pdfPath.value)).Some?
      && var reply := ask(Extraction.ProcessSyllabus(pdfPath.value, readPdf(pdfPath.value)).value.text);
         r.error == if reply.Raise? then reply.exception else KeyError
    ensures && pdfPath.Some? && courseName.Some? && Text.Strip(courseName.value) != ""
            && Normalise(courseName.value) !in courseNames
            && Extraction.ProcessSyllabus(pdfPath.value, readPdf(pdfPath.value)).Some?
            && ask(Extraction.ProcessSyllabus(pdfPath.value, readPdf(pdfPath.value)).value.text).Raise?
            ==> r == AddError(ask(Extraction.ProcessSyllabus(pdfPath.value, readPdf(pdfPath.value)).value.text).exception)
    ensures NewUpload(pdfPath, courseName, courseNames) ==>
      r == UploadReply(Normalise(courseName.value), Extraction.ProcessSyllabus(pdfPath.value, readPdf(pdfPath.value)), ask, decode)
  {
    if pdfPath.None? then NoPdf
    else if courseName.None? || Text.Strip(courseName.value) == "" then NoName
    else
      var name := Normalise(courseName.value);
      if name in courseNames then AlreadyExists(name)
      else UploadReply(name, Extraction.ProcessSyllabus(pdfPath.value, readPdf(pdfPath.value)), ask, decode)
  }

  /**
   * The reply to a new upload once its name has been accepted, given what
   * `process_syllabus` made of the PDF: the course is added exactly when
   * the PDF gave text, the grading call returned, and its reply decoded to
   * a structure with both keys.
   */
  function UploadReply(name: string, processed: Option<Extraction.Processed>, ask: string -> Outcome<string>,
                       decode: string -> Option<SyllabusParser.GradingInfo>): (r: AddReply)
    ensures processed.None? ==> r == ProcessFailed
    ensures processed.Some? && ask(processed.value.text).Raise? ==> r == AddError(ask(processed.value.text).exception)
    ensures processed.Some? && ask(processed.value.text).Return? ==>
      var info := decode(SyllabusParser.CleanReply(ask(processed.value.text).value));
      && (info.None? ==> r == ParseFailed)
      && (info.Some? && (info.value.breakdown.None? || info.value.counts.None?) ==> r == AddError(KeyError))
      && (info.Some? && info.value.breakdown.Some? && info.value.counts.Some? ==> r == Added(name))
    ensures r.Added? ==>
      && r.name == name && processed.Some? && ask(processed.value.text).Return?
      && var info := decode(SyllabusParser.CleanReply(ask(processed.value.text).value));
         info.Some? && info.value.breakdown.Some? && info.value.counts.Some?
    ensures r.AddError? ==>
      && processed.Some?
      && r.error == if ask(processed.value.text).Raise? then ask(processed.value.text).exception else KeyError
    ensures !r.NoPdf? && !r.NoName? && !r.AlreadyExists?
  {
    match processed
    case None => ProcessFailed
    case Some(p) =>
      match ask(p.text)
      case Raise(e) => AddError(e)
      case Return(reply) =>
        match decode(SyllabusParser.CleanReply(reply))
        case None => ParseFailed
        case Some(info) =>
          if info.breakdown.None? || info.counts.None? then AddError(KeyError)
          else Added(name)
  }

  /**
   * The checks and the parsing `add_course` does before it changes anything:
   * the reply, and for a course to register its chunks, its breakdown and
   * its counts with the parser's defaults filled in.
   */
  method PrepareCourse(pdfPath: Option<string>, courseName: Option<string>, courseNames: seq<string>,
                       readPdf: string -> Option<string>, ask: string -> Outcome<string>,
                       decode: string -> Option<SyllabusParser.GradingInfo>)
    returns (r: AddReply, chunks: seq<string>, breakdown: Dict<real>, counts: map<string, int>)
    ensures r == AddReplyOf(pdfPath, courseName, courseNames, readPdf, ask, decode)
    ensures r.Added? ==>
      var p := Extraction.ProcessSyllabus(pdfPath.value, readPdf(pdfPath.value)).value;
      var info := decode(SyllabusParser.CleanReply(ask(p.text).value)).value;
      && chunks == p.chunks
      && info.breakdown.Some? && info.counts.Some?
      && breakdown == info.breakdown.value
      && counts == SyllabusParser.FilledCounts(info.breakdown.value.keys, info.counts.value)
  {
    chunks, breakdown, counts := [], RawDict([], map[]), map[];
    if pdfPath.None? {
      return NoPdf, chunks, breakdown, counts;
    }
    if courseName.None? || Text.Strip(courseName.value) == "" {
      return NoName, chunks, breakdown, counts;
    }
    var name := Normalise(courseName.value);
    if name in courseNames {
      return AlreadyExists(name), chunks, breakdown, counts;
    }
    var result := Extraction.ProcessSyllabus(pdfPath.value, readPdf(pdfPath.value));
    r, chunks, breakdown, counts := PrepareUpload(name, result, ask, decode);
  }

  /** The processing and parsing steps of `add_course` for an accepted new name. */
  method PrepareUpload(name: string, processed: Option<Extraction.Processed>, ask: string -> Outcome<string>,
                       decode: string -> Option<SyllabusParser.GradingInfo>)
    returns (r: AddReply, chunks: seq<string>, breakdown: Dict<real>, counts: map<string, int>)
    ensures r == UploadReply(name, processed, ask, decode)
    ensures r.Added? ==>
      var info := decode(SyllabusParser.CleanReply(ask(processed.value.text).value)).value;
      && chunks == processed.value.chunks
      && info.breakdown.Some? && info.counts.Some?
      && breakdown == info.breakdown.value
      && counts == SyllabusParser.FilledCounts(info.breakdown.value.keys, info.counts.value)
  {
    chunks, breakdown, counts := [], RawDict([], map[]), map[];
    if processed.None? {
      return ProcessFailed, chunks, breakdown, counts;
    }
    var gradingInfo := SyllabusParser.ParseGradingStructure(ask(processed.value.text), decode);
    if gradingInfo.Raise? {
      return AddError(gradingInfo.exception), chunks, breakdown, counts;
    }
    if gradingInfo.value.None? {
      return ParseFailed, chunks, breakdown, counts;
    }
    var info := gradingInfo.value.value;
    if info.breakdown.None? || info.counts.None? {
      return AddError(KeyError), chunks, breakdown, counts;
    }
    return Added(name), processed.value.chunks, info.breakdown.value, info.counts.value;
  }

  // ---------------------------------------------------------------------------
  // chat_with_bot
  // ---------------------------------------------------------------------------

  /** The notice given when no course has been added yet. */
  const NoCourseNotice: string := "Please add at least one course first!"

  /** The assistant entry for what `chat` gave: the answer, or "Error: " and the exception's text. */
  function AssistantText(response: Outcome<string>, describe: Exception -> string): string {
    match response
    case Return(answer) => answer
    case Raise(e) => "Error: " + describe(e)
  }

  /**
   * The history `chat_with_bot` returns; `response` is what `chat` gave, or
   * None when it was not called. The given history is only read: the result
   * is it, or it followed by the user entry (the message as typed) and an
   * assistant entry.
   */
  function Reply(message: string, history: Option<seq<Chat.Entry>>, hasBot: bool,
                 response: Option<Outcome<string>>, describe: Exception -> string): (r: seq<Chat.Entry>)
    ensures var h := if history.Some? then history.value else [];
      && (|r| == |h| || |r| == |h| + 2)
      && r[..|h|] == h
      && (|r| == |h| <==> hasBot && response.None?)
      && (|r| != |h| ==> && |r| == |h| + 2
                         && r[|h|] == Chat.Entry(Chat.User, message)
                         && r[|h| + 1].role == Chat.Assistant)
      && (!hasBot ==> r[|h| + 1].content == NoCourseNotice)
      && (hasBot && response.Some? ==> r[|h| + 1].content == AssistantText(response.value, describe))
  {
    var h := if history.Some? then history.value else [];
    if !hasBot then
      h + [Chat.Entry(Chat.User, message), Chat.Entry(Chat.Assistant, NoCourseNotice)]
    else
      match response
      case None => h
      case Some(o) => h + [Chat.Entry(Chat.User, message), Chat.Entry(Chat.Assistant, AssistantText(o, describe))]
  }

  // ---------------------------------------------------------------------------
  // select_course
  // ---------------------------------------------------------------------------

  /** A cell of the grade table: what it shows, not its formatting. */
  datatype Cell =
    | CategoryCell(category: string)
    | WeightCell(percent: real)       // `f"{weight:.1f}%"`
    | CountCell(count: int)
    | ScoreCell(score: real)          // `f"{score:.1f}"`
    | Blank                           // "" padding
    | AverageCell(average: real)      // `f"{average:.1f}"`
    | NoAverage                       // "--"

  /** A column header: "Category", "Weight", "Count", "Score n", "Grade". */
  datatype Header = CategoryHeader | WeightHeader | CountHeader | ScoreHeader(number: nat) | GradeHeader

  /**
   * What `select_course` shows: nothing for an unknown course; otherwise the
   * current grade (None for "No grades entered yet"), the table and the
   * category choices.
   */
  datatype Selection =
    | NoCourseSelected
    | Selected(currentGrade: Option<real>, headers: seq<Header>, rows: seq<seq<Cell>>, categories: seq<string>)

  /** Every category of the summary has a score list. */
  predicate HasScores(infos: seq<Grades.CategoryInfo>, grades: map<string, seq<real>>) {
    forall j :: 0 <= j < |infos| ==> infos[j].category in grades
  }

  /** `max_scores`: the length of the longest score list among the summary's categories (0 for none). */
  function LongestScores(infos: seq<Grades.CategoryInfo>, grades: map<string, seq<real>>): (r: nat)
    requires HasScores(infos, grades)
    ensures forall j :: 0 <= j < |infos| ==> |grades[infos[j].category]| <= r
    ensures r == 0 || exists j :: 0 <= j < |infos| && |grades[infos[j].category]| == r
  {
    if infos == [] then 0
    else
      var n := |infos| - 1;
      var prev := LongestScores(infos[..n], grades);
      assert forall j :: 0 <= j < n ==> infos[..n][j] == infos[j];
      var here := |grades[infos[n].category]|;
      if here > prev then here else prev
  }

  /** The score columns of a row: the scores, then "" up to `width` columns. */
  function ScoreCells(scores: seq<real>, width: nat): seq<Cell> {
    seq(width, i requires 0 <= i < width => if i < |scores| then ScoreCell(scores[i]) else Blank)
  }

  /** The cell for a category's average: "--" when it has no scores. */
  function AverageCellOf(average: Option<real>): Cell {
    if average.Some? then AverageCell(average.value) else NoAverage
  }

  /**
   * A table row: category, weight, count, `width` score columns (padded with
   * "" after the last score) and the average.
   */
  function RowOf(info: Grades.CategoryInfo, scores: seq<real>, width: nat): (r: seq<Cell>)
    ensures |r| == 3 + width + 1
    ensures r[0] == CategoryCell(info.category) && r[1] == WeightCell(info.weight) && r[2] == CountCell(info.total)
    ensures forall i :: 3 <= i < 3 + width ==> (r[i] == Blank <==> i - 3 >= |scores|)
    ensures forall i :: 3 <= i < 3 + width && i - 3 < |scores| ==> r[i] == ScoreCell(scores[i - 3])
    ensures r[3 + width] == (if info.average.Some? then AverageCell(info.average.value) else NoAverage)
  {
    [CategoryCell(info.category), WeightCell(info.weight), CountCell(info.total)]
      + ScoreCells(scores, width) + [AverageCellOf(info.average)]
  }

  /** The headers for `width` score columns: one per column of every row. */
  function HeadersOf(width: nat): (r: seq<Header>)
    ensures |r| == 3 + width + 1
    ensures r[0] == CategoryHeader && r[1] == WeightHeader && r[2] == CountHeader
    ensures forall i :: 3 <= i < 3 + width ==> r[i] == ScoreHeader(i - 2)
    ensures r[3 + width] == GradeHeader
  {
    [CategoryHeader, WeightHeader, CountHeader]
      + (if width > 0 then seq(width, (i: nat) => ScoreHeader(i + 1)) else [])
      + [GradeHeader]
  }

  /** `headers` are the headers for some number of score columns. */
  predicate IsHeaderRow(headers: seq<Header>) {
    |headers| >= 4 && headers == HeadersOf(|headers| - 4)
  }

  /** `width` is the length of the longest score list of the `keys` categories (0 when there is none). */
  predicate IsLongest(width: nat, keys: seq<string>, grades: map<string, seq<real>>) {
    && (forall j :: 0 <= j < |keys| ==> keys[j] in grades && |grades[keys[j]]| <= width)
    && (width == 0 || exists j :: 0 <= j < |keys| && keys[j] in grades && |grades[keys[j]]| == width)
  }

  /** A summary that exists lists the breakdown's categories in order, each with a score list. */
  lemma SummaryCategories(name: string, breakdown: Dict<real>, counts: map<string, int>, grades: map<string, seq<real>>)
    requires Grades.SummaryOf(name, breakdown, counts, grades).Return?
    ensures var s := Grades.SummaryOf(name, breakdown, counts, grades).value;
      && |s.categories| == |breakdown.keys|
      && (forall j :: 0 <= j < |s.categories| ==> s.categories[j].category == breakdown.keys[j])
      && HasScores(s.categories, grades)
  {
    Grades.SummaryRaisesIffListMissing(name, breakdown, counts, grades);
    var s := Grades.SummaryOf(name, breakdown, counts, grades).value;
    forall j | 0 <= j < |s.categories|
      ensures s.categories[j].category == breakdown.keys[j] && breakdown.keys[j] in grades
    {
      assert breakdown.keys[j] in breakdown.items;
    }
  }

  /**
   * What `select_course` shows for a calculator's state: the summary's
   * failure, or a table with one row per category in breakdown order, every
   * row as long as the headers, and exactly as many score columns as the
   * longest score list has scores.
   */
  function SelectionOf(name: string, breakdown: Dict<real>, counts: map<string, int>, grades: map<string, seq<real>>): (r: Outcome<Selection>)
    ensures r.Raise? <==> Grades.SummaryOf(name, breakdown, counts, grades).Raise?
    ensures r.Raise? ==> r.exception == Grades.SummaryOf(name, breakdown, counts, grades).exception
    ensures r.Return? ==>
      var sel, s := r.value, Grades.SummaryOf(name, breakdown, counts, grades).value;
      && sel.Selected?
      && sel.categories == breakdown.keys
      && (sel.currentGrade.Some? <==> s.currentGrade > 0.0)
      && (sel.currentGrade.Some? ==> sel.currentGrade.value == s.currentGrade)
      && |sel.headers| >= 4
      && IsHeaderRow(sel.headers)
      && |sel.rows| == |breakdown.keys|
      && (forall j :: 0 <= j < |sel.rows| ==>
           && breakdown.keys[j] in grades
           && |sel.rows[j]| == |sel.headers|
           && |grades[breakdown.keys[j]]| <= |sel.headers| - 4
           && sel.rows[j] == RowOf(s.categories[j], grades[breakdown.keys[j]], |sel.headers| - 4))
      && IsLongest(|sel.headers| - 4, breakdown.keys, grades)
  {
    match Grades.SummaryOf(name, breakdown, counts, grades)
    case Raise(e) => Raise(e)
    case Return(s) =>
      SummaryCategories(name, breakdown, counts, grades);
      Return(TableOf(if s.currentGrade > 0.0 then Some(s.currentGrade) else None, s.categories, grades, breakdown.keys))
  }

  /**
   * The table for categories that all have score lists, `keys` naming them:
   * one row per category, as wide as the longest list.
   */
  function TableOf(currentGrade: Option<real>, cats: seq<Grades.CategoryInfo>, grades: map<string, seq<real>>, keys: seq<string>): (sel: Selection)
    requires |keys| == |cats| && (forall j :: 0 <= j < |cats| ==> cats[j].category == keys[j])
    requires HasScores(cats, grades)
    ensures sel.Selected? && sel.currentGrade == currentGrade && sel.categories == keys
    ensures |sel.headers| >= 4 && IsHeaderRow(sel.headers)
    ensures |sel.rows| == |keys|
    ensures forall j :: 0 <= j < |sel.rows| ==>
              && keys[j] in grades
              && |sel.rows[j]| == |sel.headers|
              && |grades[keys[j]]| <= |sel.headers| - 4
              && sel.rows[j] == RowOf(cats[j], grades[keys[j]], |sel.headers| - 4)
    ensures IsLongest(|sel.headers| - 4, keys, grades)
  {
    var width := LongestScores(cats, grades);
    var rows := seq(|cats|, j requires 0 <= j < |cats| => RowOf(cats[j], grades[cats[j].category], width));
    Selected(currentGrade, HeadersOf(width), rows, keys)
  }

  /** The `max_scores` loop. */
  method MaxScores(cats: seq<Grades.CategoryInfo>, grades: map<string, seq<real>>) returns (maxScores: nat)
    requires HasScores(cats, grades)
    ensures maxScores == LongestScores(cats, grades)
  {
    maxScores := 0;
    for i := 0 to |cats|
      invariant maxScores == LongestScores(cats[..i], grades)
    {
      assert cats[..i + 1][..i] == cats[..i];
      var scoresCount := |grades[cats[i].category]|;
      maxScores := if scoresCount > maxScores then scoresCount else maxScores;
    }
    assert cats[..|cats|] == cats;
  }

  /** One row of `table_data`: the three leading cells, the padded score columns, the average. */
  method BuildRow(info: Grades.CategoryInfo, scores: seq<real>, width: nat) returns (row: seq<Cell>)
    ensures row == RowOf(info, scores, width)
  {
    var head := [CategoryCell(info.category), WeightCell(info.weight), CountCell(info.total)];
    row := head;
    for k := 0 to width
      invariant row == head + ScoreCells(scores, k)
    {
      assert ScoreCells(scores, k + 1) == ScoreCells(scores, k) + [ScoreCells(scores, k + 1)[k]];
      if k < |scores| {
        row := row + [ScoreCell(scores[k])];
      } else {
        row := row + [Blank];
      }
    }
    if info.average.Some? {
      row := row + [AverageCell(info.average.value)];
    } else {
      row := row + [NoAverage];
    }
  }

  /** The `table_data` loop: one row per summary category, in order. */
  method TableRows(cats: seq<Grades.CategoryInfo>, grades: map<string, seq<real>>, width: nat) returns (rows: seq<seq<Cell>>)
    requires HasScores(cats, grades)
    ensures |rows| == |cats|
    ensures forall j :: 0 <= j < |cats| ==> rows[j] == RowOf(cats[j], grades[cats[j].category], width)
  {
    rows := [];
    for i := 0 to |cats|
      invariant |rows| == i
      invariant forall j :: 0 <= j < i ==> rows[j] == RowOf(cats[j], grades[cats[j].category], width)
    {
      var row := BuildRow(cats[i], grades[cats[i].category], width);
      rows := rows + [row];
    }
  }

  /** The headers: "Category", "Weight", "Count", a "Score n" per column, "Grade". */
  method BuildHeaders(width: nat) returns (headers: seq<Header>)
    ensures headers == HeadersOf(width)
  {
    headers := [CategoryHeader, WeightHeader, CountHeader];
    if width > 0 {
      headers := headers + seq(width, (i: nat) => ScoreHeader(i + 1));
    }
    headers := headers + [GradeHeader];
  }

  // ---------------------------------------------------------------------------
  // add_grade_to_course
  // ---------------------------------------------------------------------------

  /** The status `add_grade_to_course` reports, by kind. */
  datatype GradeReply =
    | SelectCourseFirst                                      // "Please select a course first"
    | SelectCategory                                         // "Please select a category"
    | CategoryFull(category: string, completed: int, total: int)  // "Cannot add grade: ... is full (c/t)"
    | InvalidNumbers                                         // "Please enter valid numbers ..."
    | GradeAdded(selection: Selection)                       // "Grade added successfully!" and the new table
    | NotAdded(category: string)                             // "Failed to add grade. ..."

  /** `float(max_score_input) if max_score_input else 100`; `parseFloat` is `float` on a string. */
  function MaxScoreOf(maxScoreInput: string, parseFloat: string -> Option<real>): Option<real> {
    if maxScoreInput == "" then Some(100.0) else parseFloat(maxScoreInput)
  }

  /** Where `add_grade_to_course` stands just before `add_grade`: stopped with a reply, or going on with the two numbers. */
  datatype Gate = Stop(reply: Outcome<GradeReply>) | Go(score: real, maxScore: real)

  /**
   * The steps before `add_grade`: the summary (its KeyError is not caught),
   * the category's entry (KeyError when absent), the capacity check, and the
   * two number conversions (a ValueError is caught and reported).
   */
  function GateOf(summary: Outcome<Grades.Summary>, category: string, scoreInput: string, maxScoreInput: string,
                  parseFloat: string -> Option<real>): (g: Gate)
    ensures summary.Raise? ==> g == Stop(Raise(summary.exception))
    ensures summary.Return? && Grades.Lookup(summary.value.categories, category).None? ==> g == Stop(Raise(KeyError))
    ensures summary.Return? && Grades.Lookup(summary.value.categories, category).Some? ==>
      var info := Grades.Lookup(summary.value.categories, category).value;
      && (info.check ==> g == Stop(Return(CategoryFull(category, info.completed, info.total))))
      && (!info.check && (parseFloat(scoreInput).None? || MaxScoreOf(maxScoreInput, parseFloat).None?) ==>
            g == Stop(Return(InvalidNumbers)))
    ensures g.Go? ==> && summary.Return?
                      && Grades.Lookup(summary.value.categories, category).Some?
                      && !Grades.Lookup(summary.value.categories, category).value.check
                      && parseFloat(scoreInput) == Some(g.score)
                      && MaxScoreOf(maxScoreInput, parseFloat) == Some(g.maxScore)
    ensures && summary.Return? && Grades.Lookup(summary.value.categories, category).Some?
            && !Grades.Lookup(summary.value.categories, category).value.check
            && parseFloat(scoreInput).Some? && MaxScoreOf(maxScoreInput, parseFloat).Some?
            ==> g == Go(parseFloat(scoreInput).value, MaxScoreOf(maxScoreInput, parseFloat).value)
  {
    match summary
    case Raise(e) => Stop(Raise(e))
    case Return(s) =>
      match Grades.Lookup(s.categories, category)
      case None => Stop(Raise(KeyError))
      case Some(info) =>
        if info.check then Stop(Return(CategoryFull(category, info.completed, info.total)))
        else
          match parseFloat(scoreInput)
          case None => Stop(Return(InvalidNumbers))
          case Some(score) =>
            match MaxScoreOf(maxScoreInput, parseFloat)
            case None => Stop(Return(InvalidNumbers))
            case Some(maxScore) => Go(score, maxScore)
  }

  /** A category the summary lists is a category with a score list. */
  lemma ListedHasScores(name: string, breakdown: Dict<real>, counts: map<string, int>, grades: map<string, seq<real>>, category: string)
    requires Grades.SummaryOf(name, breakdown, counts, grades).Return?
    requires Grades.Lookup(Grades.SummaryOf(name, breakdown, counts, grades).value.categories, category).Some?
    ensures category in breakdown.items && category in grades
  {
    SummaryCategories(name, breakdown, counts, grades);
    var infos := Grades.SummaryOf(name, breakdown, counts, grades).value.categories;
    var info := Grades.Lookup(infos, category).value;
    var j :| 0 <= j < |infos| && infos[j] == info;
    assert breakdown.keys[j] in breakdown.items;
  }

  /** Appending a score keeps every category's score list, so a summary that existed still exists. */
  lemma SummaryAfterAdd(name: string, breakdown: Dict<real>, counts: map<string, int>, grades: map<string, seq<real>>,
                        category: string, score: real)
    requires Grades.SummaryOf(name, breakdown, counts, grades).Return? && category in grades
    ensures Grades.SummaryOf(name, breakdown, counts, grades[category := grades[category] + [score]]).Return?
  {
    Grades.SummaryRaisesIffListMissing(name, breakdown, counts, grades);
    Grades.SummaryRaisesIffListMissing(name, breakdown, counts, grades[category := grades[category] + [score]]);
  }

  // ---------------------------------------------------------------------------
  // The module globals
  // ---------------------------------------------------------------------------

  /** Whether a dropdown value names a known course (`course_dropdown and course_dropdown in calculators`). */
  predicate Chosen(course: Option<string>, calculators: map<string, Grades.GradeCalculator>) {
    course.Some? && course.value != "" && course.value in calculators
  }

  class AppState {
    /** `rag_system`, created once. */
    const ragSystem: Rag.RAGSystem
    var calculators: map<string, Grades.GradeCalculator>
    var courseNames: seq<string>
    /** `chatbot`: null until the first course is added. */
    var chatbot: Chat.RAGChat?
    var currentCourse: Option<string>

    /**
     * The invariant `add_course` keeps: the names are distinct and are the
     * calculators' keys, and the chatbot exists once a course does and sees
     * the current store, calculators and names.
     */
    ghost predicate Valid()
      reads this, ragSystem
    {
      && ragSystem.Valid()
      && Distinct(courseNames)
      && (forall n :: n in calculators <==> n in courseNames)
      && (chatbot == null <==> courseNames == [])
      && (chatbot != null ==> && chatbot.rag == ragSystem
                              && chatbot.calculators == calculators
                              && chatbot.courses == courseNames)
    }

    /** The globals at start-up. */
    constructor ()
      ensures Valid()
      ensures fresh(ragSystem) && ragSystem.chunks == [] && !ragSystem.indexed
      ensures calculators == map[] && courseNames == [] && chatbot == null && currentCourse == None
    {
      ragSystem := new Rag.RAGSystem();
      calculators := map[];
      courseNames := [];
      chatbot := null;
      currentCourse := None;
    }

    /**
     * The last lines of a successful `add_course`: the calculator, the
     * chunks tagged with the name, the name appended once, the index rebuilt
     * and only then the new chatbot over the updated store and names.
     */
    method Register(name: string, chunks: seq<string>, breakdown: Dict<real>, counts: map<string, int>)
      requires Valid() && name !in courseNames
      modifies this, ragSystem
      ensures Valid()
      ensures currentCourse == old(currentCourse)
      ensures courseNames == old(courseNames) + [name]
      ensures calculators.Keys == old(calculators).Keys + {name}
      ensures forall n :: n in old(calculators) ==> calculators[n] == old(calculators)[n]
      ensures fresh(calculators[name])
      ensures calculators[name].name == name && calculators[name].breakdown == breakdown && calculators[name].counts == counts
      ensures calculators[name].grades == (map c | c in breakdown.items :: [])
      ensures ragSystem.chunks == old(ragSystem.chunks) + chunks
      ensures ragSystem.chunkMetadata == old(ragSystem.chunkMetadata) + Rag.Tags(name, |chunks|)
      ensures ragSystem.indexed
      ensures fresh(chatbot) && chatbot.history == []
    {
      var calculator := new Grades.GradeCalculator(name, breakdown, counts);
      calculators := calculators[name := calculator];
      ragSystem.AddCourse(name, chunks);
      courseNames := courseNames + [name];
      ragSystem.IndexChunks();
      chatbot := new Chat.RAGChat(ragSystem, calculators, courseNames);
      assert Distinct(courseNames) by {
        forall i, j | 0 <= i < j < |courseNames| ensures courseNames[i] != courseNames[j] {
          if j == |courseNames| - 1 {
            assert courseNames[i] in old(courseNames);
          }
        }
      }
    }

    /**
     * `add_course(pdf_file, course_name)`. `readPdf` reads a PDF's text,
     * `ask` is the model call on the grading prompt for a text and
     * `decode` is `json.loads`. A rejected or failed upload changes nothing;
     * a successful one registers the normalised name once, gives it a
     * calculator over the parsed breakdown and the default-filled counts,
     * adds its chunks tagged with the name, rebuilds the index and then
     * creates a new chatbot.
     */
    method AddCourse(pdfPath: Option<string>, courseName: Option<string>,
                     readPdf: string -> Option<string>, ask: string -> Outcome<string>,
                     decode: string -> Option<SyllabusParser.GradingInfo>) returns (r: AddReply)
      requires Valid()
      modifies this, ragSystem
      ensures Valid()
      ensures r == AddReplyOf(pdfPath, courseName, old(courseNames), readPdf, ask, decode)
      ensures currentCourse == old(currentCourse)
      ensures !r.Added? ==>
        && courseNames == old(courseNames) && calculators == old(calculators) && chatbot == old(chatbot)
        && ragSystem.chunks == old(ragSystem.chunks) && ragSystem.chunkMetadata == old(ragSystem.chunkMetadata)
        && ragSystem.indexed == old(ragSystem.indexed)
      ensures r.Added? ==>
        var p := Extraction.ProcessSyllabus(pdfPath.value, readPdf(pdfPath.value)).value;
        var info := decode(SyllabusParser.CleanReply(ask(p.text).value)).value;
        && info.breakdown.Some? && info.counts.Some?
        && courseNames == old(courseNames) + [r.name]
        && calculators.Keys == old(calculators).Keys + {r.name}
        && (forall n :: n in old(calculators) ==> calculators[n] == old(calculators)[n])
        && fresh(calculators[r.name])
        && calculators[r.name].name == r.name
        && calculators[r.name].breakdown == info.breakdown.value
        && calculators[r.name].counts == SyllabusParser.FilledCounts(info.breakdown.value.keys, info.counts.value)
        && calculators[r.name].grades == (map c | c in info.breakdown.value.items :: [])
        && ragSystem.chunks == old(ragSystem.chunks) + p.chunks
        && ragSystem.chunkMetadata == old(ragSystem.chunkMetadata) + seq(|p.chunks|, _ => r.name)
        && ragSystem.indexed
        && fresh(chatbot) && chatbot.history == []
    {
      var chunks, breakdown, counts;
      r, chunks, breakdown, counts := PrepareCourse(pdfPath, courseName, courseNames, readPdf, ask, decode);
      if r.Added? {
        Register(r.name, chunks, breakdown, counts);
        TagsOfNormalised(courseName.value, |chunks|);
      }
    }

    /**
     * `chat_with_bot(message, history)`: the chatbot is asked with the
     * stripped message only when it exists and the message is not blank.
     * Returns the history to show and what `chat` gave, if it was asked; the
     * chatbot's turn is then the one its `chat` specifies.
     */
    method ChatWithBot(message: string, history: Option<seq<Chat.Entry>>,
                       rewriter: (seq<Chat.Entry>, string, seq<string>) -> Outcome<string>,
                       decode: string -> Option<Chat.Directive>,
                       answerer: Chat.AnswerPrompt -> Outcome<string>,
                       search: (string, int) -> seq<Rag.Candidate>,
                       describe: Exception -> string)
      returns (r: seq<Chat.Entry>, response: Option<Outcome<string>>, retrieval: Option<Chat.RetrieveCall>)
      requires Valid()
      modifies chatbot
      ensures response.Some? <==> chatbot != null && Text.Strip(message) != ""
      ensures r == Reply(message, history, chatbot != null, response, describe)
      ensures chatbot != null && response.None? ==> chatbot.history == old(chatbot.history)
      ensures response.Some? ==>
        var bot, m := chatbot, Text.Strip(message);
        var rw := Chat.RewriteOf(rewriter(Chat.Truncate(old(bot.history)), m, bot.courses), decode, m);
        Chat.Turn(response.value, bot.history, retrieval)
        == Chat.TurnOf(old(bot.history), m, |bot.courses|, old(Chat.SummariesUpTo(bot.courses, |bot.courses|, bot.calculators)), rw,
                       if rw.Raise? then Return("")
                       else Chat.ContextOf(rw.value, |bot.courses|, bot.rag.indexed, bot.rag.chunks, bot.rag.chunkMetadata, search),
                       answerer)
    {
      retrieval := None;
      if chatbot == null {
        response := None;
        r := Reply(message, history, false, None, describe);
        return;
      }
      if Text.Strip(message) == "" {
        response := None;
        r := Reply(message, history, true, None, describe);
        return;
      }
      var answer;
      answer, retrieval := chatbot.Chat(Text.Strip(message), rewriter, decode, answerer, search);
      response := Some(answer);
      r := Reply(message, history, true, response, describe);
    }

    /**
     * `select_course(course_name)`: for a known course, remembers it as the
     * current course and builds the grade table with the nested loops over
     * the summary's categories and the score columns.
     */
    method SelectCourse(courseName: Option<string>) returns (r: Outcome<Selection>)
      modifies this
      ensures calculators == old(calculators) && courseNames == old(courseNames) && chatbot == old(chatbot)
      ensures !Chosen(courseName, calculators) ==> r == Return(NoCourseSelected) && currentCourse == old(currentCourse)
      ensures Chosen(courseName, calculators) ==>
        var c := calculators[courseName.value];
        currentCourse == courseName && r == SelectionOf(c.name, c.breakdown, c.counts, c.grades)
    {
      if !Chosen(courseName, calculators) {
        return Return(NoCourseSelected);
      }
      currentCourse := courseName;
      var calculator := calculators[courseName.value];
      var summary := calculator.GetSummary();
      if summary.Raise? {
        return Raise(summary.exception);
      }
      var grades := calculator.grades;
      SummaryCategories(calculator.name, calculator.breakdown, calculator.counts, grades);
      var categoryChoices := calculator.breakdown.keys;
      var cats := summary.value.categories;

      var maxScores := MaxScores(cats, grades);
      var tableData := TableRows(cats, grades, maxScores);
      var headers := BuildHeaders(maxScores);
      assert tableData == seq(|cats|, j requires 0 <= j < |cats| => RowOf(cats[j], grades[cats[j].category], maxScores));
      var currentGrade := summary.value.currentGrade;
      var gradeDisplay := if currentGrade > 0.0 then Some(currentGrade) else None;
      assert Selected(gradeDisplay, headers, tableData, categoryChoices) == TableOf(gradeDisplay, cats, grades, categoryChoices);
      return Return(Selected(gradeDisplay, headers, tableData, categoryChoices));
    }

    /**
     * `add_grade_to_course(course_dropdown, category_input, score_input,
     * max_score_input)`: `parseFloat` is `float` on the text boxes, None for
     * a ValueError. Without a known course or a category nothing happens; at
     * the gate a full category (completed equal to the count) adds nothing;
     * otherwise the percentage is appended and the course's table rebuilt. A
     * max score of "0" raises ZeroDivisionError, which is not caught.
     */
    method AddGradeToCourse(courseDropdown: Option<string>, category: string, scoreInput: string, maxScoreInput: string,
                            parseFloat: string -> Option<real>) returns (r: Outcome<GradeReply>)
      modifies this, if Chosen(courseDropdown, calculators) then {calculators[courseDropdown.value]} else {}
      ensures calculators == old(calculators) && courseNames == old(courseNames) && chatbot == old(chatbot)
      ensures !Chosen(courseDropdown, calculators) ==> r == Return(SelectCourseFirst) && currentCourse == old(currentCourse)
      ensures Chosen(courseDropdown, calculators) ==>
        var c := calculators[courseDropdown.value];
        var g := GateOf(old(Grades.SummaryOf(c.name, c.breakdown, c.counts, c.grades)), category, scoreInput, maxScoreInput, parseFloat);
        && c.breakdown == old(c.breakdown) && c.counts == old(c.counts)
        && (category == "" ==> r == Return(SelectCategory) && c.grades == old(c.grades) && currentCourse == old(currentCourse))
        && (category != "" && g.Stop? ==> r == g.reply && c.grades == old(c.grades) && currentCourse == old(currentCourse))
        && (category != "" && g.Go? && g.maxScore == 0.0 ==> r == Raise(ZeroDivisionError) && c.grades == old(c.grades) && currentCourse == old(currentCourse))
        && (category != "" && g.Go? && g.maxScore != 0.0 ==>
              && c.grades == old(c.grades)[category := old(c.grades)[category] + [Grades.Percentage(g.score, g.maxScore)]]
              && currentCourse == courseDropdown
              && SelectionOf(c.name, c.breakdown, c.counts, c.grades).Return?
              && r == Return(GradeAdded(SelectionOf(c.name, c.breakdown, c.counts, c.grades).value)))
      ensures r.Return? ==> !r.value.NotAdded?
    {
      if !Chosen(courseDropdown, calculators) {
        return Return(SelectCourseFirst);
      }
      if category == "" {
        return Return(SelectCategory);
      }
      var calculator := calculators[courseDropdown.value];
      var summary := calculator.GetSummary();
      ghost var g := GateOf(summary, category, scoreInput, maxScoreInput, parseFloat);
      if summary.Raise? {
        return Raise(summary.exception);
      }
      var categoryInfo := Grades.Lookup(summary.value.categories, category);
      if categoryInfo.None? {
        return Raise(KeyError);
      }
      if categoryInfo.value.check {
        return Return(CategoryFull(category, categoryInfo.value.completed, categoryInfo.value.total));
      }
      var score := parseFloat(scoreInput);
      if score.None? {
        return Return(InvalidNumbers);
      }
      var maxScore := MaxScoreOf(maxScoreInput, parseFloat);
      if maxScore.None? {
        return Return(InvalidNumbers);
      }
      ListedHasScores(calculator.name, calculator.breakdown, calculator.counts, calculator.grades, category);
      if maxScore.value != 0.0 {
        SummaryAfterAdd(calculator.name, calculator.breakdown, calculator.counts, calculator.grades,
                        category, Grades.Percentage(score.value, maxScore.value));
      }
      var success := calculator.AddGrade(category, score.value, maxScore.value);
      if success.Raise? {
        return Raise(success.exception);
      }
      if success.value {
        var selection := SelectCourse(courseDropdown);
        return Return(GradeAdded(selection.value));
      }
      return Return(NotAdded(category));
    }
  }
}
