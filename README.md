# Course advisor: a Dafny model of its course, grade and chat core

The course advisor is a web app. A student uploads a course syllabus as a PDF.
The app splits the syllabus text into overlapping word windows. It indexes those
windows for retrieval, tagged with the course name. It asks a language model for
the course's grading structure (category weights and assignment counts) and
keeps a grade calculator per course. A chatbot answers questions. It first
rewrites each question with a language model, then retrieves at most a few
syllabus chunks per course and asks for the answer, keeping a short history.

This project models that core in Dafny, one module per source file:

| module | file | models |
|---|---|---|
| `Grades` | `grade_calculator.dfy` | `GradeCalculator`: the weighted current grade, the summary, and the add/update/remove operations, as a class |
| `Rag` | `rag_system.dfy` | `RAGSystem` with the course filter: the chunk store, the index flag, and the per-course selection loop of `retrieve` |
| `RagNoFilter` | `rag_system_no_filter.dfy` | the older `RAGSystem`, which has no course filter |
| `Chat` | `integrated_chat.dfy` | `RAGChat`: the six-entry history window, the cleaning of the rewriter's reply, the fallback directive, and the order of one chat turn |
| `Extraction` | `pdf_to_text_chunks.dfy` | `chunk_text` and `process_syllabus` |
| `SyllabusParser` | `syllabus_parser.dfy` | the fence stripping and the default assignment counts after the grading reply is decoded |
| `App` | `app.dfy` | the globals of `app.py` as a class `AppState`, and the rules of `add_course`, `chat_with_bot`, `select_course` and `add_grade_to_course` |

Two helper modules model Python built-ins:
- `Py` (`py.dfy`) holds exceptions as an `Outcome` value, list indexing with
  negative indices, slicing, `list.remove`, and an insertion-ordered dict.
- `Text` (`text.dfy`) holds `str.strip`, `str.split` on whitespace, `join`,
  ASCII `upper`, the triple-backtick fence searches, and `os.path.basename`.

An exception the code does not catch becomes `Raise(e)` in an `Outcome`. It is
never a precondition.

Every language-model call, the embedding and FAISS search, the PDF reader,
`json.loads`, `float` on a text box and `str(e)` are function parameters. Each
contract is stated for every value of those parameters.

Python floats are Dafny `real`s.

## Model

| member | source | states |
|---|---|---|
| `Grades.GradeCalculator.constructor` | src/utils/grade_calculator.py:2-12 | keeps the name, breakdown and counts, and gives every breakdown category an empty score list (and no other key) |
| `Grades.GradeCalculator.AddGrade` | src/utils/grade_calculator.py:15-23 | an unknown category returns False and changes nothing; a max score of 0 raises ZeroDivisionError; otherwise it appends `score / max * 100` to that category only and returns True |
| `Grades.PercentageOutOfHundred` | src/utils/grade_calculator.py:15-23 | with the default max score of 100 the stored percentage is the score itself |
| `Grades.GradeCalculator.AddCategory` | src/utils/grade_calculator.py:25-34 | as written: True exactly for a new category; it appends the weight in order, sets the count, leaves the score lists alone, and so breaks the "every category has a score list" invariant |
| `Grades.AddedCategoryBreaksSummary` | src/utils/grade_calculator.py:25-34 | after `add_category`, the new category's grade, the current total and the summary all raise KeyError |
| `Grades.GradeCalculator.AddCategoryFixed` | src/utils/grade_calculator.py:25-34 | the intended `add_category`: the same reply and the same breakdown and counts, plus an empty score list, so the invariant is kept |
| `Grades.GradeCalculator.GetCategoryGrade` | src/utils/grade_calculator.py:36-41 | KeyError exactly for a category without a score list; None exactly for an empty list |
| `Grades.Mean` | src/utils/grade_calculator.py:36-41 | no average exactly when there are no scores |
| `Grades.MeanWithin` | src/utils/grade_calculator.py:36-41 | a category average lies between any bounds of its scores |
| `Grades.GradeCalculator.GetCurrentTotalGrade` | src/utils/grade_calculator.py:43-58 | the loop computes the weighted mean over the graded categories (`TotalGrade`) |
| `Grades.MissingListRaises` | src/utils/grade_calculator.py:43-58 | a breakdown category without a score list makes the total raise KeyError |
| `Grades.NothingGradedIsZero` | src/utils/grade_calculator.py:43-58 | with no graded category the total is 0 |
| `Grades.UngradedIgnored` | src/utils/grade_calculator.py:43-58 | categories without scores take no part: the total and the weight used equal those over the graded categories only |
| `Grades.GradeWithinAverages` | src/utils/grade_calculator.py:43-58 | when some weight is used, the current grade lies between any bounds of the graded categories' averages |
| `Grades.HomeworkOnlyScenario` | src/utils/grade_calculator.py:43-58 | homework scores 80 and 100 at weight 0.5 with an ungraded midterm at 0.5 give 90, not 45 |
| `Grades.GradeCalculator.GetSummary` | src/utils/grade_calculator.py:60-82 | the summary is `SummaryOf` the calculator's state |
| `Grades.SummaryReports` | src/utils/grade_calculator.py:60-82 | for each category, in breakdown order: weight × 100, completed = number of scores, total = the count (1 when absent), check ⇔ total = completed, remaining = total − completed; the current grade is the total |
| `Grades.SummaryRaisesIffListMissing` | src/utils/grade_calculator.py:60-82 | the summary raises exactly when some breakdown category has no score list |
| `Grades.Lookup` | src/app.py:185-186 | finds the summary entry of a category, or reports that no entry has that name |
| `Grades.GradeCalculator.UpdateCategoryName` | src/utils/grade_calculator.py:84-97 | False for an unknown old name or a taken new name; otherwise it moves the weight to the end under the new name, then the count, then the scores, and a missing count or score list raises KeyError after the earlier moves |
| `Grades.GradeCalculator.UpdateCategoryCount` | src/utils/grade_calculator.py:100-107 | True exactly for a category that has a count, which is then replaced; nothing else changes |
| `Grades.GradeCalculator.UpdateCategoryGrade` | src/utils/grade_calculator.py:110-122 | True exactly when the old score is in the list; then the first occurrence is replaced |
| `Grades.GradeCalculator.RemoveCategory` | src/utils/grade_calculator.py:124-133 | False for an unknown category; otherwise it removes the weight, then the count, then the scores, raising KeyError at the first one missing |
| `Grades.GradeCalculator.RemoveGrade` | src/utils/grade_calculator.py:135-145 | True exactly when the score is in the list; then the first occurrence is removed and the list is one shorter |
| `Rag.RAGSystem.constructor` | src/rag/rag_system.py:8-14 | an empty store with no index |
| `Rag.RAGSystem.AddCourse` | src/rag/rag_system.py:16-22 | appends the chunks, and one course tag per chunk, keeping the index flag |
| `Rag.RAGSystem.IndexChunks` | src/rag/rag_system.py:24-33 | the store is indexed and its chunks are unchanged |
| `Rag.RAGSystem.Retrieve` | src/rag/rag_system.py:35-79 | no index gives [] and no search; otherwise one search for `k × 3 × courses` rows, with `k` scaled by the filter's size, and the selection over every row it returns, padding rows included |
| `Rag.RAGSystem.RetrieveFixed` | src/rag/rag_system.py:35-79 | the corrected `retrieve`: the same search, and the selection over the real rows only |
| `Rag.RetrieveFixedOf` | src/rag/rag_system.py:47-54 | the corrected retrieval gives [] without an index, and its hits are an order-preserving subsequence of the real rows' entries |
| `Rag.SelectLoop` | src/rag/rag_system.py:49-77 | the loop computes the selection `SelectFrom` |
| `Rag.SelectFrom` | src/rag/rag_system.py:51-77 | the selection loop raises only IndexError, returns at most max(k, 1) results (one even when k ≤ 0, since a hit is taken before the `len(results) >= k` test), and under a filter only filtered courses |
| `Rag.SelectionIsSubsequence` | src/rag/rag_system.py:51-77 | the results are an order-preserving subsequence of the entries the search rows point to |
| `Rag.CapRespected` | src/rag/rag_system.py:51-77 | no course gets more than three results |
| `Rag.ShortResultSawEverything` | src/rag/rag_system.py:51-77 | a result shorter than `k` accounts for every row: its course was filtered out, had reached three, or its entry was kept |
| `Rag.AccountedUpToStop` | src/rag/rag_system.py:51-77 | every row the loop read before it stopped is accounted for in the same way, so a full result holds the first eligible entries in ranking order |
| `Rag.LastPickAtStop` | src/rag/rag_system.py:51-77 | a result that reaches `k` ends with the entry of the last row read: the loop stops at the `k`-th pick |
| `Rag.RetrieveBounded` | src/rag/rag_system.py:35-79 | with `k ≥ 1`: at most the scaled `k` results, at most three per course, only filtered courses, and only entries the rows name, in search order |
| `Rag.RetrieveFixedBounded` | src/rag/rag_system.py:35-79 | the corrected retrieval keeps the same bounds, and its entries come from real rows only |
| `Rag.PaddingRepeatsLastChunk` | src/rag/rag_system.py:47-54 | as written: a one-chunk index asked for six rows returns that chunk twice, once through FAISS's padding label −1 |
| `Rag.RealRows` | src/rag/rag_system.py:47-54 | keeps, in order, exactly the rows with a label ≥ 0 |
| `Rag.FullIndexAsWritten` | src/rag/rag_system.py:47-54 | when the index holds at least as many vectors as rows asked for, FAISS adds no padding and the corrected retrieval selects exactly what the code as written selects |
| `Rag.SkippingPaddingKeepsRealHit` | src/rag/rag_system.py:47-54 | on the same rows the corrected retrieval returns the one real hit |
| `RagNoFilter.RAGSystem.constructor` | not_used/rag_system_no_filter.py:8-14 | an empty store with no index |
| `RagNoFilter.RAGSystem.AddCourse` | not_used/rag_system_no_filter.py:16-22 | appends the chunks and one tag per chunk |
| `RagNoFilter.RAGSystem.IndexChunks` | not_used/rag_system_no_filter.py:24-33 | the store is indexed and unchanged |
| `RagNoFilter.RAGSystem.Retrieve` | not_used/rag_system_no_filter.py:35-71 | no index gives [] and no search; otherwise one search for `k × 2 × courses` rows and the selection over every row it returns, padding rows included |
| `RagNoFilter.SelectLoop` | not_used/rag_system_no_filter.py:44-69 | the loop computes the selection `RagNoFilter.SelectFrom` |
| `RagNoFilter.RAGSystem.RetrieveFixed` | not_used/rag_system_no_filter.py:35-71 | the corrected `retrieve`: the same search, and the selection over the real rows only |
| `RagNoFilter.RetrieveFixedOf` | not_used/rag_system_no_filter.py:42-59 | the corrected retrieval gives [] without an index, and its hits are an order-preserving subsequence of the real rows' entries |
| `RagNoFilter.SelectFrom` | not_used/rag_system_no_filter.py:35-71 | raises only IndexError and returns at most max(k, 1) results (one even when k ≤ 0, since a hit is taken before the `len(results) >= k` test) |
| `RagNoFilter.SameAsUnfiltered` | not_used/rag_system_no_filter.py:35-71 | the old loop selects exactly what the filtered loop selects with no filter |
| `RagNoFilter.RetrieveBounded` | not_used/rag_system_no_filter.py:35-71 | with `k ≥ 1`: at most `k` results, at most three per course, only entries the rows name, in search order |
| `RagNoFilter.RetrieveFixedBounded` | not_used/rag_system_no_filter.py:35-71 | the corrected retrieval keeps the same bounds, and its entries come from real rows only |
| `RagNoFilter.PaddingRepeatsLastChunk` | not_used/rag_system_no_filter.py:42-59 | as written: a one-chunk index searched with the default `k = 4` gets eight rows and returns that chunk three times, twice through the padding label −1 |
| `RagNoFilter.SkippingPaddingKeepsRealHit` | not_used/rag_system_no_filter.py:42-59 | on the same rows the corrected retrieval returns the one real hit |
| `RagNoFilter.FullIndexAsWritten` | not_used/rag_system_no_filter.py:42-59 | with no padding in the rows, the corrected retrieval selects exactly what the code as written selects |
| `Chat.RAGChat.constructor` | src/integrated_chat.py:12-17 | keeps the store, calculators and course list, with an empty history |
| `Chat.Truncate` | src/integrated_chat.py:104-106 | the window holds the last `min(n, 6)` entries of the history |
| `Chat.TruncateShort` | src/integrated_chat.py:104-106 | a history of at most six entries is kept whole |
| `Chat.CleanReply` | src/integrated_chat.py:121-128 | a reply not starting with a fence is only stripped; otherwise the text between the first two fences, with "json" dropped, up to its last fence, contains no fence; the result is always stripped |
| `Chat.DirectiveOf` | src/integrated_chat.py:130-141 | a decoded reply is used as it is; a decode failure gives the user's message, no course filter, no skip, and an empty summary |
| `Chat.RAGChat.RewriteQuery` | src/integrated_chat.py:19-141 | the history is cut to its window before the rewriter sees it; a failed rewriter call raises its exception; otherwise the directive is `DirectiveOf` the decoded, cleaned reply |
| `Chat.SummariesUpTo` | src/integrated_chat.py:147-149 | one summary per course, and each course has a calculator, whenever no exception was raised |
| `Chat.SummaryPerCourse` | src/integrated_chat.py:147-149 | summary `j` is course `j`'s `get_summary` |
| `Chat.RaiseStays` | src/integrated_chat.py:147-149 | the first failure is the outcome of the whole collection |
| `Chat.RAGChat.CollectSummaries` | src/integrated_chat.py:147-149 | the loop returns `SummariesUpTo` all courses |
| `Chat.ChunksOf` | src/integrated_chat.py:162 | the chunk texts of the results, in order |
| `Chat.ContextOf` | src/integrated_chat.py:160-162 | "" when retrieval is skipped; otherwise the chunks joined, or the retrieval's exception |
| `Chat.TurnOf` | src/integrated_chat.py:145-220 | a summary failure leaves the history alone and makes no retrieval; a failed rewriter call leaves the truncated history and makes no retrieval; retrieval happens exactly when not skipped; a failed retrieval or answering call leaves the truncated history; the two new entries (user, then answer) come only after a successful answer |
| `Chat.RAGChat.Respond` | src/integrated_chat.py:160-220 | after the rewrite: retrieval exactly when not skipped; a failed retrieval or answering call leaves the history as it was; otherwise the user entry and then the answer are appended |
| `Chat.RAGChat.Chat` | src/integrated_chat.py:145-220 | a turn's result, history and retrieval call are `TurnOf` the state before it, the rewriter's outcome and the as-written retrieval |
| `Extraction.ChunkTextOf` | src/extraction/pdf_to_text_chunks.py:17-27 | `range` with step 0 raises ValueError; a negative step gives no chunks |
| `Extraction.ChunkText` | src/extraction/pdf_to_text_chunks.py:17-27 | the loop computes `ChunkTextOf` |
| `Extraction.ChunkCount` | src/extraction/pdf_to_text_chunks.py:22-25 | for split words the `if chunk` guard drops nothing: the chunk count is the least number of steps that reaches the end |
| `Extraction.ChunkIsWindow` | src/extraction/pdf_to_text_chunks.py:22-23 | chunk `j` is the words from `j × step` joined by spaces |
| `Extraction.WindowAtMost` | src/extraction/pdf_to_text_chunks.py:23 | a window holds at most `chunk_size` words |
| `Extraction.WindowsOverlap` | src/extraction/pdf_to_text_chunks.py:22-23 | a full window's last `overlap` words open the next window |
| `Extraction.EveryWordCovered` | src/extraction/pdf_to_text_chunks.py:17-27 | every word lies in some chunk's window |
| `Extraction.ProcessSyllabus` | src/extraction/pdf_to_text_chunks.py:29-44 | None exactly when no text was read; otherwise the text, its chunks with sizes 600/50, and the file's base name |
| `Text.SplitGivesWords` | src/extraction/pdf_to_text_chunks.py:19 | `split()` yields non-empty words without whitespace |
| `Text.Basename` | src/extraction/pdf_to_text_chunks.py:43 | the part of the path after its last '/' |
| `SyllabusParser.DropJsonTag` | src/utils/syllabus_parser.py:68-69 | dropping the "json" tag creates no fence |
| `SyllabusParser.CleanReply` | src/utils/syllabus_parser.py:63-69 | an unfenced reply is only stripped; a fenced one is the text between the first two fences, with the tag dropped, and contains no fence |
| `SyllabusParser.FilledCounts` | src/utils/syllabus_parser.py:74-77 | every breakdown category gets a count; given counts are kept; the added ones are 1 |
| `SyllabusParser.FillMissingCounts` | src/utils/syllabus_parser.py:74-79 | the loop computes `FilledCounts`; a non-empty breakdown with no counts key raises KeyError |
| `SyllabusParser.ParseGradingStructure` | src/utils/syllabus_parser.py:57-84 | a failed model call raises its exception; a decode failure gives None; it raises KeyError exactly for a non-empty breakdown without counts; otherwise the breakdown is kept and the counts are filled |
| `App.TagsOfNormalised` | src/app.py:36 | a stripped, upper-cased name is unchanged by tagging |
| `App.AddReplyOf` | src/app.py:26-72 | no file, a blank name and a known name are each reported exactly in their case; a new upload's reply is `UploadReply` of its stripped upper-cased name and what `process_syllabus` made of the PDF; an added name is that name, is new, and its PDF was read, graded and decoded with both keys; a failed grading call is reported as its exception, and any other error is KeyError |
| `App.UploadReply` | src/app.py:41-72 | no text gives "Failed to process PDF"; a raising grading call gives its exception; a reply that does not decode gives "Failed to parse grading structure"; a decoded structure lacking a key gives KeyError; one with both keys adds the course; conversely an added course had text, a returned call and both keys |
| `App.PrepareCourse` | src/app.py:30-56 | the reply is `AddReplyOf` (a failed grading call included); an added course's chunks, breakdown and default-filled counts are the parsed ones |
| `App.PrepareUpload` | src/app.py:41-56 | the reply is `UploadReply`; an added course's chunks, breakdown and default-filled counts are the parsed ones |
| `App.AppState.constructor` | src/app.py:18-24 | a fresh empty store, no calculators, no names, no chatbot |
| `App.AppState.Register` | src/app.py:57-67 | the calculator, the tagged chunks, the name appended once, the index rebuilt, and a fresh chatbot over the new store and names; the invariant is kept |
| `App.AppState.AddCourse` | src/app.py:26-72 | the reply is `AddReplyOf`; a rejected or failed upload, a failed grading call included, changes nothing; a success registers the course, keeps earlier courses and keeps the invariant |
| `App.Reply` | src/app.py:75-103 | the history is only extended, by the message as typed and an assistant entry; it is returned unchanged exactly when a chatbot exists and the message is blank |
| `App.AppState.ChatWithBot` | src/app.py:75-103 | the chatbot is asked exactly when it exists and the message is not blank, with the stripped message; its turn is the one `Chat.TurnOf` specifies, a failed language-model call included, and the shown reply is "Error: " and the exception for a failed turn |
| `App.LongestScores` | src/app.py:121-124 | the length of the longest score list, attained by some category |
| `App.MaxScores` | src/app.py:121-124 | the loop computes `LongestScores` |
| `App.RowOf` | src/app.py:127-153 | the category, weight and count cells, then the scores padded with blanks to the width, then the average or "--" |
| `App.BuildRow` | src/app.py:127-153 | the loop computes `RowOf` |
| `App.TableRows` | src/app.py:127-153 | one row per summary category, in order |
| `App.HeadersOf` | src/app.py:156-159 | "Category", "Weight", "Count", "Score 1".."Score n", "Grade": as many as the row cells |
| `App.BuildHeaders` | src/app.py:156-159 | builds `HeadersOf` |
| `App.TableOf` | src/app.py:121-162 | the headers are `HeadersOf` a width that is exactly the length of the longest score list; one row per category, each as wide as the headers |
| `App.SelectionOf` | src/app.py:113-162 | raises exactly when the summary does; otherwise the categories in breakdown order, the grade shown only when positive, the headers `HeadersOf` as many score columns as the longest score list has scores, and one row per category, as wide as the headers |
| `App.AppState.SelectCourse` | src/app.py:106-168 | an unknown course shows nothing and changes nothing; a known one becomes current and shows `SelectionOf` its calculator |
| `App.GateOf` | src/app.py:185-202 | the summary's exception, then KeyError for an unlisted category, then "full", then invalid numbers (a blank max score is 100), in that order; when none of these applies it goes on with the parsed score and max score |
| `App.AppState.AddGradeToCourse` | src/app.py:171-202 | no course or no category gives a notice; a stop at the gate changes no score; a max of 0 raises ZeroDivisionError; in all of these the current course is unchanged; otherwise one percentage is appended and the rebuilt table is returned; "Failed to add grade" never happens |

## Left out

- Embeddings and the FAISS index: the search is a function parameter from the question and the row count to the rows found. `IndexChunks` only sets the index flag.
- The language-model calls and their prompts: the rewriter call, the grading call and the answering call are function parameters that give the reply or raise an exception (`ApiError` stands for the client's errors). The prompt text, model names and token limits are not modelled.
- Text.Upper: maps only the ASCII letters a-z, where Python's `str.upper` also maps non-ASCII letters (and can lengthen a string, as for "ß"); course names with such letters are tagged differently from the code.
- `json.loads` is a decode parameter that gives only the keys the code reads. A decoded rewriter reply with a missing key (KeyError on `memory[...]`) or a value of the wrong type is not modelled. Neither is a grading reply with a value of the wrong type: `"grading_breakdown": null` raises AttributeError at src/utils/syllabus_parser.py:75, and `"assignment_counts": null` with a non-empty breakdown raises TypeError at src/utils/syllabus_parser.py:76; the app shows both as "Error adding course: …".
- App.AddReplyOf: a grading reply that decodes to an empty JSON object is reported as "Failed to parse grading structure" by the code but as `AddError(KeyError)` here, because the decode parameter does not tell an empty object from one lacking the two keys.
- App.AppState.AddCourse: two failures inside the `try` of src/app.py:41-72 are not modelled, and the model neither returns nor reaches the state they leave. (1) `index_chunks` raising. When the store holds no chunk at all (a first course whose PDF text is only whitespace, so `chunk_text` gives no chunk), `embeddings.shape[1]` (src/rag/rag_system.py:29) raises. The calculator and the name were already registered (src/app.py:57-61), but the chatbot is not rebuilt (src/app.py:67), so it stays None. The reply is "Error adding course: …", a retry says the course already exists, and chat keeps asking for a course. The model's `IndexChunks` cannot fail, and `Valid()` requires a chatbot exactly when a name is registered. (2) A grading reply that decodes to JSON that is not an object (null, a list). `.get` then raises AttributeError (src/utils/syllabus_parser.py:75), which the app reports as "Error adding course". The decode parameter gives only an object's two keys, so it cannot express this.
- Reading the PDF (`extract_text_from_pdf`) is a parameter giving the text or None.
- The Gradio interface, `gr.update` and the handlers inside the UI block are not modelled.
- The text and number formatting of messages and table cells (`:.1f`, `:.2f`) is not modelled: a reply or cell is a constructor holding the value.
- Python floats are modelled as exact reals.
- `str.split` is modelled as a word list. That `' '.join` of the words puts the text back together is not stated.
- `str(e)` is the `describe` parameter.
- `print` calls and the `__main__` blocks are left out.
- Aliasing: the chatbot shares `course_names` and the calculators dict with the app by reference. The model gives it copies of the values. Nothing changes them between two `add_course` calls, and every successful one builds a new chatbot, so the two agree, except after the failed indexing described in the `App.AppState.AddCourse` line.
- `float(None)` cannot happen: Gradio text boxes always give strings.
- Returned dicts and lists are immutable values in the model, so no caller can change a calculator through a summary.

## Findings

| source | as written | input that shows it | evidently intended | confidence | as-written member | corrected member |
|---|---|---|---|---|---|---|
| src/utils/grade_calculator.py:25-34 | `add_category` adds a weight and a count but no score list | add a category to a calculator whose categories all have score lists, then call `get_summary` | the new category starts with an empty score list, as in `__init__` | high, not executed | `Grades.GradeCalculator.AddCategory`, `Grades.AddedCategoryBreaksSummary` | `Grades.GradeCalculator.AddCategoryFixed` |
| src/rag/rag_system.py:47-54 | the rows FAISS pads with label −1 (when more rows are asked for than are indexed) are read as `chunk_metadata[-1]`, the last chunk | one indexed chunk, `num_courses = 1`, `k = 2`: six rows are asked for, and the one chunk comes back twice | padding rows are skipped | high, not executed | `Rag.RAGSystem.Retrieve`, `Rag.PaddingRepeatsLastChunk` | `Rag.RAGSystem.RetrieveFixed`, `Rag.SkippingPaddingKeepsRealHit`, `Rag.FullIndexAsWritten` |
| not_used/rag_system_no_filter.py:42-59 | the same padding rows are read as the last chunk | one indexed chunk, `num_courses = 1`, the default `k = 4`: eight rows are asked for, and the one chunk comes back three times | padding rows are skipped | high, not executed | `RagNoFilter.RAGSystem.Retrieve`, `RagNoFilter.PaddingRepeatsLastChunk` | `RagNoFilter.RAGSystem.RetrieveFixed`, `RagNoFilter.SkippingPaddingKeepsRealHit`, `RagNoFilter.FullIndexAsWritten` |

Both `Retrieve` methods, and the chat through `Rag.RetrieveOf`, keep the code as written: the padding rows reach the selection loop. The corrected behaviour, which drops them first, is `RetrieveFixed` and `RetrieveFixedOf` in each module.
