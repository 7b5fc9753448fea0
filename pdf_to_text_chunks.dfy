/**
 * The sliding-window chunker `chunk_text` and the bookkeeping of
 * `process_syllabus`. Reading the PDF is not modelled: its outcome (the text,
 * or None when reading failed) is a parameter. `text.split()` is `Text.Split`;
 * the chunker itself works on the word list.
 */
module Extraction {
  import opened Py
  import Text

  /** `chunk_text`'s default window length, in words. */
  const ChunkSize: int := 600
  /** `chunk_text`'s default number of words shared by neighbouring windows. */
  const Overlap: int := 50

  /** `words[start:start + size]` */
  function Window(words: seq<string>, start: nat, size: int): seq<string> {
    Slice(words, start, start + size)
  }

  /** `' '.join(words[start:start + size])` */
  function ChunkAt(words: seq<string>, start: nat, size: int): string {
    Text.Join(Window(words, start, size), " ")
  }

  /**
   * The chunks the loop appends for the starts `i`, `i + step`, ... below
   * `|words|`, in order, leaving out a window that joins to "" (the `if chunk`
   * guard).
   */
  function Chunked(words: seq<string>, size: int, step: int, i: nat): seq<string>
    requires step > 0
    decreases |words| - i
  {
    if i >= |words| then []
    else
      var c := ChunkAt(words, i, size);
      (if c != "" then [c] else []) + Chunked(words, size, step, i + step)
  }

  /**
   * `chunk_text` on a word list: `range(0, len(words), step)` raises
   * ValueError for a step of 0 and is empty for a negative step.
   */
  function ChunkTextOf(words: seq<string>, size: int, overlap: int): (r: Outcome<seq<string>>)
    ensures r.Raise? <==> size == overlap
    ensures r.Raise? ==> r.exception == ValueError
    ensures size < overlap ==> r == Return([])
  {
    var step := size - overlap;
    if step == 0 then Raise(ValueError)
    else if step < 0 then Return([])
    else Return(Chunked(words, size, step, 0))
  }

  /** A join of words, the first of them non-empty, is non-empty. */
  lemma JoinNonEmpty(ws: seq<string>, sep: string)
    requires ws != [] && ws[0] != ""
    ensures Text.Join(ws, sep) != ""
  {
  }

  /** A window of `str.split()` words that starts inside the list joins to a non-empty chunk. */
  lemma ChunkNotEmpty(words: seq<string>, start: nat, size: int)
    requires Text.AllWords(words) && start < |words| && size >= 1
    ensures ChunkAt(words, start, size) != ""
  {
    var w := Window(words, start, size);
    assert w[0] == words[start];
    assert Text.IsWord(words[start]);
    JoinNonEmpty(w, " ");
  }

  /**
   * For words from `str.split()` (size at least 1), the guard drops nothing:
   * there is one chunk per start, `c` chunks for the starts from `i` where
   * `c` is the least number of steps that reaches `|words|`.
   */
  lemma {:induction false} ChunkCount(words: seq<string>, size: int, step: int, i: nat)
    requires step > 0 && size >= 1 && Text.AllWords(words)
    ensures var c := |Chunked(words, size, step, i)|;
      && (i >= |words| ==> c == 0)
      && (i < |words| ==> i + (c - 1) * step < |words| <= i + c * step)
    decreases |words| - i
  {
    if i < |words| {
      ChunkNotEmpty(words, i, size);
      ChunkCount(words, size, step, i + step);
      var c' := |Chunked(words, size, step, i + step)|;
      assert |Chunked(words, size, step, i)| == c' + 1;
      assert i + c' * step == i + (c' + 1 - 1) * step;
      assert i + step + c' * step == i + (c' + 1) * step;
      if i + step < |words| {
        assert i + step + (c' - 1) * step == i + c' * step;
      }
    }
  }

  /** The start `j` steps after `i`, counted one step at a time. */
  function StartAfter(i: nat, step: nat, j: nat): nat
    decreases j
  {
    if j == 0 then i else StartAfter(i + step, step, j - 1)
  }

  lemma {:induction false} StartAfterIsProduct(i: nat, step: nat, j: nat)
    ensures StartAfter(i, step, j) == i + j * step
    decreases j
  {
    if j > 0 {
      StartAfterIsProduct(i + step, step, j - 1);
      assert i + step + (j - 1) * step == i + j * step;
    }
  }

  /** Chunk `j` (counting from start `i`) is the window that starts `j` steps after `i`. */
  lemma {:induction false} ChunkIsWindowAfter(words: seq<string>, size: int, step: int, i: nat, j: nat)
    requires step > 0 && size >= 1 && Text.AllWords(words)
    requires j < |Chunked(words, size, step, i)|
    ensures StartAfter(i, step, j) < |words|
    ensures Chunked(words, size, step, i)[j] == ChunkAt(words, StartAfter(i, step, j), size)
    decreases j
  {
    ChunkNotEmpty(words, i, size);
    if j > 0 {
      ChunkIsWindowAfter(words, size, step, i + step, j - 1);
    }
  }

  /** Chunk `j` is the window that starts at `j * step`. */
  lemma ChunkIsWindow(words: seq<string>, size: int, step: int, j: nat)
    requires step > 0 && size >= 1 && Text.AllWords(words)
    requires j < |Chunked(words, size, step, 0)|
    ensures j * step < |words|
    ensures Chunked(words, size, step, 0)[j] == ChunkAt(words, j * step, size)
  {
    ChunkIsWindowAfter(words, size, step, 0, j);
    StartAfterIsProduct(0, step, j);
  }

  /** A window holds at most `size` words. */
  lemma WindowAtMost(words: seq<string>, start: nat, size: int)
    requires size >= 0
    ensures |Window(words, start, size)| <= size
  {
  }

  /**
   * When a window is full and another window follows, its last `overlap`
   * words are the first `overlap` words of the next one.
   */
  lemma WindowsOverlap(words: seq<string>, start: nat, size: int, overlap: int)
    requires 0 <= overlap < size && start + size <= |words|
    ensures var next := Window(words, start + (size - overlap), size);
      |next| >= overlap && Window(words, start, size)[size - overlap..] == next[..overlap]
  {
    var step := size - overlap;
    var next := Window(words, start + step, size);
    assert Window(words, start, size) == words[start..start + size];
    if start + step + size <= |words| {
      assert next == words[start + step..start + step + size];
    } else {
      assert next == words[start + step..];
    }
  }

  /**
   * Every word lies in some window: word `k` is in window `k / step`, whose
   * chunk exists because its start `(k / step) * step` is at most `k`.
   */
  lemma EveryWordCovered(words: seq<string>, size: int, step: int, k: nat)
    requires 0 < step <= size && Text.AllWords(words) && k < |words|
    ensures exists j :: 0 <= j < |Chunked(words, size, step, 0)| && j * step <= k < j * step + size
  {
    var j := k / step;
    DivBounds(k, step);
    var c := |Chunked(words, size, step, 0)|;
    ChunksReachEnd(words, size, step);
    if j >= c {
      MulMonotone(c, j, step);
      assert false;
    }
    assert 0 <= j < c && j * step <= k < j * step + size;
  }

  /** The chunks' starts, `c` steps of `step` from 0, reach the end of the list. */
  lemma ChunksReachEnd(words: seq<string>, size: int, step: int)
    requires 0 < step && size >= 1 && Text.AllWords(words)
    ensures |words| <= |Chunked(words, size, step, 0)| * step
  {
    ChunkCount(words, size, step, 0);
  }

  lemma DivBounds(k: nat, step: int)
    requires step > 0
    ensures (k / step) * step <= k < (k / step) * step + step
  {
    assert k == (k / step) * step + k % step;
  }

  lemma MulMonotone(a: int, b: int, step: int)
    requires a <= b && step > 0
    ensures a * step <= b * step
  {
    assert b * step == a * step + (b - a) * step;
  }

  /** `chunk_text(text, chunk_size, overlap)` on the words of `text`. */
  method ChunkText(words: seq<string>, chunkSize: int := ChunkSize, overlap: int := Overlap)
    returns (r: Outcome<seq<string>>)
    ensures r == ChunkTextOf(words, chunkSize, overlap)
  {
    var step := chunkSize - overlap;
    if step == 0 {
      return Raise(ValueError);
    }
    var chunks: seq<string> := [];
    if step < 0 {
      return Return(chunks);
    }
    assert ChunkTextOf(words, chunkSize, overlap) == Return(Chunked(words, chunkSize, step, 0));
    var i: nat := 0;
    while i < |words|
      invariant Chunked(words, chunkSize, step, 0) == chunks + Chunked(words, chunkSize, step, i)
      decreases |words| - i
    {
      var chunk := ChunkAt(words, i, chunkSize);
      ghost var rest := Chunked(words, chunkSize, step, i + step);
      if chunk != "" {
        assert Chunked(words, chunkSize, step, i) == [chunk] + rest;
        assert chunks + ([chunk] + rest) == (chunks + [chunk]) + rest;
        chunks := chunks + [chunk];
      } else {
        assert Chunked(words, chunkSize, step, i) == [] + rest;
        assert [] + rest == rest;
      }
      i := i + step;
    }
    assert Chunked(words, chunkSize, step, i) == [];
    assert chunks + [] == chunks;
    return Return(chunks);
  }

  /** What `process_syllabus` returns on success. */
  datatype Processed = Processed(text: string, chunks: seq<string>, filename: string)

  /**
   * `process_syllabus(pdf_path)` given what the PDF reader returned: None
   * when it failed or found no text; otherwise the text, its chunks with the
   * default sizes, and the file's base name.
   */
  function ProcessSyllabus(pdfPath: string, extracted: Option<string>): (r: Option<Processed>)
    ensures r.None? <==> extracted == None || extracted == Some("")
    ensures r.Some? ==> && r.value.text == extracted.value
                        && Return(r.value.chunks) == ChunkTextOf(Text.Split(extracted.value), ChunkSize, Overlap)
                        && r.value.filename == Text.Basename(pdfPath)
  {
    match extracted
    case None => None
    case Some(text) =>
      if text == "" then None
      else Some(Processed(text, ChunkTextOf(Text.Split(text), ChunkSize, Overlap).value, Text.Basename(pdfPath)))
  }
}
