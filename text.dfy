/**
 * Python string operations used by the modelled code: `str.strip`,
 * `str.startswith`, `str.split` (both with no argument and on a code fence),
 * `str.rsplit`, `str.join`, `str.upper` and `os.path.basename`.
 */
module Text {

  /** The characters `str.isspace` accepts, which `strip()` and `split()` treat as whitespace. */
  predicate IsSpace(c: char) {
    c == ' ' || ('\t' <= c <= '\r') || ('\U{1c}' <= c <= '\U{1f}') || c == '\U{85}' || c == '\U{a0}'
    || c == '\U{1680}' || ('\U{2000}' <= c <= '\U{200a}') || c == '\U{2028}' || c == '\U{2029}'
    || c == '\U{202f}' || c == '\U{205f}' || c == '\U{3000}'
  }

  predicate StartsWith(s: string, prefix: string) {
    |prefix| <= |s| && s[..|prefix|] == prefix
  }

  /** `s.lstrip()` */
  function TrimStart(s: string): (r: string)
    ensures r == [] || !IsSpace(r[0])
    ensures |r| <= |s| && r == s[|s| - |r|..]
    ensures forall i :: 0 <= i < |s| - |r| ==> IsSpace(s[i])
  {
    if s == [] || !IsSpace(s[0]) then s else TrimStart(s[1..])
  }

  /** `s.rstrip()` */
  function TrimEnd(s: string): (r: string)
    ensures r == [] || !IsSpace(r[|r| - 1])
    ensures |r| <= |s| && r == s[..|r|]
    ensures forall i :: |r| <= i < |s| ==> IsSpace(s[i])
  {
    if s == [] || !IsSpace(s[|s| - 1]) then s else TrimEnd(s[..|s| - 1])
  }

  /** `s.strip()` */
  function Strip(s: string): string {
    TrimStart(TrimEnd(s))
  }

  /** A stripped string neither starts nor ends with whitespace, so stripping it again changes nothing. */
  lemma StripIdempotent(s: string)
    ensures var t := Strip(s); (t == [] || (!IsSpace(t[0]) && !IsSpace(t[|t| - 1])))
    ensures Strip(Strip(s)) == Strip(s)
  {
    var e := TrimEnd(s);
    var t := TrimStart(e);
    if t != [] {
      assert t[|t| - 1] == e[|e| - 1];
    }
    TrimEndOfTrimmed(t);
  }

  lemma TrimEndOfTrimmed(t: string)
    requires t == [] || !IsSpace(t[|t| - 1])
    ensures TrimEnd(t) == t
  {
  }

  /** A code fence ("```") starts at position `i` of `s`. */
  predicate FenceAt(s: string, i: int) {
    0 <= i && i + 3 <= |s| && s[i] == '`' && s[i + 1] == '`' && s[i + 2] == '`'
  }

  /** True when `s` contains a code fence. */
  predicate HasFence(s: string) {
    exists i :: 0 <= i < |s| && FenceAt(s, i)
  }

  /** A piece of a string without a fence has no fence either. */
  lemma NoFenceInSlice(s: string, a: nat, b: nat)
    requires a <= b <= |s| && !HasFence(s)
    ensures !HasFence(s[a..b])
  {
    forall i | FenceAt(s[a..b], i) ensures FenceAt(s, a + i) {
      assert s[a..b][i] == s[a + i] && s[a..b][i + 1] == s[a + i + 1] && s[a..b][i + 2] == s[a + i + 2];
    }
  }

  /**
   * `t.split("```")[0]`: the text before the first fence of `t`, or all of
   * `t` when it has none.
   */
  function BeforeFence(t: string): (r: string)
    ensures StartsWith(t, r)
    ensures forall i :: 0 <= i < |r| ==> !FenceAt(t, i)
    ensures r == t || FenceAt(t, |r|)
  {
    if |t| < 3 then t
    else if FenceAt(t, 0) then []
    else
      var r' := BeforeFence(t[1..]);
      forall i | 1 <= i < |r'| + 1 ensures !FenceAt(t, i) {
        assert !FenceAt(t[1..], i - 1);
      }
      assert FenceAt(t[1..], |r'|) ==> FenceAt(t, |r'| + 1);
      [t[0]] + r'
  }

  lemma BeforeFenceHasNone(t: string)
    ensures !HasFence(BeforeFence(t))
  {
    var r := BeforeFence(t);
    forall i | FenceAt(r, i) ensures FenceAt(t, i) {
      assert r[i] == t[i] && r[i + 1] == t[i + 1] && r[i + 2] == t[i + 2];
    }
  }

  /** `s.split("```")[1]` for a string that starts with a fence: the text up to the next fence. */
  function SecondFencePiece(s: string): (r: string)
    requires FenceAt(s, 0)
    ensures !HasFence(r)
  {
    BeforeFenceHasNone(s[3..]);
    BeforeFence(s[3..])
  }

  /** `s.rsplit("```", 1)[0]`: the text before the last fence, or all of `s` when it has none. */
  function BeforeLastFence(s: string): (r: string)
    ensures StartsWith(s, r)
    ensures !HasFence(s) ==> r == s
    ensures HasFence(s) ==> FenceAt(s, |r|) && forall k :: |r| < k ==> !FenceAt(s, k)
  {
    if |s| < 3 then s
    else if FenceAt(s, |s| - 3) then s[..|s| - 3]
    else
      var p := s[..|s| - 1];
      FencesOfInit(s);
      if HasFence(p) then
        var r := BeforeLastFence(p);
        assert s[..|r|] == p[..|r|];
        assert FenceAt(s, |r|);
        r
      else s
  }

  /** Away from the last character, `s` and `s` without its last character have the same fences. */
  lemma FencesOfInit(s: string)
    requires |s| >= 3 && !FenceAt(s, |s| - 3)
    ensures forall k :: FenceAt(s[..|s| - 1], k) <==> FenceAt(s, k)
  {
    var p := s[..|s| - 1];
    forall k | 0 <= k && k + 3 <= |p| ensures FenceAt(p, k) <==> FenceAt(s, k) {
      assert p[k] == s[k] && p[k + 1] == s[k + 1] && p[k + 2] == s[k + 2];
    }
  }

  /** `s.startswith("json")`: the tag a model puts after an opening fence. */
  predicate JsonTag(s: string) {
    |s| >= 4 && s[0] == 'j' && s[1] == 's' && s[2] == 'o' && s[3] == 'n'
  }

  /** `sep.join(parts)` */
  function Join(parts: seq<string>, sep: string): string {
    if parts == [] then ""
    else if |parts| == 1 then parts[0]
    else parts[0] + sep + Join(parts[1..], sep)
  }

  /** A word as `str.split()` produces it: non-empty and without whitespace. */
  predicate IsWord(w: string) {
    w != [] && forall i :: 0 <= i < |w| ==> !IsSpace(w[i])
  }

  /** The longest prefix of `s` without whitespace. */
  function LeadingWord(s: string): (w: string)
    ensures |w| <= |s| && w == s[..|w|]
    ensures forall i :: 0 <= i < |w| ==> !IsSpace(w[i])
    ensures |w| == |s| || IsSpace(s[|w|])
  {
    if s == [] || IsSpace(s[0]) then [] else [s[0]] + LeadingWord(s[1..])
  }

  /** Every element of `ws` is a word. */
  predicate AllWords(ws: seq<string>) {
    forall i :: 0 <= i < |ws| ==> IsWord(ws[i])
  }

  /** `s.split()`: the maximal runs of non-whitespace characters, in order. */
  function Split(s: string): seq<string>
    decreases |s|
  {
    var t := TrimStart(s);
    if t == [] then []
    else
      var w := LeadingWord(t);
      assert w != [] by { assert !IsSpace(t[0]); }
      [w] + Split(t[|w|..])
  }

  /** Every word `split()` produces is non-empty and free of whitespace. */
  lemma {:induction false} SplitGivesWords(s: string)
    ensures AllWords(Split(s))
    decreases |s|
  {
    var t := TrimStart(s);
    if t != [] {
      var w := LeadingWord(t);
      assert !IsSpace(t[0]);
      SplitGivesWords(t[|w|..]);
      var rest := Split(t[|w|..]);
      assert Split(s) == [w] + rest;
      forall i | 0 <= i < |Split(s)| ensures IsWord(Split(s)[i]) {
        if i > 0 { assert Split(s)[i] == rest[i - 1]; }
      }
    }
  }

  /** `c.upper()` for ASCII letters; every other character is left alone. */
  function UpperChar(c: char): char {
    if 'a' <= c <= 'z' then (c as int - 'a' as int + 'A' as int) as char else c
  }

  /** `s.upper()`, character by character. */
  function Upper(s: string): (r: string)
    ensures |r| == |s|
    ensures forall i :: 0 <= i < |s| ==> r[i] == UpperChar(s[i])
  {
    if s == [] then [] else [UpperChar(s[0])] + Upper(s[1..])
  }

  /** Upper-casing an upper-cased name changes nothing. */
  lemma UpperIdempotent(s: string)
    ensures Upper(Upper(s)) == Upper(s)
  {
    var u := Upper(s);
    assert forall i :: 0 <= i < |u| ==> UpperChar(u[i]) == u[i];
  }

  /** `os.path.basename(p)`: the part after the last '/'. */
  function Basename(p: string): (r: string)
    ensures '/' !in r
    ensures |r| <= |p| && r == p[|p| - |r|..]
    ensures r == p || p[|p| - |r| - 1] == '/'
  {
    if p == [] then []
    else if p[|p| - 1] == '/' then []
    else
      var r' := Basename(p[..|p| - 1]);
      assert p[..|p| - 1][|p| - 1 - |r'|..] == p[|p| - 1 - |r'|..|p| - 1];
      r' + [p[|p| - 1]]
  }
}
