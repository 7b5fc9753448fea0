/**
 * The post-processing in `SyllabusParser.parse_grading_structure`: the fence
 * stripping of the model's reply and the default assignment counts added
 * after decoding. The model call is left out (its reply is a parameter), and
 * `json.loads` is the parameter `decode` (None for a decode failure).
 */
module SyllabusParser {
  import opened Py
  import Text

  /**
   * The parts of the decoded reply the code touches: `grading_breakdown` and
   * `assignment_counts`, each None when the key is absent.
   */
  datatype GradingInfo = GradingInfo(breakdown: Option<Dict<real>>, counts: Option<map<string, int>>)

  /** `text[4:]` when `text` starts with "json", else `text`; no fence appears. */
  function DropJsonTag(t: string): (r: string)
    ensures !Text.HasFence(t) ==> !Text.HasFence(r)
  {
    if Text.JsonTag(t) then
      assert !Text.HasFence(t) ==> !Text.HasFence(t[4..]) by {
        if !Text.HasFence(t) {
          Text.NoFenceInSlice(t, 4, |t|);
          assert t[4..|t|] == t[4..];
        }
      }
      t[4..]
    else t
  }

  /**
   * The text handed to `json.loads`: a stripped reply that does not start
   * with "```" as it is; otherwise the text between the first two fences with
   * a leading "json" dropped. Unlike the chat rewriter, nothing is trimmed
   * afterwards.
   */
  function CleanReply(reply: string): (r: string)
    ensures !Text.FenceAt(Text.Strip(reply), 0) ==> r == Text.Strip(reply)
    ensures Text.FenceAt(Text.Strip(reply), 0) ==>
      r == DropJsonTag(Text.SecondFencePiece(Text.Strip(reply))) && !Text.HasFence(r)
  {
    var t := Text.Strip(reply);
    if Text.FenceAt(t, 0) then DropJsonTag(Text.SecondFencePiece(t)) else t
  }

  /**
   * The counts after the loop: every breakdown category missing from the
   * counts gets 1, and nothing else changes.
   */
  function FilledCounts(keys: seq<string>, counts: map<string, int>): (r: map<string, int>)
    ensures forall c :: c in keys ==> c in r
    ensures forall c :: c in r <==> c in counts || c in keys
    ensures forall c :: c in counts ==> r[c] == counts[c]
    ensures forall c :: c in r && c !in counts ==> r[c] == 1
  {
    map c | c in counts.Keys + (set k | k in keys) :: if c in counts then counts[c] else 1
  }

  /**
   * Adding the defaults for the first `i` categories and then the `i`-th one
   * is adding them for the first `i + 1` categories.
   */
  lemma FilledStep(keys: seq<string>, counts: map<string, int>, i: nat)
    requires i < |keys|
    ensures var prev := FilledCounts(keys[..i], counts);
      FilledCounts(keys[..i + 1], counts) == if keys[i] in prev then prev else prev[keys[i] := 1]
  {
    var prev := FilledCounts(keys[..i], counts);
    var next := FilledCounts(keys[..i + 1], counts);
    assert keys[..i + 1] == keys[..i] + [keys[i]];
    var want := if keys[i] in prev then prev else prev[keys[i] := 1];
    assert forall c :: c in next <==> c in want;
    assert forall c :: c in next ==> next[c] == want[c];
  }

  /**
   * The loop over `grading_breakdown`: a missing category gets count 1. With
   * no `assignment_counts` key, the first category raises KeyError.
   */
  method FillMissingCounts(info: GradingInfo) returns (r: Outcome<GradingInfo>)
    ensures info.breakdown.None? || info.breakdown.value.keys == [] ==> r == Return(info)
    ensures info.breakdown.Some? && info.breakdown.value.keys != [] && info.counts.None? ==> r == Raise(KeyError)
    ensures info.breakdown.Some? && info.counts.Some? ==>
      r == Return(GradingInfo(info.breakdown, Some(FilledCounts(info.breakdown.value.keys, info.counts.value))))
  {
    if info.breakdown.None? {
      return Return(info);
    }
    var keys := info.breakdown.value.keys;
    if info.counts.None? {
      if keys == [] {
        return Return(info);
      }
      return Raise(KeyError);
    }
    var counts := info.counts.value;
    assert keys[..0] == [];
    assert FilledCounts(keys[..0], info.counts.value) == counts;
    for i := 0 to |keys|
      invariant counts == FilledCounts(keys[..i], info.counts.value)
    {
      FilledStep(keys, info.counts.value, i);
      if keys[i] !in counts {
        counts := counts[keys[i] := 1];
      }
    }
    assert keys[..|keys|] == keys;
    if keys == [] {
      assert counts == info.counts.value;
    }
    return Return(GradingInfo(info.breakdown, Some(counts)));
  }

  /**
   * `parse_grading_structure` from the model call on, given what the call
   * gave: the exception it raised, or its reply, which is cleaned, decoded
   * (None on a decode failure) and has its missing counts filled.
   */
  method ParseGradingStructure(reply: Outcome<string>, decode: string -> Option<GradingInfo>)
    returns (r: Outcome<Option<GradingInfo>>)
    ensures reply.Raise? ==> r == Raise(reply.exception)
    ensures reply.Return? && decode(CleanReply(reply.value)).None? ==> r == Return(None)
    ensures reply.Return? && decode(CleanReply(reply.value)).Some? ==>
      var info := decode(CleanReply(reply.value)).value;
      && (r.Raise? <==> info.breakdown.Some? && info.breakdown.value.keys != [] && info.counts.None?)
      && (r.Raise? ==> r.exception == KeyError)
      && (r.Return? ==> && r.value.Some?
                        && r.value.value.breakdown == info.breakdown
                        && r.value.value.counts
                           == if info.breakdown.Some? && info.counts.Some?
                              then Some(FilledCounts(info.breakdown.value.keys, info.counts.value))
                              else info.counts)
  {
    if reply.Raise? {
      return Raise(reply.exception);
    }
    var jsonText := CleanReply(reply.value);
    var parsed := decode(jsonText);
    if parsed.None? {
      return Return(None);
    }
    var filled := FillMissingCounts(parsed.value);
    if filled.Raise? {
      return Raise(filled.exception);
    }
    return Return(Some(filled.value));
  }
}
