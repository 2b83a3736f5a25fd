/**
 * The per-utterance part of a dataset: tokenization at construction, and at
 * sample time the utterance mask, the speaker codes and the zero padding of
 * token ids and attention masks.
 */
module UtteranceTensors {
  import opened Wrappers
  import opened Failures
  import opened DatasetConfig

  /** The tokenizer is called with truncation to this many entries. */
  const MaxTokens: nat := 52

  /** Token ids and attention mask of one utterance. */
  datatype Encoding = Encoding(ids: seq<int>, mask: seq<int>)

  /** A speaker as stored: a letter code such as "M", or an already numeric code. */
  datatype Speaker = Tag(name: string) | Code(value: int)

  function Truncate(s: seq<int>): (r: seq<int>)
    ensures |r| <= MaxTokens && |r| <= |s| && r == s[..|r|]
    ensures |s| <= MaxTokens ==> r == s
    ensures |r| == if |s| <= MaxTokens then |s| else MaxTokens
  {
    if |s| <= MaxTokens then s else s[..MaxTokens]
  }

  /** The tokenizer's output for `u`, truncated to at most `MaxTokens` entries. */
  function Encode(tokenizer: string -> Encoding, u: string): (e: Encoding)
    ensures |e.ids| <= MaxTokens && |e.mask| <= MaxTokens
    ensures |e.ids| <= |tokenizer(u).ids| && |e.mask| <= |tokenizer(u).mask|
    ensures e.ids == tokenizer(u).ids[..|e.ids|] && e.mask == tokenizer(u).mask[..|e.mask|]
  {
    Encoding(Truncate(tokenizer(u).ids), Truncate(tokenizer(u).mask))
  }

  function ConversationIds(tokenizer: string -> Encoding, conv: seq<string>): (ids: seq<seq<int>>)
    ensures |ids| == |conv|
    ensures forall j :: 0 <= j < |conv| ==> ids[j] == Encode(tokenizer, conv[j]).ids
  {
    seq(|conv|, j requires 0 <= j < |conv| => Encode(tokenizer, conv[j]).ids)
  }

  function ConversationMasks(tokenizer: string -> Encoding, conv: seq<string>): (masks: seq<seq<int>>)
    ensures |masks| == |conv|
    ensures forall j :: 0 <= j < |conv| ==> masks[j] == Encode(tokenizer, conv[j]).mask
  {
    seq(|conv|, j requires 0 <= j < |conv| => Encode(tokenizer, conv[j]).mask)
  }

  /**
   * The nested loops of the constructor: every utterance of every
   * conversation is tokenized once, in order, into the id lists and the
   * attention-mask lists.
   */
  method TokenizeCorpus(tokenizer: string -> Encoding, utt: seq<seq<string>>)
    returns (ids: seq<seq<seq<int>>>, masks: seq<seq<seq<int>>>)
    ensures |ids| == |utt| && |masks| == |utt|
    ensures forall k :: 0 <= k < |utt| ==> ids[k] == ConversationIds(tokenizer, utt[k])
    ensures forall k :: 0 <= k < |utt| ==> masks[k] == ConversationMasks(tokenizer, utt[k])
  {
    ids, masks := [], [];
    for k := 0 to |utt|
      invariant |ids| == k && |masks| == k
      invariant forall m :: 0 <= m < k ==> ids[m] == ConversationIds(tokenizer, utt[m])
      invariant forall m :: 0 <= m < k ==> masks[m] == ConversationMasks(tokenizer, utt[m])
    {
      var conv := utt[k];
      var inputIds: seq<seq<int>> := [];
      var attentionMask: seq<seq<int>> := [];
      for j := 0 to |conv|
        invariant inputIds == ConversationIds(tokenizer, conv[..j])
        invariant attentionMask == ConversationMasks(tokenizer, conv[..j])
      {
        var encoded := Encode(tokenizer, conv[j]);
        inputIds := inputIds + [encoded.ids];
        attentionMask := attentionMask + [encoded.mask];
        assert conv[..j + 1] == conv[..j] + [conv[j]];
      }
      assert conv[..|conv|] == conv;
      ids := ids + [inputIds];
      masks := masks + [attentionMask];
    }
  }

  /** The utterance mask: one 1 per label of the conversation. */
  function UtteranceMask(n: nat): (m: seq<int>)
    ensures |m| == n
    ensures forall k :: 0 <= k < n ==> m[k] == 1
  {
    seq(n, _ => 1)
  }

  function SpeakerCode(s: Speaker): (c: int)
    ensures c == 0 || c == 1
    ensures c == 0 <==> s == Tag("M")
  {
    if s == Tag("M") then 0 else 1
  }

  /** On IEMOCAP, exactly "M" becomes 0 and every other speaker 1; elsewhere the speakers pass through. */
  function MapSpeakers(name: DatasetName, spk: seq<Speaker>): (r: seq<Speaker>)
    ensures |r| == |spk|
    ensures name == IEMOCAP ==> forall k :: 0 <= k < |spk| ==> r[k] == Code(SpeakerCode(spk[k]))
    ensures name != IEMOCAP ==> r == spk
  {
    if name == IEMOCAP then seq(|spk|, k requires 0 <= k < |spk| => Code(SpeakerCode(spk[k])))
    else spk
  }

  /** Conversion of the speaker list to a numeric tensor: fails on the first letter code. */
  function SpeakerTensor(spk: seq<Speaker>): (r: Result<seq<int>, Failure>)
    ensures r.Ok? <==> forall k :: 0 <= k < |spk| ==> spk[k].Code?
    ensures r.Ok? ==> |r.value| == |spk| && forall k :: 0 <= k < |spk| ==> r.value[k] == spk[k].value
    ensures r.Err? ==> r.error == NonNumericSpeaker
  {
    if spk == [] then Ok([])
    else if spk[0].Tag? then Err(NonNumericSpeaker)
    else
      var rest := SpeakerTensor(spk[1..]);
      if rest.Err? then rest
      else Ok([spk[0].value] + rest.value)
  }

  /** On IEMOCAP every speaker list becomes a numeric list of 0s and 1s, as long as the input. */
  lemma IemocapSpeakersAreBinary(spk: seq<Speaker>)
    ensures SpeakerTensor(MapSpeakers(IEMOCAP, spk)).Ok?
    ensures var codes := SpeakerTensor(MapSpeakers(IEMOCAP, spk)).value;
      |codes| == |spk| && forall k :: 0 <= k < |spk| ==> (codes[k] == 0 <==> spk[k] == Tag("M")) && 0 <= codes[k] <= 1
  {
  }

  lemma SpeakerExample()
    ensures SpeakerTensor(MapSpeakers(IEMOCAP, [Tag("M"), Tag("F"), Tag("M")])) == Ok([0, 1, 0])
  {
    var r := MapSpeakers(IEMOCAP, [Tag("M"), Tag("F"), Tag("M")]);
    assert Tag("F") != Tag("M") by { assert "F"[0] != "M"[0]; }
    assert r == [Code(0), Code(1), Code(0)];
    var v := SpeakerTensor(r).value;
    assert v[0] == 0 && v[1] == 1 && v[2] == 0;
    assert v == [0, 1, 0];
  }

  /** The length of the longest row: no row is longer, and some row is this long when there is one. */
  function MaxLen(rows: seq<seq<int>>): (m: nat)
    ensures forall k :: 0 <= k < |rows| ==> |rows[k]| <= m
    ensures rows == [] ==> m == 0
    ensures rows != [] ==> exists k :: 0 <= k < |rows| && |rows[k]| == m
  {
    if rows == [] then 0
    else
      var rest := MaxLen(rows[1..]);
      assert forall k :: 1 <= k < |rows| ==> rows[k] == rows[1..][k - 1];
      if |rows[0]| >= rest then |rows[0]| else rest
  }

  function PadRow(row: seq<int>, width: nat): (p: seq<int>)
    requires |row| <= width
    ensures |p| == width && p[..|row|] == row
    ensures forall j :: |row| <= j < width ==> p[j] == 0
  {
    row + seq(width - |row|, _ => 0)
  }

  /**
   * pad_sequence with batch_first and padding value 0: every row is extended
   * with zeros to the length of the longest; an empty list is refused.
   */
  function PadSequence(rows: seq<seq<int>>): (r: Result<seq<seq<int>>, Failure>)
    ensures r.Err? <==> rows == []
    ensures r.Err? ==> r.error == EmptyPadInput
    ensures r.Ok? ==> |r.value| == |rows|
    ensures r.Ok? ==> forall k :: 0 <= k < |rows| ==>
      && |r.value[k]| == MaxLen(rows)
      && r.value[k][..|rows[k]|] == rows[k]
      && (forall j :: |rows[k]| <= j < MaxLen(rows) ==> r.value[k][j] == 0)
  {
    if rows == [] then Err(EmptyPadInput)
    else
      var width := MaxLen(rows);
      Ok(seq(|rows|, k requires 0 <= k < |rows| => PadRow(rows[k], width)))
  }

  /**
   * Token ids and attention masks whose rows have matching lengths pad to
   * tensors of the same shape, and dropping the zero tail recovers the rows.
   */
  lemma PadAligned(ids: seq<seq<int>>, masks: seq<seq<int>>)
    requires |ids| == |masks| && ids != []
    requires forall k :: 0 <= k < |ids| ==> |ids[k]| == |masks[k]|
    ensures PadSequence(ids).Ok? && PadSequence(masks).Ok?
    ensures var p, q := PadSequence(ids).value, PadSequence(masks).value;
      |p| == |q| && forall k :: 0 <= k < |p| ==> |p[k]| == |q[k]| && p[k][..|ids[k]|] == ids[k] && q[k][..|masks[k]|] == masks[k]
  {
    SameLengthsSameMax(ids, masks);
  }

  lemma {:induction false} SameLengthsSameMax(a: seq<seq<int>>, b: seq<seq<int>>)
    requires |a| == |b|
    requires forall k :: 0 <= k < |a| ==> |a[k]| == |b[k]|
    ensures MaxLen(a) == MaxLen(b)
  {
    if a != [] {
      assert forall k :: 0 <= k < |a| - 1 ==> |a[1..][k]| == |b[1..][k]| by {
        forall k | 0 <= k < |a| - 1 ensures |a[1..][k]| == |b[1..][k]| {
          assert a[1..][k] == a[k + 1];
          assert b[1..][k] == b[k + 1];
        }
      }
      SameLengthsSameMax(a[1..], b[1..]);
    }
  }

  /** Rows of lengths 3, 1 and 2 pad to three rows of length 3. */
  lemma PadExample()
    ensures PadSequence([[101, 7, 102], [101], [101, 102]]) == Ok([[101, 7, 102], [101, 0, 0], [101, 102, 0]])
  {
    var rows := [[101, 7, 102], [101], [101, 102]];
    assert MaxLen(rows) == 3;
    var p := PadSequence(rows).value;
    assert p[0] == [101, 7, 102];
    assert p[1] == [101, 0, 0];
    assert p[2] == [101, 102, 0];
    assert p == [[101, 7, 102], [101, 0, 0], [101, 102, 0]];
  }
}
