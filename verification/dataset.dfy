/**
 * The dataset object: built once from one split of a corpus, it tokenizes
 * every utterance up front and then serves one assembled sample per
 * conversation index.
 */
module SpectrogramDatasets {
  import opened Wrappers
  import opened Failures
  import opened DatasetConfig
  import opened EdgeRelations
  import opened UtteranceTensors
  import opened SpectrogramPaths

  /** One split of a corpus as stored: utterances, labels, speakers and the graph's two arrays, per conversation. */
  datatype SplitData = SplitData(
    utt: seq<seq<string>>,
    labels: seq<seq<int>>,
    spk: seq<seq<Speaker>>,
    edgeIndex: seq<seq<Edge>>,
    edgeType: seq<seq<string>>)

  /** The ten values returned for one conversation, in the order the original returns them. */
  datatype Sample = Sample(
    uttIds: seq<seq<int>>,
    mask: seq<seq<int>>,
    labels: seq<int>,
    uttMask: seq<int>,
    speakers: seq<int>,
    edgeIndex: seq<Edge>,
    edgeAttr: seq<Attr>,
    relationBinary: seq<int>,
    relation: seq<int>,
    spectrogramPaths: seq<string>)

  /** torch.stack of the attribute vectors: refused when there are none or their lengths differ. */
  function Stack(attrs: seq<Attr>): (r: Result<seq<Attr>, Failure>)
    ensures r.Ok? <==> attrs != [] && forall k :: 0 <= k < |attrs| ==> |attrs[k]| == |attrs[0]|
    ensures r.Ok? ==> r.value == attrs
    ensures r.Err? ==> r.error == (if attrs == [] then EmptyStackInput else RaggedStackInput)
  {
    if attrs == [] then Err(EmptyStackInput)
    else if exists k :: 0 <= k < |attrs| && |attrs[k]| != |attrs[0]| then Err(RaggedStackInput)
    else Ok(attrs)
  }

  /**
   * Sample assembly from one conversation's stored values, in the original
   * order of evaluation: the edge loop, padding of the ids, padding of the
   * masks, the speaker tensor, then the stacked attributes. The spectrogram
   * paths are filled in afterwards.
   */
  function AssembleTensors(
    name: DatasetName, ids: seq<seq<int>>, convLabels: seq<int>, masks: seq<seq<int>>, spk: seq<Speaker>,
    edges: seq<Edge>, types: seq<string>, table: AttrTable): (r: Result<Sample, Failure>)
    ensures r.Ok? ==> r.value.labels == convLabels && r.value.edgeIndex == edges && r.value.spectrogramPaths == []
    ensures r.Ok? ==> |r.value.uttIds| == |ids| && |r.value.mask| == |masks| && |r.value.speakers| == |spk|
    ensures r.Ok? ==> |r.value.uttMask| == |convLabels| && forall k :: 0 <= k < |convLabels| ==> r.value.uttMask[k] == 1
    ensures r.Ok? ==> |r.value.edgeAttr| == |r.value.relationBinary| == |r.value.relation| == |edges|
    ensures r.Ok? ==> edges != []
    ensures r.Ok? <==>
      && EdgeFeatures(edges, types, table, |edges|).Ok?
      && ids != [] && masks != []
      && SpeakerTensor(MapSpeakers(name, spk)).Ok?
      && Stack(EdgeFeatures(edges, types, table, |edges|).value.attr).Ok?
    ensures r.Ok? ==> PadSequence(ids) == Ok(r.value.uttIds) && PadSequence(masks) == Ok(r.value.mask)
    ensures r.Ok? ==> SpeakerTensor(MapSpeakers(name, spk)) == Ok(r.value.speakers)
    ensures r.Ok? ==> EdgeFeatures(edges, types, table, |edges|) == Ok(EdgeColumns(r.value.edgeAttr, r.value.relationBinary, r.value.relation))
    ensures EdgeFeatures(edges, types, table, |edges|).Err? ==> r == Err(EdgeFeatures(edges, types, table, |edges|).error)
  {
    var uttm := UtteranceMask(|convLabels|);
    var speakers := MapSpeakers(name, spk);
    var cols :- EdgeFeatures(edges, types, table, |edges|);
    var paddedIds :- PadSequence(ids);
    var paddedMask :- PadSequence(masks);
    var speakerCodes :- SpeakerTensor(speakers);
    var attrs :- Stack(cols.attr);
    Ok(Sample(paddedIds, paddedMask, convLabels, uttm, speakerCodes, edges, attrs, cols.binary, cols.relation, []))
  }

  /**
   * In an assembled sample, entry i of the three edge lists is computed from
   * edge column i alone: the attribute of its source and type, the "oWant"
   * flag of its type, and the relation code of its direction and type.
   */
  lemma SampleEdgeEntries(
    name: DatasetName, ids: seq<seq<int>>, convLabels: seq<int>, masks: seq<seq<int>>, spk: seq<Speaker>,
    edges: seq<Edge>, types: seq<string>, table: AttrTable)
    requires AssembleTensors(name, ids, convLabels, masks, spk, edges, types, table).Ok?
    ensures var s := AssembleTensors(name, ids, convLabels, masks, spk, edges, types, table).value;
      forall i :: 0 <= i < |edges| ==>
        && i < |types| && edges[i].src < |table| && types[i] in table[edges[i].src]
        && s.edgeAttr[i] == table[edges[i].src][types[i]]
        && s.relationBinary[i] == OWantFlag(types[i])
        && s.relation[i] == RelationCode(edges[i], types[i])
  {
    var s := AssembleTensors(name, ids, convLabels, masks, spk, edges, types, table).value;
    forall i | 0 <= i < |edges|
      ensures && i < |types| && edges[i].src < |table| && types[i] in table[edges[i].src]
              && s.edgeAttr[i] == table[edges[i].src][types[i]]
              && s.relationBinary[i] == OWantFlag(types[i])
              && s.relation[i] == RelationCode(edges[i], types[i])
    {
      assert EdgeColumn(edges, types, table, i) == Ok(EdgeEntry(s.edgeAttr[i], s.relationBinary[i], s.relation[i]));
    }
  }

  /** A conversation with no edges is refused when its attributes are stacked. */
  lemma NoEdgesIsRefused(
    name: DatasetName, ids: seq<seq<int>>, convLabels: seq<int>, masks: seq<seq<int>>, spk: seq<Speaker>,
    types: seq<string>, table: AttrTable)
    requires ids != [] && masks != [] && forall k :: 0 <= k < |spk| ==> MapSpeakers(name, spk)[k].Code?
    ensures AssembleTensors(name, ids, convLabels, masks, spk, [], types, table) == Err(EmptyStackInput)
  {
  }

  class SpectrogramDataset {
    const name: DatasetName
    const split: Split
    const hip: int
    const utt: seq<seq<string>>
    const conversation: seq<seq<string>>
    const labels: seq<seq<int>>
    const spk: seq<seq<Speaker>>
    const edgeIndex: seq<seq<Edge>>
    const edgeType: seq<seq<string>>
    const uttId: seq<seq<seq<int>>>
    const wmask: seq<seq<seq<int>>>
    const cmsk: seq<AttrTable>
    const length: nat

    /** What construction establishes: a supported configuration, and one id list and one mask list per utterance. */
    ghost predicate Valid() {
      && Supports(name, split)
      && conversation == utt
      && |uttId| == |utt| && |wmask| == |utt|
      && (forall k :: 0 <= k < |utt| ==> |uttId[k]| == |utt[k]| && |wmask[k]| == |utt[k]|)
      && length == |labels|
    }

    /** The alignment the stored data is meant to have, which construction does not check. */
    ghost predicate Aligned() {
      && |utt| == |labels| == |spk| == |edgeIndex| == |edgeType| == |cmsk|
      && forall k :: 0 <= k < |labels| ==> |utt[k]| == |labels[k]| == |spk[k]|
    }

    constructor (cfg: Config, hip: int, data: SplitData, cmsk: seq<AttrTable>, tokenizer: string -> Encoding)
      requires Supports(cfg.name, cfg.split)
      ensures Valid()
      ensures name == cfg.name && split == cfg.split && this.hip == hip
      ensures utt == data.utt && labels == data.labels && spk == data.spk
      ensures edgeIndex == data.edgeIndex && edgeType == data.edgeType && this.cmsk == cmsk
      ensures forall k :: 0 <= k < |utt| ==> uttId[k] == ConversationIds(tokenizer, utt[k])
      ensures forall k :: 0 <= k < |utt| ==> wmask[k] == ConversationMasks(tokenizer, utt[k])
    {
      var ids, masks := TokenizeCorpus(tokenizer, data.utt);
      name, split, this.hip := cfg.name, cfg.split, hip;
      utt, conversation := data.utt, data.utt;
      labels, spk := data.labels, data.spk;
      edgeIndex, edgeType := data.edgeIndex, data.edgeType;
      uttId, wmask := ids, masks;
      this.cmsk := cmsk;
      length := |data.labels|;
    }

    /**
     * Construction by corpus and split name: an unknown corpus, or a split
     * that corpus does not offer, is refused before anything is built.
     */
    static method Open(name: string, split: string, hip: int, data: SplitData, cmsk: seq<AttrTable>, tokenizer: string -> Encoding)
      returns (r: Result<SpectrogramDataset, ConfigError>)
      ensures r.Err? <==> ParseConfig(name, split).Err?
      ensures r.Err? ==> r.error == ParseConfig(name, split).error
      ensures r.Ok? ==> fresh(r.value) && r.value.Valid()
      ensures r.Ok? ==> NameText(r.value.name) == name && SplitText(r.value.split) == split
      ensures r.Ok? ==> r.value.labels == data.labels && r.value.utt == data.utt && r.value.Length() == |data.labels|
      ensures r.Ok? ==> r.value.conversation == data.utt && r.value.spk == data.spk && r.value.hip == hip
      ensures r.Ok? ==> r.value.edgeIndex == data.edgeIndex && r.value.edgeType == data.edgeType && r.value.cmsk == cmsk
      ensures r.Ok? ==> forall k :: 0 <= k < |data.utt| ==>
        r.value.uttId[k] == ConversationIds(tokenizer, data.utt[k]) && r.value.wmask[k] == ConversationMasks(tokenizer, data.utt[k])
    {
      var cfg := ParseConfig(name, split);
      if cfg.Err? {
        return Err(cfg.error);
      }
      var ds := new SpectrogramDataset(cfg.value, hip, data, cmsk, tokenizer);
      return Ok(ds);
    }

    /** The number of conversations is the number of label lists. */
    function Length(): (n: nat)
      requires Valid()
      ensures n == |labels|
    {
      length
    }

    /** The sample at `item`, a Python list subscript into every stored list in turn. */
    function Item(item: int, rows: seq<TranscriptRow>): Result<Sample, Failure> {
      var ids :- At(uttId, item);
      var convLabels :- At(labels, item);
      var masks :- At(wmask, item);
      var speakers :- At(spk, item);
      var edges :- At(edgeIndex, item);
      var types :- At(edgeType, item);
      var table :- At(cmsk, item);
      var sample :- AssembleTensors(name, ids, convLabels, masks, speakers, edges, types, table);
      var conv :- At(conversation, item);
      var paths :- ResolveAll(conv, convLabels, rows, ZipLength(conv, convLabels));
      Ok(sample.(spectrogramPaths := paths))
    }

    /** Sample retrieval: the edge loop and the path list run as loops, the rest as in `Item`. */
    method GetItem(item: int, rows: seq<TranscriptRow>) returns (r: Result<Sample, Failure>)
      ensures r == Item(item, rows)
    {
      var ids :- At(uttId, item);
      var convLabels :- At(labels, item);
      var masks :- At(wmask, item);
      var uttm := UtteranceMask(|convLabels|);
      var speakers :- At(spk, item);
      var mapped := MapSpeakers(name, speakers);
      var edges :- At(edgeIndex, item);
      var types :- At(edgeType, item);
      var table :- At(cmsk, item);
      var cols :- DeriveEdgeFeatures(edges, types, table);
      var paddedIds :- PadSequence(ids);
      var paddedMask :- PadSequence(masks);
      var speakerCodes :- SpeakerTensor(mapped);
      var attrs :- Stack(cols.attr);
      var conv :- At(conversation, item);
      var paths :- SpectrogramPathList(conv, convLabels, rows);
      return Ok(Sample(paddedIds, paddedMask, convLabels, uttm, speakerCodes, edges, attrs, cols.binary, cols.relation, paths));
    }

    /** An index outside the stored conversations, counted from either end, is refused. */
    lemma ItemOutOfRange(item: int, rows: seq<TranscriptRow>)
      requires Valid()
      requires item >= Length() || item < -(Length() as int)
      ensures Item(item, rows) == Err(IndexOutOfRange)
    {
    }

    /**
     * On aligned data a sample is aligned too: every utterance-aligned value
     * has one entry per utterance, every edge-aligned value one per edge, and
     * the labels and edges are those stored.
     */
    lemma ItemAligned(item: int, rows: seq<TranscriptRow>)
      requires Valid() && Aligned()
      requires Item(item, rows).Ok?
      ensures var i := if item < 0 then item + |labels| else item;
        var s := Item(item, rows).value;
        && 0 <= i < |labels|
        && s.labels == labels[i] && s.edgeIndex == edgeIndex[i]
        && |s.uttIds| == |s.mask| == |s.uttMask| == |s.speakers| == |s.spectrogramPaths| == |labels[i]|
        && |s.edgeAttr| == |s.relationBinary| == |s.relation| == |edgeIndex[i]|
        && (forall k :: 0 <= k < |s.uttMask| ==> s.uttMask[k] == 1)
    {
      var i := if item < 0 then item + |labels| else item;
      assert 0 <= i < |labels| by {
        assert At(uttId, item).Ok?;
      }
      ItemInRange(item, rows);
      assert ZipLength(conversation[i], labels[i]) == |labels[i]|;
    }

    /** Within range, every subscript succeeds and the sample is the assembled one with its path list. */
    lemma ItemInRange(item: int, rows: seq<TranscriptRow>)
      requires Valid() && Aligned()
      requires -|labels| <= item < |labels|
      ensures var i := if item < 0 then item + |labels| else item;
        Item(item, rows) == (
          var sample :- AssembleTensors(name, uttId[i], labels[i], wmask[i], spk[i], edgeIndex[i], edgeType[i], cmsk[i]);
          var paths :- ResolveAll(conversation[i], labels[i], rows, ZipLength(conversation[i], labels[i]));
          Ok(sample.(spectrogramPaths := paths)))
    {
      var i := if item < 0 then item + |labels| else item;
      assert At(uttId, item) == Ok(uttId[i]) && At(labels, item) == Ok(labels[i]) && At(wmask, item) == Ok(wmask[i]);
      assert At(spk, item) == Ok(spk[i]) && At(edgeIndex, item) == Ok(edgeIndex[i]);
      assert At(edgeType, item) == Ok(edgeType[i]) && At(cmsk, item) == Ok(cmsk[i]);
      assert At(conversation, item) == Ok(conversation[i]);
    }
  }
}
