# Spectrogram graph dataset: a verified model of sample assembly

`gnnspectrogram_dataset.py` defines a PyTorch dataset over multi-party
conversations (IEMOCAP, MELD, EmoryNLP, DailyDialog). Each conversation is a
list of utterances with emotion labels and speakers. A commonsense graph over
the utterances comes with it: a 2 x E edge index, one relation type per edge,
and per source utterance a table from relation type to attribute vector.

This project models the deterministic part of that dataset in Dafny:

- **Construction** (`DatasetConfig`, `SpectrogramDatasets.SpectrogramDataset.Open`):
  - the corpus name must be one of the four known names;
  - the split must be one the corpus offers;
  - every utterance is tokenized once, in nested loops (`UtteranceTensors.TokenizeCorpus`).
- **Sample assembly** (`SpectrogramDatasets.SpectrogramDataset.GetItem`), in the original order of evaluation:
  - Python list subscripts, where a negative index counts from the end;
  - the all-ones utterance mask;
  - the IEMOCAP speaker mapping;
  - the per-edge loop (`EdgeRelations`), which builds attribute, "oWant" flag and three-way relation-code lists;
  - zero padding of token ids and attention masks (`pad_sequence`);
  - the speaker and attribute tensor conversions that can fail.
- **The spectrogram path of every (utterance, label) pair** (`SpectrogramPaths`):
  - the label goes through a six-entry emotion table;
  - the transcript rows are scanned in order;
  - the first row whose stripped text and stripped emotion match wins;
  - no match gives the empty path.
- **Python's `str.strip`** (`PyText`), with its full whitespace set.

Every failure the original raises on these paths is an explicit error value of `Failures.Failure`:
- `IndexError` becomes `IndexOutOfRange`;
- `KeyError` becomes `MissingKey`;
- `pad_sequence` on an empty list becomes `EmptyPadInput`;
- `torch.stack` on an empty list becomes `EmptyStackInput`, and on a ragged list `RaggedStackInput`;
- a letter speaker reaching a float tensor becomes `NonNumericSpeaker`.

A failed name or split assertion at construction is a `ConfigError`.

The dataset object is a class whose fields are `const`: the original fills them in `__init__` and never changes them.
- The loops of the original are methods proved against specification functions:
  - `TokenizeCorpus` against `ConversationIds` and `ConversationMasks`;
  - `DeriveEdgeFeatures` against `EdgeFeatures`;
  - `ResolveSpectrogram` against `Resolve`;
  - `SpectrogramPathList` against `ResolveAll`.
- The properties are proved about those functions.

In these places the model follows the code as it behaves:
- **The resolver strips only the transcript columns.** The utterance it is given is compared as is, so an utterance with surrounding blanks never matches.
- **A sample index may be negative.** The original subscripts Python lists, so `-1` is the last conversation. Only indices outside `[-n, n)` fail.
- **The path list stops at the shorter of the utterance list and the label list.** This is the behaviour of `zip`.
- **Construction does not check that the stored lists are aligned.** The alignment is the separate predicate `Aligned`, and `ItemAligned` shows what it buys.

## Model

| member | source | states |
|---|---|---|
| DatasetConfig.ParseConfig | gnnspectrogram_dataset.py:15-19 | accepted iff the name is one of the four corpora and the split is one that corpus offers (IEMOCAP: train, test; others: train, dev, test); an unknown name is refused as such whatever the split, a known name with a foreign split as a bad split; an accepted pair reads back unchanged and is a supported configuration |
| DatasetConfig.ParseConfigRoundTrip | gnnspectrogram_dataset.py:15-19 | every supported configuration, spelled as the original spells it, is accepted and parsed back to itself |
| DatasetConfig.IemocapHasNoDevSplit | gnnspectrogram_dataset.py:16-19 | IEMOCAP refuses "dev", which MELD, EmoryNLP and DailyDialog accept |
| UtteranceTensors.Truncate | gnnspectrogram_dataset.py:45 | the truncated list has at most 52 entries, is a prefix of the input, and is the input itself when that is short enough; a longer input keeps exactly its first 52 entries |
| UtteranceTensors.Encode | gnnspectrogram_dataset.py:45-47 | ids and mask each hold at most 52 entries and are prefixes of the tokenizer's output |
| UtteranceTensors.ConversationIds | gnnspectrogram_dataset.py:44-46 | one id list per utterance, in utterance order, each the truncated encoding of that utterance |
| UtteranceTensors.ConversationMasks | gnnspectrogram_dataset.py:44-47 | one attention mask per utterance, in utterance order, each the truncated mask of that utterance |
| UtteranceTensors.TokenizeCorpus | gnnspectrogram_dataset.py:40-50 | the nested append loops yield one id list and one mask list per conversation, entry k being exactly the per-utterance encodings of conversation k |
| UtteranceTensors.UtteranceMask | gnnspectrogram_dataset.py:58 | as many entries as the conversation has labels, every one of them 1 |
| UtteranceTensors.SpeakerCode | gnnspectrogram_dataset.py:60 | the code is 0 or 1, and 0 exactly for the speaker "M" |
| UtteranceTensors.MapSpeakers | gnnspectrogram_dataset.py:59-62 | same length as the input; on IEMOCAP each speaker becomes 0 if it is exactly "M" and 1 otherwise; on the other corpora the list is returned unchanged |
| UtteranceTensors.SpeakerTensor | gnnspectrogram_dataset.py:88 | succeeds iff every speaker is numeric, then gives the numbers in order; a letter speaker fails the conversion |
| UtteranceTensors.IemocapSpeakersAreBinary | gnnspectrogram_dataset.py:59-88 | on IEMOCAP the speaker tensor always succeeds, has one 0/1 entry per speaker, and the entry is 0 iff the speaker is "M" |
| UtteranceTensors.SpeakerExample | gnnspectrogram_dataset.py:60 | on IEMOCAP the speakers M, F, M give [0, 1, 0] |
| UtteranceTensors.MaxLen | gnnspectrogram_dataset.py:84 | no row is longer than the result, and some row is exactly that long when there is a row |
| UtteranceTensors.PadRow | gnnspectrogram_dataset.py:84 | the padded row has the target width, starts with the row, and is 0 beyond it |
| UtteranceTensors.PadSequence | gnnspectrogram_dataset.py:84 | fails iff there are no rows; otherwise one row per input row, each as long as the longest input row, holding the input row as prefix and zeros after it |
| UtteranceTensors.PadAligned | gnnspectrogram_dataset.py:84-86 | token ids and attention masks of matching row lengths pad to the same shape, and each padded row still starts with its original row |
| UtteranceTensors.PadExample | gnnspectrogram_dataset.py:84 | rows of lengths 3, 1 and 2 pad to three rows of length 3 with zeros on the right |
| EdgeRelations.OWantFlag | gnnspectrogram_dataset.py:75 | the flag is 0 or 1, and 1 exactly when the edge type is "oWant", whatever the edge's direction |
| EdgeRelations.RelationCode | gnnspectrogram_dataset.py:76-82 | the code lies in 0..2; it is 2 iff the target is not after the source (self-loops included), whatever the type; for a forward edge it is 0 iff the type is "xWant" and 1 otherwise |
| EdgeRelations.EdgeColumn | gnnspectrogram_dataset.py:70-75 | column i succeeds iff its type exists, its source utterance has an attribute table, and that table holds the type; a missing type or table is an index failure, a missing type key a key failure; on success the entry is the attribute, the flag and the code |
| EdgeRelations.EdgeFeatures | gnnspectrogram_dataset.py:66-82 | succeeds iff every column does; then the three lists have one entry per column and entry i is exactly column i's entry; on failure the error is that of the first failing column |
| EdgeRelations.FailureIsFinal | gnnspectrogram_dataset.py:69-72 | once column i fails after a successful prefix, the whole loop fails with column i's error, however many columns follow |
| EdgeRelations.ColumnsDetermineFeatures | gnnspectrogram_dataset.py:69-82 | lists that hold every column's entry in column order are the loop's result, so the result is unique |
| EdgeRelations.DeriveEdgeFeatures | gnnspectrogram_dataset.py:66-82 | the append loop, stopping at the first failing lookup, returns exactly the edge features of all columns |
| EdgeRelations.ColumnIsLocal | gnnspectrogram_dataset.py:70-82 | a column's entry depends only on its own endpoints and type, not on its position or the other columns |
| EdgeRelations.RelationExamples | gnnspectrogram_dataset.py:75-82 | backward and self-loop edges get 2 whatever the type; forward "xWant" gets 0; forward "iWant" and "oWant" get 1; only "oWant" sets the flag |
| EdgeRelations.EdgeLoopExample | gnnspectrogram_dataset.py:69-82 | one forward "xWant" edge yields its attribute, flag 0 and code 0 |
| PyText.TrimStart | gnnspectrogram_dataset.py:151 | no longer than the input, and empty or starting with a non-whitespace character |
| PyText.TrimEnd | gnnspectrogram_dataset.py:151 | no longer than the input, and empty or ending with a non-whitespace character |
| PyText.TrimStartIsSuffix | gnnspectrogram_dataset.py:151 | the left trim removes exactly a whitespace prefix |
| PyText.TrimEndIsPrefix | gnnspectrogram_dataset.py:151 | the right trim removes exactly a whitespace suffix |
| PyText.Strip | gnnspectrogram_dataset.py:151 | the result has no whitespace at either end and is no longer than the input |
| PyText.StripOfPadded | gnnspectrogram_dataset.py:151 | stripping any whitespace padding around text without edge whitespace recovers that text exactly |
| PyText.AllSpaceStripsToEmpty | gnnspectrogram_dataset.py:151 | a cell of whitespace only strips to the empty string |
| PyText.StripIdempotent | gnnspectrogram_dataset.py:151 | stripping twice is stripping once |
| SpectrogramPaths.TablesAgree | gnnspectrogram_dataset.py:129-144 | the label table's keys are exactly 0 to 5, and every emotion code it yields has a folder, so the folder lookup never fails |
| SpectrogramPaths.PathIsNotEmpty | gnnspectrogram_dataset.py:154 | a built path is never empty, so "" unambiguously means no match |
| SpectrogramPaths.PathDeterminesTitle | gnnspectrogram_dataset.py:154 | within one folder, two equal paths name the same title |
| SpectrogramPaths.FirstMatch | gnnspectrogram_dataset.py:150-155 | a found index is a matching row with no matching row before it; nothing is found iff no row matches |
| SpectrogramPaths.Resolve | gnnspectrogram_dataset.py:123-156 | succeeds iff the label is one of 0..5, otherwise fails with a key failure; on success the label's emotion has a folder |
| SpectrogramPaths.ResolveNoMatch | gnnspectrogram_dataset.py:124-156 | with a valid label and no matching row the path is "" |
| SpectrogramPaths.ResolveFirstMatch | gnnspectrogram_dataset.py:149-155 | the first row, in row order, whose stripped text equals the utterance and whose stripped emotion equals the label's code gives the path: processed folder, the emotion's folder, the row's title, ".wav.jpeg" |
| SpectrogramPaths.ResolveFoundOnlyOnMatch | gnnspectrogram_dataset.py:150-155 | conversely, a non-empty path is the one built from the first matching row |
| SpectrogramPaths.FirstRowWins | gnnspectrogram_dataset.py:150-155 | rows appended after a match never change the path |
| SpectrogramPaths.ResolveSpectrogram | gnnspectrogram_dataset.py:123-156 | the scan with its break returns exactly what `Resolve` specifies |
| SpectrogramPaths.ZipLength | gnnspectrogram_dataset.py:103 | the zip length fits both lists and is the length of one of them |
| SpectrogramPaths.ResolveAll | gnnspectrogram_dataset.py:102-109 | the first n paths succeed iff every one of the first n labels is in 0..5, then hold one path per pair; otherwise a key failure |
| SpectrogramPaths.ResolveAllAt | gnnspectrogram_dataset.py:107-109 | entry k of the path list is the resolver's path for utterance k and label k, so order is kept |
| SpectrogramPaths.ResolveAllFails | gnnspectrogram_dataset.py:107-108 | one bad label anywhere in the zipped prefix makes the whole list fail with a key failure |
| SpectrogramPaths.SpectrogramPathList | gnnspectrogram_dataset.py:102-115 | the append loop over the zipped pairs returns exactly the path list of the first min(utterances, labels) pairs |
| SpectrogramDatasets.Stack | gnnspectrogram_dataset.py:90 | stacking succeeds iff there is at least one attribute and all have the first one's length, and then keeps them in order; otherwise an empty or ragged failure |
| SpectrogramDatasets.AssembleTensors | gnnspectrogram_dataset.py:58-90 | succeeds iff the edge loop succeeds, there are id rows and mask rows to pad, every mapped speaker is numeric and the attributes stack; an edge-loop failure is the result's failure, as that loop runs first; on success the ids and masks are the zero-padded rows, the speakers are the mapped codes, the three edge lists are the edge loop's lists, the labels and edges are those given, and the utterance mask is all ones with one entry per label |
| SpectrogramDatasets.SampleEdgeEntries | gnnspectrogram_dataset.py:69-82 | in an assembled sample, entry i of the edge lists is the attribute of edge i's source and type, the "oWant" flag of its type and the relation code of its direction and type |
| SpectrogramDatasets.NoEdgesIsRefused | gnnspectrogram_dataset.py:90 | a conversation with no edges fails at the attribute stack even when everything before it succeeds |
| SpectrogramDatasets.SpectrogramDataset.constructor | gnnspectrogram_dataset.py:13-52 | stores the configuration and the split's data, tokenizes every conversation, and sets the length to the number of label lists |
| SpectrogramDatasets.SpectrogramDataset.Open | gnnspectrogram_dataset.py:13-52 | refused exactly when the name or split is refused, with the same error; otherwise a new valid dataset holding the given utterances (also as the conversation list), labels, speakers, edge index, edge types, attribute tables and hop value, its utterances tokenized one by one, and length equal to the number of label lists |
| SpectrogramDatasets.SpectrogramDataset.Length | gnnspectrogram_dataset.py:98-99 | the length is the number of label lists |
| SpectrogramDatasets.SpectrogramDataset.GetItem | gnnspectrogram_dataset.py:54-96 | sample retrieval, with its edge loop and path loop, returns exactly the specified sample or failure |
| SpectrogramDatasets.SpectrogramDataset.ItemOutOfRange | gnnspectrogram_dataset.py:55 | an index outside [-length, length) fails with an index failure |
| SpectrogramDatasets.SpectrogramDataset.ItemInRange | gnnspectrogram_dataset.py:54-96 | within range, on aligned data, every subscript succeeds and the sample is the assembled one with its path list |
| SpectrogramDatasets.SpectrogramDataset.ItemAligned | gnnspectrogram_dataset.py:54-96 | on aligned data a successful sample has the stored labels and edges; ids, masks, utterance mask, speakers and paths have one entry per utterance; the three edge lists have one per edge; and the utterance mask is all ones |
| Failures.At | gnnspectrogram_dataset.py:55-65 | a Python list subscript succeeds iff the index lies in [-n, n), with negative indices counting from the end; otherwise an index failure |

## Left out

- `pickle.load` and the paths built from the name, split and `hip` (lines 23-30, 51) are file I/O. The split's lists and the attribute tables are parameters. The per-split dictionary lookup `data[dataset_type]` is not modelled.
- The tokenizer (line 45) is a foreign library. It is an arbitrary function from text to ids and mask, and the model truncates its output to 52 entries by keeping a prefix.
- `UtteranceTensors.Encode`: does not model how the library truncates, which keeps the closing special token. For an utterance longer than 52 tokens, the library's last entry can differ from the prefix the model keeps. Only the bound of 52 entries is promised.
- The `torch.tensor` and `torch.stack` conversions (lines 85-92) keep integer and real sequences; the dtypes are not modelled. Only the failures these conversions add on the modelled paths are kept: an empty or ragged stack, and a non-numeric speaker in a float tensor.
- The CSV transcript (lines 146-147) is an in-memory sequence of rows with the three columns the resolver reads. A missing file and a missing column are not modelled. The transcript path is kept as a constant only.
- Image decoding with PIL and `ToTensor` (lines 3-4, 106, 110-114) is left out: it is commented out, and the path list is returned as is.
- `collate_fn` and `collate_fn_batch` (lines 118-121, 158-170) only reshuffle tuples for the data loader.
- Edge endpoints are natural numbers. A negative numpy index in the edge array, which Python would wrap, is not modelled.
- The `hip` value is stored but only names the pickle file, so it has no other effect.
- `SpectrogramDatasets.SpectrogramDataset.Item` is the specification of `GetItem` and carries no contract of its own. Its properties are stated by `ItemOutOfRange`, `ItemInRange` and `ItemAligned`.
