/**
 * Spectrogram image paths: an utterance and its emotion label are matched
 * against the rows of the IEMOCAP transcript, first match wins, and the
 * matching row's title names the image file.
 */
module SpectrogramPaths {
  import opened Wrappers
  import opened Failures
  import opened PyText

  const DataRootPath := "/content/gdrive/MyDrive/emotion_detection_using_sound"
  const IemocapRootFolder := DataRootPath + "/data/Processed_Data_Iemocap"
  const ProcessedFolder := IemocapRootFolder + "/iemocap_spectrograms"
  /** The transcript the rows below are read from. */
  const TranscriptDoc := IemocapRootFolder + "/iemocapTrans.csv"

  /** Emotion code to the folder that holds its spectrograms. */
  const EmotionFolder: map<string, string> := map[
    "exc" := "excited",
    "ang" := "angry",
    "fru" := "frustrated",
    "hap" := "happy",
    "neu" := "neutral",
    "sad" := "sad"
  ]

  /** Emotion-class label to emotion code. */
  const LabelEmotion: map<int, string> := map[
    0 := "hap",
    1 := "sad",
    2 := "neu",
    3 := "ang",
    4 := "exc",
    5 := "fru"
  ]

  /** The three transcript columns the resolver reads. */
  datatype TranscriptRow = TranscriptRow(toTranslate: string, emotion: string, title: string)

  /** The row's stripped text equals the utterance as given, and its stripped emotion the code. */
  predicate RowMatches(row: TranscriptRow, utterance: string, emotion: string) {
    Strip(row.toTranslate) == utterance && Strip(row.emotion) == emotion
  }

  /** The labels are exactly 0 to 5, and every emotion code they give has a folder. */
  lemma {:induction false} TablesAgree()
    ensures forall cls :: cls in LabelEmotion <==> 0 <= cls < 6
    ensures forall cls :: cls in LabelEmotion ==> LabelEmotion[cls] in EmotionFolder
  {
    forall cls | cls in LabelEmotion ensures 0 <= cls < 6 && LabelEmotion[cls] in EmotionFolder {
      if cls == 0 { assert LabelEmotion[cls] == "hap"; }
      else if cls == 1 { assert LabelEmotion[cls] == "sad"; }
      else if cls == 2 { assert LabelEmotion[cls] == "neu"; }
      else if cls == 3 { assert LabelEmotion[cls] == "ang"; }
      else if cls == 4 { assert LabelEmotion[cls] == "exc"; }
      else { assert cls == 5; assert LabelEmotion[cls] == "fru"; }
    }
  }

  function SpectrogramPath(folder: string, title: string): string
  {
    ProcessedFolder + "/" + folder + "/" + title + ".wav.jpeg"
  }

  /** A built path is never empty, so the empty string is free to mean "no match". */
  lemma PathIsNotEmpty(folder: string, title: string)
    ensures SpectrogramPath(folder, title) != ""
  {
  }

  /** Within one folder the path determines the title. */
  lemma {:induction false} PathDeterminesTitle(folder: string, t1: string, t2: string)
    requires SpectrogramPath(folder, t1) == SpectrogramPath(folder, t2)
    ensures t1 == t2
  {
    var head := ProcessedFolder + "/" + folder + "/";
    var p1, p2 := SpectrogramPath(folder, t1), SpectrogramPath(folder, t2);
    assert p1 == head + t1 + ".wav.jpeg" && p2 == head + t2 + ".wav.jpeg";
    assert |t1| == |t2|;
    assert t1 == p1[|head|..|head| + |t1|];
    assert t2 == p2[|head|..|head| + |t2|];
  }

  /** The index of the first matching row at or after `from`, if any. */
  function FirstMatch(rows: seq<TranscriptRow>, utterance: string, emotion: string, from: nat): (r: Option<nat>)
    requires from <= |rows|
    ensures r.Some? ==> from <= r.value < |rows| && RowMatches(rows[r.value], utterance, emotion)
    ensures r.Some? ==> forall j :: from <= j < r.value ==> !RowMatches(rows[j], utterance, emotion)
    ensures r.None? <==> forall j :: from <= j < |rows| ==> !RowMatches(rows[j], utterance, emotion)
    decreases |rows| - from
  {
    if from == |rows| then None
    else if RowMatches(rows[from], utterance, emotion) then Some(from)
    else FirstMatch(rows, utterance, emotion, from + 1)
  }

  /**
   * The path for one utterance: the label must be one of the six classes;
   * the first matching row gives the path, and no matching row gives "".
   */
  function Resolve(utterance: string, cls: int, rows: seq<TranscriptRow>): (r: Result<string, Failure>)
    ensures r.Ok? <==> 0 <= cls < 6
    ensures r.Ok? ==> cls in LabelEmotion && LabelEmotion[cls] in EmotionFolder
    ensures r.Err? ==> r.error == MissingKey
  {
    // The emotion table's keys are exactly the classes 0 to 5 (TablesAgree).
    if !(0 <= cls < 6) then Err(MissingKey)
    else
      assert cls in LabelEmotion && LabelEmotion[cls] in EmotionFolder by { TablesAgree(); }
      var emotion := LabelEmotion[cls];
      Ok(MatchedPath(utterance, emotion, rows))
  }

  /** The path named by the first row matching the utterance and emotion, or "" if none does. */
  function MatchedPath(utterance: string, emotion: string, rows: seq<TranscriptRow>): string
    requires emotion in EmotionFolder
  {
    var m := FirstMatch(rows, utterance, emotion, 0);
    if m.None? then ""
    else SpectrogramPath(EmotionFolder[emotion], rows[m.value].title)
  }

  /** With no matching row the resolver yields the empty path. */
  lemma ResolveNoMatch(utterance: string, cls: int, rows: seq<TranscriptRow>)
    requires cls in LabelEmotion
    requires forall j :: 0 <= j < |rows| ==> !RowMatches(rows[j], utterance, LabelEmotion[cls])
    ensures Resolve(utterance, cls, rows) == Ok("")
  {
  }

  /** The first matching row, in row order, names the file, in the folder of the label's emotion. */
  lemma ResolveFirstMatch(utterance: string, cls: int, rows: seq<TranscriptRow>, k: nat)
    requires cls in LabelEmotion && k < |rows|
    requires RowMatches(rows[k], utterance, LabelEmotion[cls])
    requires forall j :: 0 <= j < k ==> !RowMatches(rows[j], utterance, LabelEmotion[cls])
    ensures LabelEmotion[cls] in EmotionFolder
    ensures Resolve(utterance, cls, rows) == Ok(SpectrogramPath(EmotionFolder[LabelEmotion[cls]], rows[k].title))
  {
    TablesAgree();
    var m := FirstMatch(rows, utterance, LabelEmotion[cls], 0);
    assert m.Some?;
    assert m.value == k;
  }

  /** Conversely, a non-empty path comes from a matching row with no matching row before it. */
  lemma ResolveFoundOnlyOnMatch(utterance: string, cls: int, rows: seq<TranscriptRow>)
    requires Resolve(utterance, cls, rows).Ok? && Resolve(utterance, cls, rows).value != ""
    ensures exists k ::
      && 0 <= k < |rows| && RowMatches(rows[k], utterance, LabelEmotion[cls])
      && (forall j :: 0 <= j < k ==> !RowMatches(rows[j], utterance, LabelEmotion[cls]))
      && Resolve(utterance, cls, rows).value == SpectrogramPath(EmotionFolder[LabelEmotion[cls]], rows[k].title)
  {
    TablesAgree();
    var m := FirstMatch(rows, utterance, LabelEmotion[cls], 0);
    assert m.Some?;
  }

  /**
   * The resolver's scan: rows in file order; the first match sets the path
   * and ends the scan, and with no match the path stays empty.
   */
  method ResolveSpectrogram(utterance: string, cls: int, rows: seq<TranscriptRow>) returns (r: Result<string, Failure>)
    ensures r == Resolve(utterance, cls, rows)
  {
    var path := "";
    if cls !in LabelEmotion {
      TablesAgree();
      return Err(MissingKey);
    }
    var emotion := LabelEmotion[cls];
    var i := 0;
    while i < |rows|
      invariant 0 <= i <= |rows|
      invariant path == ""
      invariant forall j :: 0 <= j < i ==> !RowMatches(rows[j], utterance, emotion)
    {
      if Strip(rows[i].toTranslate) == utterance && Strip(rows[i].emotion) == emotion {
        ResolveFirstMatch(utterance, cls, rows, i);
        path := SpectrogramPath(EmotionFolder[emotion], rows[i].title);
        break;
      }
      i := i + 1;
    }
    if i == |rows| {
      ResolveNoMatch(utterance, cls, rows);
    }
    return Ok(path);
  }

  /** The paths for the first `n` (utterance, label) pairs, failing at the first unknown label. */
  function ResolveAll(conv: seq<string>, labels: seq<int>, rows: seq<TranscriptRow>, n: nat): (r: Result<seq<string>, Failure>)
    requires n <= |conv| && n <= |labels|
    ensures r.Ok? <==> forall k :: 0 <= k < n ==> 0 <= labels[k] < 6
    ensures r.Err? ==> r.error == MissingKey
    ensures r.Ok? ==> |r.value| == n
  {
    if n == 0 then Ok([])
    else
      var prefix :- ResolveAll(conv, labels, rows, n - 1);
      var path :- Resolve(conv[n - 1], labels[n - 1], rows);
      Ok(prefix + [path])
  }

  /** Entry `k` of the path list is the resolver's answer for utterance `k` and label `k`. */
  lemma {:induction false} ResolveAllAt(conv: seq<string>, labels: seq<int>, rows: seq<TranscriptRow>, n: nat, k: nat)
    requires n <= |conv| && n <= |labels| && k < n
    requires ResolveAll(conv, labels, rows, n).Ok?
    ensures Resolve(conv[k], labels[k], rows) == Ok(ResolveAll(conv, labels, rows, n).value[k])
  {
    if k < n - 1 {
      ResolveAllAt(conv, labels, rows, n - 1, k);
    }
  }

  function ZipLength(conv: seq<string>, labels: seq<int>): (n: nat)
    ensures n <= |conv| && n <= |labels| && (n == |conv| || n == |labels|)
  {
    if |conv| <= |labels| then |conv| else |labels|
  }

  /**
   * The path list of one conversation: utterances zipped with their labels,
   * one path per pair in conversation order, the zip stopping at the shorter.
   */
  method SpectrogramPathList(conv: seq<string>, labels: seq<int>, rows: seq<TranscriptRow>) returns (r: Result<seq<string>, Failure>)
    ensures r == ResolveAll(conv, labels, rows, ZipLength(conv, labels))
  {
    var paths: seq<string> := [];
    var n := ZipLength(conv, labels);
    for i := 0 to n
      invariant ResolveAll(conv, labels, rows, i) == Ok(paths)
    {
      var p := ResolveSpectrogram(conv[i], labels[i], rows);
      if p.Err? {
        ResolveAllFails(conv, labels, rows, i, n);
        return Err(p.error);
      }
      paths := paths + [p.value];
    }
    return Ok(paths);
  }

  lemma {:induction false} ResolveAllFails(conv: seq<string>, labels: seq<int>, rows: seq<TranscriptRow>, i: nat, n: nat)
    requires i < n <= |conv| && n <= |labels|
    requires !(0 <= labels[i] < 6)
    ensures ResolveAll(conv, labels, rows, n) == Err(MissingKey)
  {
  }

  /** A repeated (text, emotion) row never displaces an earlier one. */
  lemma FirstRowWins(utterance: string, cls: int, rows: seq<TranscriptRow>, later: seq<TranscriptRow>)
    requires Resolve(utterance, cls, rows) != Ok("") && Resolve(utterance, cls, rows).Ok?
    ensures Resolve(utterance, cls, rows + later) == Resolve(utterance, cls, rows)
  {
    TablesAgree();
    var emotion := LabelEmotion[cls];
    var m := FirstMatch(rows, utterance, emotion, 0);
    assert m.Some?;
    var all := rows + later;
    ResolveFirstMatch(utterance, cls, all, m.value);
    assert forall j :: 0 <= j < |rows| ==> all[j] == rows[j];
  }
}
