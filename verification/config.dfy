/** The dataset name and split accepted when a dataset is constructed. */
module DatasetConfig {
  import opened Wrappers

  datatype DatasetName = IEMOCAP | MELD | EmoryNLP | DailyDialog
  datatype Split = Train | Dev | Test
  datatype Config = Config(name: DatasetName, split: Split)
  datatype ConfigError = UnsupportedDataset | UnsupportedSplit

  const KnownNames: seq<string> := ["IEMOCAP", "MELD", "EmoryNLP", "DailyDialog"]

  /** The split names accepted for the dataset called `name`. */
  function AllowedSplits(name: string): seq<string> {
    if name == "IEMOCAP" then ["train", "test"] else ["train", "dev", "test"]
  }

  function NameText(n: DatasetName): string {
    match n
    case IEMOCAP => "IEMOCAP"
    case MELD => "MELD"
    case EmoryNLP => "EmoryNLP"
    case DailyDialog => "DailyDialog"
  }

  function SplitText(s: Split): string {
    match s
    case Train => "train"
    case Dev => "dev"
    case Test => "test"
  }

  /** IEMOCAP has no development split; the other corpora have all three. */
  predicate Supports(n: DatasetName, s: Split) {
    n == IEMOCAP ==> s != Dev
  }

  function NameOf(name: string): (n: DatasetName)
    requires name in KnownNames
    ensures NameText(n) == name
  {
    if name == "IEMOCAP" then IEMOCAP
    else if name == "MELD" then MELD
    else if name == "EmoryNLP" then EmoryNLP
    else DailyDialog
  }

  function SplitOf(split: string): (s: Split)
    requires split in ["train", "dev", "test"]
    ensures SplitText(s) == split
  {
    if split == "train" then Train else if split == "dev" then Dev else Test
  }

  /**
   * The two assertions at the head of the constructor: the name must be a known
   * corpus, then the split must be one that corpus offers.
   */
  function ParseConfig(name: string, split: string): (r: Result<Config, ConfigError>)
    ensures r.Ok? <==> name in KnownNames && split in AllowedSplits(name)
    ensures r == Err(UnsupportedDataset) <==> name !in KnownNames
    ensures r == Err(UnsupportedSplit) <==> name in KnownNames && split !in AllowedSplits(name)
    ensures r.Ok? ==> NameText(r.value.name) == name && SplitText(r.value.split) == split
    ensures r.Ok? ==> Supports(r.value.name, r.value.split)
  {
    if name !in KnownNames then Err(UnsupportedDataset)
    else if split !in AllowedSplits(name) then Err(UnsupportedSplit)
    else Ok(Config(NameOf(name), SplitOf(split)))
  }

  /** Every supported configuration is accepted when spelled out, and read back unchanged. */
  lemma ParseConfigRoundTrip(c: Config)
    requires Supports(c.name, c.split)
    ensures ParseConfig(NameText(c.name), SplitText(c.split)) == Ok(c)
  {
    var r := ParseConfig(NameText(c.name), SplitText(c.split));
    assert NameText(c.name) in KnownNames;
    assert SplitText(c.split) in AllowedSplits(NameText(c.name));
    assert r.Ok?;
    match r.value.name
    case IEMOCAP => assert c.name == IEMOCAP;
    case MELD => assert c.name == MELD;
    case EmoryNLP => assert c.name == EmoryNLP;
    case DailyDialog => assert c.name == DailyDialog;
  }

  /** IEMOCAP rejects the development split that the other three corpora accept. */
  lemma IemocapHasNoDevSplit()
    ensures ParseConfig("IEMOCAP", "dev") == Err(UnsupportedSplit)
    ensures forall n :: n in ["MELD", "EmoryNLP", "DailyDialog"] ==> ParseConfig(n, "dev").Ok?
  {
  }
}
