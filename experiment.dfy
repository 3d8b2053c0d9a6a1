/** The experiment settings of nfb_studio/experiment.py and the mapping that turns
    them into the dict the experiment file is written from. */
module Experiments {
  import opened Common

  /** Display names of the inlet types and the values written to the file. */
  const InletTypeExportValues: map<string, string> := map[
    "LSL stream" := "lsl",
    "LSL file stream" := "lsl_from_file",
    "LSL generator" := "lsl_generator",
    "Field trip buffer" := "ftbuffer"
  ]

  /** The export table read backwards: written value to display name. */
  function InletTypeImportValues(): (m: map<string, string>)
    ensures m.Keys == InletTypeExportValues.Values
  {
    map k | k in InletTypeExportValues :: InletTypeExportValues[k] := k
  }

  /** The two tables are inverse to each other, in both directions. */
  lemma InletTablesInverse()
    ensures forall k :: k in InletTypeExportValues ==>
      InletTypeExportValues[k] in InletTypeImportValues() && InletTypeImportValues()[InletTypeExportValues[k]] == k
    ensures forall v :: v in InletTypeImportValues() ==>
      InletTypeImportValues()[v] in InletTypeExportValues && InletTypeExportValues[InletTypeImportValues()[v]] == v
  {
  }

  /** The prefilter band: a lower and an upper frequency, each possibly unset. */
  type Band = (Option<real>, Option<real>)

  /** The experiment's settings. Signals, blocks, groups and sequence entries are
      objects defined outside this model; they are kept as opaque values. */
  datatype Experiment = Experiment(
    name: string,
    lslStreamName: string,
    inlet: string,
    rawDataPath: string,
    hostnamePort: string,
    dc: bool,
    prefilterBand: Band,
    plotRaw: bool,
    plotSignals: bool,
    showSubjectWindow: bool,
    discardChannels: string,
    referenceSub: string,
    showProtoRectangle: bool,
    showNotchFilters: bool,
    signals: seq<Value>,
    blocks: set<Value>,
    groups: set<Value>,
    sequence: seq<Value>)

  /** A new experiment: named "Experiment", reading the LSL stream "NVX136_Data",
      no band, every flag off and no signals, blocks, groups or sequence. */
  function NewExperiment(): (e: Experiment)
    ensures e.name == "Experiment" && e.lslStreamName == "NVX136_Data" && e.inlet == "lsl"
    ensures e.inlet in InletTypeImportValues()
    ensures e.rawDataPath == "" && e.hostnamePort == "" && e.discardChannels == "" && e.referenceSub == ""
    ensures e.prefilterBand == (None, None)
    ensures !e.dc && !e.plotRaw && !e.plotSignals && !e.showSubjectWindow
    ensures !e.showProtoRectangle && !e.showNotchFilters
    ensures e.signals == [] && e.blocks == {} && e.groups == {} && e.sequence == []
  {
    Experiment("Experiment", "NVX136_Data", "lsl", "", "", false, (None, None),
               false, false, false, "", "", false, false, [], {}, {}, [])
  }

  /** What the model takes from the Python interpreter: the text `str` gives a
      float, and the order in which `list` lists the elements of a set. */
  datatype Interpreter = Interpreter(showFloat: real -> string, listSet: set<Value> -> seq<Value>)

  /** The interpreter behaves as Python does where the model relies on it: the
      text of a float has no space and is never "None", and listing a set gives
      each element once. */
  ghost predicate Faithful(py: Interpreter)
  {
    FloatText(py) && Enumerates(py)
  }

  /** The text of a float has no space and is never "None". */
  ghost predicate FloatText(py: Interpreter)
  {
    forall r :: ' ' !in py.showFloat(r) && py.showFloat(r) != "None"
  }

  /** Listing a set gives each of its elements once, and nothing else. */
  ghost predicate Enumerates(py: Interpreter)
  {
    (forall s :: |py.listSet(s)| == |s|) &&
    (forall s, x {:trigger x in py.listSet(s)} :: x in py.listSet(s) <==> x in s)
  }

  /** Python's `str` of an optional number. */
  function Str(x: Option<real>, py: Interpreter): string
  {
    match x
    case None => "None"
    case Some(r) => py.showFloat(r)
  }

  /** The band as written to the file: both ends separated by one space. */
  function BandString(band: Band, py: Interpreter): string
  {
    Str(band.0, py) + " " + Str(band.1, py)
  }

  /** The number of characters before the first space (all of them if none). */
  function SpaceIndex(s: string): (n: nat)
    ensures n <= |s|
    ensures ' ' !in s[..n]
    ensures n < |s| ==> s[n] == ' '
  {
    if |s| == 0 || s[0] == ' ' then 0
    else
      assert s[..1 + SpaceIndex(s[1..])] == [s[0]] + s[1..][..SpaceIndex(s[1..])];
      1 + SpaceIndex(s[1..])
  }

  /** In a string joined by a space, the first space is the joining one when the
      left part has none. */
  lemma {:induction false} SpaceIndexOfJoin(a: string, b: string)
    requires ' ' !in a
    ensures SpaceIndex(a + " " + b) == |a|
  {
    if a != [] {
      assert (a + " " + b)[0] == a[0];
      assert (a + " " + b)[1..] == a[1..] + " " + b;
      SpaceIndexOfJoin(a[1..], b);
    }
  }

  /** Two strings joined by a space split back at the first space when the left
      one has none. */
  lemma SplitAtSpace(a1: string, b1: string, a2: string, b2: string)
    requires ' ' !in a1 && ' ' !in a2
    requires a1 + " " + b1 == a2 + " " + b2
    ensures a1 == a2 && b1 == b2
  {
    var s := a1 + " " + b1;
    SpaceIndexOfJoin(a1, b1);
    SpaceIndexOfJoin(a2, b2);
    assert a1 == s[..|a1|] == a2;
    assert b1 == s[|a1| + 1..] == b2;
  }

  /** The band string determines the text of each end. */
  lemma BandStringDeterminesEnds(b1: Band, b2: Band, py: Interpreter)
    requires FloatText(py)
    requires BandString(b1, py) == BandString(b2, py)
    ensures Str(b1.0, py) == Str(b2.0, py) && Str(b1.1, py) == Str(b2.1, py)
  {
    assert ' ' !in Str(b1.0, py);
    assert ' ' !in Str(b2.0, py);
    SplitAtSpace(Str(b1.0, py), Str(b1.1, py), Str(b2.0, py), Str(b2.1, py));
  }

  /** "None None" is the band string of the unset band, and of no other. */
  lemma UnsetBandString(band: Band, py: Interpreter)
    requires FloatText(py)
    ensures BandString(band, py) == "None None" <==> band == (None, None)
  {
    if BandString(band, py) == "None None" {
      assert BandString(band, py) == BandString((None, None), py);
      BandStringDeterminesEnds(band, (None, None), py);
    }
  }

  /** The default band is written "None None". */
  lemma DefaultBandString(py: Interpreter)
    ensures BandString(NewExperiment().prefilterBand, py) == "None None"
  {
  }

  /** One way to list a set, showing that a faithful listing exists. */
  ghost function ListOf(s: set<Value>): seq<Value>
    decreases |s|
  {
    if s == {} then []
    else
      var x :| x in s;
      [x] + ListOf(s - {x})
  }

  /** `ListOf(s)` holds the elements of `s`, each once. */
  lemma {:induction false} ListOfElements(s: set<Value>)
    ensures |ListOf(s)| == |s|
    ensures forall x :: x in ListOf(s) <==> x in s
    decreases |s|
  {
    if s != {} {
      var x :| x in s && ListOf(s) == [x] + ListOf(s - {x});
      ListOfElements(s - {x});
    }
  }

  /** The requirements on the interpreter can be met. */
  lemma FaithfulExists()
    ensures exists py :: Faithful(py)
  {
    var py := Interpreter(r => "0", s => ListOf(s));
    forall s ensures |py.listSet(s)| == |s| && (forall x :: x in py.listSet(s) <==> x in s) {
      ListOfElements(s);
    }
    assert Faithful(py);
  }

  /** The encoder hook for booleans: `{"#text": str(int(b))}`. */
  function BoolHook(b: bool): (m: map<string, string>)
    ensures m.Keys == {"#text"}
    ensures m["#text"] in {"0", "1"}
    ensures m["#text"] == "1" <==> b
  {
    map["#text" := if b then "1" else "0"]
  }

  /** The keys `nfb_export_data` writes: seventeen scalar settings and four
      collections. */
  datatype Key =
    | SExperimentName | SStreamName | SPrefilterBand | BDC | SInletType
    | SRawDataFilePath | SFTHostnamePort | BPlotRaw | BPlotSignals | BPlotSourceSpace
    | BShowSubjectWindow | FRewardPeriodS | SReference | SReferenceSub | BUseExpyriment
    | BShowPhotoRectangle | SVizNotchFilters
    | VSignals | VProtocols | VPGroups | VPSequence

  /** The key as written into the dict. */
  function KeyName(k: Key): string
  {
    match k
    case SExperimentName => "sExperimentName"
    case SStreamName => "sStreamName"
    case SPrefilterBand => "sPrefilterBand"
    case BDC => "bDC"
    case SInletType => "sInletType"
    case SRawDataFilePath => "sRawDataFilePath"
    case SFTHostnamePort => "sFTHostnamePort"
    case BPlotRaw => "bPlotRaw"
    case BPlotSignals => "bPlotSignals"
    case BPlotSourceSpace => "bPlotSourceSpace"
    case BShowSubjectWindow => "bShowSubjectWindow"
    case FRewardPeriodS => "fRewardPeriodS"
    case SReference => "sReference"
    case SReferenceSub => "sReferenceSub"
    case BUseExpyriment => "bUseExpyriment"
    case BShowPhotoRectangle => "bShowPhotoRectangle"
    case SVizNotchFilters => "sVizNotchFilters"
    case VSignals => "vSignals"
    case VProtocols => "vProtocols"
    case VPGroups => "vPGroups"
    case VPSequence => "vPSequence"
  }

  /** Distinct keys are written as distinct strings. */
  lemma KeyNameInjective(k1: Key, k2: Key)
    ensures KeyName(k1) == KeyName(k2) <==> k1 == k2
  {
  }

  const AllKeys: set<Key> := {
    SExperimentName, SStreamName, SPrefilterBand, BDC, SInletType,
    SRawDataFilePath, SFTHostnamePort, BPlotRaw, BPlotSignals, BPlotSourceSpace,
    BShowSubjectWindow, FRewardPeriodS, SReference, SReferenceSub, BUseExpyriment,
    BShowPhotoRectangle, SVizNotchFilters,
    VSignals, VProtocols, VPGroups, VPSequence
  }

  /** The three keys written with a fixed value, whatever the experiment. */
  predicate IsConstantKey(k: Key)
  {
    k == BPlotSourceSpace || k == FRewardPeriodS || k == BUseExpyriment
  }

  /** A one-entry dict wrapping a list, as the collections are exported. */
  function Wrap(key: string, items: seq<Value>): (v: Value)
    ensures v.Dict? && v.entries.Keys == {key} && v.entries[key] == List(items)
  {
    Dict(map[key := List(items)])
  }

  /** The dict `nfb_export_data` builds, keyed by `Key` (the string written for
      each key is `KeyName`, which is injective): seventeen scalar keys, of which
      three hold constants and the others copy one field each, and the four
      collections, each wrapped in a one-entry dict. It is built fresh; the
      experiment is a value and is not changed. */
  function NfbExportData(e: Experiment, py: Interpreter): (data: map<Key, Value>)
    ensures data.Keys == AllKeys
  {
    map k | k in AllKeys :: ExportValue(e, py, k)
  }

  /** The value `nfb_export_data` writes under one key. */
  function ExportValue(e: Experiment, py: Interpreter, k: Key): Value
  {
    match k
    case SExperimentName => Text(e.name)
    case SStreamName => Text(e.lslStreamName)
    case SPrefilterBand => Text(BandString(e.prefilterBand, py))
    case BDC => Flag(e.dc)
    case SInletType => Text(e.inlet)
    case SRawDataFilePath => Text(e.rawDataPath)
    case SFTHostnamePort => Text(e.hostnamePort)
    case BPlotRaw => Flag(e.plotRaw)
    case BPlotSignals => Flag(e.plotSignals)
    case BPlotSourceSpace => Int(0)
    case BShowSubjectWindow => Flag(e.showSubjectWindow)
    case FRewardPeriodS => Num(0.25)
    case SReference => Text(e.discardChannels)
    case SReferenceSub => Text(e.referenceSub)
    case BUseExpyriment => Int(0)
    case BShowPhotoRectangle => Flag(e.showProtoRectangle)
    case SVizNotchFilters => Flag(e.showNotchFilters)
    case VSignals => Wrap("DerivedSignal", e.signals)
    case VProtocols => Wrap("FeedbackProtocol", py.listSet(e.blocks))
    case VPGroups => Wrap("PGroup", py.listSet(e.groups))
    case VPSequence => Wrap("s", e.sequence)
  }

  /** Equal exports hold equal values under every key. */
  lemma SameExportSameValue(e1: Experiment, e2: Experiment, py: Interpreter, k: Key)
    requires NfbExportData(e1, py) == NfbExportData(e2, py)
    ensures ExportValue(e1, py, k) == ExportValue(e2, py, k)
  {
    assert k in AllKeys;
    assert NfbExportData(e1, py)[k] == NfbExportData(e2, py)[k];
  }

  /** The three fixed keys hold 0, 0.25 and 0 for every experiment. */
  lemma ExportConstants(e: Experiment, py: Interpreter)
    ensures NfbExportData(e, py)[BPlotSourceSpace] == Int(0)
    ensures NfbExportData(e, py)[FRewardPeriodS] == Num(0.25)
    ensures NfbExportData(e, py)[BUseExpyriment] == Int(0)
  {
  }

  /** Sample field copies: `sReference` holds the discarded channels and
      `bShowPhotoRectangle` the photo-rectangle flag; the band is its string and
      the collections are wrapped lists. */
  lemma ExportCopies(e: Experiment, py: Interpreter)
    ensures NfbExportData(e, py)[SReference] == Text(e.discardChannels)
    ensures NfbExportData(e, py)[BShowPhotoRectangle] == Flag(e.showProtoRectangle)
    ensures NfbExportData(e, py)[SPrefilterBand] == Text(BandString(e.prefilterBand, py))
    ensures NfbExportData(e, py)[VSignals] == Wrap("DerivedSignal", e.signals)
    ensures NfbExportData(e, py)[VProtocols] == Wrap("FeedbackProtocol", py.listSet(e.blocks))
    ensures NfbExportData(e, py)[VPGroups] == Wrap("PGroup", py.listSet(e.groups))
    ensures NfbExportData(e, py)[VPSequence] == Wrap("s", e.sequence)
  {
  }

  /** An experiment that differs from `e` in the field `k` copies. */
  function Varied(e: Experiment, k: Key): Experiment
  {
    match k
    case SExperimentName => e.(name := e.name + "x")
    case SStreamName => e.(lslStreamName := e.lslStreamName + "x")
    case SPrefilterBand => e.(prefilterBand := (if e.prefilterBand.0.None? then Some(0.0) else None, e.prefilterBand.1))
    case BDC => e.(dc := !e.dc)
    case SInletType => e.(inlet := e.inlet + "x")
    case SRawDataFilePath => e.(rawDataPath := e.rawDataPath + "x")
    case SFTHostnamePort => e.(hostnamePort := e.hostnamePort + "x")
    case BPlotRaw => e.(plotRaw := !e.plotRaw)
    case BPlotSignals => e.(plotSignals := !e.plotSignals)
    case BShowSubjectWindow => e.(showSubjectWindow := !e.showSubjectWindow)
    case SReference => e.(discardChannels := e.discardChannels + "x")
    case SReferenceSub => e.(referenceSub := e.referenceSub + "x")
    case BShowPhotoRectangle => e.(showProtoRectangle := !e.showProtoRectangle)
    case SVizNotchFilters => e.(showNotchFilters := !e.showNotchFilters)
    case VSignals => e.(signals := e.signals + [Nothing])
    case VProtocols => e.(blocks := if Nothing in e.blocks then e.blocks - {Nothing} else e.blocks + {Nothing})
    case VPGroups => e.(groups := if Nothing in e.groups then e.groups - {Nothing} else e.groups + {Nothing})
    case VPSequence => e.(sequence := e.sequence + [Nothing])
    case _ => e
  }

  /** Every key but the three fixed ones depends on the experiment: changing the
      field it copies changes what is written under it. */
  lemma ExportVariesOutsideConstants(e: Experiment, py: Interpreter, k: Key)
    requires Faithful(py)
    requires !IsConstantKey(k)
    ensures NfbExportData(Varied(e, k), py)[k] != NfbExportData(e, py)[k]
  {
    var e2 := Varied(e, k);
    var d1, d2 := NfbExportData(e2, py), NfbExportData(e, py);
    match k {
      case SPrefilterBand =>
        assert Str(e2.prefilterBand.0, py) != Str(e.prefilterBand.0, py);
        if BandString(e2.prefilterBand, py) == BandString(e.prefilterBand, py) {
          BandStringDeterminesEnds(e2.prefilterBand, e.prefilterBand, py);
        }
      case VProtocols =>
        if d1[k] == d2[k] {
          SameWrappedListSameSet("FeedbackProtocol", e2.blocks, e.blocks, py);
        }
      case VPGroups =>
        if d1[k] == d2[k] {
          SameWrappedListSameSet("PGroup", e2.groups, e.groups, py);
        }
      case VSignals =>
        assert |e2.signals| != |e.signals|;
        assert d1[k].entries["DerivedSignal"] != d2[k].entries["DerivedSignal"];
      case VPSequence =>
        assert |e2.sequence| != |e.sequence|;
        assert d1[k].entries["s"] != d2[k].entries["s"];
      case SExperimentName =>
        assert |e2.name| != |e.name|;
      case SStreamName =>
        assert |e2.lslStreamName| != |e.lslStreamName|;
      case SInletType =>
        assert |e2.inlet| != |e.inlet|;
      case SRawDataFilePath =>
        assert |e2.rawDataPath| != |e.rawDataPath|;
      case SFTHostnamePort =>
        assert |e2.hostnamePort| != |e.hostnamePort|;
      case SReference =>
        assert |e2.discardChannels| != |e.discardChannels|;
      case SReferenceSub =>
        assert |e2.referenceSub| != |e.referenceSub|;
      case _ =>
    }
  }

  /** Sets exported as the same wrapped list are equal. */
  lemma SameWrappedListSameSet(key: string, s1: set<Value>, s2: set<Value>, py: Interpreter)
    requires Enumerates(py)
    requires Wrap(key, py.listSet(s1)) == Wrap(key, py.listSet(s2))
    ensures s1 == s2
  {
    SameWrapSameItems(key, py.listSet(s1), py.listSet(s2));
    forall x | x in s1 ensures x in s2 {
      assert x in py.listSet(s1);
    }
    forall x | x in s2 ensures x in s1 {
      assert x in py.listSet(s2);
    }
  }

  /** Nothing but the band's number formatting is lost by the export: two
      experiments with the same exported dict agree on every other field. */
  lemma ExportDeterminesFields(e1: Experiment, e2: Experiment, py: Interpreter)
    requires Faithful(py)
    requires NfbExportData(e1, py) == NfbExportData(e2, py)
    ensures e1.name == e2.name && e1.lslStreamName == e2.lslStreamName && e1.inlet == e2.inlet
    ensures e1.rawDataPath == e2.rawDataPath && e1.hostnamePort == e2.hostnamePort && e1.dc == e2.dc
    ensures e1.plotRaw == e2.plotRaw && e1.plotSignals == e2.plotSignals && e1.showSubjectWindow == e2.showSubjectWindow
    ensures e1.discardChannels == e2.discardChannels && e1.referenceSub == e2.referenceSub
    ensures e1.showProtoRectangle == e2.showProtoRectangle && e1.showNotchFilters == e2.showNotchFilters
    ensures e1.signals == e2.signals && e1.blocks == e2.blocks && e1.groups == e2.groups && e1.sequence == e2.sequence
    ensures Str(e1.prefilterBand.0, py) == Str(e2.prefilterBand.0, py)
    ensures Str(e1.prefilterBand.1, py) == Str(e2.prefilterBand.1, py)
  {
    ExportDeterminesScalars(e1, e2, py);
    ExportDeterminesCollections(e1, e2, py);
    SameExportSameValue(e1, e2, py, SPrefilterBand);
    BandStringDeterminesEnds(e1.prefilterBand, e2.prefilterBand, py);
  }

  /** The scalar fields copied into the export are determined by it. */
  lemma ExportDeterminesScalars(e1: Experiment, e2: Experiment, py: Interpreter)
    requires NfbExportData(e1, py) == NfbExportData(e2, py)
    ensures e1.name == e2.name && e1.lslStreamName == e2.lslStreamName && e1.inlet == e2.inlet
    ensures e1.rawDataPath == e2.rawDataPath && e1.hostnamePort == e2.hostnamePort && e1.dc == e2.dc
    ensures e1.plotRaw == e2.plotRaw && e1.plotSignals == e2.plotSignals && e1.showSubjectWindow == e2.showSubjectWindow
    ensures e1.discardChannels == e2.discardChannels && e1.referenceSub == e2.referenceSub
    ensures e1.showProtoRectangle == e2.showProtoRectangle && e1.showNotchFilters == e2.showNotchFilters
  {
    SameExportSameValue(e1, e2, py, SExperimentName);
    SameExportSameValue(e1, e2, py, SStreamName);
    SameExportSameValue(e1, e2, py, SInletType);
    SameExportSameValue(e1, e2, py, SRawDataFilePath);
    SameExportSameValue(e1, e2, py, SFTHostnamePort);
    SameExportSameValue(e1, e2, py, BDC);
    SameExportSameValue(e1, e2, py, BPlotRaw);
    SameExportSameValue(e1, e2, py, BPlotSignals);
    SameExportSameValue(e1, e2, py, BShowSubjectWindow);
    SameExportSameValue(e1, e2, py, SReference);
    SameExportSameValue(e1, e2, py, SReferenceSub);
    SameExportSameValue(e1, e2, py, BShowPhotoRectangle);
    SameExportSameValue(e1, e2, py, SVizNotchFilters);
  }

  /** The collections are determined by the export. */
  lemma ExportDeterminesCollections(e1: Experiment, e2: Experiment, py: Interpreter)
    requires Enumerates(py)
    requires NfbExportData(e1, py) == NfbExportData(e2, py)
    ensures e1.signals == e2.signals && e1.blocks == e2.blocks && e1.groups == e2.groups && e1.sequence == e2.sequence
  {
    ExportDeterminesLists(e1, e2, py);
    SameExportSameValue(e1, e2, py, VProtocols);
    SameWrappedListSameSet("FeedbackProtocol", e1.blocks, e2.blocks, py);
    SameExportSameValue(e1, e2, py, VPGroups);
    SameWrappedListSameSet("PGroup", e1.groups, e2.groups, py);
  }

  /** The signal list and the sequence are determined by the export. */
  lemma ExportDeterminesLists(e1: Experiment, e2: Experiment, py: Interpreter)
    requires NfbExportData(e1, py) == NfbExportData(e2, py)
    ensures e1.signals == e2.signals && e1.sequence == e2.sequence
  {
    SameExportSameValue(e1, e2, py, VSignals);
    SameWrapSameItems("DerivedSignal", e1.signals, e2.signals);
    SameExportSameValue(e1, e2, py, VPSequence);
    SameWrapSameItems("s", e1.sequence, e2.sequence);
  }

  /** Equal wrapped lists hold equal items. */
  lemma SameWrapSameItems(key: string, l1: seq<Value>, l2: seq<Value>)
    requires Wrap(key, l1) == Wrap(key, l2)
    ensures l1 == l2
  {
    assert Wrap(key, l1).entries[key] == Wrap(key, l2).entries[key];
  }

  /** The export of a new experiment: the band reads "None None", the inlet is
      "lsl" and the signal list and sequence are empty. */
  lemma DefaultExport(py: Interpreter)
    ensures NfbExportData(NewExperiment(), py)[SPrefilterBand] == Text("None None")
    ensures NfbExportData(NewExperiment(), py)[SInletType] == Text("lsl")
    ensures NfbExportData(NewExperiment(), py)[VSignals] == Wrap("DerivedSignal", [])
    ensures NfbExportData(NewExperiment(), py)[VPSequence] == Wrap("s", [])
  {
    DefaultBandString(py);
  }

  /** A new experiment exports its empty block and group sets as empty lists. */
  lemma DefaultExportSets(py: Interpreter)
    requires Enumerates(py)
    ensures NfbExportData(NewExperiment(), py)[VProtocols] == Wrap("FeedbackProtocol", [])
    ensures NfbExportData(NewExperiment(), py)[VPGroups] == Wrap("PGroup", [])
  {
    assert |py.listSet({})| == 0;
  }
}
