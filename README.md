# nfb_studio core, modelled in Dafny

nfb_studio is an editor for neurofeedback experiments built with Qt. A user
builds a dataflow graph of signal-processing nodes in a scene. Nodes have input
and output connections, and edges link an output (the edge's source) to an
input (its target). The experiment settings are exported to the file format
of the NFB Lab runtime. This project models six parts of it:

- `edge.dfy` (module `Edges`): the edge's endpoint bookkeeping.
  - `setSource`/`setTarget` move the edge between connections' `edges` sets.
  - Removing the edge from a set it is not in raises `KeyError`.
  - The type check raises `ValueError` after the new attachment is made.
  - The free-position setters, `adjust`, `detachAll` and auto-selection.
  - An invariant over any universe of edges and connections: an edge is in a
    connection's `edges` exactly when it refers to that connection.
    `setSource`, `setTarget`, `attach`, `detach`, `detachAll` and the graph's
    connect and disconnect keep it. `setSourcePos` and `setTargetPos` do not:
    they drop the connection without taking the edge out of its `edges`.
- `scheme.dfy` (module `Schemes`): the scene that is also the graph.
  - `addItem`/`removeItem` keep scene items and graph members in step.
  - Connecting and disconnecting, the selected subgraph, paste and
    deserialize.
  - A "mirrored" invariant: a node or edge is a scene item exactly when it is
    a graph member. It is proved for every sequence of add/remove calls, for
    paste, and, with an exact condition, for deserialize.
- `bandpass_filter.dfy` (module `BandpassFilters`): the bandpass filter node,
  its serialization, and the limits rule of its configuration widget.
  - The spinboxes clamp their values when their range changes, and a moved
    value calls `adjust` again; the result orders the two bounds.
  - Serialize/deserialize are proved to round-trip in both directions.
  - Deserialize raises `KeyError` part-way when a key is missing.
- `envelope_detector.dfy` (module `EnvelopeDetectors`): the envelope detector
  node, its typed connections and serialization, and its configuration
  widget.
- `experiment.dfy` (module `Experiments`): the experiment settings object and
  its `nfb_export_data`.
  - Which keys are written, which hold constants, and that every other key
    depends on its field.
  - The export is injective up to the band's number formatting.
- `text_line_item.dfy` (module `TextLineItems`): the one-line text item.
  - Its newline guard, stored modes, the elision width and the
    alignment-dependent placement of its bounding rectangle.
- `common.dfy` (module `Common`): the shared value types.
  - Errors are `Outcome`/`Result` values: Python `KeyError` and `ValueError`.
  - Python dictionary values are the `Value` datatype.
  - `Point` is a scene coordinate, and `DictRef` a dictionary passed by
    reference.

Objects whose fields the source updates become classes: `Node`,
`Connection`, `Edge`, `Graph`, `Scheme`, the two node kinds, their
configuration widgets and `TextLineItem`. Their methods state in `ensures`
what they return and how the fields they change relate to the old state; the
limits of that are listed under "Left out". The experiment is a value, and its
export is a function.

The project takes the following as parameters, because their code is not part
of this model:

- Whether one data type converts to another: `convertible` (the `convertible`
  function of the node package).
- The text Python's `str` gives a float, and the order in which `list`
  enumerates a set: `Experiments.Interpreter`.
  - The lemmas that need these assume only what Python guarantees: no space
    in a float's text, never `"None"`, each element listed once.
  - `Experiments.FaithfulExists` shows such an interpreter exists.
- Font metrics: `TextLineItems.Metrics`, holding a width, an elision function
  and the small rectangle correction.
- The output types of the spatial filter and bandpass filter nodes:
  parameters of `EnvelopeDetectors.InputType`.
- The data the generic node serialization produces: the `base` parameter of
  `Serialize`.

Where this model and the repository's own description differ, the model
follows the code:

- `targetPos()` returns the source position (see Findings).
- The `TextLineItem` constructor accepts a text with a newline, although the
  class says text must not contain one. Only `setText` refuses it.
- `sVizNotchFilters` is written from the boolean `show_notch_filters`.
- In the upper-bound part of the bandpass configuration widget,
  `bandpass_filter.py:38` sets the LOWER spinbox's minimum. The upper
  spinbox's minimum is left at Qt's default, which is also 0, so the model's
  `Config` starts with both minimums at 0.

## Model

| member | source | states |
|---|---|---|
| Edges.Edge.constructor | nfb_studio/scheme/node/edge.py:16-43 | a new edge has no source, no target, no positions and is not selected |
| Edges.Edge.SourceNode | nfb_studio/scheme/node/edge.py:46-52 | there is a source node exactly when there is a source connection, and then it is that connection's node |
| Edges.Edge.TargetNode | nfb_studio/scheme/node/edge.py:54-60 | there is a target node exactly when there is a target connection, and then it is that connection's node |
| Edges.TargetPosReportsSource | nfb_studio/scheme/node/edge.py:81-86 | whenever the stored source and target positions differ, `targetPos()` does not report the target position, while the corrected getter does |
| Edges.Edge.DataTypeOf | nfb_studio/scheme/node/edge.py:88-98 | an edge has no type exactly when it is attached to nothing; otherwise it has its source's type, or its target's when there is no source |
| Edges.Edge.SourcePos | nfb_studio/scheme/node/edge.py:74-79 | the stored source position |
| Edges.Edge.TargetPos | nfb_studio/scheme/node/edge.py:81-86 | the stored source position, as written (see Findings) |
| Edges.Edge.StoredTargetPos | nfb_studio/scheme/node/edge.py:81-86 | the stored target position, as documented |
| Edges.Edge.Attach | nfb_studio/scheme/node/edge.py:101-105 | attaching to an output makes the connection the source, to an input the target; KeyError, with nothing changed, exactly when that side held another connection that does not hold the edge; otherwise the edge leaves the old connection's `edges` and joins the new one's, the other side is kept, and the type check's outcome is returned; KeyError keeps both positions, ValueError clears the attached side's position and keeps the other's, and success puts the attached side at the connection's tip and the other side at its own connection's tip when it has one; the consistency invariant is kept |
| Edges.Edge.Detach | nfb_studio/scheme/node/edge.py:107-112 | an edge that does not refer to the connection is left alone; KeyError, with nothing changed, exactly when it refers to it without being in its `edges`; otherwise that side is unset and its position cleared, the other side's connection is kept and its position re-read from that connection's tip (kept when it has none), the edge leaves the connection's `edges`, and the consistency invariant is kept |
| Edges.Edge.DetachAll | nfb_studio/scheme/node/edge.py:114-120 | succeeds exactly when the edge is in each attached connection's `edges`; then both ends and the positions of the attached ends are unset and the edge has left both sets; a failure is KeyError, with nothing changed when the source step fails, with the source already detached when the target step fails after a source step, and with both positions kept when the target step fails on an edge with no source; selection flags and the consistency invariant are kept |
| Edges.Edge.SetTarget | nfb_studio/scheme/node/edge.py:122-140 | KeyError, with nothing changed, exactly when the old target is another connection that does not hold the edge; otherwise the edge moves from the old target's `edges` into the new one's, the target position is cleared, the type check's outcome is returned (on ValueError the attachment stays and positions are not refreshed), and the consistency invariant is kept |
| Edges.Edge.SetSource | nfb_studio/scheme/node/edge.py:142-160 | the mirror image of `SetTarget` on the source side, and the edge then takes the new source's type |
| Edges.Edge.SetTargetPos | nfb_studio/scheme/node/edge.py:162-171 | the target connection is dropped without leaving its `edges`, the target end is the given point, and the source end follows its connection |
| Edges.Edge.SetSourcePos | nfb_studio/scheme/node/edge.py:173-182 | the source connection is dropped without leaving its `edges`, the source end is the given point, and the target end follows its connection |
| Edges.Edge.Adjust | nfb_studio/scheme/node/edge.py:246-259 | an attached end takes its connection's tip; a free end keeps its position |
| Edges.Edge.CheckDataType | nfb_studio/scheme/node/edge.py:261-272 | ValueError exactly when both ends are attached and the source's type does not convert to the target's; otherwise no error |
| Edges.Edge.AutoSelect | nfb_studio/scheme/node/edge.py:296-300 | the edge becomes selected exactly when the nodes at both ends exist and are selected |
| Edges.Edge.AutoSelectValue | nfb_studio/scheme/node/edge.py:302-309 | true exactly when both ends are attached and both end nodes are selected |
| Schemes.Scheme.constructor | nfb_studio/widgets/scheme/scheme.py:14-26 | a new scheme has no items and an empty graph |
| Schemes.AddKeepsMirror | nfb_studio/widgets/scheme/scheme.py:28-39 | adding any item keeps every node and edge a scene item exactly when it is a graph member |
| Schemes.RemoveKeepsMirror | nfb_studio/widgets/scheme/scheme.py:41-52 | removing any item keeps the scene mirrored |
| Schemes.ReplayKeepsMirror | nfb_studio/widgets/scheme/scheme.py:28-52 | every sequence of `addItem`/`removeItem` calls keeps the scene mirrored |
| Schemes.Scheme.AddItem | nfb_studio/widgets/scheme/scheme.py:28-39 | a node also joins the graph's nodes, an edge its edges, every item the scene, and a mirrored scene stays mirrored |
| Schemes.Scheme.RemoveItem | nfb_studio/widgets/scheme/scheme.py:41-52 | every item leaves the scene, a node also the graph's nodes, an edge its edges, and a mirrored scene stays mirrored |
| Schemes.Scheme.ConnectNodes | nfb_studio/widgets/scheme/scheme.py:54-58 | ValueError with nothing changed exactly when the types do not convert; otherwise a fresh edge from source to target is in the graph, the scene and both connections' `edges`, and the consistency invariant holds with the new edge added; a mirrored scene stays mirrored |
| Schemes.Scheme.DisconnectNodes | nfb_studio/widgets/scheme/scheme.py:60-63 | an edge is removed exactly when one runs from source to target; it is then detached at both ends and leaves the graph, the scene and both connections' `edges`; with none, nothing changes; KeyError is possible only when the invariant fails for the pair, and then the scene and graph sets are kept; the graph's nodes are never changed; the invariant and the mirror are kept |
| Schemes.Scheme.SelectedGraph | nfb_studio/widgets/scheme/scheme.py:65-75 | a graph node is in the snapshot exactly when it is selected, and a graph edge exactly when it is shadow-selected |
| Schemes.Scheme.ClearSelection | nfb_studio/widgets/scheme/scheme.py:104 | afterwards no node or edge of the scene is selected |
| Schemes.Scheme.ShiftAndAddNodes | nfb_studio/widgets/scheme/scheme.py:109-111 | every pasted node moves by (0.5, 0.5) and joins the scene and the graph |
| Schemes.Scheme.AddEdges | nfb_studio/widgets/scheme/scheme.py:112-113 | every pasted edge joins the scene and the graph |
| Schemes.PasteKeepsMirror | nfb_studio/widgets/scheme/scheme.py:98-113 | pasting keeps the scene mirrored, and every pasted node and edge ends up in both the scene and the graph |
| Schemes.Scheme.Paste | nfb_studio/widgets/scheme/scheme.py:98-113 | with no clipboard text nothing changes; otherwise the old selection is cleared, every pasted node is shifted by (0.5, 0.5) and no other field of it is written (except its selection, if it was already in the scene), everything pasted is added, and a mirrored scene stays mirrored |
| Schemes.DeserializeMirror | nfb_studio/widgets/scheme/scheme.py:133-146 | after deserializing, the node items are exactly the decoded nodes; the scene is mirrored exactly when every edge the graph held before is among the decoded edges, because old edge items are never removed |
| Schemes.Scheme.Deserialize | nfb_studio/widgets/scheme/scheme.py:133-146 | the graph holds the decoded sets, the old nodes have left the scene, the decoded nodes and edges have entered it, and the mirrored condition above holds |
| BandpassFilters.BandpassFilter.constructor | nfb_studio/widgets/signal_nodes/bandpass_filter.py:116-128 | title "Bandpass Filter", one untyped input "Input" and one untyped output "Output" with no edges, bounds 0 and 250 |
| BandpassFilters.BandpassFilter.LowerBound | nfb_studio/widgets/signal_nodes/bandpass_filter.py:130-131 | the stored lower bound |
| BandpassFilters.BandpassFilter.UpperBound | nfb_studio/widgets/signal_nodes/bandpass_filter.py:133-134 | the stored upper bound |
| BandpassFilters.BandpassFilter.SetLowerBound | nfb_studio/widgets/signal_nodes/bandpass_filter.py:136-138 | stores any value as the lower bound, leaving the upper bound alone |
| BandpassFilters.BandpassFilter.SetUpperBound | nfb_studio/widgets/signal_nodes/bandpass_filter.py:140-142 | stores any value as the upper bound, leaving the lower bound alone |
| BandpassFilters.BandpassFilter.AddNfbExportData | nfb_studio/widgets/signal_nodes/bandpass_filter.py:144-147 | the signal dict gains `fBandpassLowHz` and `fBandpassHighHz` holding the bounds, and no other key changes |
| BandpassFilters.Serialized | nfb_studio/widgets/signal_nodes/bandpass_filter.py:149-155 | the serialized dict has the base keys plus `lower_bound` and `upper_bound`, holding the bounds, and every other base entry as it was |
| BandpassFilters.BandpassFilter.Serialize | nfb_studio/widgets/signal_nodes/bandpass_filter.py:149-155 | the method's result is the serialized form of the current bounds |
| BandpassFilters.Restored | nfb_studio/widgets/signal_nodes/bandpass_filter.py:157-161 | success exactly when both keys are present, KeyError otherwise; the lower bound is taken whenever its key exists, even when the upper key is then missing |
| BandpassFilters.BandpassFilter.Deserialize | nfb_studio/widgets/signal_nodes/bandpass_filter.py:157-161 | outcome and new bounds are those of `Restored` |
| BandpassFilters.RoundTrip | nfb_studio/widgets/signal_nodes/bandpass_filter.py:149-161 | deserializing what serialize wrote succeeds and restores both bounds, whatever the node held and the base data contained |
| BandpassFilters.ReserializeRestored | nfb_studio/widgets/signal_nodes/bandpass_filter.py:149-161 | serializing after a successful deserialize, on top of the same data, gives that data back |
| BandpassFilters.Config.constructor | nfb_studio/widgets/signal_nodes/bandpass_filter.py:11-52 | both checkboxes checked, both spinboxes enabled at 0 within [0, 250], no node; the spinbox shape `ViewValid` holds |
| BandpassFilters.BoundFromView | nfb_studio/widgets/signal_nodes/bandpass_filter.py:59-68 | a bound is None exactly when its checkbox is unchecked, and otherwise the spinbox value |
| BandpassFilters.Config.UpdateModel | nfb_studio/widgets/signal_nodes/bandpass_filter.py:54-68 | with a node, each bound becomes its spinbox value when checked and None otherwise |
| BandpassFilters.Bound | nfb_studio/widgets/signal_nodes/bandpass_filter.py:107-114 | the clamp a Qt spinbox applies: the result lies in the range, a value already in it is kept, a value below it becomes the lower end and a value above it the upper end |
| BandpassFilters.WithMinimum | nfb_studio/widgets/signal_nodes/bandpass_filter.py:106-109 | `setMinimum(m)`: the minimum becomes m, the maximum is raised to m if below it, and an in-range value below m becomes m while others are kept |
| BandpassFilters.WithMaximum | nfb_studio/widgets/signal_nodes/bandpass_filter.py:111-114 | `setMaximum(m)`: the maximum becomes m, the minimum is lowered to m if above it, and an in-range value above m becomes m while others are kept |
| BandpassFilters.AdjustPass | nfb_studio/widgets/signal_nodes/bandpass_filter.py:101-114 | one run of `adjust` on the spinboxes: enable each with its checkbox, then the upper minimum, then the lower maximum from the already updated upper value |
| BandpassFilters.Settled | nfb_studio/widgets/signal_nodes/bandpass_filter.py:96-114 | `adjust` with its re-entry through valueChanged, which lines 20 and 37 connect to `adjust`: a second pass when the first moved a spinbox value |
| BandpassFilters.SecondPassStable | nfb_studio/widgets/signal_nodes/bandpass_filter.py:96-114 | from the spinbox shape, the re-entered pass moves no value and changes nothing, so no further valueChanged is emitted |
| BandpassFilters.SettledValues | nfb_studio/widgets/signal_nodes/bandpass_filter.py:96-114 | from the spinbox shape: an enabled lower bound pushes the upper value up to it; with the lower bound disabled an enabled upper bound pulls the lower value down to it; while either is enabled, lower is at most upper; the limits are `AdjustedLimits` of the final values; the shape is kept |
| BandpassFilters.SettledIdempotent | nfb_studio/widgets/signal_nodes/bandpass_filter.py:96-114 | running `adjust` again on what it left changes nothing |
| BandpassFilters.Config.AdjustOnce | nfb_studio/widgets/signal_nodes/bandpass_filter.py:96-114 | the node gets the values seen at the start, and the spinboxes become `AdjustPass` of the old ones |
| BandpassFilters.Config.Adjust | nfb_studio/widgets/signal_nodes/bandpass_filter.py:96-114 | the spinboxes become `Settled` of the old ones; from the spinbox shape the shape is kept, the bounds are ordered while either is enabled, the limits are those of `AdjustedLimits`, and the node holds the final values |
| BandpassFilters.AdjustedLimits | nfb_studio/widgets/signal_nodes/bandpass_filter.py:105-114 | the upper minimum is the lower value when the lower bound is enabled and 0 otherwise; the lower maximum is the upper value when the upper bound is enabled and 250 otherwise |
| BandpassFilters.AdjustedLimitsOrder | nfb_studio/widgets/signal_nodes/bandpass_filter.py:105-114 | with both bounds enabled, the lower value is within its new maximum exactly when it is at most the upper value, and likewise for the upper value and its minimum; a disabled bound gives the range end 0 or 250 |
| EnvelopeDetectors.InputType | nfb_studio/widgets/signal_nodes/envelope_detector.py:11 | the input type is 103 and converts from the spatial filter's and the bandpass filter's output types, in that order |
| EnvelopeDetectors.EnvelopeDetector.constructor | nfb_studio/widgets/signal_nodes/envelope_detector.py:56-64 | title "Envelope Detector", input "Input" of the input type, output "Output" of type 104, smoothing factor 0 and method "Rectification" |
| EnvelopeDetectors.EnvelopeDetector.SmoothingFactor | nfb_studio/widgets/signal_nodes/envelope_detector.py:66-67 | the stored smoothing factor |
| EnvelopeDetectors.EnvelopeDetector.Method | nfb_studio/widgets/signal_nodes/envelope_detector.py:73-74 | the stored method name |
| EnvelopeDetectors.EnvelopeDetector.SetSmoothingFactor | nfb_studio/widgets/signal_nodes/envelope_detector.py:69-71 | stores the factor, leaving the method alone |
| EnvelopeDetectors.EnvelopeDetector.SetMethod | nfb_studio/widgets/signal_nodes/envelope_detector.py:76-78 | stores the method, leaving the smoothing factor alone |
| EnvelopeDetectors.EnvelopeDetector.AddNfbExportData | nfb_studio/widgets/signal_nodes/envelope_detector.py:80-83 | the signal dict gains `fSmoothingFactor` and `method`, and no other key changes |
| EnvelopeDetectors.Serialized | nfb_studio/widgets/signal_nodes/envelope_detector.py:85-90 | the base keys plus `smoothing_factor` and `method`, holding the two fields, and every other base entry as it was |
| EnvelopeDetectors.EnvelopeDetector.Serialize | nfb_studio/widgets/signal_nodes/envelope_detector.py:85-90 | the method's result is the serialized form of the current fields |
| EnvelopeDetectors.Restored | nfb_studio/widgets/signal_nodes/envelope_detector.py:92-96 | success exactly when both keys are present, KeyError otherwise; the smoothing factor is taken whenever its key exists |
| EnvelopeDetectors.EnvelopeDetector.Deserialize | nfb_studio/widgets/signal_nodes/envelope_detector.py:92-96 | outcome and new fields are those of `Restored` |
| EnvelopeDetectors.RoundTrip | nfb_studio/widgets/signal_nodes/envelope_detector.py:85-96 | deserializing what serialize wrote succeeds and restores both fields |
| EnvelopeDetectors.ReserializeRestored | nfb_studio/widgets/signal_nodes/envelope_detector.py:85-96 | serializing after a successful deserialize, on top of the same data, gives that data back |
| EnvelopeDetectors.Config.constructor | nfb_studio/widgets/signal_nodes/envelope_detector.py:16-35 | the spinbox is at 0 within [0, 1], the combo box shows "Rectification", no node |
| EnvelopeDetectors.Config.CurrentText | nfb_studio/widgets/signal_nodes/envelope_detector.py:25-29 | the current combo text is one of the four methods |
| EnvelopeDetectors.Config.UpdateModel | nfb_studio/widgets/signal_nodes/envelope_detector.py:37-43 | with a node, its smoothing factor becomes the spinbox value and its method the current combo text, which is one of the four methods |
| Experiments.InletTypeImportValues | nfb_studio/experiment.py:21 | the import table's keys are exactly the export table's values |
| Experiments.InletTablesInverse | nfb_studio/experiment.py:15-21 | the import and export tables are inverse to each other, in both directions |
| Experiments.NewExperiment | nfb_studio/experiment.py:23-44 | the defaults: named "Experiment", stream "NVX136_Data", an "lsl" inlet that the import table knows, no band, every flag off, no signals, blocks, groups or sequence |
| Experiments.Str | nfb_studio/experiment.py:51 | Python's `str` of an optional float: "None" when unset, the interpreter's float text otherwise |
| Experiments.BandString | nfb_studio/experiment.py:51 | the band written as its two ends' texts joined by one space |
| Experiments.BandStringDeterminesEnds | nfb_studio/experiment.py:51 | two bands with the same band string have the same text at each end |
| Experiments.UnsetBandString | nfb_studio/experiment.py:51 | the band string is "None None" exactly when both ends are unset |
| Experiments.DefaultBandString | nfb_studio/experiment.py:32 | a new experiment's band is written "None None" |
| Experiments.FaithfulExists | nfb_studio/experiment.py:72 | an interpreter whose `list` of a set lists each element once, and whose float text has no space and is never "None", exists |
| Experiments.KeyNameInjective | nfb_studio/experiment.py:49-79 | distinct export keys are written as distinct strings |
| Experiments.Wrap | nfb_studio/experiment.py:67-81 | a collection is written as a one-entry dict holding its list |
| Experiments.ExportValue | nfb_studio/experiment.py:49-81 | the value written under each of the 21 keys: a copied field, a constant, the band string, or a wrapped list |
| Experiments.NfbExportData | nfb_studio/experiment.py:46-83 | the export's keys are exactly the 21 keys |
| Experiments.SameExportSameValue | nfb_studio/experiment.py:46-83 | equal exports agree under every key |
| Experiments.ExportConstants | nfb_studio/experiment.py:58-63 | `bPlotSourceSpace`, `fRewardPeriodS` and `bUseExpyriment` hold 0, 0.25 and 0 for every experiment |
| Experiments.ExportCopies | nfb_studio/experiment.py:51-81 | `sReference` holds the discarded channels, `bShowPhotoRectangle` the photo-rectangle flag, the band its string, and the collections their wrapped lists |
| Experiments.ExportVariesOutsideConstants | nfb_studio/experiment.py:46-83 | every key except the three constant ones depends on the experiment: changing the field it copies changes what is written under it |
| Experiments.SameWrappedListSameSet | nfb_studio/experiment.py:71-77 | two sets exported as the same wrapped list are equal |
| Experiments.SameWrapSameItems | nfb_studio/experiment.py:67-81 | equal wrapped lists hold equal items |
| Experiments.ExportDeterminesScalars | nfb_studio/experiment.py:49-65 | equal exports mean equal copied scalar fields |
| Experiments.ExportDeterminesLists | nfb_studio/experiment.py:67-69 | equal exports mean equal signal lists |
| Experiments.ExportDeterminesCollections | nfb_studio/experiment.py:67-81 | equal exports mean equal signals, blocks, groups and sequence |
| Experiments.ExportDeterminesFields | nfb_studio/experiment.py:46-83 | the export loses nothing but the band's number formatting: equal exports mean equal fields, with the band's ends equal as text |
| Experiments.DefaultExport | nfb_studio/experiment.py:23-83 | a new experiment exports the band "None None", the inlet "lsl", and empty signal and sequence lists |
| Experiments.DefaultExportSets | nfb_studio/experiment.py:42-43 | a new experiment exports its blocks and groups as empty lists |
| Experiments.BoolHook | nfb_studio/experiment.py:92 | a boolean is written as a one-entry `#text` dict holding "1" exactly when it is true and "0" otherwise |
| TextLineItems.OriginLeft | nfb_studio/scheme/text_line_item.py:120-126 | the left flag puts the origin on the left edge; otherwise the right flag puts it on the right edge; otherwise it is at the centre |
| TextLineItems.OriginInside | nfb_studio/scheme/text_line_item.py:120-126 | for every alignment the origin lies on the rectangle |
| TextLineItems.AlignmentPrecedence | nfb_studio/scheme/text_line_item.py:120-126 | AlignHCenter centres; left together with right is left-aligned; right together with centre is right-aligned |
| TextLineItems.ElideWidth | nfb_studio/scheme/text_line_item.py:103-108 | the width text is elided to: the maximum width when there is one, the full text's width otherwise |
| TextLineItems.Elided | nfb_studio/scheme/text_line_item.py:110-111 | the text elided in the given mode to that width |
| TextLineItems.Layout | nfb_studio/scheme/text_line_item.py:113-126 | the rectangle spans the drawn text widened by the correction on both sides, placed by the alignment rule |
| TextLineItems.TextLineItem.constructor | nfb_studio/scheme/text_line_item.py:15-31 | no text gives the empty text; elide right, align left, no maximum width; the item is adjusted, with the origin on the left |
| TextLineItems.TextLineItem.SetText | nfb_studio/scheme/text_line_item.py:33-39 | ValueError exactly when the text has a newline, and then nothing changes; otherwise the text is stored and the item adjusted; the modes are kept |
| TextLineItems.TextLineItem.SetElideMode | nfb_studio/scheme/text_line_item.py:41-47 | the mode is stored, the item adjusted, and the other settings kept |
| TextLineItems.TextLineItem.SetAlignMode | nfb_studio/scheme/text_line_item.py:49-61 | the mode is stored, the item adjusted, and the other settings kept |
| TextLineItems.TextLineItem.SetMaximumWidth | nfb_studio/scheme/text_line_item.py:63-67 | the limit (None for unlimited) is stored, the item adjusted, and the other settings kept |
| TextLineItems.TextLineItem.Adjust | nfb_studio/scheme/text_line_item.py:99-129 | the drawn text is the text elided to the maximum width, or to the full width when there is none; the rectangle is `Layout` of the drawn text; the settings are kept |
| TextLineItems.TextLineItem.Text | nfb_studio/scheme/text_line_item.py:77-78 | the stored text |
| TextLineItems.TextLineItem.ElidedText | nfb_studio/scheme/text_line_item.py:80-81 | the drawn (elided) text computed by the last adjust |
| TextLineItems.TextLineItem.ElideMode | nfb_studio/scheme/text_line_item.py:83-84 | the stored elide mode |
| TextLineItems.TextLineItem.AlignMode | nfb_studio/scheme/text_line_item.py:86-87 | the stored alignment flags |
| TextLineItems.TextLineItem.MaximumWidth | nfb_studio/scheme/text_line_item.py:89-91 | the stored width limit, None for unlimited |
| TextLineItems.TextLineItem.BoundingRect | nfb_studio/scheme/text_line_item.py:131-132 | the rectangle computed by the last adjust |

## Left out

- Painting and geometry are left out: the edge's bezier path and shape, `paint`, `boundingRect` of the edge, z-value and flags, styles and palettes, and the text item's vertical extent. They are drawing, not state.
- `Edge.itemChange` is left out: it runs in Qt's selection-event dispatch and depends on the scene's current selection of nodes. The rule it applies is modelled as `Edge.AutoSelectValue`.
- The getters `source()`, `target()` and `sourcePos()` are the fields themselves.
- A connection's `mapToScene(stemTip())` is modelled as the connection's `tip` field.
- `Node` and `Connection` (`node.py`, `connection.py`) are not part of this model. They are reduced to the fields the core reads.
- `Connection.attach` and `Connection.detach` are not part of this model. `Edges.Connection.Attach` and `Edges.Connection.Detach` are stand-ins: attaching calls `setSource`/`setTarget` by the connection's kind, detaching unsets the side of the edge that refers to the connection.
- `setSourcePos` and `setTargetPos` break the consistency invariant, because the dropped connection keeps the edge in its `edges`. The model states this and does not repair it.
- `convertible` is not part of this model and is a parameter.
- `Graph` and `GraphSnapshot` (`graph.py`) are not part of this model. `Schemes.Graph` is a stand-in: adding and removing are set operations, `connect_nodes` checks convertibility up front and creates a connected edge, `disconnect_nodes` detaches and drops an edge between the two connections, and `deserialize` replaces both sets. Decoding errors in the graph's `deserialize` are not modelled.
- `Scheme.deserialize` (scheme.py:135-136) removes nodes from `self.nodes` while iterating it. `Graph.nodes` is a plain Python set (scheme.py:17), so once a node is removed the loop raises RuntimeError (set changed size during iteration). `Schemes.Scheme.Deserialize` iterates a copy instead and does not model that error.
- Clipboard and encoding are left out: `copySelectedGraph`, the clipboard, and the encoder and decoder. `Scheme.Paste` takes the decoded snapshot, or None when the clipboard holds no text. It does not model failed decoding.
- `getView` and its keyboard shortcuts are widget construction and are left out.
- Scene items (`QGraphicsScene`'s own item list) are a set of `Item` values; other graphics items appear only as `OtherItem`.
- The configuration widgets' `updateView` is not modelled, and neither are the `updateView()` calls in the node setters. `updateView` writes the node's values back into the widgets. It blocks only the spinboxes' signals: the checkboxes' `stateChanged` still calls `adjust`, and its last line calls `adjust`, which calls `updateModel`. So with a configuration widget attached, a value stored by a setter can be replaced by the value its spinbox clamped it to. The setters' contracts hold only for a node with no widget.
- The widgets' layouts, labels, suffixes and single-step settings are left out. For the envelope detector the spinbox clamp is the `Config.Valid` range.
- BandpassFilters.Config.Adjust: the re-entrant `adjust` call that valueChanged makes in the middle of a pass is modelled as a second pass after the first. `SecondPassStable` shows that pass changes nothing, so the final spinboxes and node values are the same. The node writes in between are not ordered as in the widget.
- Qt's spinboxes round their values to two decimals; the model uses the value unrounded.
- `SignalNode`'s own `serialize`/`deserialize` are not part of this model. Its result is the `base` parameter, and its errors are not modelled.
- `SignalNode.Config.node()`: the widget's node is the `node` field.
- The output types of `SpatialFilter` and `BandpassFilter` are defined outside the core files and are parameters of `EnvelopeDetectors.InputType`.
- `Experiment.export` is left out: the XML encoder and the hooks of blocks and groups are not part of this model. Its boolean hook is modelled as `Experiments.BoolHook`.
- `QObject` parenting is left out of the experiment.
- Dictionary insertion order is not modelled. The export is a map from `Experiments.Key`, whose string names are proved distinct.
- Python's `str` of a float and `list` of a set are the `Experiments.Interpreter` parameter. The band lemmas rely only on the float text having no space and not being "None"; the collection lemmas rely only on each element being listed once.
- Signals, blocks, groups and sequence entries are opaque values. Their classes are not part of this model.
- `TextLineItem`'s font (`setFont`, `font`) and font metrics are abstracted as the `Metrics` parameter, fixed at construction. `px(1/72)` is `Metrics.correction`.
- `TextLineItem`'s background rectangle and brush (`setBackgroundBrush`, `backgroundBrush`), `prepareGeometryChange` and `paint` are drawing and are left out.
- `TextLineItem.boundingRect` is modelled by its horizontal extent only.
- Floating point is modelled as `real`, without rounding.

## Findings

| source | as written | input that shows it | evidently intended | confidence | as-written member | corrected member |
|---|---|---|---|---|---|---|
| nfb_studio/scheme/node/edge.py:81-86 | `targetPos()` returns the stored source position | an edge whose source is at one point and whose target was set to another point by `setTargetPos`: `targetPos()` returns the source point | return the stored target position, as its documentation says | not executed | Edges.Edge.TargetPos, shown by Edges.TargetPosReportsSource | Edges.Edge.StoredTargetPos, whose value after `setTargetPos(p)` is `p` by Edges.Edge.SetTargetPos |
