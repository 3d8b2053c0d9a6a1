/** The envelope detector node of nfb_studio/widgets/signal_nodes/envelope_detector.py
    and the rule of its configuration widget. */
module EnvelopeDetectors {
  import opened Common
  import opened Edges

  /** The type of the node's input: type 103, accepting the outputs of a spatial
      filter and of a bandpass filter. Those two types are defined outside this
      model and are passed in. */
  function InputType(spatialFilterOut: DataType, bandpassFilterOut: DataType): (t: DataType)
    ensures t.Tagged? && t.id == 103
    ensures t.convertibleFrom == [spatialFilterOut, bandpassFilterOut]
  {
    Tagged(103, [spatialFilterOut, bandpassFilterOut])
  }

  /** The type of the node's output: type 104, convertible from nothing else. */
  const OutputType: DataType := Tagged(104, [])

  const DefaultSmoothingFactor: Value := Int(0)
  const DefaultMethod: Value := Text("Rectification")

  /** The entries of the method combo box, in order. */
  const Methods: seq<string> := ["Rectification", "Fourier Transform", "Hilbert Transform", "cFIR"]

  /** The serialized form: the base node's data with the two fields on top of it. */
  function Serialized(base: map<string, Value>, smoothingFactor: Value, methodName: Value): (data: map<string, Value>)
    ensures data.Keys == base.Keys + {"smoothing_factor", "method"}
    ensures data["smoothing_factor"] == smoothingFactor && data["method"] == methodName
    ensures forall k :: k in base && k != "smoothing_factor" && k != "method" ==> data[k] == base[k]
  {
    base["smoothing_factor" := smoothingFactor]["method" := methodName]
  }

  /** What `deserialize` leaves in (smoothing factor, method), starting from
      (smoothing0, method0), and whether it raised: the smoothing factor is stored
      before the method key is looked up. */
  function Restored(data: map<string, Value>, smoothing0: Value, method0: Value): (r: (Outcome, Value, Value))
    ensures r.0.Pass? <==> "smoothing_factor" in data && "method" in data
    ensures r.0.Fail? ==> r.0.error == KeyError
    ensures "smoothing_factor" in data ==> r.1 == data["smoothing_factor"]
    ensures r.0.Pass? ==> r.2 == data["method"]
    ensures r.0.Fail? ==> r.2 == method0
    ensures "smoothing_factor" !in data ==> r.1 == smoothing0
  {
    if "smoothing_factor" !in data then (Fail(KeyError), smoothing0, method0)
    else if "method" !in data then (Fail(KeyError), data["smoothing_factor"], method0)
    else (Pass, data["smoothing_factor"], data["method"])
  }

  /** The other direction: serializing after a successful `deserialize`, on top
      of the same data, gives that data back. */
  lemma ReserializeRestored(data: map<string, Value>, smoothing0: Value, method0: Value)
    requires "smoothing_factor" in data && "method" in data
    ensures var r := Restored(data, smoothing0, method0); Serialized(data, r.1, r.2) == data
  {
  }

  /** Deserializing what `serialize` wrote restores both fields. */
  lemma RoundTrip(base: map<string, Value>, smoothingFactor: Value, methodName: Value, smoothing0: Value, method0: Value)
    ensures Restored(Serialized(base, smoothingFactor, methodName), smoothing0, method0) == (Pass, smoothingFactor, methodName)
  {
  }

  class EnvelopeDetector {
    const node: Node
    var smoothingFactor: Value
    var methodName: Value

    /** Title "Envelope Detector", one input of the input type, one output of
        type 104, smoothing factor 0 and method "Rectification". */
    constructor (spatialFilterOut: DataType, bandpassFilterOut: DataType)
      ensures fresh(node) && node.title == "Envelope Detector"
      ensures |node.inputs| == 1 && |node.outputs| == 1
      ensures fresh(node.inputs[0]) && node.inputs[0].parent == node && node.inputs[0].name == "Input"
      ensures node.inputs[0].kind == InputKind && node.inputs[0].edges == {}
      ensures node.inputs[0].dataType == InputType(spatialFilterOut, bandpassFilterOut)
      ensures fresh(node.outputs[0]) && node.outputs[0].parent == node && node.outputs[0].name == "Output"
      ensures node.outputs[0].kind == OutputKind && node.outputs[0].dataType == OutputType && node.outputs[0].edges == {}
      ensures smoothingFactor == DefaultSmoothingFactor && methodName == DefaultMethod
    {
      var n := new Node("Envelope Detector");
      var i := new Connection(n, "Input", InputKind, InputType(spatialFilterOut, bandpassFilterOut));
      var o := new Connection(n, "Output", OutputKind, OutputType);
      n.AddInput(i);
      n.AddOutput(o);
      node := n;
      smoothingFactor, methodName := DefaultSmoothingFactor, DefaultMethod;
    }

    function SmoothingFactor(): Value
      reads this
    {
      smoothingFactor
    }

    function Method(): Value
      reads this
    {
      methodName
    }

    method SetSmoothingFactor(factor: Value)
      modifies this
      ensures SmoothingFactor() == factor && Method() == old(Method())
    {
      smoothingFactor := factor;
    }

    method SetMethod(m: Value)
      modifies this
      ensures Method() == m && SmoothingFactor() == old(SmoothingFactor())
    {
      methodName := m;
    }

    /** Writes the two keys of the exported signal, and no other. */
    method AddNfbExportData(signal: DictRef)
      modifies signal
      ensures signal.entries.Keys == old(signal.entries.Keys) + {"fSmoothingFactor", "method"}
      ensures signal.entries["fSmoothingFactor"] == smoothingFactor && signal.entries["method"] == methodName
      ensures forall k :: k in old(signal.entries) && k != "fSmoothingFactor" && k != "method" ==>
        signal.entries[k] == old(signal.entries[k])
    {
      signal.entries := signal.entries["fSmoothingFactor" := SmoothingFactor()];
      signal.entries := signal.entries["method" := Method()];
    }

    /** `base` is what the generic node serialization returns. */
    method Serialize(base: map<string, Value>) returns (data: map<string, Value>)
      ensures data == Serialized(base, smoothingFactor, methodName)
    {
      data := base;
      data := data["smoothing_factor" := SmoothingFactor()];
      data := data["method" := Method()];
    }

    /** Reads both fields back through the setters; KeyError for a missing key. */
    method Deserialize(data: map<string, Value>) returns (r: Outcome)
      modifies this
      ensures (r, smoothingFactor, methodName) == Restored(data, old(smoothingFactor), old(methodName))
    {
      if "smoothing_factor" !in data {
        return Fail(KeyError);
      }
      SetSmoothingFactor(data["smoothing_factor"]);
      if "method" !in data {
        return Fail(KeyError);
      }
      SetMethod(data["method"]);
      r := Pass;
    }
  }

  /** The configuration widget's state: the smoothing spinbox value, the index of
      the current combo box entry, and the node being edited, if any. */
  class Config {
    var node: EnvelopeDetector?
    var smoothingValue: real
    var methodIndex: nat

    /** The spinbox stays within [0, 1] and the combo box shows one of its entries. */
    predicate Valid()
      reads this
    {
      0.0 <= smoothingValue <= 1.0 && methodIndex < |Methods|
    }

    constructor ()
      ensures Valid() && node == null && smoothingValue == 0.0 && Methods[methodIndex] == "Rectification"
    {
      node := null;
      smoothingValue := 0.0;
      methodIndex := 0;
    }

    /** The text of the current combo box entry. */
    function CurrentText(): (t: string)
      requires Valid()
      reads this
      ensures t in Methods
    {
      Methods[methodIndex]
    }

    /** Copy the view into the node: the spinbox value and the current method
        name, which is one of the four listed. Without a node, nothing happens. */
    method UpdateModel()
      requires Valid()
      modifies node
      ensures node != null ==> node.smoothingFactor == Num(smoothingValue)
                               && node.methodName == Text(CurrentText())
                               && node.methodName.s in Methods
    {
      var n := node;
      if n == null {
        return;
      }
      n.smoothingFactor := Num(smoothingValue);
      n.methodName := Text(CurrentText());
    }
  }
}
