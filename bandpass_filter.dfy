/** The bandpass filter node of nfb_studio/widgets/signal_nodes/bandpass_filter.py
    and the rules of its configuration widget. */
module BandpassFilters {
  import opened Common
  import opened Edges

  const DefaultLowerBound: Value := Int(0)
  const DefaultUpperBound: Value := Int(250)

  /** The largest value either spinbox accepts. */
  const MaxFrequency: real := 250.0

  /** The serialized form: the base node's data with the two bounds written on
      top of it. */
  function Serialized(base: map<string, Value>, lower: Value, upper: Value): (data: map<string, Value>)
    ensures data.Keys == base.Keys + {"lower_bound", "upper_bound"}
    ensures data["lower_bound"] == lower && data["upper_bound"] == upper
    ensures forall k :: k in base && k != "lower_bound" && k != "upper_bound" ==> data[k] == base[k]
  {
    base["lower_bound" := lower]["upper_bound" := upper]
  }

  /** What `deserialize` leaves in (lower, upper), starting from (lower0, upper0),
      and whether it raised: the lower bound is read and stored first, so a
      missing upper bound raises KeyError after the lower one has been replaced. */
  function Restored(data: map<string, Value>, lower0: Value, upper0: Value): (r: (Outcome, Value, Value))
    ensures r.0.Pass? <==> "lower_bound" in data && "upper_bound" in data
    ensures r.0.Fail? ==> r.0.error == KeyError
    ensures "lower_bound" in data ==> r.1 == data["lower_bound"]
    ensures r.0.Pass? ==> r.2 == data["upper_bound"]
    ensures r.0.Fail? ==> r.2 == upper0
    ensures "lower_bound" !in data ==> r.1 == lower0
  {
    if "lower_bound" !in data then (Fail(KeyError), lower0, upper0)
    else if "upper_bound" !in data then (Fail(KeyError), data["lower_bound"], upper0)
    else (Pass, data["lower_bound"], data["upper_bound"])
  }

  /** The other direction: serializing after a successful `deserialize`, on top
      of the same data, gives that data back. */
  lemma ReserializeRestored(data: map<string, Value>, lower0: Value, upper0: Value)
    requires "lower_bound" in data && "upper_bound" in data
    ensures var r := Restored(data, lower0, upper0); Serialized(data, r.1, r.2) == data
  {
  }

  /** Deserializing what `serialize` wrote restores both bounds, whatever the node
      held before and whatever the base data holds. */
  lemma RoundTrip(base: map<string, Value>, lower: Value, upper: Value, lower0: Value, upper0: Value)
    ensures Restored(Serialized(base, lower, upper), lower0, upper0) == (Pass, lower, upper)
  {
  }

  /** The spinbox limits `Config.adjust` sets: the upper spinbox's minimum and the
      lower spinbox's maximum. */
  datatype Limits = Limits(upperMinimum: real, lowerMaximum: real)

  /** An enabled bound limits the other spinbox; a disabled one gives the fixed
      range end. */
  function AdjustedLimits(lowerEnabled: bool, lowerValue: real, upperEnabled: bool, upperValue: real): (l: Limits)
  {
    Limits(if lowerEnabled then lowerValue else 0.0, if upperEnabled then upperValue else MaxFrequency)
  }

  /** With both bounds enabled, spinbox values within the limits are ordered: the
      lower one is at most the upper one. */
  lemma AdjustedLimitsOrder(lowerEnabled: bool, lowerValue: real, upperEnabled: bool, upperValue: real)
    ensures var l := AdjustedLimits(lowerEnabled, lowerValue, upperEnabled, upperValue);
      lowerEnabled && upperEnabled ==>
        (lowerValue <= l.lowerMaximum <==> lowerValue <= upperValue) &&
        (upperValue >= l.upperMinimum <==> lowerValue <= upperValue)
    ensures var l := AdjustedLimits(lowerEnabled, lowerValue, upperEnabled, upperValue);
      (!lowerEnabled ==> l.upperMinimum == 0.0) && (!upperEnabled ==> l.lowerMaximum == MaxFrequency)
  {
  }

  /** A bound as `Config.updateModel` writes it: the spinbox value when the
      checkbox is checked, otherwise None. */
  function BoundFromView(enabled: bool, value: real): (v: Value)
    ensures v == Nothing <==> !enabled
    ensures enabled ==> v == Num(value)
  {
    if enabled then Num(value) else Nothing
  }

  /** The part of a Qt double spinbox that `Config` uses: its value, its range and
      whether it accepts input. */
  datatype SpinBox = SpinBox(value: real, minimum: real, maximum: real, enabled: bool)

  /** `v` forced into [lo, hi], as Qt's qBound does. */
  function Bound(lo: real, v: real, hi: real): (b: real)
    requires lo <= hi
    ensures lo <= b <= hi
    ensures lo <= v <= hi ==> b == v
    ensures v < lo ==> b == lo
    ensures v > hi ==> b == hi
  {
    if v < lo then lo else if v > hi then hi else v
  }

  /** `setMinimum(m)`: the maximum is raised to `m` if it was below it, and the
      value is pulled into the new range. */
  function WithMinimum(s: SpinBox, m: real): (t: SpinBox)
    ensures t.minimum == m && t.maximum == (if s.maximum < m then m else s.maximum)
    ensures t.minimum <= t.value <= t.maximum && t.enabled == s.enabled
    ensures s.value <= s.maximum ==> t.value == (if s.value < m then m else s.value)
  {
    var hi := if s.maximum < m then m else s.maximum;
    s.(minimum := m, maximum := hi, value := Bound(m, s.value, hi))
  }

  /** `setMaximum(m)`: the minimum is lowered to `m` if it was above it, and the
      value is pulled into the new range. */
  function WithMaximum(s: SpinBox, m: real): (t: SpinBox)
    ensures t.maximum == m && t.minimum == (if m < s.minimum then m else s.minimum)
    ensures t.minimum <= t.value <= t.maximum && t.enabled == s.enabled
    ensures s.minimum <= s.value ==> t.value == (if m < s.value then m else s.value)
  {
    var lo := if m < s.minimum then m else s.minimum;
    s.(minimum := lo, maximum := m, value := Bound(lo, s.value, m))
  }

  /** The shape the two spinboxes keep: the lower one starts at 0, the upper one
      ends at 250, and each value lies in its own range. */
  predicate ViewValid(lower: SpinBox, upper: SpinBox)
  {
    && lower.minimum == 0.0 && lower.minimum <= lower.value <= lower.maximum <= MaxFrequency
    && upper.maximum == MaxFrequency && 0.0 <= upper.minimum <= upper.value <= upper.maximum
  }

  /** One run of the body of `Config.adjust` on the spinboxes: enable each with its
      checkbox, then set the upper one's minimum and the lower one's maximum. */
  function AdjustPass(lowerEnabled: bool, upperEnabled: bool, lower: SpinBox, upper: SpinBox): (SpinBox, SpinBox)
  {
    var u := WithMinimum(upper.(enabled := upperEnabled), if lowerEnabled then lower.value else 0.0);
    var l := WithMaximum(lower.(enabled := lowerEnabled), if upperEnabled then u.value else MaxFrequency);
    (l, u)
  }

  /** `adjust` as the widget runs it: when the pass moves a spinbox value, the
      spinbox emits valueChanged, which is connected to `adjust` itself, so the
      pass runs once more. */
  function Settled(lowerEnabled: bool, upperEnabled: bool, lower: SpinBox, upper: SpinBox): (SpinBox, SpinBox)
  {
    var p := AdjustPass(lowerEnabled, upperEnabled, lower, upper);
    if p.0.value != lower.value || p.1.value != upper.value then AdjustPass(lowerEnabled, upperEnabled, p.0, p.1)
    else p
  }

  /** The re-entered pass moves no value, so it emits no valueChanged and the
      re-entry stops there; in fact it changes nothing at all. */
  lemma SecondPassStable(lowerEnabled: bool, upperEnabled: bool, lower: SpinBox, upper: SpinBox)
    requires ViewValid(lower, upper)
    ensures var p := AdjustPass(lowerEnabled, upperEnabled, lower, upper);
      ViewValid(p.0, p.1) && AdjustPass(lowerEnabled, upperEnabled, p.0, p.1) == p
  {
  }

  /** What `adjust` leaves in the spinboxes: an enabled lower bound pushes the
      upper value up to it; with the lower bound disabled, an enabled upper bound
      pulls the lower value down to it; so while either bound is enabled the
      lower value is at most the upper one. The limits are those of
      `AdjustedLimits` on the final values. */
  lemma SettledValues(lowerEnabled: bool, upperEnabled: bool, lower: SpinBox, upper: SpinBox)
    requires ViewValid(lower, upper)
    ensures var r := Settled(lowerEnabled, upperEnabled, lower, upper);
      && ViewValid(r.0, r.1) && r.0.enabled == lowerEnabled && r.1.enabled == upperEnabled
      && r.1.value == (if lowerEnabled && upper.value < lower.value then lower.value else upper.value)
      && r.0.value == (if !lowerEnabled && upperEnabled && upper.value < lower.value then upper.value else lower.value)
      && (lowerEnabled || upperEnabled ==> r.0.value <= r.1.value)
      && Limits(r.1.minimum, r.0.maximum) == AdjustedLimits(lowerEnabled, r.0.value, upperEnabled, r.1.value)
  {
    SecondPassStable(lowerEnabled, upperEnabled, lower, upper);
  }

  /** Running `adjust` again on what it left changes nothing. */
  lemma SettledIdempotent(lowerEnabled: bool, upperEnabled: bool, lower: SpinBox, upper: SpinBox)
    requires ViewValid(lower, upper)
    ensures var r := Settled(lowerEnabled, upperEnabled, lower, upper);
      Settled(lowerEnabled, upperEnabled, r.0, r.1) == r
  {
    SecondPassStable(lowerEnabled, upperEnabled, lower, upper);
    var p := AdjustPass(lowerEnabled, upperEnabled, lower, upper);
    SecondPassStable(lowerEnabled, upperEnabled, p.0, p.1);
  }

  class BandpassFilter {
    const node: Node
    var lowerBound: Value
    var upperBound: Value

    /** Title "Bandpass Filter", one input and one output of type Unknown, and the
        default bounds 0 and 250. */
    constructor ()
      ensures fresh(node) && node.title == "Bandpass Filter"
      ensures |node.inputs| == 1 && |node.outputs| == 1
      ensures fresh(node.inputs[0]) && node.inputs[0].parent == node && node.inputs[0].name == "Input"
      ensures node.inputs[0].kind == InputKind && node.inputs[0].dataType == Unknown && node.inputs[0].edges == {}
      ensures fresh(node.outputs[0]) && node.outputs[0].parent == node && node.outputs[0].name == "Output"
      ensures node.outputs[0].kind == OutputKind && node.outputs[0].dataType == Unknown && node.outputs[0].edges == {}
      ensures lowerBound == DefaultLowerBound && upperBound == DefaultUpperBound
    {
      var n := new Node("Bandpass Filter");
      var i := new Connection(n, "Input", InputKind, Unknown);
      var o := new Connection(n, "Output", OutputKind, Unknown);
      n.AddInput(i);
      n.AddOutput(o);
      node := n;
      lowerBound, upperBound := DefaultLowerBound, DefaultUpperBound;
    }

    function LowerBound(): Value
      reads this
    {
      lowerBound
    }

    function UpperBound(): Value
      reads this
    {
      upperBound
    }

    /** Stores any value, None included; no order against the upper bound is
        enforced. */
    method SetLowerBound(value: Value)
      modifies this
      ensures LowerBound() == value && UpperBound() == old(UpperBound())
    {
      lowerBound := value;
    }

    /** Stores any value, None included; no order against the lower bound is
        enforced. */
    method SetUpperBound(value: Value)
      modifies this
      ensures UpperBound() == value && LowerBound() == old(LowerBound())
    {
      upperBound := value;
    }

    /** Writes the two bound keys of the exported signal, and no other. */
    method AddNfbExportData(signal: DictRef)
      modifies signal
      ensures signal.entries.Keys == old(signal.entries.Keys) + {"fBandpassLowHz", "fBandpassHighHz"}
      ensures signal.entries["fBandpassLowHz"] == lowerBound && signal.entries["fBandpassHighHz"] == upperBound
      ensures forall k :: k in old(signal.entries) && k != "fBandpassLowHz" && k != "fBandpassHighHz" ==>
        signal.entries[k] == old(signal.entries[k])
    {
      signal.entries := signal.entries["fBandpassLowHz" := LowerBound()];
      signal.entries := signal.entries["fBandpassHighHz" := UpperBound()];
    }

    /** `base` is what the generic node serialization returns. */
    method Serialize(base: map<string, Value>) returns (data: map<string, Value>)
      ensures data == Serialized(base, lowerBound, upperBound)
    {
      data := base;
      data := data["lower_bound" := LowerBound()];
      data := data["upper_bound" := UpperBound()];
    }

    /** Reads both bounds back through the setters; KeyError for a missing key. */
    method Deserialize(data: map<string, Value>) returns (r: Outcome)
      modifies this
      ensures (r, lowerBound, upperBound) == Restored(data, old(lowerBound), old(upperBound))
    {
      if "lower_bound" !in data {
        return Fail(KeyError);
      }
      SetLowerBound(data["lower_bound"]);
      if "upper_bound" !in data {
        return Fail(KeyError);
      }
      SetUpperBound(data["upper_bound"]);
      r := Pass;
    }
  }

  /** The configuration widget's state: the two checkboxes, the two spinboxes,
      and the node being edited, if any. */
  class Config {
    var node: BandpassFilter?
    var lowerEnabled: bool
    var upperEnabled: bool
    var lower: SpinBox
    var upper: SpinBox

    predicate Valid()
      reads this
    {
      ViewValid(lower, upper)
    }

    /** Both checkboxes checked, both spinboxes at 0 within [0, 250]: the upper
        spinbox keeps Qt's default minimum of 0, since its own `setMinimum(0)` is
        written as a second call on the lower one. */
    constructor ()
      ensures node == null && lowerEnabled && upperEnabled
      ensures lower == SpinBox(0.0, 0.0, MaxFrequency, true) && upper == SpinBox(0.0, 0.0, MaxFrequency, true)
      ensures Valid()
    {
      node := null;
      lowerEnabled, upperEnabled := true, true;
      lower := SpinBox(0.0, 0.0, MaxFrequency, true);
      upper := SpinBox(0.0, 0.0, MaxFrequency, true);
    }

    /** Copy the view into the node: each bound is its spinbox value when its
        checkbox is checked, otherwise None. Without a node, nothing happens. */
    method UpdateModel()
      modifies node
      ensures node != null ==> node.lowerBound == BoundFromView(lowerEnabled, lower.value)
                               && node.upperBound == BoundFromView(upperEnabled, upper.value)
    {
      var n := node;
      if n == null {
        return;
      }
      if lowerEnabled {
        n.lowerBound := Num(lower.value);
      } else {
        n.lowerBound := Nothing;
      }
      if upperEnabled {
        n.upperBound := Num(upper.value);
      } else {
        n.upperBound := Nothing;
      }
    }

    /** One run of the body of `adjust`: propagate the view to the node, enable
        each spinbox with its checkbox, and limit the spinboxes so that the lower
        bound cannot pass the upper one. */
    method AdjustOnce()
      modifies this, node
      ensures node == old(node) && lowerEnabled == old(lowerEnabled) && upperEnabled == old(upperEnabled)
      ensures (lower, upper) == AdjustPass(lowerEnabled, upperEnabled, old(lower), old(upper))
      ensures node != null ==> node.lowerBound == BoundFromView(lowerEnabled, old(lower.value))
                               && node.upperBound == BoundFromView(upperEnabled, old(upper.value))
    {
      UpdateModel();
      lower := lower.(enabled := lowerEnabled);
      upper := upper.(enabled := upperEnabled);
      upper := WithMinimum(upper, if lowerEnabled then lower.value else 0.0);
      lower := WithMaximum(lower, if upperEnabled then upper.value else MaxFrequency);
    }

    /** The `adjust` slot. A spinbox value the pass moves emits valueChanged, and
        that signal calls `adjust` again; the node then gets the final values. */
    method Adjust()
      modifies this, node
      ensures node == old(node) && lowerEnabled == old(lowerEnabled) && upperEnabled == old(upperEnabled)
      ensures (lower, upper) == Settled(lowerEnabled, upperEnabled, old(lower), old(upper))
      ensures old(Valid()) ==> Valid() && (lowerEnabled || upperEnabled ==> lower.value <= upper.value)
      ensures old(Valid()) ==> Limits(upper.minimum, lower.maximum) ==
                               AdjustedLimits(lowerEnabled, lower.value, upperEnabled, upper.value)
      ensures old(Valid()) && node != null ==>
        node.lowerBound == BoundFromView(lowerEnabled, lower.value)
        && node.upperBound == BoundFromView(upperEnabled, upper.value)
    {
      if Valid() {
        SettledValues(lowerEnabled, upperEnabled, lower, upper);
        SecondPassStable(lowerEnabled, upperEnabled, lower, upper);
      }
      var lowerBefore, upperBefore := lower.value, upper.value;
      AdjustOnce();
      if lower.value != lowerBefore || upper.value != upperBefore {
        AdjustOnce();
      }
    }
  }
}
