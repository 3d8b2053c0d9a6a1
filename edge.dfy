/** Nodes, their typed connections, and the edges between them: the endpoint
    bookkeeping of nfb_studio/scheme/node/edge.py. */
module Edges {
  import opened Common

  /** A connection's data type: the wildcard Unknown, or a numeric tag together
      with the types it declares itself convertible from. Which pairs are
      convertible is decided by a predicate the callers pass in. */
  datatype DataType = Unknown | Tagged(id: int, convertibleFrom: seq<DataType>)

  /** Inputs are the targets of edges, outputs their sources. */
  datatype Kind = InputKind | OutputKind

  /** A node of the dataflow graph: a title, its connections, and the two pieces
      of scene state the core looks at (selection and position). */
  class Node {
    var title: string
    var inputs: seq<Connection>
    var outputs: seq<Connection>
    var selected: bool
    var position: Point

    constructor (title: string)
      ensures this.title == title && inputs == [] && outputs == []
      ensures !selected && position == Point(0.0, 0.0)
    {
      this.title := title;
      inputs, outputs := [], [];
      selected := false;
      position := Point(0.0, 0.0);
    }

    method AddInput(c: Connection)
      requires c.parent == this && c.kind == InputKind
      modifies this
      ensures inputs == old(inputs) + [c] && outputs == old(outputs)
      ensures title == old(title) && selected == old(selected) && position == old(position)
    {
      inputs := inputs + [c];
    }

    method AddOutput(c: Connection)
      requires c.parent == this && c.kind == OutputKind
      modifies this
      ensures outputs == old(outputs) + [c] && inputs == old(inputs)
      ensures title == old(title) && selected == old(selected) && position == old(position)
    {
      outputs := outputs + [c];
    }
  }

  /** An input or output of a node. `edges` is the set of edges attached to it;
      `tip` is where an attached edge ends, in scene coordinates. */
  class Connection {
    const name: string
    const kind: Kind
    const dataType: DataType
    const parent: Node
    var edges: set<Edge>
    var tip: Point

    constructor (parent: Node, name: string, kind: Kind, dataType: DataType)
      ensures this.parent == parent && this.name == name && this.kind == kind
      ensures this.dataType == dataType && edges == {}
    {
      this.parent, this.name, this.kind, this.dataType := parent, name, kind, dataType;
      edges := {};
      tip := Point(0.0, 0.0);
    }

    /** Attaching an edge to an output makes it the edge's source, to an input its
        target (through `Edge.SetSource` or `Edge.SetTarget`). */
    method Attach(e: Edge, convertible: (DataType, DataType) -> bool) returns (r: Outcome)
      requires e.Valid()
      modifies e, e.source, e.target, this
      ensures e.Valid() && e.selected == old(e.selected) && e.shadowSelected == old(e.shadowSelected)
      ensures r == Fail(KeyError) <==>
        old(Side(e, kind)) != null && old(Side(e, kind)) != this && e !in old(Side(e, kind).edges)
      ensures r == Fail(KeyError) ==> e.source == old(e.source) && e.target == old(e.target) && edges == old(edges)
      ensures r != Fail(KeyError) ==>
        && Linked(e, this) && edges == old(edges) + {e} && r == e.CheckDataType(convertible)
        && (kind == OutputKind ==> e.target == old(e.target))
        && (kind == InputKind ==> e.source == old(e.source))
        && (old(Side(e, kind)) != null && old(Side(e, kind)) != this ==>
              old(Side(e, kind)).edges == old(Side(e, kind).edges) - {e})
      ensures tip == old(tip)
      ensures r == Fail(KeyError) ==> e.sourcePos == old(e.sourcePos) && e.targetPos == old(e.targetPos)
      ensures r == Fail(ValueError) ==>
        && (kind == OutputKind ==> e.sourcePos == None && e.targetPos == old(e.targetPos))
        && (kind == InputKind ==> e.targetPos == None && e.sourcePos == old(e.sourcePos))
      ensures r.Pass? && kind == OutputKind ==>
        e.sourcePos == Some(tip) && e.targetPos == (if e.target != null then Some(e.target.tip) else old(e.targetPos))
      ensures r.Pass? && kind == InputKind ==>
        e.targetPos == Some(tip) && e.sourcePos == (if e.source != null then Some(e.source.tip) else old(e.sourcePos))
      ensures forall es, cs {:trigger Consistent(es, cs)} :: old(allocated(es) && allocated(cs) && Consistent(es, cs)) ==> Consistent(es, cs)
    {
      if kind == OutputKind {
        r := e.SetSource(this, convertible);
      } else {
        r := e.SetTarget(this, convertible);
      }
    }

    /** Detaching unsets the side of the edge that refers to this connection; an
        edge that does not refer to it is left alone. */
    method Detach(e: Edge, convertible: (DataType, DataType) -> bool) returns (r: Outcome)
      requires e.Valid()
      modifies e, this
      ensures e.Valid() && e.selected == old(e.selected) && e.shadowSelected == old(e.shadowSelected)
      ensures r.Fail? <==> old(Linked(e, this)) && e !in old(edges)
      ensures r.Fail? ==> r.error == KeyError
      ensures r.Fail? || !old(Linked(e, this)) ==>
        && e.source == old(e.source) && e.target == old(e.target)
        && e.sourcePos == old(e.sourcePos) && e.targetPos == old(e.targetPos) && edges == old(edges)
      ensures r.Pass? && old(Linked(e, this)) ==>
        && Side(e, kind) == null && edges == old(edges) - {e}
        && (kind == OutputKind ==> e.target == old(e.target) && e.sourcePos == None)
        && (kind == OutputKind ==> e.targetPos == (if e.target != null then Some(e.target.tip) else old(e.targetPos)))
        && (kind == InputKind ==> e.source == old(e.source) && e.targetPos == None)
        && (kind == InputKind ==> e.sourcePos == (if e.source != null then Some(e.source.tip) else old(e.sourcePos)))
      ensures forall es, cs {:trigger Consistent(es, cs)} :: old(allocated(es) && allocated(cs) && Consistent(es, cs)) ==> Consistent(es, cs)
    {
      if kind == OutputKind && e.source == this {
        r := e.SetSource(null, convertible);
      } else if kind == InputKind && e.target == this {
        r := e.SetTarget(null, convertible);
      } else {
        r := Pass;
      }
    }
  }

  /** The connection `e` refers to on the side that connections of kind `k`
      attach to. */
  function Side(e: Edge, k: Kind): Connection?
    reads e
  {
    if k == OutputKind then e.source else e.target
  }

  /** True when `e` refers to `c` on the side `c`'s kind belongs to. */
  predicate Linked(e: Edge, c: Connection)
    reads e
  {
    Side(e, c.kind) == c
  }

  /** The key invariant of the bookkeeping, over a universe of edges and
      connections: every edge in the universe has an output as source and an
      input as target, and it is in a connection's `edges` exactly when it refers
      to that connection. */
  ghost predicate Consistent(es: set<Edge>, cs: set<Connection>)
    reads es, cs
  {
    (forall e :: e in es ==> e.Valid())
    && forall e, c :: e in es && c in cs ==> (e in c.edges <==> Linked(e, c))
  }

  /** A link between an output (its source) and an input (its target); either end
      may instead be a free position, or nothing at all. */
  class Edge {
    var source: Connection?
    var target: Connection?
    var sourcePos: Option<Point>
    var targetPos: Option<Point>
    var selected: bool
    var shadowSelected: bool

    constructor ()
      ensures source == null && target == null && sourcePos == None && targetPos == None
      ensures !selected && !shadowSelected
    {
      source, target := null, null;
      sourcePos, targetPos := None, None;
      selected, shadowSelected := false, false;
    }

    /** The source is an output and the target an input. */
    predicate Valid()
      reads this
    {
      (source != null ==> source.kind == OutputKind)
      && (target != null ==> target.kind == InputKind)
    }

    /** The node the edge starts at, if it has a source connection. */
    function SourceNode(): (n: Node?)
      reads this
      ensures n == null <==> source == null
      ensures source != null ==> n == source.parent
    {
      if source != null then source.parent else null
    }

    /** The node the edge goes to, if it has a target connection. */
    function TargetNode(): (n: Node?)
      reads this
      ensures n == null <==> target == null
      ensures target != null ==> n == target.parent
    {
      if target != null then target.parent else null
    }

    function SourcePos(): Option<Point>
      reads this
    {
      sourcePos
    }

    /** `targetPos()` as written: it returns the stored SOURCE position. */
    function TargetPos(): Option<Point>
      reads this
    {
      sourcePos
    }

    /** `targetPos()` as its documentation intends: the stored target position. */
    function StoredTargetPos(): Option<Point>
      reads this
    {
      targetPos
    }

    /** An edge takes its source's type, failing that its target's; an edge
        attached to nothing has none. */
    function DataTypeOf(): (t: Option<DataType>)
      reads this
      ensures t == None <==> source == null && target == null
      ensures source != null ==> t == Some(source.dataType)
      ensures source == null && target != null ==> t == Some(target.dataType)
    {
      if source != null then Some(source.dataType)
      else if target != null then Some(target.dataType)
      else None
    }

    /** The nodes whose selection `AutoSelectValue` looks at. */
    function EndNodes(): set<Node>
      reads this
    {
      (if source != null then {source.parent} else {}) + (if target != null then {target.parent} else {})
    }

    /** An edge selects itself when the nodes at both of its ends are selected. */
    function AutoSelectValue(): (v: bool)
      reads this, EndNodes()
      ensures v <==> source != null && target != null && source.parent.selected && target.parent.selected
    {
      SourceNode() != null && TargetNode() != null && SourceNode().selected && TargetNode().selected
    }

    /** Select the edge exactly when the nodes at both of its ends are selected. */
    method AutoSelect()
      modifies this`selected
      ensures selected == AutoSelectValue()
    {
      selected := AutoSelectValue();
    }

    /** Nothing to check unless both ends are attached; then the source's type must
        convert to the target's, or ValueError is raised. */
    function CheckDataType(convertible: (DataType, DataType) -> bool): (r: Outcome)
      reads this
      ensures r.Fail? <==> source != null && target != null && !convertible(source.dataType, target.dataType)
      ensures r.Fail? ==> r.error == ValueError
    {
      if source == null || target == null then Pass
      else if convertible(source.dataType, target.dataType) then Pass
      else Fail(ValueError)
    }

    /** An attached side takes its position from its connection; a free side keeps
        the position it has. */
    method Adjust()
      modifies this`sourcePos, this`targetPos
      ensures sourcePos == if source != null then Some(source.tip) else old(sourcePos)
      ensures targetPos == if target != null then Some(target.tip) else old(targetPos)
    {
      if source != null {
        sourcePos := Some(source.tip);
      }
      if target != null {
        targetPos := Some(target.tip);
      }
    }

    /** Set or unset the target. The edge leaves the previous target's `edges`
        (KeyError, before anything changes, when it is not there) and joins the new
        one's; the type check runs afterwards, so a ValueError leaves the new
        attachment in place and skips the position update. */
    method SetTarget(t: Connection?, convertible: (DataType, DataType) -> bool) returns (r: Outcome)
      requires Valid()
      requires t != null ==> t.kind == InputKind
      modifies this, target, t
      ensures Valid()
      ensures source == old(source) && selected == old(selected) && shadowSelected == old(shadowSelected)
      ensures old(target) != null ==> old(target).tip == old(target.tip)
      ensures t != null ==> t.tip == old(t.tip)
      ensures r == Fail(KeyError) <==> old(target) != null && old(target) != t && this !in old(target.edges)
      ensures r == Fail(KeyError) ==>
        && target == old(target) && targetPos == old(targetPos) && sourcePos == old(sourcePos)
        && old(target).edges == old(target.edges) && (t != null ==> t.edges == old(t.edges))
      ensures r != Fail(KeyError) ==>
        && target == t
        && (old(target) != null && old(target) != t ==> old(target).edges == old(target.edges) - {this})
        && (t != null ==> t.edges == old(t.edges) + {this})
        && r == CheckDataType(convertible)
        && (r.Pass? ==> targetPos == (if t != null then Some(t.tip) else None)
                        && sourcePos == (if source != null then Some(source.tip) else old(sourcePos)))
        && (r.Fail? ==> targetPos == None && sourcePos == old(sourcePos))
      ensures r != Fail(KeyError) && t != null && source == null ==> DataTypeOf() == Some(t.dataType)
      ensures forall es, cs {:trigger Consistent(es, cs)} :: old(allocated(es) && allocated(cs) && Consistent(es, cs)) ==> Consistent(es, cs)
    {
      if target != null && target != t && this !in target.edges {
        r := Fail(KeyError);
      } else {
        if target != null && target != t {
          target.edges := target.edges - {this};
        }
        if t != null {
          t.edges := t.edges + {this};
        }
        target := t;
        targetPos := None;
        r := CheckDataType(convertible);
        if r.Pass? {
          Adjust();
        }
      }
    }

    /** The mirror image of `SetTarget` on the source side. */
    method SetSource(s: Connection?, convertible: (DataType, DataType) -> bool) returns (r: Outcome)
      requires Valid()
      requires s != null ==> s.kind == OutputKind
      modifies this, source, s
      ensures Valid()
      ensures target == old(target) && selected == old(selected) && shadowSelected == old(shadowSelected)
      ensures old(source) != null ==> old(source).tip == old(source.tip)
      ensures s != null ==> s.tip == old(s.tip)
      ensures r == Fail(KeyError) <==> old(source) != null && old(source) != s && this !in old(source.edges)
      ensures r == Fail(KeyError) ==>
        && source == old(source) && sourcePos == old(sourcePos) && targetPos == old(targetPos)
        && old(source).edges == old(source.edges) && (s != null ==> s.edges == old(s.edges))
      ensures r != Fail(KeyError) ==>
        && source == s
        && (old(source) != null && old(source) != s ==> old(source).edges == old(source.edges) - {this})
        && (s != null ==> s.edges == old(s.edges) + {this})
        && r == CheckDataType(convertible)
        && (r.Pass? ==> sourcePos == (if s != null then Some(s.tip) else None)
                        && targetPos == (if target != null then Some(target.tip) else old(targetPos)))
        && (r.Fail? ==> sourcePos == None && targetPos == old(targetPos))
      ensures r != Fail(KeyError) && s != null ==> DataTypeOf() == Some(s.dataType)
      ensures forall es, cs {:trigger Consistent(es, cs)} :: old(allocated(es) && allocated(cs) && Consistent(es, cs)) ==> Consistent(es, cs)
    {
      if source != null && source != s && this !in source.edges {
        r := Fail(KeyError);
      } else {
        if source != null && source != s {
          source.edges := source.edges - {this};
        }
        if s != null {
          s.edges := s.edges + {this};
        }
        source := s;
        sourcePos := None;
        r := CheckDataType(convertible);
        if r.Pass? {
          Adjust();
        }
      }
    }

    /** Point the target end at a free position (an edge being dragged). The target
        connection is dropped WITHOUT removing the edge from its `edges`. */
    method SetTargetPos(pos: Point)
      requires Valid()
      modifies this`target, this`targetPos, this`sourcePos
      ensures Valid()
      ensures target == null && source == old(source)
      ensures targetPos == Some(pos) && StoredTargetPos() == Some(pos)
      ensures sourcePos == if source != null then Some(source.tip) else old(sourcePos)
      ensures old(target) != null ==> old(target).edges == old(target.edges)
    {
      target := null;
      targetPos := Some(pos);
      Adjust();
    }

    /** Point the source end at a free position. The source connection is dropped
        WITHOUT removing the edge from its `edges`. */
    method SetSourcePos(pos: Point)
      requires Valid()
      modifies this`source, this`targetPos, this`sourcePos
      ensures Valid()
      ensures source == null && target == old(target)
      ensures sourcePos == Some(pos) && SourcePos() == Some(pos)
      ensures targetPos == if target != null then Some(target.tip) else old(targetPos)
      ensures old(source) != null ==> old(source).edges == old(source.edges)
    {
      source := null;
      sourcePos := Some(pos);
      Adjust();
    }

    /** Unset the source, then the target; a KeyError from the first stops the
        second. */
    method DetachAll(convertible: (DataType, DataType) -> bool) returns (r: Outcome)
      requires Valid()
      modifies this, source, target
      ensures Valid()
      ensures r.Fail? ==> r.error == KeyError
      ensures r.Pass? <==> (old(source) == null || this in old(source.edges))
                           && (old(target) == null || this in old(target.edges))
      ensures r.Pass? ==> source == null && target == null
      ensures r.Pass? && old(source) != null ==> old(source).edges == old(source.edges) - {this}
      ensures r.Pass? && old(target) != null ==> old(target).edges == old(target.edges) - {this}
      ensures r.Pass? ==> sourcePos == (if old(source) != null then None else old(sourcePos))
      ensures r.Pass? ==> targetPos == (if old(target) != null then None else old(targetPos))
      ensures r.Fail? && old(source) != null && this !in old(source.edges) ==>
        && source == old(source) && target == old(target)
        && sourcePos == old(sourcePos) && targetPos == old(targetPos)
      ensures r.Fail? && (old(source) == null || this in old(source.edges)) ==>
        && source == null && target == old(target) && old(target) != null && this !in old(target.edges)
        && old(target).edges == old(target.edges)
        && (old(source) != null ==> old(source).edges == old(source.edges) - {this}
                                    && sourcePos == None && targetPos == Some(old(target.tip)))
      ensures r.Fail? && old(source) == null ==> sourcePos == old(sourcePos) && targetPos == old(targetPos)
      ensures selected == old(selected) && shadowSelected == old(shadowSelected)
      ensures forall es, cs {:trigger Consistent(es, cs)} :: old(allocated(es) && allocated(cs) && Consistent(es, cs)) ==> Consistent(es, cs)
    {
      r := Pass;
      if source != null {
        r := SetSource(null, convertible);
      }
      label Mid:
      if r.Pass? && target != null {
        r := SetTarget(null, convertible);
      }
      forall es: set<Edge>, cs: set<Connection> | old(allocated(es) && allocated(cs) && Consistent(es, cs))
        ensures Consistent(es, cs)
      {
        assert old@Mid(Consistent(es, cs));
      }
    }

    /** Attach this edge on whichever side the connection's kind belongs to. */
    method Attach(c: Connection, convertible: (DataType, DataType) -> bool) returns (r: Outcome)
      requires Valid()
      modifies this, source, target, c
      ensures Valid() && selected == old(selected) && shadowSelected == old(shadowSelected)
      ensures r == Fail(KeyError) <==>
        old(Side(this, c.kind)) != null && old(Side(this, c.kind)) != c && this !in old(Side(this, c.kind).edges)
      ensures r == Fail(KeyError) ==> source == old(source) && target == old(target) && c.edges == old(c.edges)
      ensures r != Fail(KeyError) ==>
        && Linked(this, c) && c.edges == old(c.edges) + {this} && r == CheckDataType(convertible)
        && (c.kind == OutputKind ==> target == old(target))
        && (c.kind == InputKind ==> source == old(source))
        && (old(Side(this, c.kind)) != null && old(Side(this, c.kind)) != c ==>
              old(Side(this, c.kind)).edges == old(Side(this, c.kind).edges) - {this})
      ensures c.tip == old(c.tip)
      ensures r == Fail(KeyError) ==> sourcePos == old(sourcePos) && targetPos == old(targetPos)
      ensures r == Fail(ValueError) ==>
        && (c.kind == OutputKind ==> sourcePos == None && targetPos == old(targetPos))
        && (c.kind == InputKind ==> targetPos == None && sourcePos == old(sourcePos))
      ensures r.Pass? && c.kind == OutputKind ==>
        sourcePos == Some(c.tip) && targetPos == (if target != null then Some(target.tip) else old(targetPos))
      ensures r.Pass? && c.kind == InputKind ==>
        targetPos == Some(c.tip) && sourcePos == (if source != null then Some(source.tip) else old(sourcePos))
      ensures forall es, cs {:trigger Consistent(es, cs)} :: old(allocated(es) && allocated(cs) && Consistent(es, cs)) ==> Consistent(es, cs)
    {
      r := c.Attach(this, convertible);
    }

    /** Detach this edge from a connection: the side that refers to it is unset. */
    method Detach(c: Connection, convertible: (DataType, DataType) -> bool) returns (r: Outcome)
      requires Valid()
      modifies this, c
      ensures Valid() && selected == old(selected) && shadowSelected == old(shadowSelected)
      ensures r.Fail? <==> old(Linked(this, c)) && this !in old(c.edges)
      ensures r.Fail? ==> r.error == KeyError
      ensures r.Fail? || !old(Linked(this, c)) ==>
        && source == old(source) && target == old(target)
        && sourcePos == old(sourcePos) && targetPos == old(targetPos) && c.edges == old(c.edges)
      ensures r.Pass? && old(Linked(this, c)) ==>
        && Side(this, c.kind) == null && c.edges == old(c.edges) - {this}
        && (c.kind == OutputKind ==> target == old(target) && sourcePos == None)
        && (c.kind == OutputKind ==> targetPos == (if target != null then Some(target.tip) else old(targetPos)))
        && (c.kind == InputKind ==> source == old(source) && targetPos == None)
        && (c.kind == InputKind ==> sourcePos == (if source != null then Some(source.tip) else old(sourcePos)))
      ensures forall es, cs {:trigger Consistent(es, cs)} :: old(allocated(es) && allocated(cs) && Consistent(es, cs)) ==> Consistent(es, cs)
    {
      r := c.Detach(this, convertible);
    }
  }

  /** The finding about `targetPos()`: whenever the two stored positions differ,
      the getter does not report the target position. */
  lemma TargetPosReportsSource(e: Edge)
    requires e.sourcePos != e.targetPos
    ensures e.TargetPos() != e.targetPos && e.StoredTargetPos() == e.targetPos
  {
  }
}
