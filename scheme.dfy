/** The scene of nfb_studio/widgets/scheme/scheme.py: a graphics scene that is also
    the dataflow graph, and keeps the two memberships in step. */
module Schemes {
  import opened Common
  import opened Edges

  /** What a scene can hold: nodes, edges and other graphics items. */
  datatype Item = NodeItem(node: Node) | EdgeItem(edge: Edge) | OtherItem(tag: nat)

  /** An extracted subgraph (GraphSnapshot): a set of nodes and a set of edges. */
  datatype Snapshot = Snapshot(nodes: set<Node>, edges: set<Edge>)

  /** The three sets a scheme keeps: the scene's items and the graph's nodes and
      edges. */
  datatype SceneState = SceneState(items: set<Item>, nodes: set<Node>, edges: set<Edge>)

  function NodeItems(ns: set<Node>): set<Item> {
    set n | n in ns :: NodeItem(n)
  }

  function EdgeItems(es: set<Edge>): set<Item> {
    set e | e in es :: EdgeItem(e)
  }

  /** The scene invariant: a node or edge is an item of the scene exactly when it
      is a member of the graph. */
  ghost predicate Mirrored(s: SceneState) {
    && (forall it :: it in s.items && it.NodeItem? ==> it.node in s.nodes)
    && (forall n :: n in s.nodes ==> NodeItem(n) in s.items)
    && (forall it :: it in s.items && it.EdgeItem? ==> it.edge in s.edges)
    && (forall e :: e in s.edges ==> EdgeItem(e) in s.items)
  }

  /** `addItem`: a node joins the graph's nodes, an edge its edges, and every item
      joins the scene. */
  function AfterAdd(s: SceneState, item: Item): SceneState {
    match item
    case NodeItem(n) => SceneState(s.items + {item}, s.nodes + {n}, s.edges)
    case EdgeItem(e) => SceneState(s.items + {item}, s.nodes, s.edges + {e})
    case OtherItem(_) => s.(items := s.items + {item})
  }

  /** `removeItem`: every item leaves the scene, a node the graph's nodes, an edge
      its edges. */
  function AfterRemove(s: SceneState, item: Item): SceneState {
    match item
    case NodeItem(n) => SceneState(s.items - {item}, s.nodes - {n}, s.edges)
    case EdgeItem(e) => SceneState(s.items - {item}, s.nodes, s.edges - {e})
    case OtherItem(_) => s.(items := s.items - {item})
  }

  /** A sequence of `addItem` and `removeItem` calls. */
  datatype Op = Add(item: Item) | Remove(item: Item)

  function Replay(s: SceneState, ops: seq<Op>): SceneState
    decreases |ops|
  {
    if ops == [] then s
    else
      var next := match ops[0] case Add(it) => AfterAdd(s, it) case Remove(it) => AfterRemove(s, it);
      Replay(next, ops[1..])
  }

  /** Adding the pasted nodes, then the pasted edges. */
  function AfterPaste(s: SceneState, snap: Snapshot): SceneState {
    SceneState(s.items + NodeItems(snap.nodes) + EdgeItems(snap.edges), s.nodes + snap.nodes, s.edges + snap.edges)
  }

  /** `deserialize`: the graph's nodes leave the scene, the graph takes the decoded
      sets, and those are put into the scene. Edge items already in the scene
      stay there. */
  function AfterDeserialize(s: SceneState, data: Snapshot): SceneState {
    SceneState(s.items - NodeItems(s.nodes) + NodeItems(data.nodes) + EdgeItems(data.edges), data.nodes, data.edges)
  }

  lemma AddKeepsMirror(s: SceneState, item: Item)
    requires Mirrored(s)
    ensures Mirrored(AfterAdd(s, item))
  {
  }

  lemma RemoveKeepsMirror(s: SceneState, item: Item)
    requires Mirrored(s)
    ensures Mirrored(AfterRemove(s, item))
  {
  }

  /** Any sequence of `addItem`/`removeItem` calls keeps the scene mirrored. */
  lemma {:induction false} ReplayKeepsMirror(s: SceneState, ops: seq<Op>)
    requires Mirrored(s)
    ensures Mirrored(Replay(s, ops))
    decreases |ops|
  {
    if ops != [] {
      var next := match ops[0] case Add(it) => AfterAdd(s, it) case Remove(it) => AfterRemove(s, it);
      match ops[0] {
        case Add(it) => AddKeepsMirror(s, it);
        case Remove(it) => RemoveKeepsMirror(s, it);
      }
      ReplayKeepsMirror(next, ops[1..]);
    }
  }

  /** Pasting keeps the scene mirrored, and the pasted nodes and edges end up in
      both the scene and the graph. */
  lemma PasteKeepsMirror(s: SceneState, snap: Snapshot)
    requires Mirrored(s)
    ensures Mirrored(AfterPaste(s, snap))
    ensures snap.nodes <= AfterPaste(s, snap).nodes && snap.edges <= AfterPaste(s, snap).edges
    ensures NodeItems(snap.nodes) + EdgeItems(snap.edges) <= AfterPaste(s, snap).items
  {
  }

  /** After `deserialize` the nodes are always mirrored; the edges are exactly when
      every edge the graph held before is also one of the decoded edges, since the
      old edge items are never taken out of the scene. */
  lemma DeserializeMirror(s: SceneState, data: Snapshot)
    requires Mirrored(s)
    ensures forall it :: it in AfterDeserialize(s, data).items && it.NodeItem? ==> it.node in data.nodes
    ensures NodeItems(data.nodes) <= AfterDeserialize(s, data).items
    ensures Mirrored(AfterDeserialize(s, data)) <==> s.edges <= data.edges
  {
    var t := AfterDeserialize(s, data);
    if Mirrored(t) {
      forall e | e in s.edges ensures e in data.edges {
        assert EdgeItem(e) in s.items;
        assert EdgeItem(e) in t.items;
      }
    }
  }

  /** The graph half of a scheme. Its own source is not part of this model: adding
      and removing are set insertion and deletion, and connecting, disconnecting and
      deserializing follow the contracts below. */
  class Graph {
    var nodes: set<Node>
    var edges: set<Edge>

    constructor ()
      ensures nodes == {} && edges == {}
    {
      nodes, edges := {}, {};
    }

    ghost predicate Valid()
      reads this, edges
    {
      forall e :: e in edges ==> e.Valid()
    }

    method AddNode(n: Node)
      modifies this
      ensures nodes == old(nodes) + {n} && edges == old(edges)
    {
      nodes := nodes + {n};
    }

    method RemoveNode(n: Node)
      modifies this
      ensures nodes == old(nodes) - {n} && edges == old(edges)
    {
      nodes := nodes - {n};
    }

    method AddEdge(e: Edge)
      modifies this
      ensures edges == old(edges) + {e} && nodes == old(nodes)
    {
      edges := edges + {e};
    }

    method RemoveEdge(e: Edge)
      modifies this
      ensures edges == old(edges) - {e} && nodes == old(nodes)
    {
      edges := edges - {e};
    }

    /** A new edge from `source` to `target`, or ValueError and no change at all
        when the types do not convert. */
    method ConnectNodes(source: Connection, target: Connection, convertible: (DataType, DataType) -> bool)
      returns (r: Result<Edge>)
      requires Valid()
      requires source.kind == OutputKind && target.kind == InputKind
      modifies this, source, target
      ensures Valid() && nodes == old(nodes)
      ensures r.Err? <==> !convertible(source.dataType, target.dataType)
      ensures r.Err? ==> r.error == ValueError && edges == old(edges)
                         && source.edges == old(source.edges) && target.edges == old(target.edges)
      ensures r.Ok? ==>
        && fresh(r.value) && r.value.source == source && r.value.target == target
        && edges == old(edges) + {r.value}
        && source.edges == old(source.edges) + {r.value} && target.edges == old(target.edges) + {r.value}
      ensures r.Ok? ==> forall es, cs {:trigger Consistent(es, cs)} ::
        old(allocated(es) && allocated(cs) && Consistent(es, cs)) ==> Consistent(es + {r.value}, cs)
    {
      if !convertible(source.dataType, target.dataType) {
        return Err(ValueError);
      }
      var e := new Edge();
      label Fresh:
      var r1 := e.SetSource(source, convertible);
      label Sourced:
      var r2 := e.SetTarget(target, convertible);
      edges := edges + {e};
      r := Ok(e);
      forall es: set<Edge>, cs: set<Connection> | old(allocated(es) && allocated(cs) && Consistent(es, cs))
        ensures Consistent(es + {e}, cs)
      {
        assert old@Fresh(allocated(es + {e}) && allocated(cs) && Consistent(es + {e}, cs));
        assert old@Sourced(Consistent(es + {e}, cs));
      }
    }

    /** Detach and drop an edge from `source` to `target` and return it; with no
        such edge, return None and change nothing. */
    method DisconnectNodes(source: Connection, target: Connection, convertible: (DataType, DataType) -> bool)
      returns (r: Result<Option<Edge>>)
      requires Valid()
      modifies this, edges, source, target
      ensures Valid() && nodes == old(nodes)
      ensures r == Ok(None) <==> !exists e :: e in old(edges) && old(e.source) == source && old(e.target) == target
      ensures r == Ok(None) ==> edges == old(edges) && source.edges == old(source.edges) && target.edges == old(target.edges)
      ensures r.Ok? && r.value.Some? ==>
        var e := r.value.value;
        && e in old(edges) && old(e.source) == source && old(e.target) == target
        && e.source == null && e.target == null && edges == old(edges) - {e}
        && source.edges == old(source.edges) - {e} && target.edges == old(target.edges) - {e}
      ensures r.Err? ==> r.error == KeyError && edges == old(edges)
      ensures old(Consistent(edges, {source, target})) ==> r.Ok?
      ensures forall es, cs {:trigger Consistent(es, cs)} ::
        old(allocated(es) && allocated(cs) && Consistent(es, cs)) ==> Consistent(es, cs)
    {
      if e :| e in edges && e.source == source && e.target == target {
        var o := e.DetachAll(convertible);
        if o.Fail? {
          r := Err(o.error);
        } else {
          edges := edges - {e};
          r := Ok(Some(e));
        }
      } else {
        r := Ok(None);
      }
    }

    /** Replace both memberships with the decoded ones. */
    method Deserialize(data: Snapshot)
      requires forall e :: e in data.edges ==> e.Valid()
      modifies this
      ensures Valid() && nodes == data.nodes && edges == data.edges
    {
      nodes, edges := data.nodes, data.edges;
    }
  }

  /** The scene: its items, and the graph it is. */
  class Scheme {
    const graph: Graph
    var items: set<Item>

    constructor ()
      ensures fresh(graph) && items == {} && graph.nodes == {} && graph.edges == {}
    {
      graph := new Graph();
      items := {};
    }

    ghost predicate Valid()
      reads this, graph, graph.edges
    {
      graph.Valid()
    }

    ghost function State(): SceneState
      reads this, graph
    {
      SceneState(items, graph.nodes, graph.edges)
    }

    function SceneNodes(): set<Node>
      reads this
    {
      set it | it in items && it.NodeItem? :: it.node
    }

    function SceneEdges(): set<Edge>
      reads this
    {
      set it | it in items && it.EdgeItem? :: it.edge
    }

    method AddItem(item: Item)
      requires Valid() && (item.EdgeItem? ==> item.edge.Valid())
      modifies this, graph
      ensures Valid() && State() == AfterAdd(old(State()), item)
      ensures old(Mirrored(State())) ==> Mirrored(State())
    {
      match item {
        case NodeItem(n) => graph.AddNode(n);
        case EdgeItem(e) => graph.AddEdge(e);
        case OtherItem(_) =>
      }
      items := items + {item};
      if old(Mirrored(State())) {
        AddKeepsMirror(old(State()), item);
      }
    }

    method RemoveItem(item: Item)
      requires Valid()
      modifies this, graph
      ensures Valid() && State() == AfterRemove(old(State()), item)
      ensures old(Mirrored(State())) ==> Mirrored(State())
    {
      items := items - {item};
      match item {
        case NodeItem(n) => graph.RemoveNode(n);
        case EdgeItem(e) => graph.RemoveEdge(e);
        case OtherItem(_) =>
      }
      if old(Mirrored(State())) {
        RemoveKeepsMirror(old(State()), item);
      }
    }

    /** The graph makes the edge; the scene then takes it as an item directly. */
    method ConnectNodes(source: Connection, target: Connection, convertible: (DataType, DataType) -> bool)
      returns (r: Result<Edge>)
      requires Valid()
      requires source.kind == OutputKind && target.kind == InputKind
      modifies this, graph, source, target
      ensures Valid()
      ensures r.Err? <==> !convertible(source.dataType, target.dataType)
      ensures r.Err? ==> r.error == ValueError && State() == old(State())
                         && source.edges == old(source.edges) && target.edges == old(target.edges)
      ensures r.Ok? ==>
        && fresh(r.value) && r.value.source == source && r.value.target == target
        && State() == AfterAdd(old(State()), EdgeItem(r.value))
        && source.edges == old(source.edges) + {r.value} && target.edges == old(target.edges) + {r.value}
      ensures r.Ok? ==> forall es, cs {:trigger Consistent(es, cs)} ::
        old(allocated(es) && allocated(cs) && Consistent(es, cs)) ==> Consistent(es + {r.value}, cs)
      ensures old(Mirrored(State())) ==> Mirrored(State())
    {
      r := graph.ConnectNodes(source, target, convertible);
      label Connected:
      if r.Ok? {
        items := items + {EdgeItem(r.value)};
        forall es: set<Edge>, cs: set<Connection> | old(allocated(es) && allocated(cs) && Consistent(es, cs))
          ensures Consistent(es + {r.value}, cs)
        {
          assert old@Connected(Consistent(es + {r.value}, cs));
        }
        if old(Mirrored(State())) {
          AddKeepsMirror(old(State()), EdgeItem(r.value));
        }
      }
    }

    /** The graph drops the edge; the scene removes its item only when there was
        one. Nothing is returned to the caller: the ghost `removed` names the edge
        that was dropped, if any. */
    method DisconnectNodes(source: Connection, target: Connection, convertible: (DataType, DataType) -> bool)
      returns (r: Outcome, ghost removed: Option<Edge>)
      requires Valid()
      modifies this, graph, graph.edges, source, target
      ensures Valid()
      ensures graph.nodes == old(graph.nodes)
      ensures r.Fail? ==> r.error == KeyError && items == old(items) && graph.edges == old(graph.edges)
      ensures r.Pass? ==>
        (removed.None? <==> !exists e :: e in old(graph.edges) && old(e.source) == source && old(e.target) == target)
      ensures r.Pass? && removed.None? ==>
        State() == old(State()) && source.edges == old(source.edges) && target.edges == old(target.edges)
      ensures r.Pass? && removed.Some? ==>
        var e := removed.value;
        && e in old(graph.edges) && old(e.source) == source && old(e.target) == target
        && e.source == null && e.target == null
        && State() == AfterRemove(old(State()), EdgeItem(e))
        && source.edges == old(source.edges) - {e} && target.edges == old(target.edges) - {e}
      ensures old(Consistent(graph.edges, {source, target})) ==> r.Pass?
      ensures forall es, cs {:trigger Consistent(es, cs)} ::
        old(allocated(es) && allocated(cs) && Consistent(es, cs)) ==> Consistent(es, cs)
      ensures old(Mirrored(State())) ==> Mirrored(State())
    {
      var found := graph.DisconnectNodes(source, target, convertible);
      removed := None;
      if found.Err? {
        r := Fail(found.error);
      } else {
        if found.value.Some? {
          removed := found.value;
          items := items - {EdgeItem(found.value.value)};
          if old(Mirrored(State())) {
            RemoveKeepsMirror(old(State()), EdgeItem(found.value.value));
          }
        }
        r := Pass;
      }
    }

    /** The selected nodes and the shadow-selected edges of the graph. */
    function SelectedGraph(): (g: Snapshot)
      reads this, graph, graph.nodes, graph.edges
      ensures g.nodes <= graph.nodes && g.edges <= graph.edges
      ensures forall n :: n in graph.nodes ==> (n in g.nodes <==> n.selected)
      ensures forall e :: e in graph.edges ==> (e in g.edges <==> e.shadowSelected)
    {
      Snapshot(set n | n in graph.nodes && n.selected, set e | e in graph.edges && e.shadowSelected)
    }

    /** Deselect every node and edge of the scene. */
    method ClearSelection()
      modifies SceneNodes()`selected, SceneEdges()`selected
      ensures forall n :: n in SceneNodes() ==> !n.selected
      ensures forall e :: e in SceneEdges() ==> !e.selected
    {
      var todo := SceneNodes();
      while todo != {}
        invariant todo <= SceneNodes()
        invariant forall n :: n in SceneNodes() - todo ==> !n.selected
        decreases todo
      {
        var n :| n in todo;
        n.selected := false;
        todo := todo - {n};
      }
      var rest := SceneEdges();
      while rest != {}
        invariant rest <= SceneEdges()
        invariant forall n :: n in SceneNodes() ==> !n.selected
        invariant forall e :: e in SceneEdges() - rest ==> !e.selected
        decreases rest
      {
        var e :| e in rest;
        e.selected := false;
        rest := rest - {e};
      }
    }

    /** Move each node by (0.5, 0.5) and add it through `AddItem`. */
    method ShiftAndAddNodes(ns: set<Node>)
      requires Valid()
      modifies this, graph, ns`position
      ensures Valid()
      ensures State() == SceneState(old(items) + NodeItems(ns), old(graph.nodes) + ns, old(graph.edges))
      ensures forall n :: n in ns ==> n.position == old(n.position).Plus(0.5, 0.5)
    {
      var todo := ns;
      while todo != {}
        invariant todo <= ns && Valid()
        invariant State() == SceneState(old(items) + NodeItems(ns - todo), old(graph.nodes) + (ns - todo), old(graph.edges))
        invariant forall n :: n in ns - todo ==> n.position == old(n.position).Plus(0.5, 0.5)
        invariant forall n :: n in todo ==> n.position == old(n.position)
        decreases todo
      {
        var n :| n in todo;
        n.position := n.position.Plus(0.5, 0.5);
        AddItem(NodeItem(n));
        assert NodeItems(ns - (todo - {n})) == NodeItems(ns - todo) + {NodeItem(n)};
        todo := todo - {n};
      }
      assert ns - {} == ns;
    }

    /** Add each edge through `AddItem`. */
    method AddEdges(es: set<Edge>)
      requires Valid() && forall e :: e in es ==> e.Valid()
      modifies this, graph
      ensures Valid()
      ensures State() == SceneState(old(items) + EdgeItems(es), old(graph.nodes), old(graph.edges) + es)
    {
      var rest := es;
      while rest != {}
        invariant rest <= es && Valid()
        invariant State() == SceneState(old(items) + EdgeItems(es - rest), old(graph.nodes), old(graph.edges) + (es - rest))
        decreases rest
      {
        var e :| e in rest;
        AddItem(EdgeItem(e));
        assert EdgeItems(es - (rest - {e})) == EdgeItems(es - rest) + {EdgeItem(e)};
        rest := rest - {e};
      }
      assert es - {} == es;
    }

    /** With a decoded snapshot: clear the selection, move every pasted node by
        (0.5, 0.5), then add every node and every edge through `AddItem`. With no
        clipboard text: nothing. */
    method Paste(snapshot: Option<Snapshot>)
      requires Valid()
      requires snapshot.Some? ==> forall e :: e in snapshot.value.edges ==> e.Valid()
      modifies this, graph, SceneNodes()`selected, SceneEdges()`selected
      modifies (if snapshot.Some? then snapshot.value.nodes else {})`position
      ensures Valid()
      ensures snapshot.None? ==> State() == old(State())
      ensures snapshot.None? ==> forall n :: n in old(SceneNodes()) ==> n.selected == old(n.selected)
      ensures snapshot.None? ==> forall e :: e in old(SceneEdges()) ==> e.selected == old(e.selected)
      ensures snapshot.Some? ==> State() == AfterPaste(old(State()), snapshot.value)
      ensures snapshot.Some? ==> forall n :: n in snapshot.value.nodes ==> n.position == old(n.position).Plus(0.5, 0.5)
      ensures snapshot.Some? ==> forall n :: n in old(SceneNodes()) ==> !n.selected
      ensures snapshot.Some? ==> forall e :: e in old(SceneEdges()) ==> !e.selected
      ensures old(Mirrored(State())) ==> Mirrored(State())
    {
      if snapshot.None? {
        return;
      }
      var snap := snapshot.value;
      ClearSelection();
      ShiftAndAddNodes(snap.nodes);
      AddEdges(snap.edges);
      if old(Mirrored(State())) {
        PasteKeepsMirror(old(State()), snap);
      }
    }

    /** Remove every node of the graph through `RemoveItem` (over a copy of the
        set), let the graph take the decoded sets, then put its nodes and edges into
        the scene directly. */
    method Deserialize(data: Snapshot)
      requires Valid()
      requires forall e :: e in data.edges ==> e.Valid()
      modifies this, graph
      ensures Valid() && State() == AfterDeserialize(old(State()), data)
      ensures old(Mirrored(State())) ==> (Mirrored(State()) <==> old(graph.edges) <= data.edges)
    {
      var todo := graph.nodes;
      while todo != {}
        invariant todo <= old(graph.nodes) && graph.nodes == todo
        invariant items == old(items) - NodeItems(old(graph.nodes) - todo)
        invariant graph.edges == old(graph.edges) && Valid()
        decreases todo
      {
        var n :| n in todo;
        RemoveItem(NodeItem(n));
        assert NodeItems(old(graph.nodes) - (todo - {n})) == NodeItems(old(graph.nodes) - todo) + {NodeItem(n)};
        todo := todo - {n};
      }
      graph.Deserialize(data);
      var ns := graph.nodes;
      while ns != {}
        invariant ns <= data.nodes
        invariant items == old(items) - NodeItems(old(graph.nodes)) + NodeItems(data.nodes - ns)
        invariant graph.nodes == data.nodes && graph.edges == data.edges && Valid()
        decreases ns
      {
        var n :| n in ns;
        items := items + {NodeItem(n)};
        assert NodeItems(data.nodes - (ns - {n})) == NodeItems(data.nodes - ns) + {NodeItem(n)};
        ns := ns - {n};
      }
      var es := graph.edges;
      while es != {}
        invariant es <= data.edges
        invariant items == old(items) - NodeItems(old(graph.nodes)) + NodeItems(data.nodes) + EdgeItems(data.edges - es)
        invariant graph.nodes == data.nodes && graph.edges == data.edges && Valid()
        decreases es
      {
        var e :| e in es;
        items := items + {EdgeItem(e)};
        assert EdgeItems(data.edges - (es - {e})) == EdgeItems(data.edges - es) + {EdgeItem(e)};
        es := es - {e};
      }
      assert data.nodes - {} == data.nodes && data.edges - {} == data.edges;
      if old(Mirrored(State())) {
        DeserializeMirror(old(State()), data);
      }
    }
  }
}
