/**
 * The flow-chart store (src/stores/chart-store.tsx): the node list, the edge
 * list and the viewport of the canvas, with the setters that replace one of
 * them and `addNode`, which appends a node built from defaults and overrides.
 * The generated id and the two random numbers of `addNode` are parameters.
 */
module ChartStore {
  import opened Wrappers

  /** A point on the canvas. */
  datatype XYPosition = XYPosition(x: real, y: real)

  /** The pan offset and zoom factor of the canvas. */
  datatype Viewport = Viewport(x: real, y: real, zoom: real)

  /** The `data` record of a node, keyed by field name. */
  type NodeData = map<string, string>

  /** A node of the chart: the fields that `addNode` sets or lets callers override. */
  datatype Node = Node(id: string, position: XYPosition, data: NodeData, nodeType: Option<string>)

  /** `Partial<Node>`: each field the caller may supply; None where it is absent. */
  datatype NodeOverrides = NodeOverrides(
    id: Option<string>,
    position: Option<XYPosition>,
    data: Option<NodeData>,
    nodeType: Option<string>)

  /** An edge of the chart; the store only stores and replaces edges. */
  datatype Edge = Edge(
    id: string,
    source: string,
    target: string,
    sourceHandle: Option<string>,
    targetHandle: Option<string>,
    animated: bool)

  /** The viewport a new store starts with. */
  const InitialViewport := Viewport(0.0, 0.0, 1.0)

  /** `addNode()` called without an argument: the `{}` default. */
  const NoOverrides := NodeOverrides(None, None, None, None)

  /** The label a node gets when its data is not overridden. */
  function DefaultLabel(id: string): string { "Node " + id }

  /** The supplied value when there is one, otherwise the default. */
  function Pick<T>(supplied: Option<T>, default: T): T
  {
    match supplied
    case Some(v) => v
    case None => default
  }

  /**
   * The node `addNode` appends: `{ id, position, data: { label }, ...partialNode }`.
   * `randomX` and `randomY` stand for the two `Math.random()` draws. Each
   * supplied field replaces its default whole; absent fields keep the default.
   */
  function NewNode(freshId: string, randomX: real, randomY: real, overrides: NodeOverrides): (n: Node)
    ensures n.id == if overrides.id.Some? then overrides.id.value else freshId
    ensures overrides.position.None? ==> n.position == XYPosition(randomX * 400.0, randomY * 300.0)
    ensures overrides.position.Some? ==> n.position == overrides.position.value
    ensures overrides.data.None? ==> n.data == map["label" := DefaultLabel(freshId)]
    ensures overrides.data.Some? ==> n.data == overrides.data.value
    ensures n.nodeType == overrides.nodeType
  {
    Node(
      Pick(overrides.id, freshId),
      Pick(overrides.position, XYPosition(randomX * 400.0, randomY * 300.0)),
      Pick(overrides.data, map["label" := DefaultLabel(freshId)]),
      overrides.nodeType)
  }

  /** No two nodes share an id. */
  ghost predicate DistinctIds(nodes: seq<Node>)
  {
    forall i, j :: 0 <= i < j < |nodes| ==> nodes[i].id != nodes[j].id
  }

  /** Without overrides the new node carries the fresh id and the label "Node <id>", and nothing else in its data. */
  lemma DefaultNodeIsLabelled(freshId: string, randomX: real, randomY: real)
    ensures NewNode(freshId, randomX, randomY, NoOverrides).id == freshId
    ensures NewNode(freshId, randomX, randomY, NoOverrides).data.Keys == {"label"}
    ensures NewNode(freshId, randomX, randomY, NoOverrides).data["label"] == "Node " + freshId
  {
  }

  /** With `Math.random()` in [0, 1), a default position lies in the 400 by 300 box at the origin. */
  lemma DefaultPositionInBox(freshId: string, randomX: real, randomY: real, overrides: NodeOverrides)
    requires 0.0 <= randomX < 1.0 && 0.0 <= randomY < 1.0
    requires overrides.position.None?
    ensures 0.0 <= NewNode(freshId, randomX, randomY, overrides).position.x < 400.0
    ensures 0.0 <= NewNode(freshId, randomX, randomY, overrides).position.y < 300.0
  {
  }

  /** Supplied data replaces the default label data entirely: a label survives only if the caller supplied one. */
  lemma SuppliedDataDropsLabel(freshId: string, randomX: real, randomY: real, overrides: NodeOverrides)
    requires overrides.data.Some?
    ensures "label" in NewNode(freshId, randomX, randomY, overrides).data <==> "label" in overrides.data.value
  {
  }

  /** A fresh id that no node has yet, not overridden, keeps the node ids distinct. */
  lemma {:induction false} FreshIdKeepsIdsDistinct(nodes: seq<Node>, freshId: string, randomX: real, randomY: real, overrides: NodeOverrides)
    requires DistinctIds(nodes)
    requires forall i :: 0 <= i < |nodes| ==> nodes[i].id != freshId
    requires overrides.id.None?
    ensures DistinctIds(nodes + [NewNode(freshId, randomX, randomY, overrides)])
  {
    var after := nodes + [NewNode(freshId, randomX, randomY, overrides)];
    forall i, j | 0 <= i < j < |after| ensures after[i].id != after[j].id {
      assert after[i] == nodes[i];
      if j < |nodes| {
        assert after[j] == nodes[j];
      }
    }
  }

  /** An overriding id is taken as given, so it can repeat the id of an existing node. */
  lemma {:induction false} OverriddenIdCanRepeat(nodes: seq<Node>, k: nat, freshId: string, randomX: real, randomY: real, overrides: NodeOverrides)
    requires k < |nodes|
    requires overrides.id == Some(nodes[k].id)
    ensures !DistinctIds(nodes + [NewNode(freshId, randomX, randomY, overrides)])
  {
    var after := nodes + [NewNode(freshId, randomX, randomY, overrides)];
    assert after[k].id == after[|nodes|].id;
  }

  /** The store: each field is replaced whole by the action that owns it. */
  class FlowStore {
    var nodes: seq<Node>
    var edges: seq<Edge>
    var viewport: Viewport

    /** The initial state: no nodes, no edges, viewport at the origin with zoom 1. */
    constructor ()
      ensures nodes == [] && edges == [] && viewport == InitialViewport
    {
      nodes := [];
      edges := [];
      viewport := InitialViewport;
    }

    /** `setNodes`: replaces the node list and nothing else. */
    method SetNodes(newNodes: seq<Node>)
      modifies this
      ensures nodes == newNodes
      ensures edges == old(edges) && viewport == old(viewport)
    {
      nodes := newNodes;
    }

    /** `setEdges`: replaces the edge list and nothing else. */
    method SetEdges(newEdges: seq<Edge>)
      modifies this
      ensures edges == newEdges
      ensures nodes == old(nodes) && viewport == old(viewport)
    {
      edges := newEdges;
    }

    /** `setViewport`: replaces the viewport and nothing else. */
    method SetViewport(newViewport: Viewport)
      modifies this
      ensures viewport == newViewport
      ensures nodes == old(nodes) && edges == old(edges)
    {
      viewport := newViewport;
    }

    /**
     * `addNode`: appends exactly one node, built from the fresh id, the two
     * random draws and the overrides; earlier nodes, the edges and the
     * viewport are unchanged.
     */
    method AddNode(freshId: string, randomX: real, randomY: real, overrides: NodeOverrides)
      modifies this
      ensures nodes == old(nodes) + [NewNode(freshId, randomX, randomY, overrides)]
      ensures |nodes| == |old(nodes)| + 1
      ensures forall i :: 0 <= i < |old(nodes)| ==> nodes[i] == old(nodes)[i]
      ensures edges == old(edges) && viewport == old(viewport)
    {
      var defaultNode := NewNode(freshId, randomX, randomY, overrides);
      nodes := nodes + [defaultNode];
    }
  }

  /**
   * The click on a recipe card: `addNode({ data: { recipeId }, type: 'recipe' })`.
   * The node keeps the fresh id and random position, but its data holds only
   * the recipe id: the default label is gone.
   */
  method PlaceRecipeNode(store: FlowStore, recipeId: string, freshId: string, randomX: real, randomY: real)
    modifies store
    ensures store.nodes == old(store.nodes) + [Node(freshId, XYPosition(randomX * 400.0, randomY * 300.0), map["recipeId" := recipeId], Some("recipe"))]
    ensures store.edges == old(store.edges) && store.viewport == old(store.viewport)
  {
    store.AddNode(freshId, randomX, randomY, NodeOverrides(None, None, Some(map["recipeId" := recipeId]), Some("recipe")));
  }
}
