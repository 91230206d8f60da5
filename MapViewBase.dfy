/**
 * The queries of the map view that decide what a command acts on: the entity
 * definition a menu index names, which nodes a reparent moves, the axis of a
 * rotation, the action context for key bindings, and the entity whose attributes a new
 * brush entity copies.
 */
module MapViews {
  import opened Wrappers

  // ---------------------------------------------------------------------------------
  // findEntityDefinition
  // ---------------------------------------------------------------------------------

  /** The definition lists of the groups, one after another in group order. */
  function Concat<T>(groups: seq<seq<T>>): seq<T> {
    if groups == [] then [] else Concat(groups[..|groups| - 1]) + groups[|groups| - 1]
  }

  /** The definitions of the first `k` groups come first in the concatenation of all. */
  lemma {:induction false} ConcatPrefix<T>(groups: seq<seq<T>>, k: nat)
    requires k <= |groups|
    ensures |Concat(groups[..k])| <= |Concat(groups)|
    ensures Concat(groups[..k]) == Concat(groups)[..|Concat(groups[..k])|]
    decreases |groups|
  {
    if k == |groups| {
      assert groups[..k] == groups;
    } else {
      var front := groups[..|groups| - 1];
      assert front[..k] == groups[..k];
      ConcatPrefix(front, k);
    }
  }

  /**
   * The definition at position `index` of the concatenated group lists, or none when
   * `index` is at least their total length. A running count of the definitions of the
   * groups already passed locates the group holding the index.
   */
  method FindEntityDefinition<T>(groups: seq<seq<T>>, index: nat) returns (r: Option<T>)
    ensures index < |Concat(groups)| ==> r == Some(Concat(groups)[index])
    ensures index >= |Concat(groups)| ==> r == None
  {
    var count := 0;
    var g := 0;
    while g < |groups|
      invariant 0 <= g <= |groups|
      invariant count == |Concat(groups[..g])| && count <= index
    {
      var definitions := groups[g];
      assert groups[..g + 1][..g] == groups[..g];
      if index < count + |definitions| {
        ConcatPrefix(groups, g + 1);
        return Some(definitions[index - count]);
      }
      count := count + |definitions|;
      g := g + 1;
    }
    assert groups[..g] == groups;
    return None;
  }

  // ---------------------------------------------------------------------------------
  // canReparentNodes / collectReparentableNodes
  // ---------------------------------------------------------------------------------

  /**
   * A node of the map: its identity, the node it is a child of, and, for a brush, the
   * entity it belongs to (`entity()`), which for a brush inside a group is not its parent.
   */
  datatype MapNode = MapNode(id: nat, parent: Option<nat>, entity: Option<nat>)

  /** The nodes that `newParent` is not already the parent of, in their order. */
  function Reparentable(nodes: seq<MapNode>, newParent: Option<nat>): seq<MapNode> {
    if nodes == [] then []
    else
      var last := nodes[|nodes| - 1];
      Reparentable(nodes[..|nodes| - 1], newParent) + (if last.parent != newParent then [last] else [])
  }

  /** Some node is not yet a child of `newParent`. */
  method CanReparentNodes(nodes: seq<MapNode>, newParent: Option<nat>) returns (b: bool)
    ensures b <==> exists i :: 0 <= i < |nodes| && nodes[i].parent != newParent
  {
    var i := 0;
    while i < |nodes|
      invariant 0 <= i <= |nodes|
      invariant forall j :: 0 <= j < i ==> nodes[j].parent == newParent
    {
      if nodes[i].parent != newParent {
        return true;
      }
      i := i + 1;
    }
    return false;
  }

  /** The nodes not yet children of `newParent`, kept in their order. */
  method CollectReparentableNodes(nodes: seq<MapNode>, newParent: Option<nat>) returns (result: seq<MapNode>)
    ensures result == Reparentable(nodes, newParent)
  {
    result := [];
    for i := 0 to |nodes|
      invariant result == Reparentable(nodes[..i], newParent)
    {
      assert nodes[..i + 1][..i] == nodes[..i];
      if nodes[i].parent != newParent {
        result := result + [nodes[i]];
      }
    }
    assert nodes[..|nodes|] == nodes;
  }

  /** A node is collected exactly when it is one of the nodes and its parent differs. */
  lemma {:induction false} ReparentableMembers(nodes: seq<MapNode>, newParent: Option<nat>, n: MapNode)
    ensures n in Reparentable(nodes, newParent) <==> n in nodes && n.parent != newParent
  {
    if nodes != [] {
      var front := nodes[..|nodes| - 1];
      ReparentableMembers(front, newParent, n);
      assert nodes == front + [nodes[|nodes| - 1]];
    }
  }

  /** The collected list is non-empty exactly when `canReparentNodes` holds. */
  lemma {:induction false} ReparentableNonEmptyIffCanReparent(nodes: seq<MapNode>, newParent: Option<nat>)
    ensures Reparentable(nodes, newParent) != [] <==> exists i :: 0 <= i < |nodes| && nodes[i].parent != newParent
  {
    var r := Reparentable(nodes, newParent);
    if r != [] {
      ReparentableMembers(nodes, newParent, r[0]);
      var i :| 0 <= i < |nodes| && nodes[i] == r[0];
      assert nodes[i].parent != newParent;
    }
    if i :| 0 <= i < |nodes| && nodes[i].parent != newParent {
      ReparentableMembers(nodes, newParent, nodes[i]);
    }
  }

  // ---------------------------------------------------------------------------------
  // rotationAxis
  // ---------------------------------------------------------------------------------

  datatype RotationAxisSpec = Roll | Pitch | Yaw

  datatype Vec3 = Vec3(x: real, y: real, z: real)

  /** The opposite vector: it sums with `v` to zero. */
  function Neg(v: Vec3): (r: Vec3)
    ensures r.x + v.x == 0.0 && r.y + v.y == 0.0 && r.z + v.z == 0.0
  {
    Vec3(-v.x, -v.y, -v.z)
  }

  const PosZ := Vec3(0.0, 0.0, 1.0)

  /**
   * The axis a rotation command turns about. `forward` and `right` are the view's move
   * directions, which depend on the camera: roll turns about the backward direction,
   * pitch about the right direction, yaw about +Z; clockwise reverses the axis.
   */
  function RotationAxis(axisSpec: RotationAxisSpec, clockwise: bool, forward: Vec3, right: Vec3): (axis: Vec3)
  {
    var axis := match axisSpec
      case Roll => Neg(forward)
      case Pitch => right
      case Yaw => PosZ;
    if clockwise then Neg(axis) else axis
  }

  /** Negating twice gives back the vector. */
  lemma NegInvolutive(v: Vec3)
    ensures Neg(Neg(v)) == v
  {
  }

  /** Turning clockwise is turning counter-clockwise about the opposite axis. */
  lemma ClockwiseIsNegatedCounterClockwise(axisSpec: RotationAxisSpec, forward: Vec3, right: Vec3)
    ensures RotationAxis(axisSpec, true, forward, right) == Neg(RotationAxis(axisSpec, false, forward, right))
  {
  }

  /** Yaw is about the vertical axis whatever the camera looks at. */
  lemma YawIsVertical(clockwise: bool, forward: Vec3, right: Vec3, forward': Vec3, right': Vec3)
    ensures RotationAxis(Yaw, false, forward, right) == PosZ
    ensures RotationAxis(Yaw, clockwise, forward, right) == RotationAxis(Yaw, clockwise, forward', right')
  {
  }

  // ---------------------------------------------------------------------------------
  // actionContext
  // ---------------------------------------------------------------------------------

  datatype ActionContext =
    | Default
    | NodeSelection
    | FaceSelection
    | CreateComplexBrushTool
    | ClipTool
    | VertexTool
    | RotateTool

  /** The tools of the tool box that decide the context when one of them is active. */
  datatype ToolState = ToolState(createComplexBrush: bool, clip: bool, vertex: bool, rotateObjects: bool)

  predicate AnyToolActive(t: ToolState) {
    t.createComplexBrush || t.clip || t.vertex || t.rotateObjects
  }

  predicate IsToolContext(c: ActionContext) {
    c.CreateComplexBrushTool? || c.ClipTool? || c.VertexTool? || c.RotateTool?
  }

  /**
   * The context for key bindings: the one the concrete view derives if it is not the
   * default, else the first active tool in the order complex brush, clip, vertex,
   * rotate, else node selection, else face selection, else the default.
   */
  function GetActionContext(derived: ActionContext, tools: ToolState, hasSelectedNodes: bool, hasSelectedBrushFaces: bool): (r: ActionContext)
    ensures derived != Default ==> r == derived
    ensures derived == Default && AnyToolActive(tools) ==> IsToolContext(r)
    ensures r == CreateComplexBrushTool <==>
      derived == CreateComplexBrushTool || (derived == Default && tools.createComplexBrush)
    ensures r == ClipTool <==> derived == ClipTool || (derived == Default && !tools.createComplexBrush && tools.clip)
    ensures r == VertexTool <==>
      derived == VertexTool || (derived == Default && !tools.createComplexBrush && !tools.clip && tools.vertex)
    ensures r == RotateTool <==>
      derived == RotateTool || (derived == Default && tools.rotateObjects && !tools.createComplexBrush && !tools.clip && !tools.vertex)
    ensures r == NodeSelection <==> derived == NodeSelection || (derived == Default && !AnyToolActive(tools) && hasSelectedNodes)
    ensures r == FaceSelection <==>
      derived == FaceSelection || (derived == Default && !AnyToolActive(tools) && !hasSelectedNodes && hasSelectedBrushFaces)
    ensures r == Default <==> derived == Default && !AnyToolActive(tools) && !hasSelectedNodes && !hasSelectedBrushFaces
  {
    if derived != Default then derived
    else if tools.createComplexBrush then CreateComplexBrushTool
    else if tools.clip then ClipTool
    else if tools.vertex then VertexTool
    else if tools.rotateObjects then RotateTool
    else if hasSelectedNodes then NodeSelection
    else if hasSelectedBrushFaces then FaceSelection
    else Default
  }

  // ---------------------------------------------------------------------------------
  // createBrushEntity: the entity template
  // ---------------------------------------------------------------------------------

  /** The first brush belongs to an entity, and every later brush is a child of it. */
  predicate AllInFirstEntity(brushes: seq<MapNode>)
    requires |brushes| > 0
  {
    brushes[0].entity.Some? && forall i :: 1 <= i < |brushes| ==> brushes[i].parent == brushes[0].entity
  }

  /**
   * The entity whose attributes a new brush entity made from the selected brushes copies:
   * the first brush's entity when every other brush is its child and it is not the world,
   * and none otherwise. The scan stops at the first brush with another parent.
   */
  method EntityTemplate(brushes: seq<MapNode>, world: nat) returns (template: Option<nat>)
    requires |brushes| > 0
    ensures template.Some? <==> AllInFirstEntity(brushes) && brushes[0].entity.value != world
    ensures template.Some? ==> template == brushes[0].entity
  {
    var candidate := brushes[0].entity;
    var i := 1;
    while i < |brushes| && candidate.Some?
      invariant 1 <= i <= |brushes|
      invariant candidate.Some? ==> candidate == brushes[0].entity
      invariant candidate.Some? ==> forall j :: 1 <= j < i ==> brushes[j].parent == candidate
      invariant candidate.None? ==> !AllInFirstEntity(brushes)
    {
      if brushes[i].parent != candidate {
        candidate := None;
      }
      i := i + 1;
    }
    if candidate.Some? && candidate.value != world {
      template := candidate;
    } else {
      template := None;
    }
  }
}
