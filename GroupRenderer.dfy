/**
 * The renderer of group bounds and group names. It keeps the set of groups to draw and
 * a cache of the bounds' edge vertices that is rebuilt only after it was invalidated.
 */
module GroupRendering {
  import opened Wrappers

  datatype Vec3 = Vec3(x: real, y: real, z: real)

  /** An axis-aligned box. */
  datatype BBox = BBox(min: Vec3, max: Vec3)

  /**
   * A group node: its name, the id of the group it is linked to if any, the address of
   * the group that contains it if any, and its logical bounds.
   */
  datatype GroupNode = GroupNode(name: string, linkedGroupId: Option<string>, containingGroup: Option<nat>, bounds: BBox)

  /**
   * What the renderer asks of the editor: the address of the group currently open
   * for editing (none at the top level) and the addresses of the visible nodes.
   */
  datatype EditorContext = EditorContext(currentGroup: Option<nat>, visible: set<nat>)

  /**
   * The colour something is drawn in: the caller's override colour (bounds vertices then
   * carry no colour of their own), or one of the two group colour preferences.
   */
  datatype Paint = OverrideColor | LinkedGroupColor | DefaultGroupColor

  datatype Vertex = Vertex(position: Vec3, paint: Paint)

  /** A group name drawn as an overlay. */
  datatype Label = Label(text: string, paint: Paint, showOccluded: bool)

  const LinkedSuffix := " (linked)"

  /** Corner `i` of a box: bit 0 of `i` picks the x bound, bit 1 the y bound, bit 2 the z bound. */
  function Corner(b: BBox, i: nat): Vec3 {
    Vec3(if i % 2 == 0 then b.min.x else b.max.x,
         if (i / 2) % 2 == 0 then b.min.y else b.max.y,
         if (i / 4) % 2 == 0 then b.min.z else b.max.z)
  }

  /** The twelve edges of a box as pairs of corner numbers: four along x, four along y, four along z. */
  const EdgeCorners: seq<(nat, nat)> :=
    [(0, 1), (2, 3), (4, 5), (6, 7),
     (0, 2), (1, 3), (4, 6), (5, 7),
     (0, 4), (1, 5), (2, 6), (3, 7)]

  /** The two vertices of every edge of `b`, edge after edge. */
  function EdgeVertices(b: BBox, paint: Paint): (r: seq<Vertex>)
    ensures |r| == 2 * |EdgeCorners|
    ensures forall k :: 0 <= k < |EdgeCorners| ==>
      r[2 * k] == Vertex(Corner(b, EdgeCorners[k].0), paint)
      && r[2 * k + 1] == Vertex(Corner(b, EdgeCorners[k].1), paint)
  {
    var r := seq(2 * |EdgeCorners|, i requires 0 <= i < 2 * |EdgeCorners| =>
      Vertex(Corner(b, if i % 2 == 0 then EdgeCorners[i / 2].0 else EdgeCorners[i / 2].1), paint));
    assert forall k :: 0 <= k < |EdgeCorners| ==> (2 * k) / 2 == k && (2 * k + 1) / 2 == k;
    r
  }

  /** A group is drawn iff it sits directly in the group open for editing and is visible. */
  predicate ShouldRenderGroup(ctx: EditorContext, address: nat, g: GroupNode) {
    g.containingGroup == ctx.currentGroup && address in ctx.visible
  }

  /** A group's name, marked when the group is linked. */
  function GroupString(g: GroupNode): (s: string)
    ensures |s| >= |g.name| && s[..|g.name|] == g.name
    ensures g.linkedGroupId.Some? <==> |s| == |g.name| + |LinkedSuffix|
    ensures g.linkedGroupId.Some? ==> s[|g.name|..] == LinkedSuffix
    ensures g.linkedGroupId.None? ==> s == g.name
  {
    if g.linkedGroupId.Some? then g.name + LinkedSuffix else g.name
  }

  /** The group colour preference: one for linked groups, another for the rest. */
  function GroupColor(g: GroupNode): (p: Paint)
    ensures p != OverrideColor
    ensures p == LinkedGroupColor <==> g.linkedGroupId.Some?
  {
    if g.linkedGroupId.Some? then LinkedGroupColor else DefaultGroupColor
  }

  predicate StrictlySorted(s: seq<nat>) {
    forall i, j :: 0 <= i < j < |s| ==> s[i] < s[j]
  }

  /** `s` with `x` put in its place; the ordered-set insertion. */
  function Insert(s: seq<nat>, x: nat): (r: seq<nat>)
    requires StrictlySorted(s) && x !in s
    ensures StrictlySorted(r)
    ensures forall y :: y in r <==> y in s || y == x
    ensures |r| == |s| + 1
  {
    if s == [] then [x]
    else if x < s[0] then [x] + s
    else
      var t := Insert(s[1..], x);
      assert forall j :: 0 <= j < |t| ==> s[0] < t[j] by {
        assert forall i :: 1 <= i < |s| ==> s[0] < s[i];
        assert forall j :: 0 <= j < |t| ==> t[j] in t;
      }
      [s[0]] + t
  }

  /** `s` without `x`; the ordered-set erasure. */
  function Remove(s: seq<nat>, x: nat): (r: seq<nat>)
    requires StrictlySorted(s)
    ensures StrictlySorted(r)
    ensures forall y :: y in r <==> y in s && y != x
    ensures x in s ==> |r| == |s| - 1
    ensures x !in s ==> r == s
  {
    if s == [] then []
    else if s[0] == x then s[1..]
    else
      var t := Remove(s[1..], x);
      assert forall j :: 0 <= j < |t| ==> s[0] < t[j] by {
        assert forall i :: 1 <= i < |s| ==> s[0] < s[i];
        assert forall j :: 0 <= j < |t| ==> t[j] in t;
      }
      assert x in s ==> x in s[1..] by {
        assert s == [s[0]] + s[1..];
      }
      [s[0]] + t
  }

  /** Every address in `groups` names a live group node. */
  predicate Live(groups: seq<nat>, nodes: map<nat, GroupNode>) {
    forall i :: 0 <= i < |groups| ==> groups[i] in nodes
  }

  /** The addresses among `groups` whose group is drawn, in order. */
  function Rendered(groups: seq<nat>, nodes: map<nat, GroupNode>, ctx: EditorContext): (r: seq<nat>)
    requires Live(groups, nodes)
    ensures |r| <= |groups|
    ensures forall i :: 0 <= i < |r| ==> r[i] in nodes && ShouldRenderGroup(ctx, r[i], nodes[r[i]])
    ensures forall a :: a in r <==> a in groups && a in nodes && ShouldRenderGroup(ctx, a, nodes[a])
    ensures StrictlySorted(groups) ==> StrictlySorted(r)
  {
    if groups == [] then []
    else
      var init := groups[..|groups| - 1];
      var a := groups[|groups| - 1];
      assert groups == init + [a];
      var front := Rendered(init, nodes, ctx);
      assert StrictlySorted(groups) ==> forall j :: 0 <= j < |front| ==> front[j] < a by {
        if StrictlySorted(groups) {
          assert forall j :: 0 <= j < |front| ==> front[j] in init;
          assert forall x :: x in init ==> x < a;
        }
      }
      front + (if ShouldRenderGroup(ctx, a, nodes[a]) then [a] else [])
  }

  /** The edge vertices `validateBounds` builds for the groups at `groups`, in order. */
  function BoundsVertices(groups: seq<nat>, nodes: map<nat, GroupNode>, ctx: EditorContext, overrideColors: bool): seq<Vertex>
    requires Live(groups, nodes)
  {
    if groups == [] then []
    else
      var init := groups[..|groups| - 1];
      var a := groups[|groups| - 1];
      BoundsVertices(init, nodes, ctx, overrideColors) + GroupVertices(nodes[a], a, ctx, overrideColors)
  }

  /** The vertices one group contributes. */
  function GroupVertices(g: GroupNode, address: nat, ctx: EditorContext, overrideColors: bool): (r: seq<Vertex>)
    ensures ShouldRenderGroup(ctx, address, g) ==> |r| == 2 * |EdgeCorners|
    ensures !ShouldRenderGroup(ctx, address, g) ==> r == []
    ensures forall i :: 0 <= i < |r| ==> r[i].paint == if overrideColors then OverrideColor else GroupColor(g)
  {
    if ShouldRenderGroup(ctx, address, g) then
      EdgeVertices(g.bounds, if overrideColors then OverrideColor else GroupColor(g))
    else []
  }

  /** The name labels `renderNames` draws for the groups at `groups`, in order. */
  function Labels(groups: seq<nat>, nodes: map<nat, GroupNode>, ctx: EditorContext, overrideColors: bool, showOccluded: bool): seq<Label>
    requires Live(groups, nodes)
  {
    if groups == [] then []
    else
      var init := groups[..|groups| - 1];
      var a := groups[|groups| - 1];
      Labels(init, nodes, ctx, overrideColors, showOccluded)
      + (if ShouldRenderGroup(ctx, a, nodes[a]) then [GroupLabel(nodes[a], overrideColors, showOccluded)] else [])
  }

  function GroupLabel(g: GroupNode, overrideColors: bool, showOccluded: bool): Label {
    Label(GroupString(g), if overrideColors then OverrideColor else GroupColor(g), showOccluded)
  }

  /** Two vertices per edge of every drawn group, and nothing for the other groups. */
  lemma {:induction false} BoundsVerticesCount(groups: seq<nat>, nodes: map<nat, GroupNode>, ctx: EditorContext, overrideColors: bool)
    requires Live(groups, nodes)
    ensures |BoundsVertices(groups, nodes, ctx, overrideColors)| == 2 * |EdgeCorners| * |Rendered(groups, nodes, ctx)|
  {
    if groups != [] {
      var init := groups[..|groups| - 1];
      assert Live(init, nodes);
      BoundsVerticesCount(init, nodes, ctx, overrideColors);
    }
  }

  /** Nothing is drawn for a group that should not be rendered. */
  lemma {:induction false} HiddenGroupsDrawNothing(groups: seq<nat>, nodes: map<nat, GroupNode>, ctx: EditorContext, overrideColors: bool)
    requires Live(groups, nodes)
    requires forall i :: 0 <= i < |groups| ==> !ShouldRenderGroup(ctx, groups[i], nodes[groups[i]])
    ensures BoundsVertices(groups, nodes, ctx, overrideColors) == []
    ensures Labels(groups, nodes, ctx, overrideColors, true) == []
    ensures Labels(groups, nodes, ctx, overrideColors, false) == []
  {
    if groups != [] {
      var init := groups[..|groups| - 1];
      assert Live(init, nodes);
      HiddenGroupsDrawNothing(init, nodes, ctx, overrideColors);
    }
  }

  /** One label per drawn group, in order, showing that group's string. */
  lemma {:induction false} LabelsFollowRendered(groups: seq<nat>, nodes: map<nat, GroupNode>, ctx: EditorContext, overrideColors: bool, showOccluded: bool)
    requires Live(groups, nodes)
    ensures var ls := Labels(groups, nodes, ctx, overrideColors, showOccluded);
      var rs := Rendered(groups, nodes, ctx);
      && |ls| == |rs|
      && forall i :: 0 <= i < |ls| ==> ls[i] == GroupLabel(nodes[rs[i]], overrideColors, showOccluded)
  {
    if groups != [] {
      var init := groups[..|groups| - 1];
      assert Live(init, nodes);
      LabelsFollowRendered(init, nodes, ctx, overrideColors, showOccluded);
    }
  }

  class GroupRenderer {
    /** The addresses of the groups to draw, in ascending order, each once. */
    var groups: seq<nat>
    var boundsValid: bool
    /** The edge vertices the bounds renderer holds. */
    var boundsVertices: seq<Vertex>
    var overrideColors: bool
    var showOverlays: bool
    var showOccludedOverlays: bool
    var showOccludedBounds: bool

    ghost predicate Valid()
      reads this
    {
      StrictlySorted(groups)
    }

    constructor ()
      ensures Valid()
      ensures groups == [] && boundsVertices == []
      ensures !boundsValid && !overrideColors && showOverlays
      ensures !showOccludedOverlays && !showOccludedBounds
    {
      groups := [];
      boundsValid := false;
      boundsVertices := [];
      overrideColors := false;
      showOverlays := true;
      showOccludedOverlays := false;
      showOccludedBounds := false;
    }

    /** `invalidate`, and `invalidateGroup`, which does the same whatever the group. */
    method Invalidate()
      modifies this`boundsValid
      ensures !boundsValid
    {
      boundsValid := false;
    }

    /** Empties the group set and the bounds renderer; the valid flag is left as it was. */
    method Clear()
      modifies this`groups, this`boundsVertices
      ensures Valid()
      ensures groups == [] && boundsVertices == []
    {
      groups := [];
      boundsVertices := [];
    }

    /** Inserts a group; the bounds are invalidated only when it was not there yet. */
    method AddGroup(address: nat)
      requires Valid()
      modifies this`groups, this`boundsValid
      ensures Valid()
      ensures forall a :: a in groups <==> a in old(groups) || a == address
      ensures address in old(groups) ==> groups == old(groups) && boundsValid == old(boundsValid)
      ensures address !in old(groups) ==> |groups| == |old(groups)| + 1 && !boundsValid
    {
      if address !in groups {
        groups := Insert(groups, address);
        Invalidate();
      }
    }

    /** Erases a group; only when it was there are the bounds invalidated. */
    method RemoveGroup(address: nat)
      requires Valid()
      modifies this`groups, this`boundsValid
      ensures Valid()
      ensures forall a :: a in groups <==> a in old(groups) && a != address
      ensures address !in old(groups) ==> groups == old(groups) && boundsValid == old(boundsValid)
      ensures address in old(groups) ==> |groups| == |old(groups)| - 1 && !boundsValid
    {
      if address in groups {
        groups := Remove(groups, address);
        Invalidate();
      }
    }

    method SetOverrideColors(b: bool)
      modifies this`overrideColors
      ensures overrideColors == b
    {
      overrideColors := b;
    }

    method SetShowOverlays(b: bool)
      modifies this`showOverlays
      ensures showOverlays == b
    {
      showOverlays := b;
    }

    method SetShowOccludedOverlays(b: bool)
      modifies this`showOccludedOverlays
      ensures showOccludedOverlays == b
    {
      showOccludedOverlays := b;
    }

    method SetShowOccludedBounds(b: bool)
      modifies this`showOccludedBounds
      ensures showOccludedBounds == b
    {
      showOccludedBounds := b;
    }

    /** Rebuilds the edge vertices of every drawn group and marks the bounds valid. */
    method ValidateBounds(nodes: map<nat, GroupNode>, ctx: EditorContext)
      requires Live(groups, nodes)
      modifies this`boundsVertices, this`boundsValid
      ensures boundsValid
      ensures boundsVertices == BoundsVertices(groups, nodes, ctx, overrideColors)
    {
      var vertices := [];
      for i := 0 to |groups|
        invariant Live(groups[..i], nodes)
        invariant vertices == BoundsVertices(groups[..i], nodes, ctx, overrideColors)
      {
        assert groups[..i + 1][..i] == groups[..i];
        var g := nodes[groups[i]];
        if ShouldRenderGroup(ctx, groups[i], g) {
          vertices := vertices + EdgeVertices(g.bounds, if overrideColors then OverrideColor else GroupColor(g));
        }
      }
      assert groups[..|groups|] == groups;
      boundsVertices := vertices;
      boundsValid := true;
    }

    /** Draws the bounds, first rebuilding them if they were invalidated. */
    method RenderBounds(nodes: map<nat, GroupNode>, ctx: EditorContext)
      requires Live(groups, nodes)
      modifies this`boundsVertices, this`boundsValid
      ensures boundsValid
      ensures old(boundsValid) ==> boundsVertices == old(boundsVertices)
      ensures !old(boundsValid) ==> boundsVertices == BoundsVertices(groups, nodes, ctx, overrideColors)
    {
      if !boundsValid {
        ValidateBounds(nodes, ctx);
      }
    }

    /** The name labels drawn: none when overlays are off, else one per drawn group. */
    method RenderNames(nodes: map<nat, GroupNode>, ctx: EditorContext) returns (labels: seq<Label>)
      requires Live(groups, nodes)
      ensures !showOverlays ==> labels == []
      ensures showOverlays ==> labels == Labels(groups, nodes, ctx, overrideColors, showOccludedOverlays)
    {
      labels := [];
      if showOverlays {
        for i := 0 to |groups|
          invariant Live(groups[..i], nodes)
          invariant labels == Labels(groups[..i], nodes, ctx, overrideColors, showOccludedOverlays)
        {
          assert groups[..i + 1][..i] == groups[..i];
          var g := nodes[groups[i]];
          if ShouldRenderGroup(ctx, groups[i], g) {
            labels := labels + [GroupLabel(g, overrideColors, showOccludedOverlays)];
          }
        }
        assert groups[..|groups|] == groups;
      }
    }

    /** Draws bounds and names, only when there are groups and group bounds are shown. */
    method Render(nodes: map<nat, GroupNode>, ctx: EditorContext, showGroupBounds: bool) returns (labels: seq<Label>)
      requires Live(groups, nodes)
      modifies this`boundsVertices, this`boundsValid
      ensures groups == [] || !showGroupBounds ==>
        labels == [] && boundsValid == old(boundsValid) && boundsVertices == old(boundsVertices)
      ensures groups != [] && showGroupBounds ==> boundsValid
      ensures groups != [] && showGroupBounds && old(boundsValid) ==> boundsVertices == old(boundsVertices)
      ensures groups != [] && showGroupBounds && !old(boundsValid) ==>
        boundsVertices == BoundsVertices(groups, nodes, ctx, overrideColors)
      ensures groups != [] && showGroupBounds && !showOverlays ==> labels == []
      ensures groups != [] && showGroupBounds && showOverlays ==>
        labels == Labels(groups, nodes, ctx, overrideColors, showOccludedOverlays)
    {
      labels := [];
      if groups != [] && showGroupBounds {
        RenderBounds(nodes, ctx);
        labels := RenderNames(nodes, ctx);
      }
    }
  }
}
