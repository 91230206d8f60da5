/**
 * Handles naming one face of a brush node: a (node, face index) pair whose index is
 * checked against the node's face count when the handle is made, compared by value,
 * and converted in bulk to and from nodes.
 */
module FaceHandles {
  import opened Wrappers

  /** A brush node: its identity and the number of faces its brush has. */
  datatype BrushNode = BrushNode(id: nat, faceCount: nat)

  datatype BrushFaceHandle = BrushFaceHandle(node: BrushNode, faceIndex: nat)

  const InvalidFaceIndex := "face index must be valid"

  /** A handle whose index names one of its node's faces. */
  predicate ValidHandle(h: BrushFaceHandle) {
    h.faceIndex < h.node.faceCount
  }

  /** The constructor: it raises unless the index is below the node's face count. */
  function MakeHandle(node: BrushNode, faceIndex: nat): (r: Result<BrushFaceHandle>)
    ensures r.Ok? <==> faceIndex < node.faceCount
    ensures r.Ok? ==> ValidHandle(r.value)
    ensures r.Err? ==> r.message == InvalidFaceIndex
  {
    if faceIndex < node.faceCount then Ok(BrushFaceHandle(node, faceIndex))
    else Err(InvalidFaceIndex)
  }

  /** The accessors give back exactly what the handle was made from. */
  lemma MakeHandleAccessors(node: BrushNode, faceIndex: nat)
    requires faceIndex < node.faceCount
    ensures MakeHandle(node, faceIndex).value.node == node
    ensures MakeHandle(node, faceIndex).value.faceIndex == faceIndex
  {
  }

  /** `operator==`: same node and same face index. */
  function Equal(lhs: BrushFaceHandle, rhs: BrushFaceHandle): (b: bool)
    ensures b <==> lhs == rhs
  {
    lhs.node == rhs.node && lhs.faceIndex == rhs.faceIndex
  }

  /** `operator!=`: the negation of `operator==`. */
  function NotEqual(lhs: BrushFaceHandle, rhs: BrushFaceHandle): (b: bool)
    ensures b <==> !Equal(lhs, rhs)
    ensures b <==> lhs.node != rhs.node || lhs.faceIndex != rhs.faceIndex
  {
    !Equal(lhs, rhs)
  }

  /** The node of each handle, in the order of the handles. */
  function ToNodes(handles: seq<BrushFaceHandle>): (r: seq<BrushNode>)
    ensures |r| == |handles|
    ensures forall i :: 0 <= i < |handles| ==> r[i] == handles[i].node
  {
    if handles == [] then [] else [handles[0].node] + ToNodes(handles[1..])
  }

  /** One handle per face of `node`, the i-th naming face i. */
  method ToHandles(node: BrushNode) returns (result: seq<BrushFaceHandle>)
    ensures |result| == node.faceCount
    ensures forall i :: 0 <= i < |result| ==> result[i] == BrushFaceHandle(node, i)
    ensures forall i :: 0 <= i < |result| ==> ValidHandle(result[i])
  {
    result := [];
    var i := 0;
    while i < node.faceCount
      invariant i <= node.faceCount
      invariant |result| == i
      invariant forall j :: 0 <= j < i ==> result[j] == BrushFaceHandle(node, j)
    {
      var h := MakeHandle(node, i);
      result := result + [h.value];
      i := i + 1;
    }
  }

  /** Converting the handles of one node back to nodes gives that node once per handle. */
  lemma {:induction false} ToNodesOfOneNode(handles: seq<BrushFaceHandle>, node: BrushNode)
    requires forall i :: 0 <= i < |handles| ==> handles[i].node == node
    ensures ToNodes(handles) == seq(|handles|, _ => node)
  {
    var r := ToNodes(handles);
    assert forall i :: 0 <= i < |r| ==> r[i] == node;
  }

  /** Converting concatenated handles converts each part. */
  lemma {:induction false} ToNodesAppend(a: seq<BrushFaceHandle>, b: seq<BrushFaceHandle>)
    ensures ToNodes(a + b) == ToNodes(a) + ToNodes(b)
  {
    if a == [] {
      assert a + b == b;
    } else {
      assert (a + b)[1..] == a[1..] + b;
      ToNodesAppend(a[1..], b);
    }
  }
}
