/**
 * A render batch: renderables are registered in four lists and the batch then prepares
 * the direct ones, then the indexed ones, then renders every registered renderable in
 * the order of registration. Indexed renderables are registered through a wrapper the
 * batch owns; one-shot renderables are owned by the batch as well.
 */
module Rendering {
  import opened Wrappers

  /** The three dynamic kinds of renderable: plain, direct (vertices only) and indexed. */
  datatype RenderableKind = Plain | Direct | Indexed

  /** A renderable object outside the batch; `id` is its identity. */
  datatype Renderable = Renderable(id: nat, kind: RenderableKind)

  /**
   * What the batch holds: a caller's renderable itself, or a wrapper the batch made
   * around an indexed renderable; `serial` tells wrappers made at different times apart.
   */
  datatype Entry = Original(renderable: Renderable) | Wrapper(serial: nat, wrappee: Renderable)

  /** The renderable that does the work when an entry is called: a wrapper forwards to its wrappee. */
  function Target(e: Entry): Renderable {
    match e
    case Original(r) => r
    case Wrapper(_, w) => w
  }

  /** The calls `render` makes on renderables. */
  datatype Call =
    | PrepareVertices(renderable: Renderable)
    | PrepareVerticesAndIndices(renderable: Renderable)
    | Render(renderable: Renderable)

  const RenderableIsNull := "renderable is null"
  const WrappeeIsNull := "wrappee is null"

  class RenderBatch {
    var batch: seq<Entry>
    var directRenderables: seq<Renderable>
    var indexedRenderables: seq<Entry>
    var oneshots: seq<Renderable>
    /** How many wrappers the batch has made; the next wrapper gets this serial. */
    var wrappersMade: nat

    /**
     * Every wrapper was made by this batch, once, and is in the indexed list, which
     * the batch deletes; the direct list holds direct renderables that are in the batch.
     */
    ghost predicate Valid()
      reads this
    {
      && (forall i :: 0 <= i < |indexedRenderables| ==>
            indexedRenderables[i].Wrapper? && indexedRenderables[i].serial < wrappersMade
            && indexedRenderables[i] in batch)
      && (forall i, j :: 0 <= i < j < |indexedRenderables| ==>
            indexedRenderables[i].serial != indexedRenderables[j].serial)
      && (forall i :: 0 <= i < |batch| ==> batch[i].Wrapper? ==> batch[i] in indexedRenderables)
      && (forall i :: 0 <= i < |directRenderables| ==>
            directRenderables[i].kind == Direct && Original(directRenderables[i]) in batch)
    }

    constructor ()
      ensures Valid()
      ensures batch == [] && directRenderables == [] && indexedRenderables == [] && oneshots == []
    {
      batch := [];
      directRenderables := [];
      indexedRenderables := [];
      oneshots := [];
      wrappersMade := 0;
    }

    /** `doAdd`: raises on null, otherwise appends to the batch list. */
    method DoAdd(e: Option<Entry>) returns (error: Option<string>)
      modifies this`batch
      ensures error == None <==> e.Some?
      ensures error.Some? ==> error.value == RenderableIsNull
      ensures batch == old(batch) + (if e.Some? then [e.value] else [])
    {
      if e.None? {
        return Some(RenderableIsNull);
      }
      batch := batch + [e.value];
      error := None;
    }

    /** `add(Renderable*)`: only the batch list grows. */
    method Add(r: Option<Renderable>) returns (error: Option<string>)
      requires Valid()
      modifies this
      ensures Valid()
      ensures error == None <==> r.Some?
      ensures error.Some? ==> error.value == RenderableIsNull
      ensures batch == old(batch) + (if r.Some? then [Original(r.value)] else [])
      ensures directRenderables == old(directRenderables)
      ensures indexedRenderables == old(indexedRenderables)
      ensures oneshots == old(oneshots)
      ensures wrappersMade == old(wrappersMade)
    {
      error := DoAdd(if r.Some? then Some(Original(r.value)) else None);
    }

    /** `add(DirectRenderable*)`: the same renderable goes to the batch and the direct list. */
    method AddDirect(r: Option<Renderable>) returns (error: Option<string>)
      requires Valid()
      requires r.Some? ==> r.value.kind == Direct
      modifies this
      ensures Valid()
      ensures error == None <==> r.Some?
      ensures error.Some? ==> error.value == RenderableIsNull
      ensures batch == old(batch) + (if r.Some? then [Original(r.value)] else [])
      ensures directRenderables == old(directRenderables) + (if r.Some? then [r.value] else [])
      ensures indexedRenderables == old(indexedRenderables)
      ensures oneshots == old(oneshots)
      ensures wrappersMade == old(wrappersMade)
    {
      error := DoAdd(if r.Some? then Some(Original(r.value)) else None);
      if error == None {
        directRenderables := directRenderables + [r.value];
      }
    }

    /**
     * Makes the wrapper for an indexed renderable (raising on null) and registers it
     * in the batch and the indexed list.
     */
    method AddWrapped(r: Option<Renderable>) returns (error: Option<string>, ghost w: Entry)
      requires Valid()
      modifies this
      ensures Valid()
      ensures error == None <==> r.Some?
      ensures error.Some? ==> error.value == WrappeeIsNull
      ensures r.Some? ==> w == Wrapper(old(wrappersMade), r.value) && w !in old(batch)
      ensures batch == old(batch) + (if r.Some? then [w] else [])
      ensures indexedRenderables == old(indexedRenderables) + (if r.Some? then [w] else [])
      ensures wrappersMade == old(wrappersMade) + (if r.Some? then 1 else 0)
      ensures directRenderables == old(directRenderables)
      ensures oneshots == old(oneshots)
    {
      w := Original(Renderable(0, Plain));
      if r.None? {
        return Some(WrappeeIsNull), w;
      }
      var wrapper := Wrapper(wrappersMade, r.value);
      w := wrapper;
      assert wrapper !in batch by {
        forall e | e in batch
          ensures e != wrapper
        {
          if e.Wrapper? {
            assert e in indexedRenderables;
          }
        }
      }
      wrappersMade := wrappersMade + 1;
      var _ := DoAdd(Some(wrapper));
      indexedRenderables := indexedRenderables + [wrapper];
      error := None;
    }

    /**
     * `add(IndexedRenderable*)`: a fresh wrapper, not the renderable itself, goes to
     * the batch and the indexed list.
     */
    method AddIndexed(r: Option<Renderable>) returns (error: Option<string>)
      requires Valid()
      requires r.Some? ==> r.value.kind == Indexed
      modifies this
      ensures Valid()
      ensures error == None <==> r.Some?
      ensures error.Some? ==> error.value == WrappeeIsNull
      ensures r.Some? ==>
        var w := Wrapper(old(wrappersMade), r.value);
        && w !in old(batch)
        && batch == old(batch) + [w]
        && indexedRenderables == old(indexedRenderables) + [w]
      ensures r.None? ==> batch == old(batch) && indexedRenderables == old(indexedRenderables)
      ensures directRenderables == old(directRenderables)
      ensures oneshots == old(oneshots)
      ensures wrappersMade == old(wrappersMade) + (if r.Some? then 1 else 0)
    {
      ghost var w;
      error, w := AddWrapped(r);
    }

    /** `addOneShot(Renderable*)`: the batch list grows and the batch takes ownership. */
    method AddOneShot(r: Option<Renderable>) returns (error: Option<string>)
      requires Valid()
      modifies this
      ensures Valid()
      ensures error == None <==> r.Some?
      ensures error.Some? ==> error.value == RenderableIsNull
      ensures batch == old(batch) + (if r.Some? then [Original(r.value)] else [])
      ensures oneshots == old(oneshots) + (if r.Some? then [r.value] else [])
      ensures directRenderables == old(directRenderables)
      ensures indexedRenderables == old(indexedRenderables)
      ensures wrappersMade == old(wrappersMade)
    {
      error := DoAdd(if r.Some? then Some(Original(r.value)) else None);
      if error == None {
        oneshots := oneshots + [r.value];
      }
    }

    /** `addOneShot(DirectRenderable*)`: batch, direct list and owned one-shots all grow. */
    method AddOneShotDirect(r: Option<Renderable>) returns (error: Option<string>)
      requires Valid()
      requires r.Some? ==> r.value.kind == Direct
      modifies this
      ensures Valid()
      ensures error == None <==> r.Some?
      ensures error.Some? ==> error.value == RenderableIsNull
      ensures batch == old(batch) + (if r.Some? then [Original(r.value)] else [])
      ensures directRenderables == old(directRenderables) + (if r.Some? then [r.value] else [])
      ensures oneshots == old(oneshots) + (if r.Some? then [r.value] else [])
      ensures indexedRenderables == old(indexedRenderables)
      ensures wrappersMade == old(wrappersMade)
    {
      error := DoAdd(if r.Some? then Some(Original(r.value)) else None);
      if error == None {
        directRenderables := directRenderables + [r.value];
        oneshots := oneshots + [r.value];
      }
    }

    /**
     * `addOneShot(IndexedRenderable*)`: the wrapper goes to the batch and the indexed
     * list, while the original renderable goes to the owned one-shots.
     */
    method AddOneShotIndexed(r: Option<Renderable>) returns (error: Option<string>)
      requires Valid()
      requires r.Some? ==> r.value.kind == Indexed
      modifies this
      ensures Valid()
      ensures error == None <==> r.Some?
      ensures error.Some? ==> error.value == WrappeeIsNull
      ensures r.Some? ==>
        var w := Wrapper(old(wrappersMade), r.value);
        && w !in old(batch)
        && batch == old(batch) + [w]
        && indexedRenderables == old(indexedRenderables) + [w]
        && oneshots == old(oneshots) + [r.value]
      ensures r.None? ==>
        batch == old(batch) && indexedRenderables == old(indexedRenderables) && oneshots == old(oneshots)
      ensures directRenderables == old(directRenderables)
      ensures wrappersMade == old(wrappersMade) + (if r.Some? then 1 else 0)
    {
      ghost var w;
      error, w := AddWrapped(r);
      if error == None {
        oneshots := oneshots + [r.value];
      }
    }

    /**
     * `render`: prepares every direct renderable, then every indexed one (through its
     * wrapper), then renders every entry of the batch in the order it was added.
     */
    method RenderCalls() returns (calls: seq<Call>)
      ensures |calls| == |directRenderables| + |indexedRenderables| + |batch|
      ensures forall i :: 0 <= i < |directRenderables| ==>
        calls[i] == PrepareVertices(directRenderables[i])
      ensures forall i :: 0 <= i < |indexedRenderables| ==>
        calls[|directRenderables| + i] == PrepareVerticesAndIndices(Target(indexedRenderables[i]))
      ensures forall i :: 0 <= i < |batch| ==>
        calls[|directRenderables| + |indexedRenderables| + i] == Render(Target(batch[i]))
    {
      calls := PrepareRenderables();
      var rendered := RenderRenderables();
      calls := calls + rendered;
    }

    /** `prepareRenderables`: direct renderables first, then indexed ones. */
    method PrepareRenderables() returns (calls: seq<Call>)
      ensures |calls| == |directRenderables| + |indexedRenderables|
      ensures forall i :: 0 <= i < |directRenderables| ==>
        calls[i] == PrepareVertices(directRenderables[i])
      ensures forall i :: 0 <= i < |indexedRenderables| ==>
        calls[|directRenderables| + i] == PrepareVerticesAndIndices(Target(indexedRenderables[i]))
    {
      calls := [];
      for i := 0 to |directRenderables|
        invariant |calls| == i
        invariant forall j :: 0 <= j < i ==> calls[j] == PrepareVertices(directRenderables[j])
      {
        calls := calls + [PrepareVertices(directRenderables[i])];
      }
      for i := 0 to |indexedRenderables|
        invariant |calls| == |directRenderables| + i
        invariant forall j :: 0 <= j < |directRenderables| ==>
          calls[j] == PrepareVertices(directRenderables[j])
        invariant forall j :: 0 <= j < i ==>
          calls[|directRenderables| + j] == PrepareVerticesAndIndices(Target(indexedRenderables[j]))
      {
        calls := calls + [PrepareVerticesAndIndices(Target(indexedRenderables[i]))];
      }
    }

    /** `renderRenderables`: one render call per batch entry, in order. */
    method RenderRenderables() returns (calls: seq<Call>)
      ensures |calls| == |batch|
      ensures forall i :: 0 <= i < |batch| ==> calls[i] == Render(Target(batch[i]))
    {
      calls := [];
      for i := 0 to |batch|
        invariant |calls| == i
        invariant forall j :: 0 <= j < i ==> calls[j] == Render(Target(batch[j]))
      {
        calls := calls + [Render(Target(batch[i]))];
      }
    }
  }

  /**
   * In the calls `render` makes on lists `direct`, `indexed` and `batch`, no preparation
   * comes after a render call: all preparation happens first.
   */
  lemma PreparationPrecedesRendering(
    direct: seq<Renderable>, indexed: seq<Entry>, batch: seq<Entry>, calls: seq<Call>, i: nat, j: nat)
    requires |calls| == |direct| + |indexed| + |batch|
    requires forall k :: 0 <= k < |direct| ==> calls[k] == PrepareVertices(direct[k])
    requires forall k :: 0 <= k < |indexed| ==>
      calls[|direct| + k] == PrepareVerticesAndIndices(Target(indexed[k]))
    requires forall k :: 0 <= k < |batch| ==>
      calls[|direct| + |indexed| + k] == Render(Target(batch[k]))
    requires i < j < |calls| && calls[i].Render?
    ensures calls[j].Render?
  {
    var p := |direct| + |indexed|;
    forall k | 0 <= k < p
      ensures !calls[k].Render?
    {
      if k < |direct| {
        assert calls[k] == PrepareVertices(direct[k]);
      } else {
        assert calls[k] == PrepareVerticesAndIndices(Target(indexed[k - |direct|]));
      }
    }
    assert calls[j] == Render(Target(batch[j - p]));
  }
}
