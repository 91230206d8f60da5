/**
 * The renderer of point handles: points and highlights are collected per colour during
 * a frame, drawn in opaque and translucent passes, and then discarded.
 */
module PointHandles {

  datatype Color = Color(r: real, g: real, b: real, a: real)

  datatype Vec3f = Vec3f(x: real, y: real, z: real)

  /** Positions to draw, per colour. */
  type HandleMap = map<Color, seq<Vec3f>>

  /** The positions stored under `c`; `operator[]` starts an absent colour with no positions. */
  function Points(m: HandleMap, c: Color): seq<Vec3f> {
    if c in m then m[c] else []
  }

  /** `m[c].push_back(p)`: `p` goes after the positions of colour `c`, other colours keep theirs. */
  function Appended(m: HandleMap, c: Color, p: Vec3f): (r: HandleMap)
    ensures r.Keys == m.Keys + {c}
    ensures Points(r, c) == Points(m, c) + [p]
    ensures forall d :: d != c ==> Points(r, d) == Points(m, d)
  {
    m[c := Points(m, c) + [p]]
  }

  /** The map a series of `(colour, position)` additions builds on `m`, in the order given. */
  function AppendedAll(m: HandleMap, adds: seq<(Color, Vec3f)>): HandleMap
    decreases |adds|
  {
    if adds == [] then m
    else AppendedAll(Appended(m, adds[0].0, adds[0].1), adds[1..])
  }

  /** The positions of the additions in `adds` that have colour `c`, in order. */
  function PositionsOf(adds: seq<(Color, Vec3f)>, c: Color): seq<Vec3f> {
    if adds == [] then []
    else (if adds[0].0 == c then [adds[0].1] else []) + PositionsOf(adds[1..], c)
  }

  /**
   * Each colour's list holds what it held before and then exactly the positions added
   * with that colour, in the order they were added.
   */
  lemma {:induction false} AppendedAllKeepsArrivalOrder(m: HandleMap, adds: seq<(Color, Vec3f)>, c: Color)
    ensures Points(AppendedAll(m, adds), c) == Points(m, c) + PositionsOf(adds, c)
    decreases |adds|
  {
    if adds != [] {
      var m1 := Appended(m, adds[0].0, adds[0].1);
      AppendedAllKeepsArrivalOrder(m1, adds[1..], c);
    }
  }

  /** Which of the two maps a pass draws, and how. */
  datatype Pass = Pass(handles: HandleMap, opacity: real, depthTest: bool)

  class PointHandleRenderer {
    var pointHandles: HandleMap
    var highlights: HandleMap

    constructor ()
      ensures pointHandles == map[] && highlights == map[]
    {
      pointHandles := map[];
      highlights := map[];
    }

    method AddPoint(c: Color, p: Vec3f)
      modifies this`pointHandles
      ensures pointHandles == Appended(old(pointHandles), c, p)
    {
      pointHandles := Appended(pointHandles, c, p);
    }

    method AddHighlight(c: Color, p: Vec3f)
      modifies this`highlights
      ensures highlights == Appended(old(highlights), c, p)
    {
      highlights := Appended(highlights, c, p);
    }

    method Clear()
      modifies this
      ensures pointHandles == map[] && highlights == map[]
    {
      pointHandles := map[];
      highlights := map[];
    }

    /**
     * `doRender`: in 3D, an opaque depth-tested pass over points then highlights and a
     * translucent pass without depth test; in 2D one opaque pass without depth test. The
     * collected handles are discarded afterwards.
     */
    method Render(render3D: bool) returns (passes: seq<Pass>)
      modifies this
      ensures pointHandles == map[] && highlights == map[]
      ensures render3D ==> passes == [
        Pass(old(pointHandles), 1.0, true), Pass(old(highlights), 1.0, true),
        Pass(old(pointHandles), 0.33, false), Pass(old(highlights), 0.33, false)]
      ensures !render3D ==> passes == [Pass(old(pointHandles), 1.0, false), Pass(old(highlights), 1.0, false)]
    {
      if render3D {
        passes := [Pass(pointHandles, 1.0, true), Pass(highlights, 1.0, true)];
        passes := passes + [Pass(pointHandles, 0.33, false), Pass(highlights, 0.33, false)];
      } else {
        passes := [Pass(pointHandles, 1.0, false), Pass(highlights, 1.0, false)];
      }
      Clear();
    }
  }
}
