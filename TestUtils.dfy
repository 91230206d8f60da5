/**
 * Helpers of the test suite: reading one colour component of a texture pixel and
 * checking a pixel's colour, finding a brush face by its three points, and comparing
 * texture coordinate lists.
 */
module TestUtilities {
  import opened Wrappers

  // ---------------------------------------------------------------------------------
  // getComponentOfPixel / checkColor
  // ---------------------------------------------------------------------------------

  newtype byte = x: int | 0 <= x < 256

  // OpenGL pixel format names, as the OpenGL specification numbers them.
  const GL_RGBA := 0x1908
  const GL_BGRA := 0x80E1

  const ExpectedFormat := "expected GL_BGRA or GL_RGBA"

  datatype Component = R | G | B | A

  /** A texture: its size, its pixel format and the bytes of its first mip level. */
  datatype Texture = Texture(width: nat, height: nat, format: int, mip0: seq<byte>)

  /** The byte of a pixel's four that holds `component`: RGBA order, or BGRA order. */
  function ComponentIndex(format: int, component: Component): (i: nat)
    ensures i < 4
    ensures component == G ==> i == 1
    ensures component == A ==> i == 3
    ensures format == GL_RGBA && component == R ==> i == 0
    ensures format == GL_RGBA && component == B ==> i == 2
    ensures format != GL_RGBA && component == R ==> i == 2
    ensures format != GL_RGBA && component == B ==> i == 0
  {
    if format == GL_RGBA then
      match component
      case R => 0
      case G => 1
      case B => 2
      case A => 3
    else
      match component
      case R => 2
      case G => 1
      case B => 0
      case A => 3
  }

  /** The two formats are the same layout with red and blue exchanged. */
  lemma {:induction false} FormatsSwapRedAndBlue(c: Component)
    ensures ComponentIndex(GL_BGRA, c) == ComponentIndex(GL_RGBA, match c case R => B case B => R case G => G case A => A)
  {
    match c
    case R =>
      assert ComponentIndex(GL_BGRA, R) == 2 == ComponentIndex(GL_RGBA, B);
    case B =>
      assert ComponentIndex(GL_BGRA, B) == 0 == ComponentIndex(GL_RGBA, R);
    case G =>
    case A =>
  }

  /** The position of a component of pixel (x, y) in rows of `width` four-byte pixels. */
  function PixelOffset(width: nat, x: nat, y: nat, componentIndex: nat): nat {
    width * 4 * y + x * 4 + componentIndex
  }

  /** A component of a pixel inside the texture lies inside the w·h·4 bytes of its mip. */
  lemma PixelOffsetInBounds(width: nat, height: nat, x: nat, y: nat, componentIndex: nat)
    requires x < width && y < height && componentIndex < 4
    ensures PixelOffset(width, x, y, componentIndex) < width * height * 4
  {
    assert x * 4 + componentIndex < width * 4;
    assert width * 4 * y + width * 4 == width * 4 * (y + 1);
    assert y + 1 <= height;
    assert width * 4 * (y + 1) <= width * 4 * height by {
      MultiplyMonotone(width * 4, y + 1, height);
    }
    assert width * 4 * height == width * height * 4;
  }

  lemma MultiplyMonotone(k: nat, a: nat, b: nat)
    requires a <= b
    ensures k * a <= k * b
  {
    assert k * b == k * a + k * (b - a);
  }

  /**
   * One colour component of pixel (x, y); a texture in a format other than RGBA or BGRA
   * is an error. The buffer must hold w·h·4 bytes and the pixel must lie inside.
   */
  function GetComponentOfPixel(texture: Texture, x: nat, y: nat, component: Component): (r: Result<int>)
    requires |texture.mip0| == texture.width * texture.height * 4
    requires x < texture.width && y < texture.height
    ensures r.Ok? <==> texture.format == GL_RGBA || texture.format == GL_BGRA
    ensures r.Err? ==> r.message == ExpectedFormat
    ensures r.Ok? ==> 0 <= r.value < 256
    ensures r.Ok? ==>
      var i := PixelOffset(texture.width, x, y, ComponentIndex(texture.format, component));
      i < |texture.mip0| && r.value == texture.mip0[i] as int
  {
    if texture.format != GL_BGRA && texture.format != GL_RGBA then Err(ExpectedFormat)
    else
      var componentIndex := ComponentIndex(texture.format, component);
      PixelOffsetInBounds(texture.width, texture.height, x, y, componentIndex);
      Ok(texture.mip0[PixelOffset(texture.width, x, y, componentIndex)] as int)
  }

  datatype ColorMatch = Exact | Approximate

  function Abs(n: int): nat {
    if n < 0 then -n else n
  }

  /**
   * The checks on an expected and an actual colour: within 5 on red, green and blue for
   * an approximate match (lossy formats), equal on all four for an exact one; alpha is
   * always compared exactly.
   */
  predicate ColorMatches(r: int, g: int, b: int, a: int, actual: (int, int, int, int), mode: ColorMatch) {
    if mode == Approximate then
      Abs(r - actual.0) <= 5 && Abs(g - actual.1) <= 5 && Abs(b - actual.2) <= 5 && a == actual.3
    else
      r == actual.0 && g == actual.1 && b == actual.2 && a == actual.3
  }

  /** An exact match is an approximate one, and an approximate one never excuses alpha. */
  lemma ExactImpliesApproximate(r: int, g: int, b: int, a: int, actual: (int, int, int, int))
    ensures ColorMatches(r, g, b, a, actual, Exact) ==> ColorMatches(r, g, b, a, actual, Approximate)
    ensures ColorMatches(r, g, b, a, actual, Approximate) ==> a == actual.3
  {
  }

  /** An approximate match accepts an error of at most 5 per colour channel. */
  lemma ApproximateTolerance(r: int, g: int, b: int, a: int, actual: (int, int, int, int))
    ensures ColorMatches(r, g, b, a, actual, Approximate) <==>
      r - 5 <= actual.0 <= r + 5 && g - 5 <= actual.1 <= g + 5 && b - 5 <= actual.2 <= b + 5 && a == actual.3
  {
  }

  /**
   * Whether every check `checkColor` makes on pixel (x, y) passes; a texture in another
   * format than RGBA or BGRA is an error.
   */
  function CheckColor(texture: Texture, x: nat, y: nat, r: int, g: int, b: int, a: int, mode: ColorMatch): (res: Result<bool>)
    requires |texture.mip0| == texture.width * texture.height * 4
    requires x < texture.width && y < texture.height
    ensures res.Ok? <==> texture.format == GL_RGBA || texture.format == GL_BGRA
    ensures res.Ok? ==> (res.value <==> ColorMatches(r, g, b, a,
      (GetComponentOfPixel(texture, x, y, R).value, GetComponentOfPixel(texture, x, y, G).value,
       GetComponentOfPixel(texture, x, y, B).value, GetComponentOfPixel(texture, x, y, A).value), mode))
  {
    var actualR := GetComponentOfPixel(texture, x, y, R);
    if actualR.Err? then Err(actualR.message)
    else
      var actual := (actualR.value, GetComponentOfPixel(texture, x, y, G).value,
                     GetComponentOfPixel(texture, x, y, B).value, GetComponentOfPixel(texture, x, y, A).value);
      Ok(ColorMatches(r, g, b, a, actual, mode))
  }

  // ---------------------------------------------------------------------------------
  // findFaceByPoints
  // ---------------------------------------------------------------------------------

  datatype Vec3 = Vec3(x: real, y: real, z: real)

  /** A brush face, by the three points that define its plane. */
  datatype BrushFace = BrushFace(point0: Vec3, point1: Vec3, point2: Vec3)

  predicate HasPoints(face: BrushFace, point0: Vec3, point1: Vec3, point2: Vec3) {
    face.point0 == point0 && face.point1 == point1 && face.point2 == point2
  }

  /** The index of the first face with exactly these three points in this order, if any. */
  method FindFaceByPoints(faces: seq<BrushFace>, point0: Vec3, point1: Vec3, point2: Vec3) returns (r: Option<nat>)
    ensures r.Some? ==> r.value < |faces| && HasPoints(faces[r.value], point0, point1, point2)
    ensures r.Some? ==> forall j :: 0 <= j < r.value ==> !HasPoints(faces[j], point0, point1, point2)
    ensures r.None? <==> forall j :: 0 <= j < |faces| ==> !HasPoints(faces[j], point0, point1, point2)
  {
    var i := 0;
    while i < |faces|
      invariant i <= |faces|
      invariant forall j :: 0 <= j < i ==> !HasPoints(faces[j], point0, point1, point2)
    {
      var face := faces[i];
      if face.point0 == point0 && face.point1 == point1 && face.point2 == point2 {
        return Some(i);
      }
      i := i + 1;
    }
    return None;
  }

  // ---------------------------------------------------------------------------------
  // UVListsEqual
  // ---------------------------------------------------------------------------------

  datatype Vec2 = Vec2(x: real, y: real)

  function Sub(a: Vec2, b: Vec2): Vec2 {
    Vec2(a.x - b.x, a.y - b.y)
  }

  /**
   * Whether `transformed` matches `uvs` up to a whole-texture shift: both lists have the
   * same length of at least three, the first coordinates agree modulo the texture size
   * (`texCoordsEqual`), and every later coordinate sits at (nearly) the same offset from
   * the first in both lists (`nearlyEqual`).
   */
  method UVListsEqual(uvs: seq<Vec2>, transformed: seq<Vec2>,
                      texCoordsEqual: (Vec2, Vec2) -> bool, nearlyEqual: (Vec2, Vec2) -> bool)
    returns (equal: bool)
    ensures equal ==> |uvs| == |transformed| && |uvs| >= 3
    ensures equal <==>
      |uvs| == |transformed| && |uvs| >= 3 && texCoordsEqual(uvs[0], transformed[0]) &&
      forall i :: 1 <= i < |uvs| ==> nearlyEqual(Sub(uvs[i], uvs[0]), Sub(transformed[i], transformed[0]))
  {
    if |uvs| != |transformed| {
      return false;
    }
    if |uvs| < 3 {
      return false;
    }
    if !texCoordsEqual(uvs[0], transformed[0]) {
      return false;
    }
    var i := 1;
    while i < |uvs|
      invariant 1 <= i <= |uvs|
      invariant forall j :: 1 <= j < i ==> nearlyEqual(Sub(uvs[j], uvs[0]), Sub(transformed[j], transformed[0]))
    {
      var expected := Sub(uvs[i], uvs[0]);
      var actual := Sub(transformed[i], transformed[0]);
      if !nearlyEqual(expected, actual) {
        return false;
      }
      i := i + 1;
    }
    return true;
  }
}
