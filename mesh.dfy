/** The cube mesh uploaded once at start-up: eight corner vertices and 36
    indices forming an indexed triangle list (two triangles per face).
    Coordinates and colour channels are exactly 0.0, 1.0 or -1.0 in the
    source, so they are modelled as integers. */
module Mesh {

  datatype Vec3 = Vec3(x: int, y: int, z: int)

  datatype Vertex = Vertex(position: Vec3, color: Vec3)

  datatype Axis = X | Y | Z

  const CubeVertices: seq<Vertex> := [
    Vertex(Vec3(-1,  1,  1), Vec3(0, 1, 1)),
    Vertex(Vec3(-1, -1,  1), Vec3(1, 1, 0)),
    Vertex(Vec3( 1, -1,  1), Vec3(1, 0, 1)),
    Vertex(Vec3( 1,  1,  1), Vec3(1, 1, 1)),
    Vertex(Vec3( 1,  1, -1), Vec3(0, 1, 0)),
    Vertex(Vec3( 1, -1, -1), Vec3(0, 0, 1)),
    Vertex(Vec3(-1, -1, -1), Vec3(1, 0, 0)),
    Vertex(Vec3(-1,  1, -1), Vec3(0, 0, 0))
  ]

  const CubeIndices: seq<nat> := [
    0, 1, 2, 2, 3, 0,
    3, 2, 5, 5, 4, 3,
    4, 5, 6, 6, 7, 4,
    7, 6, 1, 1, 0, 7,
    2, 1, 6, 6, 5, 2,
    7, 0, 3, 3, 4, 7
  ]

  function Coord(p: Vec3, a: Axis): int {
    match a
    case X => p.x
    case Y => p.y
    case Z => p.z
  }

  /** Position of vertex `i` of the table. */
  function Corner(i: nat): Vec3
    requires i < |CubeVertices|
  {
    CubeVertices[i].position
  }

  /** The three indices of triangle `t`. */
  function TriangleAt(t: nat): seq<nat>
    requires t < 12
  {
    [CubeIndices[3 * t], CubeIndices[3 * t + 1], CubeIndices[3 * t + 2]]
  }

  /** The six indices of face group `g` (two triangles). */
  function GroupAt(g: nat): seq<nat>
    requires g < 6
  {
    [CubeIndices[6 * g], CubeIndices[6 * g + 1], CubeIndices[6 * g + 2],
     CubeIndices[6 * g + 3], CubeIndices[6 * g + 4], CubeIndices[6 * g + 5]]
  }

  /** Every vertex named by `idx` lies on the plane `a == side`. */
  predicate OnFace(idx: seq<nat>, a: Axis, side: int) {
    forall j :: 0 <= j < |idx| ==> idx[j] < |CubeVertices| && Coord(Corner(idx[j]), a) == side
  }

  /** The eight vertices are the eight distinct corners of the cube [-1, 1]^3. */
  lemma CornersOfCube()
    ensures |CubeVertices| == 8
    ensures forall i, a :: 0 <= i < 8 ==> Coord(Corner(i), a) == 1 || Coord(Corner(i), a) == -1
    ensures forall i, j :: 0 <= i < j < 8 ==> Corner(i) != Corner(j)
  {
    forall i, a | 0 <= i < 8
      ensures Coord(Corner(i), a) == 1 || Coord(Corner(i), a) == -1
    {
      assert i == 0 || i == 1 || i == 2 || i == 3 || i == 4 || i == 5 || i == 6 || i == 7;
    }
    forall i, j | 0 <= i < j < 8
      ensures Corner(i) != Corner(j)
    {
      assert i == 0 || i == 1 || i == 2 || i == 3 || i == 4 || i == 5 || i == 6;
    }
  }

  /** The index table has 36 entries and each addresses one of the 8 vertices. */
  lemma IndicesInRange()
    ensures |CubeIndices| == 36 && |CubeVertices| == 8
    ensures forall i :: 0 <= i < |CubeIndices| ==> CubeIndices[i] < |CubeVertices|
  {
  }

  /** No triangle of the list repeats a vertex, so none is degenerate. */
  lemma TrianglesNondegenerate()
    ensures forall t :: 0 <= t < 12 ==>
      TriangleAt(t)[0] != TriangleAt(t)[1] && TriangleAt(t)[1] != TriangleAt(t)[2] && TriangleAt(t)[0] != TriangleAt(t)[2]
  {
    forall t | 0 <= t < 12
      ensures TriangleAt(t)[0] != TriangleAt(t)[1] && TriangleAt(t)[1] != TriangleAt(t)[2] && TriangleAt(t)[0] != TriangleAt(t)[2]
    {
      assert t == 0 || t == 1 || t == 2 || t == 3 || t == 4 || t == 5
          || t == 6 || t == 7 || t == 8 || t == 9 || t == 10 || t == 11;
    }
  }

  /** The group is a quad [a, b, c, c, d, a] over four distinct vertices. */
  predicate IsQuad(q: seq<nat>)
    requires |q| == 6
  {
    q[3] == q[2] && q[5] == q[0] &&
    q[0] != q[1] && q[0] != q[2] && q[0] != q[4] && q[1] != q[2] && q[1] != q[4] && q[2] != q[4]
  }

  /** Every vertex named by `idx` lies on one face of the cube. */
  ghost predicate OnSomeFace(idx: seq<nat>) {
    exists a: Axis, side: int :: (side == 1 || side == -1) && OnFace(idx, a, side)
  }

  /** Each group of six indices is a quad over four distinct vertices that all
      lie on one face of the cube. */
  lemma GroupsAreFaceQuads()
    ensures forall g :: 0 <= g < 6 ==> IsQuad(GroupAt(g)) && OnSomeFace(GroupAt(g))
  {
    forall g | 0 <= g < 6
      ensures IsQuad(GroupAt(g)) && OnSomeFace(GroupAt(g))
    {
      var (a, side) := FaceOf(g);
      FaceOfGroup(g);
      assert OnFace(GroupAt(g), a, side);
      GroupTable(g);
    }
  }

  /** The six groups lie on six different faces, so the mesh covers the whole cube. */
  lemma GroupsCoverAllFaces()
    ensures forall g1, g2, a, side :: 0 <= g1 < g2 < 6 ==>
      !(OnFace(GroupAt(g1), a, side) && OnFace(GroupAt(g2), a, side))
  {
    forall g1, g2, a, side | 0 <= g1 < g2 < 6
      ensures !(OnFace(GroupAt(g1), a, side) && OnFace(GroupAt(g2), a, side))
    {
      if FaceOf(g1) == (a, side) {
        assert FaceOf(g1) != FaceOf(g2) by {
          assert g1 == 0 || g1 == 1 || g1 == 2 || g1 == 3 || g1 == 4;
          assert g2 == 1 || g2 == 2 || g2 == 3 || g2 == 4 || g2 == 5;
        }
        NotOnOtherFace(g2, a, side);
      } else {
        NotOnOtherFace(g1, a, side);
      }
    }
  }

  /** The face each group is drawn on (a proof witness, not a table of the program). */
  ghost function FaceOf(g: nat): (Axis, int)
    requires g < 6
  {
    [(Z, 1), (X, 1), (Z, -1), (X, -1), (Y, -1), (Y, 1)][g]
  }

  lemma FaceOfGroup(g: nat)
    requires g < 6
    ensures FaceOf(g).1 == 1 || FaceOf(g).1 == -1
    ensures OnFace(GroupAt(g), FaceOf(g).0, FaceOf(g).1)
  {
    GroupTable(g);
    var q := GroupAt(g);
    var (a, side) := FaceOf(g);
    forall j | 0 <= j < 6 ensures q[j] < |CubeVertices| && Coord(Corner(q[j]), a) == side {
      assert j == 0 || j == 1 || j == 2 || j == 3 || j == 4 || j == 5;
    }
  }

  /** The groups of the index table, written out. */
  lemma GroupTable(g: nat)
    requires g < 6
    ensures g == 0 ==> GroupAt(g) == [0, 1, 2, 2, 3, 0]
    ensures g == 1 ==> GroupAt(g) == [3, 2, 5, 5, 4, 3]
    ensures g == 2 ==> GroupAt(g) == [4, 5, 6, 6, 7, 4]
    ensures g == 3 ==> GroupAt(g) == [7, 6, 1, 1, 0, 7]
    ensures g == 4 ==> GroupAt(g) == [2, 1, 6, 6, 5, 2]
    ensures g == 5 ==> GroupAt(g) == [7, 0, 3, 3, 4, 7]
  {
  }

  /** A group lies on no face other than FaceOf(g): its first and third
      vertices are opposite corners of that face. */
  lemma NotOnOtherFace(g: nat, a: Axis, side: int)
    requires g < 6
    requires FaceOf(g) != (a, side)
    ensures !OnFace(GroupAt(g), a, side)
  {
    var q := GroupAt(g);
    var (fa, fs) := FaceOf(g);
    FaceOfGroup(g);
    assert q[0] < |CubeVertices| && q[2] < |CubeVertices|;
    GroupTable(g);
    assert Opposite(Corner(q[0]), Corner(q[2]), fa) by {
      assert g == 0 || g == 1 || g == 2 || g == 3 || g == 4 || g == 5;
    }
    OffOtherFaces(Corner(q[0]), Corner(q[2]), fa, fs, a, side);
  }

  /** `p` and `p2` agree on axis `fa` and differ on both other axes. */
  predicate Opposite(p: Vec3, p2: Vec3, fa: Axis) {
    forall b: Axis :: (Coord(p, b) == Coord(p2, b)) == (b == fa)
  }

  lemma OffOtherFaces(p: Vec3, p2: Vec3, fa: Axis, fs: int, a: Axis, side: int)
    requires Opposite(p, p2, fa) && Coord(p, fa) == fs
    requires (fa, fs) != (a, side)
    ensures Coord(p, a) != side || Coord(p2, a) != side
  {
    assert (Coord(p, a) == Coord(p2, a)) == (a == fa);
  }
}
