/**
 * The geometry builder (gfx-lib/src/mesh.rs): a growable mesh of vertices and
 * 32-bit indices, and the two operations that append one quad to it.
 */
module MeshBuilder {
  import opened Types
  import opened Colors

  /** A vertex: position (x, y, z), colour and texture coordinate (u, v). */
  datatype Vertex = Vertex(x: real, y: real, z: real, color: Color, u: real, v: real)

  const QUAD_VERTICES: nat := 4
  const QUAD_INDICES: nat := 6

  /**
   * The unit-square corner of the i-th vertex of every quad: top-left,
   * top-right, bottom-right, bottom-left.
   */
  function Corner(i: nat): (real, real)
    requires i < QUAD_VERTICES
  {
    [(0.0, 0.0), (1.0, 0.0), (1.0, 1.0), (0.0, 1.0)][i]
  }

  /**
   * The six indices of one quad whose first vertex is `n`: the triangles
   * (tl, tr, br) and (br, bl, tl), which share the diagonal tl-br.
   */
  function QuadIndices(n: nat): (r: seq<nat>)
    ensures |r| == QUAD_INDICES
    ensures forall i :: 0 <= i < |r| ==> n <= r[i] < n + QUAD_VERTICES
    ensures forall c :: n <= c < n + QUAD_VERTICES ==> c in r
    ensures r[0] == r[5] == n && r[2] == r[3] == n + 2
    ensures |{r[0], r[1], r[2]}| == 3 && |{r[3], r[4], r[5]}| == 3
  {
    [n, n + 1, n + 2, n + 2, n + 3, n]
  }

  /** The index list of a mesh built from `q` quads appended to an empty mesh. */
  function QuadList(q: nat): (r: seq<nat>)
    ensures |r| == QUAD_INDICES * q
  {
    if q == 0 then [] else QuadList(q - 1) + QuadIndices(QUAD_VERTICES * (q - 1))
  }

  /** Every index of a mesh of `q` quads names one of its `4 q` vertices. */
  lemma {:induction false} QuadListInRange(q: nat)
    ensures forall i :: 0 <= i < |QuadList(q)| ==> QuadList(q)[i] < QUAD_VERTICES * q
  {
    if q > 0 {
      QuadListInRange(q - 1);
      var prev, last := QuadList(q - 1), QuadIndices(QUAD_VERTICES * (q - 1));
      assert QuadList(q) == prev + last;
      forall i | 0 <= i < |QuadList(q)| ensures QuadList(q)[i] < QUAD_VERTICES * q {
        if i < |prev| {
          assert QuadList(q)[i] == prev[i];
        } else {
          assert QuadList(q)[i] == last[i - |prev|];
        }
      }
    }
  }

  /**
   * The shape of a mesh that only `add_quad`/`add_sprite` have grown from
   * empty: vertices in groups of four, and the quad index pattern per group.
   */
  ghost predicate WellFormed(vertexCount: nat, indices: seq<nat>) {
    vertexCount % QUAD_VERTICES == 0 && indices == QuadList(vertexCount / QUAD_VERTICES)
  }

  /** A well-formed mesh has 6 indices per 4 vertices, each naming an existing vertex. */
  lemma WellFormedIndicesInRange(vertexCount: nat, indices: seq<nat>)
    requires WellFormed(vertexCount, indices)
    ensures 2 * |indices| == 3 * vertexCount
    ensures forall i :: 0 <= i < |indices| ==> indices[i] < vertexCount
  {
    QuadListInRange(vertexCount / QUAD_VERTICES);
  }

  /** Appending one quad's vertices and indices keeps a mesh well formed. */
  lemma AppendQuadWellFormed(vertexCount: nat, indices: seq<nat>)
    requires WellFormed(vertexCount, indices)
    ensures WellFormed(vertexCount + QUAD_VERTICES, indices + QuadIndices(vertexCount))
  {
    assert (vertexCount + QUAD_VERTICES) / QUAD_VERTICES == vertexCount / QUAD_VERTICES + 1;
  }

  /** `a / b` for a pixel count over a sheet size; an empty sheet gives 0 here (IEEE gives inf or NaN). */
  function Ratio(n: nat, d: nat): real {
    if d == 0 then 0.0 else n as real / d as real
  }

  /** The four vertices `add_quad` emits, in the order top-left, top-right, bottom-right, bottom-left. */
  function QuadVertices(bl: Vec2, br: Vec2, tl: Vec2, tr: Vec2, color: Color): (r: seq<Vertex>)
    ensures |r| == QUAD_VERTICES
    ensures forall i :: 0 <= i < QUAD_VERTICES ==>
      r[i].z == 0.0 && r[i].color == color && (r[i].u, r[i].v) == Corner(i)
    ensures [Vec2(r[0].x, r[0].y), Vec2(r[1].x, r[1].y), Vec2(r[2].x, r[2].y), Vec2(r[3].x, r[3].y)]
      == [tl, tr, br, bl]
  {
    [ Vertex(tl.x, tl.y, 0.0, color, 0.0, 0.0),
      Vertex(tr.x, tr.y, 0.0, color, 1.0, 0.0),
      Vertex(br.x, br.y, 0.0, color, 1.0, 1.0),
      Vertex(bl.x, bl.y, 0.0, color, 0.0, 1.0) ]
  }

  /**
   * The four vertices `add_sprite` emits: the unit square mapped onto the
   * rectangle whose top-left corner is the draw position offset by the scaled
   * origin and whose extent is the scaled region size, textured with the
   * region's share of the sheet.
   */
  function SpriteVertices(x: real, y: real, origin: Vec2, scale: Vec2, color: Color,
                          region: SpriteRegion, sheetW: nat, sheetH: nat): (r: seq<Vertex>)
    ensures |r| == QUAD_VERTICES
    ensures forall i :: 0 <= i < QUAD_VERTICES ==>
      && r[i].z == 0.0
      && r[i].color == color
      && r[i].x == (x - origin.x * scale.x) + Corner(i).0 * (region.w as real * scale.x)
      && r[i].y == (y - origin.y * scale.y) + Corner(i).1 * (region.h as real * scale.y)
      && r[i].u == Ratio(region.x, sheetW) + Corner(i).0 * Ratio(region.w, sheetW)
      && r[i].v == Ratio(region.y, sheetH) + Corner(i).1 * Ratio(region.h, sheetH)
  {
    var u, v := Ratio(region.x, sheetW), Ratio(region.y, sheetH);
    var uw, vh := Ratio(region.w, sheetW), Ratio(region.h, sheetH);
    var left, top := x - origin.x * scale.x, y - origin.y * scale.y;
    var w, h := region.w as real * scale.x, region.h as real * scale.y;
    [ Vertex(left, top, 0.0, color, u, v),
      Vertex(left + w, top, 0.0, color, u + uw, v),
      Vertex(left + w, top + h, 0.0, color, u + uw, v + vh),
      Vertex(left, top + h, 0.0, color, u, v + vh) ]
  }

  /** A region (16, 32, 8, 8) of a 128 x 128 sheet spans UVs (0.125, 0.25) to (0.1875, 0.3125). */
  lemma SpriteUvExample(x: real, y: real, color: Color)
    ensures var r := SpriteVertices(x, y, Vec2(0.0, 0.0), Vec2(1.0, 1.0), color,
                                    SpriteRegion(16, 32, 8, 8), 128, 128);
      (r[0].u, r[0].v) == (0.125, 0.25) && (r[2].u, r[2].v) == (0.1875, 0.3125)
  {
  }

  /** A mesh: vertices and 32-bit indices, grown in place. */
  class Mesh {
    var vertices: seq<Vertex>
    var indices: seq<nat>

    ghost predicate Valid()
      reads this
    {
      WellFormed(|vertices|, indices)
    }

    constructor ()
      ensures vertices == [] && indices == []
      ensures Valid()
    {
      vertices, indices := [], [];
    }

    /** `Mesh::clear`: empties both lists. */
    method Clear()
      modifies this
      ensures vertices == [] && indices == []
      ensures Valid()
    {
      vertices, indices := [], [];
    }
  }

  /** `add_quad`: appends four corner vertices and the six quad indices. */
  method AddQuad(mesh: Mesh, bl: Vec2, br: Vec2, tl: Vec2, tr: Vec2, color: Color)
    modifies mesh
    ensures mesh.vertices == old(mesh.vertices) + QuadVertices(bl, br, tl, tr, color)
    ensures mesh.indices == old(mesh.indices) + QuadIndices(|old(mesh.vertices)|)
    ensures old(mesh.Valid()) ==> mesh.Valid()
  {
    var vertexCount := |mesh.vertices|;
    if mesh.Valid() {
      AppendQuadWellFormed(vertexCount, mesh.indices);
    }
    mesh.vertices := mesh.vertices + QuadVertices(bl, br, tl, tr, color);
    mesh.indices := mesh.indices + QuadIndices(vertexCount);
  }

  /** `add_sprite`: appends the four vertices of a sheet region drawn at (x, y) and the six quad indices. */
  method AddSprite(mesh: Mesh, x: real, y: real, origin: Vec2, scale: Vec2, color: Color,
                   region: SpriteRegion, sheetW: nat, sheetH: nat)
    modifies mesh
    ensures mesh.vertices == old(mesh.vertices) + SpriteVertices(x, y, origin, scale, color, region, sheetW, sheetH)
    ensures mesh.indices == old(mesh.indices) + QuadIndices(|old(mesh.vertices)|)
    ensures old(mesh.Valid()) ==> mesh.Valid()
  {
    var vertexCount := |mesh.vertices|;
    if mesh.Valid() {
      AppendQuadWellFormed(vertexCount, mesh.indices);
    }
    mesh.vertices := mesh.vertices + SpriteVertices(x, y, origin, scale, color, region, sheetW, sheetH);
    mesh.indices := mesh.indices + QuadIndices(vertexCount);
  }
}
