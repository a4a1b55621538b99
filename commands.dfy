/**
 * Draw requests and their batch keys (gfx-lib/src/renderer.rs): the packing
 * of (transparency, layer, shader program, texture) into a 64-bit key, the
 * stable sort by key that starts `process_commands`, the runs of equal key it
 * walks, and the geometry a run contributes to its batch.
 */
module Commands {
  import opened Types
  import opened Colors
  import opened MeshBuilder

  datatype Transparency = Opaque | Transparent

  /** The enum's discriminant as the source casts it: Opaque = 0, Transparent = 1. */
  function Discriminant(t: Transparency): (d: nat)
    ensures d < 2
    ensures d == 0 <==> t == Opaque
  {
    if t == Opaque then 0 else 1
  }

  /** What to draw: a quad with explicit corners, or a region of the batch texture. */
  datatype Renderable =
    | Quad(bl: Vec2, br: Vec2, tl: Vec2, tr: Vec2, color: Color)
    | Sprite(x: real, y: real, pivot: Vec2, scale: Vec2, color: Color, region: SpriteRegion)

  datatype RenderCommand = RenderCommand(
    transparency: Transparency,
    shaderProgramId: u16,
    texId: u16,
    layer: u8,
    data: Renderable)

  /** The field offsets of the key: `x << n` is `x * 2^n` because no bit is shifted out. */
  const TRANSPARENCY_UNIT: nat := 0x100_0000_0000_0000 // 1 << 56
  const LAYER_UNIT: nat := 0x1_0000_0000_0000 // 1 << 48
  const PROGRAM_UNIT: nat := 0x1_0000_0000 // 1 << 32
  const TEXTURE_UNIT: nat := 0x1_0000 // 1 << 16

  /** `RenderBatch::gen_key`: transparency at bit 56, layer at 48, shader program at 32, texture at 16. */
  function GenKey(t: Transparency, layer: u8, program: u16, tex: u16): (k: u64)
    ensures k % TEXTURE_UNIT == 0
  {
    Discriminant(t) * TRANSPARENCY_UNIT + layer * LAYER_UNIT + program * PROGRAM_UNIT + tex * TEXTURE_UNIT
  }

  /**
   * `RenderCommand::key`. Its value is a `GenKey`, so a `u64`; it is typed
   * `int` so that it can be handed to the sort as its key function.
   */
  function Key(c: RenderCommand): (k: int)
    ensures 0 <= k < 0x1_0000_0000_0000_0000
  {
    GenKey(c.transparency, c.layer, c.shaderProgramId, c.texId)
  }

  /** Lexicographic order on (transparency, layer, program, texture). */
  predicate LexLess(t1: Transparency, l1: u8, p1: u16, x1: u16, t2: Transparency, l2: u8, p2: u16, x2: u16) {
    var d1, d2 := Discriminant(t1), Discriminant(t2);
    d1 < d2 || (d1 == d2 && (l1 < l2 || (l1 == l2 && (p1 < p2 || (p1 == p2 && x1 < x2)))))
  }

  /** Each field of a key decodes back from the key. */
  lemma DecodeGenKey(t: Transparency, layer: u8, program: u16, tex: u16)
    ensures var k := GenKey(t, layer, program, tex);
      && k / TRANSPARENCY_UNIT == Discriminant(t)
      && (k / LAYER_UNIT) % 0x100 == layer
      && (k / PROGRAM_UNIT) % 0x1_0000 == program
      && (k / TEXTURE_UNIT) % 0x1_0000 == tex
  {
    var k := GenKey(t, layer, program, tex);
    var d := Discriminant(t);
    assert k / TRANSPARENCY_UNIT == d;
    assert k / LAYER_UNIT == d * 0x100 + layer;
    assert k / PROGRAM_UNIT == (d * 0x100 + layer) * 0x1_0000 + program;
    assert k / TEXTURE_UNIT == ((d * 0x100 + layer) * 0x1_0000 + program) * 0x1_0000 + tex;
  }

  /** Keys are equal exactly when all four fields are equal. */
  lemma KeyInjective(t1: Transparency, l1: u8, p1: u16, x1: u16, t2: Transparency, l2: u8, p2: u16, x2: u16)
    ensures GenKey(t1, l1, p1, x1) == GenKey(t2, l2, p2, x2) <==> (t1, l1, p1, x1) == (t2, l2, p2, x2)
  {
    DecodeGenKey(t1, l1, p1, x1);
    DecodeGenKey(t2, l2, p2, x2);
    assert Discriminant(t1) == Discriminant(t2) ==> t1 == t2;
  }

  /** Numeric key order is the lexicographic order of the fields. */
  lemma KeyOrder(t1: Transparency, l1: u8, p1: u16, x1: u16, t2: Transparency, l2: u8, p2: u16, x2: u16)
    ensures GenKey(t1, l1, p1, x1) < GenKey(t2, l2, p2, x2) <==> LexLess(t1, l1, p1, x1, t2, l2, p2, x2)
  {
    var d1, d2 := Discriminant(t1), Discriminant(t2);
    var low1, low2 := x1 * TEXTURE_UNIT, x2 * TEXTURE_UNIT;
    var mid1, mid2 := p1 * PROGRAM_UNIT + low1, p2 * PROGRAM_UNIT + low2;
    var high1, high2 := l1 * LAYER_UNIT + mid1, l2 * LAYER_UNIT + mid2;
    assert low1 < PROGRAM_UNIT && low2 < PROGRAM_UNIT;
    assert mid1 < LAYER_UNIT && mid2 < LAYER_UNIT;
    assert high1 < TRANSPARENCY_UNIT && high2 < TRANSPARENCY_UNIT;
  }

  /** Every opaque draw sorts before every transparent one, whatever its other fields. */
  lemma OpaqueBeforeTransparent(a: RenderCommand, b: RenderCommand)
    requires a.transparency == Opaque && b.transparency == Transparent
    ensures Key(a) < Key(b)
  {
    KeyOrder(a.transparency, a.layer, a.shaderProgramId, a.texId, b.transparency, b.layer, b.shaderProgramId, b.texId);
  }

  // ---------------------------------------------------------------------------
  // The geometry a batch accumulates (`RenderBatch::process_command`)

  /** The four vertices one command adds to a batch whose texture is `sheetW` x `sheetH`. */
  function CommandVertices(c: RenderCommand, sheetW: nat, sheetH: nat): (r: seq<Vertex>)
    ensures |r| == QUAD_VERTICES
  {
    match c.data
    case Quad(bl, br, tl, tr, color) => QuadVertices(bl, br, tl, tr, color)
    case Sprite(x, y, pivot, scale, color, region) =>
      SpriteVertices(x, y, pivot, scale, color, region, sheetW, sheetH)
  }

  /** The vertices of a batch that processed `cs` in order, starting from an empty mesh. */
  function BatchVertices(cs: seq<RenderCommand>, sheetW: nat, sheetH: nat): (r: seq<Vertex>)
    ensures |r| == QUAD_VERTICES * |cs|
  {
    if cs == [] then []
    else BatchVertices(cs[..|cs| - 1], sheetW, sheetH) + CommandVertices(cs[|cs| - 1], sheetW, sheetH)
  }

  /** One more command adds its own four vertices at the end. */
  lemma BatchVerticesSnoc(cs: seq<RenderCommand>, c: RenderCommand, sheetW: nat, sheetH: nat)
    ensures BatchVertices(cs + [c], sheetW, sheetH) == BatchVertices(cs, sheetW, sheetH) + CommandVertices(c, sheetW, sheetH)
  {
    assert (cs + [c])[..|cs|] == cs;
  }

  lemma SliceOfPrefix<T>(a: seq<T>, b: seq<T>, lo: nat, hi: nat)
    requires lo <= hi <= |a|
    ensures (a + b)[lo..hi] == a[lo..hi]
  {
  }

  /** The quad of the j-th command sits at vertices 4j .. 4j+3 of its batch. */
  lemma {:induction false} BatchVerticesAt(cs: seq<RenderCommand>, sheetW: nat, sheetH: nat, j: nat)
    requires j < |cs|
    ensures BatchVertices(cs, sheetW, sheetH)[QUAD_VERTICES * j .. QUAD_VERTICES * (j + 1)]
         == CommandVertices(cs[j], sheetW, sheetH)
  {
    var init, last := cs[..|cs| - 1], cs[|cs| - 1];
    var prev := BatchVertices(init, sheetW, sheetH);
    assert cs == init + [last];
    BatchVerticesSnoc(init, last, sheetW, sheetH);
    if j < |init| {
      BatchVerticesAt(init, sheetW, sheetH, j);
      SliceOfPrefix(prev, CommandVertices(last, sheetW, sheetH), QUAD_VERTICES * j, QUAD_VERTICES * (j + 1));
    } else {
      assert QUAD_VERTICES * j == |prev|;
    }
  }
}
