/**
 * The game's draw-command collector (src/game/render.rs, `RenderState`):
 * systems bind a transparency, texture, layer and colour, then push sprite,
 * quad and text requests that carry the bound state; the list is handed to
 * the renderer once per frame and cleared.
 */
module GameRender {
  import opened Types
  import opened Colors
  import opened Commands

  /** Every request the game issues uses shader program 1, the sprite program. */
  const SPRITE_PROGRAM: u16 := 1

  /** Glyph atlases are 16 cells wide (`cols` in `RenderState::text`). */
  const GLYPH_COLUMNS: nat := 16

  /** `c as u8` for a `char`: the low 8 bits of its code point. */
  function CharByte(c: char): (b: u8)
    ensures b == (c as int) % 0x100
  {
    (c as int) % 0x100
  }

  /** The atlas cell of a byte: column `b % 16`, row `b / 16`, each cell `w` x `h`. */
  function GlyphRegion(b: u8, w: u32, h: u32): (r: SpriteRegion)
    ensures r.w == w && r.h == h
    ensures r.x + w <= GLYPH_COLUMNS * w && r.y + h <= GLYPH_COLUMNS * h
    ensures w > 0 ==> r.x / w == b % GLYPH_COLUMNS
    ensures h > 0 ==> r.y / h == b / GLYPH_COLUMNS
  {
    CellBounds(b % GLYPH_COLUMNS, w);
    CellBounds(b / GLYPH_COLUMNS, h);
    SpriteRegion((b % GLYPH_COLUMNS) * w, (b / GLYPH_COLUMNS) * h, w, h)
  }

  /** Cell `k` of a 16-cell row or column of `w`-pixel cells starts at `k*w` and ends inside the atlas. */
  lemma CellBounds(k: nat, w: nat)
    requires k < GLYPH_COLUMNS
    ensures k * w + w <= GLYPH_COLUMNS * w
    ensures w > 0 ==> k * w / w == k
  {
    assert k * w + w == (k + 1) * w;
    assert GLYPH_COLUMNS * w - (k + 1) * w == (GLYPH_COLUMNS - (k + 1)) * w;
  }

  /** The request for glyph `i` of a string: its cell, placed `i` glyph widths to the right. */
  function Glyph(t: Transparency, tex: u16, layer: u8, color: Color,
                 x: real, y: real, w: u32, h: u32, scale: real, i: nat, c: char): (r: RenderCommand)
    ensures r.data.Sprite? && r.data.region.w == w && r.data.region.h == h
    ensures r.data.region.x + w <= GLYPH_COLUMNS * w && r.data.region.y + h <= GLYPH_COLUMNS * h
  {
    RenderCommand(t, SPRITE_PROGRAM, tex, layer,
      Sprite(x + (i as real) * ((w as real) * scale), y, Vec2(0.0, 0.0), Vec2(scale, scale), color,
             GlyphRegion(CharByte(c), w, h)))
  }

  /** The requests `text` pushes for `s`, one per character in string order. */
  function Glyphs(t: Transparency, tex: u16, layer: u8, color: Color,
                  x: real, y: real, w: u32, h: u32, scale: real, s: string): (r: seq<RenderCommand>)
    ensures |r| == |s|
  {
    if s == [] then []
    else Glyphs(t, tex, layer, color, x, y, w, h, scale, s[..|s| - 1])
         + [Glyph(t, tex, layer, color, x, y, w, h, scale, |s| - 1, s[|s| - 1])]
  }

  /** Glyph `i` of the output is character `i` of the string, at position `i`. */
  lemma {:induction false} GlyphsAt(t: Transparency, tex: u16, layer: u8, color: Color,
                                    x: real, y: real, w: u32, h: u32, scale: real, s: string, i: nat)
    requires i < |s|
    ensures Glyphs(t, tex, layer, color, x, y, w, h, scale, s)[i]
         == Glyph(t, tex, layer, color, x, y, w, h, scale, i, s[i])
  {
    var init := s[..|s| - 1];
    if i < |init| {
      GlyphsAt(t, tex, layer, color, x, y, w, h, scale, init, i);
      assert init[i] == s[i];
    }
  }

  /**
   * What every glyph request promises: it carries the bound state and
   * program 1, sits on the text's baseline `y` at `x + i*w*scale`, is
   * scaled uniformly, pivots at its origin, and shows the atlas cell of
   * its character's byte.
   */
  lemma GlyphsPlaced(t: Transparency, tex: u16, layer: u8, color: Color,
                     x: real, y: real, w: u32, h: u32, scale: real, s: string, i: nat)
    requires i < |s|
    ensures var g := Glyphs(t, tex, layer, color, x, y, w, h, scale, s)[i];
      && g.transparency == t && g.texId == tex && g.layer == layer && g.shaderProgramId == SPRITE_PROGRAM
      && g.data.Sprite? && g.data.color == color
      && g.data.x == x + (i as real) * ((w as real) * scale) && g.data.y == y
      && g.data.pivot == Vec2(0.0, 0.0) && g.data.scale == Vec2(scale, scale)
      && g.data.region == SpriteRegion((CharByte(s[i]) % 16) * w, (CharByte(s[i]) / 16) * h, w, h)
  {
    GlyphsAt(t, tex, layer, color, x, y, w, h, scale, s, i);
  }

  /** The text of two strings is the text of the first, then the second shifted right by the first's length. */
  lemma {:induction false} GlyphsAppend(t: Transparency, tex: u16, layer: u8, color: Color,
                                        x: real, y: real, w: u32, h: u32, scale: real, s: string, c: char)
    ensures Glyphs(t, tex, layer, color, x, y, w, h, scale, s + [c])
         == Glyphs(t, tex, layer, color, x, y, w, h, scale, s) + [Glyph(t, tex, layer, color, x, y, w, h, scale, |s|, c)]
  {
    assert (s + [c])[..|s|] == s;
  }

  class RenderState {
    var commands: seq<RenderCommand>
    var boundTransparency: Transparency
    var boundTextureId: u16
    var boundLayer: u8
    var boundColor: Color

    /** `RenderState::new`, all defaults: opaque, texture 0, layer 0, white, no requests. */
    constructor ()
      ensures commands == []
      ensures boundTransparency == Opaque && boundTextureId == 0 && boundLayer == 0 && boundColor == WHITE
    {
      commands := [];
      boundTransparency, boundTextureId, boundLayer, boundColor := Opaque, 0, 0, DEFAULT_COLOR;
    }

    /** `bind_transparency`: that binding changes, nothing else. */
    method BindTransparency(val: Transparency)
      modifies this
      ensures boundTransparency == val
      ensures commands == old(commands) && boundTextureId == old(boundTextureId)
      ensures boundLayer == old(boundLayer) && boundColor == old(boundColor)
    {
      boundTransparency := val;
    }

    /** `bind_texture`: that binding changes, nothing else. */
    method BindTexture(val: u16)
      modifies this
      ensures boundTextureId == val
      ensures commands == old(commands) && boundTransparency == old(boundTransparency)
      ensures boundLayer == old(boundLayer) && boundColor == old(boundColor)
    {
      boundTextureId := val;
    }

    /** `bind_layer`: that binding changes, nothing else. */
    method BindLayer(val: u8)
      modifies this
      ensures boundLayer == val
      ensures commands == old(commands) && boundTransparency == old(boundTransparency)
      ensures boundTextureId == old(boundTextureId) && boundColor == old(boundColor)
    {
      boundLayer := val;
    }

    /** `bind_color`: that binding changes, nothing else. */
    method BindColor(val: Color)
      modifies this
      ensures boundColor == val
      ensures commands == old(commands) && boundTransparency == old(boundTransparency)
      ensures boundTextureId == old(boundTextureId) && boundLayer == old(boundLayer)
    {
      boundColor := val;
    }

    /** `sprite`: one sprite request with the bound state and program 1 goes at the end. */
    method Sprite(x: real, y: real, pivot: Vec2, scale: Vec2, region: SpriteRegion)
      modifies this
      ensures commands == old(commands) + [RenderCommand(boundTransparency, SPRITE_PROGRAM, boundTextureId, boundLayer,
                                                         Renderable.Sprite(x, y, pivot, scale, boundColor, region))]
      ensures boundTransparency == old(boundTransparency) && boundTextureId == old(boundTextureId)
      ensures boundLayer == old(boundLayer) && boundColor == old(boundColor)
    {
      commands := commands + [RenderCommand(boundTransparency, SPRITE_PROGRAM, boundTextureId, boundLayer,
                                            Renderable.Sprite(x, y, pivot, scale, boundColor, region))];
    }

    /** `textured_quad`: one quad request with the bound state and program 1 goes at the end. */
    method TexturedQuad(bl: Vec2, br: Vec2, tl: Vec2, tr: Vec2)
      modifies this
      ensures commands == old(commands) + [RenderCommand(boundTransparency, SPRITE_PROGRAM, boundTextureId, boundLayer,
                                                         Quad(bl, br, tl, tr, boundColor))]
      ensures boundTransparency == old(boundTransparency) && boundTextureId == old(boundTextureId)
      ensures boundLayer == old(boundLayer) && boundColor == old(boundColor)
    {
      commands := commands + [RenderCommand(boundTransparency, SPRITE_PROGRAM, boundTextureId, boundLayer,
                                            Quad(bl, br, tl, tr, boundColor))];
    }

    /**
     * `text`: one glyph request per character, in string order, each
     * carrying the bound state; the bindings stay as they are.
     */
    method Text(x: real, y: real, w: u32, h: u32, scale: real, text: string)
      modifies this
      ensures commands == old(commands)
        + Glyphs(boundTransparency, boundTextureId, boundLayer, boundColor, x, y, w, h, scale, text)
      ensures boundTransparency == old(boundTransparency) && boundTextureId == old(boundTextureId)
      ensures boundLayer == old(boundLayer) && boundColor == old(boundColor)
    {
      var i := 0;
      while i < |text|
        invariant i <= |text|
        invariant commands == old(commands)
          + Glyphs(boundTransparency, boundTextureId, boundLayer, boundColor, x, y, w, h, scale, text[..i])
        invariant boundTransparency == old(boundTransparency) && boundTextureId == old(boundTextureId)
        invariant boundLayer == old(boundLayer) && boundColor == old(boundColor)
      {
        commands := commands + [Glyph(boundTransparency, boundTextureId, boundLayer, boundColor, x, y, w, h, scale, i, text[i])];
        GlyphsAppend(boundTransparency, boundTextureId, boundLayer, boundColor, x, y, w, h, scale, text[..i], text[i]);
        assert text[..i + 1] == text[..i] + [text[i]];
        i := i + 1;
      }
      assert text[..i] == text;
    }

    /** `clear_commands`: the bindings return to their defaults and the list empties. */
    method ClearCommands()
      modifies this
      ensures commands == []
      ensures boundTransparency == Opaque && boundTextureId == 0 && boundLayer == 0 && boundColor == WHITE
    {
      boundTransparency := Opaque;
      boundTextureId := 0;
      boundLayer := 0;
      boundColor := DEFAULT_COLOR;
      commands := [];
    }

    /** `commands`: a copy of the list; the collector keeps its requests. */
    method Commands() returns (r: seq<RenderCommand>)
      ensures r == commands
    {
      r := commands;
    }
  }
}
