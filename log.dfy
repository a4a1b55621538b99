/**
 * The message log (src/game/log.rs): incoming log events go to the front of
 * a list that keeps at most 20 entries, and each tick draws the list as
 * lines of text, newest at the bottom, fading toward white with age.
 */
module Log {
  import opened Types
  import opened Colors
  import opened Commands
  import opened GameRender

  /** `LogEvent`: a message and the colour it is first shown in. */
  datatype LogEvent = LogEvent(message: string, color: Color)

  /** The log keeps at most this many entries. */
  const MAX_LOGS: nat := 20

  /** `LAYER_UI` (src/game/layers.rs): the layer of every interface element. */
  const LAYER_UI: u8 := 10

  /** Where the newest line is drawn, and how far apart lines are. */
  const LOG_X: real := 640.0
  const LOG_Y: real := 700.0
  const LINE_HEIGHT: real := 16.0

  /** The log's glyph cells are 8 x 16 pixels, drawn unscaled. */
  const GLYPH_W: u32 := 8
  const GLYPH_H: u32 := 16

  /** One event into the log (the loop body of `LogSystem::run`): in at the front, and the last entry out if that makes 21. */
  function Insert(logs: seq<LogEvent>, e: LogEvent): (r: seq<LogEvent>)
    ensures r != [] && r[0] == e
    ensures |logs| <= MAX_LOGS ==> |r| <= MAX_LOGS
  {
    var grown := [e] + logs;
    if |grown| > MAX_LOGS then grown[..|grown| - 1] else grown
  }

  /**
   * What an insertion does to a log of at most 20 entries: the new event is
   * first, at most 20 entries remain, and the old entries follow in their
   * old order, less only the oldest when the log was full.
   */
  lemma InsertSpec(logs: seq<LogEvent>, e: LogEvent)
    requires |logs| <= MAX_LOGS
    ensures var r := Insert(logs, e);
      && |r| == (if |logs| == MAX_LOGS then MAX_LOGS else |logs| + 1)
      && r[0] == e
      && r[1..] == (if |logs| == MAX_LOGS then logs[..MAX_LOGS - 1] else logs)
  {
  }

  /** The log after `events` arrive in order. */
  function Logged(logs: seq<LogEvent>, events: seq<LogEvent>): (r: seq<LogEvent>)
    ensures events != [] ==> r != [] && r[0] == events[|events| - 1]
  {
    if events == [] then logs else Insert(Logged(logs, events[..|events| - 1]), events[|events| - 1])
  }

  /** `s` in reverse order. */
  function Reverse<T>(s: seq<T>): (r: seq<T>)
    ensures |r| == |s|
  {
    if s == [] then [] else [s[|s| - 1]] + Reverse(s[..|s| - 1])
  }

  /** The first `n` entries of `s`, or all of it when it is shorter. */
  function Take<T>(s: seq<T>, n: nat): (r: seq<T>)
    ensures |r| == if |s| <= n then |s| else n
  {
    if |s| <= n then s else s[..n]
  }

  /**
   * The log in closed form: after events e1 .. ek it reads ek, ..., e1 and
   * then the entries it had, cut to the 20 newest.
   */
  lemma {:induction false} LoggedClosedForm(logs: seq<LogEvent>, events: seq<LogEvent>)
    requires |logs| <= MAX_LOGS
    ensures Logged(logs, events) == Take(Reverse(events) + logs, MAX_LOGS)
  {
    if events != [] {
      var init, e := events[..|events| - 1], events[|events| - 1];
      LoggedClosedForm(logs, init);
      var all := Reverse(init) + logs;
      assert Reverse(events) + logs == [e] + all;
      var grown := [e] + Take(all, MAX_LOGS);
      if |all| > MAX_LOGS {
        assert grown[..|grown| - 1] == ([e] + all)[..MAX_LOGS];
      }
    }
  }

  /** However many events arrive, a log of at most 20 entries stays within 20. */
  lemma LoggedBounded(logs: seq<LogEvent>, events: seq<LogEvent>)
    requires |logs| <= MAX_LOGS
    ensures |Logged(logs, events)| <= MAX_LOGS
  {
    LoggedClosedForm(logs, events);
  }

  /** `lerp`: from `start` toward `end` by the fraction `p`, clamped to 0..1. */
  function Lerp(start: real, end: real, p: real): (r: real)
    ensures p <= 0.0 ==> r == start
    ensures p >= 1.0 ==> r == end
  {
    var q := if p < 0.0 then 0.0 else if p > 1.0 then 1.0 else p;
    start + (end - start) * q
  }

  /** `color_lerp`, channel by channel. */
  function ColorLerp(start: Color, end: Color, p: real): (c: Color)
    ensures p <= 0.0 ==> c == start
    ensures p >= 1.0 ==> c == end
  {
    Color(Lerp(start.r, end.r, p), Lerp(start.g, end.g, p), Lerp(start.b, end.b, p), Lerp(start.a, end.a, p))
  }

  /** Entry `i` is drawn `i/32` of the way from its own colour to white. */
  function Faded(e: LogEvent, i: nat): (c: Color)
    ensures i == 0 ==> c == e.color
    ensures i >= 32 ==> c == WHITE
  {
    ColorLerp(e.color, WHITE, (i as real) / 32.0)
  }

  /** A fraction short of 1 never reaches the end of a lerp that starts elsewhere. */
  lemma LerpShortOfEnd(start: real, end: real, p: real)
    requires 0.0 <= p < 1.0 && start != end
    ensures Lerp(start, end, p) != end
  {
    var d, q := end - start, 1.0 - p;
    assert end - Lerp(start, end, p) == d * q;
    if d > 0.0 {
      assert d * q > 0.0;
    } else {
      assert d * q < 0.0;
    }
  }

  /**
   * Since the log holds at most 20 entries, fading stops short of white:
   * an entry whose own colour is not white is never drawn white.
   */
  lemma FadedShortOfWhite(e: LogEvent, i: nat)
    requires i < MAX_LOGS && e.color != WHITE
    ensures Faded(e, i) != WHITE
  {
    var p := (i as real) / 32.0;
    if e.color.r != 1.0 {
      LerpShortOfEnd(e.color.r, 1.0, p);
    } else if e.color.g != 1.0 {
      LerpShortOfEnd(e.color.g, 1.0, p);
    } else if e.color.b != 1.0 {
      LerpShortOfEnd(e.color.b, 1.0, p);
    } else {
      LerpShortOfEnd(e.color.a, 1.0, p);
    }
  }

  /** The text requests for entry `i`: its message in its faded colour, `i` lines above the newest. */
  function Line(e: LogEvent, i: nat, font: u16): (r: seq<RenderCommand>)
    ensures |r| == |e.message|
  {
    Glyphs(Opaque, font, LAYER_UI, Faded(e, i), LOG_X, LOG_Y - (i as real) * LINE_HEIGHT, GLYPH_W, GLYPH_H, 1.0, e.message)
  }

  /** The requests for entries `0 .. n-1`, in list order. */
  function Lines(logs: seq<LogEvent>, n: nat, font: u16): (r: seq<RenderCommand>)
    requires n <= |logs|
    ensures |r| == TextLength(logs, n)
  {
    if n == 0 then [] else Lines(logs, n - 1, font) + Line(logs[n - 1], n - 1, font)
  }

  /** The number of characters in entries `0 .. n-1`: where entry `n`'s text begins. */
  function TextLength(logs: seq<LogEvent>, n: nat): nat
    requires n <= |logs|
  {
    if n == 0 then 0 else TextLength(logs, n - 1) + |logs[n - 1].message|
  }

  /**
   * One text draw per entry, in list order: entry `i`'s glyphs fill the
   * stretch of the output that starts after the glyphs of the entries
   * before it.
   */
  lemma {:induction false} LinesAt(logs: seq<LogEvent>, n: nat, font: u16, i: nat)
    requires i < n <= |logs|
    ensures var s := Lines(logs, n, font);
      TextLength(logs, i + 1) <= |s| && s[TextLength(logs, i) .. TextLength(logs, i + 1)] == Line(logs[i], i, font)
  {
    var prev := Lines(logs, n - 1, font);
    var s := Lines(logs, n, font);
    assert s == prev + Line(logs[n - 1], n - 1, font);
    if i < n - 1 {
      LinesAt(logs, n - 1, font, i);
      TextLengthMonotone(logs, i + 1, n - 1);
      assert s[TextLength(logs, i) .. TextLength(logs, i + 1)] == prev[TextLength(logs, i) .. TextLength(logs, i + 1)];
    } else {
      assert s[TextLength(logs, i) .. TextLength(logs, i + 1)] == s[|prev|..];
    }
  }

  lemma {:induction false} TextLengthMonotone(logs: seq<LogEvent>, i: nat, n: nat)
    requires i <= n <= |logs|
    ensures TextLength(logs, i) <= TextLength(logs, n)
  {
    if i < n {
      TextLengthMonotone(logs, i, n - 1);
    }
  }

  /** `LogState`: the entries, newest first. */
  class LogState {
    var logs: seq<LogEvent>

    /** `LogState::default`: an empty log. */
    constructor ()
      ensures logs == []
    {
      logs := [];
    }
  }

  /**
   * `LogSystem::run`: takes in the tick's log events, then draws every
   * entry as a line of text with the font texture (`TEX_FONT`, a parameter
   * here) on the interface layer, opaque.
   */
  method RunLogSystem(state: LogState, render: RenderState, font: u16, events: seq<LogEvent>)
    modifies state, render
    ensures state.logs == Logged(old(state.logs), events)
    ensures render.commands == old(render.commands) + Lines(state.logs, |state.logs|, font)
    ensures render.boundTransparency == Opaque && render.boundLayer == LAYER_UI && render.boundTextureId == font
    ensures render.boundColor == if state.logs == [] then old(render.boundColor)
                                 else Faded(state.logs[|state.logs| - 1], |state.logs| - 1)
  {
    var i := 0;
    while i < |events|
      invariant i <= |events|
      invariant state.logs == Logged(old(state.logs), events[..i])
      invariant render.commands == old(render.commands) && render.boundColor == old(render.boundColor)
    {
      assert events[..i + 1][..i] == events[..i];
      state.logs := [events[i]] + state.logs;
      if |state.logs| > MAX_LOGS {
        state.logs := state.logs[..|state.logs| - 1];
      }
      i := i + 1;
    }
    assert events[..i] == events;

    DrawLog(render, state.logs, font);
  }

  /**
   * The drawing half of `LogSystem::run`: entry `i` becomes a line of text
   * `i` lines above the newest, in its colour faded by `i/32` toward white.
   */
  method DrawLog(render: RenderState, logs: seq<LogEvent>, font: u16)
    modifies render
    ensures render.commands == old(render.commands) + Lines(logs, |logs|, font)
    ensures render.boundTransparency == Opaque && render.boundLayer == LAYER_UI && render.boundTextureId == font
    ensures render.boundColor == if logs == [] then old(render.boundColor) else Faded(logs[|logs| - 1], |logs| - 1)
  {
    render.BindTransparency(Opaque);
    render.BindLayer(LAYER_UI);
    render.BindTexture(font);
    ghost var commands0 := render.commands;
    var j := 0;
    while j < |logs|
      invariant j <= |logs|
      invariant render.commands == commands0 + Lines(logs, j, font)
      invariant render.boundTransparency == Opaque && render.boundLayer == LAYER_UI && render.boundTextureId == font
      invariant render.boundColor == if j == 0 then old(render.boundColor) else Faded(logs[j - 1], j - 1)
    {
      DrawLine(render, logs, j, font, commands0);
      j := j + 1;
    }
  }

  /** One iteration of the drawing loop: the colour binding, then the text of entry `i`. */
  method DrawLine(render: RenderState, logs: seq<LogEvent>, i: nat, font: u16, ghost commands0: seq<RenderCommand>)
    requires i < |logs|
    requires render.boundTransparency == Opaque && render.boundLayer == LAYER_UI && render.boundTextureId == font
    requires render.commands == commands0 + Lines(logs, i, font)
    modifies render
    ensures render.commands == commands0 + Lines(logs, i + 1, font)
    ensures render.boundTransparency == Opaque && render.boundLayer == LAYER_UI && render.boundTextureId == font
    ensures render.boundColor == Faded(logs[i], i)
  {
    var log := logs[i];
    render.BindColor(ColorLerp(log.color, WHITE, (i as real) / 32.0));
    render.Text(LOG_X, LOG_Y - (i as real) * LINE_HEIGHT, GLYPH_W, GLYPH_H, 1.0, log.message);
    assert render.commands == commands0 + Lines(logs, i, font) + Line(log, i, font);
  }
}
