/**
 * The draw half of a frame (`render` and `render_batch` in
 * gfx-lib/src/renderer.rs) on values: which slot of the per-frame buffers a
 * frame uses, and what drawing a list of batch keys does to the batches and
 * which draws it records.
 */
module Frames {
  import opened Types
  import opened MeshBuilder
  import opened Commands
  import opened StableSort
  import opened GpuMemory
  import opened Batches
  import opened BatchWalk

  /** `current_frame % frames_in_flight`: the slot of the per-frame buffers frame number `frame` writes. */
  function FrameSlot(frame: nat, framesInFlight: nat): (slot: nat)
    requires framesInFlight > 0
    ensures slot < framesInFlight
  {
    frame % framesInFlight
  }

  /** Two frames in flight: consecutive frames alternate between the two slots. */
  lemma SlotsAlternate(frame: nat)
    ensures FrameSlot(frame, FRAMES_IN_FLIGHT) != FrameSlot(frame + 1, FRAMES_IN_FLIGHT)
    ensures FrameSlot(frame + 2, FRAMES_IN_FLIGHT) == FrameSlot(frame, FRAMES_IN_FLIGHT)
  {
  }

  /** `render_batch` on the renderer's map: the batch of `key` drawn, or a panic if there is none. */
  function DrawIn(batches: map<u64, RenderBatch>, key: u64, frameIdx: nat): (r: Result<(map<u64, RenderBatch>, DrawCall)>)
    requires BatchesValid(batches)
    ensures key !in batches ==> r == Panic(UnknownBatch)
    ensures key in batches ==> r.Ok? == BatchDraw(batches[key], frameIdx).Ok?
    ensures r.Ok? ==> r.value.0 == batches[key := BatchDraw(batches[key], frameIdx).value.0]
    ensures r.Ok? ==> r.value.1 == BatchDraw(batches[key], frameIdx).value.1
    ensures r.Ok? ==> BatchesValid(r.value.0) && r.value.0.Keys == batches.Keys
  {
    if key !in batches then Panic(UnknownBatch)
    else
      match BatchDraw(batches[key], frameIdx)
      case Panic(e) => Panic(e)
      case Ok((b, draw)) =>
        BatchDrawValid(batches[key], key, frameIdx);
        assert batches[key := b].Keys == batches.Keys;
        Ok((batches[key := b], draw))
  }

  /**
   * The loop of `render` over the batch keys: each batch drawn in turn, the
   * draws recorded in key order. The first panic ends the frame.
   */
  function DrawAll(batches: map<u64, RenderBatch>, keys: seq<u64>, frameIdx: nat): (r: Result<(map<u64, RenderBatch>, seq<DrawCall>)>)
    requires BatchesValid(batches)
    ensures r.Ok? ==> BatchesValid(r.value.0) && r.value.0.Keys == batches.Keys && |r.value.1| == |keys|
    ensures r.Ok? ==> forall k :: k in keys ==> k in batches
    decreases |keys|
  {
    if keys == [] then Ok((batches, []))
    else
      var prev := DrawAll(batches, keys[..|keys| - 1], frameIdx);
      if prev.Panic? then Panic(prev.reason)
      else
        var step := DrawIn(prev.value.0, keys[|keys| - 1], frameIdx);
        if step.Panic? then Panic(step.reason)
        else
          assert forall k :: k in keys ==> k in keys[..|keys| - 1] || k == keys[|keys| - 1];
          Ok((step.value.0, prev.value.1 + [step.value.1]))
  }

  /** Drawing the first `i + 1` keys is drawing the first `i` and then key `i`. */
  lemma DrawAllNext(batches: map<u64, RenderBatch>, keys: seq<u64>, i: nat, frameIdx: nat)
    requires BatchesValid(batches) && i < |keys|
    ensures var prev := DrawAll(batches, keys[..i], frameIdx);
      DrawAll(batches, keys[..i + 1], frameIdx) ==
        if prev.Panic? then Panic(prev.reason)
        else
          var step := DrawIn(prev.value.0, keys[i], frameIdx);
          if step.Panic? then Panic(step.reason) else Ok((step.value.0, prev.value.1 + [step.value.1]))
  {
    assert keys[..i + 1][..i] == keys[..i];
  }

  /** Once drawing a prefix of the keys panics, the whole frame panics, for the same reason. */
  lemma {:induction false} DrawAllPanicExtends(batches: map<u64, RenderBatch>, keys: seq<u64>, j: nat, frameIdx: nat)
    requires BatchesValid(batches) && j <= |keys| && DrawAll(batches, keys[..j], frameIdx).Panic?
    ensures DrawAll(batches, keys, frameIdx) == DrawAll(batches, keys[..j], frameIdx)
    decreases |keys|
  {
    if j < |keys| {
      var init := keys[..|keys| - 1];
      assert init[..j] == keys[..j];
      DrawAllPanicExtends(batches, init, j, frameIdx);
    } else {
      assert keys[..j] == keys;
    }
  }

  /** Keys that occur at most once. */
  ghost predicate Distinct(keys: seq<u64>) {
    forall i, j :: 0 <= i < j < |keys| ==> keys[i] != keys[j]
  }

  /**
   * Drawing distinct keys whose batches exist and hold at most
   * `MAX_SPRITES` quads succeeds; draw `i` is of all the indices of batch
   * `keys[i]` as it was before the frame, with its program and descriptor
   * set; every batch drawn is left with an empty mesh and every other batch
   * as it was.
   */
  lemma {:induction false} DrawAllDistinct(batches: map<u64, RenderBatch>, keys: seq<u64>, frameIdx: nat)
    requires BatchesValid(batches) && frameIdx < FRAMES_IN_FLIGHT && Distinct(keys)
    requires forall k :: k in keys ==> k in batches && |batches[k].indices| <= MAX_BATCH_INDICES
    ensures DrawAll(batches, keys, frameIdx).Ok?
    ensures var (after, draws) := DrawAll(batches, keys, frameIdx).value;
      AllDrawn(draws, batches, keys, frameIdx) && Untouched(after, batches, keys) && Emptied(after, keys)
    decreases |keys|
  {
    if keys != [] {
      var init, key := keys[..|keys| - 1], keys[|keys| - 1];
      Snoc(keys);
      assert Distinct(init);
      assert forall k :: k in init ==> k in keys;
      DrawAllDistinct(batches, init, frameIdx);
      var (mid, draws) := DrawAll(batches, init, frameIdx).value;
      assert key !in init by {
        forall i | 0 <= i < |init| ensures init[i] != key {
          assert keys[i] != keys[|keys| - 1];
        }
      }
      assert key in keys;
      assert mid[key] == batches[key];
      DrawnLast(mid[key], key, frameIdx);
      var (b, draw) := BatchDraw(mid[key], frameIdx).value;
      DrawAllSnoc(batches, keys, frameIdx);
      DrawStep(batches, mid, init, key, b, draws, draw, frameIdx);
    }
  }

  /** The batches of `keys` were drawn in order: draw `i` is drawn from batch `keys[i]` of `batches`. */
  ghost predicate AllDrawn(draws: seq<DrawCall>, batches: map<u64, RenderBatch>, keys: seq<u64>, frameIdx: nat) {
    && |draws| == |keys|
    && forall i :: 0 <= i < |keys| ==> keys[i] in batches && DrawnFrom(draws[i], batches[keys[i]], frameIdx)
  }

  /** Every batch of `after` whose key is not in `keys` is as it was in `batches`. */
  ghost predicate Untouched(after: map<u64, RenderBatch>, batches: map<u64, RenderBatch>, keys: seq<u64>) {
    forall k :: k in after && k !in keys ==> k in batches && after[k] == batches[k]
  }

  /** Every batch of `keys` is there, with an empty mesh. */
  ghost predicate Emptied(after: map<u64, RenderBatch>, keys: seq<u64>) {
    forall k :: k in keys ==> k in after && Holds(after[k], [])
  }

  /** When the last key's batch is drawn, the frame so far is the frame before it plus that draw. */
  lemma DrawAllSnoc(batches: map<u64, RenderBatch>, keys: seq<u64>, frameIdx: nat)
    requires BatchesValid(batches) && keys != []
    requires DrawAll(batches, keys[..|keys| - 1], frameIdx).Ok?
    requires var mid := DrawAll(batches, keys[..|keys| - 1], frameIdx).value.0;
      keys[|keys| - 1] in mid && BatchDraw(mid[keys[|keys| - 1]], frameIdx).Ok?
    ensures var (mid, draws) := DrawAll(batches, keys[..|keys| - 1], frameIdx).value;
      var key := keys[|keys| - 1];
      var (b, draw) := BatchDraw(mid[key], frameIdx).value;
      DrawAll(batches, keys, frameIdx) == Ok((mid[key := b], draws + [draw]))
  {
  }

  /** One more distinct key drawn keeps the three facts of `DrawAllDistinct`. */
  lemma DrawStep(batches: map<u64, RenderBatch>, mid: map<u64, RenderBatch>, init: seq<u64>, key: u64,
                 b: RenderBatch, draws: seq<DrawCall>, draw: DrawCall, frameIdx: nat)
    requires key !in init && key in batches
    requires AllDrawn(draws, batches, init, frameIdx) && Untouched(mid, batches, init) && Emptied(mid, init)
    requires Holds(b, []) && DrawnFrom(draw, batches[key], frameIdx)
    ensures AllDrawn(draws + [draw], batches, init + [key], frameIdx)
    ensures Untouched(mid[key := b], batches, init + [key])
    ensures Emptied(mid[key := b], init + [key])
  {
    var keys := init + [key];
    forall i | 0 <= i < |keys| ensures keys[i] in batches && DrawnFrom((draws + [draw])[i], batches[keys[i]], frameIdx) {
      if i < |init| {
        assert keys[i] == init[i] && (draws + [draw])[i] == draws[i];
      }
    }
  }

  /** Draw `draw` is the draw of all of batch `b`'s indices, bound at slot `frameIdx` of its buffers. */
  ghost predicate DrawnFrom(draw: DrawCall, b: RenderBatch, frameIdx: nat) {
    && draw.program == b.shaderProgramId && draw.descriptorSet == b.descriptorSet
    && draw.indexCount == |b.indices|
    && draw.vertexOffset == FrameOffset(frameIdx, b.vertexBuffer.frameLen) * VERTEX_SIZE
    && draw.indexOffset == FrameOffset(frameIdx, b.indexBuffer.frameLen) * INDEX_SIZE
  }

  /** The draw of a batch that fits is drawn from that batch. */
  lemma DrawnLast(b: RenderBatch, k: u64, frameIdx: nat)
    requires BatchValid(b, k) && frameIdx < FRAMES_IN_FLIGHT && |b.indices| <= MAX_BATCH_INDICES
    ensures BatchDraw(b, frameIdx).Ok?
    ensures DrawnFrom(BatchDraw(b, frameIdx).value.1, b, frameIdx)
  {
    BatchDrawFits(b, k, frameIdx);
  }

  /** For a valid batch, the ranges bound start at `frameIdx` whole slots of bytes into each buffer. */
  lemma DrawnOffsets(draw: DrawCall, b: RenderBatch, k: u64, frameIdx: nat)
    requires BatchValid(b, k) && DrawnFrom(draw, b, frameIdx)
    ensures draw.vertexOffset == frameIdx * VERTEX_FRAME_LEN
    ensures draw.indexOffset == frameIdx * INDEX_FRAME_LEN
  {
    assert FrameOffset(frameIdx, MAX_BATCH_VERTICES) * VERTEX_SIZE == frameIdx * (MAX_BATCH_VERTICES * VERTEX_SIZE);
    assert FrameOffset(frameIdx, MAX_BATCH_INDICES) * INDEX_SIZE == frameIdx * (MAX_BATCH_INDICES * INDEX_SIZE);
  }

  /** A key missing from the map ends the frame with `UnknownBatch`, once the draws before it succeed. */
  lemma DrawAllUnknown(batches: map<u64, RenderBatch>, keys: seq<u64>, frameIdx: nat)
    requires BatchesValid(batches)
    requires keys != [] && keys[|keys| - 1] !in batches
    requires DrawAll(batches, keys[..|keys| - 1], frameIdx).Ok?
    ensures DrawAll(batches, keys, frameIdx) == Panic(UnknownBatch)
  {
  }

  /**
   * A whole frame: after `process_commands` has batched `commands` and
   * returned the run keys `keys`, drawing those keys records one draw per
   * distinct key, in ascending key order, each of six indices per command of
   * that key, and leaves every batch of the frame empty, provided no key has
   * more than `MAX_SPRITES` commands.
   */
  lemma FrameDraws(batches: map<u64, RenderBatch>, before: map<u64, RenderBatch>, commands: seq<RenderCommand>,
                   keys: seq<u64>, frameIdx: nat)
    requires BatchesValid(batches) && frameIdx < FRAMES_IN_FLIGHT
    requires Walked(batches, commands, Key, before)
    requires keys == RunKeys(SortBy(commands, Key), Key)
    requires forall k :: k in KeySet(commands, Key) ==> |Filter(commands, Key, k)| <= MAX_SPRITES
    ensures DrawAll(batches, keys, frameIdx).Ok?
    ensures var (after, draws) := DrawAll(batches, keys, frameIdx).value;
      && (forall i :: 0 <= i < |keys| ==> draws[i].indexCount == QUAD_INDICES * |Filter(commands, Key, keys[i])|)
      && (forall k :: k in KeySet(commands, Key) ==> k in after && Holds(after[k], []))
  {
    var sorted := SortBy(commands, Key);
    SortSorted(commands, Key);
    RunKeysIncreasing(sorted, Key);
    RunKeysCover(sorted, Key);
    KeySetSortBy(commands, Key);
    assert Distinct(keys);
    forall k | k in keys ensures k in batches && |batches[k].indices| <= MAX_BATCH_INDICES {
      assert MeshHolds(batches, k, commands, Key);
    }
    DrawAllDistinct(batches, keys, frameIdx);
    var (after, draws) := DrawAll(batches, keys, frameIdx).value;
    forall i | 0 <= i < |keys| ensures draws[i].indexCount == QUAD_INDICES * |Filter(commands, Key, keys[i])| {
      assert keys[i] in keys;
      assert MeshHolds(batches, keys[i], commands, Key);
    }
    forall k | k in KeySet(commands, Key) ensures k in after && Holds(after[k], []) {
      assert k in keys;
    }
  }
}
