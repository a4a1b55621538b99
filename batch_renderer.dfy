/**
 * The `Renderer` of gfx-lib/src/renderer.rs as an object: its batches, its
 * textures, its descriptor pools, its frame counter and its uniform buffer
 * are fields its methods update. Each method is proved against the value
 * functions of `Batches`, `BatchWalk` and `Frames` (or `TextureOf` here), and
 * what the renderer promises is proved about those functions.
 */
module BatchRenderer {
  import opened Types
  import opened MeshBuilder
  import opened Commands
  import opened StableSort
  import opened GpuMemory
  import opened Batches
  import opened BatchWalk
  import opened Frames

  /** `UniformBufferObject`: the view, model and projection matrices, column by column. */
  datatype Ubo = Ubo(view: seq<real>, model: seq<real>, projection: seq<real>)

  /** Every texture is filed under its own id. */
  ghost predicate TexturesValid(textures: map<u16, GpuTexture>) {
    forall id :: id in textures ==> textures[id].id == id
  }

  /** `create_uniform_buffer` as `Renderer::new` calls it: one `Ubo` per frame in flight, `ubo` in slot 0. */
  function UniformBuffer(types: seq<MemoryType>, masks: TypeMasks, ubo: Ubo): (r: Result<GpuBuffer<Ubo>>)
    requires |types| <= 64
    ensures r.Ok? <==> FindMemoryType(types, masks.uniform, {CpuVisible}).Some?
    ensures r.Panic? ==> r.reason == NoSuitableMemoryType
    ensures r.Ok? ==> r.value.Valid() && r.value.frameLen == 1 && r.value.frames == FRAMES_IN_FLIGHT
    ensures r.Ok? ==> r.value.cells == [Some(ubo), None]
  {
    CreateFrameBuffer(types, masks.uniform, 1, UBO_SIZE, FRAMES_IN_FLIGHT, [ubo])
  }

  /** The exclusive bound of `u32` arithmetic; the source is built with overflow checks. */
  const U32_LIMIT: nat := 0x1_0000_0000

  /**
   * `create_gpu_texture` on values. The image takes the first device-local
   * memory type the device allows; the row pitch rounds `w * 4` bytes up to
   * the copy alignment `2^alignLog2`, in `u32` arithmetic; the staging buffer
   * of `h` rows at that pitch must not be empty and takes a host-visible
   * memory type; each of the `h` rows of `w * 4` bytes must be inside
   * `pixels`. The texture then holds exactly those `h` rows of pixels.
   */
  function TextureOf(types: seq<MemoryType>, masks: TypeMasks, alignLog2: nat, id: u16, w: u32, h: u32,
                     pixels: seq<u8>): (r: Result<GpuTexture>)
    requires |types| <= 64
    ensures r.Ok? <==>
      && CreateImage(types, masks.image).Ok?
      && w * IMAGE_STRIDE + (Pow2(alignLog2) - 1) < U32_LIMIT
      && 0 < h * RowPitch(w, alignLog2) < U32_LIMIT
      && FindMemoryType(types, masks.staging, {CpuVisible}).Some?
      && h * (w * IMAGE_STRIDE) <= |pixels|
    ensures r.Ok? ==> r.value.id == id && r.value.w == w && r.value.h == h
    ensures r.Ok? ==> r.value.memoryType < |types| && DeviceLocal in types[r.value.memoryType].properties
    ensures r.Ok? ==> |r.value.texels| == h * (w * IMAGE_STRIDE)
    ensures r.Panic? ==> r.reason in {NoSuitableMemoryType, ArithmeticOverflow, ZeroSizedBuffer, PixelsTooShort}
  {
    match CreateImage(types, masks.image)
    case Panic(e) => Panic(e)
    case Ok(memoryType) =>
      if w * IMAGE_STRIDE + (Pow2(alignLog2) - 1) >= U32_LIMIT then Panic(ArithmeticOverflow)
      else if h * RowPitch(w, alignLog2) >= U32_LIMIT then Panic(ArithmeticOverflow)
      else match CreateBuffer(types, masks.staging, {CpuVisible}, h * RowPitch(w, alignLog2))
        case Panic(e) => Panic(e)
        case Ok(_) =>
          if h * (w * IMAGE_STRIDE) > |pixels| then Panic(PixelsTooShort)
          else Ok(GpuTexture(id, w, h, memoryType, pixels[..h * (w * IMAGE_STRIDE)]))
  }

  /**
   * `Renderer`: the batches by key, the registered textures, how many sets
   * each shader program's descriptor pool has handed out, the frame counter
   * and the uniform buffer, plus `recorded`, the draws recorded into the
   * current frame's command buffer.
   */
  class Renderer {
    var batches: map<u64, RenderBatch>
    var textures: map<u16, GpuTexture>
    var setsAllocated: map<u16, nat>
    const framesInFlight: nat
    var currentFrame: nat
    /** The memory types of the physical device and the type masks it reports. */
    const memoryTypes: seq<MemoryType>
    const masks: TypeMasks
    /** `optimal_buffer_copy_pitch_alignment` is `2^pitchAlignLog2`. */
    const pitchAlignLog2: nat
    var uniformBuffer: GpuBuffer<Ubo>
    var recorded: seq<DrawCall>

    ghost predicate Valid()
      reads this
    {
      && framesInFlight == FRAMES_IN_FLIGHT
      && |memoryTypes| <= 64
      && uniformBuffer.Valid() && uniformBuffer.frameLen == 1 && uniformBuffer.frames == framesInFlight
      && PoolsValid(setsAllocated)
      && TexturesValid(textures)
      && BatchesValid(batches)
    }

    /** What creating a batch reads besides the batching state. */
    ghost function Environment(): Env
      reads this
    {
      Env(memoryTypes, masks, textures)
    }

    /** The batching state: the batches and the descriptor pools. */
    ghost function State(): Batching
      reads this
    {
      Batching(batches, setsAllocated)
    }

    /**
     * The state `Renderer::new` leaves: three shader programs with empty
     * descriptor pools, no batches or textures, frame 0 of 2, and a uniform
     * buffer with one slot per frame, `ubo` written to slot 0.
     */
    constructor (memoryTypes: seq<MemoryType>, masks: TypeMasks, pitchAlignLog2: nat, ubo: Ubo)
      requires |memoryTypes| <= 64
      requires UniformBuffer(memoryTypes, masks, ubo).Ok?
      ensures Valid()
      ensures batches == map[] && textures == map[] && recorded == [] && currentFrame == 0
      ensures setsAllocated == map[0 := 0, 1 := 0, 2 := 0]
      ensures uniformBuffer.cells == [Some(ubo), None]
      ensures this.memoryTypes == memoryTypes && this.masks == masks && this.pitchAlignLog2 == pitchAlignLog2
    {
      this.memoryTypes := memoryTypes;
      this.masks := masks;
      this.pitchAlignLog2 := pitchAlignLog2;
      framesInFlight := FRAMES_IN_FLIGHT;
      uniformBuffer := UniformBuffer(memoryTypes, masks, ubo).value;
      batches := map[];
      textures := map[];
      setsAllocated := map[0 := 0, 1 := 0, 2 := 0];
      currentFrame := 0;
      recorded := [];
    }

    /**
     * `create_render_batch`: what `CreateBatch` computes from the renderer's
     * state, written to its fields; nothing else changes.
     */
    method CreateRenderBatch(t: Transparency, layer: u8, program: u16, texId: u16) returns (r: Result<u64>)
      requires Valid()
      modifies this
      ensures Valid()
      ensures var expected := CreateBatch(old(Environment()), old(State()), t, layer, program, texId);
        && (r.Ok? <==> expected.Ok?)
        && (r.Ok? ==> r.value == expected.value.0 && State() == expected.value.1)
        && (r.Panic? ==> r.reason == expected.reason)
      ensures textures == old(textures) && currentFrame == old(currentFrame)
      ensures uniformBuffer == old(uniformBuffer) && recorded == old(recorded)
    {
      var key := GenKey(t, layer, program, texId);
      if key in batches {
        ClearValid(batches[key], key);
        BatchesValidInsert(batches, key, batches[key].Clear());
        batches := batches[key := batches[key].Clear()];
        return Ok(key);
      }
      r := NewRenderBatch(t, layer, program, texId);
    }

    /** The part of `create_render_batch` that runs for a key with no batch yet. */
    method NewRenderBatch(t: Transparency, layer: u8, program: u16, texId: u16) returns (r: Result<u64>)
      requires Valid() && GenKey(t, layer, program, texId) !in batches
      modifies this
      ensures Valid()
      ensures var expected := CreateBatch(old(Environment()), old(State()), t, layer, program, texId);
        && (r.Ok? <==> expected.Ok?)
        && (r.Ok? ==> r.value == expected.value.0 && State() == expected.value.1)
        && (r.Panic? ==> r.reason == expected.reason)
      ensures textures == old(textures) && currentFrame == old(currentFrame)
      ensures uniformBuffer == old(uniformBuffer) && recorded == old(recorded)
    {
      var key := GenKey(t, layer, program, texId);
      if program !in SHADER_PROGRAMS {
        return Panic(UnknownShaderProgram);
      }
      if setsAllocated[program] >= MAX_DESCRIPTOR_SETS {
        return Panic(DescriptorPoolExhausted);
      }
      var descriptorSet := DescriptorSet(program, setsAllocated[program]);
      PoolsValidTake(setsAllocated, program);
      setsAllocated := setsAllocated[program := setsAllocated[program] + 1];
      var vertexBuffer := BatchBuffer<Vertex>(memoryTypes, masks.vertex, MAX_BATCH_VERTICES, VERTEX_SIZE);
      if vertexBuffer.Panic? {
        return Panic(vertexBuffer.reason);
      }
      var indexBuffer := BatchBuffer<nat>(memoryTypes, masks.index, MAX_BATCH_INDICES, INDEX_SIZE);
      if indexBuffer.Panic? {
        return Panic(indexBuffer.reason);
      }
      var batch := NewBatch(t, layer, program, TexInfoOf(textures, texId), descriptorSet,
                            vertexBuffer.value, indexBuffer.value);
      BatchesValidInsert(batches, key, batch);
      batches := batches[key := batch];
      r := Ok(key);
    }

    /**
     * `process_commands`: the commands sorted by key, then one pass that
     * keeps one batch open, closes it (pushing its key) when a command
     * differs from it in transparency, layer, shader program or texture, and
     * opens the batch of the command's key when none is open. The new state
     * is the `Walk` of the sorted commands; the keys returned are the keys of
     * its runs, in order.
     */
    method ProcessCommands(commands: seq<RenderCommand>) returns (r: Result<seq<u64>>)
      requires Valid()
      modifies this
      ensures Valid()
      ensures var walked := Walk(old(Environment()), old(State()), SortBy(commands, Key));
        && (r.Ok? <==> walked.Ok?)
        && (r.Ok? ==> State() == walked.value && r.value == RunKeys(SortBy(commands, Key), Key))
        && (r.Panic? ==> r.reason == walked.reason)
      ensures textures == old(textures) && currentFrame == old(currentFrame)
      ensures uniformBuffer == old(uniformBuffer) && recorded == old(recorded)
    {
      var sorted := SortBy(commands, Key);
      ghost var env0, st0 := Environment(), State();
      var batchKeys: seq<u64> := [];
      var cur: Option<u64> := None;
      var i := 0;
      while i < |sorted|
        invariant i <= |sorted|
        invariant Valid() && Environment() == env0
        invariant currentFrame == old(currentFrame) && uniformBuffer == old(uniformBuffer) && recorded == old(recorded)
        invariant WalkUpTo(env0, st0, sorted, i) == Ok(State())
        invariant cur.None? <==> i == 0
        invariant cur.Some? ==> cur.value == Key(sorted[i - 1]) && cur.value in batches
        invariant i == 0 ==> batchKeys == []
        invariant i > 0 ==> batchKeys + [Key(sorted[i - 1])] == RunKeysUpTo(sorted, Key, i)
      {
        var taken;
        taken, batchKeys := TakeStep(env0, st0, sorted, i, cur, batchKeys);
        if taken.Panic? {
          WalkUpToPrefix(env0, st0, sorted, i + 1);
          WalkPanicExtends(env0, st0, sorted, i + 1);
          return Panic(taken.reason);
        }
        cur := Some(taken.value);
        i := i + 1;
      }
      if cur.Some? {
        batchKeys := batchKeys + [cur.value];
      }
      assert sorted[..|sorted|] == sorted;
      RunKeysUpToPrefix(sorted, Key, |sorted|);
      WalkUpToPrefix(env0, st0, sorted, |sorted|);
      return Ok(batchKeys);
    }

    /**
     * Turn `i` of the loop in `process_commands`, seen from the walk: when
     * the first `i` sorted commands have been walked, with the runs
     * `batchKeys` closed and the run of command `i - 1` open, the turn walks
     * command `i` and closes the open run exactly when command `i` starts a
     * new one.
     */
    method TakeStep(ghost env0: Env, ghost st0: Batching, sorted: seq<RenderCommand>, i: nat,
                    cur: Option<u64>, batchKeys: seq<u64>) returns (r: Result<u64>, keys: seq<u64>)
      requires Valid() && Environment() == env0 && i < |sorted|
      requires |env0.memoryTypes| <= 64 && PoolsValid(st0.sets)
      requires WalkUpTo(env0, st0, sorted, i) == Ok(State())
      requires cur.None? <==> i == 0
      requires cur.Some? ==> cur.value == Key(sorted[i - 1]) && cur.value in batches
      requires i == 0 ==> batchKeys == []
      requires i > 0 ==> batchKeys + [Key(sorted[i - 1])] == RunKeysUpTo(sorted, Key, i)
      modifies this
      ensures Valid() && Environment() == env0
      ensures currentFrame == old(currentFrame) && uniformBuffer == old(uniformBuffer) && recorded == old(recorded)
      ensures r.Panic? ==> WalkUpTo(env0, st0, sorted, i + 1) == Panic(r.reason)
      ensures r.Ok? ==> && WalkUpTo(env0, st0, sorted, i + 1) == Ok(State())
                        && r.value == Key(sorted[i]) && r.value in batches
                        && keys + [Key(sorted[i])] == RunKeysUpTo(sorted, Key, i + 1)
    {
      RunKeysUpToStep(sorted, Key, i, batchKeys);
      var closed;
      r, closed := TakeCommand(sorted[i], cur);
      keys := if closed.Some? then batchKeys + [closed.value] else batchKeys;
    }

    /**
     * One turn of the loop in `process_commands`: the open batch `cur` is
     * closed (its key returned in `closed`) when `c` differs from it in
     * transparency, layer, shader program or texture; unless it is still
     * open, the batch of `c`'s key is opened with `create_render_batch`; the
     * command then goes into it. The new state is the `Step` of the walk.
     */
    method TakeCommand(c: RenderCommand, cur: Option<u64>) returns (r: Result<u64>, closed: Option<u64>)
      requires Valid() && (cur.Some? ==> cur.value in batches)
      modifies this
      ensures Valid()
      ensures closed == if cur.Some? && cur.value != Key(c) then cur else None
      ensures var expected := Step(old(Environment()), old(State()), cur.Some? && cur.value == Key(c), c);
        && (r.Ok? <==> expected.Ok?)
        && (r.Ok? ==> r.value == Key(c) && State() == expected.value)
        && (r.Panic? ==> r.reason == expected.reason)
      ensures textures == old(textures) && currentFrame == old(currentFrame)
      ensures uniformBuffer == old(uniformBuffer) && recorded == old(recorded)
    {
      var open := false;
      closed := None;
      if cur.Some? {
        var b := batches[cur.value];
        SameRunFields(b, cur.value, c);
        if || b.transparency != c.transparency || b.layer != c.layer
           || b.shaderProgramId != c.shaderProgramId || b.texInfo.id != c.texId {
          closed := Some(b.Key());
        } else {
          open := true;
        }
      }
      var key: u64 := Key(c);
      if !open {
        var made := CreateRenderBatch(c.transparency, c.layer, c.shaderProgramId, c.texId);
        if made.Panic? {
          return Panic(made.reason), closed;
        }
        key := made.value;
      }
      ProcessCommandValid(batches[key], key, c);
      BatchesValidInsert(batches, key, batches[key].ProcessCommand(c));
      batches := batches[key := batches[key].ProcessCommand(c)];
      r := Ok(key);
    }

    /**
     * `render_batch`: the batch of `key` has its mesh taken and written to
     * slot `frameIdx` of its buffers, and its draw is recorded; the result is
     * what `DrawIn` computes.
     */
    method DrawBatch(key: u64, frameIdx: nat) returns (r: Result<()>)
      requires Valid()
      modifies this
      ensures Valid()
      ensures var expected := DrawIn(old(batches), key, frameIdx);
        && (r.Ok? <==> expected.Ok?)
        && (r.Ok? ==> batches == expected.value.0 && recorded == old(recorded) + [expected.value.1])
        && (r.Panic? ==> r.reason == expected.reason)
      ensures textures == old(textures) && setsAllocated == old(setsAllocated) && currentFrame == old(currentFrame)
      ensures uniformBuffer == old(uniformBuffer)
    {
      if key !in batches {
        return Panic(UnknownBatch);
      }
      var batch := batches[key];
      var (vertices, indices, taken) := batch.TakeMesh();
      var vertexBuffer := batch.vertexBuffer.Update(frameIdx, vertices);
      if vertexBuffer.Panic? {
        return Panic(vertexBuffer.reason);
      }
      var indexBuffer := batch.indexBuffer.Update(frameIdx, indices);
      if indexBuffer.Panic? {
        return Panic(indexBuffer.reason);
      }
      if batch.shaderProgramId !in SHADER_PROGRAMS {
        return Panic(UnknownShaderProgram);
      }
      var vertexOffset := frameIdx * (batch.vertexBuffer.frameLen * VERTEX_SIZE);
      var indexOffset := frameIdx * (batch.indexBuffer.frameLen * INDEX_SIZE);
      BatchDrawValid(batch, key, frameIdx);
      batches := batches[key := taken.(vertexBuffer := vertexBuffer.value, indexBuffer := indexBuffer.value)];
      recorded := recorded + [DrawCall(batch.shaderProgramId, batch.descriptorSet, vertexOffset, indexOffset, |indices|)];
      r := Ok(());
    }

    /**
     * `render`: when the swapchain image cannot be acquired nothing happens
     * (the swapchain is rebuilt); otherwise the frame's slot is
     * `currentFrame % framesInFlight`, `ubo` is written to that slot of the
     * uniform buffer, the command buffer is restarted, each key's batch is
     * drawn in order, and the frame counter advances.
     */
    method Render(keys: seq<u64>, acquired: bool, ubo: Ubo) returns (r: Result<()>)
      requires Valid()
      modifies this
      ensures Valid()
      ensures !acquired ==>
        && r.Ok? && batches == old(batches) && recorded == old(recorded)
        && currentFrame == old(currentFrame) && uniformBuffer == old(uniformBuffer)
      ensures acquired ==>
        var frameIdx := FrameSlot(old(currentFrame), FRAMES_IN_FLIGHT);
        var expected := DrawAll(old(batches), keys, frameIdx);
        && (r.Ok? <==> expected.Ok?)
        && (r.Ok? ==> batches == expected.value.0 && recorded == expected.value.1)
        && (r.Ok? ==> currentFrame == old(currentFrame) + 1)
        && (r.Ok? ==> uniformBuffer.cells == old(uniformBuffer).Update(frameIdx, [ubo]).value.cells)
        && (r.Panic? ==> r.reason == expected.reason)
      ensures textures == old(textures) && setsAllocated == old(setsAllocated)
    {
      if !acquired {
        return Ok(());
      }
      var frameIdx := FrameSlot(currentFrame, framesInFlight);
      var written := uniformBuffer.Update(frameIdx, [ubo]);
      uniformBuffer := written.value;
      recorded := [];
      r := DrawBatches(keys, frameIdx);
      if r.Panic? {
        return;
      }
      currentFrame := currentFrame + 1;
    }

    /** The loop of `render` over the frame's batch keys: `render_batch` for each, in order. */
    method DrawBatches(keys: seq<u64>, frameIdx: nat) returns (r: Result<()>)
      requires Valid() && recorded == []
      modifies this
      ensures Valid()
      ensures var expected := DrawAll(old(batches), keys, frameIdx);
        && (r.Ok? <==> expected.Ok?)
        && (r.Ok? ==> batches == expected.value.0 && recorded == expected.value.1)
        && (r.Panic? ==> r.reason == expected.reason)
      ensures textures == old(textures) && setsAllocated == old(setsAllocated) && currentFrame == old(currentFrame)
      ensures uniformBuffer == old(uniformBuffer)
    {
      ghost var batches0 := batches;
      var i := 0;
      while i < |keys|
        invariant i <= |keys|
        invariant Valid()
        invariant textures == old(textures) && setsAllocated == old(setsAllocated) && currentFrame == old(currentFrame)
        invariant uniformBuffer == old(uniformBuffer)
        invariant DrawAll(batches0, keys[..i], frameIdx) == Ok((batches, recorded))
      {
        DrawAllNext(batches0, keys, i, frameIdx);
        var drawn := DrawBatch(keys[i], frameIdx);
        if drawn.Panic? {
          DrawAllPanicExtends(batches0, keys, i + 1, frameIdx);
          return Panic(drawn.reason);
        }
        i := i + 1;
      }
      assert keys[..|keys|] == keys;
      r := Ok(());
    }

    /**
     * `create_gpu_texture`: the pixels are staged row by row at the pitch
     * the device asks for, the image takes the staged rows without their
     * padding, and the texture is registered under `id`, replacing any
     * texture registered there before. The result is what `TextureOf`
     * computes.
     */
    method CreateGpuTexture(id: u16, w: u32, h: u32, pixels: seq<u8>) returns (r: Result<()>)
      requires Valid()
      modifies this
      ensures Valid()
      ensures var expected := TextureOf(memoryTypes, masks, pitchAlignLog2, id, w, h, pixels);
        && (r.Ok? <==> expected.Ok?)
        && (r.Ok? ==> textures == old(textures)[id := expected.value])
        && (r.Panic? ==> r.reason == expected.reason)
      ensures batches == old(batches) && setsAllocated == old(setsAllocated) && currentFrame == old(currentFrame)
      ensures uniformBuffer == old(uniformBuffer) && recorded == old(recorded)
    {
      var image := CreateImage(memoryTypes, masks.image);
      if image.Panic? {
        return Panic(image.reason);
      }
      var rowBytes := w * IMAGE_STRIDE;
      if rowBytes + (Pow2(pitchAlignLog2) - 1) >= U32_LIMIT {
        return Panic(ArithmeticOverflow);
      }
      var pitch := RowPitch(w, pitchAlignLog2);
      if h * pitch >= U32_LIMIT {
        return Panic(ArithmeticOverflow);
      }
      var upload := CreateBuffer(memoryTypes, masks.staging, {CpuVisible}, h * pitch);
      if upload.Panic? {
        return Panic(upload.reason);
      }
      if h * rowBytes > |pixels| {
        return Panic(PixelsTooShort);
      }
      RowPitchBounds(w, pitchAlignLog2);
      MulMonotone(rowBytes, pitch, h);
      var staging := new u8[h * pitch];
      StageRows(staging, pixels, rowBytes, h, pitch);
      var texels := Unpad(staging[..], rowBytes, h, pitch);
      textures := textures[id := GpuTexture(id, w, h, image.value, texels)];
      r := Ok(());
    }
  }
}
