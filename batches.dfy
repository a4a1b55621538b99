/**
 * The batches of the 2D renderer (gfx-lib/src/renderer.rs): one
 * `RenderBatch` per key, each with a mesh it accumulates during a frame and
 * two per-frame GPU buffers it uploads that mesh to, and what
 * `create_render_batch` does to the renderer's batches and descriptor pools.
 * Descriptor sets, images and samplers are opaque tokens.
 */
module Batches {
  import opened Types
  import opened MeshBuilder
  import opened Commands
  import opened GpuMemory

  /** `tex_info`: the texture id and the size the batch computes UVs against. */
  datatype TexInfo = TexInfo(id: u16, w: u32, h: u32)

  /** A registered texture: its size, the memory type of its image and the texels it holds. */
  datatype GpuTexture = GpuTexture(id: u16, w: u32, h: u32, memoryType: nat, texels: seq<u8>)

  /** A descriptor set, identified by the shader program whose pool it came from and its place in that pool. */
  datatype DescriptorSet = DescriptorSet(program: u16, index: nat)

  /** `MAX_DESCRIPTOR_SETS`: the capacity of each shader program's descriptor pool. */
  const MAX_DESCRIPTOR_SETS: nat := 512

  /** The shader programs `Renderer::new` registers. */
  const SHADER_PROGRAMS: set<u16> := {0, 1, 2}

  /**
   * The memory-type masks the device reports in the requirements of each kind
   * of resource the renderer creates (`get_buffer_requirements`,
   * `get_image_requirements`).
   */
  datatype TypeMasks = TypeMasks(vertex: u64, index: u64, uniform: u64, staging: u64, image: u64)

  /**
   * `RenderBatch`: the draws of one key. The renderer's map owns each batch
   * by value; its mesh is the two lists `vertices` and `indices`.
   */
  datatype RenderBatch = RenderBatch(
    transparency: Transparency,
    layer: u8,
    shaderProgramId: u16,
    texInfo: TexInfo,
    descriptorSet: DescriptorSet,
    vertexBuffer: GpuBuffer<Vertex>,
    indexBuffer: GpuBuffer<nat>,
    vertices: seq<Vertex>,
    indices: seq<nat>)
  {
    /** `RenderBatch::key`: the key of the batch's own fields. */
    function Key(): (k: u64)
      ensures k / TRANSPARENCY_UNIT == Discriminant(transparency)
    {
      DecodeGenKey(transparency, layer, shaderProgramId, texInfo.id);
      GenKey(transparency, layer, shaderProgramId, texInfo.id)
    }

    /** `process_command`: appends the command's quad, UVs taken against `tex_info`'s size. */
    function ProcessCommand(c: RenderCommand): (r: RenderBatch)
      ensures r.(vertices := vertices, indices := indices) == this
      ensures |r.vertices| == |vertices| + QUAD_VERTICES && |r.indices| == |indices| + QUAD_INDICES
    {
      this.(vertices := vertices + CommandVertices(c, texInfo.w, texInfo.h),
            indices := indices + QuadIndices(|vertices|))
    }

    /** `take_mesh`: the accumulated vertices and indices, and the batch left with an empty mesh. */
    function TakeMesh(): (r: (seq<Vertex>, seq<nat>, RenderBatch))
      ensures r.0 == vertices && r.1 == indices
      ensures r.2 == Clear() && Holds(r.2, [])
    {
      (vertices, indices, this.(vertices := [], indices := []))
    }

    /** `RenderBatch::clear`: the mesh emptied, everything else kept. */
    function Clear(): (r: RenderBatch)
      ensures Holds(r, [])
      ensures r.(vertices := vertices, indices := indices) == this
    {
      this.(vertices := [], indices := [])
    }
  }

  /** `RenderBatch::new`: a batch with an empty mesh. */
  function NewBatch(t: Transparency, layer: u8, program: u16, texInfo: TexInfo, descriptorSet: DescriptorSet,
                    vertexBuffer: GpuBuffer<Vertex>, indexBuffer: GpuBuffer<nat>): (r: RenderBatch)
    ensures r.Key() == GenKey(t, layer, program, texInfo.id)
    ensures Holds(r, [])
  {
    RenderBatch(t, layer, program, texInfo, descriptorSet, vertexBuffer, indexBuffer, [], [])
  }

  /** The mesh of a batch is what processing `cs`, in order, into an empty mesh produces. */
  ghost predicate Holds(b: RenderBatch, cs: seq<RenderCommand>) {
    && b.vertices == BatchVertices(cs, b.texInfo.w, b.texInfo.h)
    && b.indices == QuadList(|cs|)
  }

  /** Processing a command keeps the mesh well formed and keeps what was there as a prefix. */
  lemma ProcessCommandWellFormed(b: RenderBatch, c: RenderCommand)
    requires WellFormed(|b.vertices|, b.indices)
    ensures var r := b.ProcessCommand(c);
      && WellFormed(|r.vertices|, r.indices)
      && r.vertices[..|b.vertices|] == b.vertices && r.indices[..|b.indices|] == b.indices
  {
    AppendQuadWellFormed(|b.vertices|, b.indices);
  }

  /** Processing one more command extends what a batch holds by that command. */
  lemma HoldsAppended(b: RenderBatch, cs: seq<RenderCommand>, c: RenderCommand)
    requires Holds(b, cs)
    ensures Holds(b.ProcessCommand(c), cs + [c])
  {
    BatchVerticesSnoc(cs, c, b.texInfo.w, b.texInfo.h);
  }

  /** A batch filed under key `k`: its key is `k`, its program exists, its buffers have one slot per frame in flight, its mesh is well formed. */
  ghost predicate BatchValid(b: RenderBatch, k: u64) {
    && b.Key() == k
    && b.shaderProgramId in SHADER_PROGRAMS
    && b.vertexBuffer.Valid() && b.vertexBuffer.frameLen == MAX_BATCH_VERTICES
    && b.vertexBuffer.frames == FRAMES_IN_FLIGHT
    && b.indexBuffer.Valid() && b.indexBuffer.frameLen == MAX_BATCH_INDICES
    && b.indexBuffer.frames == FRAMES_IN_FLIGHT
    && WellFormed(|b.vertices|, b.indices)
  }

  /** A valid batch stays valid as it takes a command. */
  lemma ProcessCommandValid(b: RenderBatch, k: u64, c: RenderCommand)
    requires BatchValid(b, k)
    ensures BatchValid(b.ProcessCommand(c), k)
  {
    ProcessCommandWellFormed(b, c);
  }

  /** The four fields `process_commands` compares agree exactly when the command's key is the batch's. */
  lemma SameRunFields(b: RenderBatch, k: u64, c: RenderCommand)
    requires BatchValid(b, k)
    ensures (&& b.transparency == c.transparency && b.layer == c.layer
             && b.shaderProgramId == c.shaderProgramId && b.texInfo.id == c.texId) <==> k == Key(c)
  {
    KeyInjective(b.transparency, b.layer, b.shaderProgramId, b.texInfo.id, c.transparency, c.layer, c.shaderProgramId, c.texId);
  }

  /** Every batch is valid under its own key. */
  ghost predicate BatchesValid(batches: map<u64, RenderBatch>) {
    forall k :: k in batches ==> BatchValid(batches[k], k)
  }

  /** Filing a valid batch under its key keeps every batch valid. */
  lemma BatchesValidInsert(batches: map<u64, RenderBatch>, k: u64, b: RenderBatch)
    requires BatchesValid(batches) && BatchValid(b, k)
    ensures BatchesValid(batches[k := b])
  {
  }

  /** Emptying a valid batch's mesh keeps it valid. */
  lemma ClearValid(b: RenderBatch, k: u64)
    requires BatchValid(b, k)
    ensures BatchValid(b.Clear(), k)
  {
  }

  /** Each shader program's pool has handed out at most `MAX_DESCRIPTOR_SETS` sets. */
  ghost predicate PoolsValid(sets: map<u16, nat>) {
    forall p :: p in SHADER_PROGRAMS ==> p in sets && sets[p] <= MAX_DESCRIPTOR_SETS
  }

  /** Handing out one more set of a pool that is not full keeps every pool within its capacity. */
  lemma PoolsValidTake(sets: map<u16, nat>, p: u16)
    requires PoolsValid(sets) && p in sets && sets[p] < MAX_DESCRIPTOR_SETS
    ensures PoolsValid(sets[p := sets[p] + 1])
  {
  }

  /** `create_vertex_buffer` / `create_index_buffer` for a new batch: empty slots of `frameLen` elements, one per frame in flight. */
  function BatchBuffer<T>(types: seq<MemoryType>, mask: u64, frameLen: nat, elemSize: nat): (r: Result<GpuBuffer<T>>)
    requires |types| <= 64 && frameLen > 0 && elemSize > 0
    ensures r.Panic? <==> FindMemoryType(types, mask, {CpuVisible}).None?
    ensures r.Panic? ==> r.reason == NoSuitableMemoryType
    ensures r.Ok? ==> r.value.Valid() && r.value.frameLen == frameLen && r.value.frames == FRAMES_IN_FLIGHT
    ensures r.Ok? ==> forall i :: 0 <= i < |r.value.cells| ==> r.value.cells[i].None?
  {
    match CreateBuffer(types, mask, {CpuVisible}, BufferLen(frameLen * elemSize, FRAMES_IN_FLIGHT))
    case Panic(reason) => Panic(reason)
    case Ok(_) => Ok(EmptyBuffer(frameLen, FRAMES_IN_FLIGHT))
  }

  /**
   * One recorded `draw_indexed`: the shader program whose pipeline is bound,
   * the descriptor set bound, the byte offsets of the vertex and index
   * ranges bound, and the index count.
   */
  datatype DrawCall = DrawCall(
    program: u16,
    descriptorSet: DescriptorSet,
    vertexOffset: nat,
    indexOffset: nat,
    indexCount: nat)

  /**
   * `render_batch` on one batch: its mesh is taken, the vertices and the
   * indices are written to slot `frameIdx` of its buffers, and one draw of
   * all the indices is recorded, with the ranges bound at the bytes just
   * written. A write past the end of a buffer cannot be mapped; a shader
   * program that does not exist panics.
   */
  function BatchDraw(b: RenderBatch, frameIdx: nat): (r: Result<(RenderBatch, DrawCall)>)
    requires b.vertexBuffer.Valid() && b.indexBuffer.Valid()
    ensures var vb, ib := b.vertexBuffer, b.indexBuffer;
      r.Ok? <==> && FrameOffset(frameIdx, vb.frameLen) + |b.vertices| <= |vb.cells|
                 && FrameOffset(frameIdx, ib.frameLen) + |b.indices| <= |ib.cells|
                 && b.shaderProgramId in SHADER_PROGRAMS
    ensures r.Panic? ==> r.reason == if && FrameOffset(frameIdx, b.vertexBuffer.frameLen) + |b.vertices| <= |b.vertexBuffer.cells|
                                        && FrameOffset(frameIdx, b.indexBuffer.frameLen) + |b.indices| <= |b.indexBuffer.cells|
                                     then UnknownShaderProgram else MappingOutOfRange
    ensures r.Ok? ==> var (after, draw) := r.value;
      && after.(vertexBuffer := b.vertexBuffer, indexBuffer := b.indexBuffer) == b.Clear()
      && Holds(after, [])
      && after.vertexBuffer == b.vertexBuffer.Update(frameIdx, b.vertices).value
      && after.indexBuffer == b.indexBuffer.Update(frameIdx, b.indices).value
      && draw.program == b.shaderProgramId && draw.descriptorSet == b.descriptorSet
      && draw.vertexOffset == FrameOffset(frameIdx, b.vertexBuffer.frameLen) * VERTEX_SIZE
      && draw.indexOffset == FrameOffset(frameIdx, b.indexBuffer.frameLen) * INDEX_SIZE
      && draw.indexCount == |b.indices|
  {
    var (vertices, indices, taken) := b.TakeMesh();
    match b.vertexBuffer.Update(frameIdx, vertices)
    case Panic(e) => Panic(e)
    case Ok(vb) =>
      match b.indexBuffer.Update(frameIdx, indices)
      case Panic(e) => Panic(e)
      case Ok(ib) =>
        if b.shaderProgramId !in SHADER_PROGRAMS then Panic(UnknownShaderProgram)
        else
          var vertexOffset := frameIdx * (b.vertexBuffer.frameLen * VERTEX_SIZE);
          var indexOffset := frameIdx * (b.indexBuffer.frameLen * INDEX_SIZE);
          Ok((taken.(vertexBuffer := vb, indexBuffer := ib),
              DrawCall(b.shaderProgramId, b.descriptorSet, vertexOffset, indexOffset, |indices|)))
  }

  /**
   * A valid batch of at most `MAX_SPRITES` quads is drawn into a frame slot
   * without panicking, and the other slot of its vertex buffer, the one the
   * previous frame's draw reads, is left as it was.
   */
  lemma BatchDrawFits(b: RenderBatch, k: u64, frameIdx: nat)
    requires BatchValid(b, k) && frameIdx < FRAMES_IN_FLIGHT && |b.indices| <= MAX_BATCH_INDICES
    ensures BatchDraw(b, frameIdx).Ok?
    ensures var (j, n) := (1 - frameIdx, MAX_BATCH_VERTICES);
      var (vb, vb') := (b.vertexBuffer.cells, BatchDraw(b, frameIdx).value.0.vertexBuffer.cells);
      vb'[FrameOffset(j, n) .. FrameOffset(j, n) + n] == vb[FrameOffset(j, n) .. FrameOffset(j, n) + n]
  {
    WellFormedIndicesInRange(|b.vertices|, b.indices);
    assert |b.vertices| <= MAX_BATCH_VERTICES;
    SlotFits(frameIdx, MAX_BATCH_VERTICES, |b.vertices|);
    SlotFits(frameIdx, MAX_BATCH_INDICES, |b.indices|);
    SpliceKeepsOtherSlots(b.vertexBuffer.cells, MAX_BATCH_VERTICES, FRAMES_IN_FLIGHT, frameIdx, 1 - frameIdx, b.vertices);
  }

  /** Drawing a valid batch keeps it valid under its key. */
  lemma BatchDrawValid(b: RenderBatch, k: u64, frameIdx: nat)
    requires BatchValid(b, k) && BatchDraw(b, frameIdx).Ok?
    ensures BatchValid(BatchDraw(b, frameIdx).value.0, k)
  {
  }

  /** A write of at most one slot's length to a slot of a two-slot buffer stays inside the buffer. */
  lemma SlotFits(frameIdx: nat, frameLen: nat, n: nat)
    requires frameIdx < FRAMES_IN_FLIGHT && n <= frameLen
    ensures FrameOffset(frameIdx, frameLen) + n <= BufferLen(frameLen, FRAMES_IN_FLIGHT)
  {
  }

  // ---------------------------------------------------------------------------
  // `create_render_batch` on the state it changes

  /** What batch creation reads besides the batches: the device's memory types and masks, and the registered textures. */
  datatype Env = Env(memoryTypes: seq<MemoryType>, masks: TypeMasks, textures: map<u16, GpuTexture>)

  /** What `process_commands` changes: the batches by key and the number of sets each descriptor pool has handed out. */
  datatype Batching = Batching(batches: map<u64, RenderBatch>, sets: map<u16, nat>)

  /** The size a new batch is given: the registered texture's, or 0 x 0 when `texId` is not registered. */
  function TexInfoOf(textures: map<u16, GpuTexture>, texId: u16): (r: TexInfo)
    ensures r.id == texId
    ensures texId in textures ==> r.w == textures[texId].w && r.h == textures[texId].h
    ensures texId !in textures ==> r.w == 0 && r.h == 0
  {
    if texId in textures then TexInfo(texId, textures[texId].w, textures[texId].h) else TexInfo(texId, 0, 0)
  }

  /** Why creating a batch for a key not yet present would panic, if it would. */
  ghost predicate CreateFails(env: Env, sets: map<u16, nat>, program: u16) {
    || program !in SHADER_PROGRAMS
    || (program in sets && sets[program] >= MAX_DESCRIPTOR_SETS)
    || (|env.memoryTypes| <= 64 && BatchBuffer<Vertex>(env.memoryTypes, env.masks.vertex, MAX_BATCH_VERTICES, VERTEX_SIZE).Panic?)
    || (|env.memoryTypes| <= 64 && BatchBuffer<nat>(env.memoryTypes, env.masks.index, MAX_BATCH_INDICES, INDEX_SIZE).Panic?)
  }

  /**
   * `create_render_batch` on values: a key already present only has its
   * batch's mesh cleared; a new key gets one new batch, with the next
   * descriptor set of its shader program's pool, fresh vertex and index
   * buffers, and the size of the registered texture. Its result is the key
   * and the new state; `CreateBatchSpec` states what that state is.
   */
  function CreateBatch(env: Env, st: Batching, t: Transparency, layer: u8, program: u16, texId: u16)
    : (r: Result<(u64, Batching)>)
    requires |env.memoryTypes| <= 64 && PoolsValid(st.sets)
    ensures r.Ok? ==> r.value.0 == GenKey(t, layer, program, texId)
    ensures r.Ok? ==> r.value.0 in r.value.1.batches && PoolsValid(r.value.1.sets)
  {
    var key := GenKey(t, layer, program, texId);
    if key in st.batches then
      Ok((key, st.(batches := st.batches[key := st.batches[key].Clear()])))
    else if program !in SHADER_PROGRAMS then
      Panic(UnknownShaderProgram)
    else if st.sets[program] >= MAX_DESCRIPTOR_SETS then
      Panic(DescriptorPoolExhausted)
    else
      var descriptorSet := DescriptorSet(program, st.sets[program]);
      var vertexBuffer := BatchBuffer<Vertex>(env.memoryTypes, env.masks.vertex, MAX_BATCH_VERTICES, VERTEX_SIZE);
      var indexBuffer := BatchBuffer<nat>(env.memoryTypes, env.masks.index, MAX_BATCH_INDICES, INDEX_SIZE);
      if vertexBuffer.Panic? then Panic(vertexBuffer.reason)
      else if indexBuffer.Panic? then Panic(indexBuffer.reason)
      else
        var batch := NewBatch(t, layer, program, TexInfoOf(env.textures, texId), descriptorSet,
                              vertexBuffer.value, indexBuffer.value);
        Ok((key, Batching(st.batches[key := batch], st.sets[program := st.sets[program] + 1])))
  }

  /**
   * What `CreateBatch` does. Either way the batch of the key is there with an
   * empty mesh, no other batch changes and each pool hands out at most one
   * more set. A key already present keeps its batch, only emptied, and the
   * pools. A new key panics exactly when its program is unknown, its pool is
   * full or no memory type suits the batch buffers; otherwise its batch gets
   * the registered texture's size and the next set of its program's pool.
   */
  lemma CreateBatchSpec(env: Env, st: Batching, t: Transparency, layer: u8, program: u16, texId: u16)
    requires |env.memoryTypes| <= 64 && PoolsValid(st.sets)
    ensures var r := CreateBatch(env, st, t, layer, program, texId);
      && (r.Ok? ==> var (k, next) := r.value;
           && next.batches == st.batches[k := next.batches[k]]
           && Holds(next.batches[k], [])
           && (forall p :: p in SHADER_PROGRAMS ==> next.sets[p] <= st.sets[p] + 1))
      && (r.Ok? && BatchesValid(st.batches) ==> BatchesValid(r.value.1.batches))
      && (r.Panic? ==> r.reason in {UnknownShaderProgram, DescriptorPoolExhausted, NoSuitableMemoryType})
    ensures var (k, r) := (GenKey(t, layer, program, texId), CreateBatch(env, st, t, layer, program, texId));
      k in st.batches ==> r.Ok? && r.value.1.batches[k] == st.batches[k].Clear() && r.value.1.sets == st.sets
    ensures var (k, r) := (GenKey(t, layer, program, texId), CreateBatch(env, st, t, layer, program, texId));
      k !in st.batches ==>
        && (r.Panic? <==> CreateFails(env, st.sets, program))
        && (r.Ok? ==> var next := r.value.1;
             && next.batches[k].texInfo == TexInfoOf(env.textures, texId)
             && next.batches[k].descriptorSet == DescriptorSet(program, st.sets[program])
             && next.sets == st.sets[program := st.sets[program] + 1])
  {
  }

  /** `n` more batches, of any known shader programs, can be created with memory types `types` and pools `sets`. */
  ghost predicate Room(types: seq<MemoryType>, masks: TypeMasks, sets: map<u16, nat>, n: nat) {
    && |types| <= 64
    && BatchBuffer<Vertex>(types, masks.vertex, MAX_BATCH_VERTICES, VERTEX_SIZE).Ok?
    && BatchBuffer<nat>(types, masks.index, MAX_BATCH_INDICES, INDEX_SIZE).Ok?
    && (forall p :: p in SHADER_PROGRAMS ==> p in sets && sets[p] + n <= MAX_DESCRIPTOR_SETS)
  }
}
