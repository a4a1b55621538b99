/**
 * The integer side of the renderer's GPU resources (gfx-lib/src/renderer.rs):
 * per-frame buffer sizing and slot offsets, the choice of a memory type,
 * the row pitch of a texture upload and the row-by-row staging copy.
 * Device handles are opaque; a buffer's memory is a sequence of cells that
 * are either still unwritten or hold one element.
 */
module GpuMemory {
  import opened Types

  // ---------------------------------------------------------------------------
  // Sizes

  const MAX_SPRITES: nat := 4096
  const MAX_BATCH_VERTICES: nat := MAX_SPRITES * 4
  const MAX_BATCH_INDICES: nat := MAX_SPRITES * 6

  /** `size_of::<Vertex>()`: nine f32 (position 3, colour 4, uv 2). */
  const VERTEX_SIZE: nat := 36
  /** `size_of::<u32>()`. */
  const INDEX_SIZE: nat := 4
  /** `size_of::<UniformBufferObject>()`: three 4x4 f32 matrices. */
  const UBO_SIZE: nat := 192

  /** `frames_in_flight` as `Renderer::new` sets it. */
  const FRAMES_IN_FLIGHT: nat := 2

  /** The bytes one frame's slot of a batch vertex / index buffer holds (`buffer_frame_len`). */
  const VERTEX_FRAME_LEN: nat := MAX_BATCH_VERTICES * VERTEX_SIZE
  const INDEX_FRAME_LEN: nat := MAX_BATCH_INDICES * INDEX_SIZE

  /** A per-frame buffer is one slot per frame in flight. */
  function BufferLen(frameLen: nat, framesInFlight: nat): nat {
    frameLen * framesInFlight
  }

  // ---------------------------------------------------------------------------
  // Frame slots (`update_buffer`)

  /** The byte offset `update_buffer` maps for slot `frameIdx`. */
  function FrameOffset(frameIdx: nat, frameSize: nat): (r: nat)
    ensures r == 0 <==> frameIdx == 0 || frameSize == 0
  {
    frameIdx * frameSize
  }

  /** The number of bytes `update_buffer` copies for `count` elements of `elemSize` bytes. */
  function DataLen(count: nat, elemSize: nat): nat {
    count * elemSize
  }

  /**
   * A write that fits its slot stays inside the buffer, and writes to two
   * different slots touch disjoint byte ranges.
   */
  lemma SlotWritesDisjoint(i: nat, j: nat, frameSize: nat, framesInFlight: nat, len1: nat, len2: nat)
    requires i < j < framesInFlight
    requires len1 <= frameSize && len2 <= frameSize
    ensures FrameOffset(i, frameSize) + len1 <= FrameOffset(j, frameSize)
    ensures FrameOffset(j, frameSize) + len2 <= BufferLen(frameSize, framesInFlight)
  {
    assert FrameOffset(i, frameSize) + frameSize == (i + 1) * frameSize;
    MulMonotone(i + 1, j, frameSize);
    assert FrameOffset(j, frameSize) + frameSize == (j + 1) * frameSize;
    MulMonotone(j + 1, framesInFlight, frameSize);
  }

  lemma MulMonotone(a: nat, b: nat, c: nat)
    requires a <= b
    ensures a * c <= b * c
  {
  }

  /** A full batch (4096 quads) fills its vertex and its index slot exactly. */
  lemma FullBatchFitsSlot()
    ensures DataLen(MAX_BATCH_VERTICES, VERTEX_SIZE) == VERTEX_FRAME_LEN
    ensures DataLen(MAX_BATCH_INDICES, INDEX_SIZE) == INDEX_FRAME_LEN
    ensures DataLen(MAX_BATCH_VERTICES + 4, VERTEX_SIZE) > VERTEX_FRAME_LEN
  {
  }

  // ---------------------------------------------------------------------------
  // Memory types (`create_buffer`, `create_image`)

  datatype MemoryProperty = DeviceLocal | CpuVisible | Coherent | CpuCached | LazilyAllocated

  datatype MemoryType = MemoryType(properties: set<MemoryProperty>)

  function Pow2(n: nat): (r: nat)
    ensures r >= 1
  {
    if n == 0 then 1 else 2 * Pow2(n - 1)
  }

  /** Bit `id` of a 64-bit type mask, i.e. `mask & (1 << id) != 0`. */
  predicate MaskBit(mask: u64, id: nat)
    requires id < 64
  {
    (mask / Pow2(id)) % 2 == 1
  }

  /** Memory type `id` is allowed by the requirements and has every requested property. */
  predicate Suitable(types: seq<MemoryType>, mask: u64, props: set<MemoryProperty>, id: nat)
    requires id < |types| <= 64
  {
    MaskBit(mask, id) && props <= types[id].properties
  }

  /** The first suitable memory type at index `from` or later. */
  function FindFrom(types: seq<MemoryType>, mask: u64, props: set<MemoryProperty>, from: nat): (r: Option<nat>)
    requires from <= |types| <= 64
    ensures r.Some? ==> from <= r.value < |types| && Suitable(types, mask, props, r.value)
    ensures r.Some? ==> forall j :: from <= j < r.value ==> !Suitable(types, mask, props, j)
    ensures r.None? ==> forall j :: from <= j < |types| ==> !Suitable(types, mask, props, j)
    decreases |types| - from
  {
    if from == |types| then None
    else if Suitable(types, mask, props, from) then Some(from)
    else FindFrom(types, mask, props, from + 1)
  }

  /** The memory type `create_buffer`/`create_image` choose: the lowest suitable index, if any. */
  function FindMemoryType(types: seq<MemoryType>, mask: u64, props: set<MemoryProperty>): (r: Option<nat>)
    requires |types| <= 64
    ensures r.Some? <==> exists j :: 0 <= j < |types| && Suitable(types, mask, props, j)
    ensures r.Some? ==> r.value < |types| && Suitable(types, mask, props, r.value)
    ensures r.Some? ==> forall j :: 0 <= j < r.value ==> !Suitable(types, mask, props, j)
  {
    FindFrom(types, mask, props, 0)
  }

  /** A memory allocation: which memory type backs it and how many bytes it has. */
  datatype Allocation = Allocation(memoryType: nat, size: nat)

  /**
   * `create_buffer`: refuses an empty buffer, then backs it with the first
   * memory type the device allows that has the requested properties.
   */
  function CreateBuffer(types: seq<MemoryType>, mask: u64, props: set<MemoryProperty>, len: nat): (r: Result<Allocation>)
    requires |types| <= 64
    ensures len == 0 ==> r == Panic(ZeroSizedBuffer)
    ensures len > 0 ==> (r.Panic? <==> FindMemoryType(types, mask, props).None?)
    ensures r.Panic? ==> r.reason in {ZeroSizedBuffer, NoSuitableMemoryType}
    ensures r.Ok? ==> r.value.size == len && r.value.memoryType < |types|
    ensures r.Ok? ==> props <= types[r.value.memoryType].properties
  {
    if len == 0 then Panic(ZeroSizedBuffer)
    else match FindMemoryType(types, mask, props)
      case None => Panic(NoSuitableMemoryType)
      case Some(id) => Ok(Allocation(id, len))
  }

  /** `create_image`: image memory must be device local; there is no size check. */
  function CreateImage(types: seq<MemoryType>, mask: u64): (r: Result<nat>)
    requires |types| <= 64
    ensures r.Ok? <==> FindMemoryType(types, mask, {DeviceLocal}).Some?
    ensures r.Ok? ==> r.value < |types| && DeviceLocal in types[r.value].properties
    ensures r.Panic? ==> r.reason == NoSuitableMemoryType
  {
    match FindMemoryType(types, mask, {DeviceLocal})
    case None => Panic(NoSuitableMemoryType)
    case Some(id) => Ok(id)
  }

  /** With type 0 host-visible only and type 1 device-local, a mask allowing both picks each for its use. */
  lemma MemoryTypeExample()
    ensures CreateBuffer([MemoryType({CpuVisible, Coherent}), MemoryType({DeviceLocal})], 3, {CpuVisible}, 16)
         == Ok(Allocation(0, 16))
    ensures CreateImage([MemoryType({CpuVisible, Coherent}), MemoryType({DeviceLocal})], 3) == Ok(1)
    ensures CreateImage([MemoryType({CpuVisible, Coherent}), MemoryType({DeviceLocal})], 1) == Panic(NoSuitableMemoryType)
  {
    assert MaskBit(3, 0) && MaskBit(3, 1) && !MaskBit(1, 1);
    assert !({DeviceLocal} <= {CpuVisible, Coherent});
  }

  // ---------------------------------------------------------------------------
  // Texture upload (`create_gpu_texture`)

  /** Bytes per texel of the `Rgba8Srgb` upload. */
  const IMAGE_STRIDE: nat := 4

  /**
   * `v & !(2^e - 1)` on an unsigned integer: the low `e` bits cleared, one
   * bit at a time.
   */
  function ClearLowBits(v: nat, e: nat): nat {
    if e == 0 then v else 2 * ClearLowBits(v / 2, e - 1)
  }

  /** `v >> e`: the bits of `v` above the low `e`. */
  function HighBits(v: nat, e: nat): nat {
    if e == 0 then v else HighBits(v / 2, e - 1)
  }

  /** `v` with its low `e` bits cleared is `(v >> e) << e`, and lies in `(v - 2^e, v]`. */
  lemma {:induction false} ClearLowBitsBounds(v: nat, e: nat)
    ensures ClearLowBits(v, e) == HighBits(v, e) * Pow2(e)
    ensures ClearLowBits(v, e) <= v < ClearLowBits(v, e) + Pow2(e)
  {
    if e > 0 {
      ClearLowBitsBounds(v / 2, e - 1);
      var q := HighBits(v / 2, e - 1);
      assert ClearLowBits(v, e) == 2 * (q * Pow2(e - 1)) == q * (2 * Pow2(e - 1));
    }
  }

  /** The row pitch for a texture `w` texels wide when rows must be aligned to `2^alignLog2` bytes. */
  function RowPitch(w: nat, alignLog2: nat): (r: nat)
    ensures w * IMAGE_STRIDE <= r
  {
    ClearLowBitsBounds(w * IMAGE_STRIDE + (Pow2(alignLog2) - 1), alignLog2);
    ClearLowBits(w * IMAGE_STRIDE + (Pow2(alignLog2) - 1), alignLog2)
  }

  /** The pitch is the smallest multiple of the alignment that holds one row of texels. */
  lemma RowPitchBounds(w: nat, alignLog2: nat)
    ensures w * IMAGE_STRIDE <= RowPitch(w, alignLog2) < w * IMAGE_STRIDE + Pow2(alignLog2)
    ensures RowPitch(w, alignLog2) == HighBits(w * IMAGE_STRIDE + (Pow2(alignLog2) - 1), alignLog2) * Pow2(alignLog2)
  {
    ClearLowBitsBounds(w * IMAGE_STRIDE + (Pow2(alignLog2) - 1), alignLog2);
  }

  /** 100 texels (400 bytes) aligned to 256 gives a 512-byte pitch; any width with alignment 1 is unpadded. */
  lemma RowPitchExample(w: nat)
    ensures RowPitch(100, 8) == 512
    ensures RowPitch(w, 0) == w * IMAGE_STRIDE
  {
    assert Pow2(8) == 256;
    RowPitchBounds(100, 8);
  }

  /** Row `y` of a buffer whose rows are `rowBytes` long and start every `pitch` bytes. */
  function Row(s: seq<u8>, y: nat, rowBytes: nat, pitch: nat): seq<u8>
    requires y * pitch + rowBytes <= |s|
  {
    s[y * pitch .. y * pitch + rowBytes]
  }

  /** The tightly packed image the GPU reads back: `h` rows of `rowBytes` taken every `pitch` bytes. */
  function Unpad(staging: seq<u8>, rowBytes: nat, h: nat, pitch: nat): (r: seq<u8>)
    requires rowBytes <= pitch && h * pitch <= |staging|
    ensures |r| == h * rowBytes
  {
    if h == 0 then []
    else
      assert h * pitch == (h - 1) * pitch + pitch && h * rowBytes == (h - 1) * rowBytes + rowBytes;
      Unpad(staging, rowBytes, h - 1, pitch) + Row(staging, h - 1, rowBytes, pitch)
  }

  /** Row `y` of the staging buffer holds row `y` of the packed pixels. */
  ghost predicate RowStaged(staging: seq<u8>, pixels: seq<u8>, rowBytes: nat, pitch: nat, y: nat) {
    && y * pitch + rowBytes <= |staging|
    && y * rowBytes + rowBytes <= |pixels|
    && Row(staging, y, rowBytes, pitch) == Row(pixels, y, rowBytes, rowBytes)
  }

  ghost predicate RowsStaged(staging: seq<u8>, pixels: seq<u8>, rowBytes: nat, rows: nat, pitch: nat) {
    forall y :: 0 <= y < rows ==> RowStaged(staging, pixels, rowBytes, pitch, y)
  }

  /** Copying every row to its pitch offset and reading the rows back gives the pixels again. */
  lemma {:induction false} UnpadStaged(staging: seq<u8>, pixels: seq<u8>, rowBytes: nat, h: nat, pitch: nat)
    requires rowBytes <= pitch && h * pitch <= |staging| && h * rowBytes <= |pixels|
    requires RowsStaged(staging, pixels, rowBytes, h, pitch)
    ensures Unpad(staging, rowBytes, h, pitch) == pixels[..h * rowBytes]
  {
    if h > 0 {
      assert (h - 1) * pitch <= h * pitch && (h - 1) * rowBytes <= h * rowBytes;
      UnpadStaged(staging, pixels, rowBytes, h - 1, pitch);
      assert RowStaged(staging, pixels, rowBytes, pitch, h - 1);
      assert pixels[..h * rowBytes] == pixels[..(h - 1) * rowBytes] + Row(pixels, h - 1, rowBytes, rowBytes);
    }
  }

  /** Rows below `y` end at or before row `y` starts. */
  lemma RowBefore(y': nat, y: nat, pitch: nat, rowBytes: nat)
    requires y' < y && rowBytes <= pitch
    ensures y' * pitch + rowBytes <= y * pitch
  {
    MulMonotone(y' + 1, y, pitch);
  }

  /** Writing row `y` at `y * pitch` keeps the rows before it and stages row `y`. */
  lemma {:induction false} StageNextRow(before: seq<u8>, after: seq<u8>, pixels: seq<u8>,
                                        rowBytes: nat, pitch: nat, y: nat, dst: nat)
    requires rowBytes <= pitch && dst == y * pitch && dst + rowBytes <= |before|
    requires y * rowBytes + rowBytes <= |pixels|
    requires after == before[..dst] + Row(pixels, y, rowBytes, rowBytes) + before[dst + rowBytes..]
    requires RowsStaged(before, pixels, rowBytes, y, pitch)
    ensures RowsStaged(after, pixels, rowBytes, y + 1, pitch)
  {
    assert after[..dst] == before[..dst];
    assert Row(after, y, rowBytes, pitch) == Row(pixels, y, rowBytes, rowBytes);
    forall y' | 0 <= y' < y
      ensures RowStaged(after, pixels, rowBytes, pitch, y')
    {
      RowBefore(y', y, pitch, rowBytes);
      assert RowStaged(before, pixels, rowBytes, pitch, y');
      var lo := y' * pitch;
      assert Row(after, y', rowBytes, pitch) == after[..dst][lo .. lo + rowBytes];
      assert Row(before, y', rowBytes, pitch) == before[..dst][lo .. lo + rowBytes];
    }
  }

  /** `copy_nonoverlapping`: `n` bytes of `src` from `from` written over `dst` at `at`. */
  method CopyBytes(dst: array<u8>, at: nat, src: seq<u8>, from: nat, n: nat)
    requires at + n <= dst.Length && from + n <= |src|
    modifies dst
    ensures dst[..] == old(dst[..at]) + src[from .. from + n] + old(dst[at + n..])
  {
    forall j | 0 <= j < n {
      dst[at + j] := src[from + j];
    }
    assert dst[..] == old(dst[..at]) + src[from .. from + n] + old(dst[at + n..]) by {
      forall i | 0 <= i < dst.Length
        ensures dst[i] == (old(dst[..at]) + src[from .. from + n] + old(dst[at + n..]))[i]
      {
        if at <= i < at + n {
          assert dst[at + (i - at)] == src[from + (i - at)];
        }
      }
    }
  }

  /**
   * The row loop of `create_gpu_texture`: row `y` of the packed pixels
   * (`rowBytes` bytes) is copied in one block to offset `y * pitch` of the
   * mapped staging buffer. Padding bytes are left as they were.
   */
  method StageRows(staging: array<u8>, pixels: seq<u8>, rowBytes: nat, h: nat, pitch: nat)
    requires rowBytes <= pitch && h * pitch <= staging.Length && h * rowBytes <= |pixels|
    modifies staging
    ensures RowsStaged(staging[..], pixels, rowBytes, h, pitch)
    ensures Unpad(staging[..], rowBytes, h, pitch) == pixels[..h * rowBytes]
  {
    var y := 0;
    while y < h
      invariant 0 <= y <= h
      invariant RowsStaged(staging[..], pixels, rowBytes, y, pitch)
    {
      MulMonotone(y + 1, h, pitch);
      MulMonotone(y + 1, h, rowBytes);
      ghost var before := staging[..];
      var dst, src := y * pitch, y * rowBytes;
      CopyBytes(staging, dst, pixels, src, rowBytes);
      StageNextRow(before, staging[..], pixels, rowBytes, pitch, y, dst);
      y := y + 1;
    }
    UnpadStaged(staging[..], pixels, rowBytes, h, pitch);
  }

  // ---------------------------------------------------------------------------
  // Mapped buffer contents

  /** `data` written over `cells` from `offset` on; everything else kept. */
  function Splice<T>(cells: seq<Option<T>>, offset: nat, data: seq<T>): (r: seq<Option<T>>)
    requires offset + |data| <= |cells|
    ensures |r| == |cells|
    ensures forall i :: 0 <= i < |data| ==> r[offset + i] == Some(data[i])
    ensures forall i :: 0 <= i < |cells| && !(offset <= i < offset + |data|) ==> r[i] == cells[i]
  {
    cells[..offset] + seq(|data|, i requires 0 <= i < |data| => Some(data[i])) + cells[offset + |data|..]
  }

  /**
   * The memory of one host-visible buffer of `frames` slots of `frameLen`
   * elements, as `update_buffer` sees it. Byte offsets are element offsets
   * times the element size, which divides the slot size for every buffer
   * the renderer creates.
   */
  datatype GpuBuffer<T> = GpuBuffer(frameLen: nat, frames: nat, cells: seq<Option<T>>)
  {
    ghost predicate Valid() {
      |cells| == BufferLen(frameLen, frames)
    }

    /**
     * `update_buffer`: copies `data` to the start of slot `frameIdx`. A range
     * past the end of the allocation cannot be mapped and ends the process.
     */
    function Update(frameIdx: nat, data: seq<T>): (r: Result<GpuBuffer<T>>)
      requires Valid()
      ensures r.Ok? <==> FrameOffset(frameIdx, frameLen) + |data| <= |cells|
      ensures r.Ok? ==> r.value.Valid() && r.value.frameLen == frameLen && r.value.frames == frames
      ensures r.Ok? ==> (forall i :: 0 <= i < |data| ==> r.value.cells[FrameOffset(frameIdx, frameLen) + i] == Some(data[i]))
      ensures r.Ok? ==> forall i :: 0 <= i < |cells| && !(FrameOffset(frameIdx, frameLen) <= i < FrameOffset(frameIdx, frameLen) + |data|) ==>
        r.value.cells[i] == cells[i]
      ensures r.Panic? ==> r.reason == MappingOutOfRange
    {
      var offset := FrameOffset(frameIdx, frameLen);
      if offset + |data| <= |cells| then Ok(this.(cells := Splice(cells, offset, data)))
      else Panic(MappingOutOfRange)
    }
  }

  /** A freshly allocated buffer: nothing written yet. */
  function EmptyBuffer<T>(frameLen: nat, frames: nat): (b: GpuBuffer<T>)
    ensures b.Valid() && b.frameLen == frameLen && b.frames == frames
    ensures forall i :: 0 <= i < |b.cells| ==> b.cells[i].None?
  {
    GpuBuffer(frameLen, frames, seq(BufferLen(frameLen, frames), _ => None))
  }

  /**
   * `create_vertex_buffer`, `create_index_buffer` and `create_uniform_buffer`:
   * a host-visible buffer of `frames` slots of `frameLen` elements of
   * `elemSize` bytes, with `data` then written to slot 0.
   */
  function CreateFrameBuffer<T>(types: seq<MemoryType>, mask: u64, frameLen: nat, elemSize: nat, frames: nat,
                                data: seq<T>): (r: Result<GpuBuffer<T>>)
    requires |types| <= 64
    ensures BufferLen(frameLen * elemSize, frames) == 0 ==> r == Panic(ZeroSizedBuffer)
    ensures BufferLen(frameLen * elemSize, frames) > 0 ==>
      (r.Panic? <==> FindMemoryType(types, mask, {CpuVisible}).None? || |data| > BufferLen(frameLen, frames))
    ensures r.Panic? ==> r.reason in {ZeroSizedBuffer, NoSuitableMemoryType, MappingOutOfRange}
    ensures r.Ok? ==> r.value.Valid() && r.value.frameLen == frameLen && r.value.frames == frames
    ensures r.Ok? ==> forall i :: 0 <= i < |r.value.cells| ==>
      r.value.cells[i] == if i < |data| then Some(data[i]) else None
  {
    match CreateBuffer(types, mask, {CpuVisible}, BufferLen(frameLen * elemSize, frames))
    case Panic(reason) => Panic(reason)
    case Ok(_) => EmptyBuffer(frameLen, frames).Update(0, data)
  }

  /** Writing nothing changes nothing: the buffer of an empty mesh stays as it was. */
  lemma UpdateEmpty<T>(b: GpuBuffer<T>, frameIdx: nat)
    requires b.Valid() && FrameOffset(frameIdx, b.frameLen) <= |b.cells|
    ensures b.Update(frameIdx, []) == Ok(b)
  {
    assert Splice(b.cells, FrameOffset(frameIdx, b.frameLen), []) == b.cells;
  }

  /** A splice leaves alone any range it does not overlap. */
  lemma SpliceOutside<T>(cells: seq<Option<T>>, offset: nat, data: seq<T>, lo: nat, hi: nat)
    requires offset + |data| <= |cells| && lo <= hi <= |cells|
    requires hi <= offset || offset + |data| <= lo
    ensures Splice(cells, offset, data)[lo..hi] == cells[lo..hi]
  {
    var r := Splice(cells, offset, data);
    forall i | lo <= i < hi ensures r[i] == cells[i] {
    }
  }

  /** A write to one slot that fits the slot leaves every other slot as it was. */
  lemma SpliceKeepsOtherSlots<T>(cells: seq<Option<T>>, frameLen: nat, frames: nat, i: nat, j: nat, data: seq<T>)
    requires |cells| == BufferLen(frameLen, frames)
    requires i < frames && j < frames && i != j && |data| <= frameLen
    ensures FrameOffset(i, frameLen) + |data| <= |cells|
    ensures FrameOffset(j, frameLen) + frameLen <= |cells|
    ensures var r := Splice(cells, FrameOffset(i, frameLen), data);
      r[FrameOffset(j, frameLen) .. FrameOffset(j, frameLen) + frameLen]
      == cells[FrameOffset(j, frameLen) .. FrameOffset(j, frameLen) + frameLen]
  {
    if i < j {
      SlotWritesDisjoint(i, j, frameLen, frames, |data|, frameLen);
    } else {
      SlotWritesDisjoint(j, i, frameLen, frames, frameLen, |data|);
    }
    SpliceOutside(cells, FrameOffset(i, frameLen), data, FrameOffset(j, frameLen), FrameOffset(j, frameLen) + frameLen);
  }

  /** A write longer than a slot, to slot 0, spills into slot 1. */
  lemma OversizedWriteSpills<T>(cells: seq<Option<T>>, frameLen: nat, data: seq<T>)
    requires |cells| == BufferLen(frameLen, 2) && frameLen < |data| <= |cells|
    ensures Splice(cells, FrameOffset(0, frameLen), data)[FrameOffset(1, frameLen)] == Some(data[frameLen])
  {
  }
}
