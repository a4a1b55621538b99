# Lighthouse Keeper: batched sprite renderer and game systems, modelled in Dafny

The project models two parts of the Lighthouse Keeper game:

- **The gfx-lib batch renderer.** The game emits render commands: a sprite or a quad tagged with a transparency, a layer, a shader program and a texture. Each frame the renderer does the following:
  - stable-sorts the commands by a 64-bit key packed from those four fields;
  - groups each run of equal keys into a render batch, creating and caching one batch per key;
  - builds each batch's mesh of quads (four vertices and six indices per command);
  - copies each mesh into the frame slot of a double-buffered GPU buffer;
  - records one indexed draw per batch, in key order.
- **The ECS systems and resources of the game that feed it.**
  - the `RenderState` command recorder;
  - keyboard input;
  - the clock of hours, Morning/Afternoon/Night and days;
  - the daily food use;
  - the message log;
  - the visiting merchant ship and its shop;
  - hover tracking of clickable entities.

Modules and their sources:

| module | file | source |
|---|---|---|
| `Types`, `Colors` | `types.dfy`, `colors.dfy` | integer widths, the panic reasons, `Vec2`, sprite regions and colours |
| `MeshBuilder` | `mesh.dfy` | `gfx-lib/src/mesh.rs`, a `class Mesh` whose methods extend its vertex and index sequences |
| `Commands` | `commands.dfy` | render commands, `gen_key`, the per-command vertices |
| `StableSort` | `sort.dfy` | the stable sort `process_commands` relies on, and the runs of equal keys in a sorted sequence |
| `GpuMemory` | `gpu_memory.dfy` | see below |
| `Batches` | `batches.dfy` | `RenderBatch` (a value: the renderer stores it by key in a map) and `create_render_batch` as a specification function |
| `BatchWalk`, `Frames` | `batch_walk.dfy`, `frames.dfy` | specifications of the `process_commands` and `render` loops, and what they achieve |
| `BatchRenderer` | `batch_renderer.dfy` | the `Renderer` class, with methods proved against those specifications |
| `Input`, `GameRender`, `Time`, `Stats`, `Log`, `Merchant`, `Clickable`, `GameEvents` | one file each | the game side |

`GpuMemory` covers:

- memory-type selection;
- buffer and image creation;
- the frame-slot layout of a buffer and `update_buffer`;
- the texture row pitch and the row-by-row staging copy.

## Model

| member | source | states |
|---|---|---|
| MeshBuilder.QuadIndices | gfx-lib/src/mesh.rs:78-85 | the six indices of a quad starting at vertex `n` stay within its four vertices, use all four, and form two triangles of distinct corners sharing the diagonal `n`, `n+2` |
| MeshBuilder.QuadList | gfx-lib/src/mesh.rs:78-85 | `q` quads carry six indices each |
| MeshBuilder.QuadListInRange | gfx-lib/src/mesh.rs:78-85 | every index of `q` quads points below the `4q` vertices they have |
| MeshBuilder.WellFormedIndicesInRange | gfx-lib/src/mesh.rs:78-85 | a mesh made of whole quads has 6 indices per 4 vertices and no index out of range |
| MeshBuilder.AppendQuadWellFormed | gfx-lib/src/mesh.rs:129-139 | appending a quad's vertices and offset indices keeps a mesh made of whole quads |
| MeshBuilder.QuadVertices | gfx-lib/src/mesh.rs:102-127 | the quad's vertices are its top-left, top-right, bottom-right and bottom-left corners, at z 0, in its colour, with UVs at the unit square's matching corners |
| MeshBuilder.SpriteVertices | gfx-lib/src/mesh.rs:40-76 | each corner sits at the position less pivot times scale, plus the corner times the scaled region size; its UV is the region's offset and size divided by the sheet size |
| MeshBuilder.SpriteUvExample | gfx-lib/src/mesh.rs:40-43 | an 8x8 region at (16,32) of a 128x128 sheet maps to UVs 0.125..0.1875 by 0.25..0.3125 |
| MeshBuilder.Mesh.constructor | gfx-lib/src/mesh.rs:11-14 | a new mesh is empty |
| MeshBuilder.Mesh.Clear | gfx-lib/src/mesh.rs:17-20 | clearing empties both vertices and indices |
| MeshBuilder.AddQuad | gfx-lib/src/mesh.rs:91-140 | the mesh grows by exactly the quad's four vertices and its six indices offset by the old vertex count, and a mesh of whole quads stays one |
| MeshBuilder.AddSprite | gfx-lib/src/mesh.rs:23-89 | the mesh grows by exactly the sprite's four vertices and its six indices offset by the old vertex count, and a mesh of whole quads stays one |
| Commands.Discriminant | gfx-lib/src/renderer.rs:81-84 | Opaque is discriminant 0 and Transparent 1 |
| Commands.GenKey | gfx-lib/src/renderer.rs:265-275 | a key's low 16 bits are zero |
| Commands.Key | gfx-lib/src/renderer.rs:127-134 | a command's key is a `GenKey` of its own four fields, so it fits in 64 bits |
| Commands.DecodeGenKey | gfx-lib/src/renderer.rs:265-275 | transparency, layer, program and texture each decode back from their bit field of the key |
| Commands.KeyInjective | gfx-lib/src/renderer.rs:265-275 | two keys are equal exactly when all four fields are |
| Commands.KeyOrder | gfx-lib/src/renderer.rs:265-275 | key order is lexicographic order on (transparency, layer, program, texture) |
| Commands.OpaqueBeforeTransparent | gfx-lib/src/renderer.rs:127-134 | every opaque command sorts before every transparent one |
| Commands.CommandVertices | gfx-lib/src/renderer.rs:225-257 | each command contributes four vertices |
| Commands.BatchVertices | gfx-lib/src/renderer.rs:225-257 | a batch of `n` commands has `4n` vertices |
| Commands.BatchVerticesSnoc | gfx-lib/src/renderer.rs:225-257 | one more command appends its four vertices at the end |
| Commands.BatchVerticesAt | gfx-lib/src/renderer.rs:225-257 | command `j`'s vertices occupy positions `4j .. 4j+4` of the batch's vertices |
| StableSort.Filter | gfx-lib/src/renderer.rs:791 | the elements with one key are no more than all elements |
| StableSort.FilterAppend | gfx-lib/src/renderer.rs:791 | selecting one key distributes over concatenation |
| StableSort.FilterSnoc | gfx-lib/src/renderer.rs:791 | one more element is selected exactly when it has the key |
| StableSort.FilterAbsent | gfx-lib/src/renderer.rs:791 | a key no element has selects nothing |
| StableSort.FilterAll | gfx-lib/src/renderer.rs:791 | a key every element has selects everything |
| StableSort.Insert | gfx-lib/src/renderer.rs:791 | insertion adds exactly the new element to the multiset |
| StableSort.InsertSorted | gfx-lib/src/renderer.rs:791 | insertion into a sorted sequence keeps it sorted |
| StableSort.InsertAbove | gfx-lib/src/renderer.rs:791 | a lower bound on every key, the new one included, bounds the result |
| StableSort.ConsSorted | gfx-lib/src/renderer.rs:791 | an element no greater than a sorted sequence may go in front of it |
| StableSort.SortBy | gfx-lib/src/renderer.rs:791 | the sort is a permutation |
| StableSort.SortSorted | gfx-lib/src/renderer.rs:791 | the sort's output is ordered by key |
| StableSort.InsertFilterFront | gfx-lib/src/renderer.rs:791 | an element put in front of larger keys comes after its equals in every key class |
| StableSort.InsertFilter | gfx-lib/src/renderer.rs:791 | insertion puts the new element after every element with an equal key |
| StableSort.InsertFilterBehind | gfx-lib/src/renderer.rs:791 | stability carries past a smaller head |
| StableSort.SortFilter | gfx-lib/src/renderer.rs:791 | stability: for every key, the sorted sequence lists that key's elements in their original order |
| StableSort.RunKeys | gfx-lib/src/renderer.rs:797-853 | there is at most one run per element, and the last run has the last element's key |
| StableSort.KeySetMembers | gfx-lib/src/renderer.rs:797-853 | a key is among the keys exactly when some element has it |
| StableSort.KeySetSortBy | gfx-lib/src/renderer.rs:791 | sorting keeps the set of keys |
| StableSort.RunKeysSnoc | gfx-lib/src/renderer.rs:822-853 | one more element opens a new run exactly when its key differs from the previous one |
| StableSort.RunKeysUpTo | gfx-lib/src/renderer.rs:797-853 | after `i` elements the last run is the `i`-th element's key |
| StableSort.RunKeysUpToStep | gfx-lib/src/renderer.rs:822-853 | the closed runs grow by the previous key exactly when the key changes |
| StableSort.RunKeysUpToPrefix | gfx-lib/src/renderer.rs:797-853 | the indexed runs equal the runs of the prefix |
| StableSort.KeySetSnoc | gfx-lib/src/renderer.rs:797-853 | one more element adds its key to the key set |
| StableSort.RunKeysCover | gfx-lib/src/renderer.rs:797-853 | the run keys are exactly the keys that occur |
| StableSort.RunKeysIncreasing | gfx-lib/src/renderer.rs:797-853 | on sorted input the run keys strictly increase, so no key is repeated |
| StableSort.RunStartFilter | gfx-lib/src/renderer.rs:822-843 | where a run starts in sorted input, its key has not occurred before |
| GpuMemory.SlotWritesDisjoint | gfx-lib/src/renderer.rs:1397-1420 | writes that fit their frame slots stay inside the buffer, and different slots never overlap |
| GpuMemory.FullBatchFitsSlot | gfx-lib/src/renderer.rs:69-71 | a batch of 4096 sprites exactly fills one vertex slot and one index slot, and one more sprite overflows it |
| GpuMemory.FrameOffset | gfx-lib/src/renderer.rs:1404-1405 | the byte offset of frame slot `frameIdx` is zero exactly for slot 0 or an empty slot size |
| GpuMemory.FindFrom | gfx-lib/src/renderer.rs:1298-1306 | the result is the first suitable memory type at or after `from`, or none exists there |
| GpuMemory.FindMemoryType | gfx-lib/src/renderer.rs:1298-1306 | some type is found exactly when one allowed by the mask has the wanted properties, and it is the first such |
| GpuMemory.CreateBuffer | gfx-lib/src/renderer.rs:1274-1324 | a zero length panics; otherwise the buffer fails exactly when no suitable type exists, and has the requested size in memory with the requested properties |
| GpuMemory.CreateImage | gfx-lib/src/renderer.rs:1422-1490 | an image is allocated exactly when a device-local type is allowed, and only in one |
| GpuMemory.MemoryTypeExample | gfx-lib/src/renderer.rs:1274-1324 | for a host-visible type 0 and a device-local type 1: a buffer takes 0, an image takes 1, and masking out 1 makes the image fail |
| GpuMemory.ClearLowBitsBounds | gfx-lib/src/renderer.rs:1099-1107 | masking off the low `e` bits is shift-right then shift-left and rounds down by less than `2^e` |
| GpuMemory.RowPitch | gfx-lib/src/renderer.rs:1099-1107 | the aligned row pitch is never shorter than a row of RGBA texels |
| GpuMemory.RowPitchBounds | gfx-lib/src/renderer.rs:1099-1107 | the row pitch is the least multiple of the alignment that holds a row of RGBA texels |
| GpuMemory.RowPitchExample | gfx-lib/src/renderer.rs:1099-1107 | a 100-texel row under 256-byte alignment takes 512 bytes, and alignment 1 adds nothing |
| GpuMemory.Unpad | gfx-lib/src/renderer.rs:1123-1131 | reading `h` rows back from the padded staging data yields `h` unpadded rows |
| GpuMemory.UnpadStaged | gfx-lib/src/renderer.rs:1123-1131 | rows staged at the pitch read back as the original pixel bytes |
| GpuMemory.StageNextRow | gfx-lib/src/renderer.rs:1123-1131 | copying row `y` to offset `y * pitch` keeps rows `0..y` and stages row `y` |
| GpuMemory.CopyBytes | gfx-lib/src/renderer.rs:1123-1131 | the destination range is overwritten with the source range and nothing else changes |
| GpuMemory.StageRows | gfx-lib/src/renderer.rs:1123-1131 | after the loop every row sits at its pitch offset and reads back as the pixels |
| GpuMemory.Splice | gfx-lib/src/renderer.rs:1397-1420 | the written range holds the data and every other cell is unchanged |
| GpuMemory.GpuBuffer.Update | gfx-lib/src/renderer.rs:1397-1420 | the write succeeds exactly when it stays inside the buffer; it puts the data at the frame slot's offset and leaves all other cells alone |
| GpuMemory.EmptyBuffer | gfx-lib/src/renderer.rs:1326-1374 | a fresh buffer of `frames` slots holds nothing |
| GpuMemory.CreateFrameBuffer | gfx-lib/src/renderer.rs:1326-1395 | creation panics on zero size, on a missing host-visible type, or on initial data larger than the buffer; otherwise the buffer starts with the data and nothing else |
| GpuMemory.UpdateEmpty | gfx-lib/src/renderer.rs:1397-1420 | writing nothing changes nothing |
| GpuMemory.SpliceOutside | gfx-lib/src/renderer.rs:1397-1420 | a write leaves every range it does not overlap intact |
| GpuMemory.SpliceKeepsOtherSlots | gfx-lib/src/renderer.rs:1019-1031 | a write that fits frame slot `i` leaves every other slot intact, so the frame still in flight keeps its data |
| GpuMemory.OversizedWriteSpills | gfx-lib/src/renderer.rs:1397-1420 | data longer than a slot, written to slot 0, reaches into slot 1 |
| Batches.RenderBatch.ProcessCommand | gfx-lib/src/renderer.rs:225-257 | only the mesh changes, by one quad: four vertices and six indices |
| Batches.RenderBatch.Key | gfx-lib/src/renderer.rs:182-190 | a batch's key carries its transparency in the top byte, so opaque batches sort before transparent ones |
| Batches.RenderBatch.TakeMesh | gfx-lib/src/renderer.rs:216-223 | returns the mesh as it was and leaves the batch empty |
| Batches.RenderBatch.Clear | gfx-lib/src/renderer.rs:259-263 | empties the mesh and keeps every other field |
| Batches.NewBatch | gfx-lib/src/renderer.rs:154-190 | a new batch has the key of its four fields and an empty mesh |
| Batches.ProcessCommandWellFormed | gfx-lib/src/renderer.rs:225-257 | processing keeps the mesh made of whole quads and extends the old mesh |
| Batches.HoldsAppended | gfx-lib/src/renderer.rs:225-257 | a batch holding the meshes of commands `cs` holds those of `cs + [c]` after processing `c` |
| Batches.ProcessCommandValid | gfx-lib/src/renderer.rs:225-257 | processing keeps a batch valid under its key |
| Batches.SameRunFields | gfx-lib/src/renderer.rs:822-829 | the field-by-field flush test is the same as comparing keys |
| Batches.BatchesValidInsert | gfx-lib/src/renderer.rs:711-716 | storing a valid batch keeps the batch map valid |
| Batches.ClearValid | gfx-lib/src/renderer.rs:634-638 | clearing keeps a batch valid |
| Batches.PoolsValidTake | gfx-lib/src/renderer.rs:654-660 | allocating a descriptor set from a pool with room keeps every pool within 512 |
| Batches.BatchBuffer | gfx-lib/src/renderer.rs:668-682 | a batch's vertex or index buffer fails exactly when no host-visible type is allowed, and otherwise is two empty frame slots |
| Batches.BatchDraw | gfx-lib/src/renderer.rs:988-1050 | drawing succeeds exactly when both meshes, written from the slot's offset, stay inside their whole buffers (a mesh larger than one slot spills into the next) and the program is known; on success it uploads to the slot's offset, records the program, set and offsets and an index count equal to the mesh's, and empties the batch |
| Batches.BatchDrawFits | gfx-lib/src/renderer.rs:988-1050 | a valid batch of at most 4096 sprites always draws, and leaves the other frame's slot intact |
| Batches.BatchDrawValid | gfx-lib/src/renderer.rs:988-1050 | drawing keeps a batch valid |
| Batches.SlotFits | gfx-lib/src/renderer.rs:1019-1031 | slot offsets for the frames in flight stay inside the buffer |
| Batches.TexInfoOf | gfx-lib/src/renderer.rs:684-688 | the texture's size when it is known, and 0 by 0 otherwise |
| Batches.CreateBatch | gfx-lib/src/renderer.rs:626-717 | on success the result is the fields' key, present in the map, and the pools stay valid |
| Batches.CreateBatchSpec | gfx-lib/src/renderer.rs:626-717 | an existing key is cleared and nothing is allocated; a new key panics exactly when the program is unknown, its pool is full or a buffer cannot be made, and otherwise gets a fresh empty batch and one descriptor set from its program's pool; other batches are untouched |
| BatchWalk.Walk | gfx-lib/src/renderer.rs:797-848 | on success the pools stay valid and the last command's batch exists |
| BatchWalk.Step | gfx-lib/src/renderer.rs:822-847 | on success the command's batch exists |
| BatchWalk.WalkNext | gfx-lib/src/renderer.rs:797-848 | the walk over `i+1` commands is the walk over `i` followed by one step, continuing the batch when the key repeats |
| BatchWalk.WalkUpTo | gfx-lib/src/renderer.rs:797-848 | the indexed walk keeps the pools valid and the `i`-th command's batch present |
| BatchWalk.WalkUpToPrefix | gfx-lib/src/renderer.rs:797-848 | the indexed walk is the walk over the prefix |
| BatchWalk.WalkPanicExtends | gfx-lib/src/renderer.rs:797-848 | once a prefix panics, the whole walk panics the same way |
| BatchWalk.OpenSameRun | gfx-lib/src/renderer.rs:822-829 | a repeated key continues the open batch |
| BatchWalk.OpenNewRun | gfx-lib/src/renderer.rs:833-843 | a new key's batch starts empty |
| BatchWalk.NewRunMeshes | gfx-lib/src/renderer.rs:833-843 | a fresh empty batch for an unseen key keeps every batch's mesh correct |
| BatchWalk.NewRunOthers | gfx-lib/src/renderer.rs:833-843 | other keys' batches are untouched |
| BatchWalk.AddToRun | gfx-lib/src/renderer.rs:845-847 | processing the command restores the walk invariant over one more command |
| BatchWalk.AddedMeshes | gfx-lib/src/renderer.rs:845-847 | every batch holds the meshes of its key's commands, in order, after the step |
| BatchWalk.AddedMesh | gfx-lib/src/renderer.rs:845-847 | one batch's mesh after the step holds its key's commands |
| BatchWalk.AddedOthers | gfx-lib/src/renderer.rs:845-847 | batches of keys not yet seen stay as before |
| BatchWalk.WalkHolds | gfx-lib/src/renderer.rs:797-848 | after a successful walk over sorted commands, each key's batch holds that key's commands in order and the others are unchanged |
| BatchWalk.StepSorted | gfx-lib/src/renderer.rs:822-847 | on sorted input one step keeps the walk invariant |
| BatchWalk.WalkLast | gfx-lib/src/renderer.rs:797-848 | a successful walk ends with a successful step |
| BatchWalk.StepHolds | gfx-lib/src/renderer.rs:822-847 | a step whose key is new or continues the run keeps the walk invariant |
| BatchWalk.WalkSucceeds | gfx-lib/src/renderer.rs:797-848 | with known programs and room in the pools, the walk cannot panic, and uses at most one set per command |
| BatchWalk.WalkedAll | gfx-lib/src/renderer.rs:791 | per-key contents are the same before and after the stable sort |
| BatchWalk.ProcessedMeshes | gfx-lib/src/renderer.rs:790-856 | after `process_commands`, each key's batch holds that key's commands in submission order |
| BatchWalk.ProcessedSucceeds | gfx-lib/src/renderer.rs:790-856 | with known programs and room in the pools, `process_commands` does not panic |
| Frames.FrameSlot | gfx-lib/src/renderer.rs:888 | the frame index is one of the frames in flight |
| Frames.SlotsAlternate | gfx-lib/src/renderer.rs:888 | consecutive frames use different slots, and every second frame reuses one |
| Frames.DrawIn | gfx-lib/src/renderer.rs:988-1050 | an unknown key panics; otherwise the outcome is the batch's draw, with only that batch replaced |
| Frames.DrawAll | gfx-lib/src/renderer.rs:946-948 | success draws one call per key, all keys exist, and the map keeps its keys and validity |
| Frames.DrawAllNext | gfx-lib/src/renderer.rs:946-948 | drawing `i+1` keys is drawing `i` and then the next |
| Frames.DrawAllPanicExtends | gfx-lib/src/renderer.rs:946-948 | once a prefix panics, the whole frame panics the same way |
| Frames.DrawAllDistinct | gfx-lib/src/renderer.rs:946-948 | distinct known keys whose meshes fit all draw, each from its batch's old mesh; they are left empty and the rest untouched |
| Frames.DrawAllSnoc | gfx-lib/src/renderer.rs:946-948 | the last key's draw is appended after the others |
| Frames.DrawStep | gfx-lib/src/renderer.rs:946-948 | one more drawn key keeps the frame invariant |
| Frames.DrawnLast | gfx-lib/src/renderer.rs:988-1050 | a fitting batch draws from its own mesh |
| Frames.DrawnOffsets | gfx-lib/src/renderer.rs:1019-1031 | the draw offsets are the frame index times the slot size |
| Frames.DrawAllUnknown | gfx-lib/src/renderer.rs:991 | drawing a key that has no batch panics |
| Frames.FrameDraws | gfx-lib/src/renderer.rs:858-986 | after `process_commands`, a frame draws every key with six indices per command of that key, and leaves every batch empty |
| BatchRenderer.UniformBuffer | gfx-lib/src/renderer.rs:1376-1395 | the uniform buffer fails exactly when no host-visible type is allowed, and otherwise holds the first UBO in slot 0 |
| BatchRenderer.TextureOf | gfx-lib/src/renderer.rs:1079-1237 | the texture is made exactly when the image type exists, the sizes fit in u32 and are non-zero, a staging type exists and the pixels are long enough; it then keeps the id, size and pixel bytes |
| BatchRenderer.Renderer.constructor | gfx-lib/src/renderer.rs:593-617 | a new renderer has no batches or textures, frame 0, empty descriptor pools for programs 0, 1 and 2, and the UBO in slot 0 |
| BatchRenderer.Renderer.CreateRenderBatch | gfx-lib/src/renderer.rs:626-717 | the method's result and new state are those of `CreateBatch`, and nothing else changes |
| BatchRenderer.Renderer.NewRenderBatch | gfx-lib/src/renderer.rs:641-716 | the new-key path gives the same result and state as `CreateBatch` |
| BatchRenderer.Renderer.ProcessCommands | gfx-lib/src/renderer.rs:790-856 | the result is the run keys of the stable-sorted commands, and the new state is the walk's, or its panic |
| BatchRenderer.Renderer.TakeStep | gfx-lib/src/renderer.rs:797-848 | one loop iteration extends the walk and the run keys by one command |
| BatchRenderer.Renderer.TakeCommand | gfx-lib/src/renderer.rs:822-847 | closes the open batch exactly when the key changes, then performs the step `Step` specifies |
| BatchRenderer.Renderer.DrawBatch | gfx-lib/src/renderer.rs:988-1050 | records the draw and updates the batch map as `DrawIn` says |
| BatchRenderer.Renderer.Render | gfx-lib/src/renderer.rs:858-986 | a failed acquire changes nothing; otherwise the frame's UBO slot is updated, the keys are drawn as `DrawAll` says, and the frame counter advances |
| BatchRenderer.Renderer.DrawBatches | gfx-lib/src/renderer.rs:946-948 | the loop records exactly `DrawAll`'s draws and batch map |
| BatchRenderer.Renderer.CreateGpuTexture | gfx-lib/src/renderer.rs:1079-1237 | stores the texture `TextureOf` makes under its id, or panics as it does |
| Input.Lookup | gfx-lib/src/input.rs:46-58 | a key is set exactly when present and true |
| Input.InputState.constructor | gfx-lib/src/input.rs:14-20 | all three key maps start empty |
| Input.InputState.IsKeyPressed | gfx-lib/src/input.rs:46-48 | true exactly when the key is marked pressed this tick |
| Input.InputState.IsKeyReleased | gfx-lib/src/input.rs:51-53 | true exactly when the key is marked released this tick |
| Input.InputState.IsKeyHeld | gfx-lib/src/input.rs:56-58 | true exactly when the key is down |
| Input.InputState.ClearPressedAndReleased | gfx-lib/src/input.rs:22-25 | the per-tick maps empty and the held keys stay |
| Input.InputState.HandleKeyboardInput | gfx-lib/src/input.rs:27-43 | no keycode panics with nothing changed; a press marks the key held, and pressed only when not already held; a release marks it released and no longer held |
| GameRender.CharByte | src/game/render.rs:74-97 | a character's byte is its code point modulo 256 |
| GameRender.GlyphRegion | src/game/render.rs:73-97 | the glyph's cell is column `byte % 16` and row `byte / 16` of the font sheet, one glyph in size and inside the sheet |
| GameRender.Glyph | src/game/render.rs:74-97 | one character's request is a sprite whose region is one glyph in size and lies inside the 16-by-16 font sheet |
| GameRender.CellBounds | src/game/render.rs:73-97 | every column's cell lies inside a 16-column sheet |
| GameRender.Glyphs | src/game/render.rs:72-98 | a text issues one command per character |
| GameRender.GlyphsAt | src/game/render.rs:74-97 | the `i`-th command draws the `i`-th character |
| GameRender.GlyphsPlaced | src/game/render.rs:74-97 | the `i`-th glyph uses the bound state and the sprite program, sits `i` scaled widths right of the start, and shows the character's cell |
| GameRender.GlyphsAppend | src/game/render.rs:72-98 | one more character appends one glyph |
| GameRender.RenderState.constructor | src/game/render.rs:26-30 | no commands; opaque, texture 0, layer 0, white |
| GameRender.RenderState.BindTransparency | src/game/render.rs:32-34 | sets only the bound transparency |
| GameRender.RenderState.BindTexture | src/game/render.rs:36-38 | sets only the bound texture |
| GameRender.RenderState.BindLayer | src/game/render.rs:40-42 | sets only the bound layer |
| GameRender.RenderState.BindColor | src/game/render.rs:44-46 | sets only the bound colour |
| GameRender.RenderState.Sprite | src/game/render.rs:48-70 | appends exactly one sprite command with the bound state |
| GameRender.RenderState.TexturedQuad | src/game/render.rs:100-120 | appends exactly one quad command with the bound state |
| GameRender.RenderState.Text | src/game/render.rs:72-98 | appends exactly the text's glyph commands |
| GameRender.RenderState.ClearCommands | src/game/render.rs:122-128 | empties the commands and resets the bindings to their defaults |
| GameRender.RenderState.Commands | src/game/render.rs:130-132 | returns the recorded commands |
| GameEvents.Progress | src/game/time.rs:12-20 | the time of day always moves on |
| GameEvents.ProgressCycle | src/game/time.rs:12-20 | three steps return to the start, and one or two do not |
| GameEvents.ProgressInjective | src/game/time.rs:12-20 | progress is one-to-one |
| GameEvents.Name | src/game/time.rs:23-34 | every time of day has a non-empty name |
| GameEvents.NameInjective | src/game/time.rs:23-34 | different times of day show different names |
| Time.Tick | src/game/time.rs:75-89 | one event moves the day on by at most one and the time of day by at most one step |
| Time.Replay | src/game/time.rs:73-91 | over any events the day never falls and rises by at most one per event |
| Time.TickSpec | src/game/time.rs:73-91 | one ProgressTime adds an hour, or at the fourth resets to 0 and moves the time of day on, adding a day exactly when Night turns to Morning; other events change nothing |
| Time.ReplayInRange | src/game/time.rs:73-91 | the hour count stays within 0..4 and the day never decreases, nor rises by more than one per event |
| Time.ReplayAppend | src/game/time.rs:73-91 | two batches of events act like their concatenation |
| Time.ReplayOthers | src/game/time.rs:73-91 | events other than ProgressTime leave the clock alone |
| Time.Period | src/game/time.rs:73-91 | four hours from a period's start move to the next period |
| Time.FullDay | src/game/time.rs:73-91 | twelve hours come back to the same time of day on the next day |
| Time.TimeState.constructor | src/game/time.rs:43-49 | day 1, Morning, hour count 4 |
| Time.RunTimeSystem | src/game/time.rs:73-91 | the clock ends as the replay of the events says |
| Time.HoursBarRegion | src/game/time.rs:119-150 | hour counts 0 to 3 show segments 0 to 3 of the bar, and anything else the full bar |
| Time.NewGameFirstHour | src/game/time.rs:43-49 | a new game shows the full bar, and its first hour already ends Morning |
| Stats.NewDays | src/game/stats.rs:54-66 | at most one new day per event |
| Stats.NewDaysAppend | src/game/stats.rs:54-66 | new days add up over consecutive batches of events |
| Stats.NewDaysExtremes | src/game/stats.rs:54-66 | no NewDayStarted means none counted, and all NewDayStarted means all counted |
| Stats.StatsState.constructor | src/game/stats.rs:16-23 | sanity 10, food 15, gas 10, parts 5 |
| Stats.RunStatsSystem | src/game/stats.rs:47-67 | food drops by one per new day, and nothing else changes |
| Log.InsertSpec | src/game/log.rs:41-47 | the event goes first, the log never exceeds 20, and the older entries follow in order, less the oldest when full |
| Log.Reverse | src/game/log.rs:41-47 | reversing keeps the length |
| Log.Take | src/game/log.rs:41-47 | a prefix is as long as the limit or the whole |
| Log.Insert | src/game/log.rs:41-47 | the new event is first, and a log of at most 20 entries stays within 20 |
| Log.Logged | src/game/log.rs:41-47 | after any events the newest, the last one read, is at the front |
| Log.LoggedClosedForm | src/game/log.rs:41-47 | after events e1..ek the log reads ek..e1 and then the old entries, cut to 20 |
| Log.LoggedBounded | src/game/log.rs:41-47 | the log never exceeds 20 entries |
| Log.Lerp | src/game/mod.rs:126-129 | fractions at or below 0 give the start, and at or above 1 the end |
| Log.ColorLerp | src/game/mod.rs:131-139 | fractions at or below 0 give the start colour, and at or above 1 the end colour |
| Log.Faded | src/game/log.rs:49-60 | the newest entry keeps its colour, and entries 32 or more back are white |
| Log.LerpShortOfEnd | src/game/mod.rs:126-129 | a fraction below 1 never reaches the end value of a lerp that starts elsewhere |
| Log.FadedShortOfWhite | src/game/log.rs:50-59 | within the 20 entries the log holds, an entry whose colour is not white is never drawn white |
| Log.Line | src/game/log.rs:50-59 | an entry's line is one glyph per character of its message |
| Log.Lines | src/game/log.rs:49-60 | one glyph per character of every entry |
| Log.LinesAt | src/game/log.rs:49-60 | entry `i`'s line occupies the stretch after the glyphs of entries `0..i` |
| Log.TextLengthMonotone | src/game/log.rs:49-60 | the characters of fewer entries are no more |
| Log.LogState.constructor | src/game/log.rs:14-16 | the log starts empty |
| Log.RunLogSystem | src/game/log.rs:40-61 | the log becomes the insertion of the events, then is drawn line by line on the UI layer with the font texture |
| Log.DrawLog | src/game/log.rs:49-60 | appends exactly each entry's line, in order, with the bindings it leaves |
| Log.DrawLine | src/game/log.rs:50-59 | one iteration appends entry `i`'s line in its faded colour |
| Merchant.TickSpec | src/game/merchant.rs:59-84 | an arrival puts the ship in port with the next arrival 4 to 6 days on; a Night departure clears it and draws prices in range; each logs one message, and other events change nothing |
| Merchant.Tick | src/game/merchant.rs:59-84 | prices change only on a departure, the next arrival day only on an arrival, and the in-port flag only on one of the two |
| Merchant.TickLog | src/game/merchant.rs:61-80 | at most one message per event, and one exactly on an arrival or a departure |
| Merchant.Replay | src/game/merchant.rs:59-84 | events other than a new day or a new time of day leave the merchant unchanged |
| Merchant.ReplayLog | src/game/merchant.rs:59-84 | at most one message per event read |
| Merchant.ReplayInvariant | src/game/merchant.rs:59-84 | prices stay in range over any events, with at most one message per event |
| Merchant.Chosen | src/game/merchant.rs:151-184 | an item is chosen exactly when one of the keys 1 to 3 is pressed |
| Merchant.Purchase | src/game/merchant.rs:151-184 | without a purchase the goods are unchanged, and an attempt writes at most one message |
| Merchant.PurchaseSpec | src/game/merchant.rs:151-184 | the first pressed key's item is bought exactly when money covers its price; the money drops by the price and that stock rises by one, or else nothing changes and "not enough money" is logged |
| Merchant.PurchaseSolvent | src/game/merchant.rs:151-184 | money never goes negative |
| Merchant.MerchantState.constructor | src/game/merchant.rs:20-30 | not in port, arrival 4 to 6 days out, prices 2, 3 and 4 |
| Merchant.RunMerchantSystem | src/game/merchant.rs:58-186 | the ship follows the replay of the events; after game over or with no ship in port nothing is sold; otherwise the purchase happens, and a RefreshActivities event is emitted on a sale |
| Merchant.ReadEvent | src/game/merchant.rs:60-83 | one event updates the ship and logs as `Tick` and `TickLog` say |
| Merchant.SellOne | src/game/merchant.rs:151-184 | the sale is the purchase rule applied to keys 1 to 3 |
| Clickable.NextSpec | src/game/clickable.rs:54-72 | Clicked is never entered or left; any other state becomes Hovered when hit and Normal when not; repeating a tick changes nothing |
| Clickable.Next | src/game/clickable.rs:54-72 | a hit component is never left Normal, and a missed one never left Hovered |
| Clickable.ClickableComponent.constructor | src/game/clickable.rs:18-22 | a component starts Normal |
| Clickable.RunClickableSystem | src/game/clickable.rs:40-73 | each component moves by the hover rule on whether its own entity is in the hit list |

## Left out

- GPU and window plumbing is not modelled:
  - instance, device and swapchain creation;
  - fences and semaphores;
  - command-buffer recording, submit and present;
  - swapchain rebuild;
  - descriptor writes, pipelines and `Drop`.
- The renderer keeps a list of recorded draw calls as the observable effect of `draw_indexed`.
- Frame acquisition is a boolean parameter of `Render`.
- The projection matrix is a parameter.
- Floating point is modelled by reals.
  - Sprite UVs divide by the sheet size, and a zero-size sheet gives 0 in the model where IEEE arithmetic gives infinity or NaN.
- `BatchRenderer.Renderer.Render`: the uniform buffer's content is a value handed in; the view, model and projection arithmetic is not modelled.
- `unwrap`s and `assert`s on data the caller controls are `Panic` results, not aborts:
  - an unknown batch key;
  - a missing keycode;
  - no suitable memory type;
  - a zero-sized buffer;
  - an unknown shader program;
  - a full descriptor pool;
  - a u32 overflow in the texture sizes;
  - a pixel slice that is too short.
- `GpuMemory.GpuBuffer.Update`: a write that runs past the end of the buffer is modelled as `Panic(MappingOutOfRange)`, although `update_buffer` does not check the range. The source maps the segment and copies with `copy_nonoverlapping`, and what happens out of range depends on the graphics backend.
  - The model also takes the buffer's size to be exactly the requested length; the source allocates the driver's `mem_requirements.size`, which can be larger.
  - `Batches.BatchDraw` inherits this boundary.
- `MeshBuilder.AddQuad`, `MeshBuilder.AddSprite`: do not model the `as u32` truncation of the vertex count or the `u32` overflow of its offset indices (up to `n + 3`); indices are unbounded naturals. The truncation only matters at 2^32 vertices or more, far above the 16384 a batch can upload.
- `Time.RunTimeSystem`, `Stats.RunStatsSystem`, `Merchant.RunMerchantSystem`: do not model i32 wrap-around of the day, food, money and arrival-day counters. The game never comes near it.
- `GameRender.RenderState.Text`: does not model u32 wrap-around of `column * w`; glyph positions are computed in unbounded integers.
- Randomness is an input:
  - the merchant's arrival day and prices are drawn from a `Roll` per event;
  - its constructor takes the first arrival day, in 4..6.
- `merchant.rs` reads and changes money, food, gas and parts through a `Stats` interface that is not part of this model. `Stat::Money`, `stat`, `add` and `condition` are not defined in `stats.rs`.
  - The model takes the goods as a value and returns the new goods.
  - It takes the game-over condition as a boolean.
  - The colour `COLOR_YELLOW` is not defined in `color.rs`, so it is taken as (1, 1, 0, 1).
- The merchant's, time panel's and stats panel's own drawing is not modelled:
  - the merchant window and shop text;
  - the time panel's sprites and text, except the hours-bar region;
  - `StatsInfoRenderSystem`;
  - `SpriteRenderSystem`.
- `Log.RunLogSystem`: the font texture id (`TEX_FONT`, from `resources.rs`) is a parameter, because resources.rs is not part of this model.
  - `log.rs` is not declared as a module in `src/game/mod.rs`; it is modelled as written.
- Event payloads:
  - `time.rs` and `stats.rs` match `ProgressTime` and `NewDayStarted` without naming their payloads; the model ignores the payload.
  - The `StatEffect` list carried by `HandleStatEffects` is dropped.
- `Clickable.RunClickableSystem`: the set of entities under the mouse is an input.
  - The physics-world query and its `unwrap`s are not modelled.
  - The `println!` calls are not modelled.
- `Input.InputState.HandleKeyboardInput`: winit's event dispatch is outside the model; each keyboard event is handed to the method.
