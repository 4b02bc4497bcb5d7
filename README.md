# Effect Engine core, modelled in Dafny

Effect Engine is a 2D game engine written in Rust on top of wgpu and winit.
This project models the engine's core bookkeeping, which decides where
textures go, what gets written into GPU buffers and how input reaches the
camera:

- **The texture atlas packer** (`TextureAtlas2D::new`). It places every
  texture of a layer in one atlas image of at most 8192 × 8192 texels.
  It gives each texture its `[column, row]` cell and the cell size, and
  it computes the atlas size. It refuses to build when the grid is too
  small, an image cannot be opened, or an image does not fit at its
  offset.
- **The texture record** (`WebTexture2D`) and the sampler and upload
  layout chosen for an atlas texture.
- **The texture-array validation pass** (`TextureArray::new`), whose
  construction is still unfinished (`todo!()`).
- **The buffer allocator** (`BufferAllocator`, `Buffer`) of the wgpu
  backend.
- **The draw layer** (`Layer2D`): its texture table and its vertex, index
  and per-entity buffers.
- **The two entity types** (`WebEntity2D` of the wgpu backend and
  `Entity2D` of the core crate). They are identical apart from their
  layer type. Both are bound to a texture of a layer.
- **The two input contexts** (`Context2D`, `EffectEvent`). Each keeps
  the sets of pressed and released keys and mouse buttons, plus the
  cursor fields of `EffectEvent`.
- **The camera's key bindings and active-action set**, driven from
  either context.
- **The window configuration record** (`WindowInfo`).

How the Rust constructs map to Dafny:

- Pure Rust code is modelled as functions.
- Code that mutates is modelled as classes whose methods are proved
  against those functions:
  - a texture whose `set_index`/`set_dimensions` update it in place;
  - a buffer whose `write` updates its size and capacity;
  - a layer whose buffers are recreated or overwritten;
  - a camera whose maps and sets are updated in loops.
- Rust's `Result` together with a panic becomes
  `Outcome = Ok | Err | Panic`. Every `unwrap`, `expect`, division by
  zero and `todo!()` of the modelled code is a `Panic` with its message.
- GPU buffers are values (`Gpu.DeviceBuffer`): contents, usage flags,
  and a flag recording a refused write. A `queue.write_buffer` follows
  the validation rule of the WebGPU specification (section "writeBuffer"
  of `GPUQueue`): the buffer must have `COPY_DST` usage and the data must
  fit in it. Otherwise nothing is copied and a validation error is
  raised.
- Images are reduced to what opening the file yields: the native size,
  or the decoder's error.

Source paths below are relative to the repository root.

## Model

| member | source | states |
|---|---|---|
| Atlas.New | effect-core/src/texture/texture_atlas2d.rs:22-109 | The result is exactly `Pack`, checked in the source's order. A zero cell side panics with a division by zero. `NotEnoughSpace` when width_count·height_count < n. The first image that cannot be opened gives its error. A zero width_count panics in the `%`. `TextureTooSmall` when any image lies outside the atlas at its offset. Otherwise the atlas gets the computed size, the sampler and the upload layout. Every texture the loop reached gets the cell size and its cell; the others are unchanged. |
| Atlas.PlaceTextures | effect-core/src/texture/texture_atlas2d.rs:36-69 | The loop stops at the first image that cannot be opened. The counters and recorded offsets are those of `Walk`. Every processed texture has the cell size and the `Walk` cell; later textures are untouched. |
| Atlas.PlaceOne | effect-core/src/texture/texture_atlas2d.rs:50-68 | One pass for an opened image gives the texture the cell size and the cell of one loop step. It advances the counters and records the offset as that step does. |
| Atlas.Composite | effect-core/src/texture/texture_atlas2d.rs:79-85 | The compositing loop succeeds exactly when every image lies inside the atlas at its recorded offset. |
| Atlas.FirstUndecodable | effect-core/src/texture/texture_atlas2d.rs:42-43 | The index of the first image that fails to open, or n: every earlier image opened and the one at the index did not. |
| Atlas.RowBreakIffPastWidthCount | effect-core/src/texture/texture_atlas2d.rs:52-58 | Texture k starts a new row exactly when k ≥ width_count. |
| Atlas.ClosedStep | effect-core/src/texture/texture_atlas2d.rs:52-68 | One loop step takes the closed-form counters for k textures to those for k + 1. It places texture k at its closed-form cell and offset. |
| Atlas.WalkCursorClosedForm | effect-core/src/texture/texture_atlas2d.rs:52-68 | After n textures the width counter is n·w. The row counter is the number of textures past width_count, and the height counter is h times that. |
| Atlas.WalkClosedForm | effect-core/src/texture/texture_atlas2d.rs:52-68 | Closed form of the loop. Textures before width_count fill row 0 at (k·w, 0). Every later texture gets column 0 and a row of its own, at x = k·w and at the height of the previous row. The final counters are n·w, h·(rows started), the rows started, and the column. |
| Atlas.SingleRow | effect-core/src/texture/texture_atlas2d.rs:52-77 | With fewer textures than width_count, texture k is cell [k, 0] at (k·w, 0) and the atlas is n·w × h. |
| Atlas.ExtentWidthBound | effect-core/src/texture/texture_atlas2d.rs:71-77 | The total width never exceeds 8192. |
| Atlas.CapacityCheck | effect-core/src/texture/texture_atlas2d.rs:30-34 | The result is `NotEnoughSpace` if and only if (8192 / w)·(8192 / h) < n. |
| Atlas.CursorWithin | effect-core/src/texture/texture_atlas2d.rs:52-68 | Before texture k of n, the width counter plus w is at most n·w, and the height counter plus h is at most n·h. |
| Atlas.CellsSpanAtMost | effect-core/src/texture/texture_atlas2d.rs:30-34 | Past the size check, n·w and n·h are at most 8192·8192. |
| Atlas.NoU32Overflow | effect-core/src/texture/texture_atlas2d.rs:52-71 | Past the size check, no `u32` addition of the loop and no part of the total height leaves the 32-bit range. |
| Atlas.OneMisfitRejects | effect-core/src/texture/texture_atlas2d.rs:78-85 | One image outside the atlas at its offset makes the whole build fail with `TextureTooSmall`. |
| Atlas.SecondBreakPastLimit | effect-core/src/texture/texture_atlas2d.rs:52-64 | Because the width counter is never reset, texture width_count + 1 is placed at an x offset beyond 8192. |
| Atlas.SecondRowNeverComposites | effect-core/src/texture/texture_atlas2d.rs:52-85 | Any build with at least width_count + 2 openable textures, within capacity, fails with `TextureTooSmall`. |
| Atlas.PackOk | effect-core/src/texture/texture_atlas2d.rs:30-100 | A successful build had non-zero cell sides, a non-zero width_count and passed the size check. It reports the size computed from the loop's final counters. |
| Atlas.ExtentHeightBound | effect-core/src/texture/texture_atlas2d.rs:71 | With at most one row break and the size check passed, the total height is at most 8192. |
| Atlas.AtlasWithinLimits | effect-core/src/texture/texture_atlas2d.rs:71-77 | A successful build of at least one texture is at most 8192 × 8192. |
| Atlas.GridPlacementFits | effect-core/src/texture/texture_atlas2d.rs:52-68 | Corrected placement: texture k goes to cell (k mod width_count, k div width_count). Every cell lies inside the grid extent, and that extent lies inside 8192 × 8192. |
| Atlas.GridPlacementsDisjoint | effect-core/src/texture/texture_atlas2d.rs:59-62 | Corrected placement: distinct textures get distinct cells and non-overlapping rectangles. |
| Atlas.ThreeHalfWidthTilesRejected | effect-core/src/texture/texture_atlas2d.rs:52-85 | Three 4096² textures in 4096² cells: capacity 4. As written, texture 2 is cell [0, 1] at (8192, 0) and the build fails. The grid puts it at (0, 4096) in an 8192 × 8192 atlas. |
| Texture.WebTexture2D.constructor | effect-wgpu/src/texture/texture2d.rs:15-23 | The given id and path, width and height 0, no index. |
| Texture.WebTexture2D.SetIndex | effect-wgpu/src/texture/texture2d.rs:48-50 | The index becomes the cell; the size is unchanged. |
| Texture.WebTexture2D.SetDimensions | effect-wgpu/src/texture/texture2d.rs:52-55 | Width and height are replaced; the index is unchanged. |
| Texture.SamplerFor | effect-wgpu/src/texture/texture2d.rs:93-107 | Magnification is nearest if and only if pixel art, otherwise linear. Minification and mipmaps are nearest. All address modes clamp to edge. |
| Texture.UploadLayout | effect-wgpu/src/texture/texture2d.rs:84-88 | Offset 0, rows per image equal to the height, and bytes per row equal to 4·width, which stays within `u32`. |
| TextureArray.CheckFrom | effect-wgpu/src/texture/texture_array.rs:38-53 | Never `Ok`. A size mismatch names the first failing index: every earlier texture passes, and at that index the file opened but the recorded size differs. |
| TextureArray.New | effect-wgpu/src/texture/texture_array.rs:24-54 | Never `Ok`: the construction after the checks is `todo!()`. |
| TextureArray.CheckFromFirstFailure | effect-wgpu/src/texture/texture_array.rs:38-53 | The loop's outcome is decided by the first failing index. An open error there is propagated, and a size mismatch is reported with the decoded size and the index. With no failing index the loop reaches the panic. |
| TextureArray.FirstFailureDecides | effect-wgpu/src/texture/texture_array.rs:29-53 | More than 256 textures is an error, before any file is opened. Otherwise the first failing index decides the outcome as above. |
| TextureArray.PanicsIffAllPass | effect-wgpu/src/texture/texture_array.rs:29-53 | `new` reaches the unfinished construction if and only if there are at most 256 textures and every one opens and has the requested recorded size. |
| TextureArray.FirstFailing | effect-wgpu/src/texture/texture_array.rs:38-40 | The first index from i on whose texture fails to open or has another recorded size. |
| Gpu.WriteAt0 | effect-wgpu/src/allocator/mod.rs:124 | An accepted write replaces the first elements, as many as the data holds, and keeps the rest. A refused write (no `COPY_DST`, or data longer than the buffer) keeps the contents and records a validation error. |
| Allocator.Default | effect-wgpu/src/allocator/mod.rs:12-31 | Usage VERTEX and COPY_DST, not mapped, 5096 bytes, no label, no data. |
| Allocator.WithUsage | effect-wgpu/src/allocator/mod.rs:34-37 | Sets the usage; every other field is kept. |
| Allocator.WithMappedAtCreation | effect-wgpu/src/allocator/mod.rs:39-42 | Sets the mapping flag; every other field is kept. |
| Allocator.WithSize | effect-wgpu/src/allocator/mod.rs:45-48 | Sets the size; every other field is kept. |
| Allocator.WithLabel | effect-wgpu/src/allocator/mod.rs:50-53 | Sets the label; every other field is kept. |
| Allocator.WithData | effect-wgpu/src/allocator/mod.rs:55-58 | Sets the data; every other field is kept. |
| Allocator.AllocateBuffer | effect-wgpu/src/allocator/mod.rs:61-75 | With data: a buffer holding exactly the data, whatever the configured size. Without data: a zeroed buffer of the configured size. The usage is the configured one. |
| Allocator.Allocate | effect-wgpu/src/allocator/mod.rs:77-86 | A fresh `Buffer`: size is the data length (0 without data), capacity is the configured size, usage is the configured one. |
| Allocator.AllocatedBackedIff | effect-wgpu/src/allocator/mod.rs:77-86 | A fresh buffer really holds `capacity` writable bytes if and only if its usage has COPY_DST and any data has exactly the configured length. Data longer than the configured size gives size > capacity. |
| Allocator.Buffer.constructor | effect-wgpu/src/allocator/mod.rs:97-109 | Stores the four fields. |
| Allocator.Written | effect-wgpu/src/allocator/mod.rs:112-127 | As written: afterwards size = the data length ≤ capacity, and capacity never shrinks. It changes if and only if the data exceeds it, and then becomes twice the data length while the stored buffer stays as it was. Otherwise the data is written into the stored buffer. |
| Allocator.Buffer.Write | effect-wgpu/src/allocator/mod.rs:112-127 | The new state is `Written` of the old state. |
| Allocator.Buffer.Slice | effect-wgpu/src/allocator/mod.rs:129-131 | The first `size` bytes of the stored buffer, when `size` is positive and within its end. Otherwise nothing: an empty slice (a buffer allocated without data) or one past the end. |
| Allocator.GrowthLosesData | effect-wgpu/src/allocator/mod.rs:112-131 | Default buffer, then a 5097-byte write: capacity 10194 and size 5097, but the stored buffer still holds the 5096 zero bytes, so there is no slice to give. A later 6000-byte write is refused. |
| Allocator.WrittenStored | effect-wgpu/src/allocator/mod.rs:112-127 | Corrected write (the grown buffer is kept): size = the data length ≤ capacity, and capacity never shrinks. |
| Allocator.Buffer.WriteStored | effect-wgpu/src/allocator/mod.rs:112-127 | The new state is `WrittenStored` of the old state. |
| Allocator.WrittenStoredShowsData | effect-wgpu/src/allocator/mod.rs:112-131 | With the correction, a buffer that really holds its capacity still does after any write. Exactly the written bytes are visible (nothing after an empty write), and no new validation error is raised. |
| Layer.IndexCountIsLength | src/engine/layer/layer.rs:205 | The fold over the entities counts exactly the indices the index buffer is built from. |
| Layer.Raws | src/engine/layer/layer.rs:57-63 | One raw record per entity, in order. |
| Layer.Layer2D.constructor | src/engine/layer/layer.rs:30-51 | The table holds just the given texture, there are no buffers, and both counts are 0. |
| Layer.Layer2D.AddTexture | src/engine/layer/layer.rs:103-120 | The texture is recorded if and only if the atlas accepted it. The atlas's error is passed on unchanged, and the buffers are untouched. |
| Layer.Layer2D.CreateEntityBuffer | src/engine/layer/layer.rs:53-67 | The entity buffer becomes a VERTEX-only buffer of the raw records. |
| Layer.Layer2D.CreateIndexBuffer | src/engine/layer/layer.rs:69-84 | The index buffer becomes a VERTEX-only buffer of the indices. |
| Layer.Layer2D.CreateVertexBuffer | src/engine/layer/layer.rs:86-101 | The vertex buffer becomes a VERTEX-only buffer of the vertices. |
| Layer.Layer2D.SetEntityBuffer | src/engine/layer/layer.rs:209-239 | Always `Ok`. A missing buffer, or one asked to be recreated, is created. Otherwise the records are written in place. |
| Layer.Layer2D.SetVertexBuffers | src/engine/layer/layer.rs:148-207 | Always `Ok`. The new buffers and counts are `Reconciled` of the old ones; the texture table is unchanged. |
| Layer.ReconciledCounts | src/engine/layer/layer.rs:148-207 | Afterwards all three buffers exist, the entity count is the number of entities, and the index count is their number of indices. |
| Layer.IndexBufferNeverRegrows | src/engine/layer/layer.rs:177-199 | As written, an existing index buffer keeps its length forever, and a growing entity count leaves it untouched. |
| Layer.RewriteRefused | src/engine/layer/layer.rs:53-101 | Every buffer keeps VERTEX-only usage. Any call that does not grow the entity count has all three in-place writes refused. |
| Layer.QuadLengths | src/engine/layer/layer.rs:200-202 | For quads, the layer has 4 vertices and 6 indices per entity. |
| Layer.StaleIndexBuffer | src/engine/layer/layer.rs:177-181 | One quad, then two: the index buffer still holds 6 indices while the index count is 12. The vertex buffer holds all 8 vertices. |
| Layer.SecondCallRefused | src/engine/layer/layer.rs:154-171 | The same single entity twice: the second call's vertex write is refused. |
| Layer.ReconciledFixedKeepsSized | src/engine/layer/layer.rs:148-207 | Corrected version (recreate the index buffer; COPY_DST and INDEX usage). On quads every call keeps the buffers large enough and raises no validation error. Each buffer then starts with exactly the current vertices, indices and records. |
| EntityBinding.CellForNew | effect-wgpu/src/entity/entity2d.rs:41-42 | Succeeds if and only if the texture is in the layer and has a cell, and then gives that cell. A missing texture panics on `unwrap`; one without a cell panics with "Tex not in given layer". |
| EntityBinding.CellForSetTexture | effect-wgpu/src/entity/entity2d.rs:82-85 | Succeeds under the same condition with the same cell. A missing texture is the error "Texture is not in given layer"; one without a cell panics on `unwrap`. |
| EntityBinding.LookupsAgree | effect-wgpu/src/entity/entity2d.rs:40-90 | `new` and `set_texture` accept the same textures and find the same cell; they differ only in how they fail. |
| EntityBinding.ToRaw | effect-wgpu/src/entity/entity2d.rs:55-61 | The raw record carries the cell's column and row converted to reals, the cell size and the transform. |
| EntityBinding.ToRawInjective | effect-wgpu/src/entity/entity2d.rs:55-61 | Distinct cells whose column and row are below 2^24 give distinct raw records. |
| WebEntity.New | effect-wgpu/src/entity/entity2d.rs:40-53 | A fresh entity exactly when the lookup succeeds; otherwise the lookup's panic. The entity holds the layer id, the texture, its cell, the layer's cell size and a transform at `position`. |
| WebEntity.WebEntity2D.SetTexture | effect-wgpu/src/entity/entity2d.rs:77-90 | An error or panic leaves the entity unchanged. Success (if and only if the texture is in the layer with a cell) replaces cell, cell size, layer and texture and keeps the transform. |
| WebEntity.WebEntity2D.constructor | effect-wgpu/src/entity/entity2d.rs:46-52 | Stores the five fields. |
| CoreEntity.New | effect-core/src/entity/entity.rs:42-55 | As `WebEntity.New`, for the core crate's entity. |
| CoreEntity.Entity2D.SetTexture | effect-core/src/entity/entity.rs:79-88 | As `WebEntity.WebEntity2D.SetTexture`. |
| CoreEntity.Entity2D.constructor | effect-core/src/entity/entity.rs:48-54 | Stores the five fields. |
| InputEvents.Press | effect-events/src/input/mod.rs:72-74 | The element becomes pressed; nothing else changes. |
| InputEvents.Release | effect-events/src/input/mod.rs:75-82 | The element stops being pressed. It is released afterwards if and only if it was pressed or already released. Releasing an element that was not pressed changes nothing. |
| InputEvents.ApplyKeepsSeen | effect-events/src/input/mod.rs:71-94 | A press or release never loses an element from pressed ∪ released, and adds at most the event's element. |
| Context.Context2D.constructor | src/event/input/context.rs:18-29 | All four sets are empty. |
| Context.Context2D.Update | src/event/input/context.rs:50-89 | The new state is `Step` of the old one: keyboard and mouse-button input follow press/release, and every other event is ignored. |
| Context.Context2D.ClearReleased | src/event/input/context.rs:91-94 | Empties both released sets and keeps the pressed sets. |
| Context.KeysSeenWerePressed | src/event/input/context.rs:57-68 | From the initial state, every held or released key was pressed by some event. |
| Context.NonInputEventsIgnored | src/event/input/context.rs:85-88 | Events other than key and mouse-button input leave the context as it was. |
| Context.OtherKeysIndependent | src/event/input/context.rs:57-68 | Events about other keys change neither whether a key is held nor whether it is released. |
| Context.PressThenRelease | src/event/input/context.rs:57-68 | A key pressed then released, followed only by events about other keys, ends up released and not held. |
| Context.RunAppend | src/event/input/context.rs:50-89 | Handling two batches of events in turn is handling them together. |
| EffectInput.EffectEvent.constructor | effect-events/src/input/mod.rs:22-39 | Empty sets, cursor outside the window, position and travel at (0, 0). |
| EffectInput.EffectEvent.Update | effect-events/src/input/mod.rs:68-114 | The new state is `Step` of the old one. Cursor moves replace the position, enter/leave set the flag, and mouse motion replaces the travel. |
| EffectInput.EffectEvent.ClearReleased | effect-events/src/input/mod.rs:116-119 | Empties both released sets; every other field is kept. |
| EffectInput.ButtonsAgreeWithContext | effect-events/src/input/mod.rs:68-94 | On keys and mouse buttons this context evolves exactly like `Context2D`, whatever cursor and motion events are mixed in. |
| EffectInput.LastMotionWins | effect-events/src/input/mod.rs:106-110 | The travel is the delta of the last motion event: it is replaced, not accumulated. |
| EffectInput.ClearedThenPressHasNothingReleased | effect-events/src/input/mod.rs:116-119 | After clearing, any event other than a release leaves both released sets empty and keeps every held key. |
| Camera.Camera2D.constructor | effect-core/src/camera/camera2d.rs:82-98 | No bindings, no active action, position (0, 0, 1), and the given speed. |
| Camera.Camera2D.Transform | effect-core/src/camera/camera2d.rs:125-132 | Replaces the position; bindings, actions and speed are kept. |
| Camera.Camera2D.SetSpeed | effect-core/src/camera/camera2d.rs:134-136 | Replaces the speed; everything else is kept. |
| Camera.Camera2D.SetInputs | effect-core/src/camera/camera2d.rs:187-191 | The bindings become `BindAll` of the old ones: the pairs are inserted in order. |
| Camera.Camera2D.RemoveInputs | effect-core/src/camera/camera2d.rs:193-197 | Removes the binding of every named action, whatever key is paired with it. |
| Camera.Camera2D.ResetInputs | effect-core/src/camera/camera2d.rs:199-201 | Clears the bindings and keeps the active actions. |
| Camera.Camera2D.UpdateActions | effect-core/src/camera/camera2d.rs:148-155 | Whatever order the map yields its bindings in, the active set becomes `ActionsAfter`. The bindings are not modified. |
| Camera.Camera2D.ProcessInputs | effect-core/src/camera/camera2d.rs:147-155 | The action part of `process_inputs`, driven by a `Context2D`. |
| Camera.LastBindingWins | effect-core/src/camera/camera2d.rs:187-191 | The last pair given for an action is its binding. |
| Camera.BindAllKeys | effect-core/src/camera/camera2d.rs:187-191 | The bound actions become the old ones plus the named ones; other bindings keep their key. |
| Camera.BoundActionIff | effect-core/src/camera/camera2d.rs:148-155 | A bound action is active afterwards if and only if it was active or its key is pressed, and its key is not released. |
| Camera.PressedAndReleasedInactive | effect-core/src/camera/camera2d.rs:149-154 | Removal comes after insertion: a key both pressed and released leaves its action inactive. |
| Camera.UntouchedActionsKept | effect-core/src/camera/camera2d.rs:148-155 | Unbound actions, and actions whose key is neither pressed nor released, keep their membership. |
| Camera.ActionsAfterIdempotent | effect-core/src/camera/camera2d.rs:148-155 | A second pass over the same key sets changes nothing. |
| CameraUpdate.Update | effect-events/src/input/camera2d.rs:17-25 | The same action update, driven by an `EffectEvent`; the bindings are not modified. |
| WindowInfo.Default | effect-core/src/misc/window_info.rs:42-59 | "Untitled", resizable, windowed, monitor 0, vsync on, 800 × 600. |
| WindowInfo.AppName | effect-core/src/misc/window_info.rs:16-19 | Replaces the name and nothing else. |
| WindowInfo.Resizable | effect-core/src/misc/window_info.rs:21-24 | Replaces the resizable flag and nothing else. |
| WindowInfo.Fullscreen | effect-core/src/misc/window_info.rs:26-29 | Replaces the mode and nothing else. |
| WindowInfo.Monitor | effect-core/src/misc/window_info.rs:31-34 | Replaces the monitor index and nothing else. |
| WindowInfo.Resolution | effect-core/src/misc/window_info.rs:36-39 | Replaces the resolution and nothing else. |
| WindowInfo.VsyncAlwaysDefault | effect-core/src/misc/window_info.rs:16-39 | No chain of setters changes vsync, so from the defaults it stays on. |
| WindowInfo.SettersCommute | effect-core/src/misc/window_info.rs:16-39 | Setters on distinct fields commute. |
| WindowInfo.LastSetWins | effect-core/src/misc/window_info.rs:16-39 | Setting a field twice keeps the last value. |

## Left out

- Floating point is modelled as reals: texture-coordinate sizes, entity raw records and cursor positions. The atlas's `tex_coord_size` (width over total width, in `f64` cast to `f32`) is not computed. The layer's cell size is a given value.
- Atlas.New: pixels are not modelled. Images are reduced to their native size or open error. Compositing is reduced to the bounds check `copy_from` performs. The discarded `resize` and the GPU upload in `init_texture` (texture creation, bind group) are not modelled; only the sampler and the upload layout are. The atlas calls the core crate's `Texture2DSystem::set_dimensions`, `set_index` and `init_texture`, whose bodies are not part of this model; they are taken to behave like the wgpu crate's `WebTexture2D` setters and `init_texture` (sampler and upload layout).
- Atlas.New: the `u32` arithmetic is on unbounded naturals. `Atlas.NoU32Overflow` shows that no addition of the loop overflows once the size check has passed.
- TextureArray.New: the repository imports a `Texture2D` type that the wgpu crate does not define. The model uses the fields of `WebTexture2D`.
- Camera matrices (`look_at`, projection), the camera uniform buffer and `Camera2DSystem::update` are not part of this model.
- Camera.Camera2D.ProcessInputs: the position integration (`speed · dt` per active action, in `f32`) is not modelled. The contract says nothing about the position.
- CameraUpdate.Update: the position integration is not modelled, as above.
- Camera.Camera2D.ProcessInputs: the source names `effect_events::input::Context2D`, which the events crate does not define. The model uses the core crate's `Context2D`.
- Camera.Camera2D.constructor: only the speed is a parameter. The field of view, aspect ratio and device only feed the matrices.
- Getters (`file_path`, `id`, `index`, `width`, `height`, `size`, `capacity`, `usage`, `mouse_position`, `mouse_delta`, `layer_id`, `position`, `bind_group`, `texture_ids`, the layer's buffer getters and `index_count`) are field reads of the classes.
- `set_position`, `set_rotation` and `set_scale` of both entity systems are not modelled. They delegate to `Transform2DSystem`, which is not part of this model. The entity transform keeps only the position it was created with.
- WebEntity.New and CoreEntity.New: a Rust `new` that panics becomes a method that returns `Panic` instead of the entity.
- Allocator: `mapped_at_creation` and the label are recorded but have no effect. Buffer alignment rules are not modelled. Sizes are unbounded naturals instead of `u64`/`usize`.
- Allocator.Buffer.Slice: where wgpu would panic on an empty slice (`size` 0, as after `allocate()` without data) or on a slice past the buffer's end, the model returns `None`.
- EntityBinding.ToRawInjective: stated only for columns and rows below 2^24. The source converts them with `as f32`, whose 24-bit significand maps distinct larger integers (16777216 and 16777217) to the same value; the model's conversion to reals does not round.
- Validation errors: a refused `write_buffer` is recorded in the buffer's `faulted` flag and execution goes on. The states after such an error (the second write of `Allocator.GrowthLosesData`, `Layer.SecondCallRefused`, `Layer.RewriteRefused`) assume an uncaptured-error handler that does not panic; native wgpu's default handler panics on the first validation error.
- Buffer::write_at is `unimplemented!()` and is not modelled.
- Layer.Layer2D.constructor: the layer's atlas is not modelled. The core crate's `TextureAtlas2D::new` that `Layer2D::new` calls is `todo!()`, so in the repository `Layer2D::new` would panic. The model builds the layer without it. `AddTexture` takes the atlas's answer as a parameter.
- Layer: buffer contents are element sequences rather than the byte casts `bytemuck` produces. The entities' vertices and indices are given values.
- Window creation, the event loop, rendering, audio and the other crates are not part of this model.

## Findings

| source | as written | input that shows it | evidently intended | confidence | as-written member | corrected member |
|---|---|---|---|---|---|---|
| effect-core/src/texture/texture_atlas2d.rs:52-68 | `current_width` is never reset when a row is broken. Every texture after the first row break starts a new row at a growing x offset, and the compositing step rejects it. | Three 4096 × 4096 images with a 4096 × 4096 cell size: capacity 4. Texture 2 is placed at (8192, 0) and the build fails with "Texture size to small for largest texture". | Texture k in cell (k mod width_count, k div width_count), at (column·w, row·h) | high (not executed) | Atlas.ThreeHalfWidthTilesRejected | Atlas.GridPlacementFits |
| effect-wgpu/src/allocator/mod.rs:114-122 | When the data exceeds the capacity, `write` builds a larger buffer, writes into it and drops it. Capacity and size are updated, but the stored buffer is the old one. | The default buffer (5096 bytes) written with 5097 bytes: size 5097 on a 5096-byte buffer, so `buffer()` slices past its end. | Store the grown buffer | high (not executed) | Allocator.GrowthLosesData | Allocator.WrittenStoredShowsData |
| src/engine/layer/layer.rs:177-181 | When the entity count grows, the index branch calls `create_vertex_buffer` and leaves the index buffer at its first length. | One quad, then two quads: the index buffer holds 6 indices while `index_count()` is 12. | Call `create_index_buffer` | high (not executed) | Layer.StaleIndexBuffer | Layer.ReconciledFixedKeepsSized |
| src/engine/layer/layer.rs:53-101 | All three layer buffers are created with `VERTEX` usage only. There is no `COPY_DST`, so every in-place `write_buffer` is a validation error, and the index buffer lacks `INDEX` usage. | The same single quad passed twice: the second call's vertex write is refused. | Create the buffers with `COPY_DST` (and `INDEX` for the index buffer) | high (not executed) | Layer.SecondCallRefused | Layer.ReconciledFixedKeepsSized |
