# Rendering state tracking, buffers and mesh connectivity in Dafny

This project models the core of the Rendering library: the
`RenderingContext` and its state tracking. The context keeps the state
an application asks for (the target state) apart from the state last
sent to the graphics device (the active state). It keeps scoped
push/pop stacks for every category of state. Uniform-block parameters
go into ring-buffered caches that are double-buffered against the GPU
with fence locks. The project also models the mesh-side helpers that
feed it: index data, the mesh builder and the triangle connectivity
accessor.

There is one Dafny module per source class, with its header and implementation together. Two shared modules, `Numeric` and `RenderingParameters`, model no source file of their own:

- `Numeric` (numeric.dfy) holds the fixed-width integer types the source uses, its 32-bit wrap-around, and a few sequence helpers.
- `BufferLocks` (buffer_lock.dfy) models the byte-range fence locks: overlap, locking, and waiting for and releasing the ranges a write touches.
- `BufferViews` (buffer_view.dfy) models a typed window on a device buffer: element offsets, size, and element-wise upload and download.
- `StreamBufferViews` (stream_buffer_view.dfy) models the ring-buffered view. It has a multi-buffer head that wraps and a window that moves on each swap.
- `BufferAccessors` (buffer_accessor.dfy) models the element-wise reader and writer over the bytes of a buffer.
- `ParameterCaches` (parameter_cache.dfy) models the named caches of shader parameters. They have a head that advances, resizing, and the `INVALID_INDEX` answer at capacity.
- `RenderingParameters` (rendering_parameters.dfy) holds the parameter values the context stores, as opaque values and records.
- `ProgramStates` (program_state.dfy) models the per-program state: the enabled-light set, texture and material slots, and the check numbers that make diffing cheap.
- `PipelineStates` (pipeline_state.dfy) models the pipeline state: the fixed-function parameters, vertex formats and vertex bindings, and the change diff.
- `BindingStates` (binding_state.dfy) models the buffer, texture and image bindings and their diff.
- `RenderingContexts` (rendering_context.dfy) models the context. It covers the target and active state, the push/pop stacks, the light registry, `applyChanges`, and the draw calls with their per-draw object-data stream.
- `MeshIndexDatas` (mesh_index_data.dfy) models the index array of a mesh: its range, and uploading it to its buffer.
- `MeshBuilders` (mesh_builder.dfy) models the incremental mesh builder and the factories whose output does not depend on floating point: their index lists, vertex counts and shapes.
- `ConnectivityAccessors` (connectivity_accessor.dfy) models the per-vertex corner rings built from an index list, and the queries on them.

Device calls, such as buffer uploads, draw calls and fence waits, become
values the operations return or parameters the caller supplies. The
properties proved are the promises of the source. Examples:

- pop undoes push, and nested scopes unwind;
- applying a diff issues commands for exactly the flagged categories, each carrying the value being applied, and the active state then becomes a copy of the target;
- head arithmetic stays in range;
- uploads round-trip through downloads;
- the builder's meshes are valid triangle lists whose index ranges are exact;
- every corner ring closes and visits every use of its vertex.

## Model

| member | source | states |
|---|---|---|
| ParameterCaches.NewEntry | RenderingContext/ParameterCache.cpp:22-27 | a new cache has maxElementCount empty record slots, head 0, and the given element size and usage flags |
| ParameterCaches.Resized | RenderingContext/ParameterCache.cpp:41-50 | resizing to n slots keeps the first min(old, n) records and leaves added slots empty; resizing to the same count changes nothing; the head is untouched |
| ParameterCaches.Stored | RenderingContext/ParameterCache.cpp:80 | an upload puts the record in its slot and leaves every other slot as it was |
| ParameterCaches.Added | RenderingContext/ParameterCache.cpp:85-98 | addParameter returns the old head and stores there while there is room; at capacity it either doubles the capacity and still stores at the head, or stores nothing and returns INVALID_INDEX; the head advances (wrapping) in every case |
| ParameterCaches.AddsFillConsecutiveSlots | RenderingContext/ParameterCache.cpp:85-98 | while there is room, successive addParameter calls return head, head+1, … and each record lands in its slot, leaving all other slots and the capacity unchanged |
| ParameterCaches.AddsToFullCacheAreRejected | RenderingContext/ParameterCache.cpp:87-94 | once the head has reached the capacity, every further add without auto-resize returns INVALID_INDEX and stores nothing, while the head keeps advancing |
| ParameterCaches.AutoResizeStoresAtHead | RenderingContext/ParameterCache.cpp:88-90 | with auto-resize, an add to a full cache doubles its capacity, keeps every old record and stores the new one at the head slot |
| ParameterCaches.ParameterCache.constructor | RenderingContext/ParameterCache.h:38 | a new cache manager holds no caches |
| ParameterCaches.ParameterCache.CreateCache | RenderingContext/ParameterCache.cpp:22-31 | an unknown name gets a new empty entry; an existing cache is kept, and the warning is raised exactly when its byte size or usage flags differ |
| ParameterCaches.ParameterCache.DeleteCache | RenderingContext/ParameterCache.cpp:35-37 | the name is removed from the caches and nothing else changes |
| ParameterCaches.ParameterCache.ResizeCache | RenderingContext/ParameterCache.cpp:41-50 | an unknown name is std::out_of_range; otherwise the entry becomes Resized |
| ParameterCaches.ParameterCache.ResetCache | RenderingContext/ParameterCache.cpp:54-58 | an unknown name is std::out_of_range; otherwise only the head is reset to 0 |
| ParameterCaches.ParameterCache.IsCache | RenderingContext/ParameterCache.cpp:61-63 | true exactly when a cache of that name exists |
| ParameterCaches.ParameterCache.Bind | RenderingContext/ParameterCache.cpp:67-70 | an unknown name is std::out_of_range; otherwise the cache's buffer is bound to the given target and location |
| ParameterCaches.ParameterCache.SetParameter | RenderingContext/ParameterCache.cpp:74-81 | an unknown name is std::out_of_range; an index at or past the capacity only warns and stores nothing; otherwise exactly that slot receives the record |
| ParameterCaches.ParameterCache.AddParameter | RenderingContext/ParameterCache.cpp:85-98 | an unknown name is std::out_of_range; otherwise the entry and the returned index are those of Added |
| BufferViews.DerivedViewFillsBuffer | Memory/BufferView.cpp:18-22 | a view built over a buffer with count 0 gets (size − offset) / elementSize elements: it fits in the buffer and leaves less than one element unused |
| BufferViews.CheckedRangeInBuffer | Memory/BufferView.cpp:59-66 | on a valid view, the range check index + count ≤ elementCount keeps every byte accessed by setValues/getValues inside the buffer |
| BufferViews.RangeCheckAsWrittenWithoutWrap | Memory/BufferView.cpp:62-73 | as long as index + count fits in uint32_t, the range check as written passes exactly when index + count ≤ elementCount |
| BufferViews.RangeCheckWrapAccepts | Memory/BufferView.cpp:62-73 | with the uint32_t sum wrapping, index 0xFFFFFFFF and count 2 pass the check on a one-element view, although the first element accessed lies past the view |
| BufferViews.SetValuesThenElement | Memory/BufferView.cpp:58-67 | after writing count elements at index, an element inside the window reads back as the written bytes and an element outside it is unchanged |
| BufferViews.BufferView.constructor | Memory/BufferView.cpp:18-22 | element size is at least 1; with a buffer and count 0 the count is derived from the buffer's remaining size |
| BufferViews.BufferView.Copy | Memory/BufferView.h:20-28 | the implicit copy is a second view on the same buffer object, with the same offset, element size and element count |
| BufferViews.BufferView.Size | Memory/BufferView.h:39 | the size is zero exactly when the element size or count is, and the view's bytes end right after its last element |
| BufferViews.BufferView.IsValid | Memory/BufferView.cpp:34-40 | a valid view has a buffer, a non-zero size, and every one of its elements inside the buffer |
| BufferViews.BufferView.Swap | Memory/BufferView.cpp:24-32 | buffer, offset, element size and element count are exchanged with the other view; a self-swap changes nothing |
| BufferViews.BufferView.Bind | Memory/BufferView.cpp:42-48 | a valid view binds exactly its byte range [offset, offset + size) to the target and location; an invalid one only warns |
| BufferViews.BufferView.AllocateBuffer | Memory/BufferView.cpp:50-56 | the view gets a buffer (a new one if it had none) whose fresh storage is exactly elementCount × elementSize bytes, filled from the initial data when given; the view geometry is unchanged |
| BufferViews.BufferView.SetValues | Memory/BufferView.cpp:58-67 | the write happens exactly when the view is valid and the range fits; it overwrites exactly the bytes of elements [index, index + count) and nothing else |
| BufferViews.BufferView.GetValues | Memory/BufferView.cpp:69-78 | the read succeeds exactly when the view is valid and the range fits, and returns exactly the bytes of elements [index, index + count) |
| BufferLocks.OverlapsIffSharedByte | Memory/BufferLock.h:24-26 | for non-empty ranges, BufferRange::overlaps holds exactly when the two ranges share a byte, and it is symmetric |
| BufferLocks.EmptyRangeOverlapsStrictInterior | Memory/BufferLock.h:24-26 | a zero-length range holds no byte, but overlaps a range exactly when it starts strictly inside it |
| BufferLocks.Kept | BufferLock.cpp:29-36 | the locks kept by a wait are exactly the old locks that do not overlap the queried range, never more of them |
| BufferLocks.Waited | BufferLock.cpp:29-33 | the locks waited for are exactly the old locks that overlap the queried range, never more of them |
| BufferLocks.WaitPartitionsLocks | BufferLock.cpp:28-37 | a wait splits the lock list: kept and waited together are the old locks as a multiset, each lock in exactly one of them |
| BufferLocks.BufferLockManager.constructor | Memory/BufferLock.h:37 | a new manager holds no locks |
| BufferLocks.BufferLockManager.LockRange | BufferLock.cpp:40-45 | a non-empty range is appended behind the existing locks; an empty one is ignored |
| BufferLocks.BufferLockManager.WaitForLockedRange | BufferLock.cpp:24-38 | length 0 returns at once; otherwise the overlapping locks are waited for in order and dropped and the others stay in order |
| StreamBufferViews.GenerationsOverlapIffSame | Memory/StreamBufferView.cpp:38-48 | the fence swap sets on a whole generation is hit by a non-empty access in another generation never, and by one in the same generation always |
| StreamBufferViews.NextGeneration | Memory/StreamBufferView.cpp:49 | the next generation is head+1 below the count and wraps to 0 at the count |
| StreamBufferViews.SwapsCycleThroughGenerations | Memory/StreamBufferView.cpp:47-52 | after k swaps from generation 0 the view is at generation k mod count |
| StreamBufferViews.StreamBufferView.constructor | Memory/StreamBufferView.cpp:19-21 | the inner view is built like a BufferView, the base offset is the given offset, generation and write head start at 0, and no locks are held |
| StreamBufferViews.StreamBufferView.SetBaseOffset | Memory/StreamBufferView.h:32 | only the base offset changes |
| StreamBufferViews.StreamBufferView.SetMultiBufferCount | Memory/StreamBufferView.h:33-38 | the count is set, generation and head return to 0, all locks are dropped and the base offset is kept |
| StreamBufferViews.StreamBufferView.AllocateBuffer | Memory/StreamBufferView.cpp:23-35 | a buffer is created when there is none, storage for every generation is allocated (holding the initial data when given), offset, generation and head return to 0, and the locks are kept |
| StreamBufferViews.StreamBufferView.SetValues | Memory/StreamBufferView.cpp:37-40 | the locks overlapping the written window of the current generation are waited for and dropped, then the bytes are written exactly when the view is valid and the range fits |
| StreamBufferViews.StreamBufferView.GetValues | Memory/StreamBufferView.cpp:42-45 | the same wait as setValues, then the element bytes of the range are returned exactly when the view is valid and the range fits |
| StreamBufferViews.StreamBufferView.Swap | Memory/StreamBufferView.cpp:47-52 | the current generation is fenced, the generation advances (wrapping), the view's offset moves to that generation and the head restarts at 0 |
| BufferAccessors.Chunks | CL/Memory/BufferAccessor.h:119 | reading n values of a type of width bytes yields n values of exactly width bytes each |
| BufferAccessors.FlattenLength | CL/Memory/BufferAccessor.h:84-89 | writing n values of width bytes takes width * n bytes, the amount writeArray checks and advances by |
| BufferAccessors.ChunksOfFlatten | CL/Memory/BufferAccessor.h:79-121 | readArray of as many values as writeArray stored, from the same cursor, returns the written values whatever follows them |
| BufferAccessors.BufferAccessor.constructor | CL/Memory/BufferAccessor.cpp:18-26 | a new accessor is unmapped, has its cursor at 0 and the buffer's size |
| BufferAccessors.BufferAccessor.Begin | CL/Memory/BufferAccessor.cpp:33-40 | begin while mapped only warns; otherwise it rewinds the cursor and maps the buffer |
| BufferAccessors.BufferAccessor.End | CL/Memory/BufferAccessor.cpp:42-49 | end while unmapped only warns; afterwards the buffer is unmapped in both cases, the cursor and contents untouched |
| BufferAccessors.BufferAccessor.SetCursor | CL/Memory/BufferAccessor.h:39 | the cursor becomes the offset clamped to the buffer size |
| BufferAccessors.BufferAccessor.Write | CL/Memory/BufferAccessor.h:64-76 | a value is written at the cursor and the cursor advances past it exactly when mapped and the value fits; otherwise nothing changes |
| BufferAccessors.BufferAccessor.WriteArray | CL/Memory/BufferAccessor.h:78-90 | all values are written back to back at the cursor and the cursor advances by width * count exactly when mapped and they all fit; otherwise nothing changes |
| BufferAccessors.BufferAccessor.Read | CL/Memory/BufferAccessor.h:92-106 | the value's bytes at the cursor are returned and skipped exactly when mapped and they fit; otherwise no value and the cursor stays |
| BufferAccessors.BufferAccessor.ReadArray | CL/Memory/BufferAccessor.h:108-122 | n values cut from the bytes at the cursor are returned and skipped exactly when mapped and they fit; otherwise an empty list and the cursor stays |
| ProgramStates.Align | RenderingContext/ProgramState.cpp:35-37 | alignments 0 and 1 return the offset unchanged |
| ProgramStates.AlignPadLessThanAlignment | RenderingContext/ProgramState.cpp:35-37 | align adds less than one alignment step, in uint32_t arithmetic (a wrapped result lies below the offset) |
| ProgramStates.AlignUnwrapped | RenderingContext/ProgramState.cpp:35-37 | without overflow, an aligned offset is kept and any other offset grows by its distance to the next multiple |
| ProgramStates.AlignRoundsUp | RenderingContext/ProgramState.cpp:35-37 | without overflow, align returns a multiple of the alignment at least the offset and less than one step above it |
| ProgramStates.AlignBelowEveryMultiple | RenderingContext/ProgramState.cpp:35-37 | without overflow, align returns the least such multiple |
| ProgramStates.AlignIdempotent | RenderingContext/ProgramState.cpp:35-37 | without overflow, aligning twice is aligning once |
| ProgramStates.AlignOfMultiple | RenderingContext/ProgramState.cpp:35-37 | a multiple of the alignment is returned unchanged |
| ProgramStates.AlignWrapsNearUint32Max | RenderingContext/ProgramState.cpp:35-37 | at the top of the uint32_t range align wraps: align(0xFFFFFFFF, 10) is 4, which is not a multiple of 10 |
| ProgramStates.PopCount | RenderingContext/ProgramState.h:129-131 | the number of enabled lights is at most the number of slots |
| ProgramStates.PopCountStep | RenderingContext/ProgramState.h:129-131 | the count of a prefix grows by one exactly at a set bit |
| ProgramStates.PopCountMonotone | RenderingContext/ProgramState.h:129-131 | a longer prefix counts at least as many set bits, strictly more once it takes in a set bit |
| ProgramStates.PopCountUpdate | RenderingContext/ProgramState.h:159-166 | setting or clearing one bit changes the count by exactly the difference of the two bits |
| ProgramStates.NthEnabled | RenderingContext/ProgramState.h:132-133 | the index-th enabled light is in an enabled slot with exactly index enabled slots before it |
| ProgramStates.NthEnabledUnique | RenderingContext/ProgramState.h:132-133 | that slot is the only one with this property |
| ProgramStates.NthEnabledIncreasing | RenderingContext/ProgramState.h:132-133 | enabled lights are numbered in increasing slot order |
| ProgramStates.AsWrittenEnabledSlot | RenderingContext/ProgramState.h:133-149 | the slot getEnabledLight reads is a valid slot |
| ProgramStates.AsWrittenSlotCorrectIff | RenderingContext/ProgramState.h:133-149 | getEnabledLight reads the index-th enabled slot exactly when index is 0 or that slot directly follows the previous enabled one |
| ProgramStates.GetEnabledLightReadsDisabledSlot | RenderingContext/ProgramState.h:133-149 | with lights 0 and 2 enabled, getEnabledLight(1) reads disabled slot 1 instead of slot 2 |
| ProgramStates.LightsChangedAsWrittenMissesChange | RenderingContext/ProgramState.h:172-183 | with lights 0 and 2 enabled and only light 2 changed, the comparison as written finds no difference, while the comparison through NthEnabled finds one |
| ProgramStates.SearchEnabledSlot | RenderingContext/ProgramState.h:135-147 | the two loops of getEnabledLight stop on the slot AsWrittenEnabledSlot names |
| ProgramStates.FindEnabledFrom | RenderingContext/ProgramState.h:142-144 | the inner scan, started with j enabled slots behind it, stops on the j-th enabled slot |
| ProgramStates.LowestClear | RenderingContext/ProgramState.h:153-156 | the scan of enableLight stops on the lowest clear bit |
| ProgramStates.NoneSetCountsZero | RenderingContext/ProgramState.h:126 | an all-clear bitset counts no enabled light |
| ProgramStates.ProgramState.constructor | RenderingContext/ProgramState.h:89-126 | a fresh state has check numbers 0, a disabled material, no enabled light, and every texture unit disabled for 2D textures |
| ProgramStates.ProgramState.MaterialChanged | RenderingContext/ProgramState.h:95-97 | equal check numbers mean unchanged; otherwise changed exactly when the materials differ |
| ProgramStates.ProgramState.SetMaterial | RenderingContext/ProgramState.h:98-102 | the material is stored enabled and its check number bumped (wrapping); nothing else changes |
| ProgramStates.ProgramState.DisableMaterial | RenderingContext/ProgramState.h:107-110 | the material keeps its values but is disabled, and its check number is bumped; nothing else changes |
| ProgramStates.ProgramState.UpdateMaterial | RenderingContext/ProgramState.h:103-106 | the other state's material and check number are adopted, after which the material no longer counts as changed |
| ProgramStates.ProgramState.NumEnabledLights | RenderingContext/ProgramState.h:129-131 | at most MAX_LIGHTS lights are enabled |
| ProgramStates.ProgramState.IsLightEnabled | RenderingContext/ProgramState.h:169-171 | a light is enabled exactly when the enumeration of enabled lights (NthEnabled) reaches its slot |
| ProgramStates.ProgramState.GetEnabledLight | RenderingContext/ProgramState.h:133-149 | returns the light in the slot AsWrittenEnabledSlot names |
| ProgramStates.ProgramState.EnableLight | RenderingContext/ProgramState.h:151-161 | the light goes into the lowest free slot, which is enabled and returned; the count grows by one and the check number is bumped |
| ProgramStates.ProgramState.DisableLight | RenderingContext/ProgramState.h:163-167 | only that light's bit is cleared, the count drops by one and the check number is bumped; the slot keeps its parameters |
| ProgramStates.ProgramState.LightsChanged | RenderingContext/ProgramState.h:172-183 | equal check numbers mean unchanged; otherwise changed exactly when the enabled sets differ or some enabled light differs |
| ProgramStates.ProgramState.LightsChangedAsWritten | RenderingContext/ProgramState.h:172-183 | lightsChanged as written: equal check numbers mean unchanged; otherwise changed exactly when the bitsets differ or the lights getEnabledLight reads from the two states differ |
| ProgramStates.ProgramState.UpdateLights | RenderingContext/ProgramState.h:184-187 | the other state's bits and check number are adopted (the slots are not), after which the lights no longer count as changed |
| ProgramStates.ProgramState.UpdateLightParameter | RenderingContext/ProgramState.h:188-191 | one slot is overwritten; bits and check number stay |
| ProgramStates.ProgramState.PointParametersChanged | RenderingContext/ProgramState.h:201-203 | the comparison uses no check number, so a state never differs from itself |
| ProgramStates.ProgramState.SetPointParameters | RenderingContext/ProgramState.h:207-209 | only the point parameters change |
| ProgramStates.ProgramState.SetTextureUnitParams | RenderingContext/ProgramState.h:222-225 | the check number is bumped even for a unit out of range, which fails with out_of_range and leaves the units as they were; a valid unit gets the new usage |
| ProgramStates.ProgramState.GetTextureUnitParams | RenderingContext/ProgramState.h:226-228 | the unit's usage and type, and out_of_range exactly for units beyond MAX_TEXTURES |
| ProgramStates.ProgramState.TextureUnitsChanged | RenderingContext/ProgramState.h:229-232 | equal check numbers mean unchanged; a change implies differing unit usages |
| ProgramStates.ProgramState.UpdateTextureUnits | RenderingContext/ProgramState.h:233-236 | the other state's unit usages and check number are adopted, after which they no longer count as changed |
| PipelineStates.VertexFormatChanged | RenderingContext/internal/PipelineState.h:112-115 | equal check numbers mean unchanged; a change implies differing vertex formats |
| PipelineStates.VertexBindingChanged | RenderingContext/internal/PipelineState.h:137-140 | equal check numbers mean unchanged; a change implies differing vertex bindings |
| PipelineStates.BlendingChanged | RenderingContext/internal/PipelineState.h:162-165 | equal check numbers mean unchanged; a change implies differing blending parameters |
| PipelineStates.StencilChanged | RenderingContext/internal/PipelineState.h:319-321 | equal check numbers mean unchanged; a change implies differing stencil parameters |
| PipelineStates.TexturesChanged | RenderingContext/internal/PipelineState.h:354-356 | equal check numbers mean unchanged; a change implies differing bound textures |
| PipelineStates.MakeDiff | RenderingContext/PipelineState.cpp:50-53 | a forced diff has every bit set |
| PipelineStates.MakeDiffFlagsChangedCategories | RenderingContext/PipelineState.cpp:55-93 | an unforced diff sets a top-level bit exactly when its changed predicate holds, and a blend or stencil sub-bit exactly when the category changed and that part differs |
| PipelineStates.SubBitsNeedTheirCategory | RenderingContext/PipelineState.cpp:63-92 | a blend or stencil sub-bit is never set without BLEND_BIT or STENCIL_BIT, forced or not |
| PipelineStates.DiffWithItselfIsEmpty | RenderingContext/PipelineState.cpp:47-96 | comparing a state with an identical one sets no bit |
| PipelineStates.UnflaggedCategoryIsEqual | RenderingContext/PipelineState.cpp:55-82 | a clear bit of a category without a check number means the two values are equal |
| PipelineStates.UnflaggedCountedCategoryIsInSync | RenderingContext/PipelineState.cpp:59-93 | a clear bit of a counted category means equal values or equal check numbers |
| PipelineStates.OnlyFlaggedConcat | RenderingContext/PipelineState.cpp:98-310 | commands issued for flagged bits stay so when command lists are joined |
| PipelineStates.ClampedLineWidth | RenderingContext/PipelineState.cpp:187 | the line width sent is at most 1.0, and is the requested width when that is not above 1.0 |
| PipelineStates.ProgramCommands | RenderingContext/PipelineState.cpp:102-105 | glUseProgram is issued only under PROGRAM_BIT |
| PipelineStates.BlendCommands | RenderingContext/PipelineState.cpp:108-133 | nothing is issued without BLEND_BIT, and each blend command only under its own sub-bit |
| PipelineStates.ColorBufferCommands | RenderingContext/PipelineState.cpp:136-144 | glColorMask is issued only under COLOR_BUFFER_BIT |
| PipelineStates.CullSwitchCommands | RenderingContext/PipelineState.cpp:147-152 | the culling switch is issued only under CULL_FACE_BIT |
| PipelineStates.CullModeCommands | RenderingContext/PipelineState.cpp:153-166 | glCullFace is issued only under CULL_FACE_BIT |
| PipelineStates.DepthCommands | RenderingContext/PipelineState.cpp:170-183 | the depth test switch, mask and function are issued only under DEPTH_BUFFER_BIT |
| PipelineStates.LineCommands | RenderingContext/PipelineState.cpp:186-189 | glLineWidth is issued only under LINE_PARAM_BIT |
| PipelineStates.StencilHeadCommands | RenderingContext/PipelineState.cpp:192-202 | the stencil switch and function are issued only under STENCIL_BIT and their own sub-bits |
| PipelineStates.StencilOpCommands | RenderingContext/PipelineState.cpp:203-208 | glStencilOp is issued only under STENCIL_BIT and STENCIL_OP_BIT |
| PipelineStates.PolygonModeCommands | RenderingContext/PipelineState.cpp:212-215 | glPolygonMode is issued only under POLYGON_MODE_BIT |
| PipelineStates.PolygonOffsetCommands | RenderingContext/PipelineState.cpp:218-230 | the three offset switches and the offset are issued only under POLYGON_OFFSET_BIT |
| PipelineStates.PolygonCommands | RenderingContext/PipelineState.cpp:212-230 | polygon mode and offset commands are issued only under their bits |
| PipelineStates.TextureViewportCommands | RenderingContext/PipelineState.cpp:233-256 | texture binding and viewport are issued only under their bits |
| PipelineStates.ScissorFboCommands | RenderingContext/PipelineState.cpp:259-278 | scissor and framebuffer commands are issued only under their bits |
| PipelineStates.BindingCommands | RenderingContext/PipelineState.cpp:233-278 | texture, viewport, scissor and framebuffer commands are issued only under their bits |
| PipelineStates.FormatCommands | RenderingContext/PipelineState.cpp:283-294 | the commands for one attribute location all belong to VERTEX_FORMAT_BIT |
| PipelineStates.VertexFormatCommands | RenderingContext/PipelineState.cpp:282-295 | the commands for all attribute locations belong to VERTEX_FORMAT_BIT |
| PipelineStates.BindingPointCommands | RenderingContext/PipelineState.cpp:301-306 | the commands for one binding point belong to VERTEX_BINDING_BIT |
| PipelineStates.VertexBindingCommands | RenderingContext/PipelineState.cpp:300-307 | the commands for all binding points belong to VERTEX_BINDING_BIT |
| PipelineStates.FormatLoop | RenderingContext/PipelineState.cpp:282-295 | the loop over attribute locations issues, in location order, the commands VertexFormatCommands lists |
| PipelineStates.BindingLoop | RenderingContext/PipelineState.cpp:300-307 | the loop over binding points issues, in order, the commands VertexBindingCommands lists |
| PipelineStates.ApplyIssuesOnlyFlagged | RenderingContext/PipelineState.cpp:98-310 | every command apply issues belongs to a set bit whose category bit is set too |
| PipelineStates.ApplyLogHoldsEveryGroup | RenderingContext/PipelineState.cpp:98-310 | when apply does not throw, every group of commands it builds, one per category, is part of what it issues |
| PipelineStates.ApplyIssuesFlaggedHead | RenderingContext/PipelineState.cpp:98-166 | when apply does not throw, a flagged shader, blend sub-bit, colour mask or cull face issues its command carrying the applied value |
| PipelineStates.ApplyIssuesFlaggedMiddle | RenderingContext/PipelineState.cpp:170-208 | when apply does not throw, flagged depth, line and stencil sub-bits issue their commands carrying the applied values |
| PipelineStates.ApplyIssuesFlaggedTail | RenderingContext/PipelineState.cpp:209-310 | when apply does not throw, flagged polygon, texture, viewport, scissor, framebuffer, vertex-format and vertex-binding categories issue their commands carrying the applied values |
| PipelineStates.ApplyFailsIffInvalidEnumerator | RenderingContext/PipelineState.cpp:147-208 | apply throws invalid_argument exactly when a flagged cull face has an invalid mode or flagged stencil actions include an invalid one |
| PipelineStates.EmptyDiffIssuesNothing | RenderingContext/PipelineState.cpp:98-310 | an empty diff issues no command and does not throw |
| PipelineStates.ForcedApplyIssuesEveryCategory | RenderingContext/PipelineState.cpp:98-310 | a forced apply of valid enumerators succeeds and issues the program, cull mode, line width, texture, viewport and framebuffer commands |
| PipelineStates.ResetCount | RenderingContext/internal/PipelineState.h:122-127 | at most one check-number bump per attribute location |
| PipelineStates.AddWrapped | RenderingContext/internal/PipelineState.h:119 | k uint32_t increments add k while they do not overflow |
| PipelineStates.AddWrappedStep | RenderingContext/internal/PipelineState.h:119 | one more uint32_t increment is one more step of the count |
| PipelineStates.ResetMatching | RenderingContext/internal/PipelineState.h:122-127 | the loop of resetVertexFormats empties exactly the locations bound to the binding, keeps the others, and bumps the check number once per location that really changed |
| PipelineStates.PipelineState.constructor | RenderingContext/internal/PipelineState.h:28-362 | a valid state holding exactly the given initial values |
| PipelineStates.PipelineState.CopyFrom | RenderingContext/RenderingContext.cpp:275 | the active state takes on the whole target state |
| PipelineStates.PipelineState.SetViewport | RenderingContext/internal/PipelineState.h:39-41 | only the viewport changes |
| PipelineStates.PipelineState.SetScissorParameters | RenderingContext/internal/PipelineState.h:56-58 | only the scissor parameters change |
| PipelineStates.PipelineState.SetFBO | RenderingContext/internal/PipelineState.h:74-76 | only the FBO changes |
| PipelineStates.PipelineState.SetShader | RenderingContext/internal/PipelineState.h:90-92 | only the shader changes |
| PipelineStates.PipelineState.SetColorBufferParameters | RenderingContext/internal/PipelineState.h:197-199 | only the colour mask changes |
| PipelineStates.PipelineState.SetCullFaceParameters | RenderingContext/internal/PipelineState.h:215-217 | only the cull face parameters change |
| PipelineStates.PipelineState.SetDepthBufferParameters | RenderingContext/internal/PipelineState.h:234-236 | only the depth buffer parameters change |
| PipelineStates.PipelineState.SetLineParameters | RenderingContext/internal/PipelineState.h:268-270 | only the line parameters change |
| PipelineStates.PipelineState.SetPolygonModeParameters | RenderingContext/internal/PipelineState.h:286-288 | only the polygon mode changes |
| PipelineStates.PipelineState.SetPolygonOffsetParameters | RenderingContext/internal/PipelineState.h:305-307 | only the polygon offset changes |
| PipelineStates.PipelineState.SetBlendingParameters | RenderingContext/internal/PipelineState.h:169-172 | the blending is stored and its check number always bumped (wrapping); nothing else changes |
| PipelineStates.PipelineState.UpdateBlendingParameters | RenderingContext/internal/PipelineState.h:177-180 | the other state's blending and check number are adopted, after which blending no longer counts as changed |
| PipelineStates.PipelineState.UpdateBlendingParametersTo | RenderingContext/internal/PipelineState.h:173-176 | the given blending and check number are stored and nothing else changes; blending then counts as unchanged against every state with that check number |
| PipelineStates.PipelineState.SetStencilParameters | RenderingContext/internal/PipelineState.h:325-329 | the check number is bumped exactly when the stencil parameters really differ; storing the same value changes nothing |
| PipelineStates.PipelineState.UpdateStencilParameters | RenderingContext/internal/PipelineState.h:334-337 | the other state's stencil and check number are adopted, after which the stencil no longer counts as changed |
| PipelineStates.PipelineState.UpdateStencilParametersTo | RenderingContext/internal/PipelineState.h:330-333 | the given stencil and check number are stored and nothing else changes; the stencil then counts as unchanged against every state with that check number |
| PipelineStates.PipelineState.SetTexture | RenderingContext/internal/PipelineState.h:347-350 | the check number is always bumped, even when the unit is out of range and out_of_range is thrown; a valid unit gets the texture |
| PipelineStates.PipelineState.GetTexture | RenderingContext/internal/PipelineState.h:351-353 | the unit's texture, and out_of_range exactly beyond MAX_TEXTURES |
| PipelineStates.PipelineState.UpdateTextures | RenderingContext/internal/PipelineState.h:357-360 | the other state's textures and check number are adopted, after which they no longer count as changed |
| PipelineStates.PipelineState.SetVertexFormat | RenderingContext/internal/PipelineState.h:116-121 | out_of_range beyond MAX_VERTEXATTRIBS with nothing changed; otherwise the pair is stored and the check number bumped exactly when it differs from the old one |
| PipelineStates.PipelineState.ResetVertexFormats | RenderingContext/internal/PipelineState.h:122-127 | exactly the locations bound to the binding become empty (keeping the binding), the others stay, and the check number counts the real changes |
| PipelineStates.PipelineState.GetVertexFormat | RenderingContext/internal/PipelineState.h:128-130 | the location's format, and out_of_range exactly beyond MAX_VERTEXATTRIBS |
| PipelineStates.PipelineState.UpdateVertexFormat | RenderingContext/internal/PipelineState.h:131-134 | the other state's formats and check number are adopted, after which they no longer count as changed |
| PipelineStates.PipelineState.SetVertexBinding | RenderingContext/internal/PipelineState.h:141-144 | the check number is always bumped, even for a binding point out of range (out_of_range); a valid point gets the new tuple |
| PipelineStates.PipelineState.UpdateVertexBinding | RenderingContext/internal/PipelineState.h:148-151 | the other state's bindings and check number are adopted, after which they no longer count as changed |
| PipelineStates.PipelineState.Apply | RenderingContext/PipelineState.cpp:98-310 | the commands issued, and where an exception ends them, are those ApplyCommands describes |
| BindingStates.NewBinding | RenderingContext/BindingState.h:47-48 | a binding records its view and key, with the view's offset and size, or zeros for no view |
| BindingStates.GetImageAccess | RenderingContext/BindingState.cpp:14-16 | write-only exactly without read operations, read-only exactly with reads but no writes, read-write exactly with both |
| BindingStates.Lookup | RenderingContext/BindingState.h:70-80 | the stored entry for a bound key and the default for an unbound one |
| BindingStates.SetBit | RenderingContext/BindingState.cpp:64 | bitset::set sets or clears exactly one bit |
| BindingStates.UnitDiffFlagsDifferingUnits | RenderingContext/BindingState.cpp:97-109 | a texture or image unit is flagged exactly when one state binds it and, unless forced, the two states bind different things there |
| BindingStates.DiffUnits | RenderingContext/BindingState.cpp:97-102 | the two loops over a unit map compute the unit diff |
| BindingStates.BufferDiffFlagsChangedKeys | RenderingContext/BindingState.cpp:59-95 | a key of the four tracked targets is flagged exactly when one state binds it and, unless forced, a bound view has moved or the two bindings differ |
| BindingStates.OneSidedBindingIsFlagged | RenderingContext/BindingState.h:56-74 | a key bound in only one state is always flagged, even when bound to no view, because the null binding carries the zero key |
| BindingStates.DiffBuffers | RenderingContext/BindingState.cpp:59-95 | the two loops over the buffer maps compute the buffer diff |
| BindingStates.BindOrRemove | RenderingContext/BindingState.cpp:36-54 | a key bound to a view stays (with its extent refreshed), a key bound to no view is erased, and every other key is untouched |
| BindingStates.ApplyTargetEffect | RenderingContext/BindingState.cpp:118-150 | after one target's loop, a visited key bound to a view holds the view's current extent, a visited key bound to no view is gone, and every other key is as it was |
| BindingStates.ApplyTargetLoop | RenderingContext/BindingState.cpp:118-125 | the loop over one target's bitset computes what ApplyTarget describes |
| BindingStates.ApplyBuffersEffect | RenderingContext/BindingState.cpp:117-151 | after the four buffer loops, flagged keys bound to a view are refreshed, flagged keys bound to no view are gone, and all others are as they were |
| BindingStates.ApplyTexturesEffect | RenderingContext/BindingState.cpp:153-169 | after the texture loop, exactly the visited flagged units bound to no texture are gone, and the rest keep their texture |
| BindingStates.ApplyImagesEffect | RenderingContext/BindingState.cpp:171-189 | after the image loop, exactly the visited flagged units with no texture are gone, and the rest keep their parameters |
| BindingStates.ApplyTexturesKeepsLookups | RenderingContext/BindingState.cpp:153-169 | forgetting units bound to nothing does not change what getTexture reports |
| BindingStates.ApplyTexturesLoop | RenderingContext/BindingState.cpp:155-167 | the texture loop computes what ApplyTextures describes |
| BindingStates.ApplyImagesLoop | RenderingContext/BindingState.cpp:173-187 | the image loop computes what ApplyImages describes |
| BindingStates.BindingState.constructor | RenderingContext/BindingState.h:61-62 | a fresh state binds nothing and has check numbers 0 |
| BindingStates.BindingState.BindBuffer | RenderingContext/BindingState.h:64-69 | a location at or beyond the target's limit is ignored; otherwise the check number is bumped and the key bound to the view with its current extent |
| BindingStates.BindingState.GetBufferBinding | RenderingContext/BindingState.h:70-80 | the stored binding, or the null binding for an unbound key |
| BindingStates.BindingState.BindTexture | RenderingContext/BindingState.h:90-94 | a unit at or beyond the limit is ignored; otherwise the check number is bumped and the unit bound |
| BindingStates.BindingState.GetTexture | RenderingContext/BindingState.h:95-99 | the bound texture, or the null texture for an unbound unit |
| BindingStates.BindingState.BindImage | RenderingContext/BindingState.h:109-113 | a unit at or beyond the limit is ignored; otherwise the check number is bumped and the unit bound |
| BindingStates.BindingState.GetImage | RenderingContext/BindingState.h:114-118 | the bound parameters, or the default parameters for an unbound unit |
| BindingStates.BindingState.MakeDiff | RenderingContext/BindingState.cpp:56-112 | the diff holds the buffer, texture and image bits the diff functions describe |
| BindingStates.BindingState.Apply | RenderingContext/BindingState.cpp:114-191 | the maps afterwards are those the apply functions describe, and the check numbers are unchanged |
| BindingStates.BindingState.ApplyKeepsValid | RenderingContext/BindingState.cpp:114-191 | apply only removes entries and refreshes extents, so every entry stays below its limit and keeps its key |
| BindingStates.BindingState.CopyFrom | RenderingContext/BindingState.h:26 | the implicit copy assignment takes over every binding and every check number of the other state, which has the same limits |
| RenderingContexts.InitialCaches | RenderingContext/RenderingContext.cpp:180-186 | the six caches exist, all valid and empty, with 512 object-data and 256 light-data slots |
| RenderingContexts.Uploaded | RenderingContext/ParameterCache.cpp:74-81 | setParameter writes the record into the named slot of an existing cache with room for it, and changes no other cache and no sizes |
| RenderingContexts.Published | RenderingContext/RenderingContext.cpp:279-282 | publishing keeps every cache valid and the set of caches unchanged |
| RenderingContexts.PublishedRecordsAreCurrent | RenderingContext/RenderingContext.cpp:279-282 | after publishing, slot 0 of the frame, material, light-set and texture-set caches holds the context's current record, and the object-data and light caches are untouched |
| RenderingContexts.PushedAndAssignedAll | RenderingContext/RenderingContext.cpp:312-315 | a series of pushAndSets adds one saved value per call and leaves the last value current |
| RenderingContexts.PopUndoesPushAndSet | RenderingContext/RenderingContext.cpp:312-331 | pushAndSet followed by pop restores the value and the stack exactly, without a warning |
| RenderingContexts.PopOfEmptyStackOnlyWarns | RenderingContext/RenderingContext.cpp:316-323 | popping an empty stack warns and changes nothing |
| RenderingContexts.NestedScopesUnwind | RenderingContext/RenderingContext.cpp:312-331 | n nested pushAndSets are undone by n pops |
| RenderingContexts.NestedShaderScopesDoNotUnwind | RenderingContext/RenderingContext.cpp:734-740 | with popShader as written, two pops after two pushAndSets leave the first pushed shader current, where the stack discipline restores the original |
| RenderingContexts.PopMaterialAdoptsEarlierSave | RenderingContext/RenderingContext.cpp:1077-1097 | after pushAndSetMaterial, popMaterial restores the stack and adopts the material saved by the earlier push, or disables the new material when nothing older is saved |
| RenderingContexts.PositionFrom | RenderingContext/RenderingContext.cpp:969-983 | the first slot holding the id among the enabled ones, or the count when no slot does |
| RenderingContexts.FindLight | RenderingContext/RenderingContext.cpp:969-983 | the scan loop finds the same slot as the specification |
| RenderingContexts.WithLightEnabled | RenderingContext/RenderingContext.cpp:968-978 | a warning exactly when the id is new and eight lights are enabled; otherwise the id ends up enabled, an enabled id changes nothing, and the ids stay distinct |
| RenderingContexts.WithLightDisabled | RenderingContext/RenderingContext.cpp:980-989 | the id is no longer enabled, exactly one copy of it leaves the multiset of enabled ids, and an absent id changes nothing |
| RenderingContexts.DisableKeepsOthers | RenderingContext/RenderingContext.cpp:984-986 | swapping the last enabled id into the removed slot removes exactly that id |
| RenderingContexts.SwapKeepsMultiset | RenderingContext/RenderingContext.cpp:986 | std::swap of two slots keeps the multiset of the slots |
| RenderingContexts.SwappedSlotsStayDistinct | RenderingContext/RenderingContext.cpp:984-986 | after the swap-and-shrink the enabled ids are still distinct and exclude the removed one |
| RenderingContexts.EnableLightIsIdempotent | RenderingContext/RenderingContext.cpp:968-972 | enabling an id twice equals enabling it once |
| RenderingContexts.NinthLightIsRefused | RenderingContext/RenderingContext.cpp:973-976 | with eight lights enabled a ninth id is refused with a warning and the count stays eight |
| RenderingContexts.DisableUndoesEnable | RenderingContext/RenderingContext.cpp:968-989 | disabling a newly enabled id restores the enabled ids |
| RenderingContexts.LowestFreeFrom | RenderingContext/RenderingContext.cpp:950 | the smallest free id at or after the start, or 256 when there is none |
| RenderingContexts.LowestFree | RenderingContext/RenderingContext.cpp:950 | the first element of the free-id std::set is its smallest member |
| RenderingContexts.LowestFreeExists | RenderingContext/RenderingContext.cpp:950 | a non-empty pool has a smallest id below 256 |
| RenderingContexts.Registered | RenderingContext/RenderingContext.cpp:946-955 | an empty pool yields NO_LIGHT (255) and stays empty; otherwise the smallest free id is leased and removed from the pool |
| RenderingContexts.InitialPool | RenderingContext/RenderingContext.cpp:188-191 | the pool starts with every id except 255 |
| RenderingContexts.IdsBelow | RenderingContext/RenderingContext.cpp:188-191 | the loop inserts exactly the ids below its bound |
| RenderingContexts.LookupKeepsIdsLeased | RenderingContext/RenderingContext.cpp:933-955 | finding or registering a light keeps every registered id out of the free pool |
| RenderingContexts.NewLightGetsUnusedId | RenderingContext/RenderingContext.cpp:933-955 | a new light never shares an id with a registered light while the pool is not empty |
| RenderingContexts.UnregisteredIdIsReissued | RenderingContext/RenderingContext.cpp:933-966 | after unregisterLight the registry keeps its entry, so the next new light is given the same id as the light still registered under it |
| RenderingContexts.Upload | RenderingContext/ParameterCache.cpp:74-81 | a context upload changes the caches exactly as Uploaded says |
| RenderingContexts.NewTargetState | RenderingContext/RenderingContext.cpp:165-175 | the constructor's target state: default parameters, blending counter bumped once, back-face culling and the less-than depth test on |
| RenderingContexts.NewContextCaches | RenderingContext/RenderingContext.cpp:180-186 | the constructor creates exactly the six initial caches |
| RenderingContexts.RenderingContext.constructor | RenderingContext/RenderingContext.cpp:160-192 | the initial target and active states, empty stacks, the six caches and the pool of ids 0..254 |
| RenderingContexts.RenderingContext.ApplyChanges | RenderingContext/RenderingContext.cpp:272-305 | the active state becomes the target, the commands are those of applying the diff, and the four records are published unless apply raised a warning |
| RenderingContexts.RenderingContext.Publish | RenderingContext/RenderingContext.cpp:279-282 | the caches become Published of the current frame viewport, material, light set and enabled textures |
| RenderingContexts.FullObjectCacheRotatesEveryDraw | RenderingContext/RenderingContext.cpp:1174-1181 | with the object cache full, addParameter returns INVALID_INDEX and the draw rotates the storage |
| RenderingContexts.RepeatedApplyIssuesNothing | RenderingContext/RenderingContext.cpp:272-276 | applying a target that equals the active state issues no commands |
| RenderingContexts.RenderingContext.SetBlending | RenderingContext/RenderingContext.cpp:329-331 | the target's blending becomes the argument and its check number is bumped (wrapping at 2^32) |
| RenderingContexts.RenderingContext.PushBlending | RenderingContext/RenderingContext.cpp:325-327 | the current blending is saved on top of the stack |
| RenderingContexts.RenderingContext.PushAndSetBlending | RenderingContext/RenderingContext.cpp:312-315 | push then set: the stack gains the previous blending and the argument becomes current |
| RenderingContexts.RenderingContext.PopBlending | RenderingContext/RenderingContext.cpp:316-323 | the last saved blending is restored (bumping the check number) and dropped, or a warning and no change when the stack is empty |
| RenderingContexts.RenderingContext.SetColorBuffer | RenderingContext/RenderingContext.cpp:356-358 | the target's colour-buffer parameters becomes the argument and nothing else changes |
| RenderingContexts.RenderingContext.PushColorBuffer | RenderingContext/RenderingContext.cpp:347-349 | the current colour-buffer parameters is saved on top of the stack |
| RenderingContexts.RenderingContext.PushAndSetColorBuffer | RenderingContext/RenderingContext.cpp:351-354 | push then set: the stack gains the previous colour-buffer parameters and the argument becomes current |
| RenderingContexts.RenderingContext.PopColorBuffer | RenderingContext/RenderingContext.cpp:338-345 | the last saved colour-buffer parameters is restored and dropped, or a warning and no change when the stack is empty |
| RenderingContexts.RenderingContext.SetCullFace | RenderingContext/RenderingContext.cpp:388-390 | the target's cull-face parameters becomes the argument and nothing else changes |
| RenderingContexts.RenderingContext.PushCullFace | RenderingContext/RenderingContext.cpp:379-381 | the current cull-face parameters is saved on top of the stack |
| RenderingContexts.RenderingContext.PushAndSetCullFace | RenderingContext/RenderingContext.cpp:383-386 | push then set: the stack gains the previous cull-face parameters and the argument becomes current |
| RenderingContexts.RenderingContext.PopCullFace | RenderingContext/RenderingContext.cpp:370-377 | the last saved cull-face parameters is restored and dropped, or a warning and no change when the stack is empty |
| RenderingContexts.RenderingContext.SetDepthBuffer | RenderingContext/RenderingContext.cpp:414-416 | the target's depth-buffer parameters becomes the argument and nothing else changes |
| RenderingContexts.RenderingContext.PushDepthBuffer | RenderingContext/RenderingContext.cpp:405-407 | the current depth-buffer parameters is saved on top of the stack |
| RenderingContexts.RenderingContext.PushAndSetDepthBuffer | RenderingContext/RenderingContext.cpp:409-412 | push then set: the stack gains the previous depth-buffer parameters and the argument becomes current |
| RenderingContexts.RenderingContext.PopDepthBuffer | RenderingContext/RenderingContext.cpp:396-403 | the last saved depth-buffer parameters is restored and dropped, or a warning and no change when the stack is empty |
| RenderingContexts.RenderingContext.GetBoundImage | RenderingContext/RenderingContext.cpp:435-443 | a runtime_error exactly for a unit past MAX_BOUND_IMAGES, else the unit's bound image |
| RenderingContexts.RenderingContext.SetBoundImage | RenderingContext/RenderingContext.cpp:466-468 | a runtime_error and no change past MAX_BOUND_IMAGES, else only that unit's image changes |
| RenderingContexts.RenderingContext.PushBoundImage | RenderingContext/RenderingContext.cpp:445-448 | a runtime_error past MAX_BOUND_IMAGES, else the unit's image is saved on its own stack |
| RenderingContexts.RenderingContext.PushAndSetBoundImage | RenderingContext/RenderingContext.cpp:450-453 | push then set on one unit; the other units' stacks are untouched |
| RenderingContexts.RenderingContext.PopBoundImage | RenderingContext/RenderingContext.cpp:454-463 | a runtime_error past MAX_BOUND_IMAGES; else the unit's last saved image is restored and dropped, or a warning with no change; other units untouched |
| RenderingContexts.RenderingContext.SetLine | RenderingContext/RenderingContext.cpp:536-538 | the target's line parameters becomes the argument and nothing else changes |
| RenderingContexts.RenderingContext.PushLine | RenderingContext/RenderingContext.cpp:527-529 | the current line parameters is saved on top of the stack |
| RenderingContexts.RenderingContext.PushAndSetLine | RenderingContext/RenderingContext.cpp:531-534 | push then set: the stack gains the previous line parameters and the argument becomes current |
| RenderingContexts.RenderingContext.PopLine | RenderingContext/RenderingContext.cpp:518-525 | the last saved line parameters is restored and dropped, or a warning and no change when the stack is empty |
| RenderingContexts.RenderingContext.SetPointParameters | RenderingContext/RenderingContext.cpp:563-565 | the object data's point size becomes the argument and nothing else in it changes |
| RenderingContexts.RenderingContext.PushPointParameters | RenderingContext/RenderingContext.cpp:554-556 | the current point size is saved on top of the stack |
| RenderingContexts.RenderingContext.PushAndSetPointParameters | RenderingContext/RenderingContext.cpp:558-561 | push then set: the stack gains the previous point size and the argument becomes current |
| RenderingContexts.RenderingContext.PopPointParameters | RenderingContext/RenderingContext.cpp:545-552 | the last saved point size is restored and dropped, or a warning and no change when the stack is empty |
| RenderingContexts.RenderingContext.SetPolygonMode | RenderingContext/RenderingContext.cpp:590-592 | the target's polygon-mode parameters becomes the argument and nothing else changes |
| RenderingContexts.RenderingContext.PushPolygonMode | RenderingContext/RenderingContext.cpp:581-583 | the current polygon-mode parameters is saved on top of the stack |
| RenderingContexts.RenderingContext.PushAndSetPolygonMode | RenderingContext/RenderingContext.cpp:585-588 | push then set: the stack gains the previous polygon-mode parameters and the argument becomes current |
| RenderingContexts.RenderingContext.PopPolygonMode | RenderingContext/RenderingContext.cpp:572-579 | the last saved polygon-mode parameters is restored and dropped, or a warning and no change when the stack is empty |
| RenderingContexts.RenderingContext.SetPolygonOffset | RenderingContext/RenderingContext.cpp:617-619 | the target's polygon-offset parameters becomes the argument and nothing else changes |
| RenderingContexts.RenderingContext.PushPolygonOffset | RenderingContext/RenderingContext.cpp:608-610 | the current polygon-offset parameters is saved on top of the stack |
| RenderingContexts.RenderingContext.PushAndSetPolygonOffset | RenderingContext/RenderingContext.cpp:612-615 | push then set: the stack gains the previous polygon-offset parameters and the argument becomes current |
| RenderingContexts.RenderingContext.PopPolygonOffset | RenderingContext/RenderingContext.cpp:599-606 | the last saved polygon-offset parameters is restored and dropped, or a warning and no change when the stack is empty |
| RenderingContexts.RenderingContext.SetScissor | RenderingContext/RenderingContext.cpp:645-647 | the target's scissor parameters becomes the argument and nothing else changes |
| RenderingContexts.RenderingContext.PushScissor | RenderingContext/RenderingContext.cpp:636-638 | the current scissor parameters is saved on top of the stack |
| RenderingContexts.RenderingContext.PushAndSetScissor | RenderingContext/RenderingContext.cpp:640-643 | push then set: the stack gains the previous scissor parameters and the argument becomes current |
| RenderingContexts.RenderingContext.PopScissor | RenderingContext/RenderingContext.cpp:627-634 | the last saved scissor parameters is restored and dropped, or a warning and no change when the stack is empty |
| RenderingContexts.RenderingContext.SetStencil | RenderingContext/RenderingContext.cpp:673-675 | the target's stencil parameters become the argument; the check number is bumped only on a real change |
| RenderingContexts.RenderingContext.PushStencil | RenderingContext/RenderingContext.cpp:669-671 | the current stencil parameters are saved on top of the stack |
| RenderingContexts.RenderingContext.PushAndSetStencil | RenderingContext/RenderingContext.cpp:655-658 | push then set: the stack gains the previous stencil parameters and the argument becomes current |
| RenderingContexts.RenderingContext.PopStencil | RenderingContext/RenderingContext.cpp:660-667 | the last saved stencil parameters are restored and dropped, or a warning and no change when the stack is empty |
| RenderingContexts.RenderingContext.SetFBO | RenderingContext/RenderingContext.cpp:707-709 | the target's frame-buffer object becomes the argument and nothing else changes |
| RenderingContexts.RenderingContext.PushFBO | RenderingContext/RenderingContext.cpp:698-700 | the current frame-buffer object is saved on top of the stack |
| RenderingContexts.RenderingContext.PushAndSetFBO | RenderingContext/RenderingContext.cpp:702-705 | push then set: the stack gains the previous frame-buffer object and the argument becomes current |
| RenderingContexts.RenderingContext.PopFBO | RenderingContext/RenderingContext.cpp:689-696 | the last saved frame-buffer object is restored and dropped, or a warning and no change when the stack is empty |
| RenderingContexts.RenderingContext.SetShader | RenderingContext/RenderingContext.cpp:721-723 | the target's shader becomes the argument and nothing else changes |
| RenderingContexts.RenderingContext.PushShader | RenderingContext/RenderingContext.cpp:725-727 | the current shader is saved on top of the stack |
| RenderingContexts.RenderingContext.PushAndSetShader | RenderingContext/RenderingContext.cpp:729-732 | push then set: the stack gains the previous shader and the argument becomes current |
| RenderingContexts.RenderingContext.PopShader | RenderingContext/RenderingContext.cpp:734-740 | the last saved shader becomes current but stays on the stack (PoppedKeepingTop); an empty stack warns and changes nothing |
| RenderingContexts.RenderingContext.GetTexture | RenderingContext/RenderingContext.cpp:814-816 | the target's texture of the unit, or null past MAX_TEXTURES |
| RenderingContexts.RenderingContext.GetTextureUsage | RenderingContext/RenderingContext.cpp:818-820 | texture mapping exactly when a texture is set on the unit, disabled otherwise |
| RenderingContexts.RenderingContext.SetTexture | RenderingContext/RenderingContext.cpp:845-853 | a different texture is passed to the target (bumping its counter), the unit's usage flag records whether a texture is set, and an out_of_range error past MAX_TEXTURES |
| RenderingContexts.RenderingContext.SetTextureWithUsage | RenderingContext/RenderingContext.cpp:855-857 | a disabled usage binds no texture; otherwise as setTexture |
| RenderingContexts.RenderingContext.PushTexture | RenderingContext/RenderingContext.cpp:822-824 | an out_of_range error past MAX_TEXTURES, else the unit's texture is saved on its own stack |
| RenderingContexts.RenderingContext.PushAndSetTexture | RenderingContext/RenderingContext.cpp:826-829 | push then set on one unit; the other units' stacks and textures are untouched |
| RenderingContexts.RenderingContext.PopTexture | RenderingContext/RenderingContext.cpp:835-843 | an out_of_range error past MAX_TEXTURES; else the unit's last saved texture is restored and dropped, or a warning with no change; other units untouched |
| RenderingContexts.RenderingContext.RegisterLight | RenderingContext/RenderingContext.cpp:946-955 | the pool changes as Registered says and the light is uploaded into its id's slot; with the pool empty, NO_LIGHT and no upload |
| RenderingContexts.RenderingContext.SetLight | RenderingContext/RenderingContext.cpp:957-962 | the id leaves the pool and the light is uploaded into its slot |
| RenderingContexts.RenderingContext.UnregisterLight | RenderingContext/RenderingContext.cpp:964-966 | the id returns to the pool and nothing else changes |
| RenderingContexts.RenderingContext.EnableLightId | RenderingContext/RenderingContext.cpp:968-978 | the light set changes as WithLightEnabled says, warning when it does |
| RenderingContexts.RenderingContext.DisableLight | RenderingContext/RenderingContext.cpp:980-989 | the light set changes as WithLightDisabled says |
| RenderingContexts.RenderingContext.EnableLight | RenderingContext/RenderingContext.cpp:933-944 | a registered light reuses its id and leases nothing; a new light is registered and remembered (NO_LIGHT when the pool is empty); the id is then enabled |
| RenderingContexts.RenderingContext.SetMaterial | RenderingContext/RenderingContext.cpp:1107-1109 | the material becomes current and enabled |
| RenderingContexts.RenderingContext.PushMaterial | RenderingContext/RenderingContext.cpp:1090-1092 | the current material is saved on top of the stack |
| RenderingContexts.RenderingContext.PushAndSetMaterial | RenderingContext/RenderingContext.cpp:1094-1097 | push then set: the stack gains the previous material and the argument becomes current and enabled |
| RenderingContexts.RenderingContext.PopMaterial | RenderingContext/RenderingContext.cpp:1077-1088 | the material state changes as PoppedMaterial says: drop the top, then adopt the new top or disable when none is left; an empty stack warns |
| RenderingContexts.RenderingContext.SetViewport | RenderingContext/RenderingContext.cpp:1132-1135 | the target's viewport and the frame data's copy both become the argument |
| RenderingContexts.RenderingContext.PushViewport | RenderingContext/RenderingContext.cpp:1129-1131 | the current viewport is saved on top of the stack |
| RenderingContexts.RenderingContext.PushAndSetViewport | RenderingContext/RenderingContext.cpp:1137-1140 | push then set: the stack gains the previous viewport and the argument becomes current |
| RenderingContexts.RenderingContext.PopViewport | RenderingContext/RenderingContext.cpp:1121-1128 | the last saved viewport is restored in the target and the frame data and dropped, or a warning and no change |
| RenderingContexts.RenderingContext.BindVertexBuffer | RenderingContext/RenderingContext.cpp:1164-1166 | the binding point gets the buffer, offset, stride and divisor, with the counter bumped; past MAX_VERTEXBINDINGS an out_of_range error after the bump |
| RenderingContexts.RenderingContext.Draw | RenderingContext/RenderingContext.cpp:1174-1181 | applyChanges, then the object data is added and its slot is the draw id; the storage rotates exactly when the draw id reaches slot 511 |
| RenderingContexts.RenderingContext.RecordDraw | RenderingContext/RenderingContext.cpp:1177-1180 | the object data is added to its cache and the storage rotated exactly when the draw id is at least 511 |
| RenderingContexts.RenderingContext.DrawArrays | RenderingContext/RenderingContext.cpp:1174-1181 | the draw call carries the draw id as its base instance; the rotation happens exactly when that id is at least 511 |
| RenderingContexts.RenderingContext.DrawElements | RenderingContext/RenderingContext.cpp:1183-1190 | the indexed draw call carries the draw id as its base instance; the rotation happens exactly when that id is at least 511 |
| MeshIndexDatas.EncodeIndex | Mesh/MeshIndexData.cpp:88-90 | an index is four bytes in the buffer (its uint32_t storage, little-endian) |
| MeshIndexDatas.DecodeEncodeIndex | Mesh/MeshIndexData.cpp:88-114 | decoding the four bytes of an index gives back the index |
| MeshIndexDatas.EncodeIndices | Mesh/MeshIndexData.cpp:88-90 | a run of indices occupies four bytes per index |
| MeshIndexDatas.DecodeIndices | Mesh/MeshIndexData.cpp:113-114 | a run of bytes whose length is a multiple of four holds one index per four bytes |
| MeshIndexDatas.DecodeEncodePrefix | Mesh/MeshIndexData.cpp:88-114 | decoding the bytes of the first k indices gives back those k indices |
| MeshIndexDatas.DecodeEncodeAll | Mesh/MeshIndexData.cpp:88-114 | decoding the bytes of a run of indices gives back the run |
| MeshIndexDatas.Resized | Mesh/MeshIndexData.cpp:61 | std::vector::resize keeps the first n entries and pads with the fill value up to length n |
| MeshIndexDatas.SeqMin | Mesh/MeshIndexData.cpp:70-71 | the minimum is one of the indices and no index is smaller |
| MeshIndexDatas.SeqMax | Mesh/MeshIndexData.cpp:70-72 | the maximum is one of the indices and no index is larger |
| MeshIndexDatas.MinMax | Mesh/MeshIndexData.cpp:70-72 | the minmax_element scan returns exactly the minimum and the maximum |
| MeshIndexDatas.InPlaceUploadAsWritten | Mesh/MeshIndexData.cpp:89-90 | as written, the buffer keeps its length and no byte at or past the view offset (bounded by the data length) changes |
| MeshIndexDatas.InPlaceUpload | Mesh/MeshIndexData.cpp:89-90 | the intended in-place upload places the index bytes at the view's offset and keeps the buffer's length |
| MeshIndexDatas.InPlaceUploadAtOffsetZeroWritesNothing | Mesh/MeshIndexData.cpp:89-90 | as written, the in-place upload at view offset 0 leaves the buffer unchanged, while the intended upload makes the indices readable from it |
| MeshIndexDatas.InPlaceUploadRoundTrip | Mesh/MeshIndexData.cpp:89-114 | after the intended upload, reading the view's elements back gives the uploaded indices |
| MeshIndexDatas.MeshIndexData.constructor | Mesh/MeshIndexData.cpp:26-28 | a view of four-byte elements with no buffer and no elements, range 0..0, not changed |
| MeshIndexDatas.MeshIndexData.Copy | Mesh/MeshIndexData.cpp:31-40 | the copy shares the other's buffer object and window, keeps its range, is marked changed, and copies its local indices or else reads them back from its valid view; with neither it has none |
| MeshIndexDatas.MeshIndexData.ReleaseLocalData | Mesh/MeshIndexData.cpp:43-46 | the local indices are dropped |
| MeshIndexDatas.MeshIndexData.Swap | Mesh/MeshIndexData.cpp:48-57 | indices, range, changed flag and view contents are exchanged; a self-swap changes nothing |
| MeshIndexDatas.MeshIndexData.Allocate | Mesh/MeshIndexData.cpp:59-63 | the view gets count elements, the local array is resized to count padded with the largest uint32_t, and the data is marked changed |
| MeshIndexDatas.MeshIndexData.UpdateIndexRange | Mesh/MeshIndexData.cpp:65-74 | the empty range 1..0 without indices; otherwise the exact minimum and maximum of the indices |
| MeshIndexDatas.MeshIndexData.Upload | Mesh/MeshIndexData.cpp:81-101 | refused without elements or local indices; a too-small or invalid buffer is replaced by one holding the index bytes; otherwise the in-place write as written; a device error drops the buffer and reports false; success clears the changed flag |
| MeshIndexDatas.MeshIndexData.Download | Mesh/MeshIndexData.cpp:104-115 | refused for an invalid or empty view; otherwise the local indices become the decoded elements of the view and the changed flag is cleared |
| MeshBuilders.IndexDataOf | MeshUtils/MeshBuilder.cpp:827-839 | no index data exactly for an empty index list; otherwise the list itself with its exact minimum and maximum |
| MeshBuilders.QuadSplitsAlongDiagonal | MeshUtils/MeshBuilder.cpp:844-854 | addQuad's two triangles walk the quad's four sides in its own order and the diagonal once each way; with four different corners both are proper triangles |
| MeshBuilders.BoxIndicesInRange | MeshUtils/MeshBuilder.cpp:45-60 | the box's faces produce six indices each, all among the new vertices, and every new vertex is used |
| MeshBuilders.BoxTriangles | MeshUtils/MeshBuilder.cpp:45-60 | no triangle of a box is degenerate and all refer to the box's own vertices |
| MeshBuilders.StoredTransformation | MeshUtils/MeshBuilder.cpp:865-871 | setTransformation never stores the identity, and stores nothing exactly for it |
| MeshBuilders.TransformationAsWritten | MeshUtils/MeshBuilder.cpp:862-864 | as written, a stored non-identity matrix never reads back, and with none stored the empty transMat is dereferenced (None) |
| MeshBuilders.GetAfterSetReturnsMatrix | MeshUtils/MeshBuilder.cpp:862-871 | the intended getTransformation returns the matrix last set, the identity included |
| MeshBuilders.GetAfterSetAsWrittenLosesMatrix | MeshUtils/MeshBuilder.cpp:862-864 | as written, a non-identity matrix reads back as the identity, and after setting the identity there is nothing to dereference |
| MeshBuilders.MeshBuilder.constructor | MeshUtils/MeshBuilder.cpp:751-767 | no vertices, no indices, no transformation, and a current vertex of the description's size |
| MeshBuilders.MeshBuilder.NextIndex | MeshUtils/MeshBuilder.cpp:632 | the next index is the vertex count while that fits in uint32_t, and never exceeds it |
| MeshBuilders.MeshBuilder.IsEmpty | MeshUtils/MeshBuilder.cpp:813-816 | an empty builder's next index is 0, and a non-empty one below 2^32 vertices has a non-zero next index |
| MeshBuilders.MeshBuilder.SetCurrentVertex | MeshUtils/MeshBuilder.cpp:771-791 | the vertex being assembled becomes the given record |
| MeshBuilders.MeshBuilder.AddVertex | MeshUtils/MeshBuilder.cpp:803-806 | a copy of the current vertex is appended and its index (the old vertex count, as uint32_t) returned |
| MeshBuilders.MeshBuilder.AddIndex | MeshUtils/MeshBuilder.cpp:808-810 | the index is appended |
| MeshBuilders.MeshBuilder.AddTriangle | MeshUtils/MeshBuilder.cpp:856-860 | the three indices are appended in order |
| MeshBuilders.MeshBuilder.AddQuad | MeshUtils/MeshBuilder.cpp:844-854 | the quad's two triangles idx0-idx1-idx3 and idx1-idx2-idx3 are appended |
| MeshBuilders.MeshBuilder.BuildMesh | MeshUtils/MeshBuilder.cpp:812-842 | an empty builder builds nothing and keeps its state; otherwise the mesh gets the vertices and IndexDataOf the indices, and the builder is cleared |
| MeshBuilders.MeshBuilder.AddBox | MeshUtils/MeshBuilder.cpp:45-60 | the 24 face vertices are appended and the indices gain BoxIndices from the old next index, six quads in uint32_t arithmetic |
| MeshBuilders.MeshBuilder.SetTransformation | MeshUtils/MeshBuilder.cpp:865-871 | the identity clears the stored transformation; any other matrix is stored |
| MeshBuilders.MeshBuilder.GetTransformation | MeshUtils/MeshBuilder.cpp:862-864 | the getter with its test the right way round returns the stored matrix, and storing the result again gives back the stored state |
| MeshBuilders.BoxIndexData | MeshUtils/MeshBuilder.cpp:45-67 | a box built from scratch has 36 indices ranging from 0 to 23 |
| MeshBuilders.CreateBox | MeshUtils/MeshBuilder.cpp:62-67 | the box mesh has the 24 face vertices and the six quads over vertices 0 to 23 |
| MeshBuilders.RectangleIndexData | MeshUtils/MeshBuilder.cpp:403-427 | the rectangle's quad covers exactly vertices 0 to 3 |
| MeshBuilders.CreateRectangle | MeshUtils/MeshBuilder.cpp:403-427 | the rectangle mesh has its four corners and the quad 0-1-2-3 |
| MeshBuilders.RectangleBuilder | MeshUtils/MeshBuilder.cpp:403-425 | the builder holds the four corners in order and the quad 0-1-2-3 |
| MeshBuilders.DiscShape | MeshUtils/MeshBuilder.cpp:251-258 | a disc sector of n segments is a fan of n proper triangles around the centre 0 using all n + 2 vertices |
| MeshBuilders.DiscIndexData | MeshUtils/MeshBuilder.cpp:251-259 | the disc's indices range from 0 to n + 1 |
| MeshBuilders.CreateDiscSector | MeshUtils/MeshBuilder.cpp:238-260 | no mesh for zero segments; otherwise the centre, n + 1 rim vertices and the fan DiscIndices(n) |
| MeshBuilders.Fast8CounterNeverExceeds255 | MeshUtils/MeshBuilder.cpp:252-257 | an 8-bit uint_fast8_t counter is always its increment count modulo 256, so it never exceeds 255 |
| MeshBuilders.RingSectorShape | MeshUtils/MeshBuilder.cpp:207-232 | a ring sector of n segments is a strip of n quads, 2n proper triangles using all 2n + 2 vertices |
| MeshBuilders.RingSectorRange | MeshUtils/MeshBuilder.cpp:207-232 | the ring sector's indices range from 0 to 2n + 1 |
| MeshBuilders.CreateRingSector | MeshUtils/MeshBuilder.cpp:193-236 | no mesh exactly for zero segments or an inner radius not below the outer; otherwise 2n + 2 vertices and RingSectorIndices(n) |
| MeshBuilders.ConeShape | MeshUtils/MeshBuilder.cpp:262-315 | a cone of n segments has n proper triangles with the apex 0 as middle corner, using all n + 1 vertices |
| MeshBuilders.ConeRange | MeshUtils/MeshBuilder.cpp:262-315 | the cone's indices range from 0 to n |
| MeshBuilders.CreateCone | MeshUtils/MeshBuilder.cpp:262-315 | no mesh exactly for fewer than two segments; otherwise n + 1 vertices and ConeIndices(n) |
| MeshBuilders.FrustumShape | MeshUtils/MeshBuilder.cpp:317-380 | a conical frustum of n segments has 2n proper triangles using all 2n vertices |
| MeshBuilders.FrustumRange | MeshUtils/MeshBuilder.cpp:317-380 | the frustum's indices range from 0 to 2n - 1 |
| MeshBuilders.CreateConicalFrustum | MeshUtils/MeshBuilder.cpp:317-380 | no mesh exactly for fewer than two segments; otherwise 2n vertices and FrustumIndices(n) |
| MeshBuilders.HexGridShape | MeshUtils/MeshBuilder.cpp:554-578 | when rows * columns fits in uint32_t, the hexagonal grid's indices are proper triangles over its vertices |
| MeshBuilders.ThreeRowGridHasNoTriangles | MeshUtils/MeshBuilder.cpp:565 | a three-row grid, the smallest accepted, has no inner row and so no triangles |
| MeshBuilders.HexCellTriangles | MeshUtils/MeshBuilder.cpp:563-576 | the triangles added after the vertex of cell (r, c) are HexCell(r, c) |
| MeshBuilders.CreateHexGrid | MeshUtils/MeshBuilder.cpp:542-581 | no mesh exactly for fewer than four columns or three rows; otherwise rows * columns vertices and the cells' triangles |
| MeshBuilders.VoxelResolution | MeshUtils/MeshBuilder.cpp:584-597 | no grid exactly for fewer than four colour components or a height not divisible by the depth; otherwise width, height / depth and depth |
| ConnectivityAccessors.NextOccurrence | MeshUtils/ConnectivityAccessor.cpp:51-66 | the first corner at or after a position naming the vertex, with no such corner before it, or none at all |
| ConnectivityAccessors.NextCorner | MeshUtils/ConnectivityAccessor.cpp:51-66 | the ring successor of a corner names the same vertex and is a later corner or the vertex's first one |
| ConnectivityAccessors.Iterate | MeshUtils/ConnectivityAccessor.cpp:117-120 | walking the ring from a corner stays on corners of the same vertex |
| ConnectivityAccessors.Count | MeshUtils/ConnectivityAccessor.cpp:51-66 | the number of corners of a vertex is at most the number of corners |
| ConnectivityAccessors.RingWalkCounts | MeshUtils/ConnectivityAccessor.cpp:51-66 | the m-th step from a vertex's first corner reaches the corner with m corners of that vertex before it |
| ConnectivityAccessors.RingHasCorners | MeshUtils/ConnectivityAccessor.cpp:51-66 | a used vertex has at least one corner |
| ConnectivityAccessors.RingCloses | MeshUtils/ConnectivityAccessor.cpp:51-66 | a vertex's ring returns to its first corner after exactly as many steps as it has corners |
| ConnectivityAccessors.RingVisitsEveryCorner | MeshUtils/ConnectivityAccessor.cpp:51-66 | every corner lies on the ring of its vertex, reached after as many steps as earlier corners of that vertex |
| ConnectivityAccessors.NewVertexStep | MeshUtils/ConnectivityAccessor.cpp:53-55 | the first corner of a new vertex becomes its first corner and links to itself; no other link changes |
| ConnectivityAccessors.KnownVertexStep | MeshUtils/ConnectivityAccessor.cpp:56-64 | a further corner is linked after the vertex's last corner and back to its first; no other link changes |
| ConnectivityAccessors.BuildConnectivity | MeshUtils/ConnectivityAccessor.cpp:46-66 | the constructor's tables are exactly the first corner of every vertex and the ring successor of every corner |
| ConnectivityAccessors.WalkToLastCorner | MeshUtils/ConnectivityAccessor.cpp:57-62 | the inner walk stops at the vertex's last corner so far |
| ConnectivityAccessors.TriangleInRangeAsWritten | MeshUtils/ConnectivityAccessor.cpp:38-41 | as written, the check agrees with the corrected one whenever tIndex*3 does not wrap |
| ConnectivityAccessors.TriangleRangeWrapAccepts | MeshUtils/ConnectivityAccessor.cpp:38-41 | as written, triangle 0x55555556 passes the range check on six indices because tIndex*3 wraps to 2 |
| ConnectivityAccessors.TriangleInRangeMeansCornersExist | MeshUtils/ConnectivityAccessor.cpp:38-41 | the corrected range check accepts a triangle exactly when its three corners exist |
| ConnectivityAccessors.NextTriangleCornerAsWritten | MeshUtils/ConnectivityAccessor.cpp:122-126 | as written, the step is correct on the corners of triangle 0 |
| ConnectivityAccessors.NextTriangleCornerAsWrittenLeavesTriangle | MeshUtils/ConnectivityAccessor.cpp:122-126 | as written, the next corner after corner 3 is corner 2, which lies in another triangle |
| ConnectivityAccessors.NextTriangleCorner | MeshUtils/ConnectivityAccessor.cpp:122-126 | the corrected next corner is in the same triangle, differs from the corner, and advances its position by one cyclically |
| ConnectivityAccessors.NextTriangleCornerCycles | MeshUtils/ConnectivityAccessor.cpp:122-126 | three steps around a triangle return to the start and two do not |
| ConnectivityAccessors.GetCornerAsWrittenNeverExits | MeshUtils/ConnectivityAccessor.cpp:88-95 | as written, for a vertex with corners none of which is in the triangle, every ring step keeps the loop running |
| ConnectivityAccessors.GetCornerAsWrittenLoopsOnExample | MeshUtils/ConnectivityAccessor.cpp:88-95 | vertex 0 of two disjoint triangles, asked for triangle 1, has a ring of one corner outside triangle 1, so the loop never ends |
| ConnectivityAccessors.ConnectivityAccessor.constructor | MeshUtils/ConnectivityAccessor.cpp:43-67 | the accessor holds the indices, and its tables are exactly the first corner of every vertex (vertex-count entries) and the ring successor of every corner |
| ConnectivityAccessors.ConnectivityAccessor.GetVertexCorner | MeshUtils/ConnectivityAccessor.cpp:97-100 | invalid_argument exactly past the vertex count; otherwise UINT32_MAX for an unused vertex, else a corner naming it with none before it |
| ConnectivityAccessors.ConnectivityAccessor.GetTriangleCorner | MeshUtils/ConnectivityAccessor.cpp:102-105 | invalid_argument exactly when the corrected range check fails; otherwise the triangle's first corner |
| ConnectivityAccessors.ConnectivityAccessor.GetCornerVertex | MeshUtils/ConnectivityAccessor.cpp:107-110 | invalid_argument exactly past the corner count; otherwise the corner's vertex, an existing vertex |
| ConnectivityAccessors.ConnectivityAccessor.GetCornerTriangle | MeshUtils/ConnectivityAccessor.cpp:112-115 | invalid_argument exactly past the corner count; otherwise the triangle containing the corner |
| ConnectivityAccessors.ConnectivityAccessor.GetNextVertexCorner | MeshUtils/ConnectivityAccessor.cpp:117-120 | invalid_argument exactly past the corner count; otherwise the ring successor, a corner of the same vertex that is later or the first one |
| ConnectivityAccessors.ConnectivityAccessor.GetNextTriangleCorner | MeshUtils/ConnectivityAccessor.cpp:122-126 | invalid_argument exactly past the corner count; otherwise another corner of the same triangle (corrected) |
| ConnectivityAccessors.ConnectivityAccessor.GetCorner | MeshUtils/ConnectivityAccessor.cpp:88-95 | invalid_argument exactly for a bad vertex or triangle; otherwise the vertex's corner in the triangle, or UINT32_MAX exactly when it has none there (the walk stops after one lap) |
| ConnectivityAccessors.CornerTriangleRoundTrip | MeshUtils/ConnectivityAccessor.cpp:102-115 | the triangle of a triangle's first corner is that triangle |
| ConnectivityAccessors.VertexCornerOfCornerVertex | MeshUtils/ConnectivityAccessor.cpp:97-110 | the first corner of a corner's vertex is that corner or an earlier one of the same vertex |
| ConnectivityAccessors.NextVertexCornerRing | MeshUtils/ConnectivityAccessor.cpp:97-120 | following getNextVertexCorner from getVertexCorner reaches every corner of the vertex and is back at the start after as many steps as it has corners |
| ConnectivityAccessors.Create | MeshUtils/ConnectivityAccessor.cpp:70-76 | invalid_argument exactly when the mesh is not an indexed triangle mesh; otherwise an accessor over its indices |

## Left out

- Graphics and compute device calls (OpenGL and OpenCL) are not modelled as device effects. Buffer uploads, binds, draws and fence waits become returned command lists, flags or caller-supplied outcomes. A device error is a boolean parameter.
- Floating-point content is left out: matrices, colours, light and material parameters, point sizes, vertex positions and normals. RenderingContext/RenderingParameters.h is not part of this model, so parameter values are opaque, and only their identity and equality matter.
- Shader programs, their uniforms and interface blocks, global uniforms, transform feedback, the matrix stacks and the clear operations of the context are not modelled. They only forward values to the device.
- The texture format conversion (convertImageFormat) and the format selection of glBindImageTexture are left out. They are device-specific tables.
- RenderingContexts.RenderingContext.SetBoundImage: the device half, binding the texture as an image unit, is not modelled. Only the tracked binding is.
- setVertexFormat of the context (RenderingContext.cpp:1148-1162) is left out. It resolves attribute locations through the active shader, which is not modelled. The pipeline-side record is modelled as PipelineStates.PipelineState.SetVertexFormat.
- bindIndexBuffer (RenderingContext.cpp:1168-1170) is left out, as are the vertex array and element bindings it reaches. They are direct device binds with no tracked state in this revision.
- The header and the implementation of this revision disagree in places, and the model follows the .cpp.
  - ParameterCache.h declares a fifth createCache argument, multiBufferCount, which the context passes as 2 for object data. ParameterCache.cpp defines createCache with four arguments, and the model has four.
  - The object data's double buffering is modelled as a StreamBufferView of two generations.
  - addParameter takes the autoResize flag of the .cpp.
  - ParameterCache::swap is declared but never defined, so the per-draw rotation acts on that StreamBufferView.
- addParameter at capacity is taken from the code. Without auto-resize it returns INVALID_INDEX and stores nothing, while the head still advances. It does not wrap to 0.
- Memory/BufferView.h's getOffset adds multiBufferHead times the size. StreamBufferView.cpp instead moves the window with setOffset, so the model's offset is the stored offset.
- MAX_BOUND_IMAGES is not defined in any file of this model. It is a parameter of the context's constructor.
- LightSet.lights and TextureSet entries that the source leaves uninitialised are modelled as 0 and false.
- The default CullFaceParameters(CULL_BACK) is taken as enabled culling of back faces.
- BindingState is not used by this revision of RenderingContext. It is modelled on its own.
- BindingStates.BindingState.constructor: requires LimitsFit, that the device limits fit the fixed-size bitsets and the 8-bit texture and image loop counters. The source does not check this.
- Products of size_t and uint32_t sizes (offsets, byte counts, element positions) are unbounded integers. Only the counters the source lets wrap are modelled with explicit wrap-around (Numeric.Inc32, the stream head, align).
- BufferViews.BufferView.SetValues checks index + count ≤ elementCount without a wrap, which is the intended check. The source adds the two in uint32_t, and the sum can wrap past the check (RangeCheckWrapAccepts, see Findings).
- BufferViews.BufferView.GetValues: the same intended range check as SetValues.
- StreamBufferViews.StreamBufferView.SetValues: the same intended range check, through BufferView.SetValues.
- StreamBufferViews.StreamBufferView.GetValues: the same intended range check, through BufferView.GetValues.
- StreamBufferViews.StreamBufferView.Swap: requires multiBufferCount > 0. A count of 0 makes the source take a remainder by zero, which is undefined behaviour.
- ProgramStates.ProgramState.SetTextureUnitParams takes the unit as an unbounded number. The source's parameter is uint8_t, so a caller's unit of 256 or more wraps to unit mod 256 at the call; the model does not capture that wrap and reports such a unit as out_of_range.
- PipelineStates.PipelineState.SetTexture takes the unit as an unbounded number, as SetTextureUnitParams does. The wrap of a uint8_t unit at the call is not modelled.
- PipelineStates.PipelineState.constructor takes its initial values, check numbers included, from the caller. The source's member initializers set every check number to 0, and the model does not fix that.
- MeshBuilders.MeshBuilder.NextIndex and IsEmpty: getNextIndex and isEmpty are declared in MeshUtils/MeshBuilder.h, which is not part of this model. They are taken to be the vertex count as uint32_t and the absence of vertices.
- ProgramStates.Align: the lemmas about rounding up assume the sum stays below 2^32. Near the top of the range the result wraps (AlignWrapsNearUint32Max).
- The bounds behaviour of the upload and download declared in Memory/BufferObject.h is assumed: a write or read that does not fit the buffer is refused. Their implementation is not part of this model.
- ProgramStates.ProgramState.LightsChanged compares enabled lights by the intended enumeration, NthEnabled. The comparison as written is ProgramStates.ProgramState.LightsChangedAsWritten, and LightsChangedAsWrittenMissesChange shows the change it misses (see Findings).
- RenderingContexts.RenderingContext.GetTextureUsage: requires unit < MAX_TEXTURES. The source indexes the bitset without a check, which is undefined behaviour past the end.
- MeshIndexDatas.MeshIndexData.Upload: requires that the view holds no more elements than the index array. Uploading reads elementCount indices from the array, and reading past its end is undefined behaviour.
- MeshIndexDatas.MeshIndexData.Copy: the copy shares `other`'s buffer object. hasLocalData and isUploaded are declared in Mesh/MeshIndexData.h, which is not part of this model; they are taken to mean that the local indices are non-empty and that the view is valid.
- MeshBuilder's createDome, addSphere, createSphere, createArrow and createMeshFromBitmaps are left out. Their output is floating-point geometry or depends on bitmap pixels.
- MeshBuilders.VoxelResolution: requires depth > 0 when there are at least four components, because the source's height test then divides by zero, which is undefined behaviour; with fewer components the source refuses before dividing, and so does the model. The quad loop of createVoxelMesh is left out, since it tests the alpha of image pixels.
- ConnectivityAccessor's getVertex and getTriangle are left out. They return float positions and a TriangleAccessor, which are not part of this model.
- ConnectivityAccessors.ConnectivityAccessor.constructor: requires IndicesBelow, that every index names an existing vertex. The source writes out of bounds otherwise.
- ConnectivityAccessors.BuildConnectivity: requires IndicesBelow, for the same reason.
- ConnectivityAccessors.Create: requires IndicesBelow, for the same reason.
- unregisterLight keeps the light in the registry, as written. UnregisteredIdIsReissued shows that a later registration of the same parameters gets the same id back.
- popMaterial is modelled as written. It pops, then disables material when the stack is empty and otherwise adopts the new top (PopMaterialAdoptsEarlierSave).
- Concurrency is left out. The fence locks are modelled as values the caller waits on, and no second thread is modelled.

## Findings

| source | as written | input that shows it | evidently intended | confidence | as-written member | corrected member |
|---|---|---|---|---|---|---|
| RenderingContext/ProgramState.h:133-149 | getEnabledLight's second loop re-finds the slot it stands on, so it returns one past the (index-1)-th enabled slot; lightsChanged (lines 172-183) compares through it and can miss a changed light | lights 0 and 2 enabled, index 1: slot 1 (disabled) is read instead of slot 2 | the index-th enabled light | not executed | ProgramStates.GetEnabledLightReadsDisabledSlot (on ProgramStates.AsWrittenEnabledSlot) | ProgramStates.NthEnabled (with ProgramStates.NthEnabledUnique) |
| Memory/BufferView.cpp:62-73 | setValues and getValues test index + count > elementCount with a uint32_t sum, which wraps | index 0xFFFFFFFF, count 2 on a one-element view: the sum wraps to 1 and the access goes ahead far past the view | reject every range that does not lie inside the view | not executed | BufferViews.RangeCheckWrapAccepts | BufferViews.CheckedRangeInBuffer (the check BufferViews.BufferView.SetValues and GetValues make) |
| RenderingContext/RenderingContext.cpp:734-740 | popShader applies the saved top but never pops it | pushAndSet b then c from a, then two pops: b stays active | pop restores the value saved by the matching push, like every other category | not executed | RenderingContexts.NestedShaderScopesDoNotUnwind (on RenderingContexts.PoppedKeepingTop) | RenderingContexts.NestedScopesUnwind (on RenderingContexts.Popped) |
| Mesh/MeshIndexData.cpp:90 | the in-place upload passes the view's offset as the byte count | offset 0: no byte is written | upload the whole index array at the view's offset | not executed | MeshIndexDatas.InPlaceUploadAtOffsetZeroWritesNothing (on MeshIndexDatas.InPlaceUploadAsWritten) | MeshIndexDatas.InPlaceUploadRoundTrip (on MeshIndexDatas.InPlaceUpload) |
| MeshUtils/MeshBuilder.cpp:862-864 | getTransformation returns the identity when a matrix is set and dereferences the empty transMat otherwise | setTransformation(m), then getTransformation: identity instead of m | the set matrix, identity when none is set | not executed | MeshBuilders.GetAfterSetAsWrittenLosesMatrix | MeshBuilders.GetAfterSetReturnsMatrix |
| MeshUtils/MeshBuilder.cpp:252-257 | the uint_fast8_t counter of `segment <= numSegments` wraps from 255 to 0 (createRingSector has the same loop at line 207) | numSegments 255: the loop never ends | visit segments 0 to numSegments once each | not executed (assumes an 8-bit uint_fast8_t) | MeshBuilders.Fast8CounterNeverExceeds255 | MeshBuilders.CreateDiscSector (with MeshBuilders.DiscShape) |
| MeshUtils/ConnectivityAccessor.cpp:122-126 | getNextTriangleCorner adds the triangle index instead of its first corner | corner 3: returns 2, a corner of triangle 0 | 3*(c/3) + (c+1)%3, the next corner of the same triangle | not executed | ConnectivityAccessors.NextTriangleCornerAsWrittenLeavesTriangle | ConnectivityAccessors.NextTriangleCornerCycles (on ConnectivityAccessors.NextTriangleCorner) |
| MeshUtils/ConnectivityAccessor.cpp:38-41 | assertTriangleRange tests tIndex*3 in uint32_t, which wraps | triangle 0x55555556 of a 6-index mesh passes the check | reject every triangle whose corners do not exist | not executed | ConnectivityAccessors.TriangleRangeWrapAccepts | ConnectivityAccessors.TriangleInRangeMeansCornersExist |
| MeshUtils/ConnectivityAccessor.cpp:88-95 | getCorner walks the ring until it finds triangle t, and the ring is circular | vertex 0 of triangles (0,1,2) and (3,4,5), triangle 1: the walk never ends | stop after one lap and answer UINT32_MAX | not executed | ConnectivityAccessors.GetCornerAsWrittenLoopsOnExample (with ConnectivityAccessors.GetCornerAsWrittenNeverExits) | ConnectivityAccessors.ConnectivityAccessor.GetCorner |
