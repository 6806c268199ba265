# DistRender bookkeeping core, modelled in Dafny

DistRender is a Rust renderer with Vulkan, DirectX 12 and wgpu backends. This project models
the parts of it that do not depend on a backend. Each part is proved against its own
specification:

- **Frame resources** (`resource.dfy`). `FrameResourcePool` is a ring of at least two slots.
  Each slot holds a fence value and an availability flag, and the pool has a cursor that
  wraps. The 256-byte constant-buffer alignment and the element layout of `UploadBuffer` are
  modelled as well.
- **Fences** (`sync.dfy`). The issued and completed counters of `FenceManager`, the ordering
  of `FenceValue`, frame `Timeline` spans and the synchronisation scopes.
- **Command recording** (`command.dfy`). The `CommandEncoder` state machine, which moves
  Initial → Recording → Executable and brackets render passes. The bounded counter of
  `CommandBufferPool`. The descriptor and submit records.
- **Descriptors** (`descriptor.dfy`, `vulkan_descriptor.dfy`, `dx12_descriptor.dfy`).
  - The linear `DescriptorAllocator` keyed by id, with its budget.
  - Handle offset arithmetic and heap statistics.
  - The `DescriptorManager`, which routes each descriptor kind to its allocator.
  - On Vulkan: the type mapping, the binding builder and the layout cache.
  - On DirectX 12: the heap-type mapping, the handle arithmetic of a heap, the heap slots of
    the manager and the order of the shader-visible heaps.
- **Meshes** (`mesh.dfy`, `geometry_vertex.dfy`, `render_vertex.dfy`, `obj_loader.dfy`,
  `loaders.dfy`, `paths.dfy`).
  - `MeshData` validation, with the loops proved equal to a specification function.
  - `Subset` arithmetic.
  - The OBJ loader's merge of several parsed models into one vertex and index buffer, with
    one subset per model.
  - Loader selection by file extension.
  - The conversion of geometry vertices to render vertices.
- **Small state**.
  - The type-tagged component list of `GameObject` (`game_object.dfy`).
  - The handled-flag protocol of the event dispatcher (`event.dfy`).
  - Command-line overrides and validation of the configuration (`config.dfy`).
  - The set-once backend registry (`runtime.dfy`).
  - The input system's key sets and first-mouse bookkeeping (`input.dfy`).
  - The GUI's backend-change flag (`gui_state.dfy`).
  - Error values and their messages (`errors.dfy`, `decimal.dfy`).

Representation choices:
- Rust's fixed-width integers are subset types of `int`, defined in `wrappers.dfy`.
- A debug-build overflow panic becomes a precondition, or the explicit `Panic` outcome where
  the panic is reachable from valid input.
- Floating-point values are `real`.
- Objects that the source mutates in place are classes, with `modifies` clauses on their
  methods.

Three behaviours of the code are worth stating outright:
- `FenceManager::flush` waits on the current fence value. It does not issue a new one.
- `CommandEncoder::begin` starts from the Initial state and also from the Executable state.
- Every misuse of the encoder is reported as `GraphicsError::CommandExecution`. No other
  error kind is used for a wrong state.

## Model

| member | source | states |
|---|---|---|
| Ints.SaturatingSub | src/renderer/sync.rs:185-187 | the difference of two unsigned values, clamped at 0 instead of wrapping |
| Decimal.NatToString | src/gfx/vulkan/descriptor.rs:246-249 | the `{}` text of an unsigned integer is non-empty, all digits, without a leading zero |
| Decimal.ParseU32 | src/core/config.rs:264-276 | `parse::<u32>()` succeeds only on non-empty text (an optional `+` and digits whose value fits in 32 bits) |
| Decimal.DigitsOfNatToString | src/gfx/vulkan/descriptor.rs:246-249 | the digits printed for a number read back as that number |
| Decimal.ParseFormatRoundTrip | src/core/config.rs:264-276 | parsing the printed text of any u32 gives the value back |
| Decimal.ParseExamples | src/core/config.rs:264-276 | empty text, a lone sign, a minus sign and trailing letters are all rejected |
| Errors.Source | src/core/error.rs:156-163 | `source()` is present exactly for an I/O error, and then is that I/O error |
| Errors.FromIoError | src/core/error.rs:170-174 | converting an I/O error gives an error whose source is that I/O error |
| Errors.FromConfigError | src/core/error.rs:176-180 | converting a configuration error gives an error with no source, whatever the payload |
| Errors.FromGraphicsError | src/core/error.rs:182-186 | converting a graphics error gives an error with no source |
| Errors.FromMeshLoadError | src/core/error.rs:188-192 | converting a mesh-loading error gives an error with no source |
| Errors.FindChar | src/core/error.rs:118-129 | the position found is the first occurrence of the character; none means it does not occur |
| Errors.Prefixed | src/core/error.rs:104-116 | a message text starts with its prefix and the rest is the payload |
| Errors.NotPrefixed | src/core/error.rs:104-116 | a text whose prefix differs at some position does not carry another variant's prefix |
| Errors.ConfigTextRoundTrip | src/core/error.rs:118-129 | every configuration error (field without a quote) is recovered from its displayed text |
| Errors.InvalidValueRoundTrip | src/core/error.rs:124-126 | `Invalid value for '<field>': <reason>` determines field and reason when the field has no quote |
| Errors.FirstQuoteEndsField | src/core/error.rs:124-126 | in the invalid-value text the first quote ends the field and `': ` follows it |
| Errors.GraphicsTextRoundTrip | src/core/error.rs:131-141 | every graphics error is recovered from its displayed text |
| Errors.MeshTextRoundTrip | src/core/error.rs:143-154 | every mesh-loading error is recovered from its displayed text |
| Errors.DisplayRoundTrip | src/core/error.rs:104-154 | the displayed text (`Display`) of any engine error (with a quote-free invalid-value field) determines the error |
| Errors.NestedDisplayRoundTrip | src/core/error.rs:104-110 | the text of a wrapped configuration, graphics or mesh error determines the wrapped error |
| Errors.PlainDisplayRoundTrip | src/core/error.rs:109-114 | the text of an I/O, log, initialisation or runtime error determines the error |
| Errors.DisplayInjective | src/core/error.rs:104-154 | two such errors with the same text are the same error |
| Errors.FromConversionsKeepPayload | src/core/error.rs:170-192 | the `From` conversions wrap the error unchanged: its displayed text reads back as the same wrapped error |
| Sync.FenceValue.Next | src/renderer/sync.rs:41-48 | `next` gives the value one above, strictly later in the fence order; `increment` stores that same value in place |
| Sync.FenceOrderingIsTotal | src/renderer/sync.rs:344-353 | the derived fence order is total, antisymmetric and agrees with equality of the counters |
| Sync.FenceManager.constructor | src/renderer/sync.rs:88-93 | a new manager has issued and completed nothing (both counters 0) |
| Sync.FenceManager.NextValue | src/renderer/sync.rs:106-111 | issues the value one above the last issued one, records it as current and leaves the completed counter alone |
| Sync.FenceManager.UpdateCompletedValue | src/renderer/sync.rs:114-116 | stores the reported completed value as is, even a lower one |
| Sync.FenceManager.WaitForValue | src/renderer/sync.rs:126-135 | waiting on a completed value returns `Ok` |
| Sync.FenceManager.Flush | src/renderer/sync.rs:138-141 | waits on the last issued value and returns `Ok` once it has completed |
| Sync.FenceManager.Reset | src/renderer/sync.rs:144-147 | both counters return to 0 |
| Sync.CompletionDownwardClosed | src/renderer/sync.rs:119-121 | once a fence value has completed, every earlier value counts as completed |
| Sync.IsCompletedMeaning | src/renderer/sync.rs:119-121 | `is_completed(v)` holds exactly when the completed counter has reached `v` |
| Sync.FenceManagerScenario | src/renderer/sync.rs:321-342 | the unit test: values 1 and 2 are issued; after completing 1 only 1 is done, after completing 2 both are |
| Sync.Timeline.constructor | src/renderer/sync.rs:171-177 | a timeline starts and ends at the start value, so it spans 0 |
| Sync.Timeline.EndFrame | src/renderer/sync.rs:180-182 | records the end value and keeps the start |
| Sync.Timeline.Duration | src/renderer/sync.rs:185-187 | start plus duration is the end when the end is not before the start, and 0 otherwise |
| Sync.TimelineScenario | src/renderer/sync.rs:355-365 | the timeline test: frame 42 from fence value 100 to 150 lasts 50 |
| Sync.AllCommandsScope | src/renderer/sync.rs:280-285 | waits on and signals only the all-commands stage |
| Sync.GraphicsScope | src/renderer/sync.rs:288-293 | waits on and signals only the all-graphics stage |
| Sync.ColorOutputScope | src/renderer/sync.rs:296-301 | waits on and signals only the colour-output stage |
| Command.CommandBufferDescriptor.WithName | src/renderer/command.rs:97-100 | sets the name and keeps type and usage |
| Command.NewCommandBufferDescriptor | src/renderer/command.rs:88-94 | a descriptor of the given type and usage with no name |
| Command.DirectOneTime | src/renderer/command.rs:103-105 | a descriptor of the direct type and one-time-submit usage, with no name |
| Command.DirectReusable | src/renderer/command.rs:108-110 | a descriptor of the direct type and reusable usage, with no name |
| Command.TransferOneTime | src/renderer/command.rs:113-115 | a descriptor of the transfer type and one-time-submit usage, with no name |
| Command.DescriptorConstructors | src/renderer/command.rs:343-353 | the descriptor test: the shorthands give the stated type, usage and name |
| Command.CommandBufferPool.constructor | src/renderer/command.rs:138-144 | a new pool of the given type and capacity holds no buffers |
| Command.CommandBufferPool.Allocate | src/renderer/command.rs:167-175 | fails with "Command buffer pool is full" exactly when the pool is full, and otherwise counts one more buffer; the count never exceeds the capacity |
| Command.CommandBufferPool.Free | src/renderer/command.rs:178-182 | counts one buffer fewer, never below 0 |
| Command.CommandBufferPool.Reset | src/renderer/command.rs:185-187 | the pool holds no buffers |
| Command.PoolScenario | src/renderer/command.rs:355-375 | the pool test: five allocations fill a pool of five, the sixth fails, a reset empties it |
| Command.CommandEncoder.constructor | src/renderer/command.rs:205-211 | a new encoder is in the initial state with no open render pass |
| Command.CommandEncoder.Begin | src/renderer/command.rs:214-224 | succeeds exactly from Initial or Executable and moves to Recording; otherwise an "Invalid state for begin" error leaves the encoder untouched |
| Command.CommandEncoder.End | src/renderer/command.rs:227-242 | succeeds exactly while recording with no open pass and moves to Executable; the two failures carry their own messages and change nothing |
| Command.CommandEncoder.BeginRenderPass | src/renderer/command.rs:245-266 | opens a pass exactly on a Direct buffer that is recording with no open pass; each refusal has its own message, checked in the source's order |
| Command.CommandEncoder.EndRenderPass | src/renderer/command.rs:269-278 | succeeds exactly when a pass is open; afterwards no pass is open and the state is unchanged |
| Command.CommandEncoder.Reset | src/renderer/command.rs:281-284 | back to Initial with no open pass |
| Command.EncoderScenario | src/renderer/command.rs:377-404 | the state-machine test: a second begin fails, end fails inside a pass, and end after the pass gives Executable |
| Command.ComputeEncoderScenario | src/renderer/command.rs:406-414 | a Compute encoder cannot open a render pass |
| Command.SimpleSubmit | src/renderer/command.rs:321-327 | one command buffer and no semaphores |
| Command.SubmitWithSync | src/renderer/command.rs:330-336 | one command buffer with the given wait and signal semaphore counts |
| Resource.AlignTo256 | src/renderer/resource.rs:75-82 | the aligned size is a multiple of 256, at least the size and less than 256 above it |
| Resource.AlignTo256IsLeast | src/renderer/resource.rs:75-82 | no multiple of 256 that covers the size is smaller than the aligned size |
| Resource.BufferDescriptor.WithName | src/renderer/resource.rs:69-72 | sets the name and keeps size, usage and memory type |
| Resource.BufferDescriptor.AlignedSize | src/renderer/resource.rs:75-82 | constant buffers are rounded up to the next multiple of 256; every other usage keeps its size |
| Resource.NewBufferDescriptor | src/renderer/resource.rs:59-66 | a descriptor with the given size, usage and memory type and no name |
| Resource.AlignmentExamples | src/renderer/resource.rs:385-395 | the alignment test: 100 and 300 byte constant buffers take 256 and 512 bytes, a 100 byte vertex buffer 100 |
| Resource.UploadBuffer.ElementOffset | src/renderer/resource.rs:174-177 | the offset of every valid element leaves room for a whole element inside the buffer |
| Resource.UploadBuffer.Descriptor | src/renderer/resource.rs:180-187 | a host-visible descriptor of the buffer's usage covering its whole size |
| Resource.NewUploadBuffer | src/renderer/resource.rs:132-151 | constant elements are 256-aligned, others keep their size; the total is element size times count |
| Resource.ConsecutiveOffsets | src/renderer/resource.rs:174-177 | consecutive elements lie exactly one element size apart, so elements never overlap |
| Resource.UploadBufferExamples | src/renderer/resource.rs:397-411 | the sizing test: ten 4-byte constants take 256 bytes each (2560 in all), ten vertex elements 40 bytes |
| Resource.FrameResource.MarkInUse | src/renderer/resource.rs:272-275 | the slot becomes unavailable and records the fence value |
| Resource.FrameResource.MarkAvailable | src/renderer/resource.rs:278-280 | the slot becomes available and keeps its fence value |
| Resource.NewFrameResource | src/renderer/resource.rs:263-269 | a new slot is available, with fence value 0 and its own index |
| Resource.NextSlot | src/renderer/resource.rs:352-355 | the next cursor position stays inside the ring |
| Resource.NextSlotWraps | src/renderer/resource.rs:352-355 | advancing moves to the next slot and from the last slot back to 0 |
| Resource.AdvancedByWithinTurn | src/renderer/resource.rs:352-355 | within one turn, advancing n times adds n and wraps past the end at most once |
| Resource.AdvanceFullCircle | src/renderer/resource.rs:352-355 | advancing as many times as there are slots returns the cursor to where it was |
| Resource.Released | src/renderer/resource.rs:358-364 | a slot becomes available exactly when its fence has completed; no slot is made busy and no fence value or index changes |
| Resource.ReleasedIdempotent | src/renderer/resource.rs:358-364 | updating availability twice with the same completed value is updating it once |
| Resource.ReleasedAbsorbs | src/renderer/resource.rs:358-364 | updating up to one completed value and then a later one is updating up to the later one |
| Resource.FrameResourcePool.constructor | src/renderer/resource.rs:302-314 | a pool of at least two slots, each new and carrying its own index, with the cursor at 0 |
| Resource.FrameResourcePool.TripleBuffering | src/renderer/resource.rs:317-319 | a pool of three new slots |
| Resource.FrameResourcePool.DoubleBuffering | src/renderer/resource.rs:322-324 | a pool of two new slots |
| Resource.FrameResourcePool.Get | src/renderer/resource.rs:337-339 | a slot exists exactly for an index below the count, and slot i carries index i |
| Resource.FrameResourcePool.MarkCurrentInUse | src/renderer/resource.rs:332-334 | only the current slot changes, and it becomes in use with the fence value |
| Resource.FrameResourcePool.MarkCurrentAvailable | src/renderer/resource.rs:332-334 | only the current slot changes, and it becomes available |
| Resource.FrameResourcePool.Advance | src/renderer/resource.rs:352-355 | moves the cursor one slot round the ring and returns the new current slot |
| Resource.FrameResourcePool.UpdateAvailability | src/renderer/resource.rs:358-364 | the slots become exactly `Released` of the old slots |
| Resource.FrameResourcePool.NextAvailableFenceValue | src/renderer/resource.rs:369-378 | nothing when the next slot is free; otherwise the fence value it is waiting on |
| Resource.FrameCycling | src/renderer/resource.rs:438-459 | over ten frames, each fence completing two frames later, no frame finds its slot busy, and afterwards every slot is free |
| Descriptor.NamesAreDistinct | src/renderer/descriptor.rs:62-71 | each descriptor kind has its own short name |
| Descriptor.ShaderVisibility | src/renderer/descriptor.rs:51-59 | a kind is shader-visible exactly when it is neither a render-target nor a depth-stencil view |
| Descriptor.DescriptorHeapDescriptor.WithName | src/renderer/descriptor.rs:99-102 | sets the name and keeps kind, size and visibility |
| Descriptor.DescriptorHeapDescriptor.WithShaderVisible | src/renderer/descriptor.rs:105-108 | sets the visibility and keeps kind, size and name |
| Descriptor.NewHeapDescriptor | src/renderer/descriptor.rs:89-96 | a heap of the kind and size with no name, shader-visible exactly when the kind is |
| Descriptor.RtvHeap | src/renderer/descriptor.rs:111-114 | a hidden render-target heap named "RTV Heap" |
| Descriptor.DsvHeap | src/renderer/descriptor.rs:117-120 | a hidden depth-stencil heap named "DSV Heap" |
| Descriptor.SrvCbvUavHeap | src/renderer/descriptor.rs:123-127 | a shader-visible SRV heap named "SRV/CBV/UAV Heap" |
| Descriptor.SamplerHeap | src/renderer/descriptor.rs:130-134 | a shader-visible sampler heap named "Sampler Heap" |
| Descriptor.CpuDescriptorHandle.Offset | src/renderer/descriptor.rs:153-158 | the pointer moves by count times the increment and the index by count |
| Descriptor.GpuDescriptorHandle.Offset | src/renderer/descriptor.rs:177-182 | the pointer moves by count times the increment and the index by count |
| Descriptor.DescriptorHandle.Offset | src/renderer/descriptor.rs:201-206 | moves the CPU handle and, when present, the GPU handle by the same amount; a GPU handle exists afterwards exactly when it did before |
| Descriptor.OffsetComposes | src/renderer/descriptor.rs:153-158 | offsetting by a and then by b is offsetting by a + b |
| Descriptor.OffsetExamples | src/renderer/descriptor.rs:598-612 | the handle tests: 1000 moved 5 slots of 32 is 1160 at index 5; GPU 2000 moved 10 slots is 2320 |
| Descriptor.SlotHandle | src/renderer/descriptor.rs:281-291 | slot i's handle carries index i on the CPU side and, when there is a GPU base, on the GPU side |
| Descriptor.SlotHandleIsOffset | src/renderer/descriptor.rs:281-291 | slot i's handle is the heap's first handle offset by i slots |
| Descriptor.DescriptorAllocator.constructor | src/renderer/descriptor.rs:230-254 | an empty allocator of the given kind, budget, visibility and increment |
| Descriptor.DescriptorAllocator.Allocate | src/renderer/descriptor.rs:257-296 | fails with the budget error when full and with the already-exists error for a known id, changing nothing; otherwise hands out the next slot's handle under the id, counts it, and no earlier descriptor shares its slot |
| Descriptor.DescriptorAllocator.Get | src/renderer/descriptor.rs:299-301 | finds a handle exactly for an allocated id, and it is the one recorded |
| Descriptor.DescriptorAllocator.Free | src/renderer/descriptor.rs:304-306 | reports whether the id was known and forgets it; the allocated count does not go down |
| Descriptor.AllocatorScenario | src/renderer/descriptor.rs:614-663 | the allocator tests: handles at 1000 and 1032, a freed id is gone, and a third allocation in a two-slot heap fails |
| Descriptor.NewHeapStats | src/renderer/descriptor.rs:346-360 | available plus used is the capacity (0 available when over), and the ratio is used over capacity, 0 for an empty heap |
| Descriptor.StatsExample | src/renderer/descriptor.rs:696-704 | the statistics test: 50 of 100 used leaves 50 available at ratio 0.5 |
| Descriptor.SlotOf | src/renderer/descriptor.rs:430-451 | CBV, SRV and UAV descriptors, and only they, go to the shared SRV/CBV/UAV heap |
| Descriptor.StatsOf | src/renderer/descriptor.rs:530-565 | one statistics entry for an initialised heap and none otherwise |
| Descriptor.DescriptorManager.constructor | src/renderer/descriptor.rs:380-387 | no heap is initialised |
| Descriptor.DescriptorManager.Init | src/renderer/descriptor.rs:390-427 | the slot gets a fresh empty allocator of the given budget and increment; the other slots keep theirs |
| Descriptor.DescriptorManager.InitRtv | src/renderer/descriptor.rs:390-397 | a fresh empty render-target allocator; other heaps unchanged |
| Descriptor.DescriptorManager.InitDsv | src/renderer/descriptor.rs:400-407 | a fresh empty depth-stencil allocator; other heaps unchanged |
| Descriptor.DescriptorManager.InitSrvCbvUav | src/renderer/descriptor.rs:410-417 | a fresh empty shared SRV/CBV/UAV allocator; other heaps unchanged |
| Descriptor.DescriptorManager.InitSampler | src/renderer/descriptor.rs:420-427 | a fresh empty sampler allocator; other heaps unchanged |
| Descriptor.DescriptorManager.AllocatorFor | src/renderer/descriptor.rs:454-475 | the allocator of the kind's heap, or the not-initialised error exactly when that heap is missing |
| Descriptor.DescriptorManager.Allocate | src/renderer/descriptor.rs:478-487 | allocates in the kind's heap as the allocator does: the out-of-budget error (count, maximum, kind) when it is full, already-exists for a known id, otherwise the next slot's handle recorded under the id; a missing heap gives the not-initialised error; other heaps are untouched |
| Descriptor.DescriptorManager.Get | src/renderer/descriptor.rs:490-505 | the recorded handle, the not-found error naming id and kind, or the not-initialised error |
| Descriptor.DescriptorManager.Free | src/renderer/descriptor.rs:508-517 | `Ok` exactly when the id was known, which it forgets; otherwise the free-failed error; other heaps untouched |
| Descriptor.DescriptorManager.Stats | src/renderer/descriptor.rs:520-527 | the statistics of the kind's heap, reported under the requested kind |
| Descriptor.DescriptorManager.AllStats | src/renderer/descriptor.rs:530-565 | one entry per initialised heap, in the order RTV, DSV, SRV/CBV/UAV, sampler |
| Descriptor.SharedShaderResourceHeap | src/renderer/descriptor.rs:430-475 | CBV, SRV and UAV ids share one namespace: an id found under one kind is found, with the same handle, under the others |
| Descriptor.ManagerScenario | src/renderer/descriptor.rs:665-694 | the manager test: an RTV allocated at 1000 reads back, the heap reports 1 of 100 used, and it can be freed |
| GeometryVertex.NewVertex | src/geometry/vertex.rs:67-80 | a vertex holds the given position, normal, texture coordinate and tangent |
| RenderVertex.New | src/renderer/vertex.rs:22-28 | the nine numbers become position, normal and colour, three each, in order |
| RenderVertex.FromVectors | src/renderer/vertex.rs:14-20 | building from three vectors is building from their nine components |
| RenderVertex.ConvertGeometryVertex | src/renderer/vertex.rs:41-47 | keeps the mesh vertex's position and normal and colours it white |
| RenderVertex.CreateDefaultTriangle | src/renderer/vertex.rs:31-37 | three vertices |
| RenderVertex.FromVectorsRebuilds | src/renderer/vertex.rs:14-20 | a vertex is rebuilt exactly from its own three vectors |
| RenderVertex.ConvertForgetsTexcoordAndTangent | src/renderer/vertex.rs:41-47 | two mesh vertices convert alike exactly when their positions and normals agree |
| RenderVertex.DefaultTriangleShape | src/renderer/vertex.rs:31-37 | three distinct corners in the z = 0 plane facing +z, coloured red, green and blue |
| RenderVertex.DefaultTriangleIsNotDegenerate | src/renderer/vertex.rs:31-37 | the default triangle's corners are not collinear |
| Mesh.Subset.IndexStart | src/geometry/mesh.rs:76-78 | the first index of the subset is three times its first face |
| Mesh.Subset.IndexCount | src/geometry/mesh.rs:84-86 | the subset's index count is three times its face count |
| Mesh.TruncateU32 | src/geometry/mesh.rs:218 | a length that fits in 32 bits is kept by `as u32` |
| Mesh.FirstIndexOutOfRange | src/geometry/mesh.rs:218-228 | the position of the first index that names no vertex, or none exactly when every index names a vertex |
| Mesh.SubsetFailure | src/geometry/mesh.rs:232-246 | a subset fails exactly when its vertex range or its face range leaves the mesh; the failure names the subset, and it is the vertex-range error exactly when the vertex range is out, so that range is checked first |
| Mesh.FirstSubsetFailure | src/geometry/mesh.rs:231-247 | none exactly when every subset lies inside the mesh; otherwise the failure of the first subset that leaves it |
| Mesh.ValidateAcceptsExactlyWellFormed | src/geometry/mesh.rs:206-249 | validation (`ValidateSpec`) succeeds exactly on meshes (`WellFormed`) of whole triangles whose indices name vertices and whose subsets lie inside the buffers |
| Mesh.SubsetIndicesInBounds | src/geometry/mesh.rs:76-86 | in a valid mesh every subset's index range lies inside the index buffer |
| Mesh.ValidateExamples | src/geometry/mesh.rs:325-356 | the validation tests: a good triangle passes, two indices, an index past the vertices, and subsets past either buffer are rejected |
| Mesh.ValidationMessageInjective | src/geometry/mesh.rs:206-249 | the error text `validate` formats (`ValidationMessage`) names its failure: two failures give the same text exactly when they are the same failure, with the same position, index, vertex count, subset, range and values |
| Mesh.MeshData.constructor | src/geometry/mesh.rs:143-150 | an empty mesh with no name |
| Mesh.MeshData.WithName | src/geometry/mesh.rs:153-161 | an empty mesh with the name |
| Mesh.MeshData.WithCapacity | src/geometry/mesh.rs:168-176 | an empty mesh with no name and no subsets (the reserved capacity is left out, see below) |
| Mesh.MeshData.TriangleCount | src/geometry/mesh.rs:191-193 | the number of whole triangles in the index buffer |
| Mesh.MeshData.Validate | src/geometry/mesh.rs:206-249 | the loops report exactly what `ValidateSpec` reports: the index count first, then the first bad index, then the first bad subset |
| Mesh.MeshData.Clear | src/geometry/mesh.rs:250-255 | every buffer is empty, the name is gone, and the empty mesh validates |
| Mesh.SubsetsAsWritten | src/geometry/mesh.rs:231-247 | the subset loop as written only ever reports a subset failure |
| Mesh.ValidateAsWritten | src/geometry/mesh.rs:206-249 | `validate` as written returns an index error only for a mesh with vertices |
| Mesh.SubsetsAsWrittenAgree | src/geometry/mesh.rs:231-247 | whenever the subset loop as written returns, it returns the corrected answer |
| Mesh.AsWrittenAgreesWhenItReturns | src/geometry/mesh.rs:206-249 | whenever `validate` as written returns, it returns what the corrected validation returns |
| Mesh.SubsetsAsWrittenReturn | src/geometry/mesh.rs:231-247 | on subsets inside the mesh the loop as written does not panic |
| Mesh.WellFormedDoesNotPanic | src/geometry/mesh.rs:206-249 | on a well-formed mesh the code as written does not panic and accepts the mesh |
| Mesh.EmptyMeshPanics | src/geometry/mesh.rs:218-228 | a mesh without vertices and with one triangle makes the code as written panic; the corrected validation reports index 0 |
| Mesh.SubsetEndOverflowPanics | src/geometry/mesh.rs:232-238 | a subset starting at the largest u32 overflows the code as written; the corrected validation rejects the subset |
| Paths.LastIndexOf | src/geometry/loaders/mod.rs:130-131 | the position of the last occurrence of the character, or none exactly when it does not occur |
| Paths.FileName | src/geometry/loaders/mod.rs:130-131 | a path's file name is non-empty, not `.` or `..`, and holds no separator |
| Paths.LastIndexAt | src/geometry/loaders/mod.rs:130-131 | an occurrence with none after it is the last one |
| Paths.SplitAtDot | src/geometry/loaders/mod.rs:130-131 | a split at the last dot gives a non-empty front and a dot-free back that join with a dot into the name; a name with no dot is all back, and `..` or a name whose only dot leads it is all front |
| Paths.Extension | src/geometry/loaders/mod.rs:130-131 | an extension, when there is one, holds neither a dot nor a separator |
| Paths.SplitNameAtDot | src/geometry/loaders/mod.rs:130-131 | `stem.ext` splits into stem and extension when both are non-empty and the extension has no dot |
| Paths.FileNameAfterDirectory | src/geometry/loaders/mod.rs:130-131 | a plain name after a directory ending in a separator is the path's file name |
| Paths.StemAndExtensionOfName | src/geometry/loaders/mod.rs:130-131 | the path `dir/stem.ext` has file stem (`FileStem`) `stem` and extension `ext` |
| Loaders.ToLowerAscii | src/geometry/loaders/mod.rs:133 | the length is kept, no upper-case ASCII letter remains, each upper-case letter becomes its lower-case form and every other character is kept |
| Loaders.LoadMesh | src/geometry/loaders/mod.rs:129-152 | a path without a usable extension or with an unknown one is refused; OBJ files get the OBJ loader's result and FBX files the FBX loader's |
| Loaders.LowerIsIdempotent | src/geometry/loaders/mod.rs:133 | lower-casing twice is lower-casing once, and leaves no upper-case letter |
| Loaders.SelectionIgnoresCase | src/geometry/loaders/mod.rs:129-152 | two extensions that differ only in case choose the same loader |
| Loaders.SelectLoader | src/geometry/loaders/mod.rs:129-152 | the OBJ loader is chosen exactly when the extension lower-cases to "obj", the FBX loader exactly when it lower-cases to "fbx", and every refusal is an unsupported-format error |
| Loaders.ObjFilesGoToObjLoader | src/geometry/loaders/mod.rs:129-152 | `stem.ext` goes to the OBJ loader exactly when the extension is "obj" in any case, to the FBX loader exactly for "fbx", and is otherwise refused naming the lower-cased extension |
| Loaders.DeclaredExtensionsSelectObj | src/geometry/loaders/mod.rs:158-165 | the OBJ loader declares "obj" (its `supported_extensions`, obj_loader.rs:194-196), and a file with any declared extension is routed to the OBJ loader |
| Loaders.NoExtensionExamples | src/geometry/loaders/mod.rs:130-140 | a name without a dot, and a name whose only dot leads it, are refused for lack of an extension |
| ObjLoader.ModelVertices | src/geometry/loaders/obj_loader.rs:86-134 | one vertex per three position values |
| ObjLoader.Positions | src/geometry/loaders/obj_loader.rs:98-102 | three position values per vertex |
| ObjLoader.UnflippedTexcoords | src/geometry/loaders/obj_loader.rs:116-120 | two texture values per vertex, V flipped back |
| ObjLoader.PositionsPrefix | src/geometry/loaders/obj_loader.rs:97-102 | the first n vertices carry the first 3n position values, in order |
| ObjLoader.PositionsRoundTrip | src/geometry/loaders/obj_loader.rs:97-102 | a model's vertices give back its whole position array: no coordinate is lost or moved |
| ObjLoader.TexcoordsPrefix | src/geometry/loaders/obj_loader.rs:116-120 | the first n vertices carry the first 2n texture values with V flipped |
| ObjLoader.TexcoordsRoundTrip | src/geometry/loaders/obj_loader.rs:116-120 | with one texture pair per vertex, flipping V back gives the texture array |
| ObjLoader.MissingAttributesAreZero | src/geometry/loaders/obj_loader.rs:105-126 | without normals or texture coordinates a vertex has zero normal, texture coordinate and tangent |
| ObjLoader.Shifted | src/geometry/loaders/obj_loader.rs:138-140 | one shifted index per index |
| ObjLoader.AssemblePrefix | src/geometry/loaders/obj_loader.rs:69-151 | once a prefix of the models fails or panics, the whole model loop does the same |
| ObjLoader.AssembleStep | src/geometry/loaders/obj_loader.rs:69-151 | the loop (`Assemble`) over k + 1 models is the loop over k models followed by one pass (`AddModel`) for model k |
| ObjLoader.MergedVertices | src/geometry/loaders/obj_loader.rs:69-134 | the merged vertex buffer has one vertex per position triple of every model |
| ObjLoader.MergedIndices | src/geometry/loaders/obj_loader.rs:137-140 | the merged index buffer has every model's indices |
| ObjLoader.MergedSubsets | src/geometry/loaders/obj_loader.rs:143-150 | one subset per model |
| ObjLoader.AssembleClosedForm | src/geometry/loaders/obj_loader.rs:69-151 | when the loop succeeds, its indices fit in u32 and the buffers are the merged vertices, shifted indices and one subset per model |
| ObjLoader.MergedSubsetsStep | src/geometry/loaders/obj_loader.rs:143-150 | the subsets of k + 1 models are those of k models and the subset of model k |
| ObjLoader.MergedVertexAt | src/geometry/loaders/obj_loader.rs:97-134 | vertex i of model k sits right after the vertices of the models before it |
| ObjLoader.MergedIndexAt | src/geometry/loaders/obj_loader.rs:137-140 | index j of model k sits after the earlier models' indices, shifted by the model's first vertex |
| ObjLoader.AppendKeepsWellFormed | src/geometry/loaders/obj_loader.rs:69-151 | appending a well-formed model to a well-formed mesh, within u32, succeeds and keeps the mesh well formed |
| ObjLoader.AssembledMeshIsValid | src/geometry/loaders/obj_loader.rs:69-151 | merging well-formed models that fit in u32 succeeds and yields a mesh that validates |
| ObjLoader.WellFormedFileLoads | src/geometry/loaders/obj_loader.rs:37-184 | an existing file of well-formed models that fit in u32 loads without error, giving the merged buffers |
| ObjLoader.AppendVertices | src/geometry/loaders/obj_loader.rs:97-134 | the vertex loop appends the model's vertices and changes nothing else |
| ObjLoader.AppendIndices | src/geometry/loaders/obj_loader.rs:138-140 | the index loop appends the model's indices shifted by its first vertex and changes nothing else |
| ObjLoader.AppendModel | src/geometry/loaders/obj_loader.rs:70-150 | one pass of the model loop does what `AddModel` specifies: the geometry check, then vertices, indices and subset |
| ObjLoader.LoadFromFile | src/geometry/loaders/obj_loader.rs:37-184 | fails exactly as `LoadSpec` says (missing file, parser error, no model, bad geometry, validation, and the post-processing panics of `PostProcessingPanics`), and otherwise returns the merged buffers under the file stem or "Unnamed" |
| ObjLoader.MergeModels | src/geometry/loaders/obj_loader.rs:69-151 | the model loop leaves the buffers that `Assemble` specifies, or its first error |
| ObjLoader.ValidateLoaded | src/geometry/loaders/obj_loader.rs:172-183 | `ValidatedLoad`: a validation failure becomes a mesh validation error; otherwise the mesh is returned |
| ObjLoader.LoadFromMemory | src/geometry/loaders/obj_loader.rs:186-192 | every byte string is refused as an unsupported format |
| GameObjects.OfType | src/component/game_object.rs:194-202 | only components of the type, never more than the list holds |
| GameObjects.Without | src/component/game_object.rs:102-109 | only components of other types, never more than the list holds |
| GameObjects.FirstIndexOf | src/component/game_object.rs:90 | the position of the first component of the type, or none exactly when there is none |
| GameObjects.Ticked | src/component/game_object.rs:277-295 | one ticked component per component |
| GameObjects.GameObject.constructor | src/component/game_object.rs:40-46 | an enabled object with the name and no components |
| GameObjects.GameObject.WithTransform | src/component/game_object.rs:240-244 | an enabled object holding only a default Transform |
| GameObjects.GameObject.WithCamera | src/component/game_object.rs:247-251 | an enabled object holding only a default Camera |
| GameObjects.GameObject.SetName | src/component/game_object.rs:49-51 | the name changes and nothing else does |
| GameObjects.GameObject.AddComponent | src/component/game_object.rs:72-81 | the component is appended at the end |
| GameObjects.GameObject.RemoveComponent | src/component/game_object.rs:87-96 | reports whether a component of the type existed and removes exactly the first one |
| GameObjects.GameObject.RemoveAllComponents | src/component/game_object.rs:102-109 | keeps only components of other types, in order, and returns how many were removed |
| GameObjects.GameObject.GetComponent | src/component/game_object.rs:127-135 | a component exactly when one of the type is present, and then the one at a position with no component of the type before it |
| GameObjects.GameObject.GetComponentAt | src/component/game_object.rs:169-177 | present exactly when there are more than index components of the type, and then the one of the type with exactly index of the type before it |
| GameObjects.GameObject.GetComponents | src/component/game_object.rs:194-202 | exactly the components of the type, as many as the type count, each at the rank given by the components of the type before it (insertion order) |
| GameObjects.GameObject.ClearComponents | src/component/game_object.rs:233-235 | no components remain; name and enabled flag stay |
| GameObjects.GameObject.GetOrAddTransform | src/component/game_object.rs:256-261 | a Transform is appended only when none exists, and the one returned is the first Transform |
| GameObjects.GameObject.GetOrAddCamera | src/component/game_object.rs:264-269 | a Camera is appended only when none exists, and the one returned is the first Camera |
| GameObjects.GameObject.GetOrAdd | src/component/game_object.rs:256-269 | the fallback is appended only when its type is missing, and the index returned is the type's first component |
| GameObjects.GameObject.Tick | src/component/game_object.rs:277-295 | a disabled object changes nothing; an enabled one ticks each Transform and Camera once |
| GameObjects.FirstIndexIs | src/component/game_object.rs:90 | a component of the type with none before it is the first one |
| GameObjects.OfTypeConcat | src/component/game_object.rs:194-202 | filtering by type distributes over concatenation |
| GameObjects.CountPositiveIffHas | src/component/game_object.rs:216-230 | the type count is positive exactly when `has_component` holds |
| GameObjects.FirstOfTypeIsAtZero | src/component/game_object.rs:127-177 | `get_component` returns the same component as `get_component_at(0)` |
| GameObjects.NoneOfType | src/component/game_object.rs:194-202 | a list with no component of the type filters to nothing |
| GameObjects.AllKept | src/component/game_object.rs:102-109 | removing a type that is absent keeps the list |
| GameObjects.WithoutRemovesExactlyOneType | src/component/game_object.rs:102-109 | `remove_all_components` leaves none of the type, keeps every other type's components and removes as many as there were |
| GameObjects.OfTypeAround | src/component/game_object.rs:87-96 | the filtered list splits around any position |
| GameObjects.OfTypeRank | src/component/game_object.rs:194-202 | a component of the type sits in the filtered list at the rank given by the components of the type before it |
| GameObjects.OfTypeSource | src/component/game_object.rs:169-177 | the k-th entry of the filtered list is a component of the type with exactly k of the type before it |
| GameObjects.OfTypeIsOrderedSelection | src/component/game_object.rs:194-202 | the filtered list holds exactly the components of the type, in insertion order |
| GameObjects.RemoveFirstOfType | src/component/game_object.rs:87-96 | removing the first component of a type drops the head of that type's list |
| GameObjects.RemoveFirstKeepsOtherTypes | src/component/game_object.rs:87-96 | removing a component of one type leaves every other type's components as they were |
| GameObjects.AddIsLastOfType | src/component/game_object.rs:72-81 | an added component becomes the last of its type and other types are untouched |
| GameObjects.RemoveUndoesAdd | src/component/game_object.rs:72-96 | adding the only component of a type and removing that type restores the list |
| GameObjects.WithOneOfIdempotent | src/component/game_object.rs:256-269 | get-or-add twice is the same as once |
| GameObjects.TickKeepsTypes | src/component/game_object.rs:277-295 | ticking keeps every component's type and position |
| GameObjects.TickKeepsCount | src/component/game_object.rs:277-295 | ticking keeps the number of components of each type |
| Events.TypeOf | src/core/event.rs:676-682 | never `None`; a button or key event reports Down exactly when pressed and Up exactly when released |
| Events.Event.constructor | src/core/event.rs:495-502 | a new event carries its data and is not yet handled |
| Events.Event.SetHandled | src/core/event.rs:517-519 | the handled flag takes the given value and the data stay |
| Events.Dispatch | src/core/event.rs:1283-1295 | the handler runs exactly when the event's type matches; its answer is returned and becomes the handled flag; otherwise `false` is returned and the flag stays |
| Events.UnmatchedHandlersKeepFlag | src/core/event.rs:1283-1295 | a chain of dispatches none of whose types match leaves the handled flag as it was |
| Events.LastMatchingHandlerDecides | src/core/event.rs:1283-1295 | after a chain of dispatches the event is handled exactly as the last matching handler answered |
| Events.HandlerCanClearFlag | src/core/event.rs:1288-1291 | a matching handler answering false un-handles an event an earlier handler marked |
| Events.DispatchScenario | src/core/event.rs:1486-1514 | the dispatcher tests: a matching handler's true is returned and marks the event; a mismatched one returns false and leaves it unmarked |
| Events.NameIsInjective | src/core/event.rs:184-198 | two event types have the same name (`Name`) exactly when they are the same type |
| Events.ResizeDetailRoundTrip | src/core/event.rs:509-511 | width and height are read back from a resize event's detail text (`Detail`) |
| Events.PressAndReleaseAreOpposite | src/core/event.rs:1466-1486 | the button and key tests: pressing reports Down and releasing reports Up |
| Events.KeyNameIsInjective | src/core/event.rs:271-318 | the derived `Debug` names of two key codes are equal exactly when the codes are, including `Other(n)` for every u32 code n |
| Events.KeyDetailIdentifiesEvent | src/core/event.rs:972-978 | two keyboard events have the same detail text exactly when they have the same key and the same direction |
| Input.MovementCommands | src/core/input.rs:153-168 | at most one step per movement key, four in all |
| Input.InputSystem.WithConfig | src/core/input.rs:60-72 | nothing held, cursor free, the next move treated as the first, and the configured speed and sensitivity |
| Input.InputSystem.constructor | src/core/input.rs:55-72 | the same with the default speed of 10 and sensitivity of 0.25 |
| Input.InputSystem.OnKeyboardInput | src/core/input.rs:75-90 | a press adds the key and a release removes it; the event is always consumed and nothing else changes |
| Input.InputSystem.OnMouseButton | src/core/input.rs:93-117 | a press adds the button and a release removes it; pressing the right button tries to lock the cursor and releasing it unlocks |
| Input.InputSystem.LockCursor | src/core/input.rs:192-217 | nothing when already locked; otherwise locked exactly when a window grab succeeds |
| Input.InputSystem.UnlockCursor | src/core/input.rs:220-238 | unlocked afterwards, whatever releasing the grab returns |
| Input.InputSystem.OnMouseMove | src/core/input.rs:120-138 | the position, movement and first-move flag become what `MoveStep` gives |
| Input.InputSystem.UpdateCamera | src/core/input.rs:141-150 | issues the movement steps of the held keys and then the rotation of the recorded movement, and clears the movement |
| Input.UpdateTwiceScenario | src/core/input.rs:141-150 | because `update_camera` clears the movement, a second call in the same frame issues only the movement steps, no rotation |
| Input.InputSystem.ResetMouse | src/core/input.rs:241-244 | no movement, and the next move is treated as the first |
| Input.InputSystem.SetMoveSpeed | src/core/input.rs:262-264 | only the movement speed changes |
| Input.InputSystem.SetMouseSensitivity | src/core/input.rs:272-274 | only the mouse sensitivity changes |
| Input.MoveStep | src/core/input.rs:120-138 | the position is recorded and the next move is no longer the first; a first move keeps the movement, a later one is the difference from the last position, with the vertical axis reversed under wgpu |
| Input.FirstMoveOnlyRecords | src/core/input.rs:120-138 | the first move records the position without movement; the next records the difference |
| Input.OppositeKeysCancel | src/core/input.rs:153-168 | holding W and S issues a step back and forth that cancel out |
| Input.OneCommandPerMovementKey | src/core/input.rs:153-168 | exactly one command per held movement key, and keys other than W, A, S and D issue none |
| Input.RotationCommands | src/core/input.rs:171-189 | nothing without the right button or for a zero movement; any rotation is exactly a pitch followed by a yaw |
| Input.RotationNeedsRightButton | src/core/input.rs:171-189 | no rotation without the right button; with it and a real movement, a pitch and a yaw against the movement |
| Input.PressThenReleaseScenario | src/core/input.rs:75-90 | a key pressed and then released leaves the held keys as they were |
| Configuration.BackendPredicatesPartition | src/core/config.rs:309-333 | each backend answers exactly one of `is_dx12`, `is_vulkan`, `is_wgpu`, and two backends share a name (`BackendName`) exactly when they are the same |
| Configuration.IndexOf | src/core/config.rs:263-271 | the position of the first argument equal to the flag, or none exactly when the flag is absent |
| Configuration.Config.Default | src/core/config.rs:122-172 | the default window, graphics and logging settings |
| Configuration.Config.ApplyArgs | src/core/config.rs:245-278 | only the backend and the window's width and height change, as the flags in the arguments say |
| Configuration.WgpuWinsOverDx12 | src/core/config.rs:252-260 | `BackendFromArgs`: `--wgpu` selects wgpu even with `--dx12`; `--dx12` alone selects DirectX 12; neither keeps the backend |
| Configuration.DimensionFlagSetsValue | src/core/config.rs:262-276 | `DimensionFromArgs`: the first `--width` or `--height` followed by a number sets that dimension to the number |
| Configuration.DimensionFlagWithoutNumberKeepsValue | src/core/config.rs:262-276 | a dimension flag at the end, or followed by text that does not parse, changes nothing |
| Configuration.FirstAt | src/core/config.rs:263-271 | `position` finds a flag at its first occurrence, past any arguments that differ from it |
| Configuration.ApplyArgsIsIdempotent | src/core/config.rs:245-278 | applying the same arguments twice is applying them once |
| Configuration.ValidateAcceptsExactly | src/core/config.rs:285-303 | validation (`ValidateSettings`) accepts exactly positive dimensions with 1, 2, 4, 8 or 16 samples; the dimension error is reported first, each with its field and reason |
| Configuration.DefaultScenario | src/core/config.rs:340-356 | the configuration tests: the default is Vulkan at 800 x 600 and validates; with a zero width it does not |
| Runtime.KindOf | src/core/runtime.rs:14-19 | each configured backend is recorded as the kind of the same name |
| Runtime.BackendRegistry.constructor | src/core/runtime.rs:12 | before any initialisation no backend is recorded |
| Runtime.BackendRegistry.Init | src/core/runtime.rs:14-22 | the first call records its backend and later calls change nothing |
| Runtime.FirstInitWins | src/core/runtime.rs:14-26 | after any sequence of initialisations (`AfterInits`) the recorded backend is the first one's, and none without initialisation |
| Runtime.KindOfIsInjective | src/core/runtime.rs:14-19 | distinct backends are recorded as distinct kinds |
| GuiStates.GuiState.constructor | src/gui/state.rs:38-58 | the running and the selected backend are the configured backend's name; frame statistics are zero, FPS shown, no change reported |
| GuiStates.GuiState.UpdatePerformance | src/gui/state.rs:63-66 | writes the two frame statistics and nothing else |
| GuiStates.GuiState.CheckBackendChange | src/gui/state.rs:69-76 | reports whether the selection differs from the running backend and raises, never lowers, the change flag |
| GuiStates.ChangeFlagIsSticky | src/gui/state.rs:69-76 | after a series of checks (`ChangeFlagAfter`) the flag is raised exactly when it was raised before or some check saw a different selection |
| GuiStates.SelectionScenario | src/gui/state.rs:69-76 | a fresh state reports no change; selecting another backend reports one; moving back reports none but the flag stays raised |
| VulkanDescriptor.ToVulkanDescriptorType | src/gfx/vulkan/descriptor.rs:16-28 | only a render-target or depth-stencil view, which has no shader binding, falls back to an input attachment |
| VulkanDescriptor.ShaderVisibleKindsMapApart | src/gfx/vulkan/descriptor.rs:16-28 | two shader-visible kinds get the same Vulkan type exactly when they are the same kind |
| VulkanDescriptor.ToVulkanoBinding | src/gfx/vulkan/descriptor.rs:80-87 | the Vulkan binding has the Vulkan type of the binding's kind and is visible to the same stages |
| VulkanDescriptor.ShorthandBindings | src/gfx/vulkan/descriptor.rs:60-77 | each shorthand makes one descriptor of its kind at the given point and stages; a storage buffer becomes a storage image |
| VulkanDescriptor.BindingMapKeys | src/gfx/vulkan/descriptor.rs:111-116 | the create info's binding map has exactly the given binding points as keys |
| VulkanDescriptor.BindingMapLastWins | src/gfx/vulkan/descriptor.rs:111-116 | each point of the binding map holds the Vulkan type and stages of the last binding given for that point |
| VulkanDescriptor.BindingMapSize | src/gfx/vulkan/descriptor.rs:111-116 | with distinct binding points the map has one entry per binding |
| VulkanDescriptor.BindingMapMeaning | src/gfx/vulkan/descriptor.rs:111-116 | the three facts above together: keys are the points, last binding wins, one entry per binding when points are distinct |
| VulkanDescriptor.NewLayoutKeepsBindings | src/gfx/vulkan/descriptor.rs:111-132 | a layout (`NewLayout`) is made exactly when Vulkan accepts it, otherwise the creation error carries Vulkan's text; it keeps the engine bindings as given, its Vulkan bindings sit at exactly the given points, each with the type and stages of the last binding for that point, one per binding when points are distinct |
| VulkanDescriptor.RepeatedPointKeepsLast | src/gfx/vulkan/descriptor.rs:111-132 | a uniform buffer then a sampler at point 0 give a layout whose only Vulkan binding is the sampler at point 0, while both engine bindings are kept |
| VulkanDescriptor.DescriptorSetBuilder.constructor | src/gfx/vulkan/descriptor.rs:282-286 | a new builder holds no bindings |
| VulkanDescriptor.DescriptorSetBuilder.AddUniformBuffer | src/gfx/vulkan/descriptor.rs:289-293 | appends one uniform-buffer binding and keeps the earlier ones in order |
| VulkanDescriptor.DescriptorSetBuilder.AddStorageBuffer | src/gfx/vulkan/descriptor.rs:296-300 | appends one storage-buffer binding and keeps the earlier ones in order |
| VulkanDescriptor.DescriptorSetBuilder.AddSampledImage | src/gfx/vulkan/descriptor.rs:303-307 | appends one sampled-image binding and keeps the earlier ones in order |
| VulkanDescriptor.DescriptorSetBuilder.AddSampler | src/gfx/vulkan/descriptor.rs:310-314 | appends one sampler binding and keeps the earlier ones in order |
| VulkanDescriptor.DescriptorSetBuilder.AddBinding | src/gfx/vulkan/descriptor.rs:317-320 | appends the given binding and keeps the earlier ones in order |
| VulkanDescriptor.DescriptorSetBuilder.Build | src/gfx/vulkan/descriptor.rs:323-325 | builds exactly when Vulkan accepts the layout, otherwise the creation error; the layout keeps the collected bindings in call order, and its Vulkan bindings sit at exactly their points, each point with the last binding added for it |
| VulkanDescriptor.BuilderScenario | src/gfx/vulkan/descriptor.rs:357-370 | the builder test: three calls give three bindings at points 0, 1 and 2, and the built layout has Vulkan bindings at exactly points 0, 1 and 2, with the sampler at point 2 |
| VulkanDescriptor.LayoutAt | src/gfx/vulkan/descriptor.rs:224-226 | a cached layout (`GetLayout`) is found exactly for an index below the number of layouts, and it is the layout at that index |
| VulkanDescriptor.AllocateFrom | src/gfx/vulkan/descriptor.rs:238-265 | `AllocateDescriptorSet`: an unknown index gives the not-found error, a refused allocation the allocation error, and otherwise a set over the cached layout |
| VulkanDescriptor.VulkanDescriptorManager.constructor | src/gfx/vulkan/descriptor.rs:187-195 | a new manager caches no layout |
| VulkanDescriptor.VulkanDescriptorManager.CreateLayout | src/gfx/vulkan/descriptor.rs:216-221 | a created layout is cached and its index is the previous count; a failed one leaves the cache as it was |
| VulkanDescriptor.CachingKeepsEarlierIndices | src/gfx/vulkan/descriptor.rs:216-226 | caching a layout keeps every earlier index valid and unchanged and makes the new index address the new layout |
| VulkanDescriptor.ManagerScenario | src/gfx/vulkan/descriptor.rs:216-265 | two layouts created on a fresh manager get indices 0 and 1, index 1 finds the second, index 2 is not found, and a failed creation leaves two layouts |
| VulkanDescriptor.LayoutNotFoundNamesIndex | src/gfx/vulkan/descriptor.rs:245-249 | the not-found error identifies the index: two indices give the same error exactly when they are equal |
| Dx12Descriptor.HeapTypeOf | src/gfx/dx12/descriptor.rs:48-55 | constant-buffer, shader-resource and unordered-access views share one heap type; the other kinds each have their own |
| Dx12Descriptor.HeapTypeAgreesWithSlot | src/gfx/dx12/descriptor.rs:48-55 | two kinds get the same heap type exactly when they belong to the same heap of the shared allocator |
| Dx12Descriptor.NewHeapFollowsDescriptor | src/gfx/dx12/descriptor.rs:46-116 | a heap (`NewHeap`) is made exactly when the device creates it; it keeps the descriptor's kind, size and visibility, the device's increment for its heap type, and has a GPU start exactly when shader-visible |
| Dx12Descriptor.SharedHeapTypeSharesIncrement | src/gfx/dx12/descriptor.rs:88 | kinds that share a heap type step their handles by the same increment |
| Dx12Descriptor.CpuHandle | src/gfx/dx12/descriptor.rs:151-156 | the handle of slot `index` lies at or after the heap's CPU start and carries that index |
| Dx12Descriptor.GpuHandle | src/gfx/dx12/descriptor.rs:159-162 | a GPU handle exists exactly when the heap has a GPU start, and lies at or after it with the slot's index |
| Dx12Descriptor.HeapHandlesAreAllocatorHandles | src/gfx/dx12/descriptor.rs:151-162 | a heap's handles are its first handle stepped by `index` increments, the same handles the allocator hands out |
| Dx12Descriptor.HiddenHeapHasNoGpuHandles | src/gfx/dx12/descriptor.rs:96-101 | a heap created without shader visibility has no GPU handle for any slot |
| Dx12Descriptor.VisibleHeapsOrder | src/gfx/dx12/descriptor.rs:289-305 | only existing shader-visible heaps are listed (`VisibleHeaps`), the SRV/CBV/UAV heap before the sampler heap |
| Dx12Descriptor.Dx12DescriptorManager.constructor | src/gfx/dx12/descriptor.rs:197-205 | a new manager has no heaps and no allocators |
| Dx12Descriptor.Dx12DescriptorManager.InitHeap | src/gfx/dx12/descriptor.rs:208-254 | creates one heap and a fresh allocator beside it, or reports the creation error and keeps the slot; the other heaps stay as they were |
| Dx12Descriptor.Dx12DescriptorManager.InitRtvHeap | src/gfx/dx12/descriptor.rs:208-217 | a hidden render-target heap of the given size with a fresh, empty allocator of the heap's size and increment beside it, or the creation error with the slot kept; the other heaps and allocators stay as they were |
| Dx12Descriptor.Dx12DescriptorManager.InitDsvHeap | src/gfx/dx12/descriptor.rs:220-229 | a hidden depth-stencil heap of the given size with a fresh, empty allocator of the heap's size and increment beside it, or the creation error with the slot kept; the other heaps and allocators stay as they were |
| Dx12Descriptor.Dx12DescriptorManager.InitSrvCbvUavHeap | src/gfx/dx12/descriptor.rs:232-242 | a shader-visible SRV/CBV/UAV heap of the given size with a fresh, empty allocator of the heap's size and increment beside it, or the creation error with the slot kept; the other heaps and allocators stay as they were |
| Dx12Descriptor.Dx12DescriptorManager.InitSamplerHeap | src/gfx/dx12/descriptor.rs:245-254 | a shader-visible sampler heap of the given size with a fresh, empty allocator of the heap's size and increment beside it, or the creation error with the slot kept; the other heaps and allocators stay as they were |
| Dx12Descriptor.ManagerScenario | src/gfx/dx12/descriptor.rs:340-348 | the creation test: a new manager has no heap; then only the shader-visible heaps are bound, SRV/CBV/UAV before sampler, and a failed DSV creation leaves that heap missing |

## Left out

- `Config::from_file`, `save_to_file` and `from_file_or_default` (src/core/config.rs): TOML and file-system I/O.
- The tobj parser: its result is an input of `ObjLoader.LoadFromFile`, as a list of parsed models or an error text. Whether the file exists is an input too.
- The FBX loader: its outcome is an input of `Loaders.LoadMesh`.
- ObjLoader.LoadFromFile: the normal and tangent post-processing after assembly is floating-point maths. The model only states that the post-processing keeps the mesh's shape (`SameSurface`).
- Loaders.LoadMesh: extensions are lower-cased for ASCII letters only, and paths use `/` as the only separator. Non-UTF-8 `OsStr` values are not modelled.
- Floating-point rounding: `f32` and `f64` values are `real`. `DescriptorHeapStats::usage_ratio` is therefore the exact quotient, not its rounded `f32` value.
- Events.Detail: only events without floating-point fields have a detail text (mouse, scroll and tick events are excluded). Formatting an `f32` as text is not modelled.
- Sync.FenceManager.WaitForValue: requires the value to have completed already, because the sequential model has no other thread to complete it. The unbounded spin and the atomic memory orderings are not modelled.
- Sync.FenceManager.Flush: inherits the same requirement, that the current fence value has completed, because it waits on that value with `wait_for_value`.
- The Vulkan and DirectX 12 objects are opaque. These are not modelled:
  - COM heaps, vulkano layouts and descriptor sets, and the device calls that create them. Their success or error text is an input.
  - `SetName` on a heap.
  - Vulkan binding fields other than the descriptor type and the stages.
  - Descriptor set writes.
- Mesh.MeshData.WithCapacity: `Vec` capacity is not modelled. The source's `with_capacity` reserves room for the given numbers of vertices and indices, and its test reads that room back through `capacity()`; the model keeps only the contents, which start empty.
- VulkanDescriptor.BindingMap: the create info's `BTreeMap` is a Dafny `map`, which has no iteration order; the source's map iterates in binding-point order, which the keys alone determine.
- VulkanDescriptor: `usize` layout indices are `nat`. A `Vec` that runs out of capacity is not modelled.
- `usize` is taken to be 64 bits wide, as on the 64-bit targets the renderer builds for. Pointer sums in handle arithmetic are bounded by that width.
- GuiStates.GuiState.constructor: the scene-derived fields are left out. The clear colour and the light read `SceneConfig` fields (`clear_color`, `light`) that the scene module does not define. The camera's field of view and clip distances and the model's position, rotation and scale are `f32` values copied from the scene, left out like the other floating-point state.
- `GraphicsBackend::Metal`: referenced outside the configuration but not defined by it, so it is not modelled.
- GameObjects.GameObject.Tick: a component's state is a `nat` that counts the ticks it receives. `Transform::tick` has an empty body, so the count is all there is to it. The Camera's tick also recomputes a stale view matrix, which is floating-point maths and is left out. Type-name strings are not modelled.
- Input.InputSystem.UpdateCamera: the camera is a list of the movement and rotation commands it receives. Window cursor grabbing and the backend are inputs.
- The concrete renderers, device and window setup, the GUI process and its shared-memory channel, logging, and the event loop are not part of this model.

## Findings

| source | as written | input that shows it | evidently intended | confidence | as-written member | corrected member |
|---|---|---|---|---|---|---|
| src/geometry/mesh.rs:215-225 | the out-of-range error message computes `vertex_count - 1` in `u32` | a mesh with no vertices and indices `[0, 0, 0]`: the subtraction underflows and the debug build panics | report index 0 as out of range | not executed | Mesh.EmptyMeshPanics | Mesh.ValidateSpec |
| src/geometry/mesh.rs:229-236 | the subset check adds `vertex_start + vertex_count` in `u32` | a subset with `vertex_start` = 4294967295 and `vertex_count` = 1: the sum overflows and the debug build panics | report the subset as out of range | not executed | Mesh.SubsetEndOverflowPanics | Mesh.ValidateSpec |
