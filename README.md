# sgpu-compute in Dafny

A model of the core of sgpu-compute, `src/lib.rs`. This crate runs
multi-stage WGSL compute shaders over typed host buffers.

- `GpuComputeAsync::gen_pipeline` allocates the buffer set: an optional
  uniform buffer, an optional scratchpad, and the input, staging and output
  buffers. It collects the bind-group layout entries and the bind-group
  entries from two option chains in the role order Uniform, Scratchpad,
  Input, Staging. It renumbers both lists in place from 0 and compiles one
  compute pipeline per stage against the one shared layout.
- `PipelineAsync::write_uniform` enqueues a write of the uniform's bytes.
  It panics with "No uniforms" when the Uniform type is zero-sized.
- `PipelineAsync::run` does the following, in order:
  - writes the input;
  - records one compute pass per stage, in index order (set pipeline, set
    bind group 0, insert debug marker, dispatch);
  - records the staging-to-output copy;
  - submits once;
  - maps the output buffer for reading, hands the mapped bytes to the
    callback, unmaps, and returns the callback's result.

The GPU is abstracted:

- The device (`Compute.GpuCompute`) keeps a log of what it was asked to do
  (`Gpu.Event`): queue writes, submissions of a command list
  (`Gpu.Command`), and the read-mapping handshake on a buffer.
- Buffers (`Gpu.Buffer`) are objects with a role, a descriptor and a
  mapped flag.
- Compiled pipelines are values recording what they were built from.
- How the device answers the map request is a parameter (`Gpu.MapCompletion`).
- The source's panics (`expect`) become `Failure` results that carry the
  panic message.

Modules, one file each:

- `Wrappers` (`wrappers.dfy`): Option and Result.
- `Format` (`format.dfy`): decimal printing of a stage index.
- `Gpu` (`gpu.dfy`): device-side values, the map handshake and the `Buffer`
  class.
- `Layout` (`layout.dfy`): the binding-layout builder and the in-place
  renumbering.
- `BufferSet` (`buffers.dfy`): buffer descriptors.
- `Encoding` (`encoding.dfy`): the commands and events of one run.
- `Compute` (`compute.dfy`): the `GpuCompute` and `Pipeline` classes.

Three details of `run` that the model follows as the code has them:

- Each pass sets the stage's pipeline, then bind group 0 (lib.rs:374-375).
- Nothing unmaps the output buffer if the callback panics (lib.rs:399-402).
  The model's callback is a total function; see "## Left out".
- A failed map panics with "Could not map buffer" (lib.rs:395). The model
  returns `Failure("Could not map buffer")`; see "## Left out".

## Model

| member | source | states |
|---|---|---|
| Wrappers.OptionToSeq | src/lib.rs:179-191 | An option's iterator yields at most one element: exactly one, its value, when the option is `Some`. |
| Format.NatToString | src/lib.rs:379 | `format!("{}", i)` of an index is a non-empty string of decimal digits. |
| Format.ParseNatToString | src/lib.rs:379 | Reading the printed index back as a decimal number gives the index. |
| Format.NatToStringInjective | src/lib.rs:379 | Different indices print differently. |
| Gpu.MapStateAppend | src/lib.rs:390-402 | Replaying the read-mapping handshake (unmapped, request pending, readable) over two logs in sequence is replaying the second from the phase the first ends in. A broken handshake stays broken. |
| Gpu.CompletionNeedsRequest | src/lib.rs:392-398 | A map completion on an unmapped buffer with no request outstanding breaks the handshake, whatever follows. |
| Gpu.Buffer.constructor | src/lib.rs:143-177 | A created buffer has its role and descriptor, is mapped exactly when its descriptor says so, and holds no mapped range. |
| Gpu.Buffer.CompleteMap | src/lib.rs:392-398 | A completed read-map of the whole buffer (as many bytes as its size) makes an unmapped buffer mapped, holding the device's bytes. |
| Gpu.Buffer.GetMappedRange | src/lib.rs:399-401 | A mapped buffer's view is exactly the bytes the map delivered. |
| Gpu.Buffer.Unmap | src/lib.rs:402 | Unmapping a mapped buffer leaves it unmapped with no range. |
| Layout.Renumber | src/lib.rs:223-226 | The in-place loop leaves the array equal to the reference renumbering: position i has binding i and keeps its payload. |
| Layout.BindGroupItemsFollowRoleOrder | src/lib.rs:228-247 | The bind-group option chain binds exactly the present roles, in the fixed order Uniform, Scratchpad, Input, Staging. |
| Layout.LayoutItemsFollowRoleOrder | src/lib.rs:179-222 | The layout option chain has one entry per present role, in the same order. Each entry has its role's binding type: uniform; storage read-write for Scratchpad and Staging; storage read-only for Input. |
| Layout.LayoutAgreesWithBindGroup | src/lib.rs:179-251 | After renumbering, the layout and the bind group have the same length. In both, position i has binding i. The bind group binds a present role there, never Output, and the layout gives it that role's binding type. |
| Layout.SlotCount | src/lib.rs:179-247 | There are 2 + (uniform present) + (scratchpad present) slots, so two to four. |
| Layout.SlotOfRole | src/lib.rs:179-247 | Every bound role sits at exactly one slot, the closed-form index. Input and Staging are the last two slots, Staging right after Input, whatever else is present. |
| BufferSet.Describe | src/lib.rs:142-177 | The uniform buffer exists iff the Uniform size is non-zero, with that size. The scratchpad exists iff a size was given, with that positive size. Input has the Input size; Staging and Output have the Output size. The output carries the corrected label "Output buffer" (see "## Left out"). |
| BufferSet.BoundBuffersSuitLayout | src/lib.rs:142-221 | Every role the layout binds has a buffer, created with the usage flag its binding type needs. |
| BufferSet.HostAccess | src/lib.rs:142-177 | Only Output is map-readable. Uniform, Input and Output accept copies in. Staging can be copied out. Staging and Output have the same size, so the readback copy covers the output. |
| BufferSet.OutputLabelAsWrittenRepeatsStaging | src/lib.rs:166-177 | As written, the output buffer carries the staging buffer's label, although its usage differs. |
| BufferSet.BufferLabelsDistinct | src/lib.rs:142-177 | With the corrected output label, the buffers of a pipeline have pairwise distinct labels. |
| Compute.CompileStages | src/lib.rs:265-305 | Exactly one compiled pipeline per stage descriptor, so "Wrong length?" cannot happen. Pipeline i has descriptor i's entry point and shader source, under a pipeline layout holding only the shared bind-group layout. |
| Compute.CreateBuffers | src/lib.rs:142-177 | The allocated buffers are fresh, play their roles, have the descriptors `Describe` gives, and the output starts unmapped with no mapped range. |
| Compute.RenumberedCopy | src/lib.rs:222-226 | Collecting entries into a fresh array and renumbering it in place yields the reference renumbering. |
| Compute.BuildBindGroup | src/lib.rs:179-263 | The global layout and bind group hold the renumbered layout and bind-group entries, under their labels. |
| Compute.GpuCompute.constructor | src/lib.rs:76-79 | A new device has an empty log. |
| Compute.GpuCompute.WriteBuffer | src/lib.rs:327-330 | A queue write appends exactly that write to the device log. |
| Compute.GpuCompute.Submit | src/lib.rs:390 | A submission appends exactly that command list to the device log. |
| Compute.GpuCompute.Observe | src/lib.rs:392-402 | A map-handshake step appends exactly that event to the device log. |
| Compute.GpuCompute.GenPipeline | src/lib.rs:132-319 | The new pipeline and its output buffer are fresh. Its buffers have the descriptors `Describe` gives. Its layout and bind group hold the renumbered lists, and its stages are the descriptors compiled against that layout. It is ready to run, with the output unmapped. |
| Compute.Pipeline.constructor | src/lib.rs:307-318 | The pipeline holds exactly the buffers, bind group, stages, descriptors and device it is given. |
| Compute.Pipeline.WriteUniform | src/lib.rs:326-331 | Fails with "No uniforms", logging nothing, exactly when the Uniform size is 0. Otherwise it logs one write of the value's bytes at offset 0 of the uniform buffer. |
| Compute.Pipeline.ReadOutput | src/lib.rs:394-403 | After a successful map of the whole output buffer (`size_of::<Output>()` bytes), the callback gets exactly those bytes and its result is returned unchanged. The log gains map completion, read and unmap, in that order. The output ends unmapped with no mapped range. |
| Compute.Pipeline.Run | src/lib.rs:352-404 | The log gains exactly the run's events: input write, one submission of the encoded commands, map request, then either the failed completion, or completion, read and unmap. A failed map returns "Could not map buffer". A successful one, delivering the whole Output-sized buffer, returns the callback's result on those bytes. The output ends unmapped with no mapped range. |
| Encoding.EncodeRun | src/lib.rs:361-389 | The encoding loop records exactly the reference command list: the passes of stages 0..N-1 in index order, then the readback copy. |
| Encoding.EncodeLength | src/lib.rs:365-382 | N passes are 6N commands. |
| Encoding.PassAt | src/lib.rs:365-382 | Pass i is exactly commands 6i to 6i+5. |
| Encoding.CommandAt | src/lib.rs:365-382 | Command k of the passes is command k mod 6 of stage k div 6's pass. |
| Encoding.StageCommands | src/lib.rs:366-381 | Stage i's pass opens a compute pass labelled by the stage name and sets stage i's pipeline, then bind group 0 to the shared group. It inserts the stage's debug marker, dispatches workgroups[i] and ends the pass. |
| Encoding.CommandKinds | src/lib.rs:365-389 | The submission has 6N + 1 commands. Dispatches, pipeline bindings and bind-group bindings occur only at offsets 4, 1 and 2 of a pass. A copy occurs only at the end. |
| Encoding.DispatchesInStageOrder | src/lib.rs:365-382 | Each dispatch belongs to stage k div 6, so dispatches follow stage order. It dispatches that stage's workgroup counts, three commands after the stage's own pipeline and two after the shared bind group at index 0. |
| Encoding.SingleReadbackCopyLast | src/lib.rs:383-390 | The last submitted command is the copy of the whole Output size from Staging to Output, and it is the only copy. |
| Encoding.UnnamedMarkersDistinct | src/lib.rs:376-380 | Unnamed stages at different indices get different "sgpu-<i>" debug markers. |
| Encoding.RunKeepsHandshake | src/lib.rs:390-403 | The events of one run keep the handshake from an unmapped output: the one completion answers the one request, the output is read only while mapped, and it ends unmapped. It is read iff the map succeeded. |
| Encoding.RunsCompose | src/lib.rs:352-404 | Runs in sequence keep the handshake, each leaving the output unmapped for the next. |

## Left out

- `GpuComputeAsync::new` (adapter and device acquisition) is not modelled. The device is a log of requests.
- WGSL compilation and shader execution are not modelled. A compiled pipeline is a value recording its source. What the shaders write into Staging, and so the bytes the output map delivers, is the map completion parameter of `Run`.
- The async machinery is not modelled: the flume channel, `poll(Maintain::Wait)` and the "Error with channel" panic. Map completion is a parameter.
- `dbg_print_scratchpad` is not modelled; it is a debug aid outside the data path.
- bytemuck is not modelled. `bytes_of` is taken as giving exactly `size_of` bytes, a precondition on the byte lengths. The size and alignment checks of `from_bytes` are absent: the callback receives raw bytes.
- `blocking.rs`, `prelude.rs` and `primitive_number.rs` are not part of this model, and neither are the tests, benches and examples.
- The fixed layout-entry fields are not represented: compute-only visibility, no dynamic offset, no minimum binding size, no count. Nor are the empty push-constant ranges, the absent timestamp writes or the unlabelled command encoder.
- Buffer sizes and binding indices are unbounded naturals. The source's `as _` casts to u64 and u32 cannot overflow for the sizes and the at most four bindings involved.
- A panicking callback is not modelled. The callback is a total function, so the source's failure to unmap the output after a panic (lib.rs:399-402) is not captured.
- Compute.Pipeline.Run: a failed map is a panic in the source (lib.rs:395). The model returns `Failure("Could not map buffer")` instead, because a panic cannot be a method's result.
- Compute.Pipeline.WriteUniform: a missing uniform buffer is a panic in the source (lib.rs:328). The model returns `Failure("No uniforms")` instead.
- BufferSet.Describe: gives the output buffer the corrected label "Output buffer", not the "Staging buffer" that lib.rs:173 writes (see "## Findings"). `Compute.CreateBuffers` and `Compute.GpuCompute.GenPipeline` therefore build that corrected descriptor. `BufferSet.OutputDescriptorAsWritten` keeps the label as written.
- Compute.CompileStages: the contract does not state the debug labels of the shader, pipeline layout and pipeline. Those labels are only defined by `Compute.CompileStage`.
- Compute.Pipeline.WriteUniform: does not model the write reaching the buffer's contents, because buffer contents live on the device.
- Layout.KeepBound: its contract states only a length bound. The slot list it builds is characterised by `Layout.SlotRolesClosedForm` and the lemmas over `Layout.SlotRoles`.

## Findings

| source | as written | input that shows it | evidently intended | confidence | as-written member | corrected member |
|---|---|---|---|---|---|---|
| src/lib.rs:172-177 | The output buffer is created with the debug label "Staging buffer", the same label as the staging buffer. | Any pipeline: `OutputDescriptorAsWritten(n).debugLabel == StagingDescriptor(n).debugLabel` for every output size n, proved by `BufferSet.OutputLabelAsWrittenRepeatsStaging`. | The label "Output buffer", so every buffer of a pipeline has its own label (`BufferSet.BufferLabelsDistinct`). | medium, not executed | BufferSet.OutputDescriptorAsWritten | BufferSet.OutputDescriptor |
