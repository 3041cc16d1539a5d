/** The GPU backend as the core sees it: buffers with a role, a size, usage
    flags and a mapped state; bind-group layouts and bind groups; compiled
    compute pipelines as opaque values; the commands an encoder records; and
    the events the device's queue and the output buffer go through. Nothing
    here executes a shader. */
module Gpu {
  import opened Wrappers

  type byte = b: int | 0 <= b < 256
  type u32 = x: int | 0 <= x < 0x1_0000_0000
  type pos = n: nat | n > 0 witness 1

  /** Workgroup counts (x, y, z) of one dispatch. */
  type Workgroup = (u32, u32, u32)

  /** Which of the pipeline's five buffers a buffer is. */
  datatype Role = Uniform | Scratchpad | Input | Staging | Output

  /** `wgpu::BufferUsages` flags used by the core. */
  datatype Usage = CopySrc | CopyDst | UniformUsage | StorageUsage | MapRead

  /** `wgpu::BufferDescriptor`. */
  datatype BufferDescriptor = BufferDescriptor(
    debugLabel: Option<string>,
    size: nat,
    usage: set<Usage>,
    mappedAtCreation: bool)

  /** `wgpu::BufferBindingType`: a uniform binding, or a storage binding
      that is read-only or read-write. */
  datatype BindingType = UniformBinding | Storage(readOnly: bool)

  /** An entry of a bind-group layout (payload: its binding type) or of a
      bind group (payload: the buffer bound whole at that slot). Every
      layout entry of the core is visible to the compute stage only, with
      no dynamic offset, no minimum binding size and no array count. */
  datatype Entry<P> = Entry(binding: nat, payload: P)

  type LayoutEntry = Entry<BindingType>
  type BindGroupEntry = Entry<Role>

  datatype BindGroupLayout = BindGroupLayout(debugLabel: Option<string>, entries: seq<LayoutEntry>)

  datatype BindGroup = BindGroup(debugLabel: Option<string>, layout: BindGroupLayout, entries: seq<BindGroupEntry>)

  datatype ShaderModule = ShaderModule(debugLabel: Option<string>, source: string)

  datatype PipelineLayout = PipelineLayout(debugLabel: Option<string>, bindGroupLayouts: seq<BindGroupLayout>)

  /** A compiled stage: an opaque token recording what it was built from. */
  datatype ComputePipeline = ComputePipeline(
    debugLabel: Option<string>,
    layout: PipelineLayout,
    shaderModule: ShaderModule,
    entryPoint: string)

  /** What a command encoder records. A compute pass ends when the pass
      object is dropped, which `EndComputePass` marks. */
  datatype Command =
    | BeginComputePass(debugLabel: Option<string>)
    | SetPipeline(pipeline: ComputePipeline)
    | SetBindGroup(index: nat, group: BindGroup)
    | InsertDebugMarker(marker: string)
    | Dispatch(x: u32, y: u32, z: u32)
    | EndComputePass
    | CopyBufferToBuffer(source: Role, sourceOffset: nat, destination: Role, destinationOffset: nat, size: nat)

  /** What the device observes, in order: queue writes and submissions, and
      the read-mapping handshake on a buffer. */
  datatype Event =
    | WriteBuffer(target: Role, offset: nat, data: seq<byte>)
    | Submit(commands: seq<Command>)
    | MapRequest(target: Role)
    | MapCompleted(target: Role, ok: bool)
    | ReadMapped(target: Role)
    | Unmap(target: Role)

  /** How the device answers a read-map request: the mapped bytes, or a
      failure (device lost, out of memory). */
  datatype MapCompletion = Mapped(range: seq<byte>) | MapFailed

  /** Where a buffer stands in the read-mapping handshake: unmapped, with a
      map request outstanding, or mapped and readable by the host. */
  datatype MapPhase = Unmapped | Pending | Readable

  /** One step of the read-mapping handshake on `target`: a request needs
      the buffer unmapped, a completion needs an outstanding request (and
      leaves the buffer readable if it succeeded, unmapped otherwise), a read
      or an unmap needs it readable, and a submission needs it unmapped. */
  function MapStep(e: Event, target: Role, phase: MapPhase): Option<MapPhase>
  {
    match e
    case MapRequest(t) =>
      if t != target then Some(phase) else if phase == Unmapped then Some(Pending) else None
    case MapCompleted(t, ok) =>
      if t != target then Some(phase)
      else if phase == Pending then Some(if ok then Readable else Unmapped)
      else None
    case ReadMapped(t) =>
      if t != target then Some(phase) else if phase == Readable then Some(Readable) else None
    case Unmap(t) =>
      if t != target then Some(phase) else if phase == Readable then Some(Unmapped) else None
    case Submit(_) => if phase == Unmapped then Some(phase) else None
    case WriteBuffer(_, _, _) => Some(phase)
  }

  /** Replays `events` against the handshake phase of the buffer `target`,
      starting from `phase`. None when a step breaks the handshake. */
  function MapState(events: seq<Event>, target: Role, phase: MapPhase): Option<MapPhase>
  {
    if events == [] then Some(phase)
    else
      var next := MapStep(events[0], target, phase);
      if next.None? then None else MapState(events[1..], target, next.value)
  }

  /** A completion that no request preceded breaks the handshake, whatever
      follows it. */
  lemma CompletionNeedsRequest(rest: seq<Event>, target: Role, ok: bool)
    ensures MapState([MapCompleted(target, ok)] + rest, target, Unmapped).None?
  {
    assert ([MapCompleted(target, ok)] + rest)[0] == MapCompleted(target, ok);
  }

  /** Replaying two logs one after the other is replaying the first, then
      the second from where the first left the buffer. */
  lemma {:induction false} MapStateAppend(a: seq<Event>, b: seq<Event>, target: Role, phase: MapPhase)
    ensures MapState(a + b, target, phase) ==
      (match MapState(a, target, phase)
       case None => None
       case Some(m) => MapState(b, target, m))
  {
    if a == [] {
      assert a + b == b;
    } else {
      assert (a + b)[0] == a[0];
      assert (a + b)[1..] == a[1..] + b;
      var next := MapStep(a[0], target, phase);
      if next.Some? {
        MapStateAppend(a[1..], b, target, next.value);
      }
    }
  }

  /** A GPU buffer. Its role and descriptor are fixed at creation; the host
      may read it only between a successful map and the unmap. */
  class Buffer {
    const role: Role
    const desc: BufferDescriptor
    var mapped: bool
    var mappedRange: seq<byte>

    constructor (role: Role, desc: BufferDescriptor)
      ensures this.role == role && this.desc == desc
      ensures mapped == desc.mappedAtCreation && mappedRange == []
    {
      this.role := role;
      this.desc := desc;
      mapped := desc.mappedAtCreation;
      mappedRange := [];
    }

    /** The device reports a successful read mapping of the whole buffer. */
    method CompleteMap(range: seq<byte>)
      requires !mapped && |range| == desc.size
      modifies this
      ensures mapped && mappedRange == range
    {
      mapped := true;
      mappedRange := range;
    }

    /** `get_mapped_range`: only allowed while mapped. */
    method GetMappedRange() returns (view: seq<byte>)
      requires mapped
      ensures view == mappedRange
    {
      view := mappedRange;
    }

    method Unmap()
      requires mapped
      modifies this
      ensures !mapped && mappedRange == []
    {
      mapped := false;
      mappedRange := [];
    }
  }
}
