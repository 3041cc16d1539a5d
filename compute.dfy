/** The pipeline protocol of lib.rs: `GpuComputeAsync` (the device and its
    queue), `gen_pipeline`, and `PipelineAsync` with `write_uniform` and
    `run`. */
module Compute {
  import opened Wrappers
  import opened Gpu
  import opened Layout
  import opened BufferSet
  import opened Encoding

  /** A debug label "<prefix><name>" for a named stage, none otherwise. */
  function StageLabel(prefix: string, desc: StageDesc): Option<string>
  {
    match desc.name
    case None => None
    case Some(n) => Some(prefix + n)
  }

  /** One stage compiled against the shared layout (lib.rs:267-301): its
      own shader module and entry point, a pipeline layout holding only the
      shared bind-group layout. */
  function CompileStage(desc: StageDesc, layout: BindGroupLayout): ComputePipeline
  {
    ComputePipeline(
      StageLabel("Compute pipeline for stage ", desc),
      PipelineLayout(StageLabel("Compute pipeline layout for stage ", desc), [layout]),
      ShaderModule(StageLabel("Shader for stage ", desc), desc.shader),
      desc.entrypoint)
  }

  /** `try_into::<[_; N]>().expect("Wrong length?")`. */
  function IntoArray<X>(v: seq<X>, n: nat): Result<seq<X>, string>
  {
    if |v| == n then Success(v) else Failure("Wrong length?")
  }

  /** The stages of a pipeline: exactly one compiled stage per descriptor,
      stage i built from stages[i] against the one shared layout, so the
      "Wrong length?" failure cannot occur. */
  function CompileStages(stages: seq<StageDesc>, layout: BindGroupLayout): (r: Result<seq<ComputePipeline>, string>)
    ensures r.Success? && |r.value| == |stages|
    ensures forall i :: 0 <= i < |stages| ==>
      r.value[i].entryPoint == stages[i].entrypoint &&
      r.value[i].shaderModule.source == stages[i].shader &&
      r.value[i].layout.bindGroupLayouts == [layout]
  {
    IntoArray(seq(|stages|, i requires 0 <= i < |stages| => CompileStage(stages[i], layout)), |stages|)
  }

  function DescriptorOfBuffer(b: Option<Buffer>): Option<BufferDescriptor>
  {
    match b
    case None => None
    case Some(buf) => Some(buf.desc)
  }

  /** The buffer allocation of `gen_pipeline` (lib.rs:142-177): the
      optional uniform and scratchpad buffers and the input, staging and
      output buffers, each fresh and created unmapped. */
  method CreateBuffers(sizes: TypeSizes, scratchpadSize: Option<pos>)
    returns (uniform: Option<Buffer>, scratchpad: Option<Buffer>, input: Buffer, staging: Buffer, output: Buffer)
    ensures uniform.Some? ==> fresh(uniform.value) && uniform.value.role == Uniform
    ensures scratchpad.Some? ==> fresh(scratchpad.value) && scratchpad.value.role == Scratchpad
    ensures fresh(input) && fresh(staging) && fresh(output)
    ensures input.role == Input && staging.role == Staging && output.role == Output
    ensures BufferSet.Descriptors(DescriptorOfBuffer(uniform), DescriptorOfBuffer(scratchpad), input.desc, staging.desc, output.desc)
            == Describe(sizes, scratchpadSize)
    ensures !output.mapped && output.mappedRange == []
  {
    uniform := None;
    if sizes.uniform > 0 {
      var b := new Buffer(Uniform, UniformDescriptor(sizes.uniform).value);
      uniform := Some(b);
    }
    scratchpad := None;
    if scratchpadSize.Some? {
      var b := new Buffer(Scratchpad, ScratchpadDescriptor(scratchpadSize).value);
      scratchpad := Some(b);
    }
    input := new Buffer(Input, InputDescriptor(sizes.input));
    staging := new Buffer(Staging, StagingDescriptor(sizes.output));
    output := new Buffer(Output, OutputDescriptor(sizes.output));
  }

  /** Collects entries into a fresh array and renumbers them in place, as
      `gen_pipeline` does for both entry lists. */
  method RenumberedCopy<P>(items: seq<Entry<P>>) returns (r: seq<Entry<P>>)
    ensures r == Renumbered(items)
  {
    var entries := new Entry<P>[|items|](i requires 0 <= i < |items| => items[i]);
    assert entries[..] == items;
    Renumber(entries);
    r := entries[..];
  }

  /** The layout and bind-group assembly of `gen_pipeline` (lib.rs:179-251):
      the entries of the buffers present, in role order, renumbered in place
      from 0, under the one global layout and bind group. */
  method BuildBindGroup(hasUniform: bool, hasScratchpad: bool) returns (group: BindGroup)
    ensures group.layout.entries == FinalLayout(hasUniform, hasScratchpad)
    ensures group.entries == FinalBindGroup(hasUniform, hasScratchpad)
    ensures group.debugLabel == Some("Global bind group")
    ensures group.layout.debugLabel == Some("Global bind group layout")
  {
    var layoutEntries := RenumberedCopy(LayoutItems(hasUniform, hasScratchpad));
    var groupEntries := RenumberedCopy(BindGroupItems(hasUniform, hasScratchpad));
    var layout := BindGroupLayout(Some("Global bind group layout"), layoutEntries);
    group := BindGroup(Some("Global bind group"), layout, groupEntries);
  }

  /** The device context: what it has been asked to do, in order. Adapter
      and device acquisition are not modelled. */
  class GpuCompute {
    var log: seq<Event>

    constructor ()
      ensures log == []
    {
      log := [];
    }

    /** `queue.write_buffer`. */
    method WriteBuffer(target: Role, offset: nat, data: seq<byte>)
      modifies this
      ensures log == old(log) + [Event.WriteBuffer(target, offset, data)]
    {
      log := log + [Event.WriteBuffer(target, offset, data)];
    }

    /** `queue.submit` of one finished command buffer. */
    method Submit(commands: seq<Command>)
      modifies this
      ensures log == old(log) + [Event.Submit(commands)]
    {
      log := log + [Event.Submit(commands)];
    }

    /** A step of the read-mapping handshake reaching the device. */
    method Observe(e: Event)
      requires e.MapRequest? || e.MapCompleted? || e.ReadMapped? || e.Unmap?
      modifies this
      ensures log == old(log) + [e]
    {
      log := log + [e];
    }

    /** `gen_pipeline` (lib.rs:132-319): allocates the buffer set from the
        type sizes and the scratchpad size, builds and renumbers the layout
        and bind-group entries, and compiles one stage per descriptor. */
    method GenPipeline(sizes: TypeSizes, scratchpadSize: Option<pos>, stages: seq<StageDesc>) returns (p: Pipeline)
      ensures fresh(p) && fresh(p.output) && p.Built() && p.Valid()
      ensures p.device == this && p.sizes == sizes && p.stagesDesc == stages
      ensures p.Descriptors() == Describe(sizes, scratchpadSize)
    {
      var uniform, scratchpad, input, staging, output := CreateBuffers(sizes, scratchpadSize);
      var bindGroup := BuildBindGroup(uniform.Some?, scratchpad.Some?);
      var compiled := CompileStages(stages, bindGroup.layout);
      p := new Pipeline(uniform, input, scratchpad, staging, output, bindGroup, compiled.value, this, stages, sizes);
    }
  }

  /** `PipelineAsync`: the buffers, the shared bind group, the compiled
      stages and their descriptors, and the device it was built on. The type
      parameters Input, Uniform and Output appear through their sizes. */
  class Pipeline {
    const uniform: Option<Buffer>
    const input: Buffer
    const scratchpad: Option<Buffer>
    const staging: Buffer
    const output: Buffer
    const bindGroup: BindGroup
    const stages: seq<ComputePipeline>
    const device: GpuCompute
    const stagesDesc: seq<StageDesc>
    const sizes: TypeSizes

    constructor (uniform: Option<Buffer>, input: Buffer, scratchpad: Option<Buffer>, staging: Buffer, output: Buffer,
                 bindGroup: BindGroup, stages: seq<ComputePipeline>, device: GpuCompute,
                 stagesDesc: seq<StageDesc>, sizes: TypeSizes)
      ensures this.uniform == uniform && this.input == input && this.scratchpad == scratchpad
      ensures this.staging == staging && this.output == output && this.bindGroup == bindGroup
      ensures this.stages == stages && this.device == device && this.stagesDesc == stagesDesc
      ensures this.sizes == sizes
    {
      this.uniform := uniform;
      this.input := input;
      this.scratchpad := scratchpad;
      this.staging := staging;
      this.output := output;
      this.bindGroup := bindGroup;
      this.stages := stages;
      this.device := device;
      this.stagesDesc := stagesDesc;
      this.sizes := sizes;
    }

    /** The descriptors the five buffers were created with. */
    function Descriptors(): BufferSet.Descriptors
    {
      BufferSet.Descriptors(DescriptorOfBuffer(uniform), DescriptorOfBuffer(scratchpad), input.desc, staging.desc, output.desc)
    }

    /** The scratchpad size the pipeline was generated with. */
    function ScratchpadSize(): Option<pos>
    {
      match scratchpad
      case None => None
      case Some(b) => if b.desc.size > 0 then Some(b.desc.size) else None
    }

    /** What `gen_pipeline` establishes once and for all: the buffers play
        their roles with the descriptors derived from the sizes, the shared
        layout and bind group hold the renumbered entries, and the stages
        are the descriptors compiled against that layout. */
    ghost predicate Built()
    {
      && (uniform.Some? ==> uniform.value.role == Uniform)
      && (scratchpad.Some? ==> scratchpad.value.role == Scratchpad)
      && input.role == Input && staging.role == Staging && output.role == Output
      && Descriptors() == Describe(sizes, ScratchpadSize())
      && bindGroup.layout.entries == FinalLayout(uniform.Some?, scratchpad.Some?)
      && bindGroup.entries == FinalBindGroup(uniform.Some?, scratchpad.Some?)
      && CompileStages(stagesDesc, bindGroup.layout) == Success(stages)
    }

    /** What `write_uniform` and `run` rely on between calls: the buffers
        they touch play their roles, the output buffer holds the whole
        Output type, there is one compiled stage per descriptor, and the
        output buffer is unmapped. */
    ghost predicate Valid()
      reads output
    {
      && (uniform.Some? <==> sizes.uniform > 0)
      && (uniform.Some? ==> uniform.value.role == Uniform)
      && input.role == Input && output.role == Output
      && |stages| == |stagesDesc|
      && output.desc.size == sizes.output
      && !output.mapped && output.mappedRange == []
    }

    /** `write_uniform` (lib.rs:326-331): fails with "No uniforms" exactly
        when the Uniform type is zero-sized; otherwise enqueues a write of
        the value's bytes at offset 0 of the uniform buffer. */
    method WriteUniform(value: seq<byte>) returns (r: Result<(), string>)
      requires Valid() && |value| == sizes.uniform
      modifies device
      ensures Valid()
      ensures r.Failure? <==> sizes.uniform == 0
      ensures r.Failure? ==> r.error == "No uniforms" && device.log == old(device.log)
      ensures r.Success? ==> device.log == old(device.log) + [Event.WriteBuffer(Uniform, 0, value)]
    {
      match uniform
      case None =>
        r := Failure("No uniforms");
      case Some(buffer) =>
        device.WriteBuffer(buffer.role, 0, value);
        r := Success(());
    }

    /** The end of a run whose map succeeded (lib.rs:394-403): the output
        buffer becomes mapped to the device's bytes, the callback reads that
        view, and the buffer is unmapped before the callback's result is
        handed back unchanged. */
    method ReadOutput<T>(range: seq<byte>, callback: seq<byte> -> T) returns (result: T)
      requires Valid() && |range| == sizes.output
      modifies device, output
      ensures Valid()
      ensures !output.mapped && output.mappedRange == []
      ensures result == callback(range)
      ensures device.log == old(device.log) + [MapCompleted(Output, true), ReadMapped(Output), Unmap(Output)]
    {
      device.Observe(MapCompleted(output.role, true));
      output.CompleteMap(range);
      var view := output.GetMappedRange();
      device.Observe(ReadMapped(output.role));
      result := callback(view);
      output.Unmap();
      device.Observe(Unmap(output.role));
    }

    /** `run` (lib.rs:352-404): writes the input, encodes one pass per stage
        in index order and the readback copy, submits once, requests the
        map, and on completion hands the mapped bytes to the callback and
        unmaps. A failed map ends the run with "Could not map buffer". */
    method Run<T>(input: seq<byte>, workgroups: seq<Workgroup>, callback: seq<byte> -> T,
                  completion: MapCompletion) returns (r: Result<T, string>)
      requires Valid() && |input| == sizes.input && |workgroups| == |stages|
      requires completion.Mapped? ==> |completion.range| == sizes.output
      modifies device, output
      ensures Valid()
      ensures !output.mapped && output.mappedRange == []
      ensures device.log == old(device.log) +
        RunEvents(input, RunCommands(stagesDesc, stages, bindGroup, workgroups, sizes.output), completion)
      ensures completion.MapFailed? ==> r == Failure("Could not map buffer")
      ensures completion.Mapped? ==> r == Success(callback(completion.range))
    {
      ghost var log0 := device.log;
      device.WriteBuffer(this.input.role, 0, input);
      var encoder := EncodeRun(stagesDesc, stages, bindGroup, workgroups, sizes.output);
      device.Submit(encoder);
      device.Observe(MapRequest(output.role));
      ghost var head := [Event.WriteBuffer(Input, 0, input), Event.Submit(encoder), MapRequest(Output)];
      assert device.log == log0 + head;
      match completion
      case MapFailed =>
        device.Observe(MapCompleted(output.role, false));
        r := Failure("Could not map buffer");
        assert device.log == log0 + (head + [MapCompleted(Output, false)]);
      case Mapped(range) =>
        var result := ReadOutput(range, callback);
        r := Success(result);
        assert device.log == log0 + (head + [MapCompleted(Output, true), ReadMapped(Output), Unmap(Output)]);
    }
  }
}
