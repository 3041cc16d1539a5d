/** The buffer set `gen_pipeline` allocates (lib.rs:142-177): which buffers
    exist, how large they are, and the usage flags each is created with. */
module BufferSet {
  import opened Wrappers
  import opened Gpu
  import Layout

  /** `size_of` of the pipeline's Input, Uniform and Output types. */
  datatype TypeSizes = TypeSizes(input: nat, uniform: nat, output: nat)

  /** The descriptors of the five buffers; the optional two may be absent. */
  datatype Descriptors = Descriptors(
    uniform: Option<BufferDescriptor>,
    scratchpad: Option<BufferDescriptor>,
    input: BufferDescriptor,
    staging: BufferDescriptor,
    output: BufferDescriptor)

  function UniformDescriptor(uniformSize: nat): Option<BufferDescriptor>
  {
    if uniformSize > 0 then
      Some(BufferDescriptor(Some("Uniform buffer"), uniformSize, {CopyDst, UniformUsage}, false))
    else None
  }

  function ScratchpadDescriptor(scratchpadSize: Option<pos>): Option<BufferDescriptor>
  {
    match scratchpadSize
    case None => None
    case Some(size) => Some(BufferDescriptor(Some("Scratchpad buffer"), size, {CopySrc, StorageUsage}, false))
  }

  function InputDescriptor(inputSize: nat): BufferDescriptor
  {
    BufferDescriptor(Some("Input buffer"), inputSize, {CopyDst, StorageUsage}, false)
  }

  function StagingDescriptor(outputSize: nat): BufferDescriptor
  {
    BufferDescriptor(Some("Staging buffer"), outputSize, {CopySrc, StorageUsage}, false)
  }

  /** The output buffer's descriptor exactly as lib.rs:172-177 writes it:
      its debug label repeats the staging buffer's. */
  function OutputDescriptorAsWritten(outputSize: nat): BufferDescriptor
  {
    BufferDescriptor(Some("Staging buffer"), outputSize, {CopyDst, MapRead}, false)
  }

  /** The output buffer's descriptor with the label it evidently should
      have; the rest of the model uses this one. */
  function OutputDescriptor(outputSize: nat): BufferDescriptor
  {
    BufferDescriptor(Some("Output buffer"), outputSize, {CopyDst, MapRead}, false)
  }

  /** The buffer set of a pipeline: a uniform buffer exactly when the
      Uniform type has a non-zero size, a scratchpad exactly when a size was
      given and then of that size, Input sized to the Input type, Staging
      and Output both sized to the Output type. */
  function Describe(sizes: TypeSizes, scratchpadSize: Option<pos>): (d: Descriptors)
    ensures d.uniform.Some? <==> sizes.uniform > 0
    ensures d.uniform.Some? ==> d.uniform.value.size == sizes.uniform
    ensures d.scratchpad.Some? <==> scratchpadSize.Some?
    ensures d.scratchpad.Some? ==> d.scratchpad.value.size == scratchpadSize.value > 0
    ensures d.input.size == sizes.input
    ensures d.staging.size == sizes.output && d.output.size == sizes.output
  {
    Descriptors(
      UniformDescriptor(sizes.uniform),
      ScratchpadDescriptor(scratchpadSize),
      InputDescriptor(sizes.input),
      StagingDescriptor(sizes.output),
      OutputDescriptor(sizes.output))
  }

  /** The descriptor of the buffer playing role `r`, if there is one. */
  function DescriptorOf(d: Descriptors, r: Role): Option<BufferDescriptor>
  {
    match r
    case Uniform => d.uniform
    case Scratchpad => d.scratchpad
    case Input => Some(d.input)
    case Staging => Some(d.staging)
    case Output => Some(d.output)
  }

  /** The usage flag a buffer needs to be bound with binding type `t`. */
  function UsageFor(t: BindingType): Usage
  {
    match t
    case UniformBinding => UniformUsage
    case Storage(_) => StorageUsage
  }

  /** Every slot of the layout has a buffer behind it, created with the
      usage its binding type needs. */
  lemma BoundBuffersSuitLayout(sizes: TypeSizes, scratchpadSize: Option<pos>, r: Role)
    requires Layout.Bound(r, sizes.uniform > 0, scratchpadSize.Some?)
    ensures DescriptorOf(Describe(sizes, scratchpadSize), r).Some?
    ensures UsageFor(Layout.BindingTypeOf(r)) in DescriptorOf(Describe(sizes, scratchpadSize), r).value.usage
  {
  }

  /** Host access: only Output may be mapped for reading; the two buffers
      the host writes through the queue (Uniform, Input) accept copies in;
      Staging can be copied out of and into Output, whose whole size the
      copy covers. */
  lemma HostAccess(sizes: TypeSizes, scratchpadSize: Option<pos>, r: Role)
    requires DescriptorOf(Describe(sizes, scratchpadSize), r).Some?
    ensures MapRead in DescriptorOf(Describe(sizes, scratchpadSize), r).value.usage <==> r == Output
    ensures (r == Uniform || r == Input) ==> CopyDst in DescriptorOf(Describe(sizes, scratchpadSize), r).value.usage
    ensures r == Staging ==> CopySrc in DescriptorOf(Describe(sizes, scratchpadSize), r).value.usage
    ensures r == Output ==> CopyDst in DescriptorOf(Describe(sizes, scratchpadSize), r).value.usage
    ensures r == Staging || r == Output ==> DescriptorOf(Describe(sizes, scratchpadSize), r).value.size == sizes.output
  {
  }

  /** As written, the output buffer cannot be told from the staging buffer
      by its label. */
  lemma OutputLabelAsWrittenRepeatsStaging(outputSize: nat)
    ensures OutputDescriptorAsWritten(outputSize).debugLabel == StagingDescriptor(outputSize).debugLabel
    ensures OutputDescriptorAsWritten(outputSize).usage != StagingDescriptor(outputSize).usage
  {
  }

  /** With the corrected output label, the buffers of a pipeline carry
      pairwise distinct labels. */
  lemma BufferLabelsDistinct(sizes: TypeSizes, scratchpadSize: Option<pos>, r1: Role, r2: Role)
    requires r1 != r2
    requires DescriptorOf(Describe(sizes, scratchpadSize), r1).Some?
    requires DescriptorOf(Describe(sizes, scratchpadSize), r2).Some?
    ensures DescriptorOf(Describe(sizes, scratchpadSize), r1).value.debugLabel !=
            DescriptorOf(Describe(sizes, scratchpadSize), r2).value.debugLabel
  {
  }
}
