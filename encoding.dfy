/** What one `run` asks of the GPU (lib.rs:358-403): the commands encoded
    for the N stages and the final copy, and the events the device sees —
    input write, one submission, the read-mapping handshake. */
module Encoding {
  import opened Wrappers
  import opened Gpu
  import Format

  /** `StageDesc`: optional name, shader source, entry point. */
  datatype StageDesc = StageDesc(name: Option<string>, shader: string, entrypoint: string)

  /** The compute pass label: "Compute pass for stage <name>" for a named stage. */
  function PassLabel(desc: StageDesc): Option<string>
  {
    match desc.name
    case None => None
    case Some(n) => Some("Compute pass for stage " + n)
  }

  /** The debug marker of stage `i`: "sgpu-" followed by its name, or by
      its index when it has none. */
  function DebugMarker(desc: StageDesc, i: nat): string
  {
    match desc.name
    case None => "sgpu-" + Format.NatToString(i)
    case Some(n) => "sgpu-" + n
  }

  /** The commands of stage `i`'s compute pass, in the order lib.rs:366-381
      records them; the pass ends when it goes out of scope. */
  function StagePass(desc: StageDesc, pipeline: ComputePipeline, group: BindGroup, i: nat, wg: Workgroup): seq<Command>
  {
    [ BeginComputePass(PassLabel(desc)),
      SetPipeline(pipeline),
      SetBindGroup(0, group),
      InsertDebugMarker(DebugMarker(desc, i)),
      Dispatch(wg.0, wg.1, wg.2),
      EndComputePass ]
  }

  const PassLength: nat := 6

  /** The arguments of one run's encoding: the stage descriptors, their
      compiled pipelines and the workgroup counts, one of each per stage. */
  predicate WellFormed(descs: seq<StageDesc>, pipelines: seq<ComputePipeline>, workgroups: seq<Workgroup>)
  {
    |pipelines| == |descs| && |workgroups| == |descs|
  }

  /** The passes of stages 0 .. n-1, in index order. */
  function EncodeStages(descs: seq<StageDesc>, pipelines: seq<ComputePipeline>, group: BindGroup,
                        workgroups: seq<Workgroup>, n: nat): seq<Command>
    requires WellFormed(descs, pipelines, workgroups) && n <= |descs|
  {
    if n == 0 then []
    else
      EncodeStages(descs, pipelines, group, workgroups, n - 1)
      + StagePass(descs[n - 1], pipelines[n - 1], group, n - 1, workgroups[n - 1])
  }

  /** The copy of the whole Output-sized staging buffer into the output buffer. */
  function ReadbackCopy(outputSize: nat): Command
  {
    CopyBufferToBuffer(Staging, 0, Output, 0, outputSize)
  }

  /** The one command buffer a run submits. */
  function RunCommands(descs: seq<StageDesc>, pipelines: seq<ComputePipeline>, group: BindGroup,
                       workgroups: seq<Workgroup>, outputSize: nat): seq<Command>
    requires WellFormed(descs, pipelines, workgroups)
  {
    EncodeStages(descs, pipelines, group, workgroups, |descs|) + [ReadbackCopy(outputSize)]
  }

  /** The encoding loop of `run` (lib.rs:361-389): one pass per stage in
      index order, recorded command by command, then the readback copy. */
  method EncodeRun(descs: seq<StageDesc>, pipelines: seq<ComputePipeline>, group: BindGroup,
                   workgroups: seq<Workgroup>, outputSize: nat) returns (encoder: seq<Command>)
    requires WellFormed(descs, pipelines, workgroups)
    ensures encoder == RunCommands(descs, pipelines, group, workgroups, outputSize)
  {
    encoder := [];
    for i := 0 to |descs|
      invariant encoder == EncodeStages(descs, pipelines, group, workgroups, i)
    {
      encoder := encoder + [BeginComputePass(PassLabel(descs[i]))];
      encoder := encoder + [SetPipeline(pipelines[i])];
      encoder := encoder + [SetBindGroup(0, group)];
      encoder := encoder + [InsertDebugMarker(DebugMarker(descs[i], i))];
      var (x, y, z) := workgroups[i];
      encoder := encoder + [Dispatch(x, y, z)];
      encoder := encoder + [EndComputePass];
    }
    encoder := encoder + [CopyBufferToBuffer(Staging, 0, Output, 0, outputSize)];
  }

  /** The device events of one run: the input write, the submission, the
      map request, its completion, and on success the read and the unmap. */
  function RunEvents(input: seq<byte>, commands: seq<Command>, completion: MapCompletion): seq<Event>
  {
    [WriteBuffer(Input, 0, input), Submit(commands), MapRequest(Output)]
    + match completion
      case MapFailed => [MapCompleted(Output, false)]
      case Mapped(_) => [MapCompleted(Output, true), ReadMapped(Output), Unmap(Output)]
  }

  /** n passes take six commands each. */
  lemma {:induction false} EncodeLength(descs: seq<StageDesc>, pipelines: seq<ComputePipeline>, group: BindGroup,
                                        workgroups: seq<Workgroup>, n: nat)
    requires WellFormed(descs, pipelines, workgroups) && n <= |descs|
    ensures |EncodeStages(descs, pipelines, group, workgroups, n)| == PassLength * n
  {
    if n > 0 {
      EncodeLength(descs, pipelines, group, workgroups, n - 1);
    }
  }

  /** Pass i occupies commands 6i .. 6i+5 of the encoding: its pipeline and
      the shared bind group are set before its dispatch, inside its pass. */
  lemma {:induction false} PassAt(descs: seq<StageDesc>, pipelines: seq<ComputePipeline>, group: BindGroup,
                                  workgroups: seq<Workgroup>, n: nat, i: nat)
    requires WellFormed(descs, pipelines, workgroups) && i < n <= |descs|
    ensures |EncodeStages(descs, pipelines, group, workgroups, n)| == PassLength * n
    ensures EncodeStages(descs, pipelines, group, workgroups, n)[PassLength * i .. PassLength * i + PassLength] ==
      StagePass(descs[i], pipelines[i], group, i, workgroups[i])
  {
    var prefix := EncodeStages(descs, pipelines, group, workgroups, n - 1);
    var pass := StagePass(descs[n - 1], pipelines[n - 1], group, n - 1, workgroups[n - 1]);
    if i == n - 1 {
      if n - 1 > 0 {
        PassAt(descs, pipelines, group, workgroups, n - 1, 0);
      }
      assert |prefix| == PassLength * i;
      assert (prefix + pass)[PassLength * i .. PassLength * i + PassLength] == pass;
    } else {
      PassAt(descs, pipelines, group, workgroups, n - 1, i);
      assert (prefix + pass)[PassLength * i .. PassLength * i + PassLength] ==
        prefix[PassLength * i .. PassLength * i + PassLength];
    }
  }

  lemma SliceOfPrefix<T>(e: seq<T>, x: seq<T>, a: nat, b: nat)
    requires a <= b <= |e|
    ensures (e + x)[a..b] == e[a..b]
  {
    assert forall j :: a <= j < b ==> (e + x)[j] == e[j];
  }

  /** Command k of the first n passes is command k % 6 of pass k / 6. */
  lemma {:induction false} CommandAt(descs: seq<StageDesc>, pipelines: seq<ComputePipeline>, group: BindGroup,
                                     workgroups: seq<Workgroup>, n: nat, k: nat)
    requires WellFormed(descs, pipelines, workgroups) && n <= |descs| && k < PassLength * n
    ensures k / PassLength < n
    ensures |EncodeStages(descs, pipelines, group, workgroups, n)| == PassLength * n
    ensures EncodeStages(descs, pipelines, group, workgroups, n)[k] ==
      StagePass(descs[k / PassLength], pipelines[k / PassLength], group, k / PassLength, workgroups[k / PassLength])[k % PassLength]
  {
    var i := k / PassLength;
    PassAt(descs, pipelines, group, workgroups, n, i);
    var e := EncodeStages(descs, pipelines, group, workgroups, n);
    assert e[k] == e[PassLength * i .. PassLength * i + PassLength][k - PassLength * i];
  }

  /** Stage i's pass, at commands 6i .. 6i+5 of the submission, opens a
      compute pass, binds the stage's own pipeline, then the shared bind
      group at index 0, inserts the stage's debug marker, dispatches the
      caller's workgroup counts for stage i and closes the pass. */
  lemma {:induction false} StageCommands(descs: seq<StageDesc>, pipelines: seq<ComputePipeline>, group: BindGroup,
                                         workgroups: seq<Workgroup>, outputSize: nat, i: nat)
    requires WellFormed(descs, pipelines, workgroups) && i < |descs|
    ensures PassLength * i + 5 < |RunCommands(descs, pipelines, group, workgroups, outputSize)|
    ensures RunCommands(descs, pipelines, group, workgroups, outputSize)[PassLength * i] == BeginComputePass(PassLabel(descs[i]))
    ensures RunCommands(descs, pipelines, group, workgroups, outputSize)[PassLength * i + 1] == SetPipeline(pipelines[i])
    ensures RunCommands(descs, pipelines, group, workgroups, outputSize)[PassLength * i + 2] == SetBindGroup(0, group)
    ensures RunCommands(descs, pipelines, group, workgroups, outputSize)[PassLength * i + 3] == InsertDebugMarker(DebugMarker(descs[i], i))
    ensures RunCommands(descs, pipelines, group, workgroups, outputSize)[PassLength * i + 4] ==
      Dispatch(workgroups[i].0, workgroups[i].1, workgroups[i].2)
    ensures RunCommands(descs, pipelines, group, workgroups, outputSize)[PassLength * i + 5] == EndComputePass
  {
    var e := EncodeStages(descs, pipelines, group, workgroups, |descs|);
    var cmds := RunCommands(descs, pipelines, group, workgroups, outputSize);
    PassAt(descs, pipelines, group, workgroups, |descs|, i);
    var pass := StagePass(descs[i], pipelines[i], group, i, workgroups[i]);
    SliceOfPrefix(e, [ReadbackCopy(outputSize)], PassLength * i, PassLength * i + PassLength);
    var window := cmds[PassLength * i .. PassLength * i + PassLength];
    assert window == pass;
    assert cmds[PassLength * i + 4] == window[4];
  }

  /** The kind of every submitted command is fixed by its position: for N
      stages there are 6N + 1 commands, a dispatch, a pipeline binding or a
      bind-group binding only at offsets 4, 1 and 2 of a pass, and a buffer
      copy only at the very end. With StageCommands this says the dispatches
      are exactly the caller's workgroup counts in stage order, each after
      its own stage's pipeline and the shared bind group. */
  lemma {:induction false} CommandKinds(descs: seq<StageDesc>, pipelines: seq<ComputePipeline>, group: BindGroup,
                                        workgroups: seq<Workgroup>, outputSize: nat)
    requires WellFormed(descs, pipelines, workgroups)
    ensures |RunCommands(descs, pipelines, group, workgroups, outputSize)| == PassLength * |descs| + 1
    ensures forall k :: 0 <= k < |RunCommands(descs, pipelines, group, workgroups, outputSize)| ==>
      (RunCommands(descs, pipelines, group, workgroups, outputSize)[k].Dispatch? <==>
         k < PassLength * |descs| && k % PassLength == 4) &&
      (RunCommands(descs, pipelines, group, workgroups, outputSize)[k].SetPipeline? <==>
         k < PassLength * |descs| && k % PassLength == 1) &&
      (RunCommands(descs, pipelines, group, workgroups, outputSize)[k].SetBindGroup? <==>
         k < PassLength * |descs| && k % PassLength == 2) &&
      (RunCommands(descs, pipelines, group, workgroups, outputSize)[k].CopyBufferToBuffer? <==>
         k == PassLength * |descs|)
  {
    var e := EncodeStages(descs, pipelines, group, workgroups, |descs|);
    var cmds := RunCommands(descs, pipelines, group, workgroups, outputSize);
    EncodeLength(descs, pipelines, group, workgroups, |descs|);
    forall k | 0 <= k < |cmds|
      ensures (cmds[k].Dispatch? <==> k < PassLength * |descs| && k % PassLength == 4)
      ensures (cmds[k].SetPipeline? <==> k < PassLength * |descs| && k % PassLength == 1)
      ensures (cmds[k].SetBindGroup? <==> k < PassLength * |descs| && k % PassLength == 2)
      ensures (cmds[k].CopyBufferToBuffer? <==> k == PassLength * |descs|)
    {
      if k < PassLength * |descs| {
        CommandAt(descs, pipelines, group, workgroups, |descs|, k);
        assert cmds[k] == e[k];
      }
    }
  }

  /** Every dispatch of the submission belongs to a stage i = k / 6, in
      index order along the submission; it dispatches the caller's counts
      for stage i, after stage i's own pipeline and the shared bind group at
      index 0 have been bound in the same pass. */
  lemma {:induction false} DispatchesInStageOrder(descs: seq<StageDesc>, pipelines: seq<ComputePipeline>, group: BindGroup,
                                                  workgroups: seq<Workgroup>, outputSize: nat)
    requires WellFormed(descs, pipelines, workgroups)
    ensures forall k :: 0 <= k < |RunCommands(descs, pipelines, group, workgroups, outputSize)| &&
                        RunCommands(descs, pipelines, group, workgroups, outputSize)[k].Dispatch? ==>
      && 3 <= k && k / PassLength < |descs|
      && RunCommands(descs, pipelines, group, workgroups, outputSize)[k] ==
           Dispatch(workgroups[k / PassLength].0, workgroups[k / PassLength].1, workgroups[k / PassLength].2)
      && RunCommands(descs, pipelines, group, workgroups, outputSize)[k - 3] == SetPipeline(pipelines[k / PassLength])
      && RunCommands(descs, pipelines, group, workgroups, outputSize)[k - 2] == SetBindGroup(0, group)
  {
    var cmds := RunCommands(descs, pipelines, group, workgroups, outputSize);
    CommandKinds(descs, pipelines, group, workgroups, outputSize);
    forall k | 0 <= k < |cmds| && cmds[k].Dispatch?
      ensures 3 <= k && k / PassLength < |descs|
      ensures cmds[k] == Dispatch(workgroups[k / PassLength].0, workgroups[k / PassLength].1, workgroups[k / PassLength].2)
      ensures cmds[k - 3] == SetPipeline(pipelines[k / PassLength])
      ensures cmds[k - 2] == SetBindGroup(0, group)
    {
      var i := k / PassLength;
      assert k == PassLength * i + 4;
      StageCommands(descs, pipelines, group, workgroups, outputSize, i);
    }
  }

  /** Exactly one buffer copy is submitted, the staging-to-output copy of
      the full Output size, and it is the last command, after every pass. */
  lemma {:induction false} SingleReadbackCopyLast(descs: seq<StageDesc>, pipelines: seq<ComputePipeline>, group: BindGroup,
                               workgroups: seq<Workgroup>, outputSize: nat)
    requires WellFormed(descs, pipelines, workgroups)
    ensures RunCommands(descs, pipelines, group, workgroups, outputSize)[|RunCommands(descs, pipelines, group, workgroups, outputSize)| - 1] ==
      CopyBufferToBuffer(Staging, 0, Output, 0, outputSize)
    ensures forall k :: 0 <= k < |RunCommands(descs, pipelines, group, workgroups, outputSize)| - 1 ==>
      !RunCommands(descs, pipelines, group, workgroups, outputSize)[k].CopyBufferToBuffer?
  {
    CommandKinds(descs, pipelines, group, workgroups, outputSize);
  }

  /** Unnamed stages at different indices get different debug markers. */
  lemma {:induction false} UnnamedMarkersDistinct(d1: StageDesc, d2: StageDesc, i: nat, j: nat)
    requires d1.name.None? && d2.name.None? && i != j
    ensures DebugMarker(d1, i) != DebugMarker(d2, j)
  {
    Format.NatToStringInjective(i, j);
    var a, b := Format.NatToString(i), Format.NatToString(j);
    assert ("sgpu-" + a)[5..] == a;
    assert ("sgpu-" + b)[5..] == b;
  }

  /** Whatever the device answers, one run keeps the read-mapping handshake
      on the output buffer (its one completion answers its one request, and
      it is read only while mapped) and leaves it unmapped, as it found it. */
  lemma {:induction false} RunKeepsHandshake(input: seq<byte>, commands: seq<Command>, completion: MapCompletion)
    ensures MapState(RunEvents(input, commands, completion), Output, Unmapped) == Some(Unmapped)
    ensures ReadMapped(Output) in RunEvents(input, commands, completion) <==> completion.Mapped?
  {
    var e := RunEvents(input, commands, completion);
    if completion.Mapped? {
      assert MapState(e[5..], Output, Readable) == Some(Unmapped) by { assert e[5..][1..] == []; }
      assert MapState(e[4..], Output, Readable) == Some(Unmapped) by { assert e[4..][1..] == e[5..]; }
      assert MapState(e[3..], Output, Pending) == Some(Unmapped) by { assert e[3..][1..] == e[4..]; }
    } else {
      assert MapState(e[3..], Output, Pending) == Some(Unmapped) by { assert e[3..][1..] == []; }
    }
    assert MapState(e[2..], Output, Unmapped) == Some(Unmapped) by { assert e[2..][1..] == e[3..]; }
    assert MapState(e[1..], Output, Unmapped) == Some(Unmapped) by { assert e[1..][1..] == e[2..]; }
  }

  function Concat(logs: seq<seq<Event>>): seq<Event>
  {
    if logs == [] then [] else logs[0] + Concat(logs[1..])
  }

  /** Runs one after another never break the handshake: each leaves the
      output unmapped, so the next finds it unmapped. */
  lemma {:induction false} RunsCompose(logs: seq<seq<Event>>)
    requires forall k :: 0 <= k < |logs| ==> MapState(logs[k], Output, Unmapped) == Some(Unmapped)
    ensures MapState(Concat(logs), Output, Unmapped) == Some(Unmapped)
  {
    if logs != [] {
      RunsCompose(logs[1..]);
      MapStateAppend(logs[0], Concat(logs[1..]), Output, Unmapped);
    }
  }
}
