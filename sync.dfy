// Fence values, the sequential fence counters, frame timelines and synchronisation scopes.
module Sync {
  import opened Wrappers
  import opened Ints
  import opened Errors

  /** `FenceValue(u64)`; the derived ordering is the ordering of the inner value. */
  datatype FenceValue = FenceValue(value: u64)
  {
    /**
     * `next`: the following value, leaving this one as it is. `increment` stores the same value
     * in place of the one it is called on.
     */
    function Next(): (r: FenceValue)
      requires value < U64_MAX
      ensures Less(this, r) && r.value == value + 1
    {
      FenceValue(value + 1)
    }

  }

  predicate Less(a: FenceValue, b: FenceValue) {
    a.value < b.value
  }

  /** The derived ordering is total and agrees with equality of the wrapped values. */
  lemma FenceOrderingIsTotal(a: FenceValue, b: FenceValue)
    ensures (a == b) <==> (a.value == b.value)
    ensures Less(a, b) || a == b || Less(b, a)
    ensures !(Less(a, b) && Less(b, a))
  {
  }

  datatype FenceStatus = NotSignaled | Signaled | FenceError

  /**
   * Issued and completed fence counters. The source keeps them in atomics shared between
   * threads; the model is sequential.
   */
  class FenceManager {
    var currentValue: u64
    var completedValue: u64

    constructor ()
      ensures currentValue == 0 && completedValue == 0
    {
      currentValue := 0;
      completedValue := 0;
    }

    function CurrentValue(): FenceValue
      reads this
    {
      FenceValue(currentValue)
    }

    function CompletedValue(): FenceValue
      reads this
    {
      FenceValue(completedValue)
    }

    /** Issues the next fence value; the source overflows after 2^64 - 1 fences. */
    method NextValue() returns (v: FenceValue)
      requires currentValue < U64_MAX
      modifies this
      ensures v.value == old(currentValue) + 1 && Less(old(CurrentValue()), v)
      ensures currentValue == v.value && completedValue == old(completedValue)
    {
      var value := currentValue;
      currentValue := currentValue + 1;
      v := FenceValue(value + 1);
    }

    /** Stores the value as reported, even one lower than before. */
    method UpdateCompletedValue(v: FenceValue)
      modifies this
      ensures completedValue == v.value && currentValue == old(currentValue)
    {
      completedValue := v.value;
    }

    predicate IsCompleted(v: FenceValue)
      reads this
    {
      !Less(CompletedValue(), v)
    }

    /**
     * The source spins until the value completes, with no timeout; sequentially the wait can
     * only return when the value has already completed.
     */
    method WaitForValue(v: FenceValue) returns (r: Result<(), DistRenderError>)
      requires IsCompleted(v)
      ensures r.Ok?
    {
      r := Ok(());
    }

    /** Waits for the last issued value (not for a newly issued one). */
    method Flush() returns (r: Result<(), DistRenderError>)
      requires IsCompleted(CurrentValue())
      ensures r.Ok?
    {
      var current := CurrentValue();
      r := WaitForValue(current);
    }

    method Reset()
      modifies this
      ensures currentValue == 0 && completedValue == 0
    {
      currentValue := 0;
      completedValue := 0;
    }
  }

  /** Completion is downward closed: once a value has completed, so has every earlier one. */
  lemma CompletionDownwardClosed(m: FenceManager, v: FenceValue, w: FenceValue)
    requires v.value <= w.value && m.IsCompleted(w)
    ensures m.IsCompleted(v)
  {
  }

  /** `is_completed(v)` holds exactly when the completed counter has reached `v`. */
  lemma IsCompletedMeaning(m: FenceManager, v: FenceValue)
    ensures m.IsCompleted(v) <==> m.completedValue >= v.value
  {
  }

  /**
   * The fence-manager unit test: fresh counters are 0, successive issued values are 1 then 2,
   * and a value counts as completed only once the completed counter reaches it.
   */
  method FenceManagerScenario() returns (v1: FenceValue, v2: FenceValue, firstDone: bool, secondDone: bool, bothDone: bool)
    ensures v1.value == 1 && v2.value == 2
    ensures firstDone && !secondDone && bothDone
  {
    var manager := new FenceManager();
    v1 := manager.NextValue();
    v2 := manager.NextValue();
    manager.UpdateCompletedValue(v1);
    firstDone := manager.IsCompleted(v1);
    secondDone := manager.IsCompleted(v2);
    manager.UpdateCompletedValue(v2);
    bothDone := manager.IsCompleted(v2) && manager.IsCompleted(v1);
  }

  /** The span of fence values one frame covers. */
  class Timeline {
    var frameStart: FenceValue
    var frameEnd: FenceValue
    const frameNumber: u64

    constructor (frameNumber: u64, start: FenceValue)
      ensures frameStart == start && frameEnd == start && this.frameNumber == frameNumber
      ensures Duration() == 0
    {
      frameStart := start;
      frameEnd := start;
      this.frameNumber := frameNumber;
    }

    method EndFrame(end: FenceValue)
      modifies this
      ensures frameEnd == end && frameStart == old(frameStart)
    {
      frameEnd := end;
    }

    /** Number of fence values the frame spans; 0 if the end lies before the start. */
    function Duration(): (r: u64)
      reads this
      ensures frameStart.value <= frameEnd.value ==> frameStart.value + r == frameEnd.value
      ensures frameEnd.value <= frameStart.value ==> r == 0
    {
      SaturatingSub(frameEnd.value, frameStart.value)
    }
  }

  /** The timeline test: frame 42 from fence value 100 to 150 spans 50 values. */
  method TimelineScenario() returns (frame: u64, duration: u64)
    ensures frame == 42 && duration == 50
  {
    var t := new Timeline(42, FenceValue(100));
    frame := t.frameNumber;
    t.EndFrame(FenceValue(150));
    duration := t.Duration();
  }

  datatype SemaphoreType = Binary | TimelineSemaphore

  datatype SemaphoreHandle = SemaphoreHandle(id: u64, semaphoreType: SemaphoreType)

  datatype PipelineStage =
    | VertexShader | FragmentShader | ComputeShader | Transfer | ColorOutput | AllGraphics | AllCommands

  /** The synchronisation half of a queue submission (`sync::SubmitInfo`). */
  datatype SyncSubmitInfo = SyncSubmitInfo(
    waitSemaphores: seq<SemaphoreHandle>,
    signalSemaphores: seq<SemaphoreHandle>,
    waitStages: seq<PipelineStage>)

  datatype SyncScope = SyncScope(waitStages: seq<PipelineStage>, signalStages: seq<PipelineStage>)

  /** A scope that waits on and signals exactly the one given stage. */
  predicate SingleStageScope(s: SyncScope, stage: PipelineStage) {
    s.waitStages == [stage] && s.signalStages == [stage]
  }

  function AllCommandsScope(): (r: SyncScope)
    ensures SingleStageScope(r, AllCommands)
  {
    SyncScope([AllCommands], [AllCommands])
  }

  function GraphicsScope(): (r: SyncScope)
    ensures SingleStageScope(r, AllGraphics)
  {
    SyncScope([AllGraphics], [AllGraphics])
  }

  function ColorOutputScope(): (r: SyncScope)
    ensures SingleStageScope(r, ColorOutput)
  {
    SyncScope([ColorOutput], [ColorOutput])
  }
}
