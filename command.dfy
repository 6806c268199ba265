// Command-buffer descriptors, the bounded command-buffer pool and the recording state machine.
module Command {
  import opened Wrappers
  import opened Ints
  import opened Errors

  datatype CommandBufferType = Direct | Bundle | Compute | TransferCommands

  datatype CommandBufferState = Initial | Recording | Executable | Pending | Invalid

  datatype CommandBufferUsage = OneTimeSubmit | Reusable | SimultaneousUse

  datatype CommandBufferDescriptor = CommandBufferDescriptor(
    bufferType: CommandBufferType,
    usage: CommandBufferUsage,
    name: Option<string>)
  {
    function WithName(n: string): (r: CommandBufferDescriptor)
      ensures r.name == Some(n) && r.bufferType == bufferType && r.usage == usage
    {
      this.(name := Some(n))
    }
  }

  function NewCommandBufferDescriptor(t: CommandBufferType, u: CommandBufferUsage): (r: CommandBufferDescriptor)
    ensures r.bufferType == t && r.usage == u && r.name.None?
  {
    CommandBufferDescriptor(t, u, None)
  }

  function DirectOneTime(): (r: CommandBufferDescriptor)
    ensures r.bufferType == Direct && r.usage == OneTimeSubmit && r.name.None?
  {
    NewCommandBufferDescriptor(Direct, OneTimeSubmit)
  }

  function DirectReusable(): (r: CommandBufferDescriptor)
    ensures r.bufferType == Direct && r.usage == Reusable && r.name.None?
  {
    NewCommandBufferDescriptor(Direct, Reusable)
  }

  function TransferOneTime(): (r: CommandBufferDescriptor)
    ensures r.bufferType == TransferCommands && r.usage == OneTimeSubmit && r.name.None?
  {
    NewCommandBufferDescriptor(TransferCommands, OneTimeSubmit)
  }

  lemma DescriptorConstructors()
    ensures DirectOneTime().bufferType == Direct && DirectOneTime().usage == OneTimeSubmit
    ensures DirectReusable().bufferType == Direct && DirectReusable().usage == Reusable
    ensures TransferOneTime().WithName("Upload Buffer") ==
      CommandBufferDescriptor(TransferCommands, OneTimeSubmit, Some("Upload Buffer"))
  {
  }

  // ---------------------------------------------------------------- pool

  const POOL_FULL := Graphics(ResourceCreation("Command buffer pool is full"))

  /** A counter of allocatedCount command buffers bounded by the pool's capacity. */
  class CommandBufferPool {
    const bufferType: CommandBufferType
    const capacity: usize
    var allocatedCount: usize

    ghost predicate Valid()
      reads this
    {
      allocatedCount <= capacity
    }

    constructor (bufferType: CommandBufferType, capacity: usize)
      ensures Valid() && this.bufferType == bufferType && this.capacity == capacity && allocatedCount == 0
    {
      this.bufferType := bufferType;
      this.capacity := capacity;
      allocatedCount := 0;
    }

    predicate IsFull()
      reads this
    {
      allocatedCount >= capacity
    }

    method Allocate() returns (r: Result<(), DistRenderError>)
      requires Valid()
      modifies this
      ensures Valid()
      ensures r.Err? <==> old(IsFull())
      ensures r.Err? ==> r.error == POOL_FULL && allocatedCount == old(allocatedCount)
      ensures r.Ok? ==> allocatedCount == old(allocatedCount) + 1
    {
      if IsFull() {
        return Err(POOL_FULL);
      }
      allocatedCount := allocatedCount + 1;
      r := Ok(());
    }

    /** Releases one buffer; freeing an empty pool does nothing. */
    method Free()
      requires Valid()
      modifies this
      ensures Valid()
      ensures allocatedCount == SaturatingSub(old(allocatedCount), 1)
    {
      if allocatedCount > 0 {
        allocatedCount := allocatedCount - 1;
      }
    }

    method Reset()
      requires Valid()
      modifies this
      ensures Valid() && allocatedCount == 0
    {
      allocatedCount := 0;
    }
  }

  /**
   * The pool unit test: five allocations fill a pool of five, the sixth fails with the
   * pool-full error, and a reset empties the pool.
   */
  method PoolScenario() returns (filled: bool, sixth: Result<(), DistRenderError>, afterReset: usize)
    ensures filled && sixth == Err(POOL_FULL) && afterReset == 0
  {
    var pool := new CommandBufferPool(Direct, 5);
    for i := 0 to 5
      invariant pool.Valid() && pool.capacity == 5 && pool.allocatedCount == i
    {
      var r := pool.Allocate();
    }
    filled := pool.IsFull() && pool.allocatedCount == 5;
    sixth := pool.Allocate();
    pool.Reset();
    afterReset := pool.allocatedCount;
  }

  // ---------------------------------------------------------------- encoder

  function CommandError(msg: string): DistRenderError {
    Graphics(CommandExecution(msg))
  }

  /**
   * The recording state machine: Initial -> Recording -> Executable, with render passes
   * bracketed inside Recording on Direct buffers only. Every violation is a
   * `CommandExecution` error that leaves the state untouched.
   */
  class CommandEncoder {
    const bufferType: CommandBufferType
    var state: CommandBufferState
    var inRenderPass: bool

    /** An open render pass only exists while recording. */
    predicate PassInvariant()
      reads this
    {
      inRenderPass ==> state == Recording
    }

    /** The states the encoder's own methods can reach: never Pending or Invalid. */
    predicate Reachable()
      reads this
    {
      PassInvariant() && state != Pending && state != Invalid
    }

    constructor (bufferType: CommandBufferType)
      ensures this.bufferType == bufferType && state == Initial && !inRenderPass
      ensures Reachable()
    {
      this.bufferType := bufferType;
      state := Initial;
      inRenderPass := false;
    }

    method Begin() returns (r: Result<(), DistRenderError>)
      modifies this
      ensures r.Ok? <==> old(state) in {Initial, Executable}
      ensures r.Ok? ==> state == Recording && inRenderPass == old(inRenderPass)
      ensures r.Err? ==> r.error == CommandError("Invalid state for begin")
      ensures r.Err? ==> state == old(state) && inRenderPass == old(inRenderPass)
      ensures old(Reachable()) ==> Reachable()
    {
      match state
      case Initial =>
        state := Recording;
        r := Ok(());
      case Executable =>
        state := Recording;
        r := Ok(());
      case _ =>
        r := Err(CommandError("Invalid state for begin"));
    }

    method End() returns (r: Result<(), DistRenderError>)
      modifies this
      ensures r.Ok? <==> old(state) == Recording && !old(inRenderPass)
      ensures r.Ok? ==> state == Executable && !inRenderPass
      ensures r.Err? ==> state == old(state) && inRenderPass == old(inRenderPass)
      ensures r.Err? && old(state) == Recording ==> r.error == CommandError("Still in render pass")
      ensures r.Err? && old(state) != Recording ==> r.error == CommandError("Invalid state for end")
      ensures old(Reachable()) ==> Reachable()
    {
      if state == Recording {
        if inRenderPass {
          return Err(CommandError("Still in render pass"));
        }
        state := Executable;
        r := Ok(());
      } else {
        r := Err(CommandError("Invalid state for end"));
      }
    }

    method BeginRenderPass() returns (r: Result<(), DistRenderError>)
      modifies this
      ensures r.Ok? <==> bufferType == Direct && old(state) == Recording && !old(inRenderPass)
      ensures r.Ok? ==> inRenderPass
      ensures state == old(state)
      ensures r.Err? ==> inRenderPass == old(inRenderPass)
      ensures r.Err? && bufferType != Direct ==>
        r.error == CommandError("Only Direct buffers can begin render pass")
      ensures r.Err? && bufferType == Direct && old(state) != Recording ==>
        r.error == CommandError("Must be in recording state")
      ensures r.Err? && bufferType == Direct && old(state) == Recording ==>
        r.error == CommandError("Already in render pass")
      ensures old(Reachable()) ==> Reachable()
    {
      if bufferType != Direct {
        return Err(CommandError("Only Direct buffers can begin render pass"));
      }
      if state != Recording {
        return Err(CommandError("Must be in recording state"));
      }
      if inRenderPass {
        return Err(CommandError("Already in render pass"));
      }
      inRenderPass := true;
      r := Ok(());
    }

    /** Closes the open pass; the state is neither checked nor changed. */
    method EndRenderPass() returns (r: Result<(), DistRenderError>)
      modifies this
      ensures r.Ok? <==> old(inRenderPass)
      ensures !inRenderPass && state == old(state)
      ensures r.Err? ==> r.error == CommandError("Not in render pass")
      ensures old(Reachable()) ==> Reachable()
    {
      if !inRenderPass {
        return Err(CommandError("Not in render pass"));
      }
      inRenderPass := false;
      r := Ok(());
    }

    method Reset()
      modifies this
      ensures state == Initial && !inRenderPass
      ensures Reachable()
    {
      state := Initial;
      inRenderPass := false;
    }
  }

  /**
   * The state-machine unit test on a Direct encoder: a second `begin` fails, `end` fails while
   * a pass is open and leaves recording intact, and after closing the pass `end` succeeds.
   */
  method EncoderScenario()
    returns (secondBegin: Result<(), DistRenderError>, endInPass: Result<(), DistRenderError>,
             finalEnd: Result<(), DistRenderError>, finalState: CommandBufferState)
    ensures secondBegin.Err? && endInPass == Err(CommandError("Still in render pass"))
    ensures finalEnd.Ok? && finalState == Executable
  {
    var encoder := new CommandEncoder(Direct);
    var r := encoder.Begin();
    secondBegin := encoder.Begin();
    r := encoder.BeginRenderPass();
    endInPass := encoder.End();
    r := encoder.EndRenderPass();
    finalEnd := encoder.End();
    finalState := encoder.state;
  }

  /** A Compute encoder cannot open a render pass, even while recording. */
  method ComputeEncoderScenario() returns (pass: Result<(), DistRenderError>)
    ensures pass == Err(CommandError("Only Direct buffers can begin render pass"))
  {
    var encoder := new CommandEncoder(Compute);
    var r := encoder.Begin();
    pass := encoder.BeginRenderPass();
  }

  // ---------------------------------------------------------------- submission

  datatype QueueType = GraphicsQueue | ComputeQueue | TransferQueue

  datatype SubmitInfo = SubmitInfo(
    commandBufferCount: usize,
    waitSemaphoreCount: usize,
    signalSemaphoreCount: usize)

  /** One command buffer with no semaphores. */
  function SimpleSubmit(): (r: SubmitInfo)
    ensures r == SubmitWithSync(0, 0)
  {
    SubmitInfo(1, 0, 0)
  }

  /** One command buffer with the given semaphore counts. */
  function SubmitWithSync(waitCount: usize, signalCount: usize): (r: SubmitInfo)
    ensures r.commandBufferCount == 1
    ensures r.waitSemaphoreCount == waitCount && r.signalSemaphoreCount == signalCount
  {
    SubmitInfo(1, waitCount, signalCount)
  }
}
