// Backend-independent descriptor bookkeeping: descriptor kinds, heap descriptions, handle
// arithmetic, the linear allocator keyed by id, heap statistics and the manager that
// routes each descriptor kind to its heap's allocator.
module Descriptor {
  import opened Wrappers
  import opened Ints
  import opened Errors
  import opened Decimal

  datatype DescriptorType =
    | RenderTargetView | DepthStencilView | ConstantBufferView
    | ShaderResourceView | UnorderedAccessView | Sampler
  {
    /** Views the shaders read: CBV, SRV, UAV and samplers. */
    predicate IsShaderVisible() {
      this in {ConstantBufferView, ShaderResourceView, UnorderedAccessView, Sampler}
    }

    function Name(): string {
      match this
      case RenderTargetView => "RTV"
      case DepthStencilView => "DSV"
      case ConstantBufferView => "CBV"
      case ShaderResourceView => "SRV"
      case UnorderedAccessView => "UAV"
      case Sampler => "Sampler"
    }
  }

  /** Every kind has its own short name. */
  lemma NamesAreDistinct(a: DescriptorType, b: DescriptorType)
    requires a.Name() == b.Name()
    ensures a == b
  {
  }

  lemma ShaderVisibility(t: DescriptorType)
    ensures t.IsShaderVisible() <==> !(t == RenderTargetView || t == DepthStencilView)
  {
  }

  datatype DescriptorHeapDescriptor = DescriptorHeapDescriptor(
    descriptorType: DescriptorType,
    numDescriptors: u32,
    shaderVisible: bool,
    name: Option<string>)
  {
    function WithName(n: string): (r: DescriptorHeapDescriptor)
      ensures r.name == Some(n)
      ensures r.descriptorType == descriptorType && r.numDescriptors == numDescriptors
      ensures r.shaderVisible == shaderVisible
    {
      this.(name := Some(n))
    }

    function WithShaderVisible(visible: bool): (r: DescriptorHeapDescriptor)
      ensures r.shaderVisible == visible
      ensures r.descriptorType == descriptorType && r.numDescriptors == numDescriptors && r.name == name
    {
      this.(shaderVisible := visible)
    }
  }

  /** A heap of the given kind, shader-visible exactly when the kind is. */
  function NewHeapDescriptor(t: DescriptorType, n: u32): (r: DescriptorHeapDescriptor)
    ensures r.descriptorType == t && r.numDescriptors == n && r.name.None?
    ensures r.shaderVisible == t.IsShaderVisible()
  {
    DescriptorHeapDescriptor(t, n, t.IsShaderVisible(), None)
  }

  function RtvHeap(n: u32): (r: DescriptorHeapDescriptor)
    ensures r == DescriptorHeapDescriptor(RenderTargetView, n, false, Some("RTV Heap"))
  {
    NewHeapDescriptor(RenderTargetView, n).WithName("RTV Heap")
  }

  function DsvHeap(n: u32): (r: DescriptorHeapDescriptor)
    ensures r == DescriptorHeapDescriptor(DepthStencilView, n, false, Some("DSV Heap"))
  {
    NewHeapDescriptor(DepthStencilView, n).WithName("DSV Heap")
  }

  function SrvCbvUavHeap(n: u32): (r: DescriptorHeapDescriptor)
    ensures r == DescriptorHeapDescriptor(ShaderResourceView, n, true, Some("SRV/CBV/UAV Heap"))
  {
    NewHeapDescriptor(ShaderResourceView, n).WithShaderVisible(true).WithName("SRV/CBV/UAV Heap")
  }

  function SamplerHeap(n: u32): (r: DescriptorHeapDescriptor)
    ensures r == DescriptorHeapDescriptor(Sampler, n, true, Some("Sampler Heap"))
  {
    NewHeapDescriptor(Sampler, n).WithShaderVisible(true).WithName("Sampler Heap")
  }

  // ---------------------------------------------------------------- handles

  /**
   * Whether `offset(count, inc)` from `ptr`/`index` stays within the integer types: the
   * source computes `count * inc` in u32, the pointer in usize (u64) and the index in u32,
   * and panics on overflow.
   */
  predicate OffsetFits(ptr: u64, index: u32, count: u32, inc: u32) {
    count * inc <= U32_MAX && ptr + count * inc <= U64_MAX && index + count <= U32_MAX
  }

  datatype CpuDescriptorHandle = CpuDescriptorHandle(ptr: usize, index: u32)
  {
    function Offset(count: u32, inc: u32): (r: CpuDescriptorHandle)
      requires OffsetFits(ptr, index, count, inc)
      ensures r.ptr - ptr == count * inc && r.index - index == count
    {
      var step: nat := count * inc;
      CpuDescriptorHandle(ptr + step, index + count)
    }
  }

  datatype GpuDescriptorHandle = GpuDescriptorHandle(ptr: u64, index: u32)
  {
    function Offset(count: u32, inc: u32): (r: GpuDescriptorHandle)
      requires OffsetFits(ptr, index, count, inc)
      ensures r.ptr - ptr == count * inc && r.index - index == count
    {
      var step: nat := count * inc;
      GpuDescriptorHandle(ptr + step, index + count)
    }
  }

  datatype DescriptorHandle = DescriptorHandle(cpu: CpuDescriptorHandle, gpu: Option<GpuDescriptorHandle>)
  {
    predicate OffsetFitsHere(count: u32, inc: u32) {
      OffsetFits(cpu.ptr, cpu.index, count, inc) &&
      (gpu.Some? ==> OffsetFits(gpu.value.ptr, gpu.value.index, count, inc))
    }

    /** Moves the CPU handle and, when there is one, the GPU handle by the same amount. */
    function Offset(count: u32, inc: u32): (r: DescriptorHandle)
      requires OffsetFitsHere(count, inc)
      ensures r.cpu == cpu.Offset(count, inc)
      ensures r.gpu.Some? <==> gpu.Some?
      ensures gpu.Some? ==> r.gpu.value == gpu.value.Offset(count, inc)
    {
      DescriptorHandle(cpu.Offset(count, inc), if gpu.Some? then Some(gpu.value.Offset(count, inc)) else None)
    }
  }

  /** Offsetting twice by the same increment is offsetting once by the sum of the counts. */
  lemma OffsetComposes(h: CpuDescriptorHandle, a: u32, b: u32, inc: u32)
    requires a + b <= U32_MAX && OffsetFits(h.ptr, h.index, a + b, inc)
    ensures OffsetFits(h.ptr, h.index, a, inc)
    ensures OffsetFits(h.Offset(a, inc).ptr, h.Offset(a, inc).index, b, inc)
    ensures h.Offset(a, inc).Offset(b, inc) == h.Offset(a + b, inc)
  {
    assert (a + b) * inc == a * inc + b * inc;
    assert a * inc <= (a + b) * inc;
    assert b * inc <= (a + b) * inc;
  }

  lemma OffsetExamples()
    ensures CpuDescriptorHandle(1000, 0).Offset(5, 32) == CpuDescriptorHandle(1160, 5)
    ensures GpuDescriptorHandle(2000, 0).Offset(10, 32) == GpuDescriptorHandle(2320, 10)
  {
  }

  // ---------------------------------------------------------------- allocator

  /** The handle of slot `index` of a heap starting at the given bases. */
  function SlotHandle(cpuBase: usize, gpuBase: Option<u64>, index: u32, inc: u32): (r: DescriptorHandle)
    requires index * inc <= U32_MAX && cpuBase + index * inc <= U64_MAX
    requires gpuBase.Some? ==> gpuBase.value + index * inc <= U64_MAX
    ensures r.cpu.index == index && (r.gpu.Some? <==> gpuBase.Some?)
    ensures r.gpu.Some? ==> r.gpu.value.index == index
  {
    var offset: nat := index * inc;
    DescriptorHandle(
      CpuDescriptorHandle(cpuBase + offset, index),
      if gpuBase.Some? then Some(GpuDescriptorHandle(gpuBase.value + offset, index)) else None)
  }

  /** Slot `index` is the heap's first slot moved on by `index` slots. */
  lemma SlotHandleIsOffset(cpuBase: usize, gpuBase: Option<u64>, index: u32, inc: u32)
    requires index * inc <= U32_MAX && cpuBase + index * inc <= U64_MAX
    requires gpuBase.Some? ==> gpuBase.value + index * inc <= U64_MAX
    ensures SlotHandle(cpuBase, gpuBase, 0, inc).OffsetFitsHere(index, inc)
    ensures SlotHandle(cpuBase, gpuBase, index, inc) == SlotHandle(cpuBase, gpuBase, 0, inc).Offset(index, inc)
  {
  }

  function OutOfBudget(count: u32, max: u32, t: DescriptorType): DistRenderError {
    Runtime("Descriptor allocator out of budget: " + NatToString(count) + "/" + NatToString(max) + " for " + t.Name())
  }

  function AlreadyExists(id: u64): DistRenderError {
    Runtime("Descriptor with ID " + NatToString(id) + " already exists")
  }

  /**
   * A linear allocator over one heap: slots are handed out in order and never reused, and a
   * map from caller-chosen ids to handles remembers the live ones.
   */
  class DescriptorAllocator {
    const descriptorType: DescriptorType
    const maxDescriptors: u32
    var allocatedCount: u32
    const shaderVisible: bool
    const incrementSize: u32
    var descriptors: map<u64, DescriptorHandle>

    /**
     * Every live handle sits in a slot already handed out, and no two live handles share a
     * slot.
     */
    ghost predicate Valid()
      reads this
    {
      allocatedCount <= maxDescriptors &&
      (forall id :: id in descriptors ==> descriptors[id].cpu.index < allocatedCount) &&
      (forall a, b :: a in descriptors && b in descriptors && a != b ==>
        descriptors[a].cpu.index != descriptors[b].cpu.index)
    }

    constructor (descriptorType: DescriptorType, maxDescriptors: u32, shaderVisible: bool, incrementSize: u32)
      ensures Valid()
      ensures this.descriptorType == descriptorType && this.maxDescriptors == maxDescriptors
      ensures this.shaderVisible == shaderVisible && this.incrementSize == incrementSize
      ensures allocatedCount == 0 && descriptors == map[]
    {
      this.descriptorType := descriptorType;
      this.maxDescriptors := maxDescriptors;
      this.shaderVisible := shaderVisible;
      this.incrementSize := incrementSize;
      allocatedCount := 0;
      descriptors := map[];
    }

    predicate IsFull()
      reads this
    {
      allocatedCount >= maxDescriptors
    }

    /** The next slot's handle arithmetic stays within the integer types (else the source panics). */
    predicate AllocateFits(id: u64, cpuBase: usize, gpuBase: Option<u64>)
      reads this
    {
      IsFull() || id in descriptors ||
      (allocatedCount * incrementSize <= U32_MAX && cpuBase + allocatedCount * incrementSize <= U64_MAX &&
       (gpuBase.Some? ==> gpuBase.value + allocatedCount * incrementSize <= U64_MAX))
    }

    method Allocate(id: u64, cpuBase: usize, gpuBase: Option<u64>) returns (r: Result<DescriptorHandle, DistRenderError>)
      requires Valid() && AllocateFits(id, cpuBase, gpuBase)
      modifies this
      ensures Valid()
      ensures old(IsFull()) ==> r == Err(OutOfBudget(old(allocatedCount), maxDescriptors, descriptorType))
      ensures !old(IsFull()) && id in old(descriptors) ==> r == Err(AlreadyExists(id))
      ensures r.Err? ==> allocatedCount == old(allocatedCount) && descriptors == old(descriptors)
      ensures r.Ok? <==> !old(IsFull()) && id !in old(descriptors)
      ensures r.Ok? ==>
        r.value == SlotHandle(cpuBase, gpuBase, old(allocatedCount), incrementSize) &&
        allocatedCount == old(allocatedCount) + 1 &&
        descriptors == old(descriptors)[id := r.value]
      ensures r.Ok? ==> forall other :: other in old(descriptors) ==>
        old(descriptors)[other].cpu.index != r.value.cpu.index
    {
      if allocatedCount >= maxDescriptors {
        return Err(OutOfBudget(allocatedCount, maxDescriptors, descriptorType));
      }
      if id in descriptors {
        return Err(AlreadyExists(id));
      }
      var index := allocatedCount;
      var handle := SlotHandle(cpuBase, gpuBase, index, incrementSize);
      descriptors := descriptors[id := handle];
      allocatedCount := allocatedCount + 1;
      r := Ok(handle);
    }

    function Get(id: u64): (r: Option<DescriptorHandle>)
      reads this
      ensures r.Some? <==> id in descriptors
      ensures r.Some? ==> r.value == descriptors[id]
    {
      if id in descriptors then Some(descriptors[id]) else None
    }

    /** Forgets the id; its slot stays used, so the allocated count does not go down. */
    method Free(id: u64) returns (removed: bool)
      requires Valid()
      modifies this
      ensures Valid()
      ensures removed <==> id in old(descriptors)
      ensures descriptors == old(descriptors) - {id} && allocatedCount == old(allocatedCount)
    {
      removed := id in descriptors;
      descriptors := descriptors - {id};
    }
  }

  /**
   * The allocator unit tests: two allocations get consecutive slots 32 bytes apart, a freed
   * id is forgotten, and a third allocation in a two-slot heap is refused.
   */
  method AllocatorScenario()
    returns (first: Result<DescriptorHandle, DistRenderError>, second: Result<DescriptorHandle, DistRenderError>,
             afterFree: Option<DescriptorHandle>, third: Result<DescriptorHandle, DistRenderError>)
    ensures first == Ok(DescriptorHandle(CpuDescriptorHandle(1000, 0), None))
    ensures second == Ok(DescriptorHandle(CpuDescriptorHandle(1032, 1), None))
    ensures afterFree.None? && third.Err?
  {
    var allocator := new DescriptorAllocator(RenderTargetView, 2, false, 32);
    first := allocator.Allocate(0, 1000, None);
    second := allocator.Allocate(1, 1000, None);
    var removed := allocator.Free(0);
    afterFree := allocator.Get(0);
    third := allocator.Allocate(2, 1000, None);
  }

  // ---------------------------------------------------------------- statistics

  datatype DescriptorHeapStats = DescriptorHeapStats(
    descriptorType: DescriptorType,
    capacity: u32,
    used: u32,
    available: u32,
    usageRatio: real)

  /** Usage of one heap; `usageRatio` is the exact quotient (the source rounds it to f32). */
  function NewHeapStats(t: DescriptorType, capacity: u32, used: u32): (r: DescriptorHeapStats)
    ensures r.descriptorType == t && r.capacity == capacity && r.used == used
    ensures used <= capacity ==> r.available + used == capacity
    ensures capacity <= used ==> r.available == 0
    ensures capacity > 0 ==> r.usageRatio * capacity as real == used as real
    ensures capacity == 0 ==> r.usageRatio == 0.0
  {
    DescriptorHeapStats(t, capacity, used, SaturatingSub(capacity, used),
      if capacity > 0 then used as real / capacity as real else 0.0)
  }

  lemma StatsExample()
    ensures NewHeapStats(RenderTargetView, 100, 50) == DescriptorHeapStats(RenderTargetView, 100, 50, 50, 0.5)
  {
  }

  // ---------------------------------------------------------------- manager

  /** The four heaps a manager keeps an allocator for. */
  datatype HeapSlot = RtvSlot | DsvSlot | SrvCbvUavSlot | SamplerSlot

  /** CBV, SRV and UAV share one heap. */
  function SlotOf(t: DescriptorType): (s: HeapSlot)
    ensures s == SrvCbvUavSlot <==> t in {ConstantBufferView, ShaderResourceView, UnorderedAccessView}
  {
    match t
    case RenderTargetView => RtvSlot
    case DepthStencilView => DsvSlot
    case ConstantBufferView => SrvCbvUavSlot
    case ShaderResourceView => SrvCbvUavSlot
    case UnorderedAccessView => SrvCbvUavSlot
    case Sampler => SamplerSlot
  }

  function NotInitialized(t: DescriptorType): DistRenderError {
    Runtime("Descriptor allocator not initialized for " + t.Name())
  }

  function NotFound(id: u64, t: DescriptorType): DistRenderError {
    Runtime("Descriptor with ID " + NatToString(id) + " not found in " + t.Name() + " allocator")
  }

  function FreeFailed(id: u64): DistRenderError {
    Runtime("Failed to free descriptor with ID " + NatToString(id))
  }

  function StatsOf(a: Option<DescriptorAllocator>): (r: seq<DescriptorHeapStats>)
    reads if a.Some? then {a.value} else {}
    ensures |r| == if a.Some? then 1 else 0
  {
    if a.Some? then [NewHeapStats(a.value.descriptorType, a.value.maxDescriptors, a.value.allocatedCount)] else []
  }

  class DescriptorManager {
    var rtv: Option<DescriptorAllocator>
    var dsv: Option<DescriptorAllocator>
    var srvCbvUav: Option<DescriptorAllocator>
    var sampler: Option<DescriptorAllocator>

    function Allocator(s: HeapSlot): Option<DescriptorAllocator>
      reads this
    {
      match s
      case RtvSlot => rtv
      case DsvSlot => dsv
      case SrvCbvUavSlot => srvCbvUav
      case SamplerSlot => sampler
    }

    ghost function Repr(): set<object>
      reads this
    {
      set s: HeapSlot | Allocator(s).Some? :: Allocator(s).value
    }

    /** What each `init_*` method gives its slot: the kind and the shader visibility. */
    static predicate SlotShape(s: HeapSlot, a: DescriptorAllocator) {
      match s
      case RtvSlot => a.descriptorType == RenderTargetView && !a.shaderVisible
      case DsvSlot => a.descriptorType == DepthStencilView && !a.shaderVisible
      case SrvCbvUavSlot => a.descriptorType == ShaderResourceView && a.shaderVisible
      case SamplerSlot => a.descriptorType == Sampler && a.shaderVisible
    }

    /** Each present allocator is valid, has its slot's shape and belongs to one slot only. */
    ghost predicate Valid()
      reads this, Repr()
    {
      (forall s :: Allocator(s).Some? ==> Allocator(s).value.Valid() && SlotShape(s, Allocator(s).value)) &&
      (forall s1, s2 :: Allocator(s1).Some? && Allocator(s2).Some? && s1 != s2 ==>
        Allocator(s1).value != Allocator(s2).value)
    }

    constructor ()
      ensures Valid()
      ensures rtv.None? && dsv.None? && srvCbvUav.None? && sampler.None?
    {
      rtv, dsv, srvCbvUav, sampler := None, None, None, None;
    }

    /** Replaces the allocator of slot `s` by a fresh, empty one of the slot's shape. */
    method Init(s: HeapSlot, maxDescriptors: u32, incrementSize: u32)
      requires Valid()
      modifies this
      ensures Valid()
      ensures Allocator(s).Some? && fresh(Allocator(s).value)
      ensures Allocator(s).value.maxDescriptors == maxDescriptors
      ensures Allocator(s).value.incrementSize == incrementSize
      ensures Allocator(s).value.allocatedCount == 0 && Allocator(s).value.descriptors == map[]
      ensures s != RtvSlot ==> rtv == old(rtv)
      ensures s != DsvSlot ==> dsv == old(dsv)
      ensures s != SrvCbvUavSlot ==> srvCbvUav == old(srvCbvUav)
      ensures s != SamplerSlot ==> sampler == old(sampler)
    {
      var a: DescriptorAllocator;
      match s {
      case RtvSlot =>
        a := new DescriptorAllocator(RenderTargetView, maxDescriptors, false, incrementSize);
        rtv := Some(a);
      case DsvSlot =>
        a := new DescriptorAllocator(DepthStencilView, maxDescriptors, false, incrementSize);
        dsv := Some(a);
      case SrvCbvUavSlot =>
        a := new DescriptorAllocator(ShaderResourceView, maxDescriptors, true, incrementSize);
        srvCbvUav := Some(a);
      case SamplerSlot =>
        a := new DescriptorAllocator(Sampler, maxDescriptors, true, incrementSize);
        sampler := Some(a);
      }
      assert forall o :: o != s ==> Allocator(o) == old(Allocator(o));
      assert Allocator(s) == Some(a) && SlotShape(s, a);
    }

    method InitRtv(maxDescriptors: u32, incrementSize: u32)
      requires Valid()
      modifies this
      ensures Valid() && rtv.Some? && fresh(rtv.value)
      ensures rtv.value.maxDescriptors == maxDescriptors && rtv.value.incrementSize == incrementSize
      ensures rtv.value.allocatedCount == 0 && rtv.value.descriptors == map[]
      ensures dsv == old(dsv) && srvCbvUav == old(srvCbvUav) && sampler == old(sampler)
    {
      Init(RtvSlot, maxDescriptors, incrementSize);
    }

    method InitDsv(maxDescriptors: u32, incrementSize: u32)
      requires Valid()
      modifies this
      ensures Valid() && dsv.Some? && fresh(dsv.value)
      ensures dsv.value.maxDescriptors == maxDescriptors && dsv.value.incrementSize == incrementSize
      ensures dsv.value.allocatedCount == 0 && dsv.value.descriptors == map[]
      ensures rtv == old(rtv) && srvCbvUav == old(srvCbvUav) && sampler == old(sampler)
    {
      Init(DsvSlot, maxDescriptors, incrementSize);
    }

    method InitSrvCbvUav(maxDescriptors: u32, incrementSize: u32)
      requires Valid()
      modifies this
      ensures Valid() && srvCbvUav.Some? && fresh(srvCbvUav.value)
      ensures srvCbvUav.value.maxDescriptors == maxDescriptors && srvCbvUav.value.incrementSize == incrementSize
      ensures srvCbvUav.value.allocatedCount == 0 && srvCbvUav.value.descriptors == map[]
      ensures rtv == old(rtv) && dsv == old(dsv) && sampler == old(sampler)
    {
      Init(SrvCbvUavSlot, maxDescriptors, incrementSize);
    }

    method InitSampler(maxDescriptors: u32, incrementSize: u32)
      requires Valid()
      modifies this
      ensures Valid() && sampler.Some? && fresh(sampler.value)
      ensures sampler.value.maxDescriptors == maxDescriptors && sampler.value.incrementSize == incrementSize
      ensures sampler.value.allocatedCount == 0 && sampler.value.descriptors == map[]
      ensures rtv == old(rtv) && dsv == old(dsv) && srvCbvUav == old(srvCbvUav)
    {
      Init(SamplerSlot, maxDescriptors, incrementSize);
    }

    /** `get_allocator`: the allocator serving kind `t`, or the not-initialised error. */
    function AllocatorFor(t: DescriptorType): (r: Result<DescriptorAllocator, DistRenderError>)
      reads this
      ensures r.Ok? <==> Allocator(SlotOf(t)).Some?
      ensures r.Ok? ==> r.value == Allocator(SlotOf(t)).value
      ensures r.Err? ==> r.error == NotInitialized(t)
    {
      match Allocator(SlotOf(t))
      case None => Err(NotInitialized(t))
      case Some(a) => Ok(a)
    }

    method Allocate(t: DescriptorType, id: u64, cpuBase: usize, gpuBase: Option<u64>)
      returns (r: Result<DescriptorHandle, DistRenderError>)
      requires Valid()
      requires Allocator(SlotOf(t)).Some? ==> Allocator(SlotOf(t)).value.AllocateFits(id, cpuBase, gpuBase)
      modifies Repr()
      ensures Valid()
      ensures Allocator(SlotOf(t)).None? ==> r == Err(NotInitialized(t))
      ensures forall s :: Allocator(s).Some? && s != SlotOf(t) ==> unchanged(Allocator(s).value)
      ensures Allocator(SlotOf(t)).Some? ==>
        var a := Allocator(SlotOf(t)).value;
        (r.Ok? <==> !old(a.IsFull()) && id !in old(a.descriptors)) &&
        (old(a.IsFull()) ==> r == Err(OutOfBudget(old(a.allocatedCount), a.maxDescriptors, a.descriptorType))) &&
        (!old(a.IsFull()) && id in old(a.descriptors) ==> r == Err(AlreadyExists(id))) &&
        (r.Ok? ==> r.value == SlotHandle(cpuBase, gpuBase, old(a.allocatedCount), a.incrementSize) &&
                   a.allocatedCount == old(a.allocatedCount) + 1 &&
                   a.descriptors == old(a.descriptors)[id := r.value]) &&
        (r.Err? ==> a.allocatedCount == old(a.allocatedCount) && a.descriptors == old(a.descriptors))
    {
      var slot := AllocatorFor(t);
      if slot.Err? {
        return Err(slot.error);
      }
      var a := slot.value;
      r := a.Allocate(id, cpuBase, gpuBase);
    }

    function Get(t: DescriptorType, id: u64): (r: Result<DescriptorHandle, DistRenderError>)
      reads this, Repr()
      ensures Allocator(SlotOf(t)).None? ==> r == Err(NotInitialized(t))
      ensures Allocator(SlotOf(t)).Some? ==>
        var a := Allocator(SlotOf(t)).value;
        (id in a.descriptors ==> r == Ok(a.descriptors[id])) &&
        (id !in a.descriptors ==> r == Err(NotFound(id, t)))
    {
      match AllocatorFor(t)
      case Err(e) => Err(e)
      case Ok(a) => if id in a.descriptors then Ok(a.descriptors[id]) else Err(NotFound(id, t))
    }

    method Free(t: DescriptorType, id: u64) returns (r: Result<(), DistRenderError>)
      requires Valid()
      modifies Repr()
      ensures Valid()
      ensures Allocator(SlotOf(t)).None? ==> r == Err(NotInitialized(t))
      ensures forall s :: Allocator(s).Some? && s != SlotOf(t) ==> unchanged(Allocator(s).value)
      ensures Allocator(SlotOf(t)).Some? ==>
        var a := Allocator(SlotOf(t)).value;
        (r.Ok? <==> id in old(a.descriptors)) &&
        (r.Err? ==> r.error == FreeFailed(id)) &&
        a.descriptors == old(a.descriptors) - {id} && a.allocatedCount == old(a.allocatedCount)
    {
      var slot := AllocatorFor(t);
      if slot.Err? {
        return Err(slot.error);
      }
      var removed := slot.value.Free(id);
      r := if removed then Ok(()) else Err(FreeFailed(id));
    }

    /** Statistics of the heap serving kind `t`, reported under `t` itself. */
    function Stats(t: DescriptorType): (r: Result<DescriptorHeapStats, DistRenderError>)
      reads this, Repr()
      ensures Allocator(SlotOf(t)).None? ==> r == Err(NotInitialized(t))
      ensures Allocator(SlotOf(t)).Some? ==>
        var a := Allocator(SlotOf(t)).value;
        r == Ok(NewHeapStats(t, a.maxDescriptors, a.allocatedCount))
    {
      match AllocatorFor(t)
      case Err(e) => Err(e)
      case Ok(a) => Ok(NewHeapStats(t, a.maxDescriptors, a.allocatedCount))
    }

    /** The statistics of every initialised heap, in the order RTV, DSV, SRV/CBV/UAV, sampler. */
    method AllStats() returns (stats: seq<DescriptorHeapStats>)
      ensures stats == StatsOf(rtv) + StatsOf(dsv) + StatsOf(srvCbvUav) + StatsOf(sampler)
    {
      stats := [];
      if rtv.Some? {
        var a := rtv.value;
        stats := stats + [NewHeapStats(a.descriptorType, a.maxDescriptors, a.allocatedCount)];
      }
      if dsv.Some? {
        var a := dsv.value;
        stats := stats + [NewHeapStats(a.descriptorType, a.maxDescriptors, a.allocatedCount)];
      }
      if srvCbvUav.Some? {
        var a := srvCbvUav.value;
        stats := stats + [NewHeapStats(a.descriptorType, a.maxDescriptors, a.allocatedCount)];
      }
      if sampler.Some? {
        var a := sampler.value;
        stats := stats + [NewHeapStats(a.descriptorType, a.maxDescriptors, a.allocatedCount)];
      }
    }
  }

  /** CBV, SRV and UAV descriptors share one allocator, so their ids share one namespace. */
  lemma SharedShaderResourceHeap(m: DescriptorManager, id: u64)
    ensures m.Get(ConstantBufferView, id).Ok? <==> m.Get(ShaderResourceView, id).Ok?
    ensures m.Get(ShaderResourceView, id).Ok? <==> m.Get(UnorderedAccessView, id).Ok?
    ensures m.Get(ConstantBufferView, id).Ok? ==>
      m.Get(ConstantBufferView, id).value == m.Get(UnorderedAccessView, id).value
  {
  }

  /**
   * The manager unit test: with RTV, DSV and SRV/CBV/UAV heaps initialised, an RTV allocated
   * at base 1000 reads back with that pointer, the RTV heap reports 1 of 100 used, and the
   * descriptor can be freed.
   */
  method ManagerScenario()
    returns (handle: Result<DescriptorHandle, DistRenderError>, retrieved: Result<DescriptorHandle, DistRenderError>,
             stats: Result<DescriptorHeapStats, DistRenderError>, freed: Result<(), DistRenderError>)
    ensures handle.Ok? && handle.value.cpu.ptr == 1000
    ensures retrieved == handle
    ensures stats.Ok? && stats.value.capacity == 100 && stats.value.used == 1 && stats.value.available == 99
    ensures freed.Ok?
  {
    var manager := new DescriptorManager();
    manager.InitRtv(100, 32);
    var rtv := manager.rtv.value;
    manager.InitDsv(10, 32);
    manager.InitSrvCbvUav(128, 32);
    assert manager.Allocator(RtvSlot) == Some(rtv) && !rtv.IsFull() && rtv.descriptors == map[];
    handle := manager.Allocate(RenderTargetView, 0, 1000, None);
    assert handle == Ok(SlotHandle(1000, None, 0, 32));
    assert manager.rtv == Some(rtv) && rtv.allocatedCount == 1 && rtv.maxDescriptors == 100;
    retrieved := manager.Get(RenderTargetView, 0);
    stats := manager.Stats(RenderTargetView);
    assert stats == Ok(NewHeapStats(RenderTargetView, 100, 1));
    assert 0 in rtv.descriptors;
    freed := manager.Free(RenderTargetView, 0);
  }
}
