// The Direct3D 12 side of descriptor management: descriptor heaps, the handle of each of
// their slots, and the manager that creates the four heaps and initialises the matching
// backend-independent allocators. The device is represented by the increment size it
// reports per heap type and by the outcome of each heap creation, given as a parameter.
module Dx12Descriptor {
  import opened Wrappers
  import opened Ints
  import opened Errors
  import Descriptor

  /** `D3D12_DESCRIPTOR_HEAP_TYPE`. */
  datatype HeapType = RtvHeapType | DsvHeapType | CbvSrvUavHeapType | SamplerHeapType

  /** The heap type `Dx12DescriptorHeap::new` picks for a descriptor kind. */
  function HeapTypeOf(t: Descriptor.DescriptorType): (h: HeapType)
    ensures h == CbvSrvUavHeapType <==>
      t in {Descriptor.ConstantBufferView, Descriptor.ShaderResourceView, Descriptor.UnorderedAccessView}
    ensures h == RtvHeapType <==> t == Descriptor.RenderTargetView
    ensures h == DsvHeapType <==> t == Descriptor.DepthStencilView
    ensures h == SamplerHeapType <==> t == Descriptor.Sampler
  {
    match t
    case RenderTargetView => RtvHeapType
    case DepthStencilView => DsvHeapType
    case ConstantBufferView => CbvSrvUavHeapType
    case ShaderResourceView => CbvSrvUavHeapType
    case UnorderedAccessView => CbvSrvUavHeapType
    case Sampler => SamplerHeapType
  }

  /** The manager slot that serves each heap type. */
  function SlotOfHeapType(h: HeapType): Descriptor.HeapSlot {
    match h
    case RtvHeapType => Descriptor.RtvSlot
    case DsvHeapType => Descriptor.DsvSlot
    case CbvSrvUavHeapType => Descriptor.SrvCbvUavSlot
    case SamplerHeapType => Descriptor.SamplerSlot
  }

  /**
   * A kind goes to the Direct3D 12 heap whose allocator the backend-independent manager uses
   * for it, and two kinds share a heap type exactly when they share an allocator.
   */
  lemma HeapTypeAgreesWithSlot(a: Descriptor.DescriptorType, b: Descriptor.DescriptorType)
    ensures SlotOfHeapType(HeapTypeOf(a)) == Descriptor.SlotOf(a)
    ensures HeapTypeOf(a) == HeapTypeOf(b) <==> Descriptor.SlotOf(a) == Descriptor.SlotOf(b)
  {
  }

  /** The device: the handle increment size it reports for each heap type. */
  datatype Device = Device(rtvIncrement: u32, dsvIncrement: u32, cbvSrvUavIncrement: u32, samplerIncrement: u32)
  {
    /** `GetDescriptorHandleIncrementSize`. */
    function IncrementSize(h: HeapType): u32 {
      match h
      case RtvHeapType => rtvIncrement
      case DsvHeapType => dsvIncrement
      case CbvSrvUavHeapType => cbvSrvUavIncrement
      case SamplerHeapType => samplerIncrement
    }
  }

  /** The `ID3D12DescriptorHeap` object, known only by identity. */
  datatype HeapObject = HeapObject(id: nat)

  /** What a successful `CreateDescriptorHeap` yields: the object and its first handles. */
  datatype CreatedHeap = CreatedHeap(heap: HeapObject, cpuStart: usize, gpuStart: u64)

  /** `Dx12DescriptorHeap`. */
  datatype Dx12DescriptorHeap = Dx12DescriptorHeap(
    heap: HeapObject,
    descriptorType: Descriptor.DescriptorType,
    incrementSize: u32,
    cpuStart: usize,
    gpuStart: Option<u64>,
    numDescriptors: u32,
    shaderVisible: bool)

  function HeapCreationFailed(t: Descriptor.DescriptorType, debugText: string): DistRenderError {
    Graphics(ResourceCreation("Failed to create " + t.Name() + " descriptor heap: " + debugText))
  }

  /**
   * `Dx12DescriptorHeap::new`; `created` is what the device's `CreateDescriptorHeap` gives,
   * or the debug text of its error.
   */
  function NewHeap(device: Device, desc: Descriptor.DescriptorHeapDescriptor, created: Result<CreatedHeap, string>)
    : Result<Dx12DescriptorHeap, DistRenderError>
  {
    match created
    case Err(e) => Err(HeapCreationFailed(desc.descriptorType, e))
    case Ok(c) =>
      Ok(Dx12DescriptorHeap(
        c.heap, desc.descriptorType, device.IncrementSize(HeapTypeOf(desc.descriptorType)),
        c.cpuStart, if desc.shaderVisible then Some(c.gpuStart) else None,
        desc.numDescriptors, desc.shaderVisible))
  }

  /**
   * A heap is made exactly when the device creates it. It has the descriptor's kind, size and
   * visibility, the increment the device reports for the kind's heap type, and a GPU start
   * exactly when it is shader-visible.
   */
  lemma NewHeapFollowsDescriptor(device: Device, desc: Descriptor.DescriptorHeapDescriptor, created: Result<CreatedHeap, string>)
    ensures NewHeap(device, desc, created).Ok? <==> created.Ok?
    ensures created.Err? ==> NewHeap(device, desc, created) == Err(HeapCreationFailed(desc.descriptorType, created.error))
    ensures created.Ok? ==>
      var h := NewHeap(device, desc, created).value;
      h.heap == created.value.heap && h.cpuStart == created.value.cpuStart &&
      h.descriptorType == desc.descriptorType && h.numDescriptors == desc.numDescriptors &&
      h.shaderVisible == desc.shaderVisible &&
      h.incrementSize == device.IncrementSize(HeapTypeOf(desc.descriptorType)) &&
      (h.gpuStart.Some? <==> desc.shaderVisible)
  {
  }

  /**
   * Kinds that share a heap type get the same increment size from a device, so a CBV, SRV
   * or UAV heap steps its handles alike.
   */
  lemma SharedHeapTypeSharesIncrement(device: Device, a: Descriptor.DescriptorHeapDescriptor, b: Descriptor.DescriptorHeapDescriptor,
                                      ca: CreatedHeap, cb: CreatedHeap)
    requires HeapTypeOf(a.descriptorType) == HeapTypeOf(b.descriptorType)
    ensures NewHeap(device, a, Ok(ca)).value.incrementSize == NewHeap(device, b, Ok(cb)).value.incrementSize
  {
  }

  /** `cpu_handle` computes `index * increment_size` in u32 and adds it in usize; both must not overflow. */
  predicate CpuHandleFits(h: Dx12DescriptorHeap, index: u32) {
    index * h.incrementSize <= U32_MAX && h.cpuStart + index * h.incrementSize <= U64_MAX
  }

  /** `gpu_handle` computes the same product and adds it to the GPU start, when there is one. */
  predicate GpuHandleFits(h: Dx12DescriptorHeap, index: u32) {
    h.gpuStart.Some? ==> index * h.incrementSize <= U32_MAX && h.gpuStart.value + index * h.incrementSize <= U64_MAX
  }

  /** `cpu_handle`: slot `index` lies `index` increments past the heap's first CPU handle. */
  function CpuHandle(h: Dx12DescriptorHeap, index: u32): (r: Descriptor.CpuDescriptorHandle)
    requires CpuHandleFits(h, index)
    ensures r.index == index && r.ptr >= h.cpuStart
  {
    Descriptor.CpuDescriptorHandle(h.cpuStart + index * h.incrementSize, index)
  }

  /** `gpu_handle`: the same arithmetic on the GPU start, and no handle for a heap without one. */
  function GpuHandle(h: Dx12DescriptorHeap, index: u32): (r: Option<Descriptor.GpuDescriptorHandle>)
    requires GpuHandleFits(h, index)
    ensures r.Some? <==> h.gpuStart.Some?
    ensures r.Some? ==> r.value.index == index && r.value.ptr >= h.gpuStart.value
  {
    match h.gpuStart
    case None => None
    case Some(start) => Some(Descriptor.GpuDescriptorHandle(start + index * h.incrementSize, index))
  }

  /**
   * The handles of a heap's slots are the first slot's handles offset by the slot number, and
   * they are the handles the allocator of the same increment hands out for that slot.
   */
  lemma HeapHandlesAreAllocatorHandles(h: Dx12DescriptorHeap, index: u32)
    requires CpuHandleFits(h, index) && GpuHandleFits(h, index)
    ensures CpuHandle(h, index) == CpuHandle(h, 0).Offset(index, h.incrementSize)
    ensures GpuHandle(h, index).Some? ==> GpuHandle(h, index).value == GpuHandle(h, 0).value.Offset(index, h.incrementSize)
    ensures Descriptor.SlotHandle(h.cpuStart, h.gpuStart, index, h.incrementSize) ==
      Descriptor.DescriptorHandle(CpuHandle(h, index), GpuHandle(h, index))
  {
  }

  /** A heap made from a descriptor that is not shader-visible has no GPU handles at all. */
  lemma HiddenHeapHasNoGpuHandles(device: Device, desc: Descriptor.DescriptorHeapDescriptor, c: CreatedHeap, index: u32)
    requires !desc.shaderVisible
    ensures GpuHandleFits(NewHeap(device, desc, Ok(c)).value, index)
    ensures GpuHandle(NewHeap(device, desc, Ok(c)).value, index).None?
  {
  }

  /** The heap description each `init_*_heap` method creates its heap from. */
  function SlotHeapDescriptor(s: Descriptor.HeapSlot, n: u32): Descriptor.DescriptorHeapDescriptor {
    match s
    case RtvSlot => Descriptor.RtvHeap(n)
    case DsvSlot => Descriptor.DsvHeap(n)
    case SrvCbvUavSlot => Descriptor.SrvCbvUavHeap(n)
    case SamplerSlot => Descriptor.SamplerHeap(n)
  }

  /**
   * `shader_visible_heaps`: the SRV/CBV/UAV heap's object, then the sampler heap's, each only
   * when that heap exists and is shader-visible.
   */
  function VisibleHeaps(srvCbvUav: Option<Dx12DescriptorHeap>, sampler: Option<Dx12DescriptorHeap>): seq<Option<HeapObject>> {
    (if srvCbvUav.Some? && srvCbvUav.value.shaderVisible then [Some(srvCbvUav.value.heap)] else []) +
    (if sampler.Some? && sampler.value.shaderVisible then [Some(sampler.value.heap)] else [])
  }

  /**
   * Every entry of the list is the object of an existing shader-visible heap; both heaps, when
   * present and visible, are listed, the SRV/CBV/UAV heap first.
   */
  lemma VisibleHeapsOrder(srvCbvUav: Option<Dx12DescriptorHeap>, sampler: Option<Dx12DescriptorHeap>)
    ensures var r := VisibleHeaps(srvCbvUav, sampler);
      forall k :: 0 <= k < |r| ==> (r[k].Some? &&
        ((srvCbvUav.Some? && srvCbvUav.value.shaderVisible && r[k].value == srvCbvUav.value.heap) ||
         (sampler.Some? && sampler.value.shaderVisible && r[k].value == sampler.value.heap)))
    ensures srvCbvUav.Some? && srvCbvUav.value.shaderVisible && sampler.Some? && sampler.value.shaderVisible ==>
      VisibleHeaps(srvCbvUav, sampler) == [Some(srvCbvUav.value.heap), Some(sampler.value.heap)]
    ensures (srvCbvUav.None? || !srvCbvUav.value.shaderVisible) && (sampler.None? || !sampler.value.shaderVisible) ==>
      VisibleHeaps(srvCbvUav, sampler) == []
  {
  }

  /** A heap, when present, is served by an allocator of its kind, visibility, size and increment. */
  predicate HasAllocator(h: Option<Dx12DescriptorHeap>, a: Option<Descriptor.DescriptorAllocator>) {
    h.Some? ==>
      a.Some? &&
      a.value.descriptorType == h.value.descriptorType &&
      a.value.shaderVisible == h.value.shaderVisible &&
      a.value.maxDescriptors == h.value.numDescriptors &&
      a.value.incrementSize == h.value.incrementSize
  }

  /** `Dx12DescriptorManager`: the four heaps and the allocators that hand out their slots. */
  class Dx12DescriptorManager {
    const base: Descriptor.DescriptorManager
    var rtvHeap: Option<Dx12DescriptorHeap>
    var dsvHeap: Option<Dx12DescriptorHeap>
    var srvCbvUavHeap: Option<Dx12DescriptorHeap>
    var samplerHeap: Option<Dx12DescriptorHeap>

    function Heap(s: Descriptor.HeapSlot): Option<Dx12DescriptorHeap>
      reads this
    {
      match s
      case RtvSlot => rtvHeap
      case DsvSlot => dsvHeap
      case SrvCbvUavSlot => srvCbvUavHeap
      case SamplerSlot => samplerHeap
    }

    /**
     * The base manager is valid, and every heap present has an allocator in the same slot with
     * the heap's kind, visibility, size and increment.
     */
    ghost predicate Valid()
      reads this, base, base.Repr()
    {
      base.Valid() &&
      HasAllocator(rtvHeap, base.rtv) && HasAllocator(dsvHeap, base.dsv) &&
      HasAllocator(srvCbvUavHeap, base.srvCbvUav) && HasAllocator(samplerHeap, base.sampler)
    }

    /** `Dx12DescriptorManager::new`: no heap yet, and no allocator in the base manager. */
    constructor ()
      ensures Valid() && fresh(base)
      ensures rtvHeap.None? && dsvHeap.None? && srvCbvUavHeap.None? && samplerHeap.None?
      ensures base.rtv.None? && base.dsv.None? && base.srvCbvUav.None? && base.sampler.None?
    {
      base := new Descriptor.DescriptorManager();
      rtvHeap, dsvHeap, srvCbvUavHeap, samplerHeap := None, None, None, None;
    }

    /**
     * The body shared by the four `init_*_heap` methods: create the slot's heap; on success,
     * give the base manager a fresh allocator of that size and the heap's increment, then
     * store the heap. A failed creation changes nothing.
     */
    method InitHeap(s: Descriptor.HeapSlot, device: Device, numDescriptors: u32, created: Result<CreatedHeap, string>)
      returns (r: Result<(), DistRenderError>)
      requires Valid()
      modifies this, base
      ensures Valid()
      ensures r.Ok? <==> created.Ok?
      ensures r.Err? ==> r.error == HeapCreationFailed(SlotHeapDescriptor(s, numDescriptors).descriptorType, created.error)
      ensures r.Err? ==> Heap(s) == old(Heap(s)) && base.Allocator(s) == old(base.Allocator(s))
      ensures r.Ok? ==> Heap(s) == Some(NewHeap(device, SlotHeapDescriptor(s, numDescriptors), created).value)
      ensures r.Ok? ==> (base.Allocator(s).Some? && fresh(base.Allocator(s).value) &&
        base.Allocator(s).value.allocatedCount == 0 && base.Allocator(s).value.descriptors == map[])
      ensures s != Descriptor.RtvSlot ==> rtvHeap == old(rtvHeap) && base.rtv == old(base.rtv)
      ensures s != Descriptor.DsvSlot ==> dsvHeap == old(dsvHeap) && base.dsv == old(base.dsv)
      ensures s != Descriptor.SrvCbvUavSlot ==> srvCbvUavHeap == old(srvCbvUavHeap) && base.srvCbvUav == old(base.srvCbvUav)
      ensures s != Descriptor.SamplerSlot ==> samplerHeap == old(samplerHeap) && base.sampler == old(base.sampler)
    {
      var desc := SlotHeapDescriptor(s, numDescriptors);
      var heap := NewHeap(device, desc, created);
      if heap.Err? {
        return Err(heap.error);
      }
      base.Init(s, numDescriptors, heap.value.incrementSize);
      match s {
      case RtvSlot => rtvHeap := Some(heap.value);
      case DsvSlot => dsvHeap := Some(heap.value);
      case SrvCbvUavSlot => srvCbvUavHeap := Some(heap.value);
      case SamplerSlot => samplerHeap := Some(heap.value);
      }
      r := Ok(());
    }

    method InitRtvHeap(device: Device, numDescriptors: u32, created: Result<CreatedHeap, string>)
      returns (r: Result<(), DistRenderError>)
      requires Valid()
      modifies this, base
      ensures Valid()
      ensures r.Ok? <==> created.Ok?
      ensures r.Err? ==> (r.error == HeapCreationFailed(Descriptor.RenderTargetView, created.error) &&
        rtvHeap == old(rtvHeap) && base.rtv == old(base.rtv))
      ensures r.Ok? ==> rtvHeap == Some(NewHeap(device, Descriptor.RtvHeap(numDescriptors), created).value)
      ensures r.Ok? ==> (base.rtv.Some? && fresh(base.rtv.value) &&
        base.rtv.value.allocatedCount == 0 && base.rtv.value.descriptors == map[])
      ensures base.dsv == old(base.dsv) && base.srvCbvUav == old(base.srvCbvUav) && base.sampler == old(base.sampler)
      ensures dsvHeap == old(dsvHeap) && srvCbvUavHeap == old(srvCbvUavHeap) && samplerHeap == old(samplerHeap)
    {
      r := InitHeap(Descriptor.RtvSlot, device, numDescriptors, created);
    }

    method InitDsvHeap(device: Device, numDescriptors: u32, created: Result<CreatedHeap, string>)
      returns (r: Result<(), DistRenderError>)
      requires Valid()
      modifies this, base
      ensures Valid()
      ensures r.Ok? <==> created.Ok?
      ensures r.Err? ==> (r.error == HeapCreationFailed(Descriptor.DepthStencilView, created.error) &&
        dsvHeap == old(dsvHeap) && base.dsv == old(base.dsv))
      ensures r.Ok? ==> dsvHeap == Some(NewHeap(device, Descriptor.DsvHeap(numDescriptors), created).value)
      ensures r.Ok? ==> (base.dsv.Some? && fresh(base.dsv.value) &&
        base.dsv.value.allocatedCount == 0 && base.dsv.value.descriptors == map[])
      ensures base.rtv == old(base.rtv) && base.srvCbvUav == old(base.srvCbvUav) && base.sampler == old(base.sampler)
      ensures rtvHeap == old(rtvHeap) && srvCbvUavHeap == old(srvCbvUavHeap) && samplerHeap == old(samplerHeap)
    {
      r := InitHeap(Descriptor.DsvSlot, device, numDescriptors, created);
    }

    method InitSrvCbvUavHeap(device: Device, numDescriptors: u32, created: Result<CreatedHeap, string>)
      returns (r: Result<(), DistRenderError>)
      requires Valid()
      modifies this, base
      ensures Valid()
      ensures r.Ok? <==> created.Ok?
      ensures r.Err? ==> (r.error == HeapCreationFailed(Descriptor.ShaderResourceView, created.error) &&
        srvCbvUavHeap == old(srvCbvUavHeap) && base.srvCbvUav == old(base.srvCbvUav))
      ensures r.Ok? ==> srvCbvUavHeap == Some(NewHeap(device, Descriptor.SrvCbvUavHeap(numDescriptors), created).value)
      ensures r.Ok? ==> (base.srvCbvUav.Some? && fresh(base.srvCbvUav.value) &&
        base.srvCbvUav.value.allocatedCount == 0 && base.srvCbvUav.value.descriptors == map[])
      ensures base.rtv == old(base.rtv) && base.dsv == old(base.dsv) && base.sampler == old(base.sampler)
      ensures rtvHeap == old(rtvHeap) && dsvHeap == old(dsvHeap) && samplerHeap == old(samplerHeap)
    {
      r := InitHeap(Descriptor.SrvCbvUavSlot, device, numDescriptors, created);
    }

    method InitSamplerHeap(device: Device, numDescriptors: u32, created: Result<CreatedHeap, string>)
      returns (r: Result<(), DistRenderError>)
      requires Valid()
      modifies this, base
      ensures Valid()
      ensures r.Ok? <==> created.Ok?
      ensures r.Err? ==> (r.error == HeapCreationFailed(Descriptor.Sampler, created.error) &&
        samplerHeap == old(samplerHeap) && base.sampler == old(base.sampler))
      ensures r.Ok? ==> samplerHeap == Some(NewHeap(device, Descriptor.SamplerHeap(numDescriptors), created).value)
      ensures r.Ok? ==> (base.sampler.Some? && fresh(base.sampler.value) &&
        base.sampler.value.allocatedCount == 0 && base.sampler.value.descriptors == map[])
      ensures base.rtv == old(base.rtv) && base.dsv == old(base.dsv) && base.srvCbvUav == old(base.srvCbvUav)
      ensures rtvHeap == old(rtvHeap) && dsvHeap == old(dsvHeap) && srvCbvUavHeap == old(srvCbvUavHeap)
    {
      r := InitHeap(Descriptor.SamplerSlot, device, numDescriptors, created);
    }

    function ShaderVisibleHeaps(): seq<Option<HeapObject>>
      reads this
    {
      VisibleHeaps(srvCbvUavHeap, samplerHeap)
    }
  }

  /**
   * The manager test and the binding order: a new manager has no heaps and binds none; once
   * the SRV/CBV/UAV and sampler heaps exist, both are bound, in that order, and the RTV heap
   * never is.
   */
  method ManagerScenario(device: Device, a: CreatedHeap, b: CreatedHeap, c: CreatedHeap)
    returns (empty: bool, boundAfterRtv: seq<Option<HeapObject>>, bound: seq<Option<HeapObject>>,
             dsv: Result<(), DistRenderError>, dsvMissing: bool)
    ensures empty && boundAfterRtv == [] && bound == [Some(c.heap), Some(b.heap)]
    ensures dsv == Err(HeapCreationFailed(Descriptor.DepthStencilView, "E_OUTOFMEMORY")) && dsvMissing
  {
    var m := new Dx12DescriptorManager();
    empty := m.rtvHeap.None? && m.dsvHeap.None? && m.srvCbvUavHeap.None? && m.samplerHeap.None?;
    var r1 := m.InitRtvHeap(device, 100, Ok(a));
    boundAfterRtv := m.ShaderVisibleHeaps();
    var r2 := m.InitSamplerHeap(device, 16, Ok(b));
    var r3 := m.InitSrvCbvUavHeap(device, 128, Ok(c));
    bound := m.ShaderVisibleHeaps();
    dsv := m.InitDsvHeap(device, 8, Err("E_OUTOFMEMORY"));
    dsvMissing := m.dsvHeap.None?;
  }
}
