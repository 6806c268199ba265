// Buffer descriptors, the upload-buffer layout and the ring of per-frame resources.
module Resource {
  import opened Wrappers
  import opened Ints

  datatype BufferUsageType = Vertex | Index | Constant | Storage | Upload | ReadBack

  datatype MemoryType = DeviceLocal | HostVisible | HostCoherent

  /** Placement alignment of constant buffers required by Direct3D 12. */
  const CONSTANT_BUFFER_ALIGNMENT: nat := 256

  /**
   * `(size + 255) & !255`: clearing the low eight bits of `size + 255`.
   * The source panics when `size + 255` overflows a u64.
   */
  function AlignTo256(size: u64): (r: u64)
    requires size + 255 <= U64_MAX
    ensures r % CONSTANT_BUFFER_ALIGNMENT == 0
    ensures size <= r < size + CONSTANT_BUFFER_ALIGNMENT
  {
    (size + 255) - (size + 255) % 256
  }

  /** No multiple of 256 lies between `size` and its alignment. */
  lemma AlignTo256IsLeast(size: u64, m: nat)
    requires size + 255 <= U64_MAX
    requires m % CONSTANT_BUFFER_ALIGNMENT == 0 && size <= m
    ensures AlignTo256(size) <= m
  {
  }

  datatype BufferDescriptor = BufferDescriptor(
    size: u64,
    usage: BufferUsageType,
    memoryType: MemoryType,
    name: Option<string>)
  {
    function WithName(n: string): (r: BufferDescriptor)
      ensures r.name == Some(n)
      ensures r.size == size && r.usage == usage && r.memoryType == memoryType
    {
      this.(name := Some(n))
    }

    /** Constant buffers are rounded up to the 256-byte placement alignment. */
    function AlignedSize(): (r: u64)
      requires usage == Constant ==> size + 255 <= U64_MAX
      ensures usage == Constant ==> r % CONSTANT_BUFFER_ALIGNMENT == 0 && size <= r < size + 256
      ensures usage != Constant ==> r == size
    {
      if usage == Constant then AlignTo256(size) else size
    }
  }

  function NewBufferDescriptor(size: u64, usage: BufferUsageType, memoryType: MemoryType): (r: BufferDescriptor)
    ensures r.name.None? && r.size == size && r.usage == usage && r.memoryType == memoryType
  {
    BufferDescriptor(size, usage, memoryType, None)
  }

  lemma AlignmentExamples()
    ensures NewBufferDescriptor(100, Constant, HostVisible).AlignedSize() == 256
    ensures NewBufferDescriptor(300, Constant, HostVisible).AlignedSize() == 512
    ensures NewBufferDescriptor(100, Vertex, DeviceLocal).AlignedSize() == 100
  {
  }

  /**
   * `UploadBuffer<T>`: `rawElementSize` stands for `size_of::<T>()`. The layout is fixed at
   * construction, so the buffer is a value.
   */
  datatype UploadBuffer = UploadBuffer(
    elementCount: usize,
    elementSize: u64,
    totalSize: u64,
    usage: BufferUsageType)
  {
    ghost predicate Valid() {
      totalSize == elementSize * elementCount
    }

    /** Byte offset of element `index`; the source asserts `index < element_count`. */
    function ElementOffset(index: usize): (r: u64)
      requires Valid() && index < elementCount
      ensures r + elementSize <= totalSize
    {
      assert elementSize * index + elementSize == elementSize * (index + 1);
      assert elementSize * (index + 1) <= elementSize * elementCount by {
        MulMonotone(elementSize, index + 1, elementCount);
      }
      elementSize * index
    }

    /** A host-visible buffer descriptor covering the whole buffer. */
    function Descriptor(name: Option<string>): (r: BufferDescriptor)
      ensures r.size == totalSize && r.usage == usage && r.memoryType == HostVisible && r.name == name
    {
      BufferDescriptor(totalSize, usage, HostVisible, name)
    }
  }

  lemma MulMonotone(a: nat, b: nat, c: nat)
    requires b <= c
    ensures a * b <= a * c
  {
  }

  /** Element size after alignment, as `UploadBuffer::new` computes it. */
  function UploadElementSize(rawElementSize: u64, usage: BufferUsageType): u64
    requires usage == Constant ==> rawElementSize + 255 <= U64_MAX
  {
    if usage == Constant then AlignTo256(rawElementSize) else rawElementSize
  }

  /** The source panics when `element_size * element_count` overflows a u64. */
  function NewUploadBuffer(rawElementSize: u64, elementCount: usize, usage: BufferUsageType): (r: UploadBuffer)
    requires usage == Constant ==> rawElementSize + 255 <= U64_MAX
    requires UploadElementSize(rawElementSize, usage) * elementCount <= U64_MAX
    ensures r.Valid() && r.elementCount == elementCount && r.usage == usage
    ensures usage == Constant ==>
      r.elementSize % CONSTANT_BUFFER_ALIGNMENT == 0 && rawElementSize <= r.elementSize < rawElementSize + 256
    ensures usage != Constant ==> r.elementSize == rawElementSize
  {
    var size := UploadElementSize(rawElementSize, usage);
    UploadBuffer(elementCount, size, size * elementCount, usage)
  }

  /** Consecutive elements are exactly one (aligned) element apart, so elements never overlap. */
  lemma ConsecutiveOffsets(b: UploadBuffer, i: usize)
    requires b.Valid() && i + 1 < b.elementCount
    ensures b.ElementOffset(i + 1) == b.ElementOffset(i) + b.elementSize
  {
  }

  lemma UploadBufferExamples()
    ensures NewUploadBuffer(4, 10, Constant) == UploadBuffer(10, 256, 2560, Constant)
    ensures NewUploadBuffer(4, 10, Vertex) == UploadBuffer(10, 4, 40, Vertex)
  {
  }

  // ---------------------------------------------------------------- frame resources

  datatype FrameResource = FrameResource(frameIndex: usize, fenceValue: u64, available: bool)
  {
    function MarkInUse(fence: u64): (r: FrameResource)
      ensures !r.available && r.fenceValue == fence && r.frameIndex == frameIndex
    {
      this.(available := false, fenceValue := fence)
    }

    function MarkAvailable(): (r: FrameResource)
      ensures r.available && r.fenceValue == fenceValue && r.frameIndex == frameIndex
    {
      this.(available := true)
    }
  }

  function NewFrameResource(frameIndex: usize): (r: FrameResource)
    ensures r.frameIndex == frameIndex && r.fenceValue == 0 && r.available
  {
    FrameResource(frameIndex, 0, true)
  }

  /** The slot after `i` in a ring of `count` slots. */
  function NextSlot(i: nat, count: nat): (r: nat)
    requires count > 0
    ensures r < count
  {
    (i + 1) % count
  }

  /** The cursor after `n` calls of `advance`. */
  function AdvancedBy(i: nat, n: nat, count: nat): (r: nat)
    requires count > 0
  {
    if n == 0 then i else NextSlot(AdvancedBy(i, n - 1, count), count)
  }

  lemma NextSlotWraps(x: nat, count: nat)
    requires x < count
    ensures NextSlot(x, count) == if x + 1 < count then x + 1 else 0
  {
    if x + 1 == count {
      assert (x + 1) % count == 0;
    }
  }

  /** Within one turn of the ring, advancing `n` times adds `n` and wraps past the end once. */
  lemma {:induction false} AdvancedByWithinTurn(i: nat, n: nat, count: nat)
    requires i < count && n <= count
    ensures AdvancedBy(i, n, count) == if i + n < count then i + n else i + n - count
  {
    if n > 0 {
      AdvancedByWithinTurn(i, n - 1, count);
      NextSlotWraps(AdvancedBy(i, n - 1, count), count);
    }
  }

  /** After `count` advances the cursor is back where it started. */
  lemma AdvanceFullCircle(i: nat, count: nat)
    requires i < count
    ensures AdvancedBy(i, count, count) == i
  {
    AdvancedByWithinTurn(i, count, count);
  }

  /** One slot as `update_availability(c)` leaves it. */
  function Release(r: FrameResource, completed: u64): FrameResource {
    if !r.available && r.fenceValue <= completed then r.MarkAvailable() else r
  }

  /**
   * The slots as `update_availability(c)` leaves them: a slot becomes available exactly when
   * its fence has completed; no slot becomes unavailable and no fence value changes.
   */
  function Released(rs: seq<FrameResource>, completed: u64): (r: seq<FrameResource>)
    ensures |r| == |rs|
    ensures forall i :: 0 <= i < |rs| ==>
      r[i].frameIndex == rs[i].frameIndex && r[i].fenceValue == rs[i].fenceValue &&
      (r[i].available <==> rs[i].available || rs[i].fenceValue <= completed)
  {
    seq(|rs|, i requires 0 <= i < |rs| => Release(rs[i], completed))
  }

  lemma ReleasedIdempotent(rs: seq<FrameResource>, completed: u64)
    ensures Released(Released(rs, completed), completed) == Released(rs, completed)
  {
  }

  /** Releasing up to `c1` and then up to a later `c2` is releasing up to `c2`. */
  lemma ReleasedAbsorbs(rs: seq<FrameResource>, c1: u64, c2: u64)
    requires c1 <= c2
    ensures Released(Released(rs, c1), c2) == Released(rs, c2)
  {
  }

  class FrameResourcePool {
    const resources: array<FrameResource>
    var currentIndex: usize
    const count: usize

    ghost predicate Valid()
      reads this, resources
    {
      count >= 2 && resources.Length == count && currentIndex < count &&
      forall i :: 0 <= i < count ==> resources[i].frameIndex == i
    }

    /** The source asserts `count >= 2`. */
    constructor (count: usize)
      requires count >= 2
      ensures Valid() && fresh(resources) && this.count == count && currentIndex == 0
      ensures forall i :: 0 <= i < count ==> resources[i] == NewFrameResource(i)
    {
      this.count := count;
      resources := new FrameResource[count](i requires 0 <= i < count => NewFrameResource(i));
      currentIndex := 0;
    }

    constructor TripleBuffering()
      ensures Valid() && fresh(resources) && count == 3 && currentIndex == 0
      ensures forall i :: 0 <= i < count ==> resources[i] == NewFrameResource(i)
    {
      count := 3;
      resources := new FrameResource[3](i requires 0 <= i < 3 => NewFrameResource(i));
      currentIndex := 0;
    }

    constructor DoubleBuffering()
      ensures Valid() && fresh(resources) && count == 2 && currentIndex == 0
      ensures forall i :: 0 <= i < count ==> resources[i] == NewFrameResource(i)
    {
      count := 2;
      resources := new FrameResource[2](i requires 0 <= i < 2 => NewFrameResource(i));
      currentIndex := 0;
    }

    function Current(): FrameResource
      requires Valid()
      reads this, resources
    {
      resources[currentIndex]
    }

    function Get(index: usize): (r: Option<FrameResource>)
      requires Valid()
      reads this, resources
      ensures r.Some? <==> index < count
      ensures r.Some? ==> r.value == resources[index] && r.value.frameIndex == index
    {
      if index < count then Some(resources[index]) else None
    }

    /** `current_mut().mark_in_use(fence)`. */
    method MarkCurrentInUse(fence: u64)
      requires Valid()
      modifies resources
      ensures Valid()
      ensures resources[..] == old(resources[..])[currentIndex := old(Current()).MarkInUse(fence)]
    {
      resources[currentIndex] := resources[currentIndex].MarkInUse(fence);
    }

    /** `current_mut().mark_available()`. */
    method MarkCurrentAvailable()
      requires Valid()
      modifies resources
      ensures Valid()
      ensures resources[..] == old(resources[..])[currentIndex := old(Current()).MarkAvailable()]
    {
      resources[currentIndex] := resources[currentIndex].MarkAvailable();
    }

    method Advance() returns (r: FrameResource)
      requires Valid()
      modifies this
      ensures Valid()
      ensures currentIndex == NextSlot(old(currentIndex), count)
      ensures r == Current()
    {
      currentIndex := (currentIndex + 1) % count;
      r := resources[currentIndex];
    }

    method UpdateAvailability(completed: u64)
      requires Valid()
      modifies resources
      ensures Valid()
      ensures resources[..] == Released(old(resources[..]), completed)
    {
      for i := 0 to resources.Length
        invariant forall j :: 0 <= j < i ==> resources[j] == Release(old(resources[j]), completed)
        invariant forall j :: i <= j < resources.Length ==> resources[j] == old(resources[j])
      {
        if !resources[i].available && resources[i].fenceValue <= completed {
          resources[i] := resources[i].MarkAvailable();
        }
      }
    }

    /** The fence to wait for before the next slot may be reused, if it is still in use. */
    function NextAvailableFenceValue(): (r: Option<u64>)
      requires Valid()
      reads this, resources
      ensures r.None? <==> resources[NextSlot(currentIndex, count)].available
      ensures r.Some? ==> r.value == resources[NextSlot(currentIndex, count)].fenceValue
    {
      var next := resources[(currentIndex + 1) % count];
      if next.available then None else Some(next.fenceValue)
    }
  }

  /**
   * The render loop of the frame-cycling unit test: ten frames on a triple-buffered pool, each
   * frame's fence completing two frames after it was issued. No frame ever finds its slot
   * still in use, and after completing fence 10 every slot is available again.
   */
  method FrameCycling() returns (reusedBusySlot: bool, allAvailable: bool)
    ensures !reusedBusySlot && allAvailable
  {
    var pool := new FrameResourcePool(3);
    reusedBusySlot := false;
    for frame := 0 to 10
      invariant pool.Valid() && pool.count == 3 && pool.currentIndex == frame % 3
      invariant !reusedBusySlot
      invariant forall j :: 0 <= j < 3 && !pool.resources[j].available ==>
        pool.resources[j].fenceValue % 3 == j &&
        frame - 2 <= pool.resources[j].fenceValue < frame
    {
      var fence := frame;
      reusedBusySlot := reusedBusySlot || !pool.Current().available;
      pool.MarkCurrentInUse(fence);
      var _ := pool.Advance();
      assert pool.currentIndex == (frame + 1) % 3;
      if frame >= 2 {
        pool.UpdateAvailability(fence - 2);
      }
    }
    pool.UpdateAvailability(10);
    allAvailable := forall j :: 0 <= j < 3 ==> pool.resources[j].available;
  }
}
