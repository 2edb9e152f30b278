/** An abstract model of the Vulkan Memory Allocator (VMA), the external library
    that `avk::vma_handle` drives. Only what the handle can observe is modelled:
    which (resource, allocation) pairs are live, the property flags of each
    memory type, the cached allocation info, how often an allocation is mapped,
    what the host and the device see of its bytes, and the log of the
    state-changing calls the allocator received (the two read-only queries,
    `vmaGetAllocationInfo` and `vmaGetMemoryTypeProperties`, are not logged). */
module Vma {

  /** `VK_NULL_HANDLE` / `nullptr`: handles are naturals, and 0 is the null handle. */
  const Null: nat := 0

  /** The two resource kinds that carry GPU backing memory (`vk::Buffer`, `vk::Image`). */
  datatype ResourceKind = Buffer | Image

  /** Bits of `vk::MemoryPropertyFlags`; a flag set is a set of them. */
  datatype MemoryProperty =
    | DeviceLocal | HostVisible | HostCoherent | HostCached | LazilyAllocated | Protected

  type MemoryPropertyFlags = set<MemoryProperty>

  /** `VmaMemoryUsage`. */
  datatype MemoryUsage =
    | Unknown | GpuOnly | CpuOnly | CpuToGpu | GpuToCpu | CpuCopy | GpuLazilyAllocated
    | Auto | AutoPreferDevice | AutoPreferHost

  /** `VmaAllocationCreateInfo`; `flags` and `memoryTypeBits` are opaque bit masks. */
  datatype AllocationCreateInfo = AllocationCreateInfo(
    flags: nat,
    usage: MemoryUsage,
    requiredFlags: MemoryPropertyFlags,
    preferredFlags: MemoryPropertyFlags,
    memoryTypeBits: nat,
    pool: nat)

  /** The value-initialised `VmaAllocationCreateInfo{}`: every field zero or null. */
  const EmptyCreateInfo := AllocationCreateInfo(0, Unknown, {}, {}, 0, Null)

  /** `VmaAllocationInfo`: the memory type the allocator chose, the device memory
      block and the offset of the allocation inside it, and its size. */
  datatype AllocationInfo = AllocationInfo(memoryType: nat, deviceMemory: nat, offset: nat, size: nat)

  /** The value-initialised `VmaAllocationInfo{}`. */
  const EmptyAllocationInfo := AllocationInfo(0, Null, 0, 0)

  /** A resource bound to the allocation that backs it. */
  datatype Binding = Binding(kind: ResourceKind, resource: nat, allocation: nat)

  /** The size argument of a flush or an invalidate; `WholeSize` is `VK_WHOLE_SIZE`. */
  datatype Extent = WholeSize | Bytes(count: nat)

  /** One call the allocator received. */
  datatype Call =
    | CreateResource(kind: ResourceKind, resource: nat, allocation: nat)
    | DestroyResource(kind: ResourceKind, resource: nat, allocation: nat)
    | MapMemory(allocation: nat)
    | InvalidateAllocation(allocation: nat, offset: nat, size: Extent)
    | FlushAllocation(allocation: nat, offset: nat, size: Extent)
    | UnmapMemory(allocation: nat)

  newtype Byte = b: int | 0 <= b < 256

  /** The contents of one allocation as the host (through a mapped pointer and
      the CPU caches) and as the device see them. On host-coherent memory the two
      agree; on other memory they meet only through a flush (host to device) or
      an invalidate (device to host). */
  datatype Views = Views(host: seq<Byte>, device: seq<Byte>)

  /** `vmaFlushAllocation` over the whole allocation: host writes reach the device. */
  function Flushed(v: Views): Views
  {
    v.(device := v.host)
  }

  /** `vmaInvalidateAllocation` over the whole allocation: the host sees the device's bytes. */
  function Invalidated(v: Views): Views
  {
    v.(host := v.device)
  }

  /** How many times the log releases `b` (`vmaDestroyBuffer` / `vmaDestroyImage`). */
  function Releases(log: seq<Call>, b: Binding): nat
  {
    if log == [] then 0
    else (if log[0] == DestroyResource(b.kind, b.resource, b.allocation) then 1 else 0) + Releases(log[1..], b)
  }

  /** Releases are counted call by call, so a log that is extended keeps the
      releases it had. */
  lemma {:induction false} ReleasesAppend(l1: seq<Call>, l2: seq<Call>, b: Binding)
    ensures Releases(l1 + l2, b) == Releases(l1, b) + Releases(l2, b)
  {
    if l1 != [] {
      assert (l1 + l2)[1..] == l1[1..] + l2;
      ReleasesAppend(l1[1..], l2, b);
    } else {
      assert l1 + l2 == l2;
    }
  }

  /** A log that never mentions an allocation never released it. */
  lemma {:induction false} NoReleasesOfUnmentioned(log: seq<Call>, b: Binding)
    requires forall i :: 0 <= i < |log| ==> log[i].allocation != b.allocation
    ensures Releases(log, b) == 0
  {
    if log != [] {
      assert log[0].allocation != b.allocation;
      NoReleasesOfUnmentioned(log[1..], b);
    }
  }

  /** Everything the allocator knows besides its memory types. `live` and `log`
      are bookkeeping of the model: the pairs created and not yet destroyed, and
      every state-changing call received, oldest first. `live` tracks ownership
      faithfully only while no two handles share one allocation: destroying one
      pair frees its allocation but leaves any other pair wrapped around the
      same allocation in `live`. */
  datatype State = State(
    info: map<nat, AllocationInfo>,
    views: map<nat, Views>,
    mapCount: map<nat, nat>,
    nextHandle: nat,
    live: set<Binding>,
    log: seq<Call>)

  /** The state of a new allocator: nothing allocated, nothing logged. */
  const InitialState := State(map[], map[], map[], 1, {}, [])

  /** Allocation `a` lives in host-coherent memory. */
  predicate Coherent(memoryTypes: seq<MemoryPropertyFlags>, s: State, a: nat)
    requires a in s.info && s.info[a].memoryType < |memoryTypes|
  {
    HostCoherent in memoryTypes[s.info[a].memoryType]
  }

  /** The allocator's invariant: every allocation has views and a mapping count
      and a memory type that exists; coherent memory has a single view; every
      handle issued or mentioned lies below `nextHandle`. */
  predicate ValidState(memoryTypes: seq<MemoryPropertyFlags>, s: State)
  {
    && Null < s.nextHandle
    && s.info.Keys == s.views.Keys == s.mapCount.Keys
    && (forall a :: a in s.info ==> a < s.nextHandle && s.info[a].memoryType < |memoryTypes|)
    && (forall a :: a in s.views && Coherent(memoryTypes, s, a) ==> s.views[a].host == s.views[a].device)
    && (forall b :: b in s.live ==> b.resource < s.nextHandle && b.allocation < s.nextHandle)
    && (forall i :: 0 <= i < |s.log| ==> s.log[i].allocation < s.nextHandle)
  }

  /** `vmaCreateBuffer` / `vmaCreateImage` succeeding with the given choice of
      memory type and placement: the next free handle names both the resource
      and the allocation. */
  function Created(s: State, kind: ResourceKind, choice: AllocationInfo): State
  {
    var h := s.nextHandle;
    s.(info := s.info[h := choice],
       views := s.views[h := Views([], [])],
       mapCount := s.mapCount[h := 0],
       nextHandle := h + 1,
       live := s.live + {Binding(kind, h, h)},
       log := s.log + [CreateResource(kind, h, h)])
  }

  /** `vmaDestroyBuffer` / `vmaDestroyImage`: the resource and its allocation go together. */
  function Destroyed(s: State, b: Binding): State
  {
    s.(info := s.info - {b.allocation},
       views := s.views - {b.allocation},
       mapCount := s.mapCount - {b.allocation},
       live := s.live - {b},
       log := s.log + [DestroyResource(b.kind, b.resource, b.allocation)])
  }

  /** `vmaMapMemory`: one more outstanding mapping. */
  function MappedIn(s: State, a: nat): State
    requires a in s.mapCount
  {
    s.(mapCount := s.mapCount[a := s.mapCount[a] + 1], log := s.log + [MapMemory(a)])
  }

  /** `vmaUnmapMemory`: one outstanding mapping fewer. */
  function UnmappedIn(s: State, a: nat): State
    requires a in s.mapCount && s.mapCount[a] > 0
  {
    s.(mapCount := s.mapCount[a := s.mapCount[a] - 1], log := s.log + [UnmapMemory(a)])
  }

  /** `vmaInvalidateAllocation(allocator, a, 0, VK_WHOLE_SIZE)`. */
  function InvalidatedIn(s: State, a: nat): State
    requires a in s.views
  {
    s.(views := s.views[a := Invalidated(s.views[a])], log := s.log + [InvalidateAllocation(a, 0, WholeSize)])
  }

  /** `vmaFlushAllocation(allocator, a, 0, VK_WHOLE_SIZE)`. */
  function FlushedIn(s: State, a: nat): State
    requires a in s.views
  {
    s.(views := s.views[a := Flushed(s.views[a])], log := s.log + [FlushAllocation(a, 0, WholeSize)])
  }

  /** The host writes `data` through a mapped pointer. Coherent memory passes the
      write on to the device; other memory keeps it in the host view. */
  function HostWritten(memoryTypes: seq<MemoryPropertyFlags>, s: State, a: nat, data: seq<Byte>): State
    requires a in s.info && a in s.views && s.info[a].memoryType < |memoryTypes|
  {
    s.(views := s.views[a := if Coherent(memoryTypes, s, a) then Views(data, data) else s.views[a].(host := data)])
  }

  /** The device writes `data` into allocation `a`; the host sees it at once only
      on coherent memory. */
  function DeviceWritten(memoryTypes: seq<MemoryPropertyFlags>, s: State, a: nat, data: seq<Byte>): State
    requires a in s.info && a in s.views && s.info[a].memoryType < |memoryTypes|
  {
    s.(views := s.views[a := if Coherent(memoryTypes, s, a) then Views(data, data) else s.views[a].(device := data)])
  }

  /** The allocator (`VmaAllocator`). It is owned outside the handles and shared
      by them; each call replaces its state by the corresponding transition. */
  class Allocator {
    /** Property flags of each memory type (`vmaGetMemoryTypeProperties`). */
    const memoryTypes: seq<MemoryPropertyFlags>
    var state: State

    ghost predicate Valid()
      reads this
    {
      ValidState(memoryTypes, state)
    }

    /** An allocator over the given memory types with nothing allocated yet. */
    constructor (memoryTypes: seq<MemoryPropertyFlags>)
      ensures Valid()
      ensures this.memoryTypes == memoryTypes && state == InitialState
    {
      this.memoryTypes := memoryTypes;
      state := InitialState;
    }

    /** `vmaGetAllocationInfo`. */
    method GetAllocationInfo(allocation: nat) returns (r: AllocationInfo)
      requires allocation in state.info
      ensures r == state.info[allocation]
    {
      r := state.info[allocation];
    }

    /** `vmaGetMemoryTypeProperties`. */
    method GetMemoryTypeProperties(memoryType: nat) returns (flags: MemoryPropertyFlags)
      requires memoryType < |memoryTypes|
      ensures flags == memoryTypes[memoryType]
    {
      flags := memoryTypes[memoryType];
    }

    /** `vmaCreateBuffer` / `vmaCreateImage` when they succeed: a new resource and a
        new allocation in some memory type that has every required property flag. */
    method Create(kind: ResourceKind, createInfo: AllocationCreateInfo)
      returns (resource: nat, allocation: nat, allocationInfo: AllocationInfo)
      requires Valid()
      requires exists t :: 0 <= t < |memoryTypes| && createInfo.requiredFlags <= memoryTypes[t]
      modifies this
      ensures Valid()
      ensures resource == allocation == old(state.nextHandle) != Null
      ensures allocationInfo.memoryType < |memoryTypes|
      ensures createInfo.requiredFlags <= memoryTypes[allocationInfo.memoryType]
      ensures state == Created(old(state), kind, allocationInfo)
    {
      var t :| 0 <= t < |memoryTypes| && createInfo.requiredFlags <= memoryTypes[t];
      var deviceMemory: nat := *;
      var offset: nat := *;
      var size: nat := *;
      resource, allocation := state.nextHandle, state.nextHandle;
      allocationInfo := AllocationInfo(t, deviceMemory, offset, size);
      state := Created(state, kind, allocationInfo);
    }

    /** `vmaDestroyBuffer` / `vmaDestroyImage`; the allocation must still exist. */
    method Destroy(kind: ResourceKind, resource: nat, allocation: nat)
      requires Valid()
      requires allocation in state.info
      modifies this
      ensures Valid()
      ensures state == Destroyed(old(state), Binding(kind, resource, allocation))
    {
      state := Destroyed(state, Binding(kind, resource, allocation));
    }

    /** `vmaMapMemory` */
    method Map(allocation: nat)
      requires Valid()
      requires allocation in state.info
      modifies this
      ensures Valid()
      ensures state == MappedIn(old(state), allocation)
    {
      state := MappedIn(state, allocation);
    }

    /** `vmaUnmapMemory`; the allocation must be mapped. */
    method Unmap(allocation: nat)
      requires Valid()
      requires allocation in state.info && state.mapCount[allocation] > 0
      modifies this
      ensures Valid()
      ensures state == UnmappedIn(old(state), allocation)
    {
      state := UnmappedIn(state, allocation);
    }

    /** `vmaInvalidateAllocation(allocator, allocation, 0, VK_WHOLE_SIZE)` */
    method Invalidate(allocation: nat)
      requires Valid()
      requires allocation in state.info
      modifies this
      ensures Valid()
      ensures state == InvalidatedIn(old(state), allocation)
    {
      state := InvalidatedIn(state, allocation);
    }

    /** `vmaFlushAllocation(allocator, allocation, 0, VK_WHOLE_SIZE)` */
    method Flush(allocation: nat)
      requires Valid()
      requires allocation in state.info
      modifies this
      ensures Valid()
      ensures state == FlushedIn(old(state), allocation)
    {
      state := FlushedIn(state, allocation);
    }
  }
}
