/** `avk::vma_handle<T>`: the owner of one VMA allocation bound to one buffer or
    image. `T` is closed to the two kinds that carry GPU memory, so the generic
    fallbacks that throw for any other type have no counterpart here. */
module Avk {
  import opened Vma

  /** `avk::mapping_access`: the intent declared when mapping and unmapping. */
  datatype MappingAccess = Read | Write | ReadWrite {
    /** `has_flag(access, mapping_access::read)` */
    predicate HasRead() { this == Read || this == ReadWrite }
    /** `has_flag(access, mapping_access::write)` */
    predicate HasWrite() { this == Write || this == ReadWrite }
  }

  /** The host must pull the device's bytes in when mapping: it is going to
      read, and the memory does not keep the two views coherent. */
  predicate NeedsInvalidate(access: MappingAccess, props: MemoryPropertyFlags)
  {
    access.HasRead() && HostCoherent !in props
  }

  /** The host must push its bytes out when unmapping: it has written, and the
      memory does not keep the two views coherent. */
  predicate NeedsFlush(access: MappingAccess, props: MemoryPropertyFlags)
  {
    access.HasWrite() && HostCoherent !in props
  }

  /** The allocator calls `map_memory` issues, in order. */
  function MapCalls(allocation: nat, access: MappingAccess, props: MemoryPropertyFlags): (calls: seq<Call>)
    ensures |calls| >= 1 && calls[0] == MapMemory(allocation)
    ensures calls[1..] == [] || calls[1..] == [InvalidateAllocation(allocation, 0, WholeSize)]
    ensures calls[1..] != [] <==> access.HasRead() && HostCoherent !in props
  {
    [MapMemory(allocation)] + if NeedsInvalidate(access, props) then [InvalidateAllocation(allocation, 0, WholeSize)] else []
  }

  /** The allocator calls `unmap_memory` issues, in order. */
  function UnmapCalls(allocation: nat, access: MappingAccess, props: MemoryPropertyFlags): (calls: seq<Call>)
    ensures |calls| >= 1 && calls[|calls| - 1] == UnmapMemory(allocation)
    ensures calls[..|calls| - 1] == [] || calls[..|calls| - 1] == [FlushAllocation(allocation, 0, WholeSize)]
    ensures calls[..|calls| - 1] != [] <==> access.HasWrite() && HostCoherent !in props
  {
    (if NeedsFlush(access, props) then [FlushAllocation(allocation, 0, WholeSize)] else []) + [UnmapMemory(allocation)]
  }

  /** The views of an allocation after `map_memory`. */
  function ViewsAfterMap(v: Views, access: MappingAccess, props: MemoryPropertyFlags): Views
  {
    if NeedsInvalidate(access, props) then Invalidated(v) else v
  }

  /** The views of an allocation after `unmap_memory`. */
  function ViewsAfterUnmap(v: Views, access: MappingAccess, props: MemoryPropertyFlags): Views
  {
    if NeedsFlush(access, props) then Flushed(v) else v
  }

  /** Views that the memory type keeps consistent: coherent memory has one view. */
  predicate Consistent(v: Views, props: MemoryPropertyFlags)
  {
    HostCoherent in props ==> v.host == v.device
  }

  /** Mapping for reading makes the device's bytes visible to the host, whatever
      the coherency of the memory. */
  lemma MapForReadSeesDevice(v: Views, access: MappingAccess, props: MemoryPropertyFlags)
    requires access.HasRead() && Consistent(v, props)
    ensures ViewsAfterMap(v, access, props).host == v.device
    ensures Consistent(ViewsAfterMap(v, access, props), props)
  {
  }

  /** Unmapping after writing makes the host's bytes visible to the device,
      whatever the coherency of the memory. */
  lemma UnmapAfterWritePublishesHost(v: Views, access: MappingAccess, props: MemoryPropertyFlags)
    requires access.HasWrite() && Consistent(v, props)
    ensures ViewsAfterUnmap(v, access, props).device == v.host
    ensures Consistent(ViewsAfterUnmap(v, access, props), props)
  {
  }

  /** On non-coherent memory, a read mapping that skipped the invalidate would
      leave the host with bytes that differ from what the read mapping shows it,
      so the condition under which `map_memory` invalidates cannot be dropped. */
  lemma NoInvalidateWouldBeStale(props: MemoryPropertyFlags)
    requires HostCoherent !in props
    ensures exists v: Views :: Consistent(v, props) && v.host != ViewsAfterMap(v, Read, props).host
  {
    var v := Views([0], [1]);
    assert ViewsAfterMap(v, Read, props).host == [1];
  }

  /** What `map_memory` does to the allocator: a map call, then a whole-range
      invalidate exactly when the host will read non-coherent memory. */
  function MapMemoryEffect(s: State, a: nat, access: MappingAccess, props: MemoryPropertyFlags): (r: State)
    requires a in s.mapCount && a in s.views
    ensures r.log == s.log + MapCalls(a, access, props)
    ensures r.views == s.views[a := ViewsAfterMap(s.views[a], access, props)]
    ensures r.mapCount == s.mapCount[a := s.mapCount[a] + 1]
    ensures r.info == s.info && r.live == s.live && r.nextHandle == s.nextHandle
  {
    var mapped := MappedIn(s, a);
    if NeedsInvalidate(access, props) then InvalidatedIn(mapped, a) else mapped
  }

  /** What `unmap_memory` does to the allocator: a whole-range flush exactly when
      the host wrote non-coherent memory, and then, always, the unmap. */
  function UnmapMemoryEffect(s: State, a: nat, access: MappingAccess, props: MemoryPropertyFlags): (r: State)
    requires a in s.mapCount && a in s.views && s.mapCount[a] > 0
    ensures r.log == s.log + UnmapCalls(a, access, props)
    ensures r.views == s.views[a := ViewsAfterUnmap(s.views[a], access, props)]
    ensures r.mapCount == s.mapCount[a := s.mapCount[a] - 1]
    ensures r.info == s.info && r.live == s.live && r.nextHandle == s.nextHandle
  {
    var flushed := if NeedsFlush(access, props) then FlushedIn(s, a) else s;
    UnmappedIn(flushed, a)
  }

  /** Write through a write mapping, unmap, map again for reading: the device has
      the bytes from the unmap on, and the host reads them back, on coherent and
      on non-coherent memory alike. */
  lemma {:induction false} WriteThenReadBack(memoryTypes: seq<MemoryPropertyFlags>, s: State, a: nat, data: seq<Byte>)
    requires ValidState(memoryTypes, s) && a in s.info
    ensures var props := memoryTypes[s.info[a].memoryType];
      var written := HostWritten(memoryTypes, MapMemoryEffect(s, a, Write, props), a, data);
      var unmapped := UnmapMemoryEffect(written, a, Write, props);
      && unmapped.views[a].device == data
      && MapMemoryEffect(unmapped, a, Read, props).views[a].host == data
  {
    var props := memoryTypes[s.info[a].memoryType];
    var written := HostWritten(memoryTypes, MapMemoryEffect(s, a, Write, props), a, data);
    if HostCoherent in props {
      assert written.views[a] == Views(data, data);
    } else {
      assert written.views[a].host == data;
    }
  }

  /** The device writes into an allocation; mapping it for reading then shows the
      host those bytes, on coherent and on non-coherent memory alike. */
  lemma {:induction false} DeviceWriteThenReadBack(memoryTypes: seq<MemoryPropertyFlags>, s: State, a: nat, data: seq<Byte>)
    requires ValidState(memoryTypes, s) && a in s.info
    ensures var props := memoryTypes[s.info[a].memoryType];
      var written := DeviceWritten(memoryTypes, s, a, data);
      MapMemoryEffect(written, a, Read, props).views[a].host == data
  {
    var props := memoryTypes[s.info[a].memoryType];
    var written := DeviceWritten(memoryTypes, s, a, data);
    if HostCoherent in props {
      assert written.views[a] == Views(data, data);
    } else {
      assert written.views[a].device == data;
    }
  }

  /** A newly created pair is fresh: it was not live, the allocation did not
      exist, and the log never released it. */
  lemma {:induction false} CreatedIsFresh(memoryTypes: seq<MemoryPropertyFlags>, s: State, kind: ResourceKind, choice: AllocationInfo)
    requires ValidState(memoryTypes, s)
    ensures var b := Binding(kind, s.nextHandle, s.nextHandle);
      && b !in s.live && b.allocation !in s.info
      && Created(s, kind, choice).live == s.live + {b}
      && Releases(Created(s, kind, choice).log, b) == 0
  {
    var b := Binding(kind, s.nextHandle, s.nextHandle);
    NoReleasesOfUnmentioned(s.log, b);
    ReleasesAppend(s.log, [CreateResource(kind, b.resource, b.allocation)], b);
  }

  /** Destroying a pair releases it once more and takes it out of the live set. */
  lemma {:induction false} DestroyedReleasesOnce(s: State, b: Binding)
    ensures Releases(Destroyed(s, b).log, b) == Releases(s.log, b) + 1
    ensures Destroyed(s, b).live == s.live - {b}
  {
    ReleasesAppend(s.log, [DestroyResource(b.kind, b.resource, b.allocation)], b);
  }

  class VmaHandle {
    /** `T`: the kind of resource this handle owns. */
    const kind: ResourceKind
    /** `mAllocator`: not owned; the allocator outlives the handle. */
    var allocator: Allocator?
    /** `mCreateInfo` */
    var createInfo: AllocationCreateInfo
    /** `mAllocation` */
    var allocation: nat
    /** `mAllocationInfo`: the snapshot taken when the allocation was made or wrapped. */
    var allocationInfo: AllocationInfo
    /** `mResource` */
    var resource: nat

    ghost predicate Valid()
      reads this
    {
      && (resource != Null ==> allocator != null)
      && (allocator != null ==> allocationInfo.memoryType < |allocator.memoryTypes|)
    }

    /** The null/empty state every field is reset to. */
    predicate IsEmpty()
      reads this
    {
      && allocator == null
      && createInfo == EmptyCreateInfo
      && allocation == Null
      && allocationInfo == EmptyAllocationInfo
      && resource == Null
    }

    /** The (resource, allocation) pair this handle is responsible for releasing. */
    ghost function Owned(): multiset<Binding>
      reads this
    {
      if resource != Null then multiset{Binding(kind, resource, allocation)} else multiset{}
    }

    /** `vma_handle()`: the empty handle. */
    constructor Empty(kind: ResourceKind)
      ensures Valid() && IsEmpty() && this.kind == kind
      ensures Owned() == multiset{}
    {
      this.kind := kind;
      allocator, createInfo, allocation, allocationInfo, resource :=
        null, EmptyCreateInfo, Null, EmptyAllocationInfo, Null;
    }

    /** `vma_handle(allocator, createInfo, allocation, resource)`: takes over an
        allocation and a resource made elsewhere and caches the allocation info. */
    constructor Wrap(kind: ResourceKind, allocator: Allocator, createInfo: AllocationCreateInfo, allocation: nat, resource: nat)
      requires allocator.Valid() && allocation in allocator.state.info
      ensures Valid()
      ensures this.kind == kind && this.allocator == allocator && this.createInfo == createInfo
      ensures this.allocation == allocation && this.resource == resource
      ensures allocationInfo == allocator.state.info[allocation]
    {
      this.kind := kind;
      this.allocator := allocator;
      this.createInfo := createInfo;
      this.allocation := allocation;
      this.resource := resource;
      new;
      allocationInfo := allocator.GetAllocationInfo(allocation);
    }

    /** `vma_handle(VmaAllocator, vk::MemoryPropertyFlags, const C&)` for buffers
        and images: the allocation config asks for the given property flags and
        leaves the usage unknown; VMA creates the resource and its allocation. */
    constructor Create(kind: ResourceKind, allocator: Allocator, memoryFlags: MemoryPropertyFlags)
      requires allocator.Valid()
      requires exists t :: 0 <= t < |allocator.memoryTypes| && memoryFlags <= allocator.memoryTypes[t]
      modifies allocator
      ensures Valid() && allocator.Valid()
      ensures this.kind == kind && this.allocator == allocator
      ensures createInfo == EmptyCreateInfo.(requiredFlags := memoryFlags, usage := Unknown)
      ensures resource != Null && resource == allocation == old(allocator.state.nextHandle)
      ensures memoryFlags <= allocator.memoryTypes[allocationInfo.memoryType]
      ensures allocator.state == Created(old(allocator.state), kind, allocationInfo)
      ensures Owned() == multiset{Binding(kind, resource, allocation)}
    {
      this.kind := kind;
      this.allocator := allocator;
      createInfo := EmptyCreateInfo.(requiredFlags := memoryFlags, usage := Unknown);
      new;
      resource, allocation, allocationInfo := allocator.Create(kind, createInfo);
    }

    /** `vma_handle(VmaAllocator, vk::MemoryPropertyFlags, const C&, VmaPool)` for
        buffers and images: as `Create`, and the allocation config names `pool`. */
    constructor CreateInPool(kind: ResourceKind, allocator: Allocator, memoryFlags: MemoryPropertyFlags, pool: nat)
      requires allocator.Valid()
      requires exists t :: 0 <= t < |allocator.memoryTypes| && memoryFlags <= allocator.memoryTypes[t]
      modifies allocator
      ensures Valid() && allocator.Valid()
      ensures this.kind == kind && this.allocator == allocator
      ensures createInfo == EmptyCreateInfo.(requiredFlags := memoryFlags, usage := Unknown, pool := pool)
      ensures resource != Null && resource == allocation == old(allocator.state.nextHandle)
      ensures memoryFlags <= allocator.memoryTypes[allocationInfo.memoryType]
      ensures allocator.state == Created(old(allocator.state), kind, allocationInfo)
      ensures Owned() == multiset{Binding(kind, resource, allocation)}
    {
      this.kind := kind;
      this.allocator := allocator;
      createInfo := EmptyCreateInfo.(requiredFlags := memoryFlags, usage := Unknown, pool := pool);
      new;
      resource, allocation, allocationInfo := allocator.Create(kind, createInfo);
    }

    /** `vma_handle(vma_handle&&)`: starts empty and swaps every field with
        `other`, so `other` is left empty. */
    constructor Move(other: VmaHandle)
      requires other.Valid()
      modifies other
      ensures Valid() && other.Valid() && other.IsEmpty()
      ensures kind == other.kind
      ensures allocator == old(other.allocator) && createInfo == old(other.createInfo)
      ensures allocation == old(other.allocation) && allocationInfo == old(other.allocationInfo)
      ensures resource == old(other.resource)
      ensures Owned() == old(other.Owned()) && other.Owned() == multiset{}
    {
      kind := other.kind;
      allocator, createInfo, allocation, allocationInfo, resource :=
        null, EmptyCreateInfo, Null, EmptyAllocationInfo, Null;
      new;
      allocator, other.allocator := other.allocator, allocator;
      createInfo, other.createInfo := other.createInfo, createInfo;
      allocation, other.allocation := other.allocation, allocation;
      allocationInfo, other.allocationInfo := other.allocationInfo, allocationInfo;
      resource, other.resource := other.resource, resource;
    }

    /** `operator=(vma_handle&&)`: swaps every field with `other`. What the two
        handles own together is unchanged: nothing is lost and nothing duplicated. */
    method MoveAssign(other: VmaHandle)
      requires Valid() && other.Valid() && other.kind == kind
      modifies this, other
      ensures Valid() && other.Valid()
      ensures allocator == old(other.allocator) && other.allocator == old(allocator)
      ensures createInfo == old(other.createInfo) && other.createInfo == old(createInfo)
      ensures allocation == old(other.allocation) && other.allocation == old(allocation)
      ensures allocationInfo == old(other.allocationInfo) && other.allocationInfo == old(allocationInfo)
      ensures resource == old(other.resource) && other.resource == old(resource)
      ensures Owned() + other.Owned() == old(Owned() + other.Owned())
    {
      var t0 := allocator; allocator := other.allocator; other.allocator := t0;
      var t1 := createInfo; createInfo := other.createInfo; other.createInfo := t1;
      var t2 := allocation; allocation := other.allocation; other.allocation := t2;
      var t3 := allocationInfo; allocationInfo := other.allocationInfo; other.allocationInfo := t3;
      var t4 := resource; resource := other.resource; other.resource := t4;
    }

    /** `~vma_handle()`: a handle holding a resource destroys it together with
        its allocation and resets every field; an empty handle does nothing. */
    method Destroy()
      requires Valid()
      requires resource != Null ==> allocator.Valid() && allocation in allocator.state.info
      modifies this, allocator
      ensures Valid() && Owned() == multiset{}
      ensures old(resource) != Null ==>
        && IsEmpty()
        && old(allocator).Valid()
        && old(allocator).state == Destroyed(old(allocator.state), Binding(kind, old(resource), old(allocation)))
      ensures old(resource) == Null ==> unchanged(this) && (old(allocator) != null ==> unchanged(old(allocator)))
    {
      if resource != Null {
        allocator.Destroy(kind, resource, allocation);
        allocator := null;
        createInfo := EmptyCreateInfo;
        allocation := Null;
        allocationInfo := EmptyAllocationInfo;
        resource := Null;
      }
    }

    /** `memory_properties()`: the property flags of the memory type recorded in
        the cached allocation info. */
    method MemoryProperties() returns (flags: MemoryPropertyFlags)
      requires Valid() && allocator != null
      ensures flags == allocator.memoryTypes[allocationInfo.memoryType]
    {
      flags := allocator.GetMemoryTypeProperties(allocationInfo.memoryType);
    }

    /** `device_memory_and_offset()`: where the allocation lives, from the cached info. */
    method DeviceMemoryAndOffset() returns (memory: nat, offset: nat)
      ensures memory == allocationInfo.deviceMemory && offset == allocationInfo.offset
    {
      memory, offset := allocationInfo.deviceMemory, allocationInfo.offset;
    }

    /** `map_memory(access)` on host-visible memory. */
    method MapMemory(access: MappingAccess)
      requires Valid() && allocator != null && allocator.Valid()
      requires allocation in allocator.state.info
      requires HostVisible in allocator.memoryTypes[allocationInfo.memoryType]
      modifies allocator
      ensures allocator.Valid()
      ensures allocator.state ==
        MapMemoryEffect(old(allocator.state), allocation, access, allocator.memoryTypes[allocationInfo.memoryType])
    {
      var props := MemoryProperties();
      allocator.Map(allocation);
      if access.HasRead() && HostCoherent !in props {
        allocator.Invalidate(allocation);
      }
    }

    /** `unmap_memory(access)` on host-visible memory that is mapped. */
    method UnmapMemory(access: MappingAccess)
      requires Valid() && allocator != null && allocator.Valid()
      requires allocation in allocator.state.info && allocator.state.mapCount[allocation] > 0
      requires HostVisible in allocator.memoryTypes[allocationInfo.memoryType]
      modifies allocator
      ensures allocator.Valid()
      ensures allocator.state ==
        UnmapMemoryEffect(old(allocator.state), allocation, access, allocator.memoryTypes[allocationInfo.memoryType])
    {
      var props := MemoryProperties();
      if access.HasWrite() && HostCoherent !in props {
        allocator.Flush(allocation);
      }
      allocator.Unmap(allocation);
    }
  }

  /** Create a handle, move it into a second one, then destroy the moved-from
      handle, the second handle, and the second handle again: the pair is
      released exactly once and the allocator keeps the allocations it had. */
  method CreateMoveDestroy(allocator: Allocator, kind: ResourceKind, memoryFlags: MemoryPropertyFlags)
    returns (ghost created: Binding)
    requires allocator.Valid()
    requires exists t :: 0 <= t < |allocator.memoryTypes| && memoryFlags <= allocator.memoryTypes[t]
    modifies allocator
    ensures allocator.Valid()
    ensures created !in old(allocator.state.live) && allocator.state.live == old(allocator.state.live)
    ensures allocator.state.info == old(allocator.state.info)
    ensures Releases(allocator.state.log, created) == 1
  {
    ghost var s0 := allocator.state;
    var h1 := new VmaHandle.Create(kind, allocator, memoryFlags);
    created := Binding(kind, h1.resource, h1.allocation);
    CreatedIsFresh(allocator.memoryTypes, s0, kind, h1.allocationInfo);
    ghost var s1 := allocator.state;
    var h2 := new VmaHandle.Move(h1);
    h1.Destroy();
    h2.Destroy();
    h2.Destroy();
    assert allocator.state == Destroyed(s1, created);
    DestroyedReleasesOnce(s1, created);
  }
}
