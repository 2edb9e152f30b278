# vma_handle and renderpass_t in Dafny

This project models two components of the Auto-Vk toolkit and proves properties of them.

- `avk::vma_handle<T>` owns one VMA allocation bound to one buffer or image. The model covers:
  - its life cycle: empty, wrap, create, create in a pool, move-construct, move-assign and destroy;
  - the allocation config its create constructors fill in;
  - the cache maintenance rule of `map_memory` and `unmap_memory`.

  The Vulkan Memory Allocator itself is modelled abstractly (module `Vma`). It records the live (resource, allocation) pairs, the property flags of each memory type, the cached allocation info, a map count, a host view and a device view of each allocation's bytes, and a log of every state-changing call it receives (the read-only queries `vmaGetAllocationInfo` and `vmaGetMemoryTypeProperties` are not logged). On that model, several properties become postconditions and lemmas:
  - release happens exactly once;
  - a move neither loses nor duplicates ownership;
  - the flush and invalidate decisions follow the rule;
  - bytes written through a write mapping are read back through a later read mapping, whether or not the memory is coherent.
- `ak::renderpass_t` describes a render pass. Its parts are:
  - the ordered attachment descriptions;
  - the per-subpass reference lists, one per role (input, color, depth/stencil, resolve), plus the preserve list;
  - the subpass dependencies that `create` synthesises, one per slot: external into subpass 0, each subpass into the next, and the last subpass out to external.

  The model has three parts:
  - the `is_*_attachment` queries and the `*_attachments_for_subpass` accessors are pure functions over the pass's subpass data;
  - `create` is a method with a dependency loop;
  - the `alter` callback receives the assembled configuration, and the render pass is built from whatever that callback returns.

Files:
- `vma.dfy` (module `Vma`): the allocator model.
- `vma_handle.dfy` (module `Avk`): the handle.
- `renderpass.dfy` (module `Ak`): the render pass.

## Model

| member | source | states |
|---|---|---|
| Avk.VmaHandle.Empty | include/avk/vma_handle.hpp:13-14 | The default handle has a null allocator, allocation and resource, an empty create info and an empty allocation info, and owns nothing. |
| Avk.VmaHandle.Wrap | include/avk/vma_handle.hpp:17-24 | The handle keeps the given allocator, create info, allocation and resource. Its cached allocation info is what the allocator reports for that allocation. |
| Avk.VmaHandle.Create | include/avk/vma_handle.hpp:173-187 | The config sets `requiredFlags` to the requested flags and `usage` to unknown, and leaves the pool null. The allocator creates exactly one new pair. The chosen memory type has the requested flags. The handle owns exactly that pair. |
| Avk.VmaHandle.CreateInPool | include/avk/vma_handle.hpp:189-204 | Same as `Create`, except that the config also names the given pool. |
| Avk.VmaHandle.Move | include/avk/vma_handle.hpp:38-46 | The new handle holds the source's former five fields. The source is left empty and owns nothing, so ownership moves rather than being copied. |
| Avk.VmaHandle.MoveAssign | include/avk/vma_handle.hpp:50-59 | All five fields are exchanged between the two handles. The multiset of pairs the two handles own together is unchanged. |
| Avk.VmaHandle.Destroy | include/avk/vma_handle.hpp:246-272 | A handle with a resource sends one destroy call for its (resource, allocation) pair, removes the pair from the live set, and resets every field to empty. A handle without a resource changes nothing. |
| Avk.VmaHandle.MemoryProperties | include/avk/vma_handle.hpp:93-99 | The result is the property entry of the cached memory type. |
| Avk.VmaHandle.DeviceMemoryAndOffset | include/avk/vma_handle.hpp:101-104 | The result is the cached device memory and offset. |
| Avk.VmaHandle.MapMemory | include/avk/vma_handle.hpp:114-129 | This requires host-visible memory. The allocator's new state is `MapMemoryEffect`: one map call, then a whole-range invalidate exactly when the intent includes read and the memory is not coherent. |
| Avk.VmaHandle.UnmapMemory | include/avk/vma_handle.hpp:138-149 | This requires host-visible memory. The allocator's new state is `UnmapMemoryEffect`: a whole-range flush exactly when the intent includes write and the memory is not coherent, then the unmap, which always happens. |
| Avk.MapCalls | include/avk/vma_handle.hpp:120-126 | The first call is the map. The only possible further call is one invalidate over the whole range, and it is present iff the intent includes read and the memory is not host-coherent. |
| Avk.UnmapCalls | include/avk/vma_handle.hpp:143-148 | The last call is the unmap. The only possible earlier call is one flush over the whole range, and it is present iff the intent includes write and the memory is not host-coherent. |
| Avk.MapMemoryEffect | include/avk/vma_handle.hpp:114-129 | The log grows by exactly `MapCalls`. Only the mapped allocation's views and map count change. The live set and the allocation infos are untouched. |
| Avk.UnmapMemoryEffect | include/avk/vma_handle.hpp:138-149 | The log grows by exactly `UnmapCalls`. Only the unmapped allocation's views and map count change. The live set and the allocation infos are untouched. |
| Avk.MapForReadSeesDevice | include/avk/vma_handle.hpp:106-107 | After mapping with read intent, the host sees the device's bytes, on any memory type. |
| Avk.UnmapAfterWritePublishesHost | include/avk/vma_handle.hpp:131-132 | After unmapping with write intent, the device holds the host's bytes, on any memory type. |
| Avk.NoInvalidateWouldBeStale | include/avk/vma_handle.hpp:123 | On non-coherent memory there are consistent views whose host bytes differ from what a read mapping shows the host, so skipping the invalidate would leave the host reading stale bytes. |
| Avk.WriteThenReadBack | include/avk/vma_handle.hpp:114-149 | Map for write, write bytes, unmap: the device holds those bytes. Map again for read: the host reads them back. This holds on coherent and non-coherent memory. |
| Avk.DeviceWriteThenReadBack | include/avk/vma_handle.hpp:114-129 | After the device writes bytes into an allocation, a read mapping shows the host exactly those bytes, on coherent and non-coherent memory. |
| Avk.CreatedIsFresh | include/avk/vma_handle.hpp:184 | A newly created pair was not live, and its allocation did not exist. After creation it is live and has never been released. |
| Avk.DestroyedReleasesOnce | include/avk/vma_handle.hpp:251 | A destroy call adds exactly one release of its pair and takes the pair out of the live set. |
| Avk.CreateMoveDestroy | include/avk/vma_handle.hpp:39-46 | The sequence is: create, move into a second handle, destroy the moved-from handle, then destroy the second handle twice. The pair is released exactly once, and the allocator ends with the live set it started with. |
| Vma.ReleasesAppend | include/avk/vma_handle.hpp:250-251 | Releases in a log split at any point add up: the count over the whole log is the sum of the counts over the two parts. |
| Vma.Allocator.Create | include/avk/vma_handle.hpp:184 | `vmaCreateBuffer` and `vmaCreateImage` return a fresh non-null resource and allocation. The chosen memory type has the required flags. Exactly one creation is logged. |
| Vma.Allocator.Destroy | include/avk/vma_handle.hpp:251 | `vmaDestroyBuffer` and `vmaDestroyImage` log one destroy call and drop the pair from the live set. |
| Ak.Occurs | include/ak/renderpass.hpp:65-69 | The membership scan the queries use answers true iff the value is in the list. |
| Ak.IsAttachment | include/ak/renderpass.hpp:65-68 | `is_input/color/depth_stencil/resolve_attachment(s, a)` is true iff subpass `s` exists and the list for that role holds a reference to attachment `a`. |
| Ak.IsPreserveAttachment | include/ak/renderpass.hpp:69 | `is_preserve_attachment(s, a)` is true iff subpass `s` exists and `a` is in its preserve list. |
| Ak.AttachmentsForSubpass | include/ak/renderpass.hpp:71-74 | Returns subpass `s`'s stored list for the role, unchanged and in order. The list names exactly the attachments the matching query accepts. On a valid subpass, the depth/stencil list has at most one entry, and the resolve list is empty or as long as the color list. |
| Ak.PreserveAttachmentsForSubpass | include/ak/renderpass.hpp:75 | Returns the stored preserve list, which names exactly the attachments `is_preserve_attachment` accepts. |
| Ak.FirstInvalidFrom | include/ak/renderpass.hpp:25-30 | Finds the first subpass, from a given index on, that breaks a role-count rule: more than one depth/stencil reference, or a resolve list that is neither empty nor as long as the color list. The result is None iff no subpass from that index on breaks one. |
| Ak.Validate | include/ak/renderpass.hpp:25-30 | Accepts the configuration iff there is at least one subpass and every subpass obeys both role-count rules. An empty configuration gives `NoSubpasses`. |
| Ak.Describe | include/ak/renderpass.hpp:89-90 | The native description of a valid subpass is well formed and turns back into the same subpass data. |
| Ak.DataOfRoundTrip | include/ak/renderpass.hpp:86-90 | A well-formed native description turns into valid subpass data, and that data describes the same native description again. |
| Ak.DescribableIffValid | include/ak/renderpass.hpp:25-30 | Subpass data has a well-formed native description iff it is valid. |
| Ak.Descriptions | include/ak/renderpass.hpp:86-90 | The pass's descriptions are one per subpass, in order, and each one turns back into its own subpass's data. |
| Ak.DependencySlots | include/ak/renderpass.hpp:44-50 | For N subpasses there are N+1 slots. The first starts at external and the last ends at external. Slot `i` ends at subpass `i` and slot `i+1` starts at subpass `i`, so the slots are external→0, 0→1, …, (N-1)→external. |
| Ak.SyncedDependency | include/ak/renderpass.hpp:48-50 | The ends of a slot's dependency never change. Without a callback its scopes are the defaults. With one, they are what the callback returns for the default proposal. |
| Ak.DependenciesChainSubpasses | include/ak/renderpass.hpp:44-50 | Whatever scopes the sync callback chooses, the synthesised dependencies chain external into the first subpass, each subpass into the next, and the last subpass out to external. |
| Ak.SyncDependencies | include/ak/renderpass.hpp:48-50 | The dependency loop walks the slots' default proposals in order. It offers each to the sync callback, if there is one, exactly once and in order, and keeps each proposal's ends with the scopes the callback returns. The result is `SyncedAll` of the proposals, so `create` assembles exactly `SynthesizedDependencies` before `alter` runs. Without a callback, the proposals are stored as they are. |
| Ak.RenderPass.constructor | include/ak/renderpass.hpp:37 | The default render pass has no attachments, subpasses or dependencies, and no native handle. |
| Ak.RenderPass.Create | include/ak/renderpass.hpp:44-53 | An invalid configuration returns the first error. A valid one assembles the attachments, the subpass data, their descriptions and the synthesised dependencies. The `alter` callback sees that assembled configuration, and the new pass is built from what the callback returns. |
| Ak.ColorAndDepthScenario | include/ak/renderpass.hpp:19-33 | One subpass with a color attachment and a depth/stencil attachment: the queries classify the two attachments, the configuration is accepted, and for any default scopes and any sync callback exactly two dependencies are synthesised, external→0 and 0→external. |

## Left out

- The VMA and Vulkan libraries are modelled as the abstract `Vma.Allocator`. These calls become state transitions:
  - `vmaCreateBuffer` and `vmaCreateImage`;
  - `vmaDestroyBuffer` and `vmaDestroyImage`;
  - `vmaMapMemory` and `vmaUnmapMemory`;
  - `vmaFlushAllocation` and `vmaInvalidateAllocation`;
  - `vmaGetAllocationInfo` and `vmaGetMemoryTypeProperties`.

  Every `assert(result >= 0)` is taken to succeed. No failing allocation is modelled.
- How VMA chooses a memory type, a memory block and an offset is left open. The model only keeps the promise that the chosen type has the required flags. The pool named in the config does not restrict that choice.
- Vma.Allocator.Destroy requires the allocation to exist. Destroying an allocation twice through two handles that alias it is undefined behaviour in VMA, so it is excluded rather than modelled.
- `alloc_custom_pool`: it only passes through to `vmaCreatePool`.
- The pointer `map_memory` returns and the raw host memory: a host write is the `Vma.HostWritten` transition, not a pointer store.
- The generic constructors and destructor that throw with a `typeid` name: `T` is closed to buffer and image, so they cannot be reached.
- The accessors `allocator()`, `create_info()`, `allocation()` and `resource()` are plain reads of public fields. The model reads the fields directly.
- Avk.VmaHandle.MemoryProperties and Avk.VmaHandle.DeviceMemoryAndOffset read the allocation info cached at creation. The model does not follow a later defragmentation that would move the allocation.
- Thread safety of the shared allocator: the code does not synchronise it.
- `renderpass_t::create`'s derivation of subpass data from `ak::attachment` usage descriptions. `Ak.RenderPass.Create` takes the subpass data as given.
- Clear values, the creation of the native `vk::UniqueRenderPass`, and driver validation.
- The concrete stage and access masks of the default dependencies: they enter `Ak.RenderPass.Create` as the parameter `defaults`.
- The bodies of the render-pass queries, accessors and `create` are in `renderpass.cpp`, which is not part of this model. The model follows the declarations and field comments in `renderpass.hpp`:
  - a query with a subpass index out of range answers false;
  - an accessor requires an index in range;
  - a configuration without subpasses is rejected, as Vulkan requires at least one subpass.
- Ak.IsAttachment and the other queries take the pass's subpass data as a parameter rather than reading a `RenderPass` object. The answers are the same, and they change no state.
- The mutable accessors `attachment_descriptions()`, `subpasses()` and `subpass_dependencies()`: edits through them are modelled only as the `alter` callback of `Ak.RenderPass.Create`, a function from configuration to configuration.
- Ak.Validate does not check that an attachment is used in only one role of a subpass. The header does not state that rule.
- Ak.SyncedDependency: the sync callback is modelled as a function that chooses only the scopes of the dependency it is offered. The source's callback takes a `renderpass_sync&` record, whose definition is not part of this model, and may edit it; the model cannot express a callback that changes a slot's subpass ids, so the chain property holds by the callback's type.
- Ak.RenderPass.Create: `Config` holds the subpass data and the native descriptions as independent values, so `alter` can change one without the other. In the source, each native description in `mSubpasses` only points into the reference lists stored in `mSubpassData`, so an in-place edit of those lists through `alter` also changes what the native pass is built from. The model does not capture that aliasing.
- `ak::owning_resource`, and the defaulted or deleted copy and move members of `renderpass_t`.
