/** `ak::renderpass_t`: a render pass described by its ordered attachments, the
    attachment references each subpass makes in each role, and the dependencies
    between consecutive subpasses and the outside of the pass. Image layouts,
    formats and pipeline-stage and access masks are opaque values here. */
module Ak {

  datatype Option<T> = None | Some(value: T)

  datatype Result<T, E> = Ok(value: T) | Err(error: E)

  /** `vk::AttachmentReference`: which attachment, and the (opaque) layout it is used in. */
  datatype AttachmentReference = AttachmentReference(attachment: nat, layout: nat)

  /** `vk::AttachmentDescription`, every field opaque. */
  datatype AttachmentDescription = AttachmentDescription(
    format: nat, samples: nat, loadOp: nat, storeOp: nat,
    stencilLoadOp: nat, stencilStoreOp: nat, initialLayout: nat, finalLayout: nat)

  /** The four roles a subpass holds attachment references in. */
  datatype Role = Input | Color | DepthStencil | Resolve

  /** `renderpass_t::subpass_data`: the ordered reference list of each role and
      the list of attachments the subpass preserves. */
  datatype SubpassData = SubpassData(
    inputs: seq<AttachmentReference>,
    colors: seq<AttachmentReference>,
    depthStencil: seq<AttachmentReference>,
    resolves: seq<AttachmentReference>,
    preserves: seq<nat>)
  {
    /** At most one depth/stencil reference, and either no resolve references
        or one per color reference (`resolves[i]` resolves `colors[i]`). */
    predicate Valid()
    {
      && |depthStencil| <= 1
      && (|resolves| == 0 || |resolves| == |colors|)
    }

    /** The stored reference list of `role`. */
    function Refs(role: Role): seq<AttachmentReference>
    {
      match role
      case Input => inputs
      case Color => colors
      case DepthStencil => depthStencil
      case Resolve => resolves
    }
  }

  /** The attachment indices a reference list names, in its order. */
  function AttachmentIndices(refs: seq<AttachmentReference>): (indices: seq<nat>)
    ensures |indices| == |refs|
    ensures forall i :: 0 <= i < |refs| ==> indices[i] == refs[i].attachment
  {
    seq(|refs|, i requires 0 <= i < |refs| => refs[i].attachment)
  }

  /** Linear membership test. */
  function Occurs(xs: seq<nat>, x: nat): (found: bool)
    ensures found <==> x in xs
  {
    if xs == [] then false
    else xs[0] == x || Occurs(xs[1..], x)
  }

  /** `is_input_attachment`, `is_color_attachment`, `is_depth_stencil_attachment`
      and `is_resolve_attachment`: subpass `subpass` exists and references
      attachment `attachment` in `role`. A subpass index out of range gives false. */
  function IsAttachment(subpasses: seq<SubpassData>, subpass: nat, attachment: nat, role: Role): (b: bool)
    ensures b <==> (subpass < |subpasses| &&
      exists i :: 0 <= i < |subpasses[subpass].Refs(role)| && subpasses[subpass].Refs(role)[i].attachment == attachment)
  {
    subpass < |subpasses| && Occurs(AttachmentIndices(subpasses[subpass].Refs(role)), attachment)
  }

  /** `is_preserve_attachment`: subpass `subpass` exists and preserves `attachment`. */
  function IsPreserveAttachment(subpasses: seq<SubpassData>, subpass: nat, attachment: nat): (b: bool)
    ensures b <==> subpass < |subpasses| && attachment in subpasses[subpass].preserves
  {
    subpass < |subpasses| && Occurs(subpasses[subpass].preserves, attachment)
  }

  /** `input_attachments_for_subpass`, `color_attachments_for_subpass`,
      `depth_stencil_attachments_for_subpass` and `resolve_attachments_for_subpass`:
      the stored list, in its order (for colors, shader-location order). The
      list names exactly the attachments the role query answers true for, and
      on a valid subpass it has the lengths the role admits. */
  function AttachmentsForSubpass(subpasses: seq<SubpassData>, subpass: nat, role: Role): (refs: seq<AttachmentReference>)
    requires subpass < |subpasses|
    ensures refs == subpasses[subpass].Refs(role)
    ensures forall a :: IsAttachment(subpasses, subpass, a, role) <==>
      exists i :: 0 <= i < |refs| && refs[i].attachment == a
    ensures subpasses[subpass].Valid() && role == DepthStencil ==> |refs| <= 1
    ensures subpasses[subpass].Valid() && role == Resolve ==>
      |refs| == 0 || |refs| == |subpasses[subpass].colors|
  {
    subpasses[subpass].Refs(role)
  }

  /** `preserve_attachments_for_subpass`: the stored list, which names exactly the
      attachments the preserve query answers true for. */
  function PreserveAttachmentsForSubpass(subpasses: seq<SubpassData>, subpass: nat): (preserved: seq<nat>)
    requires subpass < |subpasses|
    ensures preserved == subpasses[subpass].preserves
    ensures forall a :: IsPreserveAttachment(subpasses, subpass, a) <==> a in preserved
  {
    subpasses[subpass].preserves
  }

  /** `vk::SubpassDescription`: the native form of a subpass. It has room for one
      depth/stencil reference, and its resolve array, when present, runs parallel
      to the color array. */
  datatype SubpassDescription = SubpassDescription(
    inputAttachments: seq<AttachmentReference>,
    colorAttachments: seq<AttachmentReference>,
    resolveAttachments: Option<seq<AttachmentReference>>,
    depthStencilAttachment: Option<AttachmentReference>,
    preserveAttachments: seq<nat>)
  {
    predicate WellFormed()
    {
      resolveAttachments.Some? ==> |resolveAttachments.value| == |colorAttachments| > 0
    }
  }

  /** The native description of a valid subpass. */
  function Describe(sd: SubpassData): (d: SubpassDescription)
    requires sd.Valid()
    ensures d.WellFormed()
    ensures DataOf(d) == sd
  {
    SubpassDescription(
      sd.inputs,
      sd.colors,
      if sd.resolves == [] then None else Some(sd.resolves),
      if sd.depthStencil == [] then None else Some(sd.depthStencil[0]),
      sd.preserves)
  }

  /** The subpass data a native description stands for. */
  function DataOf(d: SubpassDescription): SubpassData
  {
    SubpassData(
      d.inputAttachments,
      d.colorAttachments,
      if d.depthStencilAttachment.Some? then [d.depthStencilAttachment.value] else [],
      if d.resolveAttachments.Some? then d.resolveAttachments.value else [],
      d.preserveAttachments)
  }

  /** A well-formed native description survives the trip to subpass data and back. */
  lemma DataOfRoundTrip(d: SubpassDescription)
    requires d.WellFormed()
    ensures DataOf(d).Valid() && Describe(DataOf(d)) == d
  {
  }

  /** The subpasses a native description can stand for are exactly the valid ones. */
  lemma DescribableIffValid(sd: SubpassData)
    ensures sd.Valid() <==> exists d: SubpassDescription :: d.WellFormed() && DataOf(d) == sd
  {
    if sd.Valid() {
      assert Describe(sd).WellFormed() && DataOf(Describe(sd)) == sd;
    }
  }

  /** Why `create` refuses a configuration. */
  datatype ConfigError =
    | NoSubpasses
    | TooManyDepthStencilAttachments(subpass: nat)
    | ResolveCountMismatch(subpass: nat)

  /** The first error among subpasses `from..`, checking the depth/stencil count
      of a subpass before its resolve count. */
  function FirstInvalidFrom(subpasses: seq<SubpassData>, from: nat): (r: Option<ConfigError>)
    requires from <= |subpasses|
    ensures r == None <==> forall i :: from <= i < |subpasses| ==> subpasses[i].Valid()
    ensures r.Some? ==>
      && !r.value.NoSubpasses? && from <= r.value.subpass < |subpasses|
      && !subpasses[r.value.subpass].Valid()
      && (forall i :: from <= i < r.value.subpass ==> subpasses[i].Valid())
      && (r.value.TooManyDepthStencilAttachments? <==> |subpasses[r.value.subpass].depthStencil| > 1)
    decreases |subpasses| - from
  {
    if from == |subpasses| then None
    else if |subpasses[from].depthStencil| > 1 then Some(TooManyDepthStencilAttachments(from))
    else if !(|subpasses[from].resolves| == 0 || |subpasses[from].resolves| == |subpasses[from].colors|) then
      Some(ResolveCountMismatch(from))
    else FirstInvalidFrom(subpasses, from + 1)
  }

  /** The configuration check of `create`: at least one subpass, and every subpass valid. */
  function Validate(subpasses: seq<SubpassData>): (r: Option<ConfigError>)
    ensures r == None <==> |subpasses| > 0 && forall i :: 0 <= i < |subpasses| ==> subpasses[i].Valid()
    ensures r == Some(NoSubpasses) <==> |subpasses| == 0
  {
    if |subpasses| == 0 then Some(NoSubpasses) else FirstInvalidFrom(subpasses, 0)
  }

  /** A subpass index, or `VK_SUBPASS_EXTERNAL`. */
  datatype SubpassId = External | Subpass(index: nat)

  /** The synchronisation scopes of a dependency; the masks are opaque values. */
  datatype SyncScopes = SyncScopes(srcStage: nat, srcAccess: nat, dstStage: nat, dstAccess: nat)

  /** `vk::SubpassDependency` (and the `renderpass_sync` record its callback edits). */
  datatype Dependency = Dependency(src: SubpassId, dst: SubpassId, scopes: SyncScopes)

  /** The dependency slots of a pass with `n` subpasses: external into subpass 0,
      each subpass into the next, the last subpass out to external. They form
      one chain through every subpass in index order. */
  function DependencySlots(n: nat): (slots: seq<(SubpassId, SubpassId)>)
    requires n > 0
    ensures |slots| == n + 1
    ensures slots[0].0 == External && slots[n].1 == External
    ensures forall i :: 0 <= i < n ==> slots[i].1 == Subpass(i)
    ensures forall i :: 0 < i <= n ==> slots[i].0 == Subpass(i - 1)
  {
    var between := seq(n - 1, i requires 0 <= i < n - 1 => (Subpass(i), Subpass(i + 1)));
    var slots := [(External, Subpass(0))] + between + [(Subpass(n - 1), External)];
    assert forall i :: 0 < i < n ==> slots[i] == between[i - 1];
    slots
  }

  /** The dependency a slot proposes before any callback runs: the slot's ends
      with the default scopes for them. */
  function Proposal(slot: (SubpassId, SubpassId), defaults: (SubpassId, SubpassId) -> SyncScopes): Dependency
  {
    Dependency(slot.0, slot.1, defaults(slot.0, slot.1))
  }

  /** The dependency `create` stores for a proposal: the proposal itself, or,
      when there is a sync callback, the proposal with the scopes the callback
      returns for it. The ends of the dependency never change. */
  function SyncedDependency(proposed: Dependency, sync: Option<Dependency -> SyncScopes>): (dep: Dependency)
    ensures dep.src == proposed.src && dep.dst == proposed.dst
    ensures sync.None? ==> dep == proposed
    ensures sync.Some? ==> dep.scopes == sync.value(proposed)
  {
    match sync
    case None => proposed
    case Some(f) => proposed.(scopes := f(proposed))
  }

  /** The proposals of all slots of a pass with `n` subpasses, in slot order. */
  function Proposals(n: nat, defaults: (SubpassId, SubpassId) -> SyncScopes): (proposals: seq<Dependency>)
    requires n > 0
    ensures |proposals| == n + 1
  {
    seq(n + 1, k requires 0 <= k <= n => Proposal(DependencySlots(n)[k], defaults))
  }

  /** The dependencies `create` stores for a pass with `n` subpasses, one per slot. */
  function SynthesizedDependencies(
    n: nat,
    defaults: (SubpassId, SubpassId) -> SyncScopes,
    sync: Option<Dependency -> SyncScopes>): (deps: seq<Dependency>)
    requires n > 0
    ensures |deps| == n + 1
    ensures sync.None? ==> deps == Proposals(n, defaults)
  {
    SyncedAll(Proposals(n, defaults), sync)
  }

  /** Each proposal, in order, as `SyncedDependency` settles it. */
  function SyncedAll(proposals: seq<Dependency>, sync: Option<Dependency -> SyncScopes>): (deps: seq<Dependency>)
    ensures |deps| == |proposals|
    ensures sync.None? ==> deps == proposals
  {
    seq(|proposals|, k requires 0 <= k < |proposals| => SyncedDependency(proposals[k], sync))
  }

  /** Whatever scopes the callback chooses, the synthesised dependencies chain
      external into the first subpass, each subpass into the next, and the last
      subpass out to external. */
  lemma DependenciesChainSubpasses(
    n: nat,
    defaults: (SubpassId, SubpassId) -> SyncScopes,
    sync: Option<Dependency -> SyncScopes>)
    requires n > 0
    ensures var deps := SynthesizedDependencies(n, defaults, sync);
      && deps[0].src == External && deps[n].dst == External
      && (forall i :: 0 <= i < n ==> deps[i].dst == Subpass(i))
      && (forall i :: 0 < i <= n ==> deps[i].src == Subpass(i - 1))
  {
  }

  /** The native descriptions of a list of valid subpasses, each of which turns
      back into the subpass it came from. */
  function Descriptions(data: seq<SubpassData>): (descriptions: seq<SubpassDescription>)
    requires forall i :: 0 <= i < |data| ==> data[i].Valid()
    ensures |descriptions| == |data|
    ensures forall i :: 0 <= i < |data| ==> descriptions[i].WellFormed() && DataOf(descriptions[i]) == data[i]
  {
    seq(|data|, i requires 0 <= i < |data| => Describe(data[i]))
  }

  /** Everything `create` assembles before the native render pass is made. */
  datatype Config = Config(
    attachments: seq<AttachmentDescription>,
    subpassData: seq<SubpassData>,
    subpasses: seq<SubpassDescription>,
    dependencies: seq<Dependency>)

  /** The dependency loop of `create`: walks the slots' proposals in order,
      offers each to `sync`, if given, and keeps the dependency with the scopes
      it returns. */
  method SyncDependencies(proposals: seq<Dependency>, sync: Option<Dependency -> SyncScopes>)
    returns (dependencies: seq<Dependency>, ghost syncCalls: seq<Dependency>)
    ensures dependencies == SyncedAll(proposals, sync)
    ensures syncCalls == (if sync.Some? then proposals else [])
  {
    syncCalls := [];
    dependencies := [];
    var k := 0;
    while k < |proposals|
      invariant 0 <= k <= |proposals|
      invariant |dependencies| == k
      invariant forall j :: 0 <= j < k ==> dependencies[j] == SyncedDependency(proposals[j], sync)
      invariant sync.Some? ==> syncCalls == proposals[..k]
      invariant sync.None? ==> syncCalls == []
    {
      var proposed := proposals[k];
      var dependency := proposed;
      if sync.Some? {
        syncCalls := syncCalls + [proposed];
        dependency := proposed.(scopes := sync.value(proposed));
      }
      dependencies := dependencies + [dependency];
      k := k + 1;
    }
    assert sync.Some? ==> syncCalls == proposals;
  }

  /** The configuration after the `alter` callback, if any, has changed it. */
  function Altered(config: Config, alter: Option<Config -> Config>): Config
  {
    if alter.Some? then alter.value(config) else config
  }

  class RenderPass {
    /** `mAttachmentDescriptions`: attachment index is position. */
    var attachmentDescriptions: seq<AttachmentDescription>
    /** `mSubpassData` */
    var subpassData: seq<SubpassData>
    /** `mSubpasses` */
    var subpasses: seq<SubpassDescription>
    /** `mSubpassDependencies` */
    var subpassDependencies: seq<Dependency>
    /** `mRenderPass`: the native render pass, as the configuration it was built
        from; `None` before it is built. */
    var handle: Option<Config>

    /** The configuration the fields describe now. */
    function Configuration(): Config
      reads this
    {
      Config(attachmentDescriptions, subpassData, subpasses, subpassDependencies)
    }

    /** `renderpass_t()`: nothing described, nothing built. */
    constructor ()
      ensures Configuration() == Config([], [], [], []) && handle == None
    {
      attachmentDescriptions, subpassData, subpasses, subpassDependencies := [], [], [], [];
      handle := None;
    }

    /** `renderpass_t::create`: checks the subpasses, describes them natively,
        synthesises one dependency per slot (calling `sync`, if given, once per
        slot, in order), lets `alter`, if given, change the assembled
        configuration, and builds the render pass from what `alter` returns. */
    static method Create(
      attachments: seq<AttachmentDescription>,
      data: seq<SubpassData>,
      defaults: (SubpassId, SubpassId) -> SyncScopes,
      sync: Option<Dependency -> SyncScopes>,
      alter: Option<Config -> Config>)
      returns (r: Result<RenderPass, ConfigError>, ghost syncCalls: seq<Dependency>, ghost assembled: Config)
      ensures r.Err? <==> Validate(data).Some?
      ensures r.Err? ==> r.error == Validate(data).value
      ensures r.Ok? ==> fresh(r.value)
      ensures r.Ok? ==> |data| > 0 && forall i :: 0 <= i < |data| ==> data[i].Valid()
      ensures r.Ok? ==>
        assembled == Config(attachments, data, Descriptions(data), SynthesizedDependencies(|data|, defaults, sync))
      ensures r.Ok? ==> syncCalls == (if sync.Some? then Proposals(|data|, defaults) else [])
      ensures r.Ok? ==> r.value.Configuration() == Altered(assembled, alter)
      ensures r.Ok? ==> r.value.handle == Some(Altered(assembled, alter))
    {
      syncCalls := [];
      assembled := Config([], [], [], []);
      var err := Validate(data);
      if err.Some? {
        return Err(err.value), syncCalls, assembled;
      }
      var descriptions := Descriptions(data);
      var dependencies;
      var proposals := Proposals(|data|, defaults);
      dependencies, syncCalls := SyncDependencies(proposals, sync);
      var config := Config(attachments, data, descriptions, dependencies);
      assembled := config;
      var final := Altered(config, alter);
      var pass := new RenderPass();
      pass.attachmentDescriptions := final.attachments;
      pass.subpassData := final.subpassData;
      pass.subpasses := final.subpasses;
      pass.subpassDependencies := final.dependencies;
      pass.handle := Some(final);
      r := Ok(pass);
    }
  }

  /** One subpass with a color attachment (0) and a depth/stencil attachment (1):
      the queries classify them, the configuration is accepted, and, whatever the
      default scopes and the sync callback, two dependencies are synthesised:
      external into the subpass, and the subpass out to external. */
  lemma ColorAndDepthScenario(defaults: (SubpassId, SubpassId) -> SyncScopes, sync: Option<Dependency -> SyncScopes>)
    ensures var sd := SubpassData([], [AttachmentReference(0, 0)], [AttachmentReference(1, 0)], [], []);
      var deps := SynthesizedDependencies(1, defaults, sync);
      && IsAttachment([sd], 0, 0, Color)
      && IsAttachment([sd], 0, 1, DepthStencil)
      && !IsAttachment([sd], 0, 0, Input)
      && !IsAttachment([sd], 1, 0, Color)
      && Validate([sd]) == None
      && |deps| == 2
      && deps[0].src == External && deps[0].dst == Subpass(0)
      && deps[1].src == Subpass(0) && deps[1].dst == External
  {
    var sd := SubpassData([], [AttachmentReference(0, 0)], [AttachmentReference(1, 0)], [], []);
    assert [sd][0].Refs(Color)[0].attachment == 0;
    assert [sd][0].Refs(DepthStencil)[0].attachment == 1;
  }
}
