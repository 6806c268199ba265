// The Vulkan side of descriptor management: how engine descriptor kinds become Vulkan
// descriptor types, layout bindings and the builder that collects them, and the manager
// that caches layouts by index and allocates descriptor sets from them. The Vulkan device
// and its objects are not modelled: whether creating a layout or a set succeeds is given
// as a parameter carrying the library's error text.
module VulkanDescriptor {
  import opened Wrappers
  import opened Ints
  import opened Errors
  import Decimal
  import Descriptor

  datatype VkDescriptorType = UniformBuffer | SampledImage | StorageImage | VkSampler | InputAttachment

  /** `to_vulkan_descriptor_type`. */
  function ToVulkanDescriptorType(t: Descriptor.DescriptorType): (v: VkDescriptorType)
    ensures v == InputAttachment <==> !t.IsShaderVisible()
  {
    match t
    case ConstantBufferView => UniformBuffer
    case ShaderResourceView => SampledImage
    case UnorderedAccessView => StorageImage
    case Sampler => VkSampler
    case RenderTargetView => InputAttachment
    case DepthStencilView => InputAttachment
  }

  /**
   * The shader-visible kinds each get a Vulkan type of their own, and only render-target and
   * depth-stencil views fall back to input attachments.
   */
  lemma ShaderVisibleKindsMapApart(a: Descriptor.DescriptorType, b: Descriptor.DescriptorType)
    requires a.IsShaderVisible() && b.IsShaderVisible()
    ensures ToVulkanDescriptorType(a) == ToVulkanDescriptorType(b) <==> a == b
  {
  }

  /** A stage of the pipeline a binding is visible to (the bits of `ShaderStages`). */
  datatype ShaderStage = VertexStage | TessellationControlStage | TessellationEvaluationStage
                       | GeometryStage | FragmentStage | ComputeStage

  type ShaderStages = set<ShaderStage>

  /** `VulkanDescriptorBinding`; its `new` is the datatype's constructor. */
  datatype VulkanDescriptorBinding = VulkanDescriptorBinding(
    binding: u32, descriptorType: Descriptor.DescriptorType, descriptorCount: u32, shaderStages: ShaderStages)

  function UniformBufferBinding(binding: u32, stages: ShaderStages): VulkanDescriptorBinding {
    VulkanDescriptorBinding(binding, Descriptor.ConstantBufferView, 1, stages)
  }

  function StorageBufferBinding(binding: u32, stages: ShaderStages): VulkanDescriptorBinding {
    VulkanDescriptorBinding(binding, Descriptor.UnorderedAccessView, 1, stages)
  }

  function SampledImageBinding(binding: u32, stages: ShaderStages): VulkanDescriptorBinding {
    VulkanDescriptorBinding(binding, Descriptor.ShaderResourceView, 1, stages)
  }

  function SamplerBinding(binding: u32, stages: ShaderStages): VulkanDescriptorBinding {
    VulkanDescriptorBinding(binding, Descriptor.Sampler, 1, stages)
  }

  /** The part of a Vulkan layout binding this model keeps: its type and stages. */
  datatype VulkanoBinding = VulkanoBinding(descriptorType: VkDescriptorType, stages: ShaderStages)

  /** `to_vulkano_binding`: the Vulkan type of the binding's kind, visible to the same stages. */
  function ToVulkanoBinding(b: VulkanDescriptorBinding): (v: VulkanoBinding)
    ensures v.stages == b.shaderStages
    ensures v.descriptorType == ToVulkanDescriptorType(b.descriptorType)
  {
    VulkanoBinding(ToVulkanDescriptorType(b.descriptorType), b.shaderStages)
  }

  /**
   * Each shorthand constructor makes a single descriptor of the kind its name says, at the
   * given binding point and stages, and the Vulkan binding it turns into has the matching
   * Vulkan type; a storage buffer, being an unordered-access view, becomes a storage image.
   */
  lemma ShorthandBindings(binding: u32, stages: ShaderStages)
    ensures var bs := [UniformBufferBinding(binding, stages), StorageBufferBinding(binding, stages),
                       SampledImageBinding(binding, stages), SamplerBinding(binding, stages)];
      forall k :: 0 <= k < 4 ==> bs[k].binding == binding && bs[k].descriptorCount == 1 && bs[k].shaderStages == stages
    ensures ToVulkanoBinding(UniformBufferBinding(binding, stages)) == VulkanoBinding(UniformBuffer, stages)
    ensures ToVulkanoBinding(StorageBufferBinding(binding, stages)) == VulkanoBinding(StorageImage, stages)
    ensures ToVulkanoBinding(SampledImageBinding(binding, stages)) == VulkanoBinding(SampledImage, stages)
    ensures ToVulkanoBinding(SamplerBinding(binding, stages)) == VulkanoBinding(VkSampler, stages)
  {
  }

  /**
   * `VulkanDescriptorSetLayout`: the Vulkan bindings as the create info holds them, a map from
   * binding point to binding, and the engine's bindings as they were given.
   */
  datatype Layout = Layout(vkBindings: map<u32, VulkanoBinding>, bindings: seq<VulkanDescriptorBinding>)

  /**
   * Collecting the `(binding, to_vulkano_binding())` pairs into the create info's `BTreeMap`:
   * the pairs are inserted in order, so a later binding at the same point replaces an earlier one.
   */
  function BindingMap(bindings: seq<VulkanDescriptorBinding>): map<u32, VulkanoBinding>
    decreases |bindings|
  {
    if bindings == [] then map[]
    else
      var last := bindings[|bindings| - 1];
      BindingMap(bindings[..|bindings| - 1])[last.binding := ToVulkanoBinding(last)]
  }

  /** The binding points the bindings name. */
  function Points(bindings: seq<VulkanDescriptorBinding>): set<u32> {
    set k | 0 <= k < |bindings| :: bindings[k].binding
  }

  /** Binding `k` is the last one given for its point. */
  predicate LastAt(bindings: seq<VulkanDescriptorBinding>, k: int) {
    0 <= k < |bindings| && forall j :: k < j < |bindings| ==> bindings[j].binding != bindings[k].binding
  }

  predicate DistinctPoints(bindings: seq<VulkanDescriptorBinding>) {
    forall i, j :: 0 <= i < j < |bindings| ==> bindings[i].binding != bindings[j].binding
  }

  /** Appending a binding adds its point to the points named. */
  lemma PointsSnoc(bindings: seq<VulkanDescriptorBinding>)
    requires bindings != []
    ensures Points(bindings) == Points(bindings[..|bindings| - 1]) + {bindings[|bindings| - 1].binding}
  {
    var n := |bindings| - 1;
    var init := bindings[..n];
    forall p | p in Points(bindings) ensures p in Points(init) + {bindings[n].binding} {
      var k :| 0 <= k < |bindings| && bindings[k].binding == p;
      if k < n {
        assert init[k].binding == p;
      }
    }
    forall p | p in Points(init) ensures p in Points(bindings) {
      var k :| 0 <= k < |init| && init[k].binding == p;
      assert bindings[k].binding == p;
    }
  }

  /** The collected map has exactly the given binding points as keys. */
  lemma {:induction false} BindingMapKeys(bindings: seq<VulkanDescriptorBinding>)
    decreases |bindings|
    ensures BindingMap(bindings).Keys == Points(bindings)
  {
    if bindings != [] {
      BindingMapKeys(bindings[..|bindings| - 1]);
      PointsSnoc(bindings);
    }
  }

  /** Each point holds the Vulkan form of the last binding given for it. */
  lemma {:induction false} BindingMapLastWins(bindings: seq<VulkanDescriptorBinding>, k: int)
    requires LastAt(bindings, k)
    decreases |bindings|
    ensures bindings[k].binding in BindingMap(bindings)
    ensures BindingMap(bindings)[bindings[k].binding] == ToVulkanoBinding(bindings[k])
  {
    var n := |bindings| - 1;
    if k < n {
      var init := bindings[..n];
      assert bindings[k] == init[k] && bindings[n].binding != bindings[k].binding;
      assert LastAt(init, k);
      BindingMapLastWins(init, k);
    }
  }

  /** With distinct points there is one entry per binding. */
  lemma {:induction false} BindingMapSize(bindings: seq<VulkanDescriptorBinding>)
    requires DistinctPoints(bindings)
    decreases |bindings|
    ensures |BindingMap(bindings)| == |bindings|
  {
    if bindings != [] {
      var n := |bindings| - 1;
      var init := bindings[..n];
      assert DistinctPoints(init);
      BindingMapSize(init);
      BindingMapKeys(init);
      forall k | 0 <= k < |init| ensures init[k].binding != bindings[n].binding {
        assert init[k] == bindings[k];
      }
      assert bindings[n].binding !in Points(init);
    }
  }

  /**
   * The collected map has exactly the given binding points as keys, each point holds the Vulkan
   * form of the last binding given for it, and with distinct points there is one entry per binding.
   */
  lemma BindingMapMeaning(bindings: seq<VulkanDescriptorBinding>)
    ensures BindingMap(bindings).Keys == Points(bindings)
    ensures forall k :: LastAt(bindings, k) ==>
      bindings[k].binding in BindingMap(bindings) && BindingMap(bindings)[bindings[k].binding] == ToVulkanoBinding(bindings[k])
    ensures DistinctPoints(bindings) ==> |BindingMap(bindings)| == |bindings|
  {
    BindingMapKeys(bindings);
    forall k | LastAt(bindings, k)
      ensures bindings[k].binding in BindingMap(bindings)
      ensures BindingMap(bindings)[bindings[k].binding] == ToVulkanoBinding(bindings[k])
    {
      BindingMapLastWins(bindings, k);
    }
    if DistinctPoints(bindings) {
      BindingMapSize(bindings);
    }
  }

  function LayoutCreationFailed(debugText: string): DistRenderError {
    Graphics(ResourceCreation("Failed to create descriptor set layout: " + debugText))
  }

  /**
   * `VulkanDescriptorSetLayout::new`; `creationError` is the debug text of the error Vulkan
   * reports, if it reports one.
   */
  function NewLayout(bindings: seq<VulkanDescriptorBinding>, creationError: Option<string>): Result<Layout, DistRenderError> {
    match creationError
    case Some(e) => Err(LayoutCreationFailed(e))
    case None => Ok(Layout(BindingMap(bindings), bindings))
  }

  /**
   * A layout is made exactly when Vulkan accepts it; it keeps the engine's bindings, its Vulkan
   * bindings sit at exactly the given points, each point with the Vulkan type and stages of the
   * last binding given for it, and with distinct points there is one Vulkan binding per binding.
   */
  lemma NewLayoutKeepsBindings(bindings: seq<VulkanDescriptorBinding>, creationError: Option<string>)
    ensures NewLayout(bindings, creationError).Ok? <==> creationError.None?
    ensures creationError.Some? ==> NewLayout(bindings, creationError) == Err(LayoutCreationFailed(creationError.value))
    ensures creationError.None? ==>
      var l := NewLayout(bindings, creationError).value;
      l.bindings == bindings && l.vkBindings.Keys == Points(bindings) &&
      (DistinctPoints(bindings) ==> |l.vkBindings| == |bindings|) &&
      forall k :: LastAt(bindings, k) ==>
        bindings[k].binding in l.vkBindings &&
        l.vkBindings[bindings[k].binding].descriptorType == ToVulkanDescriptorType(bindings[k].descriptorType) &&
        l.vkBindings[bindings[k].binding].stages == bindings[k].shaderStages
  {
    BindingMapMeaning(bindings);
  }

  /**
   * Two bindings at the same point: the layout keeps both engine bindings, but Vulkan sees only
   * the later one, so a uniform buffer followed by a sampler at point 0 is a lone sampler.
   */
  lemma RepeatedPointKeepsLast(stages: ShaderStages)
    ensures var bs := [UniformBufferBinding(0, stages), SamplerBinding(0, stages)];
      NewLayout(bs, None) == Ok(Layout(map[0 := VulkanoBinding(VkSampler, stages)], bs))
  {
    var bs := [UniformBufferBinding(0, stages), SamplerBinding(0, stages)];
    BindingMapKeys(bs);
    assert Points(bs) == {0} by {
      assert bs[0].binding == 0 && bs[1].binding == 0;
    }
    BindingMapLastWins(bs, 1);
    assert ToVulkanoBinding(bs[1]) == VulkanoBinding(VkSampler, stages);
    assert BindingMap(bs) == map[0 := VulkanoBinding(VkSampler, stages)];
  }

  /** `VulkanDescriptorPoolSize`. */
  datatype VulkanDescriptorPoolSize = VulkanDescriptorPoolSize(descriptorType: Descriptor.DescriptorType, descriptorCount: u32)

  /**
   * `DescriptorSetBuilder`: each `add_*` call appends one binding, so the bindings are kept in
   * call order.
   */
  class DescriptorSetBuilder {
    var bindings: seq<VulkanDescriptorBinding>

    constructor ()
      ensures bindings == []
    {
      bindings := [];
    }

    method AddUniformBuffer(binding: u32, stages: ShaderStages)
      modifies this
      ensures bindings == old(bindings) + [UniformBufferBinding(binding, stages)]
    {
      bindings := bindings + [UniformBufferBinding(binding, stages)];
    }

    method AddStorageBuffer(binding: u32, stages: ShaderStages)
      modifies this
      ensures bindings == old(bindings) + [StorageBufferBinding(binding, stages)]
    {
      bindings := bindings + [StorageBufferBinding(binding, stages)];
    }

    method AddSampledImage(binding: u32, stages: ShaderStages)
      modifies this
      ensures bindings == old(bindings) + [SampledImageBinding(binding, stages)]
    {
      bindings := bindings + [SampledImageBinding(binding, stages)];
    }

    method AddSampler(binding: u32, stages: ShaderStages)
      modifies this
      ensures bindings == old(bindings) + [SamplerBinding(binding, stages)]
    {
      bindings := bindings + [SamplerBinding(binding, stages)];
    }

    method AddBinding(binding: VulkanDescriptorBinding)
      modifies this
      ensures bindings == old(bindings) + [binding]
    {
      bindings := bindings + [binding];
    }

    /** `build`: a layout over the bindings collected so far. */
    function Build(creationError: Option<string>): (r: Result<Layout, DistRenderError>)
      reads this
      ensures r.Ok? <==> creationError.None?
      ensures r.Err? ==> r.error == LayoutCreationFailed(creationError.value)
      ensures r.Ok? ==> r.value.bindings == bindings && r.value.vkBindings.Keys == Points(bindings)
      ensures r.Ok? ==> forall k :: LastAt(bindings, k) ==>
        bindings[k].binding in r.value.vkBindings && r.value.vkBindings[bindings[k].binding] == ToVulkanoBinding(bindings[k])
    {
      NewLayoutKeepsBindings(bindings, creationError);
      NewLayout(bindings, creationError)
    }
  }

  /** The builder test: three calls give three bindings, at points 0, 1 and 2 in call order. */
  method BuilderScenario(stages: ShaderStages) returns (bindings: seq<VulkanDescriptorBinding>, layout: Result<Layout, DistRenderError>)
    ensures |bindings| == 3 && bindings[0].binding == 0 && bindings[1].binding == 1 && bindings[2].binding == 2
    ensures bindings[0].descriptorType == Descriptor.ConstantBufferView
    ensures layout.Ok? && layout.value.vkBindings.Keys == {0, 1, 2} && layout.value.vkBindings[2] == VulkanoBinding(VkSampler, stages)
  {
    var b := new DescriptorSetBuilder();
    b.AddUniformBuffer(0, stages);
    b.AddSampledImage(1, stages);
    b.AddSampler(2, stages);
    bindings := b.bindings;
    layout := b.Build(None);
    assert Points(bindings) == {0, 1, 2} by {
      assert bindings[0].binding == 0 && bindings[1].binding == 1 && bindings[2].binding == 2;
    }
    assert LastAt(bindings, 2);
  }

  /** A descriptor set allocated from a cached layout (the writes are not modelled). */
  datatype DescriptorSet = DescriptorSet(layout: Layout)

  function LayoutNotFound(index: nat): DistRenderError {
    Runtime("Descriptor set layout with index " + Decimal.NatToString(index) + " not found")
  }

  function SetAllocationFailed(debugText: string): DistRenderError {
    Graphics(ResourceCreation("Failed to allocate descriptor set: " + debugText))
  }

  /** `get_layout` on a list of cached layouts. */
  function LayoutAt(layouts: seq<Layout>, index: nat): (r: Option<Layout>)
    ensures r.Some? <==> index < |layouts|
    ensures r.Some? ==> r.value == layouts[index]
  {
    if index < |layouts| then Some(layouts[index]) else None
  }

  /**
   * `allocate_descriptor_set` on a list of cached layouts: an unknown index is reported first,
   * then any error Vulkan gives when allocating the set.
   */
  function AllocateFrom(layouts: seq<Layout>, index: nat, allocError: Option<string>): (r: Result<DescriptorSet, DistRenderError>)
    ensures index >= |layouts| ==> r == Err(LayoutNotFound(index))
    ensures index < |layouts| && allocError.Some? ==> r == Err(SetAllocationFailed(allocError.value))
    ensures r.Ok? <==> index < |layouts| && allocError.None?
    ensures r.Ok? ==> r.value.layout == layouts[index]
  {
    match LayoutAt(layouts, index)
    case None => Err(LayoutNotFound(index))
    case Some(l) =>
      match allocError
      case Some(e) => Err(SetAllocationFailed(e))
      case None => Ok(DescriptorSet(l))
  }

  /** `VulkanDescriptorManager`: the cached layouts, addressed by the index `create_layout` returns. */
  class VulkanDescriptorManager {
    var layouts: seq<Layout>

    constructor ()
      ensures layouts == []
    {
      layouts := [];
    }

    /**
     * `create_layout`: on success the new layout is cached at the end and its index, the
     * count before the call, is returned; on failure nothing is cached.
     */
    method CreateLayout(bindings: seq<VulkanDescriptorBinding>, creationError: Option<string>)
      returns (r: Result<nat, DistRenderError>)
      modifies this
      ensures r.Ok? <==> creationError.None?
      ensures r.Err? ==> r == Err(LayoutCreationFailed(creationError.value)) && layouts == old(layouts)
      ensures r.Ok? ==> r.value == |old(layouts)| && layouts == old(layouts) + [NewLayout(bindings, None).value]
    {
      var layout := NewLayout(bindings, creationError);
      if layout.Err? {
        return Err(layout.error);
      }
      var index := |layouts|;
      layouts := layouts + [layout.value];
      r := Ok(index);
    }

    function GetLayout(index: nat): Option<Layout>
      reads this
    {
      LayoutAt(layouts, index)
    }

    function AllocateDescriptorSet(index: nat, allocError: Option<string>): Result<DescriptorSet, DistRenderError>
      reads this
    {
      AllocateFrom(layouts, index, allocError)
    }

    function LayoutCount(): nat
      reads this
    {
      |layouts|
    }
  }

  /**
   * Caching a layout keeps every earlier index pointing at the same layout, and the new index
   * names the new layout, from which a set can then be allocated.
   */
  lemma CachingKeepsEarlierIndices(layouts: seq<Layout>, l: Layout, index: nat)
    ensures index < |layouts| ==> LayoutAt(layouts + [l], index) == LayoutAt(layouts, index)
    ensures LayoutAt(layouts + [l], |layouts|) == Some(l)
    ensures AllocateFrom(layouts + [l], |layouts|, None) == Ok(DescriptorSet(l))
    ensures index > |layouts| ==> LayoutAt(layouts + [l], index).None?
  {
  }

  /** The not-found error names the index: different indices give different messages. */
  lemma LayoutNotFoundNamesIndex(a: nat, b: nat)
    ensures LayoutNotFound(a) == LayoutNotFound(b) <==> a == b
  {
    if LayoutNotFound(a) == LayoutNotFound(b) {
      var p := "Descriptor set layout with index ";
      var sa := Decimal.NatToString(a);
      var sb := Decimal.NatToString(b);
      var ma := p + sa + " not found";
      var mb := p + sb + " not found";
      assert ma == mb;
      assert |sa| == |sb|;
      assert sa == ma[|p|..|p| + |sa|];
      assert sb == mb[|p|..|p| + |sb|];
      Decimal.DigitsOfNatToString(a);
      Decimal.DigitsOfNatToString(b);
    }
  }

  /** Two layouts created on a fresh manager get indices 0 and 1; index 2 is unknown. */
  method ManagerScenario(first: seq<VulkanDescriptorBinding>, second: seq<VulkanDescriptorBinding>)
    returns (i: Result<nat, DistRenderError>, j: Result<nat, DistRenderError>, found: Option<Layout>,
             unknown: Result<DescriptorSet, DistRenderError>, k: Result<nat, DistRenderError>, count: nat)
    ensures i == Ok(0) && j == Ok(1) && found == Some(NewLayout(second, None).value)
    ensures unknown == Err(LayoutNotFound(2)) && k.Err? && count == 2
  {
    var m := new VulkanDescriptorManager();
    i := m.CreateLayout(first, None);
    j := m.CreateLayout(second, None);
    found := m.GetLayout(1);
    unknown := m.AllocateDescriptorSet(2, None);
    k := m.CreateLayout(first, Some("OutOfPoolMemory"));
    count := m.LayoutCount();
  }
}
