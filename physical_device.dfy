/**
 * Choosing the GPU (hell_renderer `vulkan/primitives/vulkan_physical_device.rs`):
 * the suitability score of each physical device, the pick among them, the
 * device-extension check and the search for a supported depth format.
 * Every query to the Vulkan instance is external; its outcome is a
 * parameter (`DeviceQueries`).
 */
module PhysicalDevices {
  import opened Wrappers
  import opened HellErrors
  import opened Seqs
  import opened Queues
  import opened Swapchains

  datatype DeviceType = IntegratedGpu | DiscreteGpu | VirtualGpu | Cpu | OtherDevice

  datatype ImageTiling = Optimal | Linear | DrmFormatModifier

  /** The two feature masks of `vk::FormatProperties` the search reads. */
  datatype FormatProperties = FormatProperties(linearTilingFeatures: bv32, optimalTilingFeatures: bv32)

  /** `vk::Format` values of the depth formats, by their Vulkan enumerant values. */
  const FORMAT_D32_SFLOAT: nat := 126
  const FORMAT_D24_UNORM_S8_UINT: nat := 129
  const FORMAT_D32_SFLOAT_S8_UINT: nat := 130

  /** `vk::FormatFeatureFlags::DEPTH_STENCIL_ATTACHMENT`. */
  const DEPTH_STENCIL_ATTACHMENT: bv32 := 0x200

  /** The candidates `find_depth_format` tries, in order. */
  const DEPTH_CANDIDATES: seq<nat> := [FORMAT_D32_SFLOAT, FORMAT_D32_SFLOAT_S8_UINT, FORMAT_D24_UNORM_S8_UINT]

  /** `config::DEVICE_EXTENSION_NAMES`. */
  const DEVICE_EXTENSION_NAMES: seq<string> := ["VK_KHR_swapchain"]

  const DISCRETE_SCORE: nat := 1000
  const OTHER_SCORE: nat := 100
  const ANISOTROPY_SCORE: nat := 20

  /** What the instance reports about one physical device. */
  datatype DeviceQueries = DeviceQueries(
    deviceType: DeviceType,
    geometryShader: bool,
    shaderDrawParameters: bool,
    samplerAnisotropy: bool,
    queueFamilies: seq<QueueFamilyProperties>,
    presentSupported: seq<Result<bool, SourceError>>,
    extensions: Result<seq<Result<string, SourceError>>, SourceError>,
    swapchain: HellResult<SwapchainSupport>,
    depthFormatProps: seq<FormatProperties>)

  /** `VulkanPhysDevice`: the rated device. */
  datatype PhysDevice = PhysDevice(
    score: nat,
    deviceType: DeviceType,
    queueSupport: QueueSupport,
    swapchainSupport: SwapchainSupport,
    depthFormat: nat)

  // ---------------------------------------------------------------------
  // Formats
  // ---------------------------------------------------------------------

  /** Whether a format's features for the tiling contain all requested bits; other tilings never match. */
  function TilingSupports(props: FormatProperties, tiling: ImageTiling, features: bv32): (r: bool)
    ensures tiling == DrmFormatModifier ==> !r
  {
    match tiling
    case Linear => props.linearTilingFeatures & features == features
    case Optimal => props.optimalTilingFeatures & features == features
    case DrmFormatModifier => false
  }

  /** The position of the first candidate whose properties support the tiling and features. */
  function FirstSupported(props: seq<FormatProperties>, tiling: ImageTiling, features: bv32): (r: Option<nat>)
    ensures r.None? <==> forall i | 0 <= i < |props| :: !TilingSupports(props[i], tiling, features)
    ensures r.Some? ==>
      && r.value < |props| && TilingSupports(props[r.value], tiling, features)
      && forall i | 0 <= i < r.value :: !TilingSupports(props[i], tiling, features)
  {
    FindFirst(props, (p: FormatProperties) => TilingSupports(p, tiling, features))
  }

  /**
   * `find_supported_format`: the first candidate whose properties match
   * (the source's match on the tiling is `TilingSupports`), returned from
   * inside the loop; `props[i]` is what the device reports for
   * `candidates[i]`. Running out of candidates panics.
   */
  method FindSupportedFormat(candidates: seq<nat>, props: seq<FormatProperties>, tiling: ImageTiling, features: bv32)
    returns (format: nat)
    requires |props| == |candidates|
    requires FirstSupported(props, tiling, features).Some?
    ensures format == candidates[FirstSupported(props, tiling, features).value]
  {
    ghost var k := FirstSupported(props, tiling, features).value;
    for i := 0 to |candidates|
      invariant i <= k
    {
      if TilingSupports(props[i], tiling, features) {
        assert i == k;
        return candidates[i];
      }
    }
    assert false;
  }

  /** `has_stencil_component`: the two depth formats with a stencil part. */
  function HasStencilComponent(format: nat): (r: bool)
    ensures r ==> format != FORMAT_D32_SFLOAT
  {
    format == FORMAT_D32_SFLOAT_S8_UINT || format == FORMAT_D24_UNORM_S8_UINT
  }

  /** `find_depth_format`: the first of the three depth candidates usable as an optimal-tiling depth attachment. */
  method FindDepthFormat(props: seq<FormatProperties>) returns (format: nat)
    requires |props| == |DEPTH_CANDIDATES|
    requires FirstSupported(props, Optimal, DEPTH_STENCIL_ATTACHMENT).Some?
    ensures format == DEPTH_CANDIDATES[FirstSupported(props, Optimal, DEPTH_STENCIL_ATTACHMENT).value]
    ensures format in DEPTH_CANDIDATES && (HasStencilComponent(format) <==> format != FORMAT_D32_SFLOAT)
  {
    format := FindSupportedFormat(DEPTH_CANDIDATES, props, Optimal, DEPTH_STENCIL_ATTACHMENT);
  }

  // ---------------------------------------------------------------------
  // Extensions
  // ---------------------------------------------------------------------

  /**
   * `check_device_extension_support` as a value: a failed enumeration or a
   * device extension name that is not valid text is a render error (the
   * first such), otherwise whether every required name is offered.
   */
  function ExtensionSupport(required: seq<string>, offered: Result<seq<Result<string, SourceError>>, SourceError>): (r: HellResult<bool>)
    ensures offered.Err? ==> r == Err(FromSource(RenderError, offered.error))
    ensures offered.Ok? && r.Err? ==> exists i | 0 <= i < |offered.value| ::
      && offered.value[i].Err? && r.error == FromSource(RenderError, offered.value[i].error)
      && forall j | 0 <= j < i :: offered.value[j].Ok?
    ensures offered.Ok? && r.Ok? ==>
      && (forall i | 0 <= i < |offered.value| :: offered.value[i].Ok?)
      && (r.value <==> forall name | name in required :: Ok(name) in offered.value)
  {
    if offered.Err? then Err(FromSource(RenderError, offered.error))
    else
      var bad := FindFirst(offered.value, (x: Result<string, SourceError>) => x.Err?);
      if bad.Some? then Err(FromSource(RenderError, offered.value[bad.value].error))
      else Ok(forall name | name in required :: Ok(name) in offered.value)
  }

  /** `Vec::retain(|e| *e != x)`: every element equal to `x` removed, the others kept in order. */
  function Without(s: seq<string>, x: string): (r: seq<string>)
    ensures forall e :: e in r <==> e in s && e != x
  {
    if s == [] then [] else (if s[0] == x then [] else [s[0]]) + Without(s[1..], x)
  }

  /** `check_device_extension_support`: each offered name is struck from the list of missing ones. */
  method CheckExtensionSupport(required: seq<string>, offered: Result<seq<Result<string, SourceError>>, SourceError>)
    returns (r: HellResult<bool>)
    ensures r == ExtensionSupport(required, offered)
  {
    if offered.Err? {
      return Err(HellError(RenderError, Wrapper(offered.error)));
    }
    var props := offered.value;
    var remaining := required;
    for i := 0 to |props|
      invariant forall j | 0 <= j < i :: props[j].Ok?
      invariant forall e :: e in remaining <==> e in required && Ok(e) !in props[..i]
    {
      if props[i].Err? {
        assert forall j | 0 <= j < i :: props[j].Ok?;
        return Err(HellError(RenderError, Wrapper(props[i].error)));
      }
      var ext := props[i].value;
      remaining := Without(remaining, ext);
      assert props[..i + 1] == props[..i] + [props[i]];
    }
    assert props[..|props|] == props;
    r := Ok(|remaining| == 0);
    assert r.value <==> forall name | name in required :: Ok(name) in props by {
      if |remaining| != 0 {
        assert remaining[0] in remaining;
      }
    }
  }

  // ---------------------------------------------------------------------
  // Rating
  // ---------------------------------------------------------------------

  /**
   * The score as a formula: 1000 for a discrete GPU and 100 otherwise, lost
   * without geometry shaders or shader draw parameters; 20 more with
   * sampler anisotropy, added after that reset; and 0 without complete
   * queues or a suitable swapchain.
   */
  function ExpectedScore(q: DeviceQueries, queuesComplete: bool, swapchainSuitable: bool): (score: nat)
  {
    if !queuesComplete || !swapchainSuitable then 0
    else
      (if q.geometryShader && q.shaderDrawParameters then (if q.deviceType == DiscreteGpu then DISCRETE_SCORE else OTHER_SCORE) else 0)
      + (if q.samplerAnisotropy then ANISOTROPY_SCORE else 0)
  }

  /** A score is 0 exactly when the queues or the swapchain fall short, or the shader features and anisotropy are both missing. */
  lemma ExpectedScoreZero(q: DeviceQueries, queuesComplete: bool, swapchainSuitable: bool)
    ensures ExpectedScore(q, queuesComplete, swapchainSuitable) == 0 <==>
      !queuesComplete || !swapchainSuitable || (!(q.geometryShader && q.shaderDrawParameters) && !q.samplerAnisotropy)
    ensures ExpectedScore(q, queuesComplete, swapchainSuitable) <= DISCRETE_SCORE + ANISOTROPY_SCORE
  {
  }

  /** Whether rating reaches the depth-format search, that is, no step before it gave up on the device. */
  predicate ReachesDepthSearch(q: DeviceQueries)
    requires |q.presentSupported| == |q.queueFamilies|
  {
    && Select(q.queueFamilies, q.presentSupported).Ok?
    && ExtensionSupport(DEVICE_EXTENSION_NAMES, q.extensions) == Ok(true)
    && q.swapchain.Ok?
  }

  /** Rating never panics: whenever the depth search is reached, some depth candidate is usable. */
  predicate RatingDefined(q: DeviceQueries)
  {
    && |q.presentSupported| == |q.queueFamilies|
    && |q.depthFormatProps| == |DEPTH_CANDIDATES|
    && (ReachesDepthSearch(q) ==> FirstSupported(q.depthFormatProps, Optimal, DEPTH_STENCIL_ATTACHMENT).Some?)
  }

  /**
   * `rate_device_suitability` as a value: `None` when a query fails or a
   * required extension is missing, the rated device otherwise.
   */
  function Rate(q: DeviceQueries): (r: Option<PhysDevice>)
    requires RatingDefined(q)
    ensures r.None? <==> !ReachesDepthSearch(q)
  {
    if !ReachesDepthSearch(q) then None
    else
      var queues := Select(q.queueFamilies, q.presentSupported).value;
      var swapchain := q.swapchain.value;
      var score := ExpectedScore(q, IsComplete(queues), IsSuitable(swapchain));
      var depth := DEPTH_CANDIDATES[FirstSupported(q.depthFormatProps, Optimal, DEPTH_STENCIL_ATTACHMENT).value];
      Some(PhysDevice(score, q.deviceType, queues, swapchain, depth))
  }

  /**
   * As written, sampler anisotropy is added after the reset for missing
   * shader features, so a device without geometry shaders still scores 20
   * and survives the `score > 0` filter.
   */
  lemma AnisotropyOutlivesReset(q: DeviceQueries)
    requires RatingDefined(q) && ReachesDepthSearch(q)
    requires !q.geometryShader && q.samplerAnisotropy
    requires IsComplete(Select(q.queueFamilies, q.presentSupported).value) && IsSuitable(q.swapchain.value)
    ensures Rate(q).Some? && Rate(q).value.score == ANISOTROPY_SCORE
  {
  }

  /** `rate_device_suitability`: the running score, reset and raised step by step. */
  method RateDeviceSuitability(q: DeviceQueries) returns (r: Option<PhysDevice>)
    requires RatingDefined(q)
    ensures r == Rate(q)
  {
    var score := 0;
    if q.deviceType == DiscreteGpu {
      score := score + DISCRETE_SCORE;
    } else {
      score := score + OTHER_SCORE;
    }
    if !q.geometryShader {
      score := 0;
    }
    if !q.shaderDrawParameters {
      score := 0;
    }
    if q.samplerAnisotropy {
      score := score + ANISOTROPY_SCORE;
    }
    var queues := NewQueueSupport(q.queueFamilies, q.presentSupported);
    if queues.Err? {
      return None;
    }
    if !IsComplete(queues.value) {
      score := 0;
    }
    var extensions := CheckExtensionSupport(DEVICE_EXTENSION_NAMES, q.extensions);
    if extensions.Err? || !extensions.value {
      return None;
    }
    if q.swapchain.Err? {
      return None;
    }
    if !IsSuitable(q.swapchain.value) {
      score := 0;
    }
    var depth := FindDepthFormat(q.depthFormatProps);
    r := Some(PhysDevice(score, q.deviceType, queues.value, q.swapchain.value, depth));
  }

  // ---------------------------------------------------------------------
  // Picking
  // ---------------------------------------------------------------------

  predicate Eligible(d: Option<PhysDevice>)
  {
    d.Some? && d.value.score > 0
  }

  /**
   * `max_by` over the rated devices among the first `k` with a positive
   * score: one of maximal score, the last of several equal ones.
   */
  function Best(ds: seq<Option<PhysDevice>>, k: nat): (r: Option<nat>)
    requires k <= |ds|
    ensures r.None? <==> forall j | 0 <= j < k :: !Eligible(ds[j])
    ensures r.Some? ==>
      && r.value < k && Eligible(ds[r.value])
      && (forall j | 0 <= j < k && Eligible(ds[j]) :: ds[j].value.score <= ds[r.value].value.score)
      && (forall j | r.value < j < k && Eligible(ds[j]) :: ds[j].value.score < ds[r.value].value.score)
  {
    if k == 0 then None
    else
      var b := Best(ds, k - 1);
      if Eligible(ds[k - 1]) && (b.None? || ds[b.value].value.score <= ds[k - 1].value.score) then Some(k - 1)
      else b
  }

  /**
   * The device `max_by` keeps among rated devices, at least one of them
   * with a positive score: no eligible device after it scores as high.
   */
  function PickBest(rated: seq<Option<PhysDevice>>): (r: PhysDevice)
    requires exists i | 0 <= i < |rated| :: Eligible(rated[i])
    ensures r.score > 0
    ensures exists i | 0 <= i < |rated| ::
              (rated[i] == Some(r) &&
               forall j | i < j < |rated| && Eligible(rated[j]) :: rated[j].value.score < r.score)
    ensures forall i | 0 <= i < |rated| && rated[i].Some? :: rated[i].value.score <= r.score
  {
    var best := Best(rated, |rated|);
    assert forall i | 0 <= i < |rated| && rated[i].Some? :: rated[i].value.score == 0 || Eligible(rated[i]);
    rated[best.value].value
  }

  /** The ratings of the enumerated devices, in order. */
  function RateAll(devices: seq<DeviceQueries>): (rated: seq<Option<PhysDevice>>)
    requires forall i | 0 <= i < |devices| :: RatingDefined(devices[i])
    ensures |rated| == |devices| && forall i | 0 <= i < |devices| :: rated[i] == Rate(devices[i])
  {
    seq(|devices|, i requires 0 <= i < |devices| => Rate(devices[i]))
  }

  /**
   * `pick_phys_device`: a failed enumeration is a render error; otherwise
   * every device is rated and the best eligible one is taken. No eligible
   * device panics.
   */
  function PickPhysDevice(enumerated: Result<seq<DeviceQueries>, SourceError>): (r: HellResult<PhysDevice>)
    requires enumerated.Ok? ==> forall i | 0 <= i < |enumerated.value| :: RatingDefined(enumerated.value[i])
    requires enumerated.Ok? ==> exists i | 0 <= i < |enumerated.value| :: Eligible(Rate(enumerated.value[i]))
    ensures enumerated.Err? ==> r == Err(FromSource(RenderError, enumerated.error))
    ensures enumerated.Ok? ==> r.Ok? && r.value.score > 0
    ensures enumerated.Ok? ==>
              exists i | 0 <= i < |enumerated.value| ::
                (Rate(enumerated.value[i]) == Some(r.value) &&
                 forall j | i < j < |enumerated.value| && Eligible(Rate(enumerated.value[j])) ::
                   Rate(enumerated.value[j]).value.score < r.value.score)
    ensures enumerated.Ok? ==> forall i | 0 <= i < |enumerated.value| && Rate(enumerated.value[i]).Some? ::
      Rate(enumerated.value[i]).value.score <= r.value.score
  {
    if enumerated.Err? then Err(FromSource(RenderError, enumerated.error))
    else Ok(PickBest(RateAll(enumerated.value)))
  }
}
