/**
 * `VulkanSwapchainSupport` (hell_renderer
 * `vulkan/primitives/vulkan_swapchain.rs`): what a surface offers, and the
 * choices the renderer makes from it. Querying the surface is external;
 * its results are the record's fields.
 */
module Swapchains {
  import opened Wrappers
  import opened HellErrors
  import opened Seqs

  /** `vk::Format` and `vk::ColorSpaceKHR`, by their Vulkan enumerant values. */
  const FORMAT_B8G8R8A8_SRGB: nat := 50
  const COLOR_SPACE_SRGB_NONLINEAR: nat := 0

  /** `vk::PresentModeKHR`, by its Vulkan enumerant values. */
  const PRESENT_MODE_IMMEDIATE: nat := 0
  const PRESENT_MODE_MAILBOX: nat := 1
  const PRESENT_MODE_FIFO: nat := 2

  /** The present mode used when MAILBOX is not offered; every surface supports FIFO. */
  const FALLBACK_PRESENT_MODE: nat := PRESENT_MODE_FIFO

  datatype SurfaceFormat = SurfaceFormat(format: nat, colorSpace: nat)

  datatype Extent2D = Extent2D(width: nat, height: nat)

  /** The fields of `vk::SurfaceCapabilitiesKHR` the choices read. */
  datatype SurfaceCapabilities = SurfaceCapabilities(
    minImageCount: nat,
    maxImageCount: nat,
    currentExtent: Extent2D,
    minImageExtent: Extent2D,
    maxImageExtent: Extent2D)

  datatype SwapchainSupport = SwapchainSupport(
    capabilities: SurfaceCapabilities,
    formats: seq<SurfaceFormat>,
    presentModes: seq<nat>)

  /** `is_suitable`: at least one format and one present mode. */
  function IsSuitable(s: SwapchainSupport): (r: bool)
    ensures r <==> |s.formats| > 0 && |s.presentModes| > 0
  {
    !(s.formats == []) && !(s.presentModes == [])
  }

  predicate IsDesiredFormat(f: SurfaceFormat)
  {
    f.format == FORMAT_B8G8R8A8_SRGB && f.colorSpace == COLOR_SPACE_SRGB_NONLINEAR
  }

  /**
   * `choose_swap_surface_format`: the first B8G8R8A8_SRGB / SRGB_NONLINEAR
   * entry, else the first format; a render error when there are none.
   */
  function ChooseSurfaceFormat(s: SwapchainSupport): (r: HellResult<SurfaceFormat>)
    ensures r.Err? <==> s.formats == []
    ensures r.Err? ==> r.error == FromMsg(RenderError, "option is none")
    ensures r.Ok? && (exists j | 0 <= j < |s.formats| :: IsDesiredFormat(s.formats[j])) ==>
      exists j | 0 <= j < |s.formats| ::
        && s.formats[j] == r.value && IsDesiredFormat(r.value)
        && forall k | 0 <= k < j :: !IsDesiredFormat(s.formats[k])
    ensures r.Ok? && (forall j | 0 <= j < |s.formats| :: !IsDesiredFormat(s.formats[j])) ==> r.value == s.formats[0]
  {
    var desired := FindFirst(s.formats, IsDesiredFormat);
    if desired.Some? then Ok(s.formats[desired.value])
    else OptToRenderHellErr(if s.formats == [] then None else Some(s.formats[0]))
  }

  /** `choose_swap_present_mode`: MAILBOX when offered, FIFO otherwise. */
  function ChoosePresentMode(s: SwapchainSupport): (r: nat)
    ensures r == PRESENT_MODE_MAILBOX <==> PRESENT_MODE_MAILBOX in s.presentModes
    ensures r != PRESENT_MODE_MAILBOX ==> r == PRESENT_MODE_FIFO
  {
    var desired := FindFirst(s.presentModes, (m: nat) => m == PRESENT_MODE_MAILBOX);
    if desired.Some? then s.presentModes[desired.value] else FALLBACK_PRESENT_MODE
  }

  /**
   * `num::clamp(input, min, max)`: `min` below the range, `max` above it,
   * the input inside it. For a well-formed range the result lies in it and
   * is the input exactly when the input does.
   */
  function Clamp(input: nat, lo: nat, hi: nat): (r: nat)
    ensures lo <= hi ==> lo <= r <= hi
    ensures lo <= hi ==> (lo <= input <= hi <==> r == input)
  {
    if input < lo then lo else if input > hi then hi else input
  }

  /**
   * `choose_swap_extend`: the surface's current extent, unless its width is
   * the `u32::MAX` sentinel; then the window size clamped into the
   * supported range, dimension by dimension.
   */
  function ChooseExtent(s: SwapchainSupport, winWidth: nat, winHeight: nat): (r: Extent2D)
    ensures s.capabilities.currentExtent.width != U32_MAX ==> r == s.capabilities.currentExtent
    ensures var caps := s.capabilities;
      caps.currentExtent.width == U32_MAX
      && caps.minImageExtent.width <= caps.maxImageExtent.width
      && caps.minImageExtent.height <= caps.maxImageExtent.height ==>
        && caps.minImageExtent.width <= r.width <= caps.maxImageExtent.width
        && caps.minImageExtent.height <= r.height <= caps.maxImageExtent.height
        && (caps.minImageExtent.width <= winWidth <= caps.maxImageExtent.width ==> r.width == winWidth)
        && (caps.minImageExtent.height <= winHeight <= caps.maxImageExtent.height ==> r.height == winHeight)
  {
    var caps := s.capabilities;
    if caps.currentExtent.width != U32_MAX then caps.currentExtent
    else Extent2D(Clamp(winWidth, caps.minImageExtent.width, caps.maxImageExtent.width),
                  Clamp(winHeight, caps.minImageExtent.height, caps.maxImageExtent.height))
  }

  /**
   * `choose_img_count`: one more than the minimum, capped at the maximum
   * unless the maximum is 0 (no limit); the `u32` addition overflows, and
   * panics, at `u32::MAX`. The count never exceeds a set maximum, is one
   * more than the minimum when that fits, and never falls below the
   * minimum when the maximum is at least the minimum; a non-zero maximum
   * at or below the minimum is returned as it is.
   */
  function ChooseImgCount(s: SwapchainSupport): (r: nat)
    requires s.capabilities.minImageCount < U32_MAX
    ensures var caps := s.capabilities;
      && r <= caps.minImageCount + 1
      && (caps.maxImageCount != 0 ==> r <= caps.maxImageCount)
      && (caps.maxImageCount == 0 || caps.minImageCount < caps.maxImageCount <==> r == caps.minImageCount + 1)
      && (caps.maxImageCount == 0 || caps.minImageCount <= caps.maxImageCount ==> r >= caps.minImageCount)
      && (caps.maxImageCount != 0 && caps.maxImageCount <= caps.minImageCount ==> r == caps.maxImageCount)
  {
    var desired := s.capabilities.minImageCount + 1;
    if s.capabilities.maxImageCount == 0 then desired
    else if desired <= s.capabilities.maxImageCount then desired else s.capabilities.maxImageCount
  }
}
