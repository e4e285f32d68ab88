/**
 * `VulkanFrame` (hell_renderer `vulkan/frame.rs`): the ring of
 * frames in flight. Each of the `FRAMES_IN_FLIGHT` slots owns two
 * semaphores, a fence and a graphics command pool; `frame_idx` names the
 * slot of the frame being recorded and advances modulo 3 at `end_frame`.
 *
 * The Vulkan objects are opaque handles created by the caller (the source
 * creates them with `unwrap`, so a creation failure panics rather than
 * reaching the `HellResult`).
 */
module Frames {
  import opened Common
  import opened RenderTypes

  /** The slot after `i` in the ring. */
  function NextFrameIdx(i: nat): (j: nat)
    ensures j < FRAMES_IN_FLIGHT
    ensures i + 1 < FRAMES_IN_FLIGHT ==> j == i + 1
    ensures i == FRAMES_IN_FLIGHT - 1 ==> j == 0
  {
    (i + 1) % FRAMES_IN_FLIGHT
  }

  /** The slot reached from `i` after `n` calls to `end_frame`. */
  function AdvanceFrames(i: nat, n: nat): (j: nat)
    requires i < FRAMES_IN_FLIGHT
    ensures j < FRAMES_IN_FLIGHT
  {
    if n == 0 then i else NextFrameIdx(AdvanceFrames(i, n - 1))
  }

  /** After `n` frames the ring sits at `(i + n) mod 3`. */
  lemma {:induction false} AdvanceFramesIsModulo(i: nat, n: nat)
    requires i < FRAMES_IN_FLIGHT
    ensures AdvanceFrames(i, n) == (i + n) % FRAMES_IN_FLIGHT
  {
    if n > 0 {
      AdvanceFramesIsModulo(i, n - 1);
    }
  }

  /**
   * The ring comes back to where it started after exactly
   * `FRAMES_IN_FLIGHT` frames, and not before.
   */
  lemma RingPeriod(i: nat, n: nat)
    requires i < FRAMES_IN_FLIGHT
    ensures AdvanceFrames(i, FRAMES_IN_FLIGHT) == i
    ensures 0 < n < FRAMES_IN_FLIGHT ==> AdvanceFrames(i, n) != i
  {
    AdvanceFramesIsModulo(i, FRAMES_IN_FLIGHT);
    AdvanceFramesIsModulo(i, n);
  }

  /** `PerFrame<T>`: one handle per frame in flight. */
  type PerFrame = s: seq<Handle> | |s| == FRAMES_IN_FLIGHT witness [Handle(0), Handle(0), Handle(0)]

  class VulkanFrame {
    var frameIdx: nat
    const imgAvailableSem: PerFrame
    const renderFinishedSem: PerFrame
    const inFlightFences: PerFrame
    /** The same for every frame: `COLOR_ATTACHMENT_OUTPUT`. */
    const waitStages: nat := COLOR_ATTACHMENT_OUTPUT
    /** Buffer 0 of each slot's graphics command pool, the one `gfx_cmd_buffer` returns. */
    const gfxCmdBuffers: PerFrame

    ghost predicate Valid()
      reads this
    {
      frameIdx < FRAMES_IN_FLIGHT
    }

    /** `VK_PIPELINE_STAGE_COLOR_ATTACHMENT_OUTPUT_BIT`. */
    static const COLOR_ATTACHMENT_OUTPUT: nat := 0x400

    /** `VulkanFrame::new`: the per-frame objects as created, starting at slot 0. */
    constructor (imgAvailableSem: PerFrame, renderFinishedSem: PerFrame, inFlightFences: PerFrame, gfxCmdBuffers: PerFrame)
      ensures Valid() && frameIdx == 0
      ensures this.imgAvailableSem == imgAvailableSem && this.renderFinishedSem == renderFinishedSem
      ensures this.inFlightFences == inFlightFences && this.gfxCmdBuffers == gfxCmdBuffers
    {
      frameIdx := 0;
      this.imgAvailableSem := imgAvailableSem;
      this.renderFinishedSem := renderFinishedSem;
      this.inFlightFences := inFlightFences;
      this.gfxCmdBuffers := gfxCmdBuffers;
    }

    /** `begin_frame`: its body is empty (the recording it once started is commented out). */
    method BeginFrame()
      requires Valid()
      ensures Valid()
    {
    }

    /** `end_frame`: move to the next slot of the ring. */
    method EndFrame()
      requires Valid()
      modifies this`frameIdx
      ensures Valid()
      ensures frameIdx == NextFrameIdx(old(frameIdx))
    {
      frameIdx := (frameIdx + 1) % FRAMES_IN_FLIGHT;
    }

    /** `idx`: the current slot, always a valid index into every per-frame array. */
    function Idx(): (i: nat)
      requires Valid()
      reads this
      ensures i < FRAMES_IN_FLIGHT && i == frameIdx
    {
      frameIdx
    }

    /** `wait_stages`: the same stage mask for every slot. */
    function WaitStages(): (w: nat)
      reads this
      ensures w == COLOR_ATTACHMENT_OUTPUT
    {
      waitStages
    }

    function InFlightFence(): (h: Handle)
      requires Valid()
      reads this
      ensures h == inFlightFences[Idx()]
    {
      inFlightFences[frameIdx]
    }

    function ImgAvailableSem(): (h: Handle)
      requires Valid()
      reads this
      ensures h == imgAvailableSem[Idx()]
    {
      imgAvailableSem[frameIdx]
    }

    function ImgRenderFinishedSem(): (h: Handle)
      requires Valid()
      reads this
      ensures h == renderFinishedSem[Idx()]
    {
      renderFinishedSem[frameIdx]
    }

    function GfxCmdBuffer(): (h: Handle)
      requires Valid()
      reads this
      ensures h == gfxCmdBuffers[Idx()]
    {
      gfxCmdBuffers[frameIdx]
    }
  }
}
