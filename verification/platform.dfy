/**
 * What the two platform layers (the browser one and the GLFW one) share:
 * the application description `wgpu_desc_t` and the defaulting that
 * `wgpu_start` applies to it, the texture formats they pick, and the calls
 * they make into application and ImGui code, recorded as a trace.
 */
module Platform {
  import opened Common

  /**
   * wgpu_desc_t. The title and the three lifecycle callbacks matter only
   * through whether they are set.
   */
  datatype Desc = Desc(hasTitle: bool, resX: real, resY: real, sampleCount: U32, noDepthBuffer: bool,
                       hasInitCb: bool, hasFrameCb: bool, hasShutdownCb: bool)

  /** The assertions at the top of wgpu_start. */
  predicate StartAllowed(d: Desc)
  {
    d.hasTitle && d.resX > 0.0 && d.resY > 0.0 && d.hasInitCb && d.hasFrameCb && d.hasShutdownCb
  }

  /** `wgpu_def(sample_count, 1)`: a zero sample count becomes 1, any other is kept. */
  function Defaulted(d: Desc): (r: Desc)
    ensures r.sampleCount >= 1
    ensures d.sampleCount != 0 ==> r.sampleCount == d.sampleCount
    ensures r == d.(sampleCount := r.sampleCount)
  {
    d.(sampleCount := if d.sampleCount == 0 then 1 else d.sampleCount)
  }

  /** Defaulting twice changes nothing more. */
  lemma DefaultedIdempotent(d: Desc)
    ensures Defaulted(Defaulted(d)) == Defaulted(d)
  {
  }

  /** The clear colour wgpu_start stores: opaque black. */
  const CLEAR_COLOR: seq<real> := [0.0, 0.0, 0.0, 1.0]

  /** The WGPUTextureFormat values the layers name; any other format is `OtherFormat`. */
  datatype TextureFormat = Undefined | Depth32FloatStencil8 | RGBA8Unorm | OtherFormat(code: nat)

  /**
   * The depth-attachment format of a description: Depth32FloatStencil8,
   * or Undefined when depth is turned off (`wgpu_get_depth_format` of the
   * browser layer).
   */
  function DepthFormat(d: Desc): (r: TextureFormat)
    ensures r == Undefined <==> d.noDepthBuffer
    ensures r != Undefined ==> r == Depth32FloatStencil8
  {
    if d.noDepthBuffer then Undefined else Depth32FloatStencil8
  }

  /** Which input callbacks the application has registered. */
  datatype Callbacks = Callbacks(keyDown: bool, keyUp: bool, charInput: bool, mouseDown: bool, mouseUp: bool)

  /** A call from the platform layer into application or ImGui code. */
  datatype Call =
    | KeyDownCb(key: int) | KeyUpCb(key: int) | CharCb(c: int)
    | MouseDownCb(button: int) | MouseUpCb(button: int)
    | ImGuiKeyEvent(key: int, down: bool) | ImGuiCharEvent(c: int) | ImGuiMouseEvent(button: int, down: bool)
    | ImGuiSampleCount(count: int) | ImGuiInvalidate | ImGuiCreate | ImGuiShutdown
    | ToggleFullscreen
    | InitCb | FrameCb | ShutdownCb

  /** The frame callback never runs before the init callback has run. */
  ghost predicate InitBeforeFrames(calls: seq<Call>)
  {
    forall i :: 0 <= i < |calls| && calls[i] == FrameCb ==> InitCb in calls[..i]
  }

  /** Appending to a trace that already holds InitCb keeps the order, whatever is appended. */
  lemma InitBeforeFramesAppend(calls: seq<Call>, more: seq<Call>)
    requires InitBeforeFrames(calls)
    requires InitCb in calls || FrameCb !in more
    ensures InitBeforeFrames(calls + more)
  {
    forall i | 0 <= i < |calls + more| && (calls + more)[i] == FrameCb
      ensures InitCb in (calls + more)[..i]
    {
      if i < |calls| {
        assert (calls + more)[..i] == calls[..i];
      } else {
        assert (calls + more)[i] == more[i - |calls|];
        assert calls <= (calls + more)[..i];
        assert InitCb in calls;
      }
    }
  }
}
