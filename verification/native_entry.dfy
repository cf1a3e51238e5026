/**
 * The GLFW platform layer (`nano_native.h`): the routing of GLFW key and
 * mouse-button events to the application and to the nano ImGui backend, and
 * the `wgpu_state_t` lifecycle: start, the adapter and device callbacks, the
 * main loop, the configuration and release of the surface and its
 * attachments, and the view getters for the render pass.
 */
module NativeEntry {
  import opened Common
  import opened Platform
  import CimguiBackend

  // ---------------------------------------------------------------------
  // Input routing

  /** GLFW's action codes. */
  const GLFW_RELEASE: int := 0
  const GLFW_PRESS: int := 1
  const GLFW_REPEAT: int := 2

  /** The application half of both callbacks: a press goes to the down callback, a release to the up one, a repeat nowhere. */
  function AppCalls(hasDown: bool, hasUp: bool, down: Call, up: Call, action: int): (r: seq<Call>)
    ensures forall c :: c in r <==> (action == GLFW_PRESS && hasDown && c == down) || (action == GLFW_RELEASE && hasUp && c == up)
  {
    if action == GLFW_PRESS then (if hasDown then [down] else [])
    else if action == GLFW_RELEASE then (if hasUp then [up] else [])
    else []
  }

  /**
   * `glfw_key_callback` as written: ImGui is told the key is down only for
   * GLFW_PRESS, so each GLFW_REPEAT of a held key reaches it as a release.
   */
  function KeyCallbackAsWritten(cbs: Callbacks, imgui: bool, key: int, action: int): (r: seq<Call>)
    ensures forall k :: KeyDownCb(k) in r <==> action == GLFW_PRESS && cbs.keyDown && k == key
    ensures forall k :: KeyUpCb(k) in r <==> action == GLFW_RELEASE && cbs.keyUp && k == key
    ensures forall k, d :: ImGuiKeyEvent(k, d) in r <==> imgui && k == key && (d <==> action == GLFW_PRESS)
    ensures FrameCb !in r
  {
    AppCalls(cbs.keyDown, cbs.keyUp, KeyDownCb(key), KeyUpCb(key), action)
      + (if imgui then [ImGuiKeyEvent(key, action == GLFW_PRESS)] else [])
  }

  /** The key callback with a repeat forwarded as the key still held: only a release is a release. */
  function KeyCallback(cbs: Callbacks, imgui: bool, key: int, action: int): (r: seq<Call>)
    ensures forall k :: KeyDownCb(k) in r <==> action == GLFW_PRESS && cbs.keyDown && k == key
    ensures forall k :: KeyUpCb(k) in r <==> action == GLFW_RELEASE && cbs.keyUp && k == key
    ensures forall k, d :: ImGuiKeyEvent(k, d) in r <==> imgui && k == key && (d <==> action != GLFW_RELEASE)
    ensures FrameCb !in r
  {
    AppCalls(cbs.keyDown, cbs.keyUp, KeyDownCb(key), KeyUpCb(key), action)
      + (if imgui then [ImGuiKeyEvent(key, action != GLFW_RELEASE)] else [])
  }

  /**
   * The finding, followed into the backend's key filter: while a key is held,
   * the repeat as written makes the filter send ImGui a release and mark the
   * key up; as meant, the filter sees the key still down and at most repeats
   * the press, never releasing it. The filter is the one of the browser
   * backend (include/nano_cimgui.h): the native layer passes a window to
   * `nano_cimgui_init` as an eleventh argument (nano_native.h:436-438), so it
   * is built against a backend whose source is not part of this model, and
   * that backend is taken to filter keys the same way.
   */
  lemma {:induction false} RepeatReachesBackendAsRelease(cbs: Callbacks, key: int, held: CimguiBackend.KeySlot, now: real, rate: real)
    requires held.down
    ensures KeyCallbackAsWritten(cbs, true, key, GLFW_REPEAT) == [ImGuiKeyEvent(key, false)]
    ensures CimguiBackend.KeyStepEvent(held, false, now, rate) == Some(false)
    ensures !CimguiBackend.KeyStepSlot(held, false, now, rate).down
    ensures KeyCallback(cbs, true, key, GLFW_REPEAT) == [ImGuiKeyEvent(key, true)]
    ensures CimguiBackend.KeyStepEvent(held, true, now, rate) != Some(false)
    ensures CimguiBackend.KeyStepSlot(held, true, now, rate).down
  {
    assert AppCalls(cbs.keyDown, cbs.keyUp, KeyDownCb(key), KeyUpCb(key), GLFW_REPEAT) == [];
  }

  /** `glfw_mouse_button_callback`: the application sees presses and releases, ImGui the button with whether it is pressed. */
  function MouseButtonCallback(cbs: Callbacks, imgui: bool, button: int, action: int): (r: seq<Call>)
    ensures forall b :: MouseDownCb(b) in r <==> action == GLFW_PRESS && cbs.mouseDown && b == button
    ensures forall b :: MouseUpCb(b) in r <==> action == GLFW_RELEASE && cbs.mouseUp && b == button
    ensures forall b, d :: ImGuiMouseEvent(b, d) in r <==> imgui && b == button && (d <==> action == GLFW_PRESS)
    ensures FrameCb !in r
  {
    AppCalls(cbs.mouseDown, cbs.mouseUp, MouseDownCb(button), MouseUpCb(button), action)
      + (if imgui then [ImGuiMouseEvent(button, action == GLFW_PRESS)] else [])
  }

  // ---------------------------------------------------------------------
  // State

  /** The objects `wgpu_surface_configure` obtains once the surface texture is acquired. */
  datatype Created = Created(surfaceView: Handle, depthTex: Handle, depthView: Handle, msaaTex: Handle, msaaView: Handle)

  /** The handles `wgpu_surface_discard` releases, in its order, skipping the absent ones. */
  function DiscardReleased(msaaView: Handle, msaaTex: Handle, depthView: Handle, depthTex: Handle,
                           surfaceTexture: Handle, surfaceView: Handle): (r: seq<Handle>)
    ensures forall h :: h in r <==> h != Null && (h == msaaView || h == msaaTex || h == depthView || h == depthTex
                                                  || h == surfaceTexture || h == surfaceView)
  {
    Release(Release(Release(Release(Release(Release([], msaaView), msaaTex), depthView), depthTex), surfaceTexture), surfaceView)
  }

  /** The frame callback `n` times over. */
  function Frames(n: nat): (r: seq<Call>)
    ensures |r| == n && forall i :: 0 <= i < n ==> r[i] == FrameCb
  {
    if n == 0 then [] else Frames(n - 1) + [FrameCb]
  }

  /** What a view getter produces: a view, or the failure of its assert. */
  datatype ViewResult = View(h: Handle) | AssertionFailure

  /** `wgpu_state_t` of the GLFW layer. */
  class NativeState {
    var desc: Desc
    var window: Handle
    var width: real
    var height: real
    var clearColor: seq<real>
    var instance: Handle
    var adapter: Handle
    var device: Handle
    var surface: Handle
    /** `surface_texture.texture`: the texture acquired from the surface. */
    var surfaceTexture: Handle
    var surfaceView: Handle
    var renderFormat: TextureFormat
    var depthStencilTex: Handle
    var depthStencilView: Handle
    var msaaTex: Handle
    var msaaView: Handle
    var callbacks: Callbacks
    var setupDone: bool
    var setupFailed: bool
    /** The file-level `last_time` of `wgpu_frametime`. */
    var lastTime: real
    /** The calls made into application and ImGui code, oldest first. */
    var calls: seq<Call>
    /** Whether the layer is built with the nano ImGui backend (`NANO_CIMGUI`). */
    const imgui: bool
    /**
     * Whether `imgui_data` holds the backend data: `nano_cimgui_init`
     * returned it. Until then, and for good after that call fails, the
     * backend functions the surface code calls read through NULL.
     */
    var imguiUp: bool

    ghost predicate Valid()
      reads this
    {
      && desc.sampleCount >= 1
      && InitBeforeFrames(calls)
      && (setupDone ==> InitCb in calls)
    }

    /** No depth or MSAA attachment is held: what `wgpu_surface_configure` asserts on entry. */
    predicate NoAttachments()
      reads this
    {
      depthStencilTex == Null && depthStencilView == Null && msaaTex == Null && msaaView == Null
    }

    /** The surface view exists, the depth attachment exists unless turned off, the MSAA one exactly when multisampling. */
    predicate Attached()
      reads this
    {
      && surfaceView != Null
      && (if desc.noDepthBuffer then depthStencilTex == Null && depthStencilView == Null
          else depthStencilTex != Null && depthStencilView != Null)
      && (if desc.sampleCount > 1 then msaaTex != Null && msaaView != Null
          else msaaTex == Null && msaaView == Null)
    }

    /** The other asserts of `wgpu_surface_configure`. */
    predicate CanConfigure()
      reads this
    {
      adapter != Null && device != Null && surface != Null && renderFormat != Undefined
    }

    /**
     * The asserts after each creation of `wgpu_surface_configure` that runs
     * once the surface texture is acquired: the surface view, the depth
     * objects unless depth is turned off, and the MSAA objects when
     * multisampling all came back.
     */
    predicate CreationsSucceed(c: Created)
      reads this
    {
      && c.surfaceView != Null
      && (!desc.noDepthBuffer ==> c.depthTex != Null && c.depthView != Null)
      && (desc.sampleCount > 1 ==> c.msaaTex != Null && c.msaaView != Null)
    }

    /** The surface texture, its view and the attachment handles held. */
    function Held(): (r: seq<Handle>)
      reads this
      ensures |r| == 6
    {
      [surfaceTexture, surfaceView, depthStencilTex, depthStencilView, msaaTex, msaaView]
    }

    /**
     * `wgpu_start`: the description is copied with the sample count
     * defaulted, the size is the requested resolution and the clear colour
     * is opaque black.
     */
    constructor Start(d: Desc, cbs: Callbacks, imgui: bool)
      requires StartAllowed(d)
      ensures Valid() && NoAttachments()
      ensures desc == Defaulted(d) && width == d.resX && height == d.resY && clearColor == CLEAR_COLOR
      ensures window == Null && instance == Null && adapter == Null && device == Null && surface == Null
      ensures surfaceTexture == Null && surfaceView == Null && renderFormat == Undefined
      ensures callbacks == cbs && this.imgui == imgui
      ensures !setupDone && !setupFailed && lastTime == 0.0 && calls == [] && !imguiUp
    {
      desc := Defaulted(d);
      width := d.resX;
      height := d.resY;
      clearColor := CLEAR_COLOR;
      window, instance, adapter, device, surface := Null, Null, Null, Null, Null;
      surfaceTexture, surfaceView := Null, Null;
      renderFormat := Undefined;
      depthStencilTex, depthStencilView, msaaTex, msaaView := Null, Null, Null, Null;
      callbacks := cbs;
      setupDone, setupFailed := false, false;
      lastTime := 0.0;
      calls := [];
      this.imgui := imgui;
      imguiUp := false;
    }

    /**
     * The opening of `wgpu_platform_start`: when GLFW fails to initialise or
     * no window comes back, it returns at once; otherwise it creates the
     * instance and the window's surface and goes on to ask for an adapter.
     * `aborted` tells that the assert on the instance or on the surface
     * failed, which ends the program.
     */
    method OpenWindow(glfwOk: bool, window: Handle, instance: Handle, surface: Handle) returns (proceeds: bool, aborted: bool)
      modifies this`window, this`instance, this`surface
      ensures aborted <==> glfwOk && window != Null && (instance == Null || surface == Null)
      ensures proceeds <==> glfwOk && window != Null && !aborted
      ensures glfwOk ==> this.window == window
      ensures !glfwOk ==> this.window == old(this.window)
      ensures proceeds ==> this.instance == instance && this.surface == surface
      ensures !glfwOk || window == Null ==> this.instance == old(this.instance) && this.surface == old(this.surface)
    {
      if !glfwOk {
        return false, false;
      }
      this.window := window;
      if window == Null {
        return false, false;
      }
      this.instance := instance;
      if instance == Null {
        return false, true;
      }
      this.surface := surface;
      if surface == Null {
        return false, true;
      }
      return true, false;
    }

    /** `request_adapter_cb`: as in the browser layer, a failure is recorded and the adapter is still asked for a device. */
    method RequestAdapterCb(success: bool, adapter: Handle) returns (requestsDevice: bool)
      modifies this`setupFailed, this`adapter
      ensures setupFailed == (old(setupFailed) || !success)
      ensures this.adapter == adapter
      ensures requestsDevice
    {
      if !success {
        setupFailed := true;
      }
      this.adapter := adapter;
      requestsDevice := true;
    }

    /**
     * `request_device_cb`: on failure the setup is marked failed; otherwise
     * the render format is RGBA8Unorm, the surface is configured, the nano
     * ImGui backend is set up when built in, and only when that succeeds
     * does the init callback run and the setup count as done. `aborted`
     * tells that an assert of `wgpu_surface_configure` failed, which ends
     * the program.
     */
    method RequestDeviceCb(success: bool, device: Handle, texture: Handle, textureOk: bool, c: Created, imguiOk: bool)
      returns (aborted: bool)
      requires Valid()
      modifies this`setupFailed, this`setupDone, this`device, this`renderFormat, this`calls, this`imguiUp
      modifies this`surfaceTexture, this`surfaceView, this`depthStencilTex, this`depthStencilView, this`msaaTex, this`msaaView
      ensures Valid()
      ensures !success || aborted ==> imguiUp == old(imguiUp)
      ensures success && !aborted ==> imguiUp == (imgui && imguiOk)
      ensures !success ==> !aborted && setupFailed && this.device == old(this.device) && setupDone == old(setupDone) && calls == old(calls)
      ensures !success ==> renderFormat == old(renderFormat) && Held() == old(Held())
      ensures success ==> this.device == device && renderFormat == RGBA8Unorm
      ensures success ==> (aborted <==> !(adapter != Null && device != Null && surface != Null && old(NoAttachments())) ||
                                        (textureOk && !CreationsSucceed(c)))
      ensures aborted ==> setupDone == old(setupDone) && calls == old(calls)
      ensures success && !aborted ==> surfaceTexture == texture
      ensures success && !aborted && textureOk ==> Attached() && surfaceView == c.surfaceView
      ensures success && !aborted && !textureOk ==> surfaceView == old(surfaceView) && NoAttachments()
      ensures success && !aborted && imgui && !imguiOk ==> setupFailed && setupDone == old(setupDone) && calls == old(calls)
      ensures success && !aborted && (!imgui || imguiOk) ==>
                setupDone && setupFailed == old(setupFailed) && calls == old(calls) + [InitCb]
    {
      if !success {
        setupFailed := true;
        return false;
      }
      this.device := device;
      renderFormat := RGBA8Unorm;
      aborted := Configure(texture, textureOk, c);
      if aborted {
        return;
      }
      InitAfterImGui(imguiOk);
    }

    /**
     * The end of the device callback: `imgui_data` takes what
     * `nano_cimgui_init` returned; when the ImGui backend came up (or is not
     * built in), the init callback runs and setup is done.
     */
    method InitAfterImGui(imguiOk: bool)
      requires Valid()
      modifies this`setupFailed, this`setupDone, this`calls, this`imguiUp
      ensures Valid()
      ensures imguiUp == (imgui && imguiOk)
      ensures imgui && !imguiOk ==> setupFailed && setupDone == old(setupDone) && calls == old(calls)
      ensures !imgui || imguiOk ==> setupDone && setupFailed == old(setupFailed) && calls == old(calls) + [InitCb]
    {
      imguiUp := imgui && imguiOk;
      if imgui && !imguiOk {
        setupFailed := true;
        return;
      }
      InitBeforeFramesAppend(calls, [InitCb]);
      calls := calls + [InitCb];
      setupDone := true;
    }

    /**
     * The main loop of `wgpu_platform_start`, run for `n` iterations: each
     * runs the frame callback once the setup is done. A failed setup does
     * not stop it.
     */
    method MainLoop(n: nat)
      requires Valid()
      modifies this`calls
      ensures Valid()
      ensures calls == old(calls) + (if setupDone then Frames(n) else [])
    {
      var i := 0;
      while i < n
        invariant 0 <= i <= n
        invariant Valid()
        invariant calls == old(calls) + (if setupDone then Frames(i) else [])
      {
        if setupDone {
          InitBeforeFramesAppend(calls, [FrameCb]);
          calls := calls + [FrameCb];
        }
        i := i + 1;
      }
    }

    /**
     * `wgpu_frametime`: the time since the previous call. The clock is read
     * twice on the first call (while no time is stored), `first` then
     * standing in for the stored time, and once afterwards; `now` is the
     * reading every call takes and stores.
     */
    method Frametime(first: real, now: real) returns (dt: real)
      modifies this`lastTime
      ensures lastTime == now
      ensures old(lastTime) != 0.0 ==> dt == now - old(lastTime)
      ensures old(lastTime) == 0.0 ==> dt == now - first
    {
      var last := if lastTime == 0.0 then first else lastTime;
      dt := now - last;
      lastTime := now;
    }

    /**
     * `wgpu_surface_configure`: the surface texture is acquired; when that
     * fails the function returns with nothing else created; otherwise the
     * surface view, the depth texture and view unless depth is turned off,
     * and the MSAA texture and view when the sample count is above 1.
     * `aborted` tells that one of its asserts failed: an object it needs is
     * missing, an attachment is still held, or a creation returned NULL.
     */
    method Configure(texture: Handle, textureOk: bool, c: Created) returns (aborted: bool)
      modifies this`surfaceTexture, this`surfaceView, this`depthStencilTex, this`depthStencilView, this`msaaTex, this`msaaView
      ensures aborted <==> !(CanConfigure() && old(NoAttachments())) || (textureOk && !CreationsSucceed(c))
      ensures !aborted ==> surfaceTexture == texture
      ensures !aborted && !textureOk ==> surfaceView == old(surfaceView) && NoAttachments()
      ensures !aborted && textureOk ==> Attached() && surfaceView == c.surfaceView
      ensures !aborted && textureOk && !desc.noDepthBuffer ==> depthStencilTex == c.depthTex && depthStencilView == c.depthView
      ensures !aborted && textureOk && desc.sampleCount > 1 ==> msaaTex == c.msaaTex && msaaView == c.msaaView
    {
      if !(CanConfigure() && NoAttachments()) {
        return true;
      }
      surfaceTexture := texture;
      if !textureOk {
        return false;
      }
      surfaceView := c.surfaceView;
      if surfaceView == Null {
        return true;
      }
      if !desc.noDepthBuffer {
        depthStencilTex := c.depthTex;
        if depthStencilTex == Null {
          return true;
        }
        depthStencilView := c.depthView;
        if depthStencilView == Null {
          return true;
        }
      }
      if desc.sampleCount > 1 {
        msaaTex := c.msaaTex;
        if msaaTex == Null {
          return true;
        }
        msaaView := c.msaaView;
        if msaaView == Null {
          return true;
        }
      }
      return false;
    }

    /**
     * `wgpu_surface_discard`: the ImGui device objects are invalidated when
     * built in; then every attachment that exists is released, MSAA view and
     * texture first, then depth view and texture, then the surface texture
     * and its view. `aborted` tells that the backend is built in but not up:
     * the invalidation then reads the backend data through NULL, and the
     * program ends before anything is released.
     */
    method Discard() returns (released: seq<Handle>, aborted: bool)
      requires Valid()
      modifies this`calls
      modifies this`surfaceTexture, this`surfaceView, this`depthStencilTex, this`depthStencilView, this`msaaTex, this`msaaView
      ensures Valid()
      ensures aborted <==> imgui && !imguiUp
      ensures aborted ==> calls == old(calls) && released == [] && Held() == old(Held())
      ensures !aborted ==> NoAttachments() && surfaceTexture == Null && surfaceView == Null
      ensures !aborted ==> calls == old(calls) + (if imgui then [ImGuiInvalidate] else [])
      ensures !aborted ==> released == DiscardReleased(old(msaaView), old(msaaTex), old(depthStencilView),
                                                       old(depthStencilTex), old(surfaceTexture), old(surfaceView))
    {
      if imgui && !imguiUp {
        return [], true;
      }
      aborted := false;
      if imgui {
        InitBeforeFramesAppend(calls, [ImGuiInvalidate]);
        calls := calls + [ImGuiInvalidate];
      }
      released := ReleaseAttachments();
    }

    method ReleaseAttachments() returns (released: seq<Handle>)
      modifies this`surfaceTexture, this`surfaceView, this`depthStencilTex, this`depthStencilView, this`msaaTex, this`msaaView
      ensures NoAttachments() && surfaceTexture == Null && surfaceView == Null
      ensures released == DiscardReleased(old(msaaView), old(msaaTex), old(depthStencilView), old(depthStencilTex),
                                          old(surfaceTexture), old(surfaceView))
    {
      released := Release([], msaaView);
      msaaView := Null;
      released := Release(released, msaaTex);
      msaaTex := Null;
      released := Release(released, depthStencilView);
      depthStencilView := Null;
      released := Release(released, depthStencilTex);
      depthStencilTex := Null;
      released := Release(released, surfaceTexture);
      surfaceTexture := Null;
      released := Release(released, surfaceView);
      surfaceView := Null;
    }

    /**
     * `wgpu_surface_reinit`: ImGui takes the sample count when built in, then
     * discard and configure afresh. `aborted` when the backend is built in
     * but not up (the sample count is written through a NULL `imgui_data`,
     * before anything else happens) or an assert of
     * `wgpu_surface_configure` fails.
     */
    method Reinit(texture: Handle, textureOk: bool, c: Created) returns (released: seq<Handle>, aborted: bool)
      requires Valid()
      modifies this`calls
      modifies this`surfaceTexture, this`surfaceView, this`depthStencilTex, this`depthStencilView, this`msaaTex, this`msaaView
      ensures Valid()
      ensures aborted <==> (imgui && !imguiUp) || !CanConfigure() || (textureOk && !CreationsSucceed(c))
      ensures imgui && !imguiUp ==> calls == old(calls) && released == [] && Held() == old(Held())
      ensures !aborted ==> surfaceTexture == texture
      ensures !aborted && textureOk ==> Attached() && surfaceView == c.surfaceView
      ensures !aborted && !textureOk ==> surfaceView == Null && NoAttachments()
      ensures !(imgui && !imguiUp) ==>
                calls == old(calls) + (if imgui then [ImGuiSampleCount(desc.sampleCount), ImGuiInvalidate] else [])
      ensures !(imgui && !imguiUp) ==>
                released == DiscardReleased(old(msaaView), old(msaaTex), old(depthStencilView), old(depthStencilTex),
                                            old(surfaceTexture), old(surfaceView))
    {
      if imgui && !imguiUp {
        return [], true;
      }
      if imgui {
        InitBeforeFramesAppend(calls, [ImGuiSampleCount(desc.sampleCount)]);
        calls := calls + [ImGuiSampleCount(desc.sampleCount)];
      }
      released, aborted := Discard();
      aborted := Configure(texture, textureOk, c);
    }

    /**
     * `glfw_framebuffer_size_callback`: the new framebuffer size is stored,
     * then the surface is rebuilt; `aborted` when the rebuild ends the
     * program (see Reinit), as it does for a resize before the adapter and
     * device have arrived.
     */
    method FramebufferSize(w: int, h: int, texture: Handle, textureOk: bool, c: Created)
      returns (released: seq<Handle>, aborted: bool)
      requires Valid()
      modifies this`width, this`height, this`calls
      modifies this`surfaceTexture, this`surfaceView, this`depthStencilTex, this`depthStencilView, this`msaaTex, this`msaaView
      ensures width == w as real && height == h as real
      ensures Valid()
      ensures aborted <==> (imgui && !imguiUp) || !CanConfigure() || (textureOk && !CreationsSucceed(c))
      ensures device == Null ==> aborted
      ensures imgui && !imguiUp ==> calls == old(calls) && released == [] && Held() == old(Held())
      ensures !aborted ==> surfaceTexture == texture
      ensures !aborted && textureOk ==> Attached() && surfaceView == c.surfaceView
      ensures !aborted && !textureOk ==> surfaceView == Null && NoAttachments()
      ensures !(imgui && !imguiUp) ==>
                calls == old(calls) + (if imgui then [ImGuiSampleCount(desc.sampleCount), ImGuiInvalidate] else [])
      ensures !(imgui && !imguiUp) ==>
                released == DiscardReleased(old(msaaView), old(msaaTex), old(depthStencilView), old(depthStencilTex),
                                            old(surfaceTexture), old(surfaceView))
    {
      width := w as real;
      height := h as real;
      released, aborted := Reinit(texture, textureOk, c);
    }

    /**
     * `wgpu_stop`: the shutdown callback runs, the surface is discarded, the
     * device, the adapter and the instance are released, and the nano ImGui
     * backend is shut down when built in. `aborted` tells that the backend
     * is built in but not up: the discard then reads its data through NULL
     * right after the shutdown callback, and the program ends there.
     */
    method Stop() returns (released: seq<Handle>, aborted: bool)
      requires Valid()
      modifies this`calls, this`device, this`adapter, this`instance
      modifies this`surfaceTexture, this`surfaceView, this`depthStencilTex, this`depthStencilView, this`msaaTex, this`msaaView
      ensures Valid()
      ensures aborted <==> imgui && !imguiUp
      ensures aborted ==> calls == old(calls) + [ShutdownCb] && released == [] && Held() == old(Held())
      ensures aborted ==> device == old(device) && adapter == old(adapter) && instance == old(instance)
      ensures !aborted ==> NoAttachments() && surfaceTexture == Null && surfaceView == Null
      ensures !aborted ==> device == Null && adapter == Null && instance == Null
      ensures !aborted ==> calls == old(calls) + [ShutdownCb] + (if imgui then [ImGuiInvalidate, ImGuiShutdown] else [])
      ensures !aborted ==>
                released == Release(Release(Release(
                  DiscardReleased(old(msaaView), old(msaaTex), old(depthStencilView), old(depthStencilTex),
                                  old(surfaceTexture), old(surfaceView)),
                  old(device)), old(adapter)), old(instance))
    {
      InitBeforeFramesAppend(calls, [ShutdownCb]);
      calls := calls + [ShutdownCb];
      released, aborted := Discard();
      if aborted {
        return;
      }
      ghost var discarded := calls;
      released := ReleaseDevice(released);
      assert calls == discarded + (if imgui then [ImGuiShutdown] else []);
    }

    /** The end of `wgpu_stop` after the discard: device, adapter and instance released, then the backend shut down. */
    method ReleaseDevice(before: seq<Handle>) returns (released: seq<Handle>)
      requires Valid()
      modifies this`calls, this`device, this`adapter, this`instance
      ensures Valid()
      ensures device == Null && adapter == Null && instance == Null
      ensures calls == old(calls) + (if imgui then [ImGuiShutdown] else [])
      ensures released == Release(Release(Release(before, old(device)), old(adapter)), old(instance))
    {
      released := Release(before, device);
      device := Null;
      released := Release(released, adapter);
      adapter := Null;
      released := Release(released, instance);
      instance := Null;
      if imgui {
        InitBeforeFramesAppend(calls, [ImGuiShutdown]);
        calls := calls + [ImGuiShutdown];
      }
    }

    // -------------------------------------------------------------------
    // Views for the render pass

    /** `wgpu_get_render_view`: the MSAA view when multisampling, otherwise the surface view; each branch asserts its view exists. */
    function RenderView(): (r: ViewResult)
      reads this
      ensures r != AssertionFailure ==> r.h != Null
      ensures desc.sampleCount > 1 && r != AssertionFailure ==> r == View(msaaView)
      ensures desc.sampleCount <= 1 && r != AssertionFailure ==> r == View(surfaceView)
      ensures Attached() ==> r != AssertionFailure
    {
      if desc.sampleCount > 1 then (if msaaView != Null then View(msaaView) else AssertionFailure)
      else if surfaceView != Null then View(surfaceView)
      else AssertionFailure
    }

    /**
     * `wgpu_get_resolve_view` as written: when multisampling it returns the
     * render view, the MSAA view itself, so the pass would resolve the
     * multisampled texture into itself.
     */
    function ResolveViewAsWritten(): (r: ViewResult)
      reads this
      ensures desc.sampleCount > 1 ==> r == RenderView()
      ensures desc.sampleCount <= 1 ==> r == View(Null)
    {
      if desc.sampleCount > 1 then RenderView() else View(Null)
    }

    /** The resolve view meant: the single-sampled surface view when multisampling, none otherwise. */
    function ResolveView(): (r: ViewResult)
      reads this
      ensures desc.sampleCount > 1 ==> r == (if surfaceView != Null then View(surfaceView) else AssertionFailure)
      ensures desc.sampleCount <= 1 ==> r == View(Null)
    {
      if desc.sampleCount <= 1 then View(Null)
      else if surfaceView != Null then View(surfaceView)
      else AssertionFailure
    }

    /** `wgpu_get_depth_format` as written: Depth32FloatStencil8 even when depth is turned off. */
    function DepthFormatAsWritten(): (r: TextureFormat)
      ensures r == Depth32FloatStencil8
    {
      Depth32FloatStencil8
    }

    /**
     * With the attachments in place and multisampling on, the resolve view as
     * written is the multisampled render view itself, while the one meant is
     * the surface view, a different object. Without a depth buffer the depth
     * format as written still names one; the one meant names a depth format
     * exactly when a depth view exists.
     */
    lemma ViewsWithAttachments()
      requires Attached() && msaaView != surfaceView
      ensures desc.sampleCount > 1 ==> ResolveViewAsWritten() == RenderView() == View(msaaView)
      ensures desc.sampleCount > 1 ==> ResolveView() == View(surfaceView) && ResolveView() != RenderView()
      ensures desc.noDepthBuffer ==> DepthFormatAsWritten() != Undefined && depthStencilView == Null
      ensures DepthFormat(desc) != Undefined <==> depthStencilView != Null
    {
    }
  }
}
