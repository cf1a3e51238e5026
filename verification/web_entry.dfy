/**
 * The browser platform layer (`wgpu_entry.h`): the `KeyboardEvent.code`
 * table and its lookup, the routing of keyboard and mouse events to the
 * application and to ImGui, and the `wgpu_state_t` lifecycle: start, the
 * asynchronous adapter and device callbacks, the frame gate, and the
 * creation and release of the swapchain and its attachments.
 */
module WebEntry {
  import opened Common
  import opened Platform

  // ---------------------------------------------------------------------
  // Key codes and the key table

  /** The `wgpu_keycode_t` values the table uses. Digits and letters are consecutive in the enum. */
  const KEY_INVALID: nat := 0
  const KEY_SPACE: nat := 1
  const KEY_0: nat := 7
  const KEY_A: nat := 19
  const KEY_ESCAPE: nat := 51
  const KEY_ENTER: nat := 52
  const KEY_TAB: nat := 53
  const KEY_BACKSPACE: nat := 54
  const KEY_DELETE: nat := 56
  const KEY_RIGHT: nat := 57
  const KEY_LEFT: nat := 58
  const KEY_DOWN: nat := 59
  const KEY_UP: nat := 60
  const KEY_HOME: nat := 63
  const KEY_END: nat := 64

  /** A key code other than `WGPU_KEY_INVALID`. */
  type KeyCode = k: nat | k > 0 witness 1

  /** A row of `emsc_keymap`. */
  datatype KeymapEntry = KeymapEntry(str: string, code: KeyCode)

  /** Rows 1 to 12 of `emsc_keymap`: editing and navigation keys. */
  const EDITING_ROWS: seq<KeymapEntry> := [
    KeymapEntry("Backspace", KEY_BACKSPACE), KeymapEntry("Tab", KEY_TAB), KeymapEntry("Enter", KEY_ENTER),
    KeymapEntry("Escape", KEY_ESCAPE), KeymapEntry("Space", KEY_SPACE), KeymapEntry("End", KEY_END),
    KeymapEntry("Home", KEY_HOME), KeymapEntry("ArrowLeft", KEY_LEFT), KeymapEntry("ArrowUp", KEY_UP),
    KeymapEntry("ArrowRight", KEY_RIGHT), KeymapEntry("ArrowDown", KEY_DOWN), KeymapEntry("Delete", KEY_DELETE)]

  /** Rows 13 to 22: the digits. */
  const DIGIT_ROWS: seq<KeymapEntry> := [
    KeymapEntry("Digit0", KEY_0), KeymapEntry("Digit1", KEY_0 + 1), KeymapEntry("Digit2", KEY_0 + 2),
    KeymapEntry("Digit3", KEY_0 + 3), KeymapEntry("Digit4", KEY_0 + 4), KeymapEntry("Digit5", KEY_0 + 5),
    KeymapEntry("Digit6", KEY_0 + 6), KeymapEntry("Digit7", KEY_0 + 7), KeymapEntry("Digit8", KEY_0 + 8),
    KeymapEntry("Digit9", KEY_0 + 9)]

  /** Rows 23 to 48: the letters. */
  const LETTER_ROWS: seq<KeymapEntry> := [
    KeymapEntry("KeyA", KEY_A), KeymapEntry("KeyB", KEY_A + 1), KeymapEntry("KeyC", KEY_A + 2), KeymapEntry("KeyD", KEY_A + 3),
    KeymapEntry("KeyE", KEY_A + 4), KeymapEntry("KeyF", KEY_A + 5), KeymapEntry("KeyG", KEY_A + 6), KeymapEntry("KeyH", KEY_A + 7),
    KeymapEntry("KeyI", KEY_A + 8), KeymapEntry("KeyJ", KEY_A + 9), KeymapEntry("KeyK", KEY_A + 10), KeymapEntry("KeyL", KEY_A + 11),
    KeymapEntry("KeyM", KEY_A + 12), KeymapEntry("KeyN", KEY_A + 13), KeymapEntry("KeyO", KEY_A + 14), KeymapEntry("KeyP", KEY_A + 15),
    KeymapEntry("KeyQ", KEY_A + 16), KeymapEntry("KeyR", KEY_A + 17), KeymapEntry("KeyS", KEY_A + 18), KeymapEntry("KeyT", KEY_A + 19),
    KeymapEntry("KeyU", KEY_A + 20), KeymapEntry("KeyV", KEY_A + 21), KeymapEntry("KeyW", KEY_A + 22), KeymapEntry("KeyX", KEY_A + 23),
    KeymapEntry("KeyY", KEY_A + 24), KeymapEntry("KeyZ", KEY_A + 25)]

  /**
   * The rows of `emsc_keymap` in table order. The C table ends with a row
   * whose string is null; here the end of the sequence plays that part.
   */
  const KEYMAP: seq<KeymapEntry> := EDITING_ROWS + DIGIT_ROWS + LETTER_ROWS

  /** The code of the first row whose string is `s`, or `WGPU_KEY_INVALID` when no row has it. */
  function Lookup(table: seq<KeymapEntry>, s: string): nat
  {
    if |table| == 0 then KEY_INVALID
    else if table[0].str == s then table[0].code
    else Lookup(table[1..], s)
  }

  /** A string is recognised exactly when some row holds it, and then it gets the code of the first such row. */
  lemma {:induction false} LookupFindsFirst(table: seq<KeymapEntry>, s: string)
    ensures Lookup(table, s) != KEY_INVALID <==> exists i :: 0 <= i < |table| && table[i].str == s
    ensures forall i :: 0 <= i < |table| && table[i].str == s && (forall j :: 0 <= j < i ==> table[j].str != s)
                        ==> Lookup(table, s) == table[i].code
  {
    if |table| > 0 && table[0].str != s {
      var rest := table[1..];
      LookupFindsFirst(rest, s);
      forall i | 0 <= i < |table| && table[i].str == s
        ensures i > 0 && rest[i - 1].str == s
      {
      }
      if Lookup(table, s) != KEY_INVALID {
        var i :| 0 <= i < |rest| && rest[i].str == s;
        assert table[i + 1].str == s;
      }
      forall i | 0 <= i < |table| && table[i].str == s && (forall j :: 0 <= j < i ==> table[j].str != s)
        ensures Lookup(table, s) == table[i].code
      {
        assert rest[i - 1] == table[i];
        forall j | 0 <= j < i - 1 ensures rest[j].str != s {
          assert rest[j] == table[j + 1];
        }
      }
    }
  }

  /** `emsc_translate_key`: the scan runs up to the end row. */
  method TranslateKey(s: string) returns (code: nat)
    ensures code == Lookup(KEYMAP, s)
  {
    var i := 0;
    while i < |KEYMAP|
      invariant 0 <= i <= |KEYMAP|
      invariant Lookup(KEYMAP[i..], s) == Lookup(KEYMAP, s)
      decreases |KEYMAP| - i
    {
      assert KEYMAP[i..][0] == KEYMAP[i] && KEYMAP[i..][1..] == KEYMAP[i + 1..];
      if KEYMAP[i].str == s {
        return KEYMAP[i].code;
      }
      i := i + 1;
    }
    code := KEY_INVALID;
  }

  // ---------------------------------------------------------------------
  // Input routing

  /** The fields of `EmscriptenKeyboardEvent` the handlers read. */
  datatype KeyboardEvent = KeyboardEvent(code: string, key: string, ctrl: bool, alt: bool, meta: bool)

  /** The calls a handler makes, in order, and the `EM_BOOL` it returns (true: the browser's default is suppressed). */
  datatype Outcome = Outcome(calls: seq<Call>, consumed: bool)

  /** A C string read at `i`: past the end it reads the terminator. */
  function CharAt(s: string, i: nat): char
  {
    if i < |s| then s[i] else '\0'
  }

  /** The key-down handler goes past the F11 check and the browser-shortcut check. */
  predicate Routed(ev: KeyboardEvent)
  {
    ev.code != "F11" && !(ev.ctrl || ev.alt || ev.meta)
  }

  /** `ev->key` is one printable ASCII character. */
  predicate Printable(key: string)
  {
    CharAt(key, 1) == '\0' && 32 <= CharAt(key, 0) as int <= 126
  }

  /** The key calls for a recognised key: the application callback if set, then ImGui if enabled. */
  function KeyCalls(appCb: Option<Call>, imgui: bool, k: nat, down: bool): (r: seq<Call>)
    ensures forall c :: c in r <==> k != KEY_INVALID && ((appCb.Some? && c == appCb.value) || (imgui && c == ImGuiKeyEvent(k, down)))
  {
    if k == KEY_INVALID then []
    else (if appCb.Some? then [appCb.value] else []) + (if imgui then [ImGuiKeyEvent(k, down)] else [])
  }

  /** The character calls for a single printable character: the application callback if set, then ImGui if enabled. */
  function CharCalls(cbs: Callbacks, imgui: bool, key: string): (r: seq<Call>)
    ensures forall c :: c in r <==> Printable(key) && ((cbs.charInput && c == CharCb(key[0] as int)) || (imgui && c == ImGuiCharEvent(key[0] as int)))
  {
    if Printable(key) then
      var c := CharAt(key, 0) as int;
      (if cbs.charInput then [CharCb(c)] else []) + (if imgui then [ImGuiCharEvent(c)] else [])
    else []
  }

  /**
   * `emsc_keydown_cb`: F11 toggles fullscreen and nothing else; a key with
   * Ctrl, Alt or Meta is left to the browser; otherwise a recognised key
   * goes to the key-down callback and to ImGui as a press, and a single
   * printable character goes to the character callback and to ImGui.
   */
  function KeyDown(cbs: Callbacks, imgui: bool, ev: KeyboardEvent, fullscreenOk: bool): (r: Outcome)
    ensures ev.code == "F11" ==> r == Outcome([ToggleFullscreen], fullscreenOk)
    ensures ev.code != "F11" ==> (r.consumed <==> !(ev.ctrl || ev.alt || ev.meta))
    ensures forall k :: KeyUpCb(k) !in r.calls
    ensures FrameCb !in r.calls
  {
    if ev.code == "F11" then Outcome([ToggleFullscreen], fullscreenOk)
    else if ev.ctrl || ev.alt || ev.meta then Outcome([], false)
    else
      var k := Lookup(KEYMAP, ev.code);
      Outcome(KeyCalls(if cbs.keyDown then Some(KeyDownCb(k)) else None, imgui, k, true) + CharCalls(cbs, imgui, ev.key), true)
  }

  /** A key-down event reaches the key callbacks exactly when it is routed and its code is in the table, and always as a press. */
  lemma KeyDownForwardsKey(cbs: Callbacks, imgui: bool, ev: KeyboardEvent, fullscreenOk: bool)
    ensures var r := KeyDown(cbs, imgui, ev, fullscreenOk);
            forall k :: KeyDownCb(k) in r.calls <==> Routed(ev) && cbs.keyDown && k == Lookup(KEYMAP, ev.code) && k != KEY_INVALID
    ensures var r := KeyDown(cbs, imgui, ev, fullscreenOk);
            forall k, d :: ImGuiKeyEvent(k, d) in r.calls <==> Routed(ev) && imgui && d && k == Lookup(KEYMAP, ev.code) && k != KEY_INVALID
  {
  }

  /** A key-down event reaches the character callbacks exactly when it is routed and its key is one printable character. */
  lemma KeyDownForwardsChar(cbs: Callbacks, imgui: bool, ev: KeyboardEvent, fullscreenOk: bool)
    ensures var r := KeyDown(cbs, imgui, ev, fullscreenOk);
            forall c :: CharCb(c) in r.calls <==> Routed(ev) && cbs.charInput && Printable(ev.key) && c == ev.key[0] as int
    ensures var r := KeyDown(cbs, imgui, ev, fullscreenOk);
            forall c :: ImGuiCharEvent(c) in r.calls <==> Routed(ev) && imgui && Printable(ev.key) && c == ev.key[0] as int
  {
  }

  /**
   * `emsc_keyup_cb` as written: a recognised key is reported to the
   * application through the key-DOWN callback, so the key-up callback is
   * never called and every release reaches the application as a second press.
   */
  function KeyUpAsWritten(cbs: Callbacks, imgui: bool, code: string): (r: Outcome)
    ensures r.consumed
    ensures forall k :: KeyUpCb(k) !in r.calls
    ensures forall k :: KeyDownCb(k) in r.calls <==> cbs.keyDown && k == Lookup(KEYMAP, code) && k != KEY_INVALID
    ensures FrameCb !in r.calls
  {
    var k := Lookup(KEYMAP, code);
    Outcome(KeyCalls(if cbs.keyDown then Some(KeyDownCb(k)) else None, imgui, k, false), true)
  }

  /** The key-up handler with the key-up callback: a release reaches the application as a release. */
  function KeyUp(cbs: Callbacks, imgui: bool, code: string): (r: Outcome)
    ensures r.consumed
    ensures forall k :: KeyDownCb(k) !in r.calls
    ensures forall k :: KeyUpCb(k) in r.calls <==> cbs.keyUp && k == Lookup(KEYMAP, code) && k != KEY_INVALID
    ensures forall k, d :: ImGuiKeyEvent(k, d) in r.calls <==> imgui && !d && k == Lookup(KEYMAP, code) && k != KEY_INVALID
    ensures FrameCb !in r.calls
  {
    var k := Lookup(KEYMAP, code);
    Outcome(KeyCalls(if cbs.keyUp then Some(KeyUpCb(k)) else None, imgui, k, false), true)
  }

  /** The finding on one input: releasing Backspace is a key-down report as written, a key-up report as meant. */
  lemma KeyUpReportsPress()
    ensures KeyUpAsWritten(Callbacks(true, true, false, false, false), false, "Backspace").calls == [KeyDownCb(KEY_BACKSPACE)]
    ensures KeyUp(Callbacks(true, true, false, false, false), false, "Backspace").calls == [KeyUpCb(KEY_BACKSPACE)]
  {
    assert KEYMAP[0] == EDITING_ROWS[0] == KeymapEntry("Backspace", KEY_BACKSPACE);
  }

  /**
   * `emsc_mousedown_cb` and `emsc_mouseup_cb`: buttons 0 to 2 go to the
   * application callback for the direction and to ImGui; others are dropped.
   */
  function MouseButton(cbs: Callbacks, imgui: bool, button: nat, down: bool): (r: Outcome)
    ensures r.consumed
    ensures button >= 3 ==> r.calls == []
    ensures forall b :: MouseDownCb(b) in r.calls <==> down && cbs.mouseDown && b == button && button < 3
    ensures forall b :: MouseUpCb(b) in r.calls <==> !down && cbs.mouseUp && b == button && button < 3
    ensures forall b, d :: ImGuiMouseEvent(b, d) in r.calls <==> imgui && b == button && button < 3 && d == down
  {
    if button < 3 then
      var app := if down then (if cbs.mouseDown then [MouseDownCb(button)] else [])
                 else (if cbs.mouseUp then [MouseUpCb(button)] else []);
      Outcome(app + (if imgui then [ImGuiMouseEvent(button, down)] else []), true)
    else Outcome([], true)
  }

  // ---------------------------------------------------------------------
  // State

  /** The objects `wgpu_swapchain_init` creates, as the device hands them out. */
  datatype Created = Created(swapchain: Handle, depthTex: Handle, depthView: Handle, msaaTex: Handle, msaaView: Handle)

  /** The handles `wgpu_swapchain_discard` releases, in its order, skipping the absent ones. */
  function DiscardReleased(msaaView: Handle, msaaTex: Handle, depthView: Handle, depthTex: Handle, swapchain: Handle): (r: seq<Handle>)
    ensures forall h :: h in r <==> h != Null && (h == msaaView || h == msaaTex || h == depthView || h == depthTex || h == swapchain)
  {
    Release(Release(Release(Release(Release([], msaaView), msaaTex), depthView), depthTex), swapchain)
  }

  /** What a view getter produces: a view, or the failure of its assert. */
  datatype ViewResult = View(h: Handle) | AssertionFailure

  /** `wgpu_state_t`, the one global of the layer. */
  class WebState {
    var desc: Desc
    var width: real
    var height: real
    var clearColor: seq<real>
    var instance: Handle
    var adapter: Handle
    var device: Handle
    var surface: Handle
    var swapchain: Handle
    var renderFormat: TextureFormat
    var depthStencilTex: Handle
    var depthStencilView: Handle
    var msaaTex: Handle
    var msaaView: Handle
    /** Declared and read by the resolve-view getter, never assigned. */
    var swapchainView: Handle
    var callbacks: Callbacks
    var setupDone: bool
    var setupFailed: bool
    var lastFrameTime: real
    /** The calls made into application and ImGui code, oldest first. */
    var calls: seq<Call>
    /** Whether the layer is built with ImGui (`CIMGUI_WGPU`). */
    const imgui: bool
    /** Whether `imgui_data` is set: ImGui's init ran and returned its data. */
    var imguiUp: bool

    ghost predicate Valid()
      reads this
    {
      && desc.sampleCount >= 1
      && swapchainView == Null
      && InitBeforeFrames(calls)
      && (setupDone ==> InitCb in calls)
    }

    /** No swapchain or attachment is held: what `wgpu_swapchain_init` asserts on entry. */
    predicate Detached()
      reads this
    {
      swapchain == Null && depthStencilTex == Null && depthStencilView == Null && msaaTex == Null && msaaView == Null
    }

    /** The swapchain exists, the depth attachment exists unless turned off, the MSAA one exactly when multisampling. */
    predicate Attached()
      reads this
    {
      && swapchain != Null
      && (if desc.noDepthBuffer then depthStencilTex == Null && depthStencilView == Null
          else depthStencilTex != Null && depthStencilView != Null)
      && (if desc.sampleCount > 1 then msaaTex != Null && msaaView != Null
          else msaaTex == Null && msaaView == Null)
    }

    /** What the swapchain needs: the asserts of `wgpu_swapchain_init` other than the detached ones. */
    predicate CanCreateSwapchain()
      reads this
    {
      adapter != Null && device != Null && surface != Null && renderFormat != Undefined
    }

    /**
     * The asserts after each creation of `wgpu_swapchain_init` that runs:
     * the swapchain, the depth objects unless depth is turned off, and the
     * MSAA objects when multisampling all came back.
     */
    predicate CreationsSucceed(c: Created)
      reads this
    {
      && c.swapchain != Null
      && (!desc.noDepthBuffer ==> c.depthTex != Null && c.depthView != Null)
      && (desc.sampleCount > 1 ==> c.msaaTex != Null && c.msaaView != Null)
    }

    /** The swapchain and attachment handles held. */
    function Held(): (r: seq<Handle>)
      reads this
      ensures |r| == 5
    {
      [swapchain, depthStencilTex, depthStencilView, msaaTex, msaaView]
    }

    /**
     * `wgpu_start` with `wgpu_platform_start`: the description is copied with
     * the sample count defaulted and the size set to the requested
     * resolution, the clear colour is opaque black; then
     * `emsc_update_canvas_size` replaces the size by the CSS size of the
     * canvas (`cssWidth` by `cssHeight`) truncated to whole pixels, and the
     * instance is created.
     */
    constructor Start(d: Desc, cbs: Callbacks, imgui: bool, cssWidth: real, cssHeight: real, instance: Handle)
      requires StartAllowed(d)
      requires instance != Null
      ensures Valid() && Detached()
      ensures desc == Defaulted(d) && clearColor == CLEAR_COLOR
      ensures width == Truncate(cssWidth) as real && height == Truncate(cssHeight) as real
      ensures this.instance == instance && adapter == Null && device == Null && surface == Null
      ensures renderFormat == Undefined && callbacks == cbs && this.imgui == imgui
      ensures !setupDone && !setupFailed && lastFrameTime == 0.0 && calls == [] && !imguiUp
    {
      desc := Defaulted(d);
      width := d.resX;
      height := d.resY;
      clearColor := CLEAR_COLOR;
      width := Truncate(cssWidth) as real;
      height := Truncate(cssHeight) as real;
      this.instance := instance;
      adapter, device, surface, swapchain := Null, Null, Null, Null;
      renderFormat := Undefined;
      depthStencilTex, depthStencilView, msaaTex, msaaView, swapchainView := Null, Null, Null, Null, Null;
      callbacks := cbs;
      setupDone, setupFailed := false, false;
      lastFrameTime := 0.0;
      calls := [];
      this.imgui := imgui;
      imguiUp := false;
    }

    /**
     * `request_adapter_cb`: a failed request marks the setup failed, yet the
     * adapter is stored and asked for a device all the same.
     */
    method RequestAdapterCb(success: bool, adapter: Handle) returns (requestsDevice: bool)
      modifies this`setupFailed, this`adapter
      ensures setupFailed == (old(setupFailed) || !success)
      ensures this.adapter == adapter
      ensures requestsDevice
    {
      if !success {
        setupFailed := true;
      }
      this.adapter := adapter;
      requestsDevice := true;
    }

    /**
     * `request_device_cb`: on failure, or when no surface comes back, the
     * setup is marked failed and stops; otherwise the swapchain is created
     * in the surface's preferred format, ImGui is set up when built in, and
     * only when that succeeds does the init callback run and the setup
     * count as done. `aborted` tells that an assert of `wgpu_swapchain_init`
     * failed, which ends the program.
     */
    method RequestDeviceCb(success: bool, device: Handle, surface: Handle, preferred: TextureFormat,
                           c: Created, imguiOk: bool) returns (aborted: bool)
      requires Valid()
      modifies this`setupFailed, this`setupDone, this`device, this`surface, this`renderFormat, this`calls, this`imguiUp
      modifies this`swapchain, this`depthStencilTex, this`depthStencilView, this`msaaTex, this`msaaView
      ensures Valid()
      ensures !success || surface == Null || aborted ==> imguiUp == old(imguiUp)
      ensures success && surface != Null && !aborted ==> imguiUp == (imgui && imguiOk)
      ensures !success ==> !aborted && setupFailed && this.device == old(this.device) && this.surface == old(this.surface)
      ensures success ==> this.device == device && this.surface == surface
      ensures success && surface == Null ==> !aborted && setupFailed
      ensures !success || surface == Null ==>
                setupDone == old(setupDone) && calls == old(calls) && renderFormat == old(renderFormat) && Held() == old(Held())
      ensures success && surface != Null ==> renderFormat == preferred
      ensures success && surface != Null ==>
                (aborted <==> !(old(Detached()) && adapter != Null && device != Null && preferred != Undefined && CreationsSucceed(c)))
      ensures aborted ==> setupDone == old(setupDone) && calls == old(calls)
      ensures success && surface != Null && !aborted ==> Attached() && swapchain == c.swapchain
      ensures success && surface != Null && !aborted && imgui && !imguiOk ==>
                setupFailed && setupDone == old(setupDone) && calls == old(calls)
      ensures success && surface != Null && !aborted && (!imgui || imguiOk) ==>
                setupDone && setupFailed == old(setupFailed) && calls == old(calls) + [InitCb]
    {
      if !success {
        setupFailed := true;
        return false;
      }
      this.device := device;
      this.surface := surface;
      if surface == Null {
        setupFailed := true;
        return false;
      }
      aborted := FinishSetup(preferred, c, imguiOk);
    }

    /**
     * The rest of `request_device_cb` once device and surface exist: the
     * swapchain in the preferred format, then ImGui, then the init callback;
     * `aborted` when an assert of `wgpu_swapchain_init` fails.
     */
    method FinishSetup(preferred: TextureFormat, c: Created, imguiOk: bool) returns (aborted: bool)
      requires Valid()
      modifies this`setupFailed, this`setupDone, this`renderFormat, this`calls, this`imguiUp
      modifies this`swapchain, this`depthStencilTex, this`depthStencilView, this`msaaTex, this`msaaView
      ensures Valid()
      ensures renderFormat == preferred
      ensures imguiUp == if aborted then old(imguiUp) else imgui && imguiOk
      ensures aborted <==> !(old(Detached()) && adapter != Null && device != Null && surface != Null &&
                             preferred != Undefined && CreationsSucceed(c))
      ensures aborted ==> setupDone == old(setupDone) && setupFailed == old(setupFailed) && calls == old(calls)
      ensures !aborted ==> Attached() && swapchain == c.swapchain
      ensures !aborted && imgui && !imguiOk ==> setupFailed && setupDone == old(setupDone) && calls == old(calls)
      ensures !aborted && (!imgui || imguiOk) ==> setupDone && setupFailed == old(setupFailed) && calls == old(calls) + [InitCb]
    {
      renderFormat := preferred;
      aborted := SwapchainInit(c);
      if aborted {
        return;
      }
      InitAfterImGui(imguiOk);
    }

    /**
     * The end of the device callback: `imgui_data` is set when ImGui came up;
     * when it did (or is not built in), the init callback runs and setup is done.
     */
    method InitAfterImGui(imguiOk: bool)
      requires Valid()
      modifies this`setupFailed, this`setupDone, this`calls, this`imguiUp
      ensures Valid()
      ensures imguiUp == (imgui && imguiOk)
      ensures imgui && !imguiOk ==> setupFailed && setupDone == old(setupDone) && calls == old(calls)
      ensures !imgui || imguiOk ==> setupDone && setupFailed == old(setupFailed) && calls == old(calls) + [InitCb]
    {
      imguiUp := imgui && imguiOk;
      if imgui && !imguiOk {
        setupFailed := true;
        return;
      }
      InitBeforeFramesAppend(calls, [InitCb]);
      calls := calls + [InitCb];
      setupDone := true;
    }

    /**
     * `emsc_frame`: a failed setup stops the animation loop; before the
     * setup is done a frame does nothing; afterwards it runs the frame
     * callback once.
     */
    method Frame() returns (keepGoing: bool)
      requires Valid()
      modifies this`calls
      ensures Valid()
      ensures keepGoing == !setupFailed
      ensures calls == old(calls) + (if !setupFailed && setupDone then [FrameCb] else [])
    {
      if setupFailed {
        return false;
      }
      if !setupDone {
        return true;
      }
      InitBeforeFramesAppend(calls, [FrameCb]);
      calls := calls + [FrameCb];
      keepGoing := true;
    }

    /**
     * `emsc_get_frametime`: the time since the previous call, or 0 on the
     * first call (while no time is stored); the clock reading is `now`.
     */
    method Frametime(now: real) returns (dt: real)
      modifies this`lastFrameTime
      ensures lastFrameTime == now
      ensures old(lastFrameTime) > 0.0 ==> dt == now - old(lastFrameTime)
      ensures old(lastFrameTime) <= 0.0 ==> dt == 0.0
    {
      if lastFrameTime > 0.0 {
        dt := now - lastFrameTime;
        lastFrameTime := now;
        return;
      }
      lastFrameTime := now;
      dt := 0.0;
    }

    /**
     * `wgpu_swapchain_init`: the swapchain, the depth texture and view unless
     * depth is turned off, and the MSAA texture and view when the sample
     * count is above 1. `aborted` tells that one of its asserts failed: an
     * object it needs is missing, an attachment is still held, or a
     * creation returned NULL.
     */
    method SwapchainInit(c: Created) returns (aborted: bool)
      modifies this`swapchain, this`depthStencilTex, this`depthStencilView, this`msaaTex, this`msaaView
      ensures aborted <==> !(old(Detached()) && CanCreateSwapchain() && CreationsSucceed(c))
      ensures !aborted ==> Attached() && swapchain == c.swapchain
      ensures !aborted && !desc.noDepthBuffer ==> depthStencilTex == c.depthTex && depthStencilView == c.depthView
      ensures !aborted && desc.sampleCount > 1 ==> msaaTex == c.msaaTex && msaaView == c.msaaView
    {
      if !(CanCreateSwapchain() && Detached()) {
        return true;
      }
      swapchain := c.swapchain;
      if swapchain == Null {
        return true;
      }
      if !desc.noDepthBuffer {
        depthStencilTex := c.depthTex;
        if depthStencilTex == Null {
          return true;
        }
        depthStencilView := c.depthView;
        if depthStencilView == Null {
          return true;
        }
      }
      if desc.sampleCount > 1 {
        msaaTex := c.msaaTex;
        if msaaTex == Null {
          return true;
        }
        msaaView := c.msaaView;
        if msaaView == Null {
          return true;
        }
      }
      return false;
    }

    /**
     * `wgpu_swapchain_discard`: every attachment that exists is released, MSAA
     * view and texture first, then depth view and texture, then the swapchain.
     */
    method SwapchainDiscard() returns (released: seq<Handle>)
      modifies this`swapchain, this`depthStencilTex, this`depthStencilView, this`msaaTex, this`msaaView
      ensures Detached()
      ensures released == DiscardReleased(old(msaaView), old(msaaTex), old(depthStencilView), old(depthStencilTex), old(swapchain))
    {
      released := Release([], msaaView);
      msaaView := Null;
      released := Release(released, msaaTex);
      msaaTex := Null;
      released := Release(released, depthStencilView);
      depthStencilView := Null;
      released := Release(released, depthStencilTex);
      depthStencilTex := Null;
      released := Release(released, swapchain);
      swapchain := Null;
    }

    /**
     * `wgpu_swapchain_reinit`: discard, then create afresh; with ImGui built
     * in, ImGui takes the sample count and rebuilds its device objects.
     * `aborted` when an assert of `wgpu_swapchain_init` fails, which happens
     * when the adapter, device, surface or render format is not there yet,
     * or when ImGui is built in but its init failed: the sample count is
     * then written through the NULL `imgui_data`.
     */
    method SwapchainReinit(c: Created) returns (released: seq<Handle>, aborted: bool)
      requires Valid()
      modifies this`swapchain, this`depthStencilTex, this`depthStencilView, this`msaaTex, this`msaaView, this`calls
      ensures Valid()
      ensures aborted <==> !(CanCreateSwapchain() && CreationsSucceed(c)) || (imgui && !imguiUp)
      ensures CanCreateSwapchain() && CreationsSucceed(c) ==> Attached() && swapchain == c.swapchain
      ensures released == DiscardReleased(old(msaaView), old(msaaTex), old(depthStencilView), old(depthStencilTex), old(swapchain))
      ensures calls == old(calls) + (if imgui && !aborted then [ImGuiSampleCount(desc.sampleCount), ImGuiInvalidate, ImGuiCreate] else [])
    {
      released := SwapchainDiscard();
      aborted := SwapchainInit(c);
      if !aborted && imgui && !imguiUp {
        aborted := true;
      }
      if imgui && !aborted {
        InitBeforeFramesAppend(calls, [ImGuiSampleCount(desc.sampleCount), ImGuiInvalidate, ImGuiCreate]);
        calls := calls + [ImGuiSampleCount(desc.sampleCount), ImGuiInvalidate, ImGuiCreate];
      }
    }

    /**
     * `emsc_size_changed` with `emsc_update_canvas_size`: the CSS size of the
     * canvas, truncated to whole pixels, becomes the size, and the swapchain
     * is rebuilt. The resize callback is registered before the adapter is
     * requested, so a resize that comes first aborts in the rebuild; so does
     * a resize after a failed ImGui init, since nothing unregisters it.
     */
    method SizeChanged(cssWidth: real, cssHeight: real, c: Created) returns (released: seq<Handle>, aborted: bool)
      requires Valid()
      modifies this`width, this`height
      modifies this`swapchain, this`depthStencilTex, this`depthStencilView, this`msaaTex, this`msaaView, this`calls
      ensures width == Truncate(cssWidth) as real && height == Truncate(cssHeight) as real
      ensures Valid()
      ensures aborted <==> !(CanCreateSwapchain() && CreationsSucceed(c)) || (imgui && !imguiUp)
      ensures adapter == Null ==> aborted
      ensures imgui && !imguiUp ==> aborted
      ensures CanCreateSwapchain() && CreationsSucceed(c) ==> Attached() && swapchain == c.swapchain
      ensures released == DiscardReleased(old(msaaView), old(msaaTex), old(depthStencilView), old(depthStencilTex), old(swapchain))
      ensures calls == old(calls) + (if imgui && !aborted then [ImGuiSampleCount(desc.sampleCount), ImGuiInvalidate, ImGuiCreate] else [])
    {
      width := Truncate(cssWidth) as real;
      height := Truncate(cssHeight) as real;
      released, aborted := SwapchainReinit(c);
    }

    /**
     * `wgpu_stop`: the shutdown callback runs, the attachments are discarded,
     * the device, the adapter and the instance are released, and ImGui is
     * shut down when built in.
     */
    method Stop() returns (released: seq<Handle>)
      requires Valid()
      modifies this`calls, this`device, this`adapter, this`instance
      modifies this`swapchain, this`depthStencilTex, this`depthStencilView, this`msaaTex, this`msaaView
      ensures Valid() && Detached()
      ensures device == Null && adapter == Null && instance == Null
      ensures calls == old(calls) + [ShutdownCb] + (if imgui then [ImGuiShutdown] else [])
      ensures released == Release(Release(Release(
                DiscardReleased(old(msaaView), old(msaaTex), old(depthStencilView), old(depthStencilTex), old(swapchain)),
                old(device)), old(adapter)), old(instance))
    {
      InitBeforeFramesAppend(calls, [ShutdownCb]);
      calls := calls + [ShutdownCb];
      released := SwapchainDiscard();
      released := Release(released, device);
      device := Null;
      released := Release(released, adapter);
      adapter := Null;
      released := Release(released, instance);
      instance := Null;
      if imgui {
        InitBeforeFramesAppend(calls, [ImGuiShutdown]);
        calls := calls + [ImGuiShutdown];
      }
    }

    // -------------------------------------------------------------------
    // Views for the render pass

    /**
     * `wgpu_get_render_view`: the MSAA view when multisampling, otherwise the
     * swapchain's current view (`current`); each branch asserts its source exists.
     */
    function RenderView(current: Handle): (r: ViewResult)
      reads this
      ensures desc.sampleCount > 1 ==> r == (if msaaView != Null then View(msaaView) else AssertionFailure)
      ensures desc.sampleCount <= 1 ==> r == (if swapchain != Null then View(current) else AssertionFailure)
    {
      if desc.sampleCount > 1 then (if msaaView != Null then View(msaaView) else AssertionFailure)
      else if swapchain != Null then View(current)
      else AssertionFailure
    }

    /**
     * `wgpu_get_resolve_view` as written: when multisampling it returns
     * `swapchain_view`, which nothing ever assigns, so its assert fails on
     * every multisampled frame.
     */
    function ResolveViewAsWritten(): (r: ViewResult)
      reads this
      ensures Valid() && desc.sampleCount > 1 ==> r == AssertionFailure
      ensures desc.sampleCount <= 1 ==> r == View(Null)
    {
      if desc.sampleCount > 1 then (if swapchainView != Null then View(swapchainView) else AssertionFailure)
      else View(Null)
    }

    /** The resolve view meant: the swapchain's current view when multisampling, none otherwise. */
    function ResolveView(current: Handle): (r: ViewResult)
      reads this
      ensures desc.sampleCount > 1 ==> r == View(current)
      ensures desc.sampleCount <= 1 ==> r == View(Null)
    {
      if desc.sampleCount > 1 then View(current) else View(Null)
    }

    /**
     * With the attachments in place, every sample count lands the frame in
     * the swapchain's current image: directly, or through the resolve view,
     * and the depth format names a depth attachment exactly when one exists.
     * The getter as written fails instead whenever it is asked to resolve.
     */
    lemma FrameReachesSwapchain(current: Handle)
      requires Valid() && Attached() && current != Null
      ensures desc.sampleCount <= 1 ==> RenderView(current) == View(current)
      ensures desc.sampleCount > 1 ==> RenderView(current) == View(msaaView) && msaaView != Null
      ensures desc.sampleCount > 1 ==> ResolveView(current) == View(current) && ResolveViewAsWritten() != View(current)
      ensures DepthFormat(desc) != Undefined <==> depthStencilView != Null
    {
    }
  }

  /** A C cast from a floating-point value to `int`: the fraction is dropped, toward zero. */
  function Truncate(x: real): (r: int)
    ensures x >= 0.0 ==> 0.0 <= r as real <= x < r as real + 1.0
    ensures x < 0.0 ==> r as real - 1.0 < x <= r as real <= 0.0
  {
    if x >= 0.0 then x.Floor else -((-x).Floor)
  }
}
