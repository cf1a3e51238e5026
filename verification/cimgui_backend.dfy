/**
 * The nano ImGui WebGPU backend (`nano_cimgui_data` and the functions that
 * update it): the key-repeat filter over the per-key arrays, the mouse
 * button remapping, the growth of the vertex and index buffers, the draw
 * data upload, the release of the device objects, and the field values
 * set by init and shutdown.
 */
module CimguiBackend {
  import opened Common
  import opened CimguiKeys
  import opened CimguiDraw

  /** Length of `KeyDown` and `LastKeyPressTime`. */
  const KEY_SLOTS: nat := 512
  /** Length of ImGuiIO's `MouseDown`. */
  const MOUSE_SLOTS: nat := 5
  /** Spare vertices and indices allocated on each growth, and the initial sizes. */
  const VERTEX_HEADROOM: nat := 5000
  const INDEX_HEADROOM: nat := 10000
  const INT_MAX: int := 0x7fff_ffff
  const DEFAULT_KEY_REPEAT_DELAY: real := 0.5
  const DEFAULT_KEY_REPEAT_RATE: real := 0.1

  datatype KeyEvent = KeyEvent(key: ImGuiKey, down: bool)

  /** The part of ImGuiIO the backend writes: the mouse-button slots and the key-event queue. */
  class Io {
    const mouseDown: array<bool>
    var keyEvents: seq<KeyEvent>

    ghost predicate Valid()
      reads this
    {
      mouseDown.Length == MOUSE_SLOTS
    }

    constructor ()
      ensures Valid() && fresh(mouseDown) && keyEvents == []
      ensures forall i :: 0 <= i < MOUSE_SLOTS ==> !mouseDown[i]
    {
      mouseDown := new bool[MOUSE_SLOTS](_ => false);
      keyEvents := [];
    }
  }

  // ---------------------------------------------------------------------
  // Key-repeat filter

  /** What the backend keeps per key: whether it is held and when its last press event was sent. */
  datatype KeySlot = KeySlot(down: bool, lastPress: real)

  /**
   * The event one key report sends: a release always, a press when the key
   * was not held or more than `rate` seconds passed since the last press
   * event, otherwise nothing.
   */
  function KeyStepEvent(s: KeySlot, down: bool, now: real, rate: real): Option<bool>
  {
    if !down then Some(false)
    else if !s.down || now - s.lastPress > rate then Some(true)
    else None
  }

  /** The key's slot after the report: held as reported, stamped when a press is sent. */
  function KeyStepSlot(s: KeySlot, down: bool, now: real, rate: real): KeySlot
  {
    KeySlot(down, if KeyStepEvent(s, down, now, rate) == Some(true) then now else s.lastPress)
  }

  function Sent(k: ImGuiKey, e: Option<bool>): (r: seq<KeyEvent>)
    ensures |r| <= 1
  {
    if e.Some? then [KeyEvent(k, e.value)] else []
  }

  /** A release is always forwarded and leaves the press stamp alone. */
  lemma ReleaseAlwaysSent(s: KeySlot, now: real, rate: real)
    ensures KeyStepEvent(s, false, now, rate) == Some(false)
    ensures KeyStepSlot(s, false, now, rate) == KeySlot(false, s.lastPress)
  {
  }

  /** The first press after a release is always forwarded. */
  lemma PressAfterReleaseSent(s: KeySlot, t0: real, t1: real, rate: real)
    ensures KeyStepEvent(KeyStepSlot(s, false, t0, rate), true, t1, rate) == Some(true)
  {
  }

  /**
   * Auto-repeat throttling: once a press is forwarded at `t0`, another
   * press report no more than `rate` later is dropped and keeps the stamp,
   * while one more than `rate` later is forwarded.
   */
  lemma RepeatThrottled(s: KeySlot, t0: real, t1: real, rate: real)
    requires KeyStepEvent(s, true, t0, rate) == Some(true)
    ensures var s1 := KeyStepSlot(s, true, t0, rate);
            s1 == KeySlot(true, t0) &&
            (t1 - t0 <= rate ==> KeyStepEvent(s1, true, t1, rate) == None && KeyStepSlot(s1, true, t1, rate) == s1) &&
            (t1 - t0 > rate ==> KeyStepEvent(s1, true, t1, rate) == Some(true))
  {
  }

  // ---------------------------------------------------------------------
  // Mouse buttons

  /** The MouseDown slot a browser button number goes to: right and middle are swapped. */
  function MouseSlot(button: int): Option<nat>
  {
    if 0 <= button < MOUSE_SLOTS then
      if button == 0 then Some(0)
      else if button == 1 then Some(2)
      else if button == 2 then Some(1)
      else None
    else None
  }

  /** Buttons 0 to 2 are remapped by an involution onto slots 0 to 2; every other button is ignored. */
  lemma MouseSlotSwap(button: int)
    ensures MouseSlot(button).Some? <==> 0 <= button <= 2
    ensures MouseSlot(button).Some? ==> MouseSlot(button).value <= 2 && MouseSlot(MouseSlot(button).value) == Some(button)
  {
  }

  /** nano_cimgui_process_mousepress_event. */
  method ProcessMousePress(io: Io, button: int, down: bool)
    requires io.Valid()
    modifies io.mouseDown
    ensures MouseSlot(button).Some? ==> io.mouseDown[..] == old(io.mouseDown[..])[MouseSlot(button).value := down]
    ensures MouseSlot(button).None? ==> io.mouseDown[..] == old(io.mouseDown[..])
  {
    if button >= 0 && button < 5 {
      if button == 0 {
        io.mouseDown[0] := down;
      }
      if button == 1 {
        io.mouseDown[2] := down;
      }
      if button == 2 {
        io.mouseDown[1] := down;
      }
    }
  }

  // ---------------------------------------------------------------------
  // Device objects

  /** The handles and buffer sizes that invalidate_device_objects resets. */
  datatype DeviceObjects = DeviceObjects(pipelineState: Handle, fontTexture: Handle, fontTextureView: Handle,
                                         sampler: Handle, uniforms: Handle, commonBindGroup: Handle,
                                         vertexBuffer: Handle, indexBuffer: Handle,
                                         vertexBufferSize: U32, indexBufferSize: U32)

  function Handles(o: DeviceObjects): seq<Handle>
  {
    [o.pipelineState, o.fontTexture, o.fontTextureView, o.sampler, o.uniforms, o.commonBindGroup,
     o.vertexBuffer, o.indexBuffer]
  }

  /** The device objects after invalidation: untouched without a device, else all NULL and sizes 0. */
  function Invalidated(device: Handle, o: DeviceObjects): (r: DeviceObjects)
    ensures device != Null ==> forall h :: h in Handles(r) ==> h == Null
    ensures device != Null ==> r.vertexBufferSize == 0 && r.indexBufferSize == 0
    ensures device == Null ==> r == o
  {
    if device == Null then o
    else DeviceObjects(Null, Null, Null, Null, Null, Null, Null, Null, 0, 0)
  }

  /** The handles invalidation releases or destroys, in release order. */
  function Released(device: Handle, o: DeviceObjects): seq<Handle>
  {
    if device == Null then []
    else ReleasedBindingObjects(ReleasedPipelineObjects(o), o)
  }

  function ReleasedPipelineObjects(o: DeviceObjects): seq<Handle>
  {
    Release(Release(Release(Release([], o.pipelineState), o.fontTexture), o.fontTextureView), o.sampler)
  }

  function ReleasedBindingObjects(before: seq<Handle>, o: DeviceObjects): seq<Handle>
  {
    Release(Release(Release(Release(before, o.uniforms), o.commonBindGroup), o.vertexBuffer), o.indexBuffer)
  }

  /**
   * Invalidation is idempotent and a second one releases nothing: the
   * repeated vertex- and index-buffer checks in the source never free a
   * buffer twice.
   */
  lemma InvalidateIdempotent(device: Handle, o: DeviceObjects)
    ensures Invalidated(device, Invalidated(device, o)) == Invalidated(device, o)
    ensures device != Null ==> Released(device, Invalidated(device, o)) == []
    ensures forall h :: h in Released(device, o) <==> device != Null && h in Handles(o) && h != Null
  {
  }

  // ---------------------------------------------------------------------
  // Draw data

  /** What ImGui hands to render_draw_data. */
  datatype DrawData = DrawData(posX: real, posY: real, width: real, height: real,
                               totalVtx: nat, totalIdx: nat, lists: seq<DrawList>)

  /** What one rendered frame sends to the GPU. */
  datatype Frame = Frame(destroyed: seq<Handle>, vertexBytes: nat, indexBytes: nat,
                         vertices: seq<DrawVert>, indices: seq<DrawIdx>, commands: seq<PassCommand>)

  /** ImGui's totals are the sizes of the concatenated lists. */
  predicate TotalsMatch(d: DrawData)
  {
    d.totalVtx == |Flatten(Vertices(d.lists))| && d.totalIdx == |Flatten(Indices(d.lists))|
  }

  /** A window with no area is not drawn. */
  predicate Minimized(d: DrawData)
  {
    d.width <= 0.0 || d.height <= 0.0
  }

  // ---------------------------------------------------------------------
  // Backend data

  class Backend {
    var imguiContext: Handle
    var device: Handle
    var defaultQueue: Handle
    var renderTargetFormat: nat
    var depthStencilFormat: nat
    var numFramesInFlight: U32
    var frameIndex: U32
    var deltaTime: real
    var multiSampleCount: U8

    const lastKeyPressTime: array<real>
    const keyDown: array<bool>
    var keyRepeatDelay: real
    var keyRepeatRate: real

    var pipelineState: Handle
    var fontTexture: Handle
    var fontTextureView: Handle
    var sampler: Handle
    var uniforms: Handle
    var commonBindGroup: Handle
    var vertexBuffer: Handle
    var indexBuffer: Handle
    var vertexBufferSize: U32
    var indexBufferSize: U32

    ghost predicate Valid()
      reads this
    {
      lastKeyPressTime.Length == KEY_SLOTS && keyDown.Length == KEY_SLOTS
    }

    function Objects(): DeviceObjects
      reads this
    {
      DeviceObjects(pipelineState, fontTexture, fontTextureView, sampler, uniforms, commonBindGroup,
                    vertexBuffer, indexBuffer, vertexBufferSize, indexBufferSize)
    }

    /**
     * nano_cimgui_init once the context and the allocation succeed: the
     * whole record is zeroed after the context is stored (so the stored
     * context is lost), then the repeat timings, the device, queue and
     * formats, the frame counters and the initial buffer sizes are set.
     * The frame count is converted to uint32_t and the sample count
     * truncated to uint8_t.
     */
    constructor Init(device: Handle, queue: Handle, numFramesInFlight: int, renderTargetFormat: nat,
                     depthStencilFormat: nat, multiSampleCount: U32, ctx: Handle)
      ensures Valid() && fresh(lastKeyPressTime) && fresh(keyDown)
      ensures forall i :: 0 <= i < KEY_SLOTS ==> !keyDown[i] && lastKeyPressTime[i] == 0.0
      ensures keyRepeatDelay == DEFAULT_KEY_REPEAT_DELAY && keyRepeatRate == DEFAULT_KEY_REPEAT_RATE
      ensures imguiContext == Null
      ensures this.device == device && defaultQueue == queue
      ensures this.renderTargetFormat == renderTargetFormat && this.depthStencilFormat == depthStencilFormat
      ensures this.numFramesInFlight == numFramesInFlight % U32_LIMIT && frameIndex == U32_MAX && deltaTime == 0.0
      ensures this.multiSampleCount == multiSampleCount % U8_LIMIT
      ensures Objects() == DeviceObjects(Null, Null, Null, Null, Null, Null, Null, Null, VERTEX_HEADROOM, INDEX_HEADROOM)
    {
      imguiContext := Null;
      this.device := device;
      defaultQueue := queue;
      this.renderTargetFormat := renderTargetFormat;
      this.depthStencilFormat := depthStencilFormat;
      this.numFramesInFlight := numFramesInFlight % U32_LIMIT;
      frameIndex := U32_MAX;
      deltaTime := 0.0;
      this.multiSampleCount := multiSampleCount % U8_LIMIT;
      lastKeyPressTime := new real[KEY_SLOTS](_ => 0.0);
      keyDown := new bool[KEY_SLOTS](_ => false);
      keyRepeatDelay := DEFAULT_KEY_REPEAT_DELAY;
      keyRepeatRate := DEFAULT_KEY_REPEAT_RATE;
      pipelineState, fontTexture, fontTextureView, sampler := Null, Null, Null, Null;
      uniforms, commonBindGroup, vertexBuffer, indexBuffer := Null, Null, Null, Null;
      vertexBufferSize := VERTEX_HEADROOM;
      indexBufferSize := INDEX_HEADROOM;
    }

    /**
     * nano_cimgui_process_key_event with the clock reading `now`: keys
     * outside the arrays or without an ImGui key are ignored; otherwise the
     * repeat filter decides the event and the key's slot is updated.
     */
    method ProcessKeyEvent(io: Io, key: int, down: bool, now: real)
      requires Valid()
      modifies keyDown, lastKeyPressTime, io
      ensures 0 <= key < KEY_SLOTS && ToImGuiKey(key) != NoKey ==>
        var s := KeySlot(old(keyDown[key]), old(lastKeyPressTime[key]));
        var s' := KeyStepSlot(s, down, now, keyRepeatRate);
        keyDown[..] == old(keyDown[..])[key := s'.down] &&
        lastKeyPressTime[..] == old(lastKeyPressTime[..])[key := s'.lastPress] &&
        io.keyEvents == old(io.keyEvents) + Sent(ToImGuiKey(key), KeyStepEvent(s, down, now, keyRepeatRate))
      ensures !(0 <= key < KEY_SLOTS && ToImGuiKey(key) != NoKey) ==>
        keyDown[..] == old(keyDown[..]) && lastKeyPressTime[..] == old(lastKeyPressTime[..]) &&
        io.keyEvents == old(io.keyEvents)
    {
      if key < 0 || key >= 512 {
        return;
      }
      var imguiKey := ToImGuiKey(key);
      if imguiKey == NoKey {
        return;
      }
      if down {
        if !keyDown[key] || now - lastKeyPressTime[key] > keyRepeatRate {
          io.keyEvents := io.keyEvents + [KeyEvent(imguiKey, true)];
          lastKeyPressTime[key] := now;
        }
      } else {
        io.keyEvents := io.keyEvents + [KeyEvent(imguiKey, false)];
      }
      keyDown[key] := down;
    }

    /**
     * nano_cimgui_invalidate_device_objects: without a device nothing
     * happens; otherwise each non-NULL object is released or destroyed and
     * cleared, and both buffer sizes drop to 0.
     */
    method InvalidateDeviceObjects() returns (released: seq<Handle>)
      modifies this`pipelineState, this`fontTexture, this`fontTextureView, this`sampler, this`uniforms
      modifies this`commonBindGroup, this`vertexBuffer, this`indexBuffer, this`vertexBufferSize, this`indexBufferSize
      ensures Objects() == Invalidated(device, old(Objects()))
      ensures released == Released(device, old(Objects()))
    {
      released := [];
      if device == Null {
        return;
      }
      released := ReleasePipelineObjects();
      released := ReleaseBindingObjects(released);
      vertexBufferSize := 0;
      indexBufferSize := 0;
    }

    /** The first four checks of invalidate_device_objects: pipeline, font texture and view, sampler. */
    method ReleasePipelineObjects() returns (released: seq<Handle>)
      modifies this`pipelineState, this`fontTexture, this`fontTextureView, this`sampler
      ensures pipelineState == Null && fontTexture == Null && fontTextureView == Null && sampler == Null
      ensures released == ReleasedPipelineObjects(old(Objects()))
    {
      released := Release([], pipelineState);
      pipelineState := Null;
      released := Release(released, fontTexture);
      fontTexture := Null;
      released := Release(released, fontTextureView);
      fontTextureView := Null;
      released := Release(released, sampler);
      sampler := Null;
    }

    /**
     * The remaining checks: uniforms, bind group, then the vertex and index
     * buffers, whose checks appear twice in the source (the second pair
     * finds them NULL).
     */
    method ReleaseBindingObjects(before: seq<Handle>) returns (released: seq<Handle>)
      modifies this`uniforms, this`commonBindGroup, this`vertexBuffer, this`indexBuffer
      ensures uniforms == Null && commonBindGroup == Null && vertexBuffer == Null && indexBuffer == Null
      ensures released == ReleasedBindingObjects(before, old(Objects()))
    {
      released := Release(before, uniforms);
      uniforms := Null;
      released := Release(released, commonBindGroup);
      commonBindGroup := Null;
      released := Release(released, vertexBuffer);
      vertexBuffer := Null;
      released := Release(released, indexBuffer);
      indexBuffer := Null;
      released := Release(released, vertexBuffer);
      vertexBuffer := Null;
      released := Release(released, indexBuffer);
      indexBuffer := Null;
    }

    /**
     * nano_cimgui_shutdown: invalidates the device objects, releases the
     * queue (NULL or not), drops the device and resets the frame counters.
     */
    method Shutdown() returns (released: seq<Handle>)
      modifies this`pipelineState, this`fontTexture, this`fontTextureView, this`sampler, this`uniforms
      modifies this`commonBindGroup, this`vertexBuffer, this`indexBuffer, this`vertexBufferSize, this`indexBufferSize
      modifies this`device, this`numFramesInFlight, this`frameIndex
      ensures Objects() == Invalidated(old(device), old(Objects()))
      ensures released == Released(old(device), old(Objects())) + [old(defaultQueue)]
      ensures device == Null && numFramesInFlight == 0 && frameIndex == U32_MAX
    {
      released := InvalidateDeviceObjects();
      released := released + [defaultQueue];
      device := Null;
      numFramesInFlight := 0;
      frameIndex := U32_MAX;
    }

    /**
     * The buffer-growth step of render_draw_data: a missing or too small
     * buffer is destroyed (when present) and replaced by the device's new
     * buffer, sized for the count plus the headroom. Either way the
     * recorded capacity then covers the count, so the padded upload fits
     * a buffer created with the padded capacity.
     */
    method GrowBuffers(totalVtx: nat, totalIdx: nat, newVb: Handle, newIb: Handle) returns (destroyed: seq<Handle>)
      requires totalVtx + VERTEX_HEADROOM <= INT_MAX && totalIdx + INDEX_HEADROOM <= INT_MAX
      modifies this`vertexBuffer, this`vertexBufferSize, this`indexBuffer, this`indexBufferSize
      ensures old(vertexBuffer) == Null || old(vertexBufferSize) < totalVtx ==>
                vertexBuffer == newVb && vertexBufferSize == totalVtx + VERTEX_HEADROOM
      ensures !(old(vertexBuffer) == Null || old(vertexBufferSize) < totalVtx) ==>
                vertexBuffer == old(vertexBuffer) && vertexBufferSize == old(vertexBufferSize)
      ensures old(indexBuffer) == Null || old(indexBufferSize) < totalIdx ==>
                indexBuffer == newIb && indexBufferSize == totalIdx + INDEX_HEADROOM
      ensures !(old(indexBuffer) == Null || old(indexBufferSize) < totalIdx) ==>
                indexBuffer == old(indexBuffer) && indexBufferSize == old(indexBufferSize)
      ensures destroyed ==
                (if old(vertexBuffer) != Null && old(vertexBufferSize) < totalVtx then [old(vertexBuffer)] else []) +
                (if old(indexBuffer) != Null && old(indexBufferSize) < totalIdx then [old(indexBuffer)] else [])
      ensures vertexBufferSize >= totalVtx && indexBufferSize >= totalIdx
      ensures PaddedBytes(totalVtx, DRAW_VERT_SIZE) <= PaddedBytes(vertexBufferSize, DRAW_VERT_SIZE)
      ensures PaddedBytes(totalIdx, DRAW_IDX_SIZE) <= PaddedBytes(indexBufferSize, DRAW_IDX_SIZE)
    {
      destroyed := [];
      if vertexBuffer == Null || vertexBufferSize < totalVtx {
        if vertexBuffer != Null {
          destroyed := destroyed + [vertexBuffer];
        }
        vertexBufferSize := totalVtx + VERTEX_HEADROOM;
        vertexBuffer := newVb;
      }
      if indexBuffer == Null || indexBufferSize < totalIdx {
        if indexBuffer != Null {
          destroyed := destroyed + [indexBuffer];
        }
        indexBufferSize := totalIdx + INDEX_HEADROOM;
        indexBuffer := newIb;
      }
      PaddedBytesMonotone(totalVtx, vertexBufferSize, DRAW_VERT_SIZE);
      PaddedBytesMonotone(totalIdx, indexBufferSize, DRAW_IDX_SIZE);
    }

    /**
     * nano_cimgui_render_draw_data with the buffers the device creates on
     * growth: nothing for a minimised window; otherwise the buffers are
     * grown, every list is copied into the staging uploads, and the pass
     * commands are issued at the running list offsets.
     */
    method RenderDrawData(d: DrawData, newVb: Handle, newIb: Handle) returns (frame: Option<Frame>)
      requires TotalsMatch(d)
      requires d.totalVtx + VERTEX_HEADROOM <= INT_MAX && d.totalIdx + INDEX_HEADROOM <= INT_MAX
      modifies this`vertexBuffer, this`vertexBufferSize, this`indexBuffer, this`indexBufferSize
      ensures Minimized(d) ==> frame == None && Objects() == old(Objects())
      ensures !Minimized(d) ==> (frame.Some? &&
        frame.value.vertices == Flatten(Vertices(d.lists)) && frame.value.indices == Flatten(Indices(d.lists)) &&
        frame.value.commands == PassCommands(d.lists, |d.lists|, d.posX, d.posY) &&
        frame.value.vertexBytes == PaddedBytes(d.totalVtx, DRAW_VERT_SIZE) &&
        frame.value.indexBytes == PaddedBytes(d.totalIdx, DRAW_IDX_SIZE) &&
        frame.value.vertexBytes <= PaddedBytes(vertexBufferSize, DRAW_VERT_SIZE) &&
        frame.value.indexBytes <= PaddedBytes(indexBufferSize, DRAW_IDX_SIZE))
      ensures !Minimized(d) && (old(vertexBuffer) == Null || old(vertexBufferSize) < d.totalVtx) ==>
                vertexBuffer == newVb && vertexBufferSize == d.totalVtx + VERTEX_HEADROOM
      ensures !Minimized(d) && !(old(vertexBuffer) == Null || old(vertexBufferSize) < d.totalVtx) ==>
                vertexBuffer == old(vertexBuffer) && vertexBufferSize == old(vertexBufferSize)
      ensures !Minimized(d) && (old(indexBuffer) == Null || old(indexBufferSize) < d.totalIdx) ==>
                indexBuffer == newIb && indexBufferSize == d.totalIdx + INDEX_HEADROOM
      ensures !Minimized(d) && !(old(indexBuffer) == Null || old(indexBufferSize) < d.totalIdx) ==>
                indexBuffer == old(indexBuffer) && indexBufferSize == old(indexBufferSize)
      ensures !Minimized(d) ==> (frame.Some? && frame.value.destroyed ==
        (if old(vertexBuffer) != Null && old(vertexBufferSize) < d.totalVtx then [old(vertexBuffer)] else []) +
        (if old(indexBuffer) != Null && old(indexBufferSize) < d.totalIdx then [old(indexBuffer)] else []))
    {
      if d.width <= 0.0 || d.height <= 0.0 {
        return None;
      }
      var vertexSize := PaddedBytes(d.totalVtx, DRAW_VERT_SIZE);
      var indexSize := PaddedBytes(d.totalIdx, DRAW_IDX_SIZE);
      var destroyed := GrowBuffers(d.totalVtx, d.totalIdx, newVb, newIb);
      var vtxDst := new DrawVert[d.totalVtx](_ => ZERO_VERT);
      var idxDst := new DrawIdx[d.totalIdx](_ => 0);
      CopyDrawLists(d.lists, vtxDst, idxDst);
      assert vtxDst[..] == vtxDst[..d.totalVtx] && idxDst[..] == idxDst[..d.totalIdx];
      var commands := IssueCommands(d.lists, d.posX, d.posY);
      return Some(Frame(destroyed, vertexSize, indexSize, vtxDst[..], idxDst[..], commands));
    }
  }
}
