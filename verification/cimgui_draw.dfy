/**
 * The data side of `nano_cimgui_render_draw_data`: the 4-byte padding of
 * the upload sizes, the concatenation of every draw list's vertices and
 * indices into one upload, and the pass commands issued for the draw
 * commands, whose vertex and index offsets are prefix sums of the list
 * sizes.
 */
module CimguiDraw {
  import opened Common

  /** sizeof(ImDrawVert): a 2-float position, a 2-float uv and a 32-bit colour. */
  const DRAW_VERT_SIZE: nat := 20
  /** sizeof(ImDrawIdx): ImGui's default 16-bit index. */
  const DRAW_IDX_SIZE: nat := 2

  datatype DrawVert = DrawVert(x: real, y: real, u: real, v: real, col: U32)

  const ZERO_VERT: DrawVert := DrawVert(0.0, 0.0, 0.0, 0.0, 0)

  type DrawIdx = x: int | 0 <= x < 0x1_0000

  /** A clipping rectangle: (x, y) its minimum corner, (z, w) its maximum corner. */
  datatype ClipRect = ClipRect(x: real, y: real, z: real, w: real)

  datatype DrawCmd = DrawCmd(clip: ClipRect, elemCount: nat, idxOffset: nat, vtxOffset: nat, hasCallback: bool)

  datatype DrawList = DrawList(cmds: seq<DrawCmd>, vtx: seq<DrawVert>, idx: seq<DrawIdx>)

  datatype Scissor = Scissor(x: real, y: real, width: real, height: real)

  /** What the render pass is asked to do for one draw command. */
  datatype PassCommand =
    | UserCallback(list: nat, cmd: nat)
    | DrawIndexed(scissor: Scissor, elemCount: nat, firstIndex: nat, baseVertex: nat)

  // ---------------------------------------------------------------------
  // Upload sizes

  /** `(count * elemSize + 3) & ~3`: the byte size rounded up to a multiple of 4. */
  function PaddedBytes(count: nat, elemSize: nat): (r: nat)
    ensures r % 4 == 0
    ensures count * elemSize <= r < count * elemSize + 4
  {
    (count * elemSize + 3) / 4 * 4
  }

  /** A larger element count never gets a smaller padded size. */
  lemma PaddedBytesMonotone(a: nat, b: nat, elemSize: nat)
    requires a <= b
    ensures PaddedBytes(a, elemSize) <= PaddedBytes(b, elemSize)
  {
    assert a * elemSize <= b * elemSize by {
      assert (b - a) * elemSize >= 0;
    }
  }

  // ---------------------------------------------------------------------
  // Concatenated uploads

  /** The pieces one after the other. */
  function Flatten<T>(parts: seq<seq<T>>): seq<T>
  {
    if |parts| == 0 then [] else Flatten(parts[..|parts| - 1]) + parts[|parts| - 1]
  }

  function Vertices(lists: seq<DrawList>): (r: seq<seq<DrawVert>>)
    ensures |r| == |lists| && forall i :: 0 <= i < |lists| ==> r[i] == lists[i].vtx
  {
    seq(|lists|, i requires 0 <= i < |lists| => lists[i].vtx)
  }

  function Indices(lists: seq<DrawList>): (r: seq<seq<DrawIdx>>)
    ensures |r| == |lists| && forall i :: 0 <= i < |lists| ==> r[i] == lists[i].idx
  {
    seq(|lists|, i requires 0 <= i < |lists| => lists[i].idx)
  }

  /** Where part `n` starts in the concatenation: the sum of the sizes before it. */
  function Offset<T>(parts: seq<seq<T>>, n: nat): (r: nat)
    requires n <= |parts|
  {
    |Flatten(parts[..n])|
  }

  /** Taking one more part appends that part. */
  lemma FlattenStep<T>(parts: seq<seq<T>>, n: nat)
    requires n < |parts|
    ensures Flatten(parts[..n + 1]) == Flatten(parts[..n]) + parts[n]
  {
    assert parts[..n + 1][..n] == parts[..n];
  }

  /** The concatenation of a shorter prefix is a prefix of that of a longer one. */
  lemma {:induction false} FlattenPrefix<T>(parts: seq<seq<T>>, n: nat, m: nat)
    requires n <= m <= |parts|
    ensures Offset(parts, n) <= Offset(parts, m)
    ensures Flatten(parts[..m])[..Offset(parts, n)] == Flatten(parts[..n])
    decreases m - n
  {
    if n < m {
      FlattenPrefix(parts, n, m - 1);
      FlattenStep(parts, m - 1);
    }
  }

  /** Part `n` sits in the concatenation at its offset, element for element. */
  lemma FlattenAt<T>(parts: seq<seq<T>>, n: nat, j: nat)
    requires n < |parts| && j < |parts[n]|
    ensures Offset(parts, n) + j < |Flatten(parts)|
    ensures Flatten(parts)[Offset(parts, n) + j] == parts[n][j]
  {
    FlattenStep(parts, n);
    FlattenPrefix(parts, n + 1, |parts|);
    assert parts[..|parts|] == parts;
    assert Flatten(parts[..n + 1])[Offset(parts, n) + j] == parts[n][j];
  }

  /** memcpy of `src` to `dst` at element `at`. */
  method MemCopy<T>(dst: array<T>, at: nat, src: seq<T>)
    requires at + |src| <= dst.Length
    modifies dst
    ensures dst[..at + |src|] == old(dst[..at]) + src
    ensures dst[at + |src|..] == old(dst[at + |src|..])
  {
    forall i | 0 <= i < |src| {
      dst[at + i] := src[i];
    }
    assert dst[..at + |src|] == old(dst[..at]) + src;
  }

  /**
   * The copy loop of render_draw_data: each list's vertices and indices
   * appended to the staging buffers, the write pointers advancing by the
   * list sizes.
   */
  method CopyDrawLists(lists: seq<DrawList>, vtxDst: array<DrawVert>, idxDst: array<DrawIdx>)
    requires |Flatten(Vertices(lists))| <= vtxDst.Length && |Flatten(Indices(lists))| <= idxDst.Length
    modifies vtxDst, idxDst
    ensures vtxDst[..|Flatten(Vertices(lists))|] == Flatten(Vertices(lists))
    ensures idxDst[..|Flatten(Indices(lists))|] == Flatten(Indices(lists))
  {
    ghost var vs := Vertices(lists);
    ghost var xs := Indices(lists);
    var vtxPtr := 0;
    var idxPtr := 0;
    assert vs[..|lists|] == vs && xs[..|lists|] == xs;
    for n := 0 to |lists|
      invariant Offset(vs, n) <= Offset(vs, |lists|) && Offset(xs, n) <= Offset(xs, |lists|)
      invariant vtxPtr == Offset(vs, n) && vtxDst[..vtxPtr] == Flatten(vs[..n])
      invariant idxPtr == Offset(xs, n) && idxDst[..idxPtr] == Flatten(xs[..n])
    {
      FlattenStep(vs, n);
      FlattenStep(xs, n);
      FlattenPrefix(vs, n + 1, |lists|);
      FlattenPrefix(xs, n + 1, |lists|);
      var l := lists[n];
      MemCopy(vtxDst, vtxPtr, l.vtx);
      MemCopy(idxDst, idxPtr, l.idx);
      vtxPtr := vtxPtr + |l.vtx|;
      idxPtr := idxPtr + |l.idx|;
    }
  }

  // ---------------------------------------------------------------------
  // Pass commands

  /**
   * One draw command: its callback, or nothing when the clip rectangle,
   * moved by the display position, is empty, or an indexed draw whose
   * first index and base vertex add the list's global offsets.
   */
  function CmdCommand(n: nat, i: nat, c: DrawCmd, offX: real, offY: real, vtxBase: nat, idxBase: nat): seq<PassCommand>
  {
    if c.hasCallback then [UserCallback(n, i)]
    else
      var minX, minY := c.clip.x - offX, c.clip.y - offY;
      var maxX, maxY := c.clip.z - offX, c.clip.w - offY;
      if maxX <= minX || maxY <= minY then []
      else [DrawIndexed(Scissor(minX, minY, maxX - minX, maxY - minY), c.elemCount,
                        c.idxOffset + idxBase, c.vtxOffset + vtxBase)]
  }

  /** The commands for the first `k` draw commands of list `n`. */
  function ListCommands(n: nat, cmds: seq<DrawCmd>, k: nat, offX: real, offY: real, vtxBase: nat, idxBase: nat): seq<PassCommand>
    requires k <= |cmds|
  {
    if k == 0 then []
    else ListCommands(n, cmds, k - 1, offX, offY, vtxBase, idxBase) + CmdCommand(n, k - 1, cmds[k - 1], offX, offY, vtxBase, idxBase)
  }

  /** The commands for the first `k` lists, each at the offsets of the lists before it. */
  function PassCommands(lists: seq<DrawList>, k: nat, offX: real, offY: real): seq<PassCommand>
    requires k <= |lists|
  {
    if k == 0 then []
    else PassCommands(lists, k - 1, offX, offY)
         + ListCommands(k - 1, lists[k - 1].cmds, |lists[k - 1].cmds|, offX, offY,
                        Offset(Vertices(lists), k - 1), Offset(Indices(lists), k - 1))
  }

  /** Every command issued is a callback or a draw of at most that many elements. */
  lemma {:induction false} ListCommandsBounded(n: nat, cmds: seq<DrawCmd>, k: nat, offX: real, offY: real, vtxBase: nat, idxBase: nat)
    requires k <= |cmds|
    ensures |ListCommands(n, cmds, k, offX, offY, vtxBase, idxBase)| <= k
  {
    if k > 0 {
      ListCommandsBounded(n, cmds, k - 1, offX, offY, vtxBase, idxBase);
    }
  }

  /**
   * The draw issued for command `i` of list `n` reads that list's own
   * indices: index `j` of the draw's range, counted from the command's
   * IdxOffset, is element `IdxOffset + j` of the list, found in the
   * concatenated upload at the draw's first index plus `j`. The same holds
   * for the base vertex and the list's vertices.
   */
  lemma DrawReadsOwnList(lists: seq<DrawList>, n: nat, i: nat, offX: real, offY: real, j: nat)
    requires n < |lists| && i < |lists[n].cmds|
    ensures var c := lists[n].cmds[i];
            var cs := CmdCommand(n, i, c, offX, offY, Offset(Vertices(lists), n), Offset(Indices(lists), n));
            |cs| == 1 && cs[0].DrawIndexed? && c.idxOffset + j < |lists[n].idx| ==>
              cs[0].firstIndex + j < |Flatten(Indices(lists))| &&
              Flatten(Indices(lists))[cs[0].firstIndex + j] == lists[n].idx[c.idxOffset + j]
    ensures var c := lists[n].cmds[i];
            var cs := CmdCommand(n, i, c, offX, offY, Offset(Vertices(lists), n), Offset(Indices(lists), n));
            |cs| == 1 && cs[0].DrawIndexed? && c.vtxOffset + j < |lists[n].vtx| ==>
              cs[0].baseVertex + j < |Flatten(Vertices(lists))| &&
              Flatten(Vertices(lists))[cs[0].baseVertex + j] == lists[n].vtx[c.vtxOffset + j]
  {
    var c := lists[n].cmds[i];
    if c.idxOffset + j < |lists[n].idx| {
      FlattenAt(Indices(lists), n, c.idxOffset + j);
    }
    if c.vtxOffset + j < |lists[n].vtx| {
      FlattenAt(Vertices(lists), n, c.vtxOffset + j);
    }
  }

  /** The loop over one list's draw commands. */
  method IssueListCommands(n: nat, cmds: seq<DrawCmd>, offX: real, offY: real, vtxBase: nat, idxBase: nat)
    returns (out: seq<PassCommand>)
    ensures out == ListCommands(n, cmds, |cmds|, offX, offY, vtxBase, idxBase)
  {
    out := [];
    for i := 0 to |cmds|
      invariant out == ListCommands(n, cmds, i, offX, offY, vtxBase, idxBase)
    {
      var c := cmds[i];
      if c.hasCallback {
        out := out + [UserCallback(n, i)];
      } else {
        var minX, minY := c.clip.x - offX, c.clip.y - offY;
        var maxX, maxY := c.clip.z - offX, c.clip.w - offY;
        if maxX <= minX || maxY <= minY {
          continue;
        }
        out := out + [DrawIndexed(Scissor(minX, minY, maxX - minX, maxY - minY), c.elemCount,
                                  c.idxOffset + idxBase, c.vtxOffset + vtxBase)];
      }
    }
  }

  /** The command loop of render_draw_data, with the running global offsets. */
  method IssueCommands(lists: seq<DrawList>, offX: real, offY: real) returns (out: seq<PassCommand>)
    ensures out == PassCommands(lists, |lists|, offX, offY)
  {
    ghost var vs := Vertices(lists);
    ghost var xs := Indices(lists);
    out := [];
    var globalVtx := 0;
    var globalIdx := 0;
    for n := 0 to |lists|
      invariant globalVtx == Offset(vs, n) && globalIdx == Offset(xs, n)
      invariant out == PassCommands(lists, n, offX, offY)
    {
      var l := lists[n];
      var cs := IssueListCommands(n, l.cmds, offX, offY, globalVtx, globalIdx);
      out := out + cs;
      FlattenStep(vs, n);
      FlattenStep(xs, n);
      globalIdx := globalIdx + |l.idx|;
      globalVtx := globalVtx + |l.vtx|;
    }
  }
}
