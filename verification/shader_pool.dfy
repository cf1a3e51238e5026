/**
 * The nano compute-shader pool: 16 shader records indexed by `id mod 16`
 * with linear probing. A slot is usable for an id when its record is not in
 * use or already carries that id. The pool keeps a `shader_count` that is
 * adjusted by release and create without regard to what the slot held, and
 * an `occupied` flag per slot that nothing ever sets.
 */
module ShaderPool {
  import opened Common

  const MAX_COMPUTE: nat := 16
  /** Bind group layouts per pipeline layout (MAX_GROUPS of the parser header). */
  const MAX_GROUPS: nat := 4

  datatype PipelineLayout = PipelineLayout(bgLayouts: seq<Handle>, numLayouts: Size)

  const ZERO_LAYOUT: PipelineLayout := PipelineLayout(seq(MAX_GROUPS, _ => Null), 0)

  datatype ShaderEntry = ShaderEntry(id: U32, pipeline: Handle, layout: PipelineLayout, inUse: bool)

  /** The all-zero record `(nano_shader_t){0}`. */
  const ZERO_SHADER: ShaderEntry := ShaderEntry(0, Null, ZERO_LAYOUT, false)

  datatype ShaderNode = ShaderNode(entry: ShaderEntry, occupied: bool)

  const EMPTY_NODE: ShaderNode := ShaderNode(ZERO_SHADER, false)

  /** GPU calls the pool makes besides updating the table. */
  datatype GpuCall = PipelineRelease(h: Handle)

  /** The home slot of a shader id. */
  function HashShaderId(id: U32): (h: nat)
    ensures h < MAX_COMPUTE && (id - h) % MAX_COMPUTE == 0
  {
    id % MAX_COMPUTE
  }

  /** The slot the scan moves to from `index`: `(index + 1) % NANO_MAX_COMPUTE`. */
  function NextSlot(index: nat): nat { (index + 1) % MAX_COMPUTE }

  /** The slot visited after `k` steps of probing from `home`. */
  function Slot(home: nat, k: nat): (r: nat)
    requires home < MAX_COMPUTE
    ensures r < MAX_COMPUTE
  {
    if k == 0 then home else NextSlot(Slot(home, k - 1))
  }

  lemma ShiftMod(x: int, m: int)
    ensures (x + MAX_COMPUTE * m) % MAX_COMPUTE == x % MAX_COMPUTE
  {
  }

  lemma ModBelowTwice(x: nat)
    requires x < 2 * MAX_COMPUTE
    ensures x % MAX_COMPUTE == if x < MAX_COMPUTE then x else x - MAX_COMPUTE
  {
    if x >= MAX_COMPUTE {
      ShiftMod(x - MAX_COMPUTE, 1);
    }
  }

  /** Probing `k` steps from `home` lands on `(home + k) mod 16`. */
  lemma {:induction false} SlotIsMod(home: nat, k: nat)
    requires home < MAX_COMPUTE
    ensures Slot(home, k) == (home + k) % MAX_COMPUTE
  {
    if k > 0 {
      SlotIsMod(home, k - 1);
      var x := home + k - 1;
      var q := x / MAX_COMPUTE;
      assert x == MAX_COMPUTE * q + x % MAX_COMPUTE;
      ShiftMod(x % MAX_COMPUTE + 1, q);
    }
  }

  /** Every slot is visited by some step of the scan. */
  lemma SlotCovers(home: nat, slot: nat)
    requires home < MAX_COMPUTE && slot < MAX_COMPUTE
    ensures Slot(home, (slot - home + MAX_COMPUTE) % MAX_COMPUTE) == slot
  {
    var k := (slot - home + MAX_COMPUTE) % MAX_COMPUTE;
    ModBelowTwice(slot - home + MAX_COMPUTE);
    SlotIsMod(home, k);
    ModBelowTwice(home + k);
  }

  /** A record that a shader with this id may take or already has. */
  predicate Usable(e: ShaderEntry, id: U32) { !e.inUse || e.id == id }

  /** The first probe step, from `k` on, whose record is usable for `id`. */
  function FindStep(s: seq<ShaderNode>, id: U32, k: nat): (r: Option<nat>)
    requires |s| == MAX_COMPUTE && k <= MAX_COMPUTE
    ensures r.Some? ==> k <= r.value < MAX_COMPUTE && Usable(s[Slot(HashShaderId(id), r.value)].entry, id)
    decreases MAX_COMPUTE - k
  {
    if k == MAX_COMPUTE then None
    else if Usable(s[Slot(HashShaderId(id), k)].entry, id) then Some(k)
    else FindStep(s, id, k + 1)
  }

  /** No step before the one found, and no step at all when none is found, is usable. */
  lemma {:induction false} FindStepIsFirst(s: seq<ShaderNode>, id: U32, k: nat)
    requires |s| == MAX_COMPUTE && k <= MAX_COMPUTE
    ensures var r := FindStep(s, id, k);
            forall i :: k <= i < (if r.Some? then r.value else MAX_COMPUTE) ==> !Usable(s[Slot(HashShaderId(id), i)].entry, id)
    decreases MAX_COMPUTE - k
  {
    if k < MAX_COMPUTE && !Usable(s[Slot(HashShaderId(id), k)].entry, id) {
      FindStepIsFirst(s, id, k + 1);
    }
  }

  /** The slot `nano_find_shader_slot` returns, with -1 for a full pool. */
  function FoundSlot(s: seq<ShaderNode>, id: U32): (r: int)
    requires |s| == MAX_COMPUTE
    ensures -1 <= r < MAX_COMPUTE
    ensures r >= 0 ==> Usable(s[r].entry, id)
  {
    match FindStep(s, id, 0)
    case None => -1
    case Some(k) => Slot(HashShaderId(id), k)
  }

  /** No slot is found exactly when all 16 records are in use with other ids. */
  lemma {:induction false} FullIffNoSlot(s: seq<ShaderNode>, id: U32)
    requires |s| == MAX_COMPUTE
    ensures FoundSlot(s, id) == -1 <==> forall i :: 0 <= i < MAX_COMPUTE ==> s[i].entry.inUse && s[i].entry.id != id
  {
    var home := HashShaderId(id);
    FindStepIsFirst(s, id, 0);
    if FindStep(s, id, 0).None? {
      forall i | 0 <= i < MAX_COMPUTE ensures s[i].entry.inUse && s[i].entry.id != id {
        SlotCovers(home, i);
      }
    }
  }

  /** The step of the scan for `id` that visits `slot`. */
  function StepOf(id: U32, slot: nat): (k: nat)
    requires slot < MAX_COMPUTE
    ensures k < MAX_COMPUTE && Slot(HashShaderId(id), k) == slot
  {
    SlotCovers(HashShaderId(id), slot);
    (slot - HashShaderId(id) + MAX_COMPUTE) % MAX_COMPUTE
  }

  /** Distinct steps of one scan visit distinct slots: the slot of step `k` is visited at step `k`. */
  lemma StepOfSlot(id: U32, k: nat)
    requires k < MAX_COMPUTE
    ensures StepOf(id, Slot(HashShaderId(id), k)) == k
  {
    var h := HashShaderId(id);
    SlotIsMod(h, k);
    ModBelowTwice(h + k);
    if h + k < MAX_COMPUTE {
      ModBelowTwice(k + MAX_COMPUTE);
    } else {
      ModBelowTwice(k);
    }
  }

  /** Every record before slot `p` on the scan for the id stored at `p` is in use with another id. */
  predicate Reachable(s: seq<ShaderNode>, p: nat)
    requires |s| == MAX_COMPUTE && p < MAX_COMPUTE
  {
    var id := s[p].entry.id;
    forall i :: 0 <= i < StepOf(id, p) ==> !Usable(s[Slot(HashShaderId(id), i)].entry, id)
  }

  /**
   * What a pool that only create has filled keeps: every record in use is
   * reachable on its id's scan. Release breaks it, as it leaves no marker
   * in the slot it empties.
   */
  predicate CreateOnly(s: seq<ShaderNode>)
    requires |s| == MAX_COMPUTE
  {
    forall p :: 0 <= p < MAX_COMPUTE && s[p].entry.inUse ==> Reachable(s, p)
  }

  /** In a pool filled only by create, a shader already in the pool is found in its own slot. */
  lemma FoundSlotOfStoredId(s: seq<ShaderNode>, p: nat)
    requires |s| == MAX_COMPUTE && p < MAX_COMPUTE
    requires CreateOnly(s) && s[p].entry.inUse
    ensures FoundSlot(s, s[p].entry.id) == p
  {
    var id := s[p].entry.id;
    var j := StepOf(id, p);
    assert Reachable(s, p);
    FindStepIsFirst(s, id, 0);
    assert Usable(s[Slot(HashShaderId(id), j)].entry, id);
  }

  /** Writing a record in use into the slot found for its id, as create does, keeps the pool create-only. */
  lemma StoreKeepsCreateOnly(s: seq<ShaderNode>, e: ShaderEntry, occupied: bool)
    requires |s| == MAX_COMPUTE && CreateOnly(s) && e.inUse && FoundSlot(s, e.id) >= 0
    ensures CreateOnly(s[FoundSlot(s, e.id) := ShaderNode(e, occupied)])
  {
    var id := e.id;
    var h := HashShaderId(id);
    var slot := FoundSlot(s, id);
    var t := s[slot := ShaderNode(e, occupied)];
    var k := FindStep(s, id, 0).value;
    FindStepIsFirst(s, id, 0);
    StepOfSlot(id, k);
    forall p | 0 <= p < MAX_COMPUTE && t[p].entry.inUse
      ensures Reachable(t, p)
    {
      if p == slot {
        forall i | 0 <= i < k
          ensures !Usable(t[Slot(h, i)].entry, id)
        {
          StepOfSlot(id, i);
        }
      } else {
        var x := s[p].entry.id;
        assert Reachable(s, p);
        forall i | 0 <= i < StepOf(x, p)
          ensures !Usable(t[Slot(HashShaderId(x), i)].entry, x)
        {
          if Slot(HashShaderId(x), i) == slot {
            assert !Usable(s[slot].entry, x) && Usable(s[slot].entry, id);
          }
        }
      }
    }
  }

  function InUseCount(s: seq<ShaderNode>): nat
  {
    if s == [] then 0 else InUseCount(s[..|s| - 1]) + (if s[|s| - 1].entry.inUse then 1 else 0)
  }

  lemma {:induction false} InUseAfterUpdate(s: seq<ShaderNode>, i: nat, n: ShaderNode)
    requires i < |s|
    ensures InUseCount(s[i := n]) == InUseCount(s) - (if s[i].entry.inUse then 1 else 0) + (if n.entry.inUse then 1 else 0)
  {
    var t := s[i := n];
    assert t[..|t| - 1] == if i == |s| - 1 then s[..|s| - 1] else s[..|s| - 1][i := n];
    if i < |s| - 1 {
      InUseAfterUpdate(s[..|s| - 1], i, n);
    }
  }

  lemma {:induction false} InUseWhenAllZero(s: seq<ShaderNode>)
    requires forall i :: 0 <= i < |s| ==> !s[i].entry.inUse
    ensures InUseCount(s) == 0
  {
    if s != [] {
      InUseWhenAllZero(s[..|s| - 1]);
    }
  }

  /** How a change of the count and of the records in use moves the drift between them. */
  lemma DriftAfter(count: int, inUse: int, dc: int, di: int)
    ensures ((count + dc) % SIZE_LIMIT - (inUse + di)) % SIZE_LIMIT
            == ((count - inUse) % SIZE_LIMIT + (dc - di)) % SIZE_LIMIT
  {
    WrapAdd(count + dc, -(inUse + di));
    WrapAdd(count - inUse, dc - di);
  }

  class Pool {
    const shaders: array<ShaderNode>
    /** `shader_count`: a `size_t`, so every update wraps modulo 2^64. */
    var shaderCount: Size

    ghost predicate Valid()
      reads this
    {
      shaders.Length == MAX_COMPUTE
    }

    /** No slot is marked occupied: what every operation of the pool keeps. */
    ghost predicate NoneOccupied()
      reads this, shaders
    {
      forall i :: 0 <= i < shaders.Length ==> !shaders[i].occupied
    }

    /** How far `shader_count` is from the number of records in use, modulo 2^64. */
    ghost function Drift(): Size
      reads this, shaders
    {
      (shaderCount - InUseCount(shaders[..])) % SIZE_LIMIT
    }

    /** A pool as the zero-initialised global holds it. */
    constructor ()
      ensures Valid() && fresh(shaders) && NoneOccupied() && Drift() == 0 && CreateOnly(shaders[..])
      ensures forall i :: 0 <= i < MAX_COMPUTE ==> shaders[i] == EMPTY_NODE
    {
      shaders := new ShaderNode[MAX_COMPUTE](_ => EMPTY_NODE);
      shaderCount := 0;
      new;
      InUseWhenAllZero(shaders[..]);
    }

    /** nano_init_shader_pool: clears every occupied flag (records stay) and zeroes the count. */
    method Init()
      requires Valid()
      modifies this, shaders
      ensures Valid() && NoneOccupied() && shaderCount == 0
      ensures forall i :: 0 <= i < MAX_COMPUTE ==> shaders[i] == old(shaders[i]).(occupied := false)
      ensures old(CreateOnly(shaders[..])) ==> CreateOnly(shaders[..])
    {
      var i := 0;
      while i < MAX_COMPUTE
        invariant 0 <= i <= MAX_COMPUTE
        invariant forall j :: 0 <= j < i ==> shaders[j] == old(shaders[j]).(occupied := false)
        invariant forall j :: i <= j < MAX_COMPUTE ==> shaders[j] == old(shaders[j])
      {
        shaders[i] := shaders[i].(occupied := false);
        i := i + 1;
      }
      shaderCount := 0;
    }

    /**
     * nano_find_shader_slot: scans the 16 slots cyclically from the home
     * slot for the first record that is free or carries the id; -1 when
     * there is none.
     */
    method FindSlot(id: U32) returns (r: int)
      requires Valid()
      ensures r == FoundSlot(shaders[..], id)
      ensures r == -1 <==> forall i :: 0 <= i < MAX_COMPUTE ==> shaders[i].entry.inUse && shaders[i].entry.id != id
      ensures r >= 0 ==> r < MAX_COMPUTE && (!shaders[r].entry.inUse || shaders[r].entry.id == id)
    {
      FullIffNoSlot(shaders[..], id);
      ghost var s := shaders[..];
      var home := HashShaderId(id);
      var index := home;
      for i := 0 to MAX_COMPUTE
        invariant index == Slot(home, i)
        invariant FindStep(s, id, i) == FindStep(s, id, 0)
      {
        assert shaders[index] == s[Slot(home, i)];
        if !shaders[index].entry.inUse || shaders[index].entry.id == id {
          return index;
        }
        index := (index + 1) % MAX_COMPUTE;
      }
      return -1;
    }

    /** nano_get_shader: the found slot (possibly an empty one), or nothing for a full pool. */
    method Get(id: U32) returns (r: Option<nat>)
      requires Valid()
      ensures r.None? <==> forall i :: 0 <= i < MAX_COMPUTE ==> shaders[i].entry.inUse && shaders[i].entry.id != id
      ensures r.Some? ==> r.value == FoundSlot(shaders[..], id) && Usable(shaders[r.value].entry, id)
    {
      var index := FindSlot(id);
      if index < 0 {
        return None;
      }
      return Some(index);
    }

    /**
     * nano_release_shader: zeroes the found slot, clears its occupied flag,
     * releases the pipeline it held (NULL for an empty slot) and decrements
     * the count whether or not the slot held the id.
     */
    method Release(id: U32) returns (call: Option<GpuCall>)
      requires Valid()
      modifies this, shaders
      ensures Valid()
      ensures var slot := FoundSlot(old(shaders[..]), id);
              if slot < 0 then
                call == None && shaders[..] == old(shaders[..]) && shaderCount == old(shaderCount)
              else
                call == Some(PipelineRelease(old(shaders[slot].entry.pipeline))) &&
                shaders[..] == old(shaders[..])[slot := EMPTY_NODE] &&
                shaderCount == (old(shaderCount) - 1) % SIZE_LIMIT &&
                Drift() == (old(Drift()) - (if old(shaders[slot].entry.inUse) then 0 else 1)) % SIZE_LIMIT
      ensures old(NoneOccupied()) ==> NoneOccupied()
    {
      var index := FindSlot(id);
      if index < 0 {
        return None;
      }
      call := Some(PipelineRelease(shaders[index].entry.pipeline));
      Clear(index);
    }

    /** The tail of nano_release_shader: empties `slot` and decrements the count. */
    method Clear(slot: nat)
      requires Valid() && slot < MAX_COMPUTE
      modifies this, shaders
      ensures Valid()
      ensures shaders[..] == old(shaders[..])[slot := EMPTY_NODE]
      ensures shaderCount == (old(shaderCount) - 1) % SIZE_LIMIT
      ensures Drift() == (old(Drift()) - (if old(shaders[slot].entry.inUse) then 0 else 1)) % SIZE_LIMIT
    {
      InUseAfterUpdate(shaders[..], slot, EMPTY_NODE);
      ghost var count, inUse := shaderCount, InUseCount(shaders[..]);
      ghost var d := if shaders[slot].entry.inUse then 1 else 0;
      DriftAfter(count, inUse, -1, -d);
      shaders[slot] := EMPTY_NODE;
      shaderCount := (shaderCount - 1) % SIZE_LIMIT;
    }

    /**
     * The pool part of nano_create_shader for a shader whose pipeline
     * creation returned `pipeline`: 0 when the pool has no slot or the
     * pipeline is NULL; otherwise the record (id, pipeline, layout, in use)
     * is written into the found slot, the count is incremented and the id
     * returned. The old record is released first only if the slot is marked
     * occupied, which never happens.
     */
    method StoreShader(id: U32, pipeline: Handle, layout: PipelineLayout) returns (r: U32, calls: seq<GpuCall>)
      requires Valid()
      modifies this, shaders
      ensures Valid()
      ensures var slot := FoundSlot(old(shaders[..]), id);
              if slot < 0 || pipeline == Null then
                r == 0 && calls == [] && shaders[..] == old(shaders[..]) && shaderCount == old(shaderCount)
              else
                r == id && shaders[slot] == ShaderNode(ShaderEntry(id, pipeline, layout, true), false) &&
                (forall i :: 0 <= i < MAX_COMPUTE && i != slot ==> shaders[i] == old(shaders[i])) &&
                (old(!shaders[slot].occupied) ==>
                   (shaderCount == (old(shaderCount) + 1) % SIZE_LIMIT && calls == [] &&
                    Drift() == (old(Drift()) + (if old(shaders[slot].entry.inUse) then 1 else 0)) % SIZE_LIMIT))
      ensures old(NoneOccupied()) ==> NoneOccupied()
      ensures old(CreateOnly(shaders[..])) ==> CreateOnly(shaders[..])
    {
      ghost var s0 := shaders[..];
      var slot := FindSlot(id);
      if slot < 0 || pipeline == Null {
        return 0, [];
      }
      calls := [];
      if shaders[slot].occupied {
        var c := Release(id);
        if c.Some? {
          calls := [c.value];
        }
      }
      Put(slot, ShaderEntry(id, pipeline, layout, true));
      r := id;
      assert shaders[..] == s0[slot := ShaderNode(ShaderEntry(id, pipeline, layout, true), false)];
      if CreateOnly(s0) {
        StoreKeepsCreateOnly(s0, ShaderEntry(id, pipeline, layout, true), false);
      }
    }

    /** The last step of nano_create_shader: writes the in-use record into `slot` and increments the count. */
    method Put(slot: nat, entry: ShaderEntry)
      requires Valid() && slot < MAX_COMPUTE && entry.inUse
      modifies this, shaders
      ensures Valid()
      ensures shaders[..] == old(shaders[..])[slot := old(shaders[slot]).(entry := entry)]
      ensures shaderCount == (old(shaderCount) + 1) % SIZE_LIMIT
      ensures Drift() == (old(Drift()) + (if old(shaders[slot].entry.inUse) then 1 else 0)) % SIZE_LIMIT
    {
      InUseAfterUpdate(shaders[..], slot, shaders[slot].(entry := entry));
      ghost var count, inUse := shaderCount, InUseCount(shaders[..]);
      ghost var d := if shaders[slot].entry.inUse then 1 else 0;
      shaders[slot] := shaders[slot].(entry := entry);
      shaderCount := (shaderCount + 1) % SIZE_LIMIT;
      DriftAfter(count, inUse, 1, 1 - d);
    }
  }
}
