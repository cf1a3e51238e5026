/**
 * The nano buffer pool: a fixed table of 256 buffer records, filed under a
 * hash of (shader id, group, binding) and probed linearly. Inserting takes
 * the first free slot of the probe cycle, lookup walks the run of occupied
 * slots from the home slot, and release/destroy clear the first slot that
 * holds the buffer's handle without leaving a tombstone.
 */
module BufferPool {
  import opened Common

  const MAX_BUFFERS: nat := 256
  /** The GPU cache line that buffer sizes are rounded up to. */
  const CACHE_LINE: nat := 32

  datatype BufferEntry = BufferEntry(buffer: Handle, inUse: bool, usage: UsageFlags,
                                     shaderId: U32, group: U8, binding: U8, size: Size)

  /** The all-zero record `(nano_buffer_t){0}`. */
  const ZERO_ENTRY: BufferEntry := BufferEntry(Null, false, {}, 0, 0, 0, 0)

  datatype BufferNode = BufferNode(entry: BufferEntry, occupied: bool)

  const EMPTY_NODE: BufferNode := BufferNode(ZERO_ENTRY, false)

  /** What a record is filed under. */
  datatype Key = Key(shaderId: U32, group: U8, binding: U8)

  function KeyOf(e: BufferEntry): Key { Key(e.shaderId, e.group, e.binding) }

  /** What the pool does to the GPU object besides updating the table. */
  datatype GpuCall = NoCall | BufferRelease(h: Handle) | BufferDestroy(h: Handle)

  // ---------------------------------------------------------------------
  // Hashing and probing

  lemma ShiftMod(x: int, m: int)
    ensures (x + MAX_BUFFERS * m) % MAX_BUFFERS == x % MAX_BUFFERS
  {
  }

  lemma ModOfWrapped(a: int, c: int)
    ensures (a % U32_LIMIT + c) % MAX_BUFFERS == (a + c) % MAX_BUFFERS
  {
    var q := a / U32_LIMIT;
    assert a == U32_LIMIT * q + a % U32_LIMIT;
    ShiftMod(a % U32_LIMIT + c, 0x100_0000 * q);
    assert a % U32_LIMIT + c + MAX_BUFFERS * (0x100_0000 * q) == a + c;
  }

  /**
   * The home slot of a key. The C expression is evaluated in `uint32_t`, so
   * every step wraps modulo 2^32; because 2^32 is a multiple of the table
   * size the wrapping never changes the slot.
   */
  function HashBuffer(k: Key): (h: nat)
    ensures h < MAX_BUFFERS
    ensures h == (k.shaderId * 31 + k.group * 31 + k.binding) % MAX_BUFFERS
  {
    var t := (k.shaderId * 31) % U32_LIMIT;
    var u := (t + k.group * 31) % U32_LIMIT;
    var v := (u + k.binding) % U32_LIMIT;
    ModOfWrapped(u + k.binding, 0);
    ModOfWrapped(t + k.group * 31, k.binding);
    ModOfWrapped(k.shaderId * 31, k.group * 31 + k.binding);
    v % MAX_BUFFERS
  }

  /** The slot the probe moves to from `slot`: `(hash + 1) % MAX_BUFFERS`. */
  function NextSlot(slot: nat): nat { (slot + 1) % MAX_BUFFERS }

  /** The slot visited after `k` steps of linear probing from `home`. */
  function Probe(home: nat, k: nat): (r: nat)
    requires home < MAX_BUFFERS
    ensures r < MAX_BUFFERS
  {
    if k == 0 then home else NextSlot(Probe(home, k - 1))
  }

  /** Probing `k` steps from `home` lands on `(home + k) mod 256`. */
  lemma {:induction false} ProbeIsMod(home: nat, k: nat)
    requires home < MAX_BUFFERS
    ensures Probe(home, k) == (home + k) % MAX_BUFFERS
  {
    if k > 0 {
      ProbeIsMod(home, k - 1);
      var x := home + k - 1;
      var q := x / MAX_BUFFERS;
      assert x == MAX_BUFFERS * q + x % MAX_BUFFERS;
      ShiftMod(x % MAX_BUFFERS + 1, q);
    }
  }

  lemma ModBelowTwice(x: nat)
    requires x < 2 * MAX_BUFFERS
    ensures x % MAX_BUFFERS == if x < MAX_BUFFERS then x else x - MAX_BUFFERS
  {
    if x >= MAX_BUFFERS {
      ShiftMod(x - MAX_BUFFERS, 1);
    }
  }

  /** The do-while returns to the home slot after exactly 256 steps. */
  lemma ProbeNext(home: nat, k: nat)
    requires home < MAX_BUFFERS && k < MAX_BUFFERS
    ensures Probe(home, k + 1) == home <==> k + 1 == MAX_BUFFERS
  {
    ProbeIsMod(home, k + 1);
    ModBelowTwice(home + k + 1);
  }

  lemma ProbeInjective(home: nat, i: nat, j: nat)
    requires home < MAX_BUFFERS && i < MAX_BUFFERS && j < MAX_BUFFERS
    ensures Probe(home, i) == Probe(home, j) <==> i == j
  {
    ProbeIsMod(home, i);
    ProbeIsMod(home, j);
    ModBelowTwice(home + i);
    ModBelowTwice(home + j);
  }

  /** Every slot is visited by some step of the probe cycle. */
  lemma ProbeCovers(home: nat, slot: nat)
    requires home < MAX_BUFFERS && slot < MAX_BUFFERS
    ensures Probe(home, (slot - home + MAX_BUFFERS) % MAX_BUFFERS) == slot
  {
    var k := (slot - home + MAX_BUFFERS) % MAX_BUFFERS;
    ModBelowTwice(slot - home + MAX_BUFFERS);
    ProbeIsMod(home, k);
    ModBelowTwice(home + k);
  }

  predicate Matches(n: BufferNode, k: Key) { n.occupied && KeyOf(n.entry) == k }

  /**
   * The probe step at which insertion stores a record: the first step, from
   * `k` on, whose slot is free.
   */
  function FirstFreeStep(s: seq<BufferNode>, home: nat, k: nat): (r: Option<nat>)
    requires |s| == MAX_BUFFERS && home < MAX_BUFFERS && k <= MAX_BUFFERS
    ensures r.Some? ==> k <= r.value < MAX_BUFFERS && !s[Probe(home, r.value)].occupied
    decreases MAX_BUFFERS - k
  {
    if k == MAX_BUFFERS then None
    else if !s[Probe(home, k)].occupied then Some(k)
    else FirstFreeStep(s, home, k + 1)
  }

  /** Every step before the one found, or every step when none is found, has an occupied slot. */
  lemma {:induction false} FirstFreeStepIsFirst(s: seq<BufferNode>, home: nat, k: nat)
    requires |s| == MAX_BUFFERS && home < MAX_BUFFERS && k <= MAX_BUFFERS
    ensures var r := FirstFreeStep(s, home, k);
            r.Some? ==> forall i :: k <= i < r.value ==> s[Probe(home, i)].occupied
    ensures FirstFreeStep(s, home, k).None? ==> forall i :: k <= i < MAX_BUFFERS ==> s[Probe(home, i)].occupied
    decreases MAX_BUFFERS - k
  {
    if k < MAX_BUFFERS && s[Probe(home, k)].occupied {
      FirstFreeStepIsFirst(s, home, k + 1);
    }
  }

  /** Insertion fails exactly when every one of the 256 slots is occupied. */
  lemma FullIffNoFreeStep(s: seq<BufferNode>, home: nat)
    requires |s| == MAX_BUFFERS && home < MAX_BUFFERS
    ensures FirstFreeStep(s, home, 0).None? <==> forall i :: 0 <= i < MAX_BUFFERS ==> s[i].occupied
  {
    FirstFreeStepIsFirst(s, home, 0);
    if FirstFreeStep(s, home, 0).None? {
      forall i | 0 <= i < MAX_BUFFERS ensures s[i].occupied {
        ProbeCovers(home, i);
      }
    }
  }

  /**
   * What `nano_get_buffer` returns when its do-while is at probe step `k`:
   * the slot holding the key, or nothing once the cycle is complete or the
   * next slot is free.
   */
  function LookupStep(s: seq<BufferNode>, home: nat, key: Key, k: nat): (r: Option<nat>)
    requires |s| == MAX_BUFFERS && home < MAX_BUFFERS && k < MAX_BUFFERS
    ensures r.Some? ==> r.value < MAX_BUFFERS && s[r.value].occupied && KeyOf(s[r.value].entry) == key
    decreases MAX_BUFFERS - k
  {
    if Matches(s[Probe(home, k)], key) then Some(Probe(home, k))
    else if k + 1 == MAX_BUFFERS || !s[Probe(home, k + 1)].occupied then None
    else LookupStep(s, home, key, k + 1)
  }

  /** The first probe step, from `k` on, whose slot is occupied by handle `h`. */
  function HandleStep(s: seq<BufferNode>, home: nat, h: Handle, k: nat): (r: Option<nat>)
    requires |s| == MAX_BUFFERS && home < MAX_BUFFERS && k <= MAX_BUFFERS
    ensures r.Some? ==> k <= r.value < MAX_BUFFERS
    ensures r.Some? ==> s[Probe(home, r.value)].occupied && s[Probe(home, r.value)].entry.buffer == h
    decreases MAX_BUFFERS - k
  {
    if k == MAX_BUFFERS then None
    else if s[Probe(home, k)].occupied && s[Probe(home, k)].entry.buffer == h then Some(k)
    else HandleStep(s, home, h, k + 1)
  }

  /** No step before the one found, and no step at all when none is found, holds the handle. */
  lemma {:induction false} HandleStepIsFirst(s: seq<BufferNode>, home: nat, h: Handle, k: nat)
    requires |s| == MAX_BUFFERS && home < MAX_BUFFERS && k <= MAX_BUFFERS
    ensures var r := HandleStep(s, home, h, k);
            forall i :: k <= i < (if r.Some? then r.value else MAX_BUFFERS) ==>
              !(s[Probe(home, i)].occupied && s[Probe(home, i)].entry.buffer == h)
    decreases MAX_BUFFERS - k
  {
    if k < MAX_BUFFERS && !(s[Probe(home, k)].occupied && s[Probe(home, k)].entry.buffer == h) {
      HandleStepIsFirst(s, home, h, k + 1);
    }
  }

  // ---------------------------------------------------------------------
  // The counters the pool keeps

  function OccupiedCount(s: seq<BufferNode>): nat
  {
    if s == [] then 0 else OccupiedCount(s[..|s| - 1]) + (if s[|s| - 1].occupied then 1 else 0)
  }

  function OccupiedSize(s: seq<BufferNode>): int
  {
    if s == [] then 0 else OccupiedSize(s[..|s| - 1]) + (if s[|s| - 1].occupied then s[|s| - 1].entry.size else 0)
  }

  /** Replacing one node changes both counters by that node's contribution only. */
  lemma {:induction false} CountersAfterUpdate(s: seq<BufferNode>, i: nat, n: BufferNode)
    requires i < |s|
    ensures OccupiedCount(s[i := n]) == OccupiedCount(s) - (if s[i].occupied then 1 else 0) + (if n.occupied then 1 else 0)
    ensures OccupiedSize(s[i := n]) == OccupiedSize(s) - (if s[i].occupied then s[i].entry.size else 0)
                                                       + (if n.occupied then n.entry.size else 0)
  {
    var t := s[i := n];
    assert t[..|t| - 1] == if i == |s| - 1 then s[..|s| - 1] else s[..|s| - 1][i := n];
    if i < |s| - 1 {
      CountersAfterUpdate(s[..|s| - 1], i, n);
    }
  }

  lemma {:induction false} CountersWhenAllFree(s: seq<BufferNode>)
    requires forall i :: 0 <= i < |s| ==> !s[i].occupied
    ensures OccupiedCount(s) == 0 && OccupiedSize(s) == 0
  {
    if s != [] {
      CountersWhenAllFree(s[..|s| - 1]);
    }
  }

  lemma {:induction false} CountBounded(s: seq<BufferNode>)
    ensures OccupiedCount(s) <= |s|
  {
    if s != [] {
      CountBounded(s[..|s| - 1]);
    }
  }

  // ---------------------------------------------------------------------
  // Buffer sizes

  /** `x & ~31` on a 64-bit word clears the five low bits, i.e. subtracts `x % 32`. */
  lemma MaskClearsLowBits(x: bv64)
    ensures x & !31 == x - x % 32
  {
  }

  /**
   * The size `nano_create_buffer` requests: `(size + 31) & ~31` in `size_t`.
   * It is a multiple of 32, and the least one not below `size` unless the
   * addition wraps, in which case it is 0.
   */
  function AlignedSize(size: Size): (r: Size)
    ensures r % CACHE_LINE == 0
    ensures size <= SIZE_LIMIT - CACHE_LINE ==> size <= r < size + CACHE_LINE
    ensures size > SIZE_LIMIT - CACHE_LINE ==> r == 0
  {
    var x := (size + (CACHE_LINE - 1)) % SIZE_LIMIT;
    x - x % CACHE_LINE
  }

  // ---------------------------------------------------------------------
  // The pool

  class Pool {
    const buffers: array<BufferNode>
    /** `buffer_count` and `total_size`: `size_t` counters, so every update wraps modulo 2^64. */
    var bufferCount: Size
    var totalSize: Size

    ghost predicate Valid()
      reads this
    {
      buffers.Length == MAX_BUFFERS
    }

    /** The counters agree, modulo 2^64, with the occupied slots. */
    ghost predicate Consistent()
      reads this, buffers
      requires Valid()
    {
      bufferCount == OccupiedCount(buffers[..]) % SIZE_LIMIT && totalSize == OccupiedSize(buffers[..]) % SIZE_LIMIT
    }

    /** A pool as the zero-initialised global holds it. */
    constructor ()
      ensures Valid() && fresh(buffers) && Consistent()
      ensures forall i :: 0 <= i < MAX_BUFFERS ==> buffers[i] == EMPTY_NODE
    {
      buffers := new BufferNode[MAX_BUFFERS](_ => EMPTY_NODE);
      bufferCount := 0;
      totalSize := 0;
      new;
      CountersWhenAllFree(buffers[..]);
    }

    /** nano_init_buffer_pool: marks every slot free (the records stay) and zeroes the counters. */
    method Init()
      requires Valid()
      modifies this, buffers
      ensures Valid() && Consistent()
      ensures forall i :: 0 <= i < MAX_BUFFERS ==> buffers[i] == old(buffers[i]).(occupied := false)
      ensures bufferCount == 0 && totalSize == 0
    {
      var i := 0;
      while i < MAX_BUFFERS
        invariant 0 <= i <= MAX_BUFFERS
        invariant forall j :: 0 <= j < i ==> buffers[j] == old(buffers[j]).(occupied := false)
        invariant forall j :: i <= j < MAX_BUFFERS ==> buffers[j] == old(buffers[j])
      {
        buffers[i] := buffers[i].(occupied := false);
        i := i + 1;
      }
      bufferCount := 0;
      totalSize := 0;
      CountersWhenAllFree(buffers[..]);
    }

    /**
     * _nano_insert_buffer: stores the record in the first free slot of the
     * probe cycle from its home slot and updates the counters; fails, with
     * nothing changed, when the cycle finds no free slot. Keys are not
     * checked for duplicates.
     */
    method Insert(b: BufferEntry) returns (ok: bool)
      requires Valid() && b.buffer != Null
      modifies this, buffers
      ensures Valid()
      ensures var step := FirstFreeStep(old(buffers[..]), HashBuffer(KeyOf(b)), 0);
              ok == step.Some? &&
              if ok then
                buffers[..] == old(buffers[..])[Probe(HashBuffer(KeyOf(b)), step.value) := BufferNode(b, true)] &&
                bufferCount == (old(bufferCount) + 1) % SIZE_LIMIT &&
                totalSize == (old(totalSize) + b.size) % SIZE_LIMIT
              else
                buffers[..] == old(buffers[..]) && bufferCount == old(bufferCount) && totalSize == old(totalSize)
      ensures old(Consistent()) ==> Consistent()
    {
      var home := HashBuffer(KeyOf(b));
      var step := FindFreeStep(home);
      if step.None? {
        return false;
      }
      var slot := Probe(home, step.value);
      CountersAfterUpdate(buffers[..], slot, BufferNode(b, true));
      WrapAdd(OccupiedCount(buffers[..]), 1);
      WrapAdd(OccupiedSize(buffers[..]), b.size);
      buffers[slot] := BufferNode(b, true);
      bufferCount := (bufferCount + 1) % SIZE_LIMIT;
      totalSize := (totalSize + b.size) % SIZE_LIMIT;
      return true;
    }

    /**
     * The probe loop of _nano_insert_buffer: the first step of the cycle
     * from `home` whose slot is free, if any.
     */
    method FindFreeStep(home: nat) returns (step: Option<nat>)
      requires Valid() && home < MAX_BUFFERS
      ensures step == FirstFreeStep(buffers[..], home, 0)
    {
      ghost var s := buffers[..];
      var hash := home;
      // `k` counts the probes the do-while has made since `original_hash`.
      var k := 0;
      while k < MAX_BUFFERS
        invariant 0 <= k <= MAX_BUFFERS && hash == Probe(home, k)
        invariant FirstFreeStep(s, home, k) == FirstFreeStep(s, home, 0)
      {
        assert buffers[hash] == s[Probe(home, k)];
        if !buffers[hash].occupied {
          return Some(k);
        }
        hash := (hash + 1) % MAX_BUFFERS;
        k := k + 1;
      }
      return None;
    }

    /**
     * nano_get_buffer: the slot of the first record with the key found in
     * the run of occupied slots starting at the home slot (the home slot is
     * always examined), or nothing.
     */
    method Get(shaderId: U32, group: U8, binding: U8) returns (r: Option<nat>)
      requires Valid()
      ensures r == LookupStep(buffers[..], HashBuffer(Key(shaderId, group, binding)), Key(shaderId, group, binding), 0)
      ensures r.Some? ==> r.value < MAX_BUFFERS && buffers[r.value].occupied
                          && KeyOf(buffers[r.value].entry) == Key(shaderId, group, binding)
    {
      var key := Key(shaderId, group, binding);
      var home := HashBuffer(key);
      ghost var s := buffers[..];
      var hash := home;
      var k := 0;
      while true
        invariant 0 <= k < MAX_BUFFERS && hash == Probe(home, k)
        invariant LookupStep(s, home, key, k) == LookupStep(s, home, key, 0)
        decreases MAX_BUFFERS - k
      {
        assert buffers[hash] == s[Probe(home, k)];
        if buffers[hash].occupied && KeyOf(buffers[hash].entry) == key {
          return Some(hash);
        }
        ProbeNext(home, k);
        hash := (hash + 1) % MAX_BUFFERS;
        k := k + 1;
        if !(hash != home && buffers[hash].occupied) {
          return None;
        }
      }
    }

    /**
     * The table update shared by release and destroy: the first slot of the
     * probe cycle whose record holds `b`'s handle is marked free, and the
     * counters drop by one and by `b.size` (the argument's size, not the
     * stored one). Returns whether such a slot was found.
     */
    method Unlink(b: BufferEntry) returns (found: bool)
      requires Valid()
      modifies this, buffers
      ensures Valid()
      ensures var home := HashBuffer(KeyOf(b));
              var step := HandleStep(old(buffers[..]), home, b.buffer, 0);
              found == step.Some? &&
              if found then
                buffers[..] == old(buffers[..])[Probe(home, step.value) := old(buffers[Probe(home, step.value)]).(occupied := false)] &&
                bufferCount == (old(bufferCount) - 1) % SIZE_LIMIT &&
                totalSize == (old(totalSize) - b.size) % SIZE_LIMIT
              else
                buffers[..] == old(buffers[..]) && bufferCount == old(bufferCount) && totalSize == old(totalSize)
      ensures var home := HashBuffer(KeyOf(b));
              var step := HandleStep(old(buffers[..]), home, b.buffer, 0);
              old(Consistent()) && (step.Some? ==> old(buffers[Probe(home, step.value)].entry.size) == b.size)
              ==> Consistent()
    {
      var home := HashBuffer(KeyOf(b));
      var step := FindHandleStep(home, b.buffer);
      if step.None? {
        return false;
      }
      var slot := Probe(home, step.value);
      ghost var count, sum := OccupiedCount(buffers[..]), OccupiedSize(buffers[..]);
      CountersAfterUpdate(buffers[..], slot, buffers[slot].(occupied := false));
      buffers[slot] := buffers[slot].(occupied := false);
      bufferCount := (bufferCount - 1) % SIZE_LIMIT;
      totalSize := (totalSize - b.size) % SIZE_LIMIT;
      if old(Consistent()) && old(buffers[slot].entry.size) == b.size {
        WrapAdd(count, -1);
        WrapAdd(sum, 0 - b.size as int);
        assert OccupiedCount(buffers[..]) == count - 1 && OccupiedSize(buffers[..]) == sum - b.size;
      }
      return true;
    }

    /**
     * The probe loop shared by release and destroy: the first step of the
     * full cycle from `home` whose slot is occupied by handle `h`, if any.
     */
    method FindHandleStep(home: nat, h: Handle) returns (step: Option<nat>)
      requires Valid() && home < MAX_BUFFERS
      ensures step == HandleStep(buffers[..], home, h, 0)
    {
      ghost var s := buffers[..];
      var hash := home;
      var k := 0;
      while k < MAX_BUFFERS
        invariant 0 <= k <= MAX_BUFFERS && hash == Probe(home, k)
        invariant HandleStep(s, home, h, k) == HandleStep(s, home, h, 0)
      {
        assert buffers[hash] == s[Probe(home, k)];
        if buffers[hash].occupied && buffers[hash].entry.buffer == h {
          return Some(k);
        }
        hash := (hash + 1) % MAX_BUFFERS;
        k := k + 1;
      }
      return None;
    }

    /** nano_release_buffer: unlinks the record and releases its GPU buffer if it was found. */
    method Release(b: BufferEntry) returns (call: GpuCall)
      requires Valid()
      modifies this, buffers
      ensures Valid()
      ensures var step := HandleStep(old(buffers[..]), HashBuffer(KeyOf(b)), b.buffer, 0);
              call == (if step.Some? then BufferRelease(b.buffer) else NoCall)
      ensures var home := HashBuffer(KeyOf(b));
              var step := HandleStep(old(buffers[..]), home, b.buffer, 0);
              if step.Some? then
                buffers[..] == old(buffers[..])[Probe(home, step.value) := old(buffers[Probe(home, step.value)]).(occupied := false)] &&
                bufferCount == (old(bufferCount) - 1) % SIZE_LIMIT &&
                totalSize == (old(totalSize) - b.size) % SIZE_LIMIT
              else
                buffers[..] == old(buffers[..]) && bufferCount == old(bufferCount) && totalSize == old(totalSize)
      ensures var home := HashBuffer(KeyOf(b));
              var step := HandleStep(old(buffers[..]), home, b.buffer, 0);
              old(Consistent()) && (step.Some? ==> old(buffers[Probe(home, step.value)].entry.size) == b.size)
              ==> Consistent()
    {
      var found := Unlink(b);
      call := if found then BufferRelease(b.buffer) else NoCall;
    }

    /** nano_destroy_buffer: as release, but destroys the GPU buffer. */
    method Destroy(b: BufferEntry) returns (call: GpuCall)
      requires Valid()
      modifies this, buffers
      ensures Valid()
      ensures var step := HandleStep(old(buffers[..]), HashBuffer(KeyOf(b)), b.buffer, 0);
              call == (if step.Some? then BufferDestroy(b.buffer) else NoCall)
      ensures var home := HashBuffer(KeyOf(b));
              var step := HandleStep(old(buffers[..]), home, b.buffer, 0);
              if step.Some? then
                buffers[..] == old(buffers[..])[Probe(home, step.value) := old(buffers[Probe(home, step.value)]).(occupied := false)] &&
                bufferCount == (old(bufferCount) - 1) % SIZE_LIMIT &&
                totalSize == (old(totalSize) - b.size) % SIZE_LIMIT
              else
                buffers[..] == old(buffers[..]) && bufferCount == old(bufferCount) && totalSize == old(totalSize)
      ensures var home := HashBuffer(KeyOf(b));
              var step := HandleStep(old(buffers[..]), home, b.buffer, 0);
              old(Consistent()) && (step.Some? ==> old(buffers[Probe(home, step.value)].entry.size) == b.size)
              ==> Consistent()
    {
      var found := Unlink(b);
      call := if found then BufferDestroy(b.buffer) else NoCall;
    }

    /**
     * nano_create_buffer, given the handle the device returned for the
     * aligned size: a zero record if the device returned NULL; otherwise the
     * record is inserted, the count and the total size (modulo 2^64, `size_t`) grow,
     * and the record is returned, or, when the pool is full, the new buffer
     * is released and a zero record returned with nothing changed.
     */
    method CreateBuffer(created: Handle, shaderId: U32, group: U8, binding: U8,
                        usage: UsageFlags, size: Size) returns (r: BufferEntry, call: GpuCall)
      requires Valid()
      modifies this, buffers
      ensures Valid()
      ensures var b := BufferEntry(created, true, usage, shaderId, group, binding, AlignedSize(size));
              var step := FirstFreeStep(old(buffers[..]), HashBuffer(KeyOf(b)), 0);
              if created == Null then
                r == ZERO_ENTRY && call == NoCall && buffers[..] == old(buffers[..]) &&
                bufferCount == old(bufferCount) && totalSize == old(totalSize)
              else if step.None? then
                r == ZERO_ENTRY && call == BufferRelease(created) && buffers[..] == old(buffers[..]) &&
                bufferCount == old(bufferCount) && totalSize == old(totalSize)
              else
                r == b && call == NoCall &&
                buffers[..] == old(buffers[..])[Probe(HashBuffer(KeyOf(b)), step.value) := BufferNode(b, true)] &&
                bufferCount == (old(bufferCount) + 1) % SIZE_LIMIT &&
                totalSize == (old(totalSize) + AlignedSize(size)) % SIZE_LIMIT
      ensures old(Consistent()) ==> Consistent()
    {
      if created == Null {
        return ZERO_ENTRY, NoCall;
      }
      var b := BufferEntry(created, true, usage, shaderId, group, binding, AlignedSize(size));
      var ok := Insert(b);
      if !ok {
        return ZERO_ENTRY, BufferRelease(created);
      }
      return b, NoCall;
    }
  }

  // ---------------------------------------------------------------------
  // Properties of the table discipline

  lemma {:induction false} FoundFrom(s: seq<BufferNode>, home: nat, key: Key, j: nat, k: nat)
    requires |s| == MAX_BUFFERS && home < MAX_BUFFERS && k <= j < MAX_BUFFERS
    requires Matches(s[Probe(home, j)], key)
    requires forall i :: k < i <= j ==> s[Probe(home, i)].occupied
    ensures LookupStep(s, home, key, k).Some?
    decreases j - k
  {
    if k < j && !Matches(s[Probe(home, k)], key) {
      FoundFrom(s, home, key, j, k + 1);
    }
  }

  /**
   * A record just inserted can be looked up: the probe run from its home
   * slot reaches its slot without meeting a free slot (an older record with
   * the same key, earlier in the run, may be returned instead).
   */
  lemma {:induction false} InsertThenGet(s: seq<BufferNode>, b: BufferEntry)
    requires |s| == MAX_BUFFERS
    requires FirstFreeStep(s, HashBuffer(KeyOf(b)), 0).Some?
    ensures var home := HashBuffer(KeyOf(b));
            var t := s[Probe(home, FirstFreeStep(s, home, 0).value) := BufferNode(b, true)];
            LookupStep(t, home, KeyOf(b), 0).Some?
  {
    var home := HashBuffer(KeyOf(b));
    var j := FirstFreeStep(s, home, 0).value;
    var t := s[Probe(home, j) := BufferNode(b, true)];
    FirstFreeStepIsFirst(s, home, 0);
    forall i | 0 < i <= j ensures t[Probe(home, i)].occupied {
      ProbeInjective(home, i, j);
    }
    FoundFrom(t, home, KeyOf(b), j, 0);
  }

  /**
   * Release leaves no tombstone: when three records share a home slot and
   * fill the first three probe steps, releasing the middle one makes the
   * third unreachable by lookup although it is still stored and occupied.
   */
  lemma ReleaseHidesLaterRecord(s: seq<BufferNode>, home: nat, a: BufferEntry, b: BufferEntry, c: BufferEntry)
    requires |s| == MAX_BUFFERS && home < MAX_BUFFERS
    requires HashBuffer(KeyOf(b)) == home && HashBuffer(KeyOf(c)) == home
    requires s[Probe(home, 0)] == BufferNode(a, true)
    requires s[Probe(home, 1)] == BufferNode(b, true)
    requires s[Probe(home, 2)] == BufferNode(c, true)
    requires KeyOf(a) != KeyOf(c) && KeyOf(b) != KeyOf(c) && a.buffer != b.buffer
    ensures LookupStep(s, home, KeyOf(c), 0) == Some(Probe(home, 2))
    ensures HandleStep(s, home, b.buffer, 0) == Some(1)
    ensures var t := s[Probe(home, 1) := s[Probe(home, 1)].(occupied := false)];
            t[Probe(home, 2)] == BufferNode(c, true) && LookupStep(t, home, KeyOf(c), 0) == None
  {
    assert LookupStep(s, home, KeyOf(c), 1) == Some(Probe(home, 2));
    assert HandleStep(s, home, b.buffer, 1) == Some(1);
  }
}
