/**
 * Types shared by every part of the model: optional values, the C integer
 * widths that matter, opaque WebGPU object handles and the buffer usage
 * flag set.
 */
module Common {

  datatype Option<T> = None | Some(value: T)

  /** 2^8 and 2^32: the moduli of `uint8_t` and `uint32_t` arithmetic. */
  const U8_LIMIT: int := 0x100
  const U32_LIMIT: int := 0x1_0000_0000
  /** 2^64: the modulus of `size_t` arithmetic on the 64-bit targets. */
  const SIZE_LIMIT: int := 0x1_0000_0000_0000_0000

  type U8 = x: int | 0 <= x < U8_LIMIT
  type U32 = x: int | 0 <= x < U32_LIMIT
  type Size = x: int | 0 <= x < SIZE_LIMIT

  /** Reducing modulo 2^64 before or after an addition gives the same `size_t` value. */
  lemma WrapAdd(a: int, x: int)
    ensures (a % SIZE_LIMIT + x) % SIZE_LIMIT == (a + x) % SIZE_LIMIT
  {
    var q := a / SIZE_LIMIT;
    assert a == SIZE_LIMIT * q + a % SIZE_LIMIT;
    WrapShift(a % SIZE_LIMIT + x, q);
  }

  lemma WrapShift(y: int, q: int)
    ensures (y + SIZE_LIMIT * q) % SIZE_LIMIT == y % SIZE_LIMIT
  {
  }

  const U32_MAX: U32 := U32_LIMIT - 1

  /**
   * An opaque WebGPU object (WGPUBuffer, WGPUTexture, WGPUDevice, ...):
   * either NULL or some object, told apart by an identity.
   */
  datatype Handle = Null | Obj(id: nat)

  /**
   * The WGPUBufferUsage bits. A flag word is the set of bits it has on;
   * `a | b` is set union and `(f & B) != 0` is membership.
   */
  datatype Usage = MapRead | MapWrite | CopySrc | CopyDst | Index | Vertex
                 | Uniform | Storage | Indirect | QueryResolve

  type UsageFlags = set<Usage>

  /**
   * A release list after one `if (h) { release(h); h = NULL; }` check: a
   * non-NULL handle is released, NULL is skipped.
   */
  function Release(released: seq<Handle>, h: Handle): (r: seq<Handle>)
    ensures forall x :: x in r <==> x in released || (x == h && h != Null)
  {
    if h == Null then released else released + [h]
  }
}
