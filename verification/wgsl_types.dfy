/**
 * The data the WGSL scanner produces: capacities, the shader-stage and
 * binding-type enumerations, and the binding and entry-point records with
 * their zero values (the scanner fills records that start zeroed).
 */
module WgslTypes {
  import opened Common

  /** Size of the identifier buffers, terminator included. */
  const MAX_IDENT_LENGTH: nat := 256
  /** Capacity of both `bindings` and `entry_points`. */
  const MAX_ENTRIES: nat := 3
  const MAX_GROUPS: nat := 4
  const MAX_BINDINGS: nat := 16
  /** Size of a binding's `data_type` buffer, terminator included. */
  const DATA_TYPE_LENGTH: nat := 32

  /** The shader stage of an entry point; `Unset` is the zero value NONE. */
  datatype ShaderType = Unset | ComputeStage | VertexStage | FragmentStage

  /** The kind of a binding; `Buffer` is the zero value. */
  datatype BindingType = Buffer | Texture | StorageTexture

  datatype WorkgroupSize = WorkgroupSize(x: U8, y: U8, z: U8)

  /**
   * A resource binding. `group` and `binding` are C `int`s; the usage flags
   * are meaningful for buffers only.
   */
  datatype BindingInfo = BindingInfo(group: int, binding: int, shaderId: U32, bindingType: BindingType,
                                     bufferUsage: UsageFlags, dataType: string, name: string)

  datatype EntryPoint = EntryPoint(entry: string, stage: ShaderType, workgroupSize: WorkgroupSize)

  /** A zeroed entry-point slot, as in a zero-initialised ShaderInfo. */
  const ZERO_ENTRY_POINT: EntryPoint := EntryPoint("", Unset, WorkgroupSize(0, 0, 0))

  /** The strings of a record fit the fixed buffers they are copied into. */
  predicate BindingFits(b: BindingInfo)
  {
    |b.dataType| < DATA_TYPE_LENGTH && |b.name| < MAX_IDENT_LENGTH
  }

  predicate EntryPointFits(e: EntryPoint)
  {
    |e.entry| < MAX_IDENT_LENGTH
  }

  /** What the fixed arrays of ShaderInfo can hold without writing out of bounds. */
  predicate InfoFits(bindings: seq<BindingInfo>, entryPoints: seq<EntryPoint>)
  {
    |bindings| <= MAX_ENTRIES && |entryPoints| <= MAX_ENTRIES &&
    (forall i :: 0 <= i < |bindings| ==> BindingFits(bindings[i])) &&
    (forall i :: 0 <= i < |entryPoints| ==> EntryPointFits(entryPoints[i]))
  }
}
