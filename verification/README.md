# nano: a Dafny model of the WebGPU compute helper and its platform layers

nano is a single-header C library for WebGPU compute and ImGui rendering.
This project models its core:

- **nano.h.** The 256-slot buffer pool with linear probing, the 16-slot
  compute-shader pool, the FNV-1a hash that turns a shader path into a
  shader id, and the parser of the usage words of a binding.
- **wgsl-parser.c.** The WGSL scanner: a cursor over the shader text that
  collects the `@group/@binding` declarations and the
  `@compute/@vertex/@fragment` entry points into a `ShaderInfo`.
- **nano_cimgui.h.** The nano ImGui backend: the keycode-to-ImGui-key
  switch, the key-repeat filter, the mouse-button remap, the growth of the
  vertex and index buffers, the draw-data upload with its pass commands,
  and the release of the device objects.
- **wgpu_entry.h.** The browser platform layer: the `KeyboardEvent.code`
  table, the keyboard and mouse handlers, and the `wgpu_state_t`
  lifecycle. That lifecycle covers start, the adapter and device
  callbacks, the frame gate, and the creation and release of the swapchain
  and its attachments.
- **nano_native.h.** The GLFW platform layer: the key and mouse callbacks,
  and the same lifecycle. There the surface and its attachments take the
  place of the swapchain.

**How state is modelled.**

- Code that updates state in place is a Dafny class with a method per
  operation: the pools, the backend data, the parser cursor and both
  `wgpu_state_t`s. A fixed table (the pools, ImGui's `MouseDown`, the
  backend's per-key arrays) is an `array`.
- Each method is proved against a specification function, or states the
  whole new state.
- The pure parts are functions with lemmas: the hash, the usage words,
  what each scanner routine reads, the key tables, the event routing and
  the upload offsets.

**Boundaries.**

- A WebGPU object is an opaque `Handle` (NULL or an identity).
- A call into application or ImGui code is an entry in a `Call` trace.
- Clock readings, the objects the device returns and the outcomes of
  asynchronous requests are parameters.
- A C `assert` of the platform layers that fails ends the program; the
  methods that run one report it as an `aborted` result.
- The `size_t` counters of the pools wrap modulo 2^64.

## Model

| member | source | states |
|---|---|---|
| Common.Release | nano_native.h:669-698 | after one `if (h) { release(h); h = NULL; }` a handle is in the release list exactly when it was there before or is the non-NULL handle checked |
| BufferPool.HashBuffer | nano.h:240-242 | the home slot is below 256 and equals the `uint32_t` expression reduced mod 256; the 2^32 wrap-around never changes the slot |
| BufferPool.ProbeIsMod | nano.h:251-264 | `k` probe steps from the home slot land on `(home + k) mod 256` |
| BufferPool.ProbeNext | nano.h:262-263 | the do-while gets back to its starting slot after exactly 256 steps and not before |
| BufferPool.ProbeCovers | nano.h:251-264 | every one of the 256 slots is visited by some step of one probe cycle |
| BufferPool.FirstFreeStepIsFirst | nano.h:251-264 | the step insertion stores at is free, and every earlier step holds an occupied slot; when none is found, all are occupied |
| BufferPool.FullIffNoFreeStep | nano.h:266-268 | insertion finds no slot exactly when all 256 slots are occupied |
| BufferPool.HandleStepIsFirst | nano.h:353-363 | release/destroy pick the first slot of the probe cycle occupied by the buffer's handle; no earlier slot holds it, and when none does, no slot does |
| BufferPool.CountersAfterUpdate | nano.h:254-257 | changing one slot changes `buffer_count` and `total_size` by that slot's contribution only |
| BufferPool.AlignedSize | nano.h:299-301 | the requested size is a multiple of 32; it is the least such size not below `size`, unless `size + 31` wraps in `size_t`, which gives 0 |
| BufferPool.Pool.constructor | nano.h:167-171 | the zero-initialised global pool: every slot is free with a zero record, and the counters are 0 |
| BufferPool.Pool.Init | nano.h:230-236 | every slot is marked free with its record left in place, and both counters become 0 |
| BufferPool.Pool.Insert | nano.h:245-269 | success exactly when a slot is free; the record goes to the first free slot of its probe cycle, the counters grow by one and by its size, and nothing else changes; on failure nothing changes |
| BufferPool.Pool.FindFreeStep | nano.h:251-264 | the probe loop returns the first free step of the cycle from the home slot, or none |
| BufferPool.Pool.Get | nano.h:274-292 | the result is the slot of the first record with the key in the run of occupied slots from the home slot (the home slot is always looked at), or none |
| BufferPool.Pool.Unlink | nano.h:345-364 | the first slot whose record holds the handle is marked free; the `size_t` counters drop by one and by the argument's size (not the stored one), wrapping modulo 2^64; the call fails when no slot holds the handle |
| BufferPool.Pool.FindHandleStep | nano.h:351-363 | the probe loop of release/destroy returns the first step of the full cycle whose slot holds the handle |
| BufferPool.Pool.Release | nano.h:345-364 | unlinks the record, with both `size_t` counters wrapping modulo 2^64; the GPU buffer is released exactly when a slot held it; a consistent pool stays consistent when the size passed in is the stored one |
| BufferPool.Pool.Destroy | nano.h:367-386 | as release (the same wrapping counter updates, and consistency kept under the same condition), but the GPU buffer is destroyed |
| BufferPool.Pool.CreateBuffer | nano.h:296-342 | a NULL device buffer gives a zero record and no change; otherwise the aligned record is inserted at the first free slot of its probe cycle and returned, and the buffer count and total size grow by one and by the aligned size, both modulo 2^64 (`size_t`); when the pool is full, the new buffer is released, a zero record returned and the table and counters are unchanged |
| BufferPool.InsertThenGet | nano.h:245-292 | a record just inserted is found by lookup with its key: the probe run from its home slot reaches it without meeting a free slot |
| BufferPool.ReleaseHidesLaterRecord | nano.h:345-364 | release leaves no tombstone: after the middle one of three colliding records is released, the third is still stored and occupied, yet lookup returns nothing for it |
| ShaderPool.HashShaderId | nano.h:393-395 | the home slot is `id mod 16` |
| ShaderPool.SlotIsMod | nano.h:413-422 | `k` probe steps from the home slot land on `(home + k) mod 16` |
| ShaderPool.SlotCovers | nano.h:413-422 | every slot is visited within the 16 steps of the scan |
| ShaderPool.FindStepIsFirst | nano.h:413-422 | the slot found is usable for the id (free, or holding that id), and no earlier slot of the scan is |
| ShaderPool.FullIffNoSlot | nano.h:408-424 | the result is -1 exactly when all 16 records are in use with other ids |
| ShaderPool.FoundSlotOfStoredId | nano.h:408-424 | in a create-only pool (every record in use lies behind records in use with other ids on its own scan), a shader already in the pool is found in its own slot |
| ShaderPool.StoreKeepsCreateOnly | nano.h:408-424 | writing a record in use into the slot found for its id, as create does, keeps the pool create-only |
| ShaderPool.InUseAfterUpdate | nano.h:436-446 | changing one record changes the count of records in use by that record's contribution only |
| ShaderPool.Pool.constructor | nano.h:185-188 | the zero-initialised global pool: all records zero and free, the count 0, and the pool create-only |
| ShaderPool.Pool.Init | nano.h:399-405 | every occupied flag is cleared (records stay) and the count is 0; a create-only pool stays create-only |
| ShaderPool.Pool.FindSlot | nano.h:408-424 | the scan returns the first slot from `id mod 16` that is free or holds the id, and -1 for a full pool |
| ShaderPool.Pool.Get | nano.h:427-434 | the found slot, which may be an empty one, or none for a full pool |
| ShaderPool.Pool.Release | nano.h:436-446 | zeroes the found slot and releases the pipeline it held (NULL for an empty slot); the `size_t` count drops by one modulo 2^64 whether or not the slot held a record, so releasing an empty slot leaves the count one below the records in use, and on a count of 0 it wraps to `SIZE_MAX` |
| ShaderPool.Pool.StoreShader | nano.h:739-879 | a full pool or a NULL pipeline gives 0 and no change; otherwise the record is written into the found slot, the count rises by one and the id is returned; re-creating a stored id raises the count without adding a record, and the old pipeline is never released, because no slot is ever marked occupied; a create-only pool stays create-only, so every id stored by create alone is found again |
| NanoUtil.HashString | nano.h:450-457 | `fnv1a_32` as written hashes only the bytes at even indices, in order, and stops at the first even index holding the terminator |
| NanoUtil.EvenIndexedAt | nano.h:452-455 | the bytes hashed are exactly those at indices 0, 2, 4, ... of the string |
| NanoUtil.FnvStepInjective | nano.h:453-454 | one FNV step is injective in the byte it absorbs |
| NanoUtil.Fnv1aSeesLastByte | nano.h:450-457 | the corrected FNV-1a gives different hashes for two strings that differ only in their last byte |
| NanoUtil.SkippedByteCollision | nano.h:450-457 | as written, "ab" and "ac" get the same shader id, although their FNV-1a hashes differ |
| NanoUtil.TokensAreWords | nano.h:604-615 | every token `strtok(…, ", ")` returns is non-empty and holds neither ',' nor ' ' |
| NanoUtil.TokensUsageExactly | nano.h:605-614 | a usage flag is set exactly when some token is a word that sets it: `storage`, `uniform`, `read_write` (CopySrc and CopyDst) or `read` (CopySrc); every other word adds nothing |
| NanoUtil.TokenFlags | nano.h:603-615 | the `strtok` loop yields the union of the flags of the words of the string it tokenises |
| NanoUtil.CopiedText | nano.h:598-600 | after the unterminated `strncpy` into the 51-byte `usage_copy`, `strtok` reads the usage followed by the stale bytes up to the first NUL among them; there is no such string (the read leaves the array) when the usage has 51 or more characters or no stale byte after it is NUL |
| NanoUtil.BufferUsageAsWritten | nano.h:588-618 | as written: no binding gives no flags; otherwise the result is undefined exactly when the read runs past `usage_copy` (the usage has 51 or more characters, or no stale byte after it is NUL), and else it is the flags of the words of the copied text |
| NanoUtil.TerminatedCopyIsUsage | nano.h:598-600 | when the stale byte right after the usage is NUL, the copy reads as the usage string itself |
| NanoUtil.LongUsageRunsPastCopy | nano.h:598-600 | a usage of 51 or more characters leaves no NUL inside `usage_copy` (at exactly 51 the copy fills the array, and from 52 on it also writes past it), so the read runs past the array and the result is undefined |
| NanoUtil.StaleByteDropsStorage | nano.h:598-615 | with the stale bytes 'x' and NUL after "storage", the word read is "storagex", which sets no flag, while the usage string asks for Storage |
| NanoUtil.BufferUsage | nano.h:588-618 | corrected: no binding gives no flags; otherwise the result is the union of the flags of the tokens of the whole usage string, as a terminated copy would give |
| WgslSpec.RunEndStops | include/wgsl-parser/wgsl-parser.c:15-19 | a character-class loop stops at the first character outside the class |
| WgslSpec.RunEndSpan | include/wgsl-parser/wgsl-parser.c:15-19 | every character such a loop passes over is in the class |
| WgslSpec.NumberReadsDecimalText | include/wgsl-parser/wgsl-parser.c:21-27 | `parse_number` reads back the numeral `%d` prints: its value, with the cursor right after it |
| WgslSpec.NumberOverflowsInt | include/wgsl-parser/wgsl-parser.c:21-27 | the numeral 2147483648 is read whole with no bound check, and its value exceeds `INT_MAX`, the largest value of the `int` it is accumulated in |
| WgslSpec.DecimalValueOfText | include/wgsl-parser/wgsl-parser.c:21-27 | the digit value of a printed numeral is the number printed |
| WgslSpec.Identifier | include/wgsl-parser/wgsl-parser.c:29-47 | an identifier holds at most 255 characters and the cursor moves by its length |
| WgslSpec.IdentifierChars | include/wgsl-parser/wgsl-parser.c:29-47 | the identifier is the text at the cursor, character by character, all of the word class (with '<' and '>' for a type) |
| WgslSpec.IdentifierStops | include/wgsl-parser/wgsl-parser.c:29-47 | an identifier shorter than the buffer allows ends at a character outside its class |
| WgslSpec.IdentifierReadsWord | include/wgsl-parser/wgsl-parser.c:29-47 | conversely, a word followed by a non-word character is read back whole |
| WgslSpec.StorageClass | include/wgsl-parser/wgsl-parser.c:49-77 | the flags hold at most one class flag (Uniform or Storage) plus access flags, and the cursor never moves back |
| WgslSpec.StorageClassSteps | include/wgsl-parser/wgsl-parser.c:49-77 | over a class word, ',' and an access word, the flags are the union of what each word contributes (`write` gives CopyDst) |
| WgslSpec.QualifierRoundTrip | include/wgsl-parser/wgsl-parser.c:264-283 | for every flag set the scanner produces, wherever the `<class, access>` qualifier printed as `print_shader_info` does stands in a text, scanning it from after the '<' gives the same flags and stops at the '>' |
| WgslSpec.BindingTypeAt | include/wgsl-parser/wgsl-parser.c:90-103 | the binding type is read from the first word after the blanks, and the cursor never moves back |
| WgslSpec.ParenNumber | include/wgsl-parser/wgsl-parser.c:114-117 | `(n)` is read with '(' and ')' skipped unchecked; the cursor always advances |
| WgslSpec.VarDeclaration | include/wgsl-parser/wgsl-parser.c:136-175 | the record carries the group, binding and shader id it was given, is a buffer with producible flags, and its name fits the buffer |
| WgslSpec.NamedVar | include/wgsl-parser/wgsl-parser.c:141-175 | from the '>' on, the record keeps group, binding and id, and the name fits the buffer |
| WgslSpec.TypedVar | include/wgsl-parser/wgsl-parser.c:157-175 | by the binding type read: a buffer keeps its flags and gets a data type of under 256 characters; the texture cases set no usage and no data type; group, binding, id and name are kept |
| WgslSpec.BindingAt | include/wgsl-parser/wgsl-parser.c:106-176 | the cursor always advances; a record, when there is one, carries the shader id, is a buffer, and its name fits the `name` field; the data type is only bounded by the 255-character identifier limit, not by `data_type[32]` |
| WgslSpec.BindingAfterGroup | include/wgsl-parser/wgsl-parser.c:114-176 | from the group number on: the cursor advances, and a record carries the shader id, is a buffer, its name fits the `name` field, and its data type is under 256 characters (not bounded by `data_type[32]`) |
| WgslSpec.BindingAfterIndex | include/wgsl-parser/wgsl-parser.c:125-176 | from the binding number on: the cursor advances, and a record carries the shader id and the given group, is a buffer, its name fits the `name` field, and its data type is under 256 characters (not bounded by `data_type[32]`) |
| WgslSpec.NumberAt | include/wgsl-parser/wgsl-parser.c:21-27 | a numeral standing anywhere in a text and followed by a non-digit is read whole: its digit value, with the cursor right after it |
| WgslSpec.ParenNumberAt | include/wgsl-parser/wgsl-parser.c:114-119 | `(d) ` followed by a non-blank: the number is d's value, the ')' is skipped and the blank after it is skipped up to the next token |
| WgslSpec.TypeAt | include/wgsl-parser/wgsl-parser.c:90-103 | a type whose first word is not `texture` or `storage_texture` gives a buffer that keeps its flags, and the data type is exactly the type characters after that first word |
| WgslSpec.BindingReadsBack | include/wgsl-parser/wgsl-parser.c:106-176 | for every group and binding number, every flag set the scanner can produce, every name word and every buffer type `w x`, the text `@group(g) @binding(b) var<class, access> n : w x` is read back as the buffer record with exactly that group, binding, shader id, flags and name, with data type `x` (what follows the type's first word), and the cursor stops where the rest of the text begins |
| WgslSpec.BindingWithoutBindingKeyword | include/wgsl-parser/wgsl-parser.c:114-122 | `@group(g)` followed by anything but `@binding` records nothing |
| WgslSpec.BindingWithoutVarKeyword | include/wgsl-parser/wgsl-parser.c:125-133 | `@group(g) @binding(b)` followed by anything but `var` records nothing |
| WgslSpec.WorkgroupArgs | include/wgsl-parser/wgsl-parser.c:206-214 | one to three numbers are read, and the cursor advances |
| WgslSpec.Component | include/wgsl-parser/wgsl-parser.c:207-224 | a stored workgroup size is at least 1; a parsed number that is non-zero mod 256 is kept mod 256 (the field is `uint8_t`) |
| WgslSpec.EntryPointAt | include/wgsl-parser/wgsl-parser.c:178-232 | the cursor always advances; an entry point, when there is one, has a stage, a name that fits, and all three workgroup sizes at least 1 |
| WgslSpec.ArgsTextAt | include/wgsl-parser/wgsl-parser.c:205-214 | `(x,y,z)` written without blanks is read as the three numbers, and the cursor stops right after the ')' |
| WgslSpec.EntryReadsBack | include/wgsl-parser/wgsl-parser.c:178-232 | for every stage word, every workgroup size and every name word, `@stage @workgroup_size(x,y,z) fn n` is read back as an entry point with that stage and name, each size kept modulo 256 with 0 stored as 1, and the cursor stops where the rest of the text begins |
| WgslSpec.PlainEntryReadsBack | include/wgsl-parser/wgsl-parser.c:178-232 | `@stage fn n` is read back as an entry point with that stage and name and workgroup size 1 in every dimension |
| WgslSpec.RoundAt | include/wgsl-parser/wgsl-parser.c:235-258 | a round advances the cursor and finds at most one record: a binding, or an entry point |
| WgslSpec.ShaderFrom | include/wgsl-parser/wgsl-parser.c:235-258 | the scan ends at a NUL, only appends to the lists it is given, and stamps every new binding with the shader id |
| WgslSpec.TrailingWhitespaceReadsPastEnd | include/wgsl-parser/wgsl-parser.c:235-258 | a text ending in whitespace makes the last round step over the terminator, so the loop test reads the byte after it |
| WgslSpec.BindingCapacityUnchecked | include/wgsl-parser/wgsl-parser.c:151 | with the 3 binding slots taken, one more binding is appended, past what ShaderInfo holds |
| WgslSpec.EntryPointCapacityUnchecked | include/wgsl-parser/wgsl-parser.c:189 | with the 3 entry-point slots taken, one more entry point is appended |
| WgslSpec.ShaderFromCapped | include/wgsl-parser/wgsl-parser.c:151 | parse_shader with the slot check the fixed arrays call for: never more than 3 bindings and 3 entry points, ending at the NUL |
| WgslSpec.CappedKeepsFirstEntries | include/wgsl-parser/wgsl-parser.c:235-258 | the capped parse keeps exactly the first 3 bindings and the first 3 entry points the parse as written finds, in order |
| WgslSpec.BindingsIgnoreEntryPoints | include/wgsl-parser/wgsl-parser.c:235-258 | the bindings collected do not depend on the entry points collected beside them |
| WgslSpec.EntryPointsIgnoreBindings | include/wgsl-parser/wgsl-parser.c:235-258 | the entry points collected do not depend on the bindings collected beside them |
| WgslSpec.LongTypeOverflowsDataType | include/wgsl-parser/wgsl-parser.h:117 | a run of 32 type characters gives a data type the 32-byte `data_type` field cannot hold |
| WgslSpec.OneArgumentSkipsNextChar | include/wgsl-parser/wgsl-parser.c:206-215 | with one workgroup number, the ',' test consumes the ')' and the ')' skip consumes the next character |
| WgslSpec.ComputeEntryWithoutName | include/wgsl-parser/wgsl-parser.c:178-232 | `@compute @workgroup_size(…)` with no `fn` after it gives an entry point with an empty name |
| WgslSpec.AdjacentFnLosesEntryName | include/wgsl-parser/wgsl-parser.c:206-231 | for `@compute @workgroup_size(n)fn main` the 'f' is skipped as if it were ')', so the entry point is recorded without its name, with x size n mod 256 (0 becomes 1) |
| WgslParser.ShaderInfo.constructor | include/wgsl-parser/wgsl-parser.h:141-167 | a zeroed ShaderInfo carrying the id, with no bindings and no entry points |
| WgslParser.Parser.constructor | include/wgsl-parser/wgsl-parser.c:4-7 | the cursor is at 0 of the given text |
| WgslParser.Parser.IsEof | include/wgsl-parser/wgsl-parser.c:13 | end of input exactly when the cursor sees NUL |
| WgslParser.Parser.Next | include/wgsl-parser/wgsl-parser.c:11 | returns the character under the cursor and moves it one place on |
| WgslParser.Parser.SkipWhitespace | include/wgsl-parser/wgsl-parser.c:15-19 | the cursor moves to the end of the whitespace run |
| WgslParser.Parser.ParseNumber | include/wgsl-parser/wgsl-parser.c:21-27 | the loop computes the value of the digit run and leaves the cursor after it |
| WgslParser.Parser.ParseIdentifier | include/wgsl-parser/wgsl-parser.c:29-47 | the loop copies the identifier and leaves the cursor where the specification says |
| WgslParser.Parser.ParseStorageClassAndAccess | include/wgsl-parser/wgsl-parser.c:49-77 | computes the qualifier's flags and end position |
| WgslParser.Parser.ParseBindingType | include/wgsl-parser/wgsl-parser.c:90-103 | computes the binding type and end position |
| WgslParser.Parser.ParseParenNumber | include/wgsl-parser/wgsl-parser.c:125-128 | computes `(n)` and its end position |
| WgslParser.Parser.ParseVarDeclaration | include/wgsl-parser/wgsl-parser.c:136-175 | computes the declaration record and its end position |
| WgslParser.Parser.ParseNamedVar | include/wgsl-parser/wgsl-parser.c:141-175 | computes the record from '>' on |
| WgslParser.Parser.ParseTypedVar | include/wgsl-parser/wgsl-parser.c:157-172 | computes the type part of the record |
| WgslParser.Parser.ParseBinding | include/wgsl-parser/wgsl-parser.c:106-176 | appends exactly the binding the specification finds, if any, leaves the entry points alone, and moves the cursor to its end |
| WgslParser.Parser.ParseGroupAndBinding | include/wgsl-parser/wgsl-parser.c:114-176 | the same, from the group number on |
| WgslParser.Parser.ParseIndexAndDeclaration | include/wgsl-parser/wgsl-parser.c:125-176 | the same, from the binding number on |
| WgslParser.Parser.ParseVarAndAppend | include/wgsl-parser/wgsl-parser.c:136-175 | the declaration is appended to the bindings |
| WgslParser.Parser.ParseEntryPoint | include/wgsl-parser/wgsl-parser.c:178-232 | appends exactly the entry point the specification finds, if any, and leaves the bindings alone |
| WgslParser.Parser.ParseWorkgroupClause | include/wgsl-parser/wgsl-parser.c:201-216 | computes the optional workgroup clause |
| WgslParser.Parser.ParseWorkgroupArgs | include/wgsl-parser/wgsl-parser.c:206-214 | computes the workgroup numbers |
| WgslParser.Parser.ParseEntryName | include/wgsl-parser/wgsl-parser.c:226-231 | computes the optional entry name |
| WgslParser.Parser.ParseRound | include/wgsl-parser/wgsl-parser.c:236-256 | one loop round appends what the specification's round finds |
| WgslParser.Parser.ParseShader | include/wgsl-parser/wgsl-parser.c:235-258 | the whole loop leaves the lists equal to the specification's scan, appended to what they held |
| CimguiKeys.NoKeyIffUnmapped | include/nano_cimgui.h:978-1193 | the switch returns ImGuiKey_None exactly for codes outside the enumeration, INVALID, WORLD_1/2 and F13 to F25 |
| CimguiKeys.MappedInjective | include/nano_cimgui.h:978-1193 | two different mapped keycodes never give the same ImGui key |
| CimguiBackend.Io.constructor | include/nano_cimgui.h:936-948 | five mouse slots, none down, and an empty key-event queue |
| CimguiBackend.ReleaseAlwaysSent | include/nano_cimgui.h:922-927 | a release is always forwarded and leaves the press stamp alone |
| CimguiBackend.PressAfterReleaseSent | include/nano_cimgui.h:912-918 | the first press after a release is always forwarded |
| CimguiBackend.RepeatThrottled | include/nano_cimgui.h:912-918 | once a press is forwarded, a press report no more than the repeat rate later is dropped; one later than that is forwarded |
| CimguiBackend.MouseSlotSwap | include/nano_cimgui.h:936-948 | buttons 0 to 2 map onto slots 0 to 2 by an involution that swaps right and middle; every other button is ignored |
| CimguiBackend.ProcessMousePress | include/nano_cimgui.h:936-948 | only the remapped slot changes, to the pressed state; an ignored button changes nothing |
| CimguiBackend.Invalidated | include/nano_cimgui.h:847-894 | with a device every handle is NULL and both sizes 0 afterwards; without one nothing changes |
| CimguiBackend.InvalidateIdempotent | include/nano_cimgui.h:847-894 | invalidating twice equals invalidating once; the second pass releases nothing; exactly the non-NULL handles are released |
| CimguiBackend.Backend.Init | include/nano_cimgui.h:288-357 | after the memset the stored context is lost; the key arrays are zero; the repeat timings are 0.5/0.1; the frame count is taken mod 2^32 and the sample count mod 2^8; the frame index is UINT32_MAX; no device object exists; and the buffer sizes are 5000/10000 |
| CimguiBackend.Backend.ProcessKeyEvent | include/nano_cimgui.h:896-929 | a key outside 0..511 or without an ImGui key changes nothing; otherwise the repeat filter decides the event queued, and the key's slot is updated |
| CimguiBackend.Backend.InvalidateDeviceObjects | include/nano_cimgui.h:847-894 | the device objects become their invalidated values, and the release list is the non-NULL handles in release order |
| CimguiBackend.Backend.Shutdown | include/nano_cimgui.h:360-381 | invalidation, then the queue is released; the device is dropped and the frame counters reset |
| CimguiBackend.Backend.GrowBuffers | include/nano_cimgui.h:424-456 | a missing or too small buffer is destroyed if present and replaced with capacity plus headroom; afterwards each capacity covers the count, so the padded upload fits |
| CimguiBackend.Backend.RenderDrawData | include/nano_cimgui.h:415-545 | a minimised window draws nothing; otherwise the upload is every list's vertices and indices concatenated, sized by the 4-byte padding, fitting the buffers, and the pass commands are those of the lists at their running offsets; a missing or too small buffer is destroyed (when present) and replaced by the device's new one at the count plus 5000 vertices or 10000 indices, and an adequate buffer stays as it was |
| CimguiDraw.PaddedBytes | include/nano_cimgui.h:422-425 | the padded size is a multiple of 4 and at most 3 bytes above the byte count |
| CimguiDraw.PaddedBytesMonotone | include/nano_cimgui.h:422-456 | a larger count never gets a smaller padded size |
| CimguiDraw.FlattenPrefix | include/nano_cimgui.h:464-472 | copying more lists only extends what was copied before |
| CimguiDraw.FlattenAt | include/nano_cimgui.h:464-472 | list `n` sits in the upload at the sum of the sizes before it, element for element |
| CimguiDraw.MemCopy | include/nano_cimgui.h:466-469 | the source is written at the offset and the rest of the destination is unchanged |
| CimguiDraw.CopyDrawLists | include/nano_cimgui.h:458-472 | the staging buffers start with the concatenation of all the lists' vertices and indices |
| CimguiDraw.ListCommandsBounded | include/nano_cimgui.h:517-540 | one list issues at most one pass command per draw command |
| CimguiDraw.DrawReadsOwnList | include/nano_cimgui.h:535-544 | a draw's first index plus `j` addresses element IdxOffset + `j` of its own list in the upload, and its base vertex addresses its own list's vertices |
| CimguiDraw.IssueListCommands | include/nano_cimgui.h:517-540 | the command loop of one list issues the specified commands |
| CimguiDraw.IssueCommands | include/nano_cimgui.h:511-544 | the outer loop issues every list's commands at the running global offsets |
| Platform.Defaulted | include/wgpu_entry.h:223-237 | the sample count is at least 1; a non-zero count is kept; nothing else changes |
| Platform.DepthFormat | include/wgpu_entry.h:295-301 | the browser layer's depth format, also the one meant for the GLFW layer: Undefined exactly when depth is turned off, else Depth32FloatStencil8 |
| Platform.DefaultedIdempotent | include/wgpu_entry.h:223-237 | defaulting twice is the same as defaulting once |
| Platform.InitBeforeFramesAppend | include/wgpu_entry.h:859-872 | a trace where the frame callback never precedes init keeps that order when calls are appended after init has run, or when no frame call is appended |
| WebEntry.LookupFindsFirst | include/wgpu_entry.h:564-574 | a code string is recognised exactly when some row of the table holds it, and it gets the code of the first such row |
| WebEntry.TranslateKey | include/wgpu_entry.h:564-574 | the scan over `emsc_keymap` returns what the table lookup gives |
| WebEntry.KeyCalls | include/wgpu_entry.h:594-605 | a recognised key goes to the application callback if set, and to ImGui if built in |
| WebEntry.CharCalls | include/wgpu_entry.h:609-621 | a single printable character goes to the character callback if set, and to ImGui if built in |
| WebEntry.KeyDown | include/wgpu_entry.h:576-624 | F11 only toggles fullscreen; otherwise the event is consumed exactly when no Ctrl, Alt or Meta is held; no key-up or frame call is ever made |
| WebEntry.KeyDownForwardsKey | include/wgpu_entry.h:576-605 | the key calls are made exactly when the event is routed and its code is in the table, always as a press |
| WebEntry.KeyDownForwardsChar | include/wgpu_entry.h:576-621 | the character calls are made exactly when the event is routed and its key is one printable ASCII character |
| WebEntry.KeyUpAsWritten | include/wgpu_entry.h:626-644 | as written, a recognised release reaches the application through the key-down callback; the key-up callback is never called |
| WebEntry.KeyUp | include/wgpu_entry.h:626-644 | corrected: a recognised release reaches the key-up callback and ImGui as a release, never the key-down callback |
| WebEntry.KeyUpReportsPress | include/wgpu_entry.h:626-644 | releasing Backspace is `[KeyDownCb(BACKSPACE)]` as written and `[KeyUpCb(BACKSPACE)]` corrected |
| WebEntry.MouseButton | include/wgpu_entry.h:661-694 | buttons 0 to 2 go to the callback for their direction and to ImGui; others are dropped; the event is always consumed |
| WebEntry.DiscardReleased | include/wgpu_entry.h:990-1012 | exactly the non-NULL attachments and the swapchain are released |
| WebEntry.WebState.Start | include/wgpu_entry.h:223-237 | the description with the sample count defaulted, opaque black, the size the CSS size of the canvas truncated to whole pixels (`emsc_update_canvas_size`, include/wgpu_entry.h:881 and 480-486), the instance, nothing else created, no ImGui data, and an empty trace |
| WebEntry.WebState.RequestAdapterCb | include/wgpu_entry.h:839-857 | a failure marks the setup failed, yet the adapter is stored and a device requested all the same |
| WebEntry.WebState.RequestDeviceCb | include/wgpu_entry.h:788-837 | a failed request or a missing surface marks the setup failed with no init call and leaves the render format, swapchain and attachments as they were; otherwise the render format is the preferred one, the call aborts exactly when an assert of the swapchain creation fails, and if not, the swapchain and attachments exist, and init runs, and setup is done, exactly when ImGui came up or is not built in; `imgui_data` is set exactly when ImGui is built in and came up |
| WebEntry.WebState.FinishSetup | include/wgpu_entry.h:818-836 | the swapchain in the preferred format, aborting exactly when an object is missing, an attachment is held or a creation fails; then ImGui, whose data is set exactly when it came up, then the init callback only if it came up |
| WebEntry.WebState.InitAfterImGui | include/wgpu_entry.h:821-836 | `imgui_data` is set exactly when ImGui is built in and came up; an ImGui failure marks the setup failed and skips init; otherwise init is appended to the trace and setup is done |
| WebEntry.WebState.Frame | include/wgpu_entry.h:859-872 | the loop goes on exactly while setup has not failed; the frame callback runs once per frame after setup, never before |
| WebEntry.WebState.Frametime | include/wgpu_entry.h:466-477 | the time since the previous call, 0 on the first; the reading is stored |
| WebEntry.WebState.SwapchainInit | include/wgpu_entry.h:918-988 | aborts exactly when adapter, device, surface or format is missing, an attachment is still held, or a creation that runs returns NULL; otherwise the swapchain, depth texture and view unless turned off, MSAA texture and view exactly when the sample count is above 1 |
| WebEntry.WebState.SwapchainDiscard | include/wgpu_entry.h:990-1012 | every existing attachment is released in order, and none is left |
| WebEntry.WebState.SwapchainReinit | include/wgpu_entry.h:1015-1029 | discard then create, aborting exactly when an object the swapchain needs is missing, a creation fails, or ImGui is built in but its data is NULL (the sample count is written through it, include/wgpu_entry.h:1024); with ImGui and no abort, it takes the sample count and rebuilds its device objects |
| WebEntry.WebState.SizeChanged | include/wgpu_entry.h:480-502 | the CSS size truncated toward zero becomes the size, and the swapchain is rebuilt; a resize before the adapter has arrived aborts, and so does one after a failed ImGui init, since the handler stays registered (include/wgpu_entry.h:882) |
| WebEntry.WebState.Stop | include/wgpu_entry.h:1031-1066 | shutdown callback, discard, release of device, adapter and instance, then ImGui shutdown if built in |
| WebEntry.WebState.RenderView | include/wgpu_entry.h:268-276 | the MSAA view when multisampling, else the current swapchain view; a missing source fails the assert |
| WebEntry.WebState.ResolveViewAsWritten | include/wgpu_entry.h:278-285 | when multisampling, the assert on the never-assigned `swapchain_view` always fails |
| WebEntry.WebState.ResolveView | include/wgpu_entry.h:278-285 | corrected: the current swapchain view when multisampling, none otherwise |
| WebEntry.WebState.FrameReachesSwapchain | include/wgpu_entry.h:268-301 | with attachments in place, every sample count lands the frame in the current swapchain image, the as-written resolve view does not, and the depth format names a depth attachment exactly when one exists |
| WebEntry.Truncate | include/wgpu_entry.h:480-489 | a float-to-int cast drops the fraction toward zero |
| NativeEntry.AppCalls | nano_native.h:303-320 | a press goes to the down callback, a release to the up one, a repeat nowhere |
| NativeEntry.KeyCallbackAsWritten | nano_native.h:303-320 | as written, ImGui hears the key down only for GLFW_PRESS, so a GLFW_REPEAT reaches it as a release |
| NativeEntry.KeyCallback | nano_native.h:303-320 | corrected: ImGui hears the key down for a press or a repeat, and up only for a release |
| NativeEntry.RepeatReachesBackendAsRelease | nano_native.h:303-320 | for a held key, the repeat as written makes the backend's filter send a release and mark the key up; corrected, it keeps the key down and never sends a release |
| NativeEntry.MouseButtonCallback | nano_native.h:334-351 | the application sees presses and releases of the button; ImGui sees the button with whether it is pressed |
| NativeEntry.DiscardReleased | nano_native.h:669-698 | exactly the non-NULL attachments, surface texture and view are released |
| NativeEntry.NativeState.Start | nano_native.h:213-227 | the description with the sample count defaulted, the requested size, opaque black, no object, an empty trace, and no ImGui backend data yet |
| NativeEntry.NativeState.OpenWindow | nano_native.h:486-530 | setup goes on exactly when GLFW starts, a window comes back, and the instance and surface (both stored) come back; a missing instance or surface aborts on its assert |
| NativeEntry.NativeState.RequestAdapterCb | nano_native.h:451-469 | a failure marks the setup failed, yet the adapter is stored and a device requested all the same |
| NativeEntry.NativeState.RequestDeviceCb | nano_native.h:408-449 | a failure marks the setup failed with no init call and leaves the render format, surface texture and attachments as they were; otherwise the render format is RGBA8Unorm, the call aborts exactly when an assert of the surface configuration fails, and if not, the surface is configured (nothing attached when no surface texture comes back), and init runs, and setup is done, exactly when ImGui came up or is not built in; the backend counts as up exactly when it is built in and its init returned data |
| NativeEntry.NativeState.InitAfterImGui | nano_native.h:433-448 | `imgui_data` records whether init returned the backend data; an ImGui failure marks the setup failed and skips init; otherwise init is appended and setup is done |
| NativeEntry.NativeState.MainLoop | nano_native.h:545-550 | `n` iterations run the frame callback `n` times once setup is done, and none before; a failed setup does not stop the loop |
| NativeEntry.NativeState.Frametime | nano_native.h:243-250 | the time since the previous call; on the first call the difference of the two clock readings it takes; the last reading is stored |
| NativeEntry.NativeState.Configure | nano_native.h:559-666 | aborts exactly when adapter, device, surface or format is missing, an attachment is held, or a creation that runs returns NULL; otherwise the surface texture is stored; if it cannot be acquired nothing else is created; else the surface view, depth unless turned off, and MSAA exactly when multisampling |
| NativeEntry.NativeState.Discard | nano_native.h:669-698 | aborts, with nothing changed or released, exactly when ImGui is built in but its backend is not up (the invalidation reads NULL backend data); otherwise ImGui invalidation when built in, then every existing attachment, surface texture and view released in order, and none left |
| NativeEntry.NativeState.Reinit | nano_native.h:702-712 | aborts with nothing changed when ImGui is built in but not up (the sample count is written through NULL `imgui_data`); otherwise ImGui takes the sample count, then discard and configure afresh, aborting exactly when an object the surface needs is missing or a creation fails |
| NativeEntry.NativeState.FramebufferSize | nano_native.h:379-390 | the new framebuffer size is stored and the surface rebuilt as Reinit states, aborting on the same conditions; a resize before the device has arrived, or while ImGui is built in but not up, aborts |
| NativeEntry.NativeState.Stop | nano_native.h:714-735 | shutdown callback, then an abort with nothing else changed when ImGui is built in but not up; otherwise discard, release of device, adapter and instance, then ImGui shutdown if built in |
| NativeEntry.NativeState.RenderView | nano_native.h:262-274 | the MSAA view when multisampling, else the surface view; it never fails when the attachments are in place |
| NativeEntry.NativeState.ResolveViewAsWritten | nano_native.h:276-282 | as written, when multisampling, the resolve view is the render view, the MSAA view itself |
| NativeEntry.NativeState.ResolveView | nano_native.h:276-282 | corrected: the surface view when multisampling, none otherwise |
| NativeEntry.NativeState.DepthFormatAsWritten | nano_native.h:292-294 | as written, Depth32FloatStencil8 even when depth is turned off |
| NativeEntry.NativeState.ViewsWithAttachments | nano_native.h:262-294 | with attachments, the as-written resolve view is the multisampled render view while the corrected one differs from it; the corrected depth format names a depth attachment exactly when one exists, the as-written one even without |

## Left out

- I/O is not modelled: file reading, console logging, the browser, GLFW
  and the WebGPU device. WebGPU objects are opaque handles. Calls into
  application and ImGui code are trace entries. What the device or the
  browser returns is a parameter.
- The clocks (`emscripten_get_now`, `glfwGetTime`) are parameters.
- Floating point is modelled with exact reals, not IEEE rounding. This
  covers the frame times, the canvas size and the clip rectangles.
- Also left out as floating point: the orthographic projection matrix,
  `nano_cimgui_scale_to_canvas`, the mouse-position and mouse-wheel events,
  and the `uint32_t` casts of the scissor rectangle.
- Memory past a C string's terminator is read as NUL in the WGSL scanner
  and the hash. A read beyond the string shows as a cursor position beyond
  its length. The usage copy of `nano_get_wgpu_buffer_usage` is the
  exception: its stale bytes are a parameter (CopiedText).
- The rest of nano.h is outside this model: shader compilation, the
  pipeline-layout builder, fonts and the frame. Only the pool update of
  `nano_create_shader` is modelled (StoreShader).
- `read_file` and `print_shader_info` of the WGSL scanner are not modelled.
  The qualifier that `print_shader_info` prints is used only as the
  inverse in QualifierRoundTrip.
- The texture and storage-texture cases of `parse_binding` are empty in the
  source. They are modelled as leaving the record's usage and type alone.
- `nano_cimgui_process_char_event` only forwards a character to ImGui. It
  appears only as the `ImGuiCharEvent` trace entry.
- Shader-module creation, font textures, `create_device_objects`,
  `new_frame` and `end_frame` of the ImGui backend are GPU setup and are
  not modelled.
- The causes of a failed `nano_cimgui_init` (a NULL ImGui context, a
  failed allocation) are not modelled; its outcome is the `imguiOk`
  parameter of the device callback. Both layers record it in `imguiUp`,
  and the calls that then read the backend's NULL data abort.
- The native layer calls `nano_cimgui_init` with a window as an eleventh
  argument (nano_native.h:436-438); the backend in include/nano_cimgui.h
  takes ten (include/nano_cimgui.h:288-293). The native backend is not part
  of this model; its key filter and frame handling are taken to be those of
  include/nano_cimgui.h.
- NativeEntry.KeyCallback: after a failed ImGui init the backend's key
  handler reads its NULL data for a mapped key. The trace records the
  forwarded event and does not model that crash.
- `KeyRepeatDelay` is stored by init but never read by the source.
  The model stores it and nothing reads it.
- The GLFW layer passes GLFW keycodes straight to
  `nano_cimgui_process_key_event`, whose switch expects its own
  `wgpu_keycode` enumeration. The model keeps the raw code.
- GLFW's mouse order is passed to the backend's remap, which was written
  for the browser's order. The model keeps the raw button, as the source
  does.
- The callback setters (`wgpu_key_down`, …) are modelled as a `Callbacks`
  value fixed at start.
- The browser's touch, wheel and key-press handlers are not modelled.
- `glfw_frame` and `glfw_get_frametime` are defined in nano_native.h but
  never called. They are not modelled.
- The GLFW layer configures its surface as BGRA8UnormSrgb while recording
  RGBA8Unorm as the render format. Only the recorded format is modelled.
- Texture sizes and the `uint32_t` casts of width and height are not
  modelled.
- The window's destruction and `glfwTerminate` are left out.
- The browser layer's ImGui calls go to `cimgui_impl_wgpu.h`, which is not
  part of this model.
- CimguiDraw.PaddedBytes: does not model the `size_t` wrap-around of
  `count * size + 3`. The counts are bounded by `INT_MAX`, so it cannot
  occur on a 64-bit target.
- NativeEntry.NativeState.RenderView: states the view only when the assert
  holds, and that the assert holds once the attachments are in place. It
  does not list the other states in which the assert fails.
- WgslParser.Parser.ParseNumber: accumulates an unbounded number, where
  `parse_number` computes in a C `int`, whose overflow on a numeral above
  2147483647 is undefined behaviour. NumberOverflowsInt shows that such a
  numeral is accepted unchecked; the group, binding and workgroup numbers
  read through it inherit the gap.
- CimguiBackend.Backend.GrowBuffers: requires `totalVtx + 5000` and
  `totalIdx + 10000` to be at most `INT_MAX`. The source computes
  `TotalVtxCount + 5000` and `TotalIdxCount + 10000` in a C `int`, and the
  overflow above that is undefined behaviour, which the model does not
  represent.
- CimguiBackend.Backend.RenderDrawData: requires the same bounds on the
  draw data's totals, for the same reason. Draw data beyond them is not
  modelled.
- WebEntry.WebState.Start: requires the instance to come back. The
  `assert(state->instance)` that aborts otherwise is not modelled, because
  a constructor has no outcome to report it in.
- WebEntry.WebState.RequestAdapterCb: the source does not return after
  a failed request. The model records the failure and still requests a
  device, as the source does.

## Findings

| source | as written | input that shows it | evidently intended | confidence | as-written member | corrected member |
|---|---|---|---|---|---|---|
| nano.h:450-457 | the loop header's `++key` and the body's `*key++` both advance, so only bytes at even indices are hashed | shader paths "ab" and "ac" get the same id | FNV-1a over every byte | high, not executed | NanoUtil.HashString, NanoUtil.SkippedByteCollision | NanoUtil.Fnv1a, NanoUtil.Fnv1aSeesLastByte |
| include/wgpu_entry.h:626-644 | the key-up handler calls the key-down callback | releasing Backspace | the key-up callback for a release | high, not executed | WebEntry.KeyUpAsWritten, WebEntry.KeyUpReportsPress | WebEntry.KeyUp |
| include/wgpu_entry.h:278-285 | the resolve view is `swapchain_view`, which is never assigned, so its assert fails | any frame with `sample_count` 4 | the swapchain's current view | high, not executed | WebEntry.WebState.ResolveViewAsWritten | WebEntry.WebState.ResolveView, WebEntry.WebState.FrameReachesSwapchain |
| include/wgsl-parser/wgsl-parser.c:151 | `info->bindings[info->binding_count++]` is written with no check against the 3 slots of `bindings` | a shader with four `@group` bindings | at most 3 bindings kept | high, not executed | WgslSpec.BindingCapacityUnchecked | WgslSpec.ShaderFromCapped, WgslSpec.CappedKeepsFirstEntries |
| include/wgsl-parser/wgsl-parser.c:189 | `info->entry_points[info->entry_point_count++]` is written with no check against the 3 slots of `entry_points` | a shader with four stage attributes | at most 3 entry points kept | high, not executed | WgslSpec.EntryPointCapacityUnchecked | WgslSpec.ShaderFromCapped, WgslSpec.CappedKeepsFirstEntries |
| nano_native.h:303-320 | ImGui is told a key is down only for GLFW_PRESS, so GLFW_REPEAT reaches it as a release | holding a key until GLFW repeats it | a repeat keeps the key down | medium, not executed | NativeEntry.KeyCallbackAsWritten, NativeEntry.RepeatReachesBackendAsRelease | NativeEntry.KeyCallback |
| nano_native.h:276-282 | the resolve view is the render view, the MSAA view itself | any frame with `sample_count` 4 | the surface view | high, not executed | NativeEntry.NativeState.ResolveViewAsWritten | NativeEntry.NativeState.ResolveView, NativeEntry.NativeState.ViewsWithAttachments |
| nano.h:598-600 | `strncpy` copies `strlen(usage)` bytes into the uninitialised 51-byte `usage_copy` and writes no terminator, so `strtok` reads on through stale bytes, and with a usage of 51 or more characters it reads past the array (from 52 on the copy also writes past it) | usage "storage" with the stale bytes 'x' and NUL after it: the word read is "storagex" and the Storage flag is lost | the flags of the words of the usage string, read from a terminated copy | high, not executed | NanoUtil.BufferUsageAsWritten, NanoUtil.StaleByteDropsStorage, NanoUtil.LongUsageRunsPastCopy | NanoUtil.BufferUsage, NanoUtil.TokensUsageExactly |
| nano_native.h:292-294 | the depth format is Depth32FloatStencil8 even with `no_depth_buffer` | `no_depth_buffer` set | Undefined, as the browser layer returns | medium, not executed | NativeEntry.NativeState.DepthFormatAsWritten | Platform.DepthFormat, NativeEntry.NativeState.ViewsWithAttachments |
