/**
 * What each routine of the WGSL scanner computes, as functions of the
 * shader text and a cursor position. The text is the string before its
 * terminating NUL; `At` reads the terminator at index |t| and, past it,
 * memory the model takes to hold NUL as well, so a position greater than
 * |t| records that the scanner has read beyond the string.
 */
module WgslSpec {
  import opened Common
  import opened WgslTypes

  const NUL: char := '\0'

  /** A scanned value and the cursor position after it. */
  datatype Scan<T> = Scan(value: T, end: nat)

  /** The character `peek` sees at position `p`. */
  function At(t: string, p: nat): char
  {
    if p < |t| then t[p] else NUL
  }

  /** The character classes the scanner loops over (C locale). */
  datatype CharClass = Space | Digit | Word | TypeWord

  predicate IsAlnum(c: char)
  {
    '0' <= c <= '9' || 'a' <= c <= 'z' || 'A' <= c <= 'Z'
  }

  predicate InClass(c: char, k: CharClass)
  {
    match k
    case Space => c == ' ' || c == '\t' || c == '\n' || c == '\U{000B}' || c == '\U{000C}' || c == '\r'
    case Digit => '0' <= c <= '9'
    case Word => IsAlnum(c) || c == '_'
    case TypeWord => IsAlnum(c) || c == '_' || c == '<' || c == '>'
  }

  /** The end of the maximal run of class-`k` characters starting at `p`. */
  function RunEnd(t: string, p: nat, k: CharClass): (r: nat)
    ensures p <= r
    ensures r > p ==> r <= |t|
    decreases |t| - p
  {
    if InClass(At(t, p), k) then RunEnd(t, p + 1, k) else p
  }

  /** The run is maximal: the character that ends it is outside the class. */
  lemma {:induction false} RunEndStops(t: string, p: nat, k: CharClass)
    ensures !InClass(At(t, RunEnd(t, p, k)), k)
    decreases |t| - p
  {
    if InClass(At(t, p), k) {
      RunEndStops(t, p + 1, k);
    }
  }

  /** A run is determined by its characters: the first position outside the class ends it. */
  lemma {:induction false} RunEndAt(t: string, p: nat, k: CharClass, n: nat)
    requires forall i :: p <= i < p + n ==> InClass(At(t, i), k)
    requires !InClass(At(t, p + n), k)
    ensures RunEnd(t, p, k) == p + n
    decreases n
  {
    if n > 0 {
      RunEndAt(t, p + 1, k, n - 1);
    }
  }

  /** Every character the run passes over is in the class. */
  lemma {:induction false} RunEndSpan(t: string, p: nat, k: CharClass)
    ensures forall i :: p <= i < RunEnd(t, p, k) ==> InClass(At(t, i), k)
    decreases |t| - p
  {
    if InClass(At(t, p), k) {
      RunEndSpan(t, p + 1, k);
    }
  }

  /** skip_whitespace */
  function SkipWs(t: string, p: nat): nat
  {
    RunEnd(t, p, Space)
  }

  /** `strncmp(&input[p], lit, |lit|) == 0`: the next |lit| characters spell `lit`. */
  predicate Matches(t: string, p: nat, lit: string)
  {
    forall i :: 0 <= i < |lit| ==> At(t, p + i) == lit[i]
  }

  // ---------------------------------------------------------------------
  // Numbers

  /** `c - '0'`; the scanner applies it to digits only. */
  function DigitValue(c: char): nat
  {
    if InClass(c, Digit) then (c as int) - ('0' as int) else 0
  }

  function DigitChar(d: nat): (c: char)
    requires d < 10
    ensures InClass(c, Digit) && DigitValue(c) == d
  {
    (('0' as int) + d) as char
  }

  predicate AllDigits(s: string)
  {
    forall i :: 0 <= i < |s| ==> InClass(s[i], Digit)
  }

  /** The value of the numeral at positions p up to e of `t`, most significant digit first. */
  function DigitsValue(t: string, p: nat, e: nat): nat
    decreases e
  {
    if e <= p then 0 else DigitsValue(t, p, e - 1) * 10 + DigitValue(At(t, e - 1))
  }

  /** parse_number: the value of the digit run at `p` and the position after it. */
  function Number(t: string, p: nat): Scan<nat>
  {
    var e := RunEnd(t, p, Digit);
    Scan(DigitsValue(t, p, e), e)
  }

  /** The largest value of the C `int` that `parse_number` accumulates in. */
  const INT_MAX: int := 0x7FFF_FFFF

  /**
   * `parse_number` checks no bound: the numeral 2147483648 is read whole,
   * although its value does not fit the `int` it is accumulated in, so the
   * source's `result * 10 + digit` overflows on it.
   */
  lemma NumberOverflowsInt(pre: string, rest: string)
    requires !InClass(At(rest, 0), Digit)
    ensures var t := pre + DecimalText(INT_MAX + 1) + rest;
            Number(t, |pre|).end == |pre| + |DecimalText(INT_MAX + 1)| && Number(t, |pre|).value > INT_MAX
  {
    NumberReadsDecimalText(pre, INT_MAX + 1, rest);
  }

  /** A numeral's value depends only on its characters. */
  lemma {:induction false} DigitsValueSame(a: string, p: nat, b: string, q: nat, k: nat)
    requires forall i :: p <= i < p + k ==> At(a, i) == At(b, q + (i - p))
    ensures DigitsValue(a, p, p + k) == DigitsValue(b, q, q + k)
    decreases k
  {
    if k > 0 {
      DigitsValueSame(a, p, b, q, k - 1);
      assert At(a, p + k - 1) == At(b, q + (k - 1));
    }
  }

  /** The numeral `printf("%d")` writes for a non-negative int. */
  function DecimalText(n: nat): (s: string)
    ensures s != [] && AllDigits(s)
  {
    if n < 10 then [DigitChar(n)] else DecimalText(n / 10) + [DigitChar(n % 10)]
  }

  lemma {:induction false} DecimalValueOfText(n: nat)
    ensures DigitsValue(DecimalText(n), 0, |DecimalText(n)|) == n
  {
    var s := DecimalText(n);
    if n >= 10 {
      var h := DecimalText(n / 10);
      assert s == h + [DigitChar(n % 10)];
      forall i | 0 <= i < |h| ensures At(s, i) == At(h, 0 + (i - 0)) {
        assert s[i] == h[i];
      }
      DigitsValueSame(s, 0, h, 0, |h|);
      DecimalValueOfText(n / 10);
      assert s[|h|] == DigitChar(n % 10);
    }
  }

  /**
   * parse_number reads back what `%d` printed: a numeral followed by a
   * non-digit yields its value and stops right after it.
   */
  lemma NumberReadsDecimalText(pre: string, n: nat, rest: string)
    requires !InClass(At(rest, 0), Digit)
    ensures var t := pre + DecimalText(n) + rest;
            Number(t, |pre|) == Scan(n, |pre| + |DecimalText(n)|)
  {
    var d := DecimalText(n);
    var t := pre + d + rest;
    forall i | |pre| <= i < |pre| + |d| ensures At(t, i) == At(d, 0 + (i - |pre|)) && InClass(At(t, i), Digit) {
      assert t[i] == d[i - |pre|];
    }
    assert At(t, |pre| + |d|) == At(rest, 0);
    RunEndAt(t, |pre|, Digit, |d|);
    DigitsValueSame(t, |pre|, d, 0, |d|);
    DecimalValueOfText(n);
  }

  // ---------------------------------------------------------------------
  // Identifiers and keywords

  /**
   * parse_identifier: up to MAX_IDENT_LENGTH - 1 characters of the word
   * class (with '<' and '>' for a type), copied, and the position after them.
   */
  function Identifier(t: string, p: nat, isType: bool): (r: Scan<string>)
    ensures |r.value| < MAX_IDENT_LENGTH && r.end == p + |r.value|
  {
    var w := WordFrom(t, p, if isType then TypeWord else Word, MAX_IDENT_LENGTH - 1);
    Scan(w, p + |w|)
  }

  /** An identifier shorter than the buffer allows stops at a character outside its class. */
  lemma IdentifierStops(t: string, p: nat, isType: bool)
    ensures var r := Identifier(t, p, isType);
            |r.value| < MAX_IDENT_LENGTH - 1 ==> !InClass(At(t, r.end), if isType then TypeWord else Word)
  {
    WordFromStops(t, p, if isType then TypeWord else Word, MAX_IDENT_LENGTH - 1);
  }

  /** The characters of class `k` from `p` on, at most `n` of them. */
  function WordFrom(t: string, p: nat, k: CharClass, n: nat): (w: string)
    ensures |w| <= n
    decreases n
  {
    if n == 0 || !InClass(At(t, p), k) then [] else [At(t, p)] + WordFrom(t, p + 1, k, n - 1)
  }

  /** A word shorter than the bound ends at a character outside the class. */
  lemma {:induction false} WordFromStops(t: string, p: nat, k: CharClass, n: nat)
    ensures var w := WordFrom(t, p, k, n);
            |w| < n ==> !InClass(At(t, p + |w|), k)
    decreases n
  {
    if n > 0 && InClass(At(t, p), k) {
      WordFromStops(t, p + 1, k, n - 1);
    }
  }

  /** The word is the text at `p`, character by character, and all of it is of the class. */
  lemma {:induction false} WordFromChars(t: string, p: nat, k: CharClass, n: nat)
    ensures var w := WordFrom(t, p, k, n);
            forall i :: 0 <= i < |w| ==> w[i] == At(t, p + i) && InClass(w[i], k)
    decreases n
  {
    var w := WordFrom(t, p, k, n);
    if w != [] {
      WordFromChars(t, p + 1, k, n - 1);
      forall i | 1 <= i < |w| ensures w[i] == At(t, p + i) && InClass(w[i], k) {
        assert w[i] == WordFrom(t, p + 1, k, n - 1)[i - 1];
      }
    }
  }

  /** Conversely, a run of class characters that the bound or a non-class character ends is the word. */
  lemma {:induction false} WordFromIs(t: string, p: nat, k: CharClass, n: nat, w: string)
    requires |w| <= n
    requires forall i :: 0 <= i < |w| ==> At(t, p + i) == w[i] && InClass(w[i], k)
    requires |w| < n ==> !InClass(At(t, p + |w|), k)
    ensures WordFrom(t, p, k, n) == w
    decreases n
  {
    if w != [] {
      var rest := w[1..];
      assert At(t, p + 0) == w[0] && InClass(w[0], k);
      forall i | 0 <= i < |rest| ensures At(t, p + 1 + i) == rest[i] && InClass(rest[i], k) {
        assert At(t, p + (i + 1)) == w[i + 1];
      }
      WordFromIs(t, p + 1, k, n - 1, rest);
      assert WordFrom(t, p, k, n) == [w[0]] + rest;
      assert w == [w[0]] + rest;
    }
  }

  /** A run of at least `m` class characters gives a word of at least `m` characters. */
  lemma {:induction false} WordFromLong(t: string, p: nat, k: CharClass, n: nat, m: nat)
    requires m <= n
    requires forall i :: p <= i < p + m ==> InClass(At(t, i), k)
    ensures |WordFrom(t, p, k, n)| >= m
    decreases n
  {
    if m > 0 {
      assert InClass(At(t, p), k);
      WordFromLong(t, p + 1, k, n - 1, m - 1);
    }
  }

  /** The identifier is the text at `p`, character by character, and all of it is of the class. */
  lemma IdentifierChars(t: string, p: nat, isType: bool)
    ensures var r := Identifier(t, p, isType);
            forall i :: 0 <= i < |r.value| ==>
              r.value[i] == At(t, p + i) && InClass(r.value[i], if isType then TypeWord else Word)
  {
    var k := if isType then TypeWord else Word;
    WordFromChars(t, p, k, MAX_IDENT_LENGTH - 1);
    assert Identifier(t, p, isType).value == WordFrom(t, p, k, MAX_IDENT_LENGTH - 1);
  }

  /** A word followed by a non-word character is read back as exactly that word. */
  lemma IdentifierReadsWord(t: string, p: nat, w: string, isType: bool)
    requires |w| < MAX_IDENT_LENGTH - 1
    requires forall i :: 0 <= i < |w| ==> At(t, p + i) == w[i] && InClass(w[i], if isType then TypeWord else Word)
    requires !InClass(At(t, p + |w|), if isType then TypeWord else Word)
    ensures Identifier(t, p, isType) == Scan(w, p + |w|)
  {
    WordFromIs(t, p, if isType then TypeWord else Word, MAX_IDENT_LENGTH - 1, w);
  }

  /** The flags of the storage class word. */
  function ClassFlags(w: string): UsageFlags
  {
    if w == "uniform" then {Uniform} else if w == "storage" then {Storage} else {}
  }

  /** The flags of the access mode word; `write` gives CopyDst. */
  function AccessFlags(w: string): UsageFlags
  {
    if w == "read" then {CopySrc}
    else if w == "write" then {CopyDst}
    else if w == "read_write" then {CopySrc, CopyDst}
    else {}
  }

  /** The flag words the qualifier parser can produce: at most one class flag, any access flags. */
  predicate Producible(f: UsageFlags)
  {
    f <= {Uniform, Storage, CopySrc, CopyDst} && !(Uniform in f && Storage in f)
  }

  /** parse_storage_class_and_access, from just after '<'. */
  function StorageClass(t: string, p: nat): (r: Scan<UsageFlags>)
    ensures Producible(r.value) && r.end >= p
  {
    var w := Identifier(t, p, false);
    var q := SkipWs(t, w.end);
    if At(t, q) == ',' then
      var a := Identifier(t, SkipWs(t, q + 1), false);
      Scan(ClassFlags(w.value) + AccessFlags(a.value), a.end)
    else
      Scan(ClassFlags(w.value), q)
  }

  /** parse_binding_type: the first word of the type; every other word means a buffer. */
  function BindingTypeAt(t: string, p: nat): (r: Scan<BindingType>)
    ensures r.end >= p
  {
    var w := Identifier(t, SkipWs(t, p), false);
    Scan(if w.value == "texture" then Texture else if w.value == "storage_texture" then StorageTexture else Buffer,
         w.end)
  }

  // ---------------------------------------------------------------------
  // Declarations

  /** `( number )` after an attribute keyword: '(' and ')' are skipped without looking at them. */
  function ParenNumber(t: string, p: nat): (r: Scan<nat>)
    ensures r.end > p
  {
    var n := Number(t, SkipWs(t, p) + 1);
    Scan(n.value, n.end + 1)
  }

  function OptionSeq<T>(o: Option<T>): (s: seq<T>)
    ensures o.None? ==> s == []
    ensures o.Some? ==> s == [o.value]
  {
    if o.Some? then [o.value] else []
  }

  /**
   * The part of parse_binding after `var`: `<class[, access]> name : type`.
   * The characters '<', '>' and ':' are each skipped without being checked.
   */
  function VarDeclaration(t: string, p: nat, group: nat, binding: nat, id: U32): (r: Scan<BindingInfo>)
    ensures r.end > p
    ensures r.value.group == group && r.value.binding == binding && r.value.shaderId == id
    ensures r.value.bindingType == Buffer && Producible(r.value.bufferUsage) && |r.value.name| < MAX_IDENT_LENGTH
    ensures |r.value.dataType| < MAX_IDENT_LENGTH
  {
    NamedVar(t, StorageClass(t, SkipWs(t, p) + 1), group, binding, id)
  }

  /** The rest of a declaration once the qualifier has been read into `flags`: `> name : type`. */
  function NamedVar(t: string, flags: Scan<UsageFlags>, group: nat, binding: nat, id: U32): (r: Scan<BindingInfo>)
    requires Producible(flags.value)
    ensures r.end > flags.end
    ensures r.value.group == group && r.value.binding == binding && r.value.shaderId == id
    ensures r.value.bindingType == Buffer && Producible(r.value.bufferUsage) && |r.value.name| < MAX_IDENT_LENGTH
    ensures |r.value.dataType| < MAX_IDENT_LENGTH
  {
    var name := Identifier(t, SkipWs(t, flags.end + 1), false);
    TypedVar(t, SkipWs(t, name.end) + 1, BindingInfo(group, binding, id, Buffer, flags.value, [], name.value))
  }

  /**
   * The type after the ':' of a declaration whose qualifier and name are in
   * `b`: a buffer keeps the flags and gets the data type; the texture
   * branches leave the zeroed slot's type, usage and data type alone.
   */
  function TypedVar(t: string, p: nat, b: BindingInfo): (r: Scan<BindingInfo>)
    requires b.bindingType == Buffer && b.dataType == []
    ensures r.end >= p
    ensures r.value.group == b.group && r.value.binding == b.binding && r.value.shaderId == b.shaderId
    ensures r.value.name == b.name && r.value.bindingType == Buffer
    ensures BindingTypeAt(t, p).value == Buffer ==> r.value.bufferUsage == b.bufferUsage
    ensures BindingTypeAt(t, p).value != Buffer ==> r.value.bufferUsage == {} && r.value.dataType == []
    ensures |r.value.dataType| < MAX_IDENT_LENGTH
  {
    var ty := BindingTypeAt(t, p);
    if ty.value == Buffer then
      var dataType := Identifier(t, ty.end, true);
      Scan(b.(dataType := dataType.value), dataType.end)
    else
      Scan(b.(bufferUsage := {}), ty.end)
  }

  /**
   * parse_binding: `@group(g) @binding(b) var …`. A record is produced
   * exactly when `group`, `@binding` and `var` each stand where expected;
   * '(' and ')' are skipped without being checked. The three functions
   * below follow the three keyword tests.
   */
  function BindingAt(t: string, p: nat, id: U32): (r: Scan<Option<BindingInfo>>)
    ensures r.end > p
    ensures r.value.Some? ==> r.value.value.shaderId == id && r.value.value.bindingType == Buffer &&
                              Producible(r.value.value.bufferUsage) && |r.value.value.name| < MAX_IDENT_LENGTH
    ensures r.value.Some? ==> |r.value.value.dataType| < MAX_IDENT_LENGTH
  {
    var p1 := SkipWs(t, p);
    if At(t, p1) != '@' || !Matches(t, p1 + 1, "group") then Scan(None, p1 + 1)
    else BindingAfterGroup(t, p1 + 6, id)
  }

  /** From the `(g)` after `@group`: the group number, then `@binding`. */
  function BindingAfterGroup(t: string, p: nat, id: U32): (r: Scan<Option<BindingInfo>>)
    ensures r.end > p
    ensures r.value.Some? ==> r.value.value.shaderId == id && r.value.value.bindingType == Buffer &&
                              Producible(r.value.value.bufferUsage) && |r.value.value.name| < MAX_IDENT_LENGTH
    ensures r.value.Some? ==> |r.value.value.dataType| < MAX_IDENT_LENGTH
  {
    var g := ParenNumber(t, p);
    var p2 := SkipWs(t, g.end);
    if !Matches(t, p2, "@binding") then Scan(None, p2)
    else BindingAfterIndex(t, p2 + 8, g.value, id)
  }

  /** From the `(b)` after `@binding`: the binding number, then `var` and the declaration. */
  function BindingAfterIndex(t: string, p: nat, group: nat, id: U32): (r: Scan<Option<BindingInfo>>)
    ensures r.end > p
    ensures r.value.Some? ==> r.value.value.group == group
    ensures r.value.Some? ==> r.value.value.shaderId == id && r.value.value.bindingType == Buffer &&
                              Producible(r.value.value.bufferUsage) && |r.value.value.name| < MAX_IDENT_LENGTH
    ensures r.value.Some? ==> |r.value.value.dataType| < MAX_IDENT_LENGTH
  {
    var b := ParenNumber(t, p);
    var p3 := SkipWs(t, b.end);
    if !Matches(t, p3, "var") then Scan(None, p3)
    else
      var d := VarDeclaration(t, p3 + 3, group, b.value, id);
      Scan(Some(d.value), d.end)
  }

  function StageOf(w: string): ShaderType
  {
    if w == "compute" then ComputeStage
    else if w == "vertex" then VertexStage
    else if w == "fragment" then FragmentStage
    else Unset
  }

  /**
   * The numbers of `(x[, y[, z]])` after `@workgroup_size`. The character
   * after each number is consumed to test for ','; with fewer than three
   * numbers the `)` skip then consumes one character more.
   */
  function WorkgroupArgs(t: string, p: nat): (r: Scan<seq<nat>>)
    ensures 1 <= |r.value| <= 3 && r.end > p
  {
    var x := Number(t, SkipWs(t, p) + 1);
    if At(t, x.end) != ',' then Scan([x.value], x.end + 2)
    else
      var y := Number(t, x.end + 1);
      if At(t, y.end) != ',' then Scan([x.value, y.value], y.end + 2)
      else
        var z := Number(t, y.end + 1);
        Scan([x.value, y.value, z.value], z.end + 1)
  }

  /** A `uint8_t` workgroup component of a zeroed slot after the parsed numbers are stored: 0 becomes 1. */
  function Component(v: seq<nat>, i: nat): (c: U8)
    ensures 1 <= c
    ensures i < |v| && v[i] % U8_LIMIT != 0 ==> c == v[i] % U8_LIMIT
  {
    var stored := if i < |v| then v[i] % U8_LIMIT else 0;
    if stored == 0 then 1 else stored
  }

  /** The optional `@workgroup_size(…)` clause at `p` and the blanks after it. */
  function WorkgroupClause(t: string, p: nat): (r: Scan<seq<nat>>)
    ensures r.end >= p && |r.value| <= 3
  {
    if Matches(t, p, "@workgroup_size") then
      var a := WorkgroupArgs(t, p + 15);
      Scan(a.value, SkipWs(t, a.end))
    else
      Scan([], p)
  }

  /** The optional `fn name` at `p`; without `fn` the name stays empty. */
  function EntryName(t: string, p: nat): (r: Scan<string>)
    ensures r.end >= p && |r.value| < MAX_IDENT_LENGTH
  {
    if Matches(t, p, "fn") then Identifier(t, SkipWs(t, p + 2), false) else Scan([], p)
  }

  /** parse_entry_point: `@compute|@vertex|@fragment [@workgroup_size(…)] [fn name]`. */
  function EntryPointAt(t: string, p: nat): (r: Scan<Option<EntryPoint>>)
    ensures r.end > p
    ensures r.value.Some? ==> r.value.value.stage != Unset && EntryPointFits(r.value.value)
    ensures r.value.Some? ==> var w := r.value.value.workgroupSize; w.x >= 1 && w.y >= 1 && w.z >= 1
  {
    var p1 := SkipWs(t, p);
    if At(t, p1) != '@' then Scan(None, p1 + 1)
    else
      var attr := Identifier(t, p1 + 1, false);
      var stage := StageOf(attr.value);
      if stage == Unset then Scan(None, attr.end)
      else
        var wg := WorkgroupClause(t, SkipWs(t, attr.end));
        var size := WorkgroupSize(Component(wg.value, 0), Component(wg.value, 1), Component(wg.value, 2));
        var name := EntryName(t, wg.end);
        Scan(Some(EntryPoint(name.value, stage, size)), name.end)
  }

  // ---------------------------------------------------------------------
  // The whole shader

  /** What one round of the parse_shader loop finds, and where it leaves the cursor. */
  datatype Round = Round(binding: Option<BindingInfo>, entryPoint: Option<EntryPoint>, end: nat)

  /**
   * One round from a position that does not hold NUL: after the whitespace,
   * `@group` goes to parse_binding and `@compute`/`@vertex`/`@fragment` to
   * parse_entry_point, both from the '@' (the attribute is only looked at);
   * any other character is skipped.
   */
  function RoundAt(t: string, p: nat, id: U32): (r: Round)
    ensures r.end > p
    ensures r.binding.Some? ==> r.binding.value.shaderId == id && r.entryPoint.None?
  {
    var q := SkipWs(t, p);
    if At(t, q) == '@' then
      var attr := Identifier(t, q + 1, false).value;
      if attr == "group" then
        var b := BindingAt(t, q, id);
        Round(b.value, None, b.end)
      else if StageOf(attr) != Unset then
        var e := EntryPointAt(t, q);
        Round(None, e.value, e.end)
      else
        Round(None, None, q + 1)
    else
      Round(None, None, q + 1)
  }

  datatype Parsed = Parsed(bindings: seq<BindingInfo>, entryPoints: seq<EntryPoint>, end: nat)

  /**
   * parse_shader from position `p`, with the records found so far: rounds
   * until the cursor peeks at NUL. Every round moves the cursor forward;
   * records are only ever appended, and no capacity is checked.
   */
  function ShaderFrom(t: string, p: nat, id: U32, bs: seq<BindingInfo>, eps: seq<EntryPoint>): (r: Parsed)
    ensures p <= r.end && At(t, r.end) == NUL
    ensures |bs| <= |r.bindings| && r.bindings[..|bs|] == bs
    ensures |eps| <= |r.entryPoints| && r.entryPoints[..|eps|] == eps
    ensures forall i :: |bs| <= i < |r.bindings| ==> r.bindings[i].shaderId == id
    decreases |t| - p
  {
    if At(t, p) == NUL then Parsed(bs, eps, p)
    else
      var s := RoundAt(t, p, id);
      var bs', eps' := bs + OptionSeq(s.binding), eps + OptionSeq(s.entryPoint);
      var r := ShaderFrom(t, s.end, id, bs', eps');
      assert r.bindings[..|bs|] == bs'[..|bs|];
      assert r.entryPoints[..|eps|] == eps'[..|eps|];
      assert forall i :: |bs| <= i < |r.bindings| ==> r.bindings[i].shaderId == id by {
        forall i | |bs| <= i < |r.bindings| ensures r.bindings[i].shaderId == id {
          if i < |bs'| {
            assert r.bindings[i] == r.bindings[..|bs'|][i] == s.binding.value;
          }
        }
      }
      r
  }

  // ---------------------------------------------------------------------
  // Properties of the scanner

  /** The class word print_shader_info writes for a flag word: Uniform wins over Storage. */
  function ClassWord(f: UsageFlags): string
  {
    if Uniform in f then "uniform" else if Storage in f then "storage" else ""
  }

  /** The access word it writes: CopySrc and CopyDst together print as read_write. */
  function AccessWord(f: UsageFlags): string
  {
    if CopySrc in f then (if CopyDst in f then "read_write" else "read")
    else if CopyDst in f then "write" else ""
  }

  /** The `<…> ` qualifier print_shader_info writes for a buffer binding's flags. */
  function QualifierText(f: UsageFlags): string
  {
    var aw := AccessWord(f);
    "<" + ClassWord(f) + (if aw == "" then "" else ", " + aw) + "> "
  }

  /** Every character is a word character. */
  predicate IsWordText(w: string)
  {
    forall i :: 0 <= i < |w| ==> InClass(w[i], Word)
  }

  /** A word standing at `p` of `t`, followed by a non-word character, is read back whole. */
  lemma WordStandsAt(t: string, p: nat, w: string)
    requires IsWordText(w) && |w| < MAX_IDENT_LENGTH - 1
    requires p + |w| <= |t| && t[p..p + |w|] == w
    requires !InClass(At(t, p + |w|), Word)
    ensures Identifier(t, p, false) == Scan(w, p + |w|)
  {
    forall i | 0 <= i < |w| ensures At(t, p + i) == w[i] {
      assert t[p..p + |w|][i] == t[p + i];
    }
    IdentifierReadsWord(t, p, w, false);
  }

  /** A piece of a text standing at `p` has each of its own pieces standing at the matching offset. */
  lemma SliceWithin(t: string, p: nat, q: string, i: nat, j: nat)
    requires p + |q| <= |t| && t[p..p + |q|] == q && i <= j <= |q|
    ensures t[p + i..p + j] == q[i..j]
  {
    forall k | 0 <= k < j - i ensures t[p + i..p + j][k] == q[i..j][k] {
      assert t[p + i + k] == t[p..p + |q|][i + k];
    }
  }

  /** The scan of a printed qualifier without an access word, standing at `p`. */
  lemma ScanClassOnly(t: string, p: nat, cw: string)
    requires IsWordText(cw) && |cw| < MAX_IDENT_LENGTH - 1
    requires p + |cw| + 3 <= |t| && t[p..p + |cw| + 3] == "<" + cw + "> "
    ensures StorageClass(t, p + 1) == Scan(ClassFlags(cw), p + 1 + |cw|)
  {
    var q := "<" + cw + "> ";
    var n := |cw|;
    SliceWithin(t, p, q, 1, 1 + n);
    assert q[1..1 + n] == cw;
    assert t[p + 1 + n] == t[p..p + |q|][1 + n] == '>';
    WordStandsAt(t, p + 1, cw);
    RunEndAt(t, p + 1 + n, Space, 0);
  }

  /** parse_storage_class_and_access over a class word, a ',' and an access word. */
  lemma StorageClassSteps(t: string, p: nat, cw: string, e: nat, aw: string, end: nat)
    requires Identifier(t, p, false) == Scan(cw, e)
    requires SkipWs(t, e) == e && At(t, e) == ','
    requires Identifier(t, SkipWs(t, e + 1), false) == Scan(aw, end)
    ensures StorageClass(t, p) == Scan(ClassFlags(cw) + AccessFlags(aw), end)
  {
  }

  /** The class word of `<cw, aw> ` standing at `p` is read up to the ',' that follows it. */
  lemma ScanClassBeforeComma(t: string, p: nat, cw: string, aw: string)
    requires IsWordText(cw) && |cw| < MAX_IDENT_LENGTH - 1
    requires var q := "<" + cw + ", " + aw + "> "; p + |q| <= |t| && t[p..p + |q|] == q
    ensures Identifier(t, p + 1, false) == Scan(cw, p + 1 + |cw|)
    ensures SkipWs(t, p + 1 + |cw|) == p + 1 + |cw| && At(t, p + 1 + |cw|) == ','
  {
    var q := "<" + cw + ", " + aw + "> ";
    SliceWithin(t, p, q, 1, 1 + |cw|);
    assert q[1..1 + |cw|] == cw;
    assert t[p + 1 + |cw|] == t[p..p + |q|][1 + |cw|] == ',';
    WordBeforeComma(t, p + 1, cw);
  }

  /** A word followed directly by a ',' is read up to the ',', where no blank is skipped. */
  lemma WordBeforeComma(t: string, p: nat, w: string)
    requires IsWordText(w) && |w| < MAX_IDENT_LENGTH - 1
    requires p + |w| < |t| && t[p..p + |w|] == w && t[p + |w|] == ','
    ensures Identifier(t, p, false) == Scan(w, p + |w|)
    ensures SkipWs(t, p + |w|) == p + |w| && At(t, p + |w|) == ','
  {
    WordStandsAt(t, p, w);
    RunEndAt(t, p + |w|, Space, 0);
  }

  /** The access word of `<cw, aw> ` standing at `p` is read after the blank, up to the closing '>'. */
  lemma ScanAccessAfterComma(t: string, p: nat, cw: string, aw: string)
    requires IsWordText(aw) && 0 < |aw| < MAX_IDENT_LENGTH - 1
    requires var q := "<" + cw + ", " + aw + "> "; p + |q| <= |t| && t[p..p + |q|] == q
    ensures SkipWs(t, p + 2 + |cw|) == p + 3 + |cw|
    ensures Identifier(t, p + 3 + |cw|, false) == Scan(aw, p + |cw| + |aw| + 3)
  {
    var q := "<" + cw + ", " + aw + "> ";
    var n := |cw|;
    assert t[p + 2 + n] == t[p..p + |q|][2 + n] == ' ';
    assert t[p + 3 + n] == t[p..p + |q|][3 + n] == aw[0];
    RunEndAt(t, p + 2 + n, Space, 1);
    SliceWithin(t, p, q, 3 + n, 3 + n + |aw|);
    assert q[3 + n..3 + n + |aw|] == aw;
    assert t[p + 3 + n + |aw|] == t[p..p + |q|][3 + n + |aw|] == '>';
    WordStandsAt(t, p + 3 + n, aw);
  }

  /** The scan of a printed qualifier with an access word, standing at `p`, word by word. */
  lemma ScanClassAccess(t: string, p: nat, cw: string, aw: string)
    requires IsWordText(cw) && |cw| < MAX_IDENT_LENGTH - 1
    requires IsWordText(aw) && 0 < |aw| < MAX_IDENT_LENGTH - 1
    requires var q := "<" + cw + ", " + aw + "> "; p + |q| <= |t| && t[p..p + |q|] == q
    ensures StorageClass(t, p + 1) == Scan(ClassFlags(cw) + AccessFlags(aw), p + |cw| + |aw| + 3)
  {
    ScanClassBeforeComma(t, p, cw, aw);
    ScanAccessAfterComma(t, p, cw, aw);
    StorageClassSteps(t, p + 1, cw, p + 1 + |cw|, aw, p + |cw| + |aw| + 3);
  }

  lemma LiteralWords()
    ensures IsWordText("uniform") && IsWordText("storage") && IsWordText("")
    ensures IsWordText("read") && IsWordText("write") && IsWordText("read_write")
  {
  }

  lemma PrintedWordsAreWords(f: UsageFlags)
    ensures IsWordText(ClassWord(f)) && IsWordText(AccessWord(f)) && |AccessWord(f)| < MAX_IDENT_LENGTH - 1
  {
    LiteralWords();
    var cw, aw := ClassWord(f), AccessWord(f);
    assert cw == "uniform" || cw == "storage" || cw == "";
    assert aw == "read" || aw == "write" || aw == "read_write" || aw == "";
  }

  /** The flags the printed words stand for are the flags printed. */
  lemma PrintedWordsFlags(f: UsageFlags)
    requires Producible(f)
    ensures AccessWord(f) == "" ==> ClassFlags(ClassWord(f)) == f
    ensures AccessWord(f) != "" ==> ClassFlags(ClassWord(f)) + AccessFlags(AccessWord(f)) == f
  {
    var c := if Uniform in f then {Uniform} else if Storage in f then {Storage} else {};
    var a := (if CopySrc in f then {CopySrc} else {}) + (if CopyDst in f then {CopyDst} else {});
    assert f == c + a by {
      forall u | u in f ensures u in c + a {
      }
    }
    assert ClassFlags(ClassWord(f)) == c;
    if AccessWord(f) != "" {
      assert AccessFlags(AccessWord(f)) == a;
    }
  }

  /**
   * Wherever the qualifier printed for a flag word the scanner produces
   * stands in a text, scanning it from after its '<' gives the same flags
   * and stops at the closing '>' that parse_binding then skips.
   */
  lemma QualifierRoundTrip(t: string, p: nat, f: UsageFlags)
    requires Producible(f)
    requires p + |QualifierText(f)| <= |t| && t[p..p + |QualifierText(f)|] == QualifierText(f)
    ensures StorageClass(t, p + 1) == Scan(f, p + |QualifierText(f)| - 2)
  {
    var cw, aw := ClassWord(f), AccessWord(f);
    PrintedWordsAreWords(f);
    PrintedWordsFlags(f);
    if aw == "" {
      assert QualifierText(f) == "<" + cw + "> ";
      ScanClassOnly(t, p, cw);
    } else {
      assert QualifierText(f) == "<" + cw + ", " + aw + "> ";
      ScanClassAccess(t, p, cw, aw);
    }
  }

  // ---------------------------------------------------------------------
  // Reading back a printed declaration

  /** Every character may appear in a type (word characters, '<' and '>'). */
  predicate IsTypeText(x: string)
  {
    forall i :: 0 <= i < |x| ==> InClass(x[i], TypeWord)
  }

  /** The first `|s + piece|` characters are `s + piece`: so are the first |s|, and `piece` follows them. */
  lemma PrefixStep(t: string, s: string, piece: string)
    requires |s + piece| <= |t| && t[..|s + piece|] == s + piece
    ensures t[..|s|] == s && t[|s|..|s + piece|] == piece
  {
    assert t[..|s|] == t[..|s + piece|][..|s|];
    assert t[|s|..|s + piece|] == t[..|s + piece|][|s|..];
  }

  /** A numeral: a non-empty run of digits. */
  predicate IsNumeral(d: string)
  {
    d != [] && AllDigits(d)
  }

  /** The value of a numeral. */
  function NumeralValue(d: string): nat
  {
    DigitsValue(d, 0, |d|)
  }

  /** A numeral standing at `p`, followed by a non-digit, is read whole. */
  lemma NumberAt(t: string, p: nat, d: string)
    requires IsNumeral(d) && p + |d| <= |t| && t[p..p + |d|] == d
    requires !InClass(At(t, p + |d|), Digit)
    ensures Number(t, p) == Scan(NumeralValue(d), p + |d|)
  {
    forall i | p <= i < p + |d| ensures At(t, i) == At(d, 0 + (i - p)) && InClass(At(t, i), Digit) {
      assert t[i] == t[p..p + |d|][i - p];
    }
    RunEndAt(t, p, Digit, |d|);
    DigitsValueSame(t, p, d, 0, |d|);
  }

  /** `(d) ` from `p` to `e`, followed by a non-blank: the numeral is read, ')' skipped, and then the blank. */
  lemma ParenNumberAt(t: string, p: nat, e: nat, d: string)
    requires IsNumeral(d) && e == p + |d| + 3 && e <= |t|
    requires t[p..e] == "(" + d + ") " && !InClass(At(t, e), Space)
    ensures ParenNumber(t, p) == Scan(NumeralValue(d), e - 1) && SkipWs(t, e - 1) == e
  {
    var q := "(" + d + ") ";
    ParenTextPieces(d);
    SliceWithin(t, p, q, 1, 1 + |d|);
    assert t[p] == t[p..e][0] == q[0];
    assert t[p + 1 + |d|] == t[p..e][1 + |d|] == q[1 + |d|];
    assert t[e - 1] == t[p..e][|d| + 2] == q[|d| + 2];
    RunEndAt(t, p, Space, 0);
    NumberAt(t, p + 1, d);
    RunEndAt(t, e - 1, Space, 1);
  }

  /** Where the pieces of `(d) ` stand. */
  lemma ParenTextPieces(d: string)
    ensures var q := "(" + d + ") ";
            |q| == |d| + 3 && q[0] == '(' && q[1..1 + |d|] == d && q[1 + |d|] == ')' && q[|d| + 2] == ' '
  {
    var q := "(" + d + ") ";
    assert q == ("(" + d) + ") ";
    assert q[..1 + |d|] == "(" + d;
  }

  /** `@group` standing at `p` and ending at `e` sends parse_binding on to the group number. */
  lemma GroupKeywordAt(t: string, p: nat, e: nat, id: U32)
    requires e == p + 6 && e <= |t| && t[p..e] == "@group"
    ensures BindingAt(t, p, id) == BindingAfterGroup(t, e, id)
  {
    assert t[p] == t[p..e][0] == '@';
    RunEndAt(t, p, Space, 0);
    SliceWithin(t, p, "@group", 1, 6);
    MatchesSlice(t, p + 1, "group");
  }

  /** `(g) ` from `p` to `e`, then `@binding` up to `e2`: the group is read and parse_binding goes on to the binding number. */
  lemma BindingKeywordAt(t: string, p: nat, e: nat, e2: nat, g: string, id: U32)
    requires IsNumeral(g) && e == p + |g| + 3 && e2 == e + 8 && e2 <= |t|
    requires t[p..e] == "(" + g + ") " && t[e..e2] == "@binding"
    ensures BindingAfterGroup(t, p, id) == BindingAfterIndex(t, e2, NumeralValue(g), id)
  {
    assert t[e] == t[e..e2][0] == '@';
    ParenNumberAt(t, p, e, g);
    MatchesSlice(t, e, "@binding");
    BindingKeyword(t, p, e, e2, NumeralValue(g), id);
  }

  /** parse_binding goes on to the binding number when `@binding` stands at `q`, after the group number `g`. */
  lemma BindingKeyword(t: string, p: nat, q: nat, q2: nat, g: nat, id: U32)
    requires ParenNumber(t, p).value == g && SkipWs(t, ParenNumber(t, p).end) == q && q2 == q + 8
    requires Matches(t, q, "@binding")
    ensures BindingAfterGroup(t, p, id) == BindingAfterIndex(t, q2, g, id)
  {
  }

  /** `(b) ` from `p` to `e`, then `var` up to `e2`: the binding number is read and the declaration after `var` is recorded. */
  lemma VarKeywordAt(t: string, p: nat, e: nat, e2: nat, g: nat, b: string, id: U32)
    requires IsNumeral(b) && e == p + |b| + 3 && e2 == e + 3 && e2 <= |t|
    requires t[p..e] == "(" + b + ") " && t[e..e2] == "var"
    ensures var d := VarDeclaration(t, e2, g, NumeralValue(b), id);
            BindingAfterIndex(t, p, g, id) == Scan(Some(d.value), d.end)
  {
    assert t[e] == t[e..e2][0] == 'v';
    ParenNumberAt(t, p, e, b);
    MatchesSlice(t, e, "var");
    VarKeyword(t, p, e, e2, g, NumeralValue(b), id);
  }

  /** parse_binding records the declaration after `var` when `var` stands at `q`, after the binding number `b`. */
  lemma VarKeyword(t: string, p: nat, q: nat, q2: nat, group: nat, b: nat, id: U32)
    requires ParenNumber(t, p).value == b && SkipWs(t, ParenNumber(t, p).end) == q && q2 == q + 3
    requires Matches(t, q, "var")
    ensures var d := VarDeclaration(t, q2, group, b, id);
            BindingAfterIndex(t, p, group, id) == Scan(Some(d.value), d.end)
  {
  }

  /**
   * ` n : ` from the blank that ends the qualifier: the name is read, and
   * the blanks around ':' are skipped up to the type.
   */
  lemma NameAt(t: string, p: nat, n: string)
    requires IsWordText(n) && 0 < |n| < MAX_IDENT_LENGTH - 1
    requires p < |t| && t[p] == ' '
    requires p + 4 + |n| <= |t| && t[p + 1..p + 4 + |n|] == n + " : " && !InClass(At(t, p + 4 + |n|), Space)
    ensures SkipWs(t, p) == p + 1 && Identifier(t, p + 1, false) == Scan(n, p + 1 + |n|)
    ensures SkipWs(t, p + 1 + |n|) == p + 2 + |n| && SkipWs(t, p + 3 + |n|) == p + 4 + |n|
  {
    var s := n + " : ";
    NameTextPieces(n);
    SliceWithin(t, p + 1, s, 0, |n|);
    assert t[p + 1] == t[p + 1..p + 4 + |n|][0] == n[0];
    assert t[p + 1 + |n|] == t[p + 1..p + 4 + |n|][|n|] == s[|n|];
    assert t[p + 3 + |n|] == t[p + 1..p + 4 + |n|][|n| + 2] == s[|n| + 2];
    RunEndAt(t, p, Space, 1);
    WordStandsAt(t, p + 1, n);
    RunEndAt(t, p + 1 + |n|, Space, 1);
    RunEndAt(t, p + 3 + |n|, Space, 1);
  }

  /** Where the pieces of `n : ` stand. */
  lemma NameTextPieces(n: string)
    ensures var s := n + " : ";
            |s| == |n| + 3 && s[0..|n|] == n && s[|n|] == ' ' && s[|n| + 2] == ' '
  {
  }

  /**
   * The type `w x` of a buffer declaration standing at `p`: the word `w`
   * decides the binding type, and the type characters after it become
   * the data type.
   */
  lemma TypeAt(t: string, from: nat, p: nat, w: string, x: string, b: BindingInfo)
    requires IsWordText(w) && 0 < |w| < MAX_IDENT_LENGTH - 1 && w != "texture" && w != "storage_texture"
    requires IsTypeText(x) && |x| < MAX_IDENT_LENGTH - 1 && (x != [] ==> !InClass(x[0], Word))
    requires SkipWs(t, from) == p
    requires p + |w| + |x| <= |t| && t[p..p + |w| + |x|] == w + x && !InClass(At(t, p + |w| + |x|), TypeWord)
    requires b.bindingType == Buffer && b.dataType == []
    ensures TypedVar(t, from, b) == Scan(b.(dataType := x), p + |w| + |x|)
  {
    SliceWithin(t, p, w + x, 0, |w|);
    assert (w + x)[0..|w|] == w;
    assert !InClass(At(t, p + |w|), Word) by {
      if x != [] {
        assert t[p + |w|] == t[p..p + |w| + |x|][|w|] == x[0];
      }
    }
    WordStandsAt(t, p, w);
    forall i | 0 <= i < |x| ensures At(t, p + |w| + i) == x[i] && InClass(x[i], TypeWord) {
      assert t[p + |w| + i] == t[p..p + |w| + |x|][|w| + i];
    }
    IdentifierReadsWord(t, p + |w|, x, true);
  }

  /** The qualifier opens with '<' and ends in the blank after '>'. */
  lemma QualifierShape(f: UsageFlags)
    ensures var q := QualifierText(f); |q| >= 3 && q[0] == '<' && q[|q| - 2] == '>' && q[|q| - 1] == ' '
  {
  }

  /** The name after the qualifier read up to `e0`, read as `n` up to `k`, leaves the type from the ':' on. */
  lemma NamedVarStep(t: string, f: UsageFlags, e0: nat, g: nat, b: nat, id: U32, n: string, k: nat)
    requires Producible(f) && Identifier(t, SkipWs(t, e0 + 1), false) == Scan(n, k)
    ensures NamedVar(t, Scan(f, e0), g, b, id) == TypedVar(t, SkipWs(t, k) + 1, BindingInfo(g, b, id, Buffer, f, [], n))
  {
  }

  /** The name and type after a qualifier with flags `f` whose closing '>' is at `e0`. */
  lemma NamedVarAt(t: string, f: UsageFlags, e0: nat, e1: nat, e2: nat, e3: nat, g: nat, b: nat, id: U32,
                   n: string, w: string, x: string)
    requires Producible(f)
    requires IsWordText(n) && 0 < |n| < MAX_IDENT_LENGTH - 1
    requires IsWordText(w) && 0 < |w| < MAX_IDENT_LENGTH - 1 && w != "texture" && w != "storage_texture"
    requires IsTypeText(x) && |x| < MAX_IDENT_LENGTH - 1 && (x != [] ==> !InClass(x[0], Word))
    requires e1 == e0 + 2 && e2 == e1 + |n| + 3 && e3 == e2 + |w| + |x| && e3 <= |t|
    requires t[e0 + 1] == ' ' && t[e1..e2] == n + " : " && t[e2..e3] == w + x
    requires !InClass(At(t, e3), TypeWord)
    ensures NamedVar(t, Scan(f, e0), g, b, id) == Scan(BindingInfo(g, b, id, Buffer, f, x, n), e3)
  {
    assert t[e2] == t[e2..e3][0] == w[0];
    NameAt(t, e0 + 1, n);
    NamedVarStep(t, f, e0, g, b, id, n, e1 + |n|);
    TypeAt(t, e1 + |n| + 2, e2, w, x, BindingInfo(g, b, id, Buffer, f, [], n));
  }

  /**
   * The declaration after `var` at `p`, once the qualifier there has been
   * read as `f` up to the blank at `e1 - 1`: name and ':' up to `e2`, type up to `e3`.
   */
  lemma DeclarationAt(t: string, p: nat, e1: nat, e2: nat, e3: nat, g: nat, b: nat, id: U32,
                      f: UsageFlags, n: string, w: string, x: string)
    requires Producible(f)
    requires IsWordText(n) && 0 < |n| < MAX_IDENT_LENGTH - 1
    requires IsWordText(w) && 0 < |w| < MAX_IDENT_LENGTH - 1 && w != "texture" && w != "storage_texture"
    requires IsTypeText(x) && |x| < MAX_IDENT_LENGTH - 1 && (x != [] ==> !InClass(x[0], Word))
    requires p + 3 <= e1 && e2 == e1 + |n| + 3 && e3 == e2 + |w| + |x| && e3 <= |t|
    requires SkipWs(t, p) == p && StorageClass(t, p + 1) == Scan(f, e1 - 2) && t[e1 - 1] == ' '
    requires t[e1..e2] == n + " : " && t[e2..e3] == w + x && !InClass(At(t, e3), TypeWord)
    ensures VarDeclaration(t, p, g, b, id) == Scan(BindingInfo(g, b, id, Buffer, f, x, n), e3)
  {
    VarDeclarationAfter(t, p, f, e1 - 2, g, b, id);
    NamedVarAt(t, f, e1 - 2, e1, e2, e3, g, b, id, n, w, x);
  }

  /** `var` at `p` with no blank before the qualifier, which reads as `f` up to `e0`. */
  lemma VarDeclarationAfter(t: string, p: nat, f: UsageFlags, e0: nat, g: nat, b: nat, id: U32)
    requires SkipWs(t, p) == p && StorageClass(t, p + 1) == Scan(f, e0)
    ensures VarDeclaration(t, p, g, b, id) == NamedVar(t, Scan(f, e0), g, b, id)
  {
  }

  /** The qualifier standing from `p` to `e1`: no blank before it, its flags, and the blank it ends with. */
  lemma QualifierStandsAt(t: string, p: nat, e1: nat, f: UsageFlags)
    requires Producible(f) && e1 == p + |QualifierText(f)| && e1 <= |t| && t[p..e1] == QualifierText(f)
    ensures e1 >= p + 3 && SkipWs(t, p) == p && StorageClass(t, p + 1) == Scan(f, e1 - 2) && t[e1 - 1] == ' '
  {
    var q := QualifierText(f);
    QualifierShape(f);
    assert t[p] == t[p..e1][0] == '<';
    assert t[e1 - 1] == t[p..e1][|q| - 1] == ' ';
    RunEndAt(t, p, Space, 0);
    QualifierRoundTrip(t, p, f);
  }

  /**
   * A buffer declaration whose pieces stand one after the other from
   * position 0: `@group` up to `e1`, `(g) ` up to `e2`, `@binding` up to
   * `e3`, `(b) ` up to `e4`, `var` up to `e5`, the qualifier up to `e6`,
   * `n : ` up to `e7` and the type up to `e8`.
   */
  lemma BindingFromPieces(t: string, g: string, b: string, f: UsageFlags, n: string, w: string, x: string, id: U32,
                          e1: nat, e2: nat, e3: nat, e4: nat, e5: nat, e6: nat, e7: nat, e8: nat)
    requires IsNumeral(g) && IsNumeral(b) && Producible(f)
    requires IsWordText(n) && 0 < |n| < MAX_IDENT_LENGTH - 1
    requires IsWordText(w) && 0 < |w| < MAX_IDENT_LENGTH - 1 && w != "texture" && w != "storage_texture"
    requires IsTypeText(x) && |x| < MAX_IDENT_LENGTH - 1 && (x != [] ==> !InClass(x[0], Word))
    requires e1 == 6 && e2 == e1 + |g| + 3 && e3 == e2 + 8 && e4 == e3 + |b| + 3
    requires e5 == e4 + 3 && e6 == e5 + |QualifierText(f)| && e7 == e6 + |n| + 3 && e8 == e7 + |w| + |x| && e8 <= |t|
    requires t[0..e1] == "@group" && t[e1..e2] == "(" + g + ") " && t[e2..e3] == "@binding"
    requires t[e3..e4] == "(" + b + ") " && t[e4..e5] == "var" && t[e5..e6] == QualifierText(f)
    requires t[e6..e7] == n + " : " && t[e7..e8] == w + x && !InClass(At(t, e8), TypeWord)
    ensures BindingAt(t, 0, id) == Scan(Some(BindingInfo(NumeralValue(g), NumeralValue(b), id, Buffer, f, x, n)), e8)
  {
    QualifierStandsAt(t, e5, e6, f);
    DeclarationAt(t, e5, e6, e7, e8, NumeralValue(g), NumeralValue(b), id, f, n, w, x);
    VarKeywordAt(t, e3, e4, e5, NumeralValue(g), b, id);
    BindingKeywordAt(t, e1, e2, e3, g, id);
    GroupKeywordAt(t, 0, e1, id);
  }

  /**
   * A buffer declaration as a shader writes it, with the qualifier
   * print_shader_info prints: `@group(g) @binding(b) var<class, access> n : w x`
   * and whatever follows.
   */
  function BindingText(g: nat, b: nat, f: UsageFlags, n: string, w: string, x: string, rest: string): string
  {
    "@group" + ("(" + DecimalText(g) + ") ") + "@binding" + ("(" + DecimalText(b) + ") ") + "var" +
    QualifierText(f) + (n + " : ") + (w + x) + rest
  }

  /**
   * parse_binding reads a buffer declaration back: group, binding, flags
   * and name are the ones written, and the data type is what follows the
   * first word of the type (`array<f32>` leaves `<f32>`); the cursor stops
   * where `rest` begins.
   */
  lemma BindingReadsBack(g: nat, b: nat, f: UsageFlags, n: string, w: string, x: string, rest: string, id: U32)
    requires Producible(f)
    requires IsWordText(n) && 0 < |n| < MAX_IDENT_LENGTH - 1
    requires IsWordText(w) && 0 < |w| < MAX_IDENT_LENGTH - 1 && w != "texture" && w != "storage_texture"
    requires IsTypeText(x) && |x| < MAX_IDENT_LENGTH - 1 && (x != [] ==> !InClass(x[0], Word))
    requires !InClass(At(rest, 0), TypeWord)
    ensures var t := BindingText(g, b, f, n, w, x, rest);
            BindingAt(t, 0, id) == Scan(Some(BindingInfo(g, b, id, Buffer, f, x, n)), |t| - |rest|)
  {
    var s1 := "@group";
    var s2 := s1 + ("(" + DecimalText(g) + ") ");
    var s3 := s2 + "@binding";
    var s4 := s3 + ("(" + DecimalText(b) + ") ");
    var s5 := s4 + "var";
    var s6 := s5 + QualifierText(f);
    var s7 := s6 + (n + " : ");
    var s8 := s7 + (w + x);
    var t := s8 + rest;
    assert t[..|s8|] == s8;
    PrefixStep(t, s7, w + x);
    PrefixStep(t, s6, n + " : ");
    PrefixStep(t, s5, QualifierText(f));
    PrefixStep(t, s4, "var");
    PrefixStep(t, s3, "(" + DecimalText(b) + ") ");
    PrefixStep(t, s2, "@binding");
    PrefixStep(t, s1, "(" + DecimalText(g) + ") ");
    assert At(t, |s8|) == At(rest, 0);
    DecimalValueOfText(g);
    DecimalValueOfText(b);
    BindingFromPieces(t, DecimalText(g), DecimalText(b), f, n, w, x, id, |s1|, |s2|, |s3|, |s4|, |s5|, |s6|, |s7|, |s8|);
  }

  /** Text after the first |s| characters is read as it reads on its own. */
  lemma MatchesAfter(s: string, rest: string, lit: string)
    ensures Matches(s + rest, |s|, lit) <==> Matches(rest, 0, lit)
  {
    forall i | 0 <= i < |lit| ensures At(rest, i) == At(s + rest, |s| + i) {
    }
  }

  /** Without `@binding` after the group number, parse_binding records nothing. */
  lemma BindingWithoutBindingKeyword(g: nat, rest: string, id: U32)
    requires !InClass(At(rest, 0), Space) && !Matches(rest, 0, "@binding")
    ensures BindingAt("@group" + ("(" + DecimalText(g) + ") ") + rest, 0, id).value == None
  {
    var s1 := "@group";
    var s2 := s1 + ("(" + DecimalText(g) + ") ");
    var t := s2 + rest;
    PrefixStep(t, s1, "(" + DecimalText(g) + ") ");
    assert At(t, |s2|) == At(rest, 0);
    MatchesAfter(s2, rest, "@binding");
    ParenNumberAt(t, |s1|, |s2|, DecimalText(g));
    GroupKeywordAt(t, 0, |s1|, id);
  }

  /** parse_binding stops without a record when `var` does not follow the binding number. */
  lemma NoVarKeyword(t: string, p: nat, q: nat, group: nat, id: U32)
    requires SkipWs(t, ParenNumber(t, p).end) == q && !Matches(t, q, "var")
    ensures BindingAfterIndex(t, p, group, id).value == None
  {
  }

  /** `@group(g) @binding(b) ` standing at 0, its pieces ending at `e1` to `e4`, and no `var` at `e4`. */
  lemma NoVarFromPieces(t: string, g: string, b: string, id: U32, e1: nat, e2: nat, e3: nat, e4: nat)
    requires IsNumeral(g) && IsNumeral(b)
    requires e1 == 6 && e2 == e1 + |g| + 3 && e3 == e2 + 8 && e4 == e3 + |b| + 3 && e4 <= |t|
    requires t[0..e1] == "@group" && t[e1..e2] == "(" + g + ") " && t[e2..e3] == "@binding"
    requires t[e3..e4] == "(" + b + ") " && !InClass(At(t, e4), Space) && !Matches(t, e4, "var")
    ensures BindingAt(t, 0, id).value == None
  {
    ParenNumberAt(t, e3, e4, b);
    NoVarKeyword(t, e3, e4, NumeralValue(g), id);
    BindingKeywordAt(t, e1, e2, e3, g, id);
    GroupKeywordAt(t, 0, e1, id);
  }

  /** Without `var` after the binding number, parse_binding records nothing. */
  lemma BindingWithoutVarKeyword(g: nat, b: nat, rest: string, id: U32)
    requires !InClass(At(rest, 0), Space) && !Matches(rest, 0, "var")
    ensures BindingAt("@group" + ("(" + DecimalText(g) + ") ") + "@binding" + ("(" + DecimalText(b) + ") ") + rest, 0, id).value
            == None
  {
    var s1 := "@group";
    var s2 := s1 + ("(" + DecimalText(g) + ") ");
    var s3 := s2 + "@binding";
    var s4 := s3 + ("(" + DecimalText(b) + ") ");
    var t := s4 + rest;
    PrefixStep(t, s3, "(" + DecimalText(b) + ") ");
    PrefixStep(t, s2, "@binding");
    PrefixStep(t, s1, "(" + DecimalText(g) + ") ");
    assert At(t, |s4|) == At(rest, 0);
    MatchesAfter(s4, rest, "var");
    NoVarFromPieces(t, DecimalText(g), DecimalText(b), id, |s1|, |s2|, |s3|, |s4|);
  }

  // ---------------------------------------------------------------------
  // Reading back an entry point

  /** `@sw ` from position 0, with `sw` a stage word and a non-blank after the blank. */
  lemma StageAttributeAt(t: string, sw: string, e1: nat)
    requires sw == "compute" || sw == "vertex" || sw == "fragment"
    requires e1 == 1 + |sw| && e1 + 2 <= |t|
    requires t[0..1] == "@" && t[1..e1] == sw && t[e1..e1 + 1] == " " && !InClass(At(t, e1 + 1), Space)
    ensures At(t, 0) == '@' && SkipWs(t, 0) == 0
    ensures Identifier(t, 1, false) == Scan(sw, e1) && SkipWs(t, e1) == e1 + 1
  {
    assert t[0] == t[0..1][0] == '@';
    assert t[e1] == t[e1..e1 + 1][0] == ' ';
    RunEndAt(t, 0, Space, 0);
    assert IsWordText(sw);
    WordStandsAt(t, 1, sw);
    RunEndAt(t, e1, Space, 1);
  }

  /** The three numbers of `(x,y,z)` read up to `x3`, the commas at `x1` and `x2`: the cursor stops after ')'. */
  lemma WorkgroupArgsStep(t: string, p: nat, x1: nat, x2: nat, x3: nat, vx: nat, vy: nat, vz: nat)
    requires SkipWs(t, p) == p && Number(t, p + 1) == Scan(vx, x1) && At(t, x1) == ','
    requires Number(t, x1 + 1) == Scan(vy, x2) && At(t, x2) == ',' && Number(t, x2 + 1) == Scan(vz, x3)
    ensures WorkgroupArgs(t, p) == Scan([vx, vy, vz], x3 + 1)
  {
  }

  /** `(dx,dy,dz)` from `p`, with the commas at `x1` and `x2` and ')' at `x3`. */
  lemma WorkgroupArgsAt(t: string, p: nat, x1: nat, x2: nat, x3: nat, dx: string, dy: string, dz: string)
    requires IsNumeral(dx) && IsNumeral(dy) && IsNumeral(dz)
    requires x1 == p + 1 + |dx| && x2 == x1 + 1 + |dy| && x3 == x2 + 1 + |dz| && x3 < |t|
    requires t[p] == '(' && t[p + 1..x1] == dx && t[x1] == ','
    requires t[x1 + 1..x2] == dy && t[x2] == ',' && t[x2 + 1..x3] == dz && t[x3] == ')'
    ensures WorkgroupArgs(t, p) == Scan([NumeralValue(dx), NumeralValue(dy), NumeralValue(dz)], x3 + 1)
  {
    RunEndAt(t, p, Space, 0);
    NumberAt(t, p + 1, dx);
    NumberAt(t, x1 + 1, dy);
    NumberAt(t, x2 + 1, dz);
    WorkgroupArgsStep(t, p, x1, x2, x3, NumeralValue(dx), NumeralValue(dy), NumeralValue(dz));
  }

  /** The arguments of `@workgroup_size` as a shader writes all three: `(dx,dy,dz)`. */
  function ArgsText(dx: string, dy: string, dz: string): string
  {
    "(" + dx + "," + dy + "," + dz + ")"
  }

  /** Where the pieces of `(dx,dy,dz)` stand: the commas at `x1` and `x2`, ')' at `x3`. */
  lemma ArgsTextPieces(dx: string, dy: string, dz: string, x1: nat, x2: nat, x3: nat)
    requires x1 == 1 + |dx| && x2 == x1 + 1 + |dy| && x3 == x2 + 1 + |dz|
    ensures var a := ArgsText(dx, dy, dz);
            |a| == x3 + 1 && a[0] == '(' && a[1..x1] == dx && a[x1] == ','
            && a[x1 + 1..x2] == dy && a[x2] == ',' && a[x2 + 1..x3] == dz && a[x3] == ')'
  {
    var a1 := "(";
    var a2 := a1 + dx;
    var a3 := a2 + ",";
    var a4 := a3 + dy;
    var a5 := a4 + ",";
    var a6 := a5 + dz;
    var a := a6 + ")";
    PrefixStep(a, a5, dz);
    PrefixStep(a, a3, dy);
    PrefixStep(a, a1, dx);
  }

  /** `(dx,dy,dz)` standing from `p` to `e`: the three numerals are read and the cursor stops at `e`. */
  lemma ArgsTextAt(t: string, p: nat, e: nat, dx: string, dy: string, dz: string)
    requires IsNumeral(dx) && IsNumeral(dy) && IsNumeral(dz)
    requires e == p + |ArgsText(dx, dy, dz)| && e <= |t| && t[p..e] == ArgsText(dx, dy, dz)
    ensures WorkgroupArgs(t, p) == Scan([NumeralValue(dx), NumeralValue(dy), NumeralValue(dz)], e)
  {
    var a := ArgsText(dx, dy, dz);
    var x1 := 1 + |dx|;
    var x2 := x1 + 1 + |dy|;
    var x3 := x2 + 1 + |dz|;
    ArgsTextPieces(dx, dy, dz, x1, x2, x3);
    SliceWithin(t, p, a, 1, x1);
    SliceWithin(t, p, a, x1 + 1, x2);
    SliceWithin(t, p, a, x2 + 1, x3);
    assert t[p] == a[0] && t[p + x1] == a[x1] && t[p + x2] == a[x2] && t[p + x3] == a[x3];
    WorkgroupArgsAt(t, p, p + x1, p + x2, p + x3, dx, dy, dz);
  }

  /** `@workgroup_size` at `a` with its arguments read up to `e`, then one blank before a non-blank. */
  lemma WorkgroupClauseAt(t: string, a: nat, v: seq<nat>, e: nat)
    requires a + 15 <= |t| && t[a..a + 15] == "@workgroup_size"
    requires WorkgroupArgs(t, a + 15) == Scan(v, e)
    requires e + 1 <= |t| && t[e..e + 1] == " " && !InClass(At(t, e + 1), Space)
    ensures WorkgroupClause(t, a) == Scan(v, e + 1)
  {
    MatchesSlice(t, a, "@workgroup_size");
    assert t[e] == t[e..e + 1][0] == ' ';
    RunEndAt(t, e, Space, 1);
  }

  /** `fn n` from `q`, with `n` a word followed by a non-word character: the entry name is `n`. */
  lemma EntryNameAt(t: string, q: nat, n: string, m: nat)
    requires IsWordText(n) && 0 < |n| < MAX_IDENT_LENGTH - 1
    requires m == q + 3 + |n| && m <= |t|
    requires t[q..q + 3] == "fn " && t[q + 3..m] == n && !InClass(At(t, m), Word)
    ensures EntryName(t, q) == Scan(n, m)
  {
    SliceWithin(t, q, "fn ", 0, 2);
    MatchesSlice(t, q, "fn");
    assert t[q + 2] == t[q..q + 3][2] == ' ';
    assert t[q + 3] == t[q + 3..m][0] == n[0];
    RunEndAt(t, q + 2, Space, 1);
    WordStandsAt(t, q + 3, n);
  }

  /** parse_entry_point from position 0, given the scans of its attribute, workgroup clause and name. */
  lemma EntryPointFrom(t: string, sw: string, e1: nat, v: seq<nat>, q: nat, n: string, m: nat)
    requires StageOf(sw) != Unset
    requires At(t, 0) == '@' && SkipWs(t, 0) == 0
    requires Identifier(t, 1, false) == Scan(sw, e1) && SkipWs(t, e1) == e1 + 1
    requires WorkgroupClause(t, e1 + 1) == Scan(v, q) && EntryName(t, q) == Scan(n, m)
    ensures EntryPointAt(t, 0)
            == Scan(Some(EntryPoint(n, StageOf(sw), WorkgroupSize(Component(v, 0), Component(v, 1), Component(v, 2)))), m)
  {
  }

  /** `@workgroup_size(dx,dy,dz) fn` from `e2`: the clause reads the three numbers and stops at `fn`. */
  lemma WorkgroupTextAt(t: string, e2: nat, e3: nat, e4: nat, dx: string, dy: string, dz: string, v: seq<nat>)
    requires IsNumeral(dx) && IsNumeral(dy) && IsNumeral(dz) && v == [NumeralValue(dx), NumeralValue(dy), NumeralValue(dz)]
    requires e3 == e2 + 15 && e4 == e3 + |ArgsText(dx, dy, dz)| && e4 + 4 <= |t|
    requires t[e2..e3] == "@workgroup_size" && t[e3..e4] == ArgsText(dx, dy, dz)
    requires t[e4..e4 + 1] == " " && t[e4 + 1..e4 + 4] == "fn "
    ensures WorkgroupClause(t, e2) == Scan(v, e4 + 1)
  {
    ArgsTextAt(t, e3, e4, dx, dy, dz);
    assert t[e4 + 1] == t[e4 + 1..e4 + 4][0] == 'f';
    WorkgroupClauseAt(t, e2, v, e4);
  }

  /**
   * An entry point from position 0: `@sw` up to `e1` and a blank, a
   * workgroup clause from `e1 + 1` read as `v` up to `q`, and `fn n` from
   * `q` to `m`.
   */
  lemma EntryFromPieces(t: string, sw: string, n: string, v: seq<nat>, e1: nat, q: nat, m: nat)
    requires sw == "compute" || sw == "vertex" || sw == "fragment"
    requires IsWordText(n) && 0 < |n| < MAX_IDENT_LENGTH - 1
    requires e1 == 1 + |sw| && e1 + 1 <= q && m == q + 3 + |n| && m <= |t|
    requires t[0..1] == "@" && t[1..e1] == sw && t[e1..e1 + 1] == " " && !InClass(At(t, e1 + 1), Space)
    requires WorkgroupClause(t, e1 + 1) == Scan(v, q)
    requires t[q..q + 3] == "fn " && t[q + 3..m] == n && !InClass(At(t, m), Word)
    ensures EntryPointAt(t, 0)
            == Scan(Some(EntryPoint(n, StageOf(sw), WorkgroupSize(Component(v, 0), Component(v, 1), Component(v, 2)))), m)
  {
    StageAttributeAt(t, sw, e1);
    EntryNameAt(t, q, n, m);
    EntryPointFrom(t, sw, e1, v, q, n, m);
  }

  /**
   * An entry point whose pieces stand one after the other from position 0:
   * `@sw` up to `e1`, a blank, `@workgroup_size` from `e2` to `e3`, the
   * arguments up to `e4`, a blank, and `fn n` from `e4 + 1` to `m`.
   */
  lemma SizedEntryFromPieces(t: string, sw: string, dx: string, dy: string, dz: string, n: string, v: seq<nat>,
                             e1: nat, e2: nat, e3: nat, e4: nat, m: nat)
    requires sw == "compute" || sw == "vertex" || sw == "fragment"
    requires IsNumeral(dx) && IsNumeral(dy) && IsNumeral(dz) && v == [NumeralValue(dx), NumeralValue(dy), NumeralValue(dz)]
    requires IsWordText(n) && 0 < |n| < MAX_IDENT_LENGTH - 1
    requires e1 == 1 + |sw| && e2 == e1 + 1 && e3 == e2 + 15 && e4 == e3 + |ArgsText(dx, dy, dz)| && m == e4 + 4 + |n| && m <= |t|
    requires t[0..1] == "@" && t[1..e1] == sw && t[e1..e2] == " " && t[e2..e3] == "@workgroup_size"
    requires t[e3..e4] == ArgsText(dx, dy, dz) && t[e4..e4 + 1] == " " && t[e4 + 1..e4 + 4] == "fn " && t[e4 + 4..m] == n
    requires !InClass(At(t, m), Word)
    ensures EntryPointAt(t, 0)
            == Scan(Some(EntryPoint(n, StageOf(sw), WorkgroupSize(Component(v, 0), Component(v, 1), Component(v, 2)))), m)
  {
    assert t[e2] == t[e2..e3][0] == '@';
    WorkgroupTextAt(t, e2, e3, e4, dx, dy, dz, v);
    EntryFromPieces(t, sw, n, v, e1, e4 + 1, m);
  }

  /** An entry point as a shader writes it: `@sw @workgroup_size(x,y,z) fn n` and whatever follows. */
  function EntryText(sw: string, x: nat, y: nat, z: nat, n: string, rest: string): string
  {
    "@" + sw + " " + "@workgroup_size" + ArgsText(DecimalText(x), DecimalText(y), DecimalText(z)) + " " + "fn " + n + rest
  }

  /**
   * parse_entry_point reads an entry point back: its stage, its name, and
   * each workgroup size stored in 8 bits with 0 replaced by 1; the cursor
   * stops where `rest` begins.
   */
  lemma EntryReadsBack(sw: string, x: nat, y: nat, z: nat, n: string, rest: string)
    requires sw == "compute" || sw == "vertex" || sw == "fragment"
    requires IsWordText(n) && 0 < |n| < MAX_IDENT_LENGTH - 1
    requires !InClass(At(rest, 0), Word)
    ensures var t := EntryText(sw, x, y, z, n, rest);
            var v := [x, y, z];
            EntryPointAt(t, 0)
            == Scan(Some(EntryPoint(n, StageOf(sw), WorkgroupSize(Component(v, 0), Component(v, 1), Component(v, 2)))),
                    |t| - |rest|)
  {
    var args := ArgsText(DecimalText(x), DecimalText(y), DecimalText(z));
    var s1 := "@";
    var s2 := s1 + sw;
    var s3 := s2 + " ";
    var s4 := s3 + "@workgroup_size";
    var s5 := s4 + args;
    var s6 := s5 + " ";
    var s7 := s6 + "fn ";
    var s8 := s7 + n;
    var t := s8 + rest;
    assert t[..|s8|] == s8;
    PrefixStep(t, s7, n);
    PrefixStep(t, s6, "fn ");
    PrefixStep(t, s5, " ");
    PrefixStep(t, s4, args);
    PrefixStep(t, s3, "@workgroup_size");
    PrefixStep(t, s2, " ");
    PrefixStep(t, s1, sw);
    assert At(t, |s8|) == At(rest, 0);
    DecimalValueOfText(x);
    DecimalValueOfText(y);
    DecimalValueOfText(z);
    SizedEntryFromPieces(t, sw, DecimalText(x), DecimalText(y), DecimalText(z), n, [x, y, z], |s2|, |s3|, |s4|, |s5|, |s8|);
  }

  /** An entry point without a workgroup size, as a shader writes it: `@sw fn n` and whatever follows. */
  function PlainEntryText(sw: string, n: string, rest: string): string
  {
    "@" + sw + " " + "fn " + n + rest
  }

  /**
   * parse_entry_point reads an entry point without `@workgroup_size` back:
   * its stage and name, and the workgroup size 1 in every dimension.
   */
  lemma PlainEntryReadsBack(sw: string, n: string, rest: string)
    requires sw == "compute" || sw == "vertex" || sw == "fragment"
    requires IsWordText(n) && 0 < |n| < MAX_IDENT_LENGTH - 1
    requires !InClass(At(rest, 0), Word)
    ensures var t := PlainEntryText(sw, n, rest);
            EntryPointAt(t, 0) == Scan(Some(EntryPoint(n, StageOf(sw), WorkgroupSize(1, 1, 1))), |t| - |rest|)
  {
    var s1 := "@";
    var s2 := s1 + sw;
    var s3 := s2 + " ";
    var s4 := s3 + "fn ";
    var s5 := s4 + n;
    var t := s5 + rest;
    assert t[..|s5|] == s5;
    PrefixStep(t, s4, n);
    PrefixStep(t, s3, "fn ");
    PrefixStep(t, s2, " ");
    PrefixStep(t, s1, sw);
    assert At(t, |s5|) == At(rest, 0);
    assert t[|s3|] == t[|s3|..|s4|][0] == 'f';
    assert At(t, |s3| + 0) != "@workgroup_size"[0];
    assert WorkgroupClause(t, |s3|) == Scan([], |s3|);
    EntryFromPieces(t, sw, n, [], |s2|, |s3|, |s5|);
  }

  /**
   * A shader whose text ends in whitespace: the last round skips the
   * whitespace to the terminator, and its `next` steps over the terminator,
   * so the loop test then reads the byte after it.
   */
  lemma TrailingWhitespaceReadsPastEnd(t: string, p: nat, id: U32, bs: seq<BindingInfo>, eps: seq<EntryPoint>)
    requires p < |t|
    requires forall i :: p <= i < |t| ==> InClass(t[i], Space)
    ensures ShaderFrom(t, p, id, bs, eps) == Parsed(bs, eps, |t| + 1)
  {
    RunEndAt(t, p, Space, |t| - p);
    assert RoundAt(t, p, id) == Round(None, None, |t| + 1);
    assert bs + [] == bs && eps + [] == eps;
  }

  /**
   * Records are appended without a capacity check: once the three slots of
   * `bindings` are taken, a round that finds a binding leaves more records
   * than ShaderInfo can hold.
   */
  lemma BindingCapacityUnchecked(t: string, p: nat, id: U32, bs: seq<BindingInfo>, eps: seq<EntryPoint>)
    requires At(t, p) != NUL && RoundAt(t, p, id).binding.Some?
    requires |bs| == MAX_ENTRIES
    ensures var r := ShaderFrom(t, p, id, bs, eps);
            |r.bindings| > MAX_ENTRIES && !InfoFits(r.bindings, r.entryPoints)
  {
  }

  lemma EntryPointCapacityUnchecked(t: string, p: nat, id: U32, bs: seq<BindingInfo>, eps: seq<EntryPoint>)
    requires At(t, p) != NUL && RoundAt(t, p, id).entryPoint.Some?
    requires |eps| == MAX_ENTRIES
    ensures var r := ShaderFrom(t, p, id, bs, eps);
            |r.entryPoints| > MAX_ENTRIES && !InfoFits(r.bindings, r.entryPoints)
  {
  }

  /** The records as parse_shader evidently means to keep them: the first MAX_ENTRIES, in order. */
  function FirstEntries<T>(xs: seq<T>): (r: seq<T>)
    ensures |r| <= MAX_ENTRIES && r <= xs
    ensures |xs| <= MAX_ENTRIES ==> r == xs
  {
    if |xs| <= MAX_ENTRIES then xs else xs[..MAX_ENTRIES]
  }

  /** Appends the record of a round only while the array has a free slot. */
  function KeepIfRoom<T>(xs: seq<T>, o: Option<T>): (r: seq<T>)
    requires |xs| <= MAX_ENTRIES
    ensures |r| <= MAX_ENTRIES
    ensures |xs| < MAX_ENTRIES ==> r == xs + OptionSeq(o)
    ensures |xs| == MAX_ENTRIES ==> r == xs
  {
    if |xs| < MAX_ENTRIES then xs + OptionSeq(o) else xs
  }

  /**
   * parse_shader as evidently intended: the same rounds, but a binding or an
   * entry point found when its array is full is dropped instead of written
   * past the array.
   */
  function ShaderFromCapped(t: string, p: nat, id: U32, bs: seq<BindingInfo>, eps: seq<EntryPoint>): (r: Parsed)
    requires |bs| <= MAX_ENTRIES && |eps| <= MAX_ENTRIES
    ensures |r.bindings| <= MAX_ENTRIES && |r.entryPoints| <= MAX_ENTRIES
    ensures p <= r.end && At(t, r.end) == NUL
    decreases |t| - p
  {
    if At(t, p) == NUL then Parsed(bs, eps, p)
    else
      var s := RoundAt(t, p, id);
      ShaderFromCapped(t, s.end, id, KeepIfRoom(bs, s.binding), KeepIfRoom(eps, s.entryPoint))
  }

  /**
   * The capped parse never holds more records than ShaderInfo has slots, and
   * it keeps exactly the first MAX_ENTRIES bindings and entry points that the
   * parse as written finds.
   */
  lemma {:induction false} CappedKeepsFirstEntries(t: string, p: nat, id: U32, bs: seq<BindingInfo>, eps: seq<EntryPoint>)
    requires |bs| <= MAX_ENTRIES && |eps| <= MAX_ENTRIES
    ensures var r := ShaderFrom(t, p, id, bs, eps);
            var c := ShaderFromCapped(t, p, id, bs, eps);
            c.bindings == FirstEntries(r.bindings) && c.entryPoints == FirstEntries(r.entryPoints)
    decreases |t| - p
  {
    if At(t, p) != NUL {
      var s := RoundAt(t, p, id);
      var bs', eps' := KeepIfRoom(bs, s.binding), KeepIfRoom(eps, s.entryPoint);
      CappedKeepsFirstEntries(t, s.end, id, bs', eps');
      var bsAll, epsAll := bs + OptionSeq(s.binding), eps + OptionSeq(s.entryPoint);
      var r', r := ShaderFrom(t, s.end, id, bs', eps'), ShaderFrom(t, s.end, id, bsAll, epsAll);
      ShaderFromStep(t, p, id, bs, eps, s);
      CappedStep(t, p, id, bs, eps, s);
      BindingsIgnoreEntryPoints(t, s.end, id, bs', eps', epsAll);
      EntryPointsIgnoreBindings(t, s.end, id, bs', bsAll, epsAll);
      FirstEntriesAfterRound(bs, s.binding, r'.bindings, ShaderFrom(t, s.end, id, bs', epsAll).bindings, r.bindings);
      FirstEntriesAfterRound(eps, s.entryPoint, r'.entryPoints, ShaderFrom(t, s.end, id, bsAll, eps').entryPoints, r.entryPoints);
    }
  }

  /** One round of the parse as written. */
  lemma ShaderFromStep(t: string, p: nat, id: U32, bs: seq<BindingInfo>, eps: seq<EntryPoint>, s: Round)
    requires At(t, p) != NUL && s == RoundAt(t, p, id)
    ensures ShaderFrom(t, p, id, bs, eps) == ShaderFrom(t, s.end, id, bs + OptionSeq(s.binding), eps + OptionSeq(s.entryPoint))
  {
  }

  /** One round of the capped parse. */
  lemma CappedStep(t: string, p: nat, id: U32, bs: seq<BindingInfo>, eps: seq<EntryPoint>, s: Round)
    requires |bs| <= MAX_ENTRIES && |eps| <= MAX_ENTRIES
    requires At(t, p) != NUL && s == RoundAt(t, p, id)
    ensures ShaderFromCapped(t, p, id, bs, eps) == ShaderFromCapped(t, s.end, id, KeepIfRoom(bs, s.binding), KeepIfRoom(eps, s.entryPoint))
  {
  }

  /** The bindings parse_shader collects do not depend on the entry points collected beside them. */
  lemma {:induction false} BindingsIgnoreEntryPoints(t: string, p: nat, id: U32, bs: seq<BindingInfo>, eps: seq<EntryPoint>, eps2: seq<EntryPoint>)
    ensures ShaderFrom(t, p, id, bs, eps).bindings == ShaderFrom(t, p, id, bs, eps2).bindings
    decreases |t| - p
  {
    if At(t, p) != NUL {
      var s := RoundAt(t, p, id);
      BindingsIgnoreEntryPoints(t, s.end, id, bs + OptionSeq(s.binding), eps + OptionSeq(s.entryPoint), eps2 + OptionSeq(s.entryPoint));
    }
  }

  /** The entry points parse_shader collects do not depend on the bindings collected beside them. */
  lemma {:induction false} EntryPointsIgnoreBindings(t: string, p: nat, id: U32, bs: seq<BindingInfo>, bs2: seq<BindingInfo>, eps: seq<EntryPoint>)
    ensures ShaderFrom(t, p, id, bs, eps).entryPoints == ShaderFrom(t, p, id, bs2, eps).entryPoints
    decreases |t| - p
  {
    if At(t, p) != NUL {
      var s := RoundAt(t, p, id);
      EntryPointsIgnoreBindings(t, s.end, id, bs + OptionSeq(s.binding), bs2 + OptionSeq(s.binding), eps + OptionSeq(s.entryPoint));
    }
  }

  /**
   * After one round, the run that kept the record only if there was room
   * (`kept`) and the run that appended it regardless (`all`) keep the same
   * first records: the same run while there is room, and the full array
   * once there is none.
   */
  lemma FirstEntriesAfterRound<T>(xs: seq<T>, o: Option<T>, kept: seq<T>, same: seq<T>, all: seq<T>)
    requires |xs| <= MAX_ENTRIES
    requires kept == same && (|xs| < MAX_ENTRIES ==> same == all)
    requires xs <= kept && xs <= all
    ensures FirstEntries(kept) == FirstEntries(all)
  {
    if |xs| == MAX_ENTRIES {
      assert kept[..MAX_ENTRIES] == xs;
      assert all[..MAX_ENTRIES] == xs;
    }
  }

  /** A run of 32 type characters gives an identifier the 32-byte `data_type` buffer cannot hold. */
  lemma LongTypeOverflowsDataType(t: string, p: nat)
    requires forall i :: p <= i < p + DATA_TYPE_LENGTH ==> InClass(At(t, i), TypeWord)
    ensures |Identifier(t, p, true).value| >= DATA_TYPE_LENGTH
  {
    WordFromLong(t, p, TypeWord, MAX_IDENT_LENGTH - 1, DATA_TYPE_LENGTH);
  }

  lemma Infix(a: string, b: string, c: string)
    ensures (a + b + c)[|a|..|a| + |b|] == b
  {
    assert (a + b + c)[..|a| + |b|] == a + b;
  }

  /** A keyword spelled out in the text is matched by `strncmp`. */
  lemma MatchesSlice(t: string, p: nat, lit: string)
    requires p + |lit| <= |t| && t[p..p + |lit|] == lit
    ensures Matches(t, p, lit)
  {
    forall i | 0 <= i < |lit| ensures At(t, p + i) == lit[i] {
      assert t[p..p + |lit|][i] == t[p + i];
    }
  }

  /**
   * `@workgroup_size(x)`: after the number, the test for ',' consumes the
   * ')' and the skip meant for ')' consumes the character after it.
   */
  lemma OneArgumentSkipsNextChar(pre: string, n: nat, rest: string)
    ensures var t := pre + "(" + DecimalText(n) + ")" + rest;
            WorkgroupArgs(t, |pre|) == Scan([n], |pre| + |DecimalText(n)| + 3)
  {
    var d := DecimalText(n);
    var t := pre + "(" + d + ")" + rest;
    assert t[|pre|] == '(';
    RunEndAt(t, |pre|, Space, 0);
    assert t == (pre + "(") + d + (")" + rest);
    NumberReadsDecimalText(pre + "(", n, ")" + rest);
    assert At(t, |pre| + 1 + |d|) == ')';
  }

  /** parse_entry_point over `@compute @workgroup_size(…)` not followed by `fn`, given the scans it makes. */
  lemma ComputeEntryWithoutName(t: string, v: seq<nat>, e: nat)
    requires At(t, 0) == '@' && SkipWs(t, 0) == 0
    requires Identifier(t, 1, false) == Scan("compute", 8)
    requires SkipWs(t, 8) == 9 && Matches(t, 9, "@workgroup_size")
    requires WorkgroupArgs(t, 24) == Scan(v, e) && SkipWs(t, e) == e && !Matches(t, e, "fn")
    ensures EntryPointAt(t, 0).value
            == Some(EntryPoint([], ComputeStage, WorkgroupSize(Component(v, 0), Component(v, 1), Component(v, 2))))
  {
    assert StageOf("compute") == ComputeStage;
    assert WorkgroupClause(t, 9) == Scan(v, e);
    assert EntryName(t, e) == Scan([], e);
  }

  /** `@compute @workgroup_size(n)fn…`: a one-number workgroup size written right before `fn`. */
  function AdjacentFnText(n: nat, rest: string): string
  {
    "@" + "compute" + " " + "@workgroup_size" + "(" + DecimalText(n) + ")" + ("fn" + rest)
  }

  lemma AdjacentFnAttribute(n: nat, rest: string)
    ensures var t := AdjacentFnText(n, rest);
            At(t, 0) == '@' && SkipWs(t, 0) == 0 && Identifier(t, 1, false) == Scan("compute", 8) && SkipWs(t, 8) == 9
  {
    var kw, ws := "compute", "@workgroup_size";
    var pre := "@" + kw + " " + ws;
    var t := AdjacentFnText(n, rest);
    assert t[..|pre|] == pre;
    assert t[0] == pre[0] == '@';
    RunEndAt(t, 0, Space, 0);
    assert IsWordText(kw);
    Infix("@", kw, " " + ws);
    assert t[1..8] == pre[1..8] == kw;
    assert t[8] == pre[8] == ' ' && t[9] == pre[9] == '@';
    WordStandsAt(t, 1, kw);
    RunEndAt(t, 8, Space, 1);
  }

  lemma AdjacentFnWorkgroup(n: nat, rest: string)
    ensures var t := AdjacentFnText(n, rest);
            var e := 24 + |DecimalText(n)| + 3;
            Matches(t, 9, "@workgroup_size") && WorkgroupArgs(t, 24) == Scan([n], e) &&
            SkipWs(t, e) == e && !Matches(t, e, "fn")
  {
    var kw, ws := "compute", "@workgroup_size";
    var pre := "@" + kw + " " + ws;
    var t := AdjacentFnText(n, rest);
    var e := 24 + |DecimalText(n)| + 3;
    assert t[..|pre|] == pre;
    Infix("@" + kw + " ", ws, "");
    assert t[9..24] == pre[9..24] == ws;
    MatchesSlice(t, 9, ws);
    assert t == pre + "(" + DecimalText(n) + ")" + ("fn" + rest);
    OneArgumentSkipsNextChar(pre, n, "fn" + rest);
    assert t[e] == 'n';
    assert At(t, e + 0) != "fn"[0];
    RunEndAt(t, e, Space, 0);
  }

  /**
   * `@compute @workgroup_size(n)fn main`: the character skipped after ')'
   * is the 'f' of `fn`, so the entry point is recorded without its name;
   * its x size is n stored in 8 bits, with 0 replaced by 1.
   */
  lemma AdjacentFnLosesEntryName(n: nat, rest: string)
    ensures EntryPointAt(AdjacentFnText(n, rest), 0).value
            == Some(EntryPoint([], ComputeStage, WorkgroupSize(Component([n], 0), 1, 1)))
  {
    var t := AdjacentFnText(n, rest);
    AdjacentFnAttribute(n, rest);
    AdjacentFnWorkgroup(n, rest);
    ComputeEntryWithoutName(t, [n], 24 + |DecimalText(n)| + 3);
    assert Component([n], 1) == 1 && Component([n], 2) == 1;
  }


}
