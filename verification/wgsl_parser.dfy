/**
 * The WGSL scanner as it runs: a cursor over the shader text that every
 * routine advances in place, and a ShaderInfo whose binding and entry-point
 * lists it appends to. Each method is proved to compute the WgslSpec
 * function of the same name from the cursor it starts at.
 */
module WgslParser {
  import opened Common
  import opened WgslTypes
  import opened WgslSpec

  /** The records found in one shader; the lists grow as the scanner finds declarations. */
  class ShaderInfo {
    const id: U32
    var bindings: seq<BindingInfo>
    var entryPoints: seq<EntryPoint>

    /** A zero-initialised ShaderInfo carrying the shader's id. */
    constructor (id: U32)
      ensures this.id == id && bindings == [] && entryPoints == []
    {
      this.id := id;
      bindings := [];
      entryPoints := [];
    }

    /** The counts and strings fit the fixed arrays of the C struct. */
    ghost predicate Fits()
      reads this
    {
      InfoFits(bindings, entryPoints)
    }
  }

  /** BindingAt when `@group` does not follow the blanks. */
  lemma BindingAtNone(t: string, p: nat, id: U32, p1: nat)
    requires p1 == SkipWs(t, p) && !(At(t, p1) == '@' && Matches(t, p1 + 1, "group"))
    ensures BindingAt(t, p, id) == Scan(None, p1 + 1)
  {
  }

  lemma BindingAtGroup(t: string, p: nat, id: U32, p1: nat)
    requires p1 == SkipWs(t, p) && At(t, p1) == '@' && Matches(t, p1 + 1, "group")
    ensures BindingAt(t, p, id) == BindingAfterGroup(t, p1 + 6, id)
  {
  }

  /** BindingAfterGroup when `@binding` does not follow the group number. */
  lemma AfterGroupNone(t: string, p: nat, id: U32, g: Scan<nat>, p2: nat)
    requires g == ParenNumber(t, p) && p2 == SkipWs(t, g.end) && !Matches(t, p2, "@binding")
    ensures BindingAfterGroup(t, p, id) == Scan(None, p2)
  {
  }

  lemma AfterGroupBinding(t: string, p: nat, id: U32, g: Scan<nat>, p2: nat)
    requires g == ParenNumber(t, p) && p2 == SkipWs(t, g.end) && Matches(t, p2, "@binding")
    ensures BindingAfterGroup(t, p, id) == BindingAfterIndex(t, p2 + 8, g.value, id)
  {
  }

  /** BindingAfterIndex when `var` does not follow the binding number. */
  lemma AfterIndexNone(t: string, p: nat, group: nat, id: U32, b: Scan<nat>, p3: nat)
    requires b == ParenNumber(t, p) && p3 == SkipWs(t, b.end) && !Matches(t, p3, "var")
    ensures BindingAfterIndex(t, p, group, id) == Scan(None, p3)
  {
  }

  lemma AfterIndexVar(t: string, p: nat, group: nat, id: U32, b: Scan<nat>, p3: nat, d: Scan<BindingInfo>)
    requires b == ParenNumber(t, p) && p3 == SkipWs(t, b.end) && Matches(t, p3, "var")
    requires d == VarDeclaration(t, p3 + 3, group, b.value, id)
    ensures BindingAfterIndex(t, p, group, id) == Scan(Some(d.value), d.end)
  {
  }

  class Parser {
    const input: string
    var position: nat

    /** init_parser */
    constructor (input: string)
      ensures this.input == input && position == 0
    {
      this.input := input;
      position := 0;
    }

    /** peek */
    function Peek(): char
      reads this
    {
      At(input, position)
    }

    /** is_eof */
    predicate IsEof()
      reads this
      ensures IsEof() <==> Peek() == NUL
    {
      Peek() == NUL
    }

    /** next: the character under the cursor, which then moves one place on. */
    method Next() returns (c: char)
      modifies this
      ensures c == At(input, old(position)) && position == old(position) + 1
    {
      c := At(input, position);
      position := position + 1;
    }

    method SkipWhitespace()
      modifies this
      ensures position == SkipWs(input, old(position))
    {
      while InClass(Peek(), Space)
        invariant old(position) <= position <= SkipWs(input, old(position))
        invariant SkipWs(input, position) == SkipWs(input, old(position))
        decreases |input| - position
      {
        var _ := Next();
      }
    }

    method ParseNumber() returns (n: nat)
      modifies this
      ensures Number(input, old(position)) == Scan(n, position)
    {
      ghost var start := position;
      ghost var e := RunEnd(input, start, Digit);
      n := 0;
      while InClass(Peek(), Digit)
        invariant start <= position <= e
        invariant RunEnd(input, position, Digit) == e
        invariant n == DigitsValue(input, start, position)
        decreases |input| - position
      {
        var c := Next();
        n := n * 10 + DigitValue(c);
      }
    }

    /** parse_identifier: the two loops of the source differ only in the character class. */
    method ParseIdentifier(isType: bool) returns (ident: string)
      modifies this
      ensures Identifier(input, old(position), isType) == Scan(ident, position)
    {
      ghost var start := position;
      var k := if isType then TypeWord else Word;
      ident := [];
      while InClass(Peek(), k)
        invariant position == start + |ident| && |ident| < MAX_IDENT_LENGTH - 1
        invariant WordFrom(input, start, k, MAX_IDENT_LENGTH - 1)
                  == ident + WordFrom(input, position, k, MAX_IDENT_LENGTH - 1 - |ident|)
        decreases MAX_IDENT_LENGTH - 1 - |ident|
      {
        ghost var rest := WordFrom(input, position + 1, k, MAX_IDENT_LENGTH - 2 - |ident|);
        var c := Next();
        assert ident + ([c] + rest) == (ident + [c]) + rest;
        ident := ident + [c];
        if |ident| >= MAX_IDENT_LENGTH - 1 {
          break;
        }
      }
      assert WordFrom(input, position, k, MAX_IDENT_LENGTH - 1 - |ident|) == [];
      assert ident + [] == ident;
    }

    /** `strncmp(&input[position], lit, |lit|) == 0` */
    predicate LookingAt(lit: string)
      reads this
    {
      Matches(input, position, lit)
    }

    method ParseStorageClassAndAccess() returns (flags: UsageFlags)
      modifies this
      ensures StorageClass(input, old(position)) == Scan(flags, position)
    {
      var word := ParseIdentifier(false);
      flags := ClassFlags(word);
      SkipWhitespace();
      if Peek() == ',' {
        var _ := Next();
        SkipWhitespace();
        var access := ParseIdentifier(false);
        flags := flags + AccessFlags(access);
      }
    }

    method ParseBindingType() returns (bindingType: BindingType)
      modifies this
      ensures BindingTypeAt(input, old(position)) == Scan(bindingType, position)
    {
      SkipWhitespace();
      var word := ParseIdentifier(false);
      bindingType := Buffer;
      if word == "texture" {
        bindingType := Texture;
      } else if word == "storage_texture" {
        bindingType := StorageTexture;
      }
    }

    /** The '(' number ')' that follows `@group` and `@binding`. */
    method ParseParenNumber() returns (n: nat)
      modifies this
      ensures ParenNumber(input, old(position)) == Scan(n, position)
    {
      SkipWhitespace();
      var _ := Next();
      n := ParseNumber();
      var _ := Next();
    }

    /** The part of parse_binding after `var`. */
    method ParseVarDeclaration(group: nat, binding: nat, id: U32) returns (b: BindingInfo)
      modifies this
      ensures VarDeclaration(input, old(position), group, binding, id) == Scan(b, position)
    {
      SkipWhitespace();
      var _ := Next();
      var usage := ParseStorageClassAndAccess();
      b := ParseNamedVar(group, binding, id, usage);
    }

    /** From the '>' after the qualifier, whose flags are `usage`, to the end of the type. */
    method ParseNamedVar(group: nat, binding: nat, id: U32, usage: UsageFlags) returns (b: BindingInfo)
      requires Producible(usage)
      modifies this
      ensures NamedVar(input, Scan(usage, old(position)), group, binding, id) == Scan(b, position)
    {
      var _ := Next();
      SkipWhitespace();
      var name := ParseIdentifier(false);
      SkipWhitespace();
      var _ := Next();
      b := ParseTypedVar(BindingInfo(group, binding, id, Buffer, usage, [], name));
    }

    /** The binding type and, for a buffer, the data type, filling in the record `b`. */
    method ParseTypedVar(b: BindingInfo) returns (r: BindingInfo)
      requires b.bindingType == Buffer && b.dataType == []
      modifies this
      ensures TypedVar(input, old(position), b) == Scan(r, position)
    {
      var bindingType := ParseBindingType();
      if bindingType == Buffer {
        var dataType := ParseIdentifier(true);
        r := b.(dataType := dataType);
      } else {
        r := b.(bufferUsage := {});
      }
    }

    method ParseBinding(info: ShaderInfo)
      modifies this, info
      ensures var r := BindingAt(input, old(position), info.id);
              position == r.end && info.bindings == old(info.bindings) + OptionSeq(r.value)
      ensures info.entryPoints == old(info.entryPoints)
    {
      ghost var p := position;
      SkipWhitespace();
      ghost var p1 := position;
      var at := Next();
      if at != '@' || !LookingAt("group") {
        BindingAtNone(input, p, info.id, p1);
        assert info.bindings == old(info.bindings) + [];
        return;
      }
      position := position + 5;
      BindingAtGroup(input, p, info.id, position - 6);
      ParseGroupAndBinding(info);
    }

    /** parse_binding from the `(g)` after `@group`. */
    method ParseGroupAndBinding(info: ShaderInfo)
      modifies this, info
      ensures var r := BindingAfterGroup(input, old(position), info.id);
              position == r.end && info.bindings == old(info.bindings) + OptionSeq(r.value)
      ensures info.entryPoints == old(info.entryPoints)
    {
      ghost var q := position;
      var group := ParseParenNumber();
      ghost var g := Scan(group, position);
      SkipWhitespace();
      ghost var p2 := position;
      if !LookingAt("@binding") {
        AfterGroupNone(input, q, info.id, g, p2);
        assert info.bindings == old(info.bindings) + [];
        return;
      }
      AfterGroupBinding(input, q, info.id, g, p2);
      position := position + 8;
      ParseIndexAndDeclaration(group, info);
    }

    /** parse_binding from the `(b)` after `@binding`. */
    method ParseIndexAndDeclaration(group: nat, info: ShaderInfo)
      modifies this, info
      ensures var r := BindingAfterIndex(input, old(position), group, info.id);
              position == r.end && info.bindings == old(info.bindings) + OptionSeq(r.value)
      ensures info.entryPoints == old(info.entryPoints)
    {
      ghost var q := position;
      var binding := ParseParenNumber();
      ghost var bn := Scan(binding, position);
      SkipWhitespace();
      if !LookingAt("var") {
        AfterIndexNone(input, q, group, info.id, bn, position);
        assert info.bindings == old(info.bindings) + [];
        return;
      }
      position := position + 3;
      ghost var d := VarDeclaration(input, position, group, binding, info.id);
      AfterIndexVar(input, q, group, info.id, bn, position - 3, d);
      ParseVarAndAppend(group, binding, info, d);
    }

    /** parse_binding from after `var`: the declaration, stored in the next binding entry. */
    method ParseVarAndAppend(group: nat, binding: nat, info: ShaderInfo, ghost d: Scan<BindingInfo>)
      requires d == VarDeclaration(input, position, group, binding, info.id)
      modifies this, info
      ensures position == d.end && info.bindings == old(info.bindings) + [d.value]
      ensures info.entryPoints == old(info.entryPoints)
    {
      var b := ParseVarDeclaration(group, binding, info.id);
      info.bindings := info.bindings + [b];
    }

    method ParseEntryPoint(info: ShaderInfo)
      modifies this, info
      ensures var r := EntryPointAt(input, old(position));
              position == r.end && info.entryPoints == old(info.entryPoints) + OptionSeq(r.value)
      ensures info.bindings == old(info.bindings)
    {
      SkipWhitespace();
      var at := Next();
      if at != '@' {
        return;
      }
      var attr := ParseIdentifier(false);
      var stage := StageOf(attr);
      if stage == Unset {
        return;
      }
      SkipWhitespace();
      var sizes := ParseWorkgroupClause();
      var entry := ParseEntryName();
      var ep := EntryPoint(entry, stage, WorkgroupSize(Component(sizes, 0), Component(sizes, 1), Component(sizes, 2)));
      info.entryPoints := info.entryPoints + [ep];
    }

    method ParseWorkgroupClause() returns (sizes: seq<nat>)
      modifies this
      ensures WorkgroupClause(input, old(position)) == Scan(sizes, position)
    {
      sizes := [];
      if LookingAt("@workgroup_size") {
        position := position + 15;
        sizes := ParseWorkgroupArgs();
        SkipWhitespace();
      }
    }

    /** The numbers between the parentheses of `@workgroup_size`. */
    method ParseWorkgroupArgs() returns (sizes: seq<nat>)
      modifies this
      ensures WorkgroupArgs(input, old(position)) == Scan(sizes, position)
    {
      SkipWhitespace();
      var _ := Next();
      var x := ParseNumber();
      sizes := [x];
      var c := Next();
      if c == ',' {
        var y := ParseNumber();
        sizes := [x, y];
        c := Next();
        if c == ',' {
          var z := ParseNumber();
          sizes := [x, y, z];
        }
      }
      var _ := Next();
    }

    method ParseEntryName() returns (entry: string)
      modifies this
      ensures EntryName(input, old(position)) == Scan(entry, position)
    {
      entry := [];
      if LookingAt("fn") {
        position := position + 2;
        SkipWhitespace();
        entry := ParseIdentifier(false);
      }
    }

    /** One round of the parse_shader loop. */
    method ParseRound(info: ShaderInfo)
      modifies this, info
      ensures var r := RoundAt(input, old(position), info.id);
              position == r.end && info.bindings == old(info.bindings) + OptionSeq(r.binding) &&
              info.entryPoints == old(info.entryPoints) + OptionSeq(r.entryPoint)
    {
      ghost var r := RoundAt(input, position, info.id);
      SkipWhitespace();
      if Peek() == '@' {
        var saved := position;
        var _ := Next();
        var attr := ParseIdentifier(false);
        position := saved;
        if attr == "group" {
          ghost var b := BindingAt(input, saved, info.id);
          assert r == Round(b.value, None, b.end);
          ParseBinding(info);
          assert info.entryPoints == old(info.entryPoints) + [];
        } else if attr == "compute" || attr == "vertex" || attr == "fragment" {
          ghost var e := EntryPointAt(input, saved);
          assert r == Round(None, e.value, e.end);
          ParseEntryPoint(info);
          assert info.bindings == old(info.bindings) + [];
        } else {
          var _ := Next();
          assert info.bindings == old(info.bindings) + [] && info.entryPoints == old(info.entryPoints) + [];
        }
      } else {
        var _ := Next();
        assert info.bindings == old(info.bindings) + [] && info.entryPoints == old(info.entryPoints) + [];
      }
    }

    /**
     * parse_shader: rounds until the cursor peeks at NUL; the lists of
     * `info` end up as the specification's, appended to what they held.
     */
    method ParseShader(info: ShaderInfo)
      modifies this, info
      ensures var r := ShaderFrom(input, old(position), info.id, old(info.bindings), old(info.entryPoints));
              position == r.end && info.bindings == r.bindings && info.entryPoints == r.entryPoints
    {
      while !IsEof()
        invariant ShaderFrom(input, position, info.id, info.bindings, info.entryPoints)
                  == ShaderFrom(input, old(position), info.id, old(info.bindings), old(info.entryPoints))
        decreases |input| - position
      {
        ParseRound(info);
      }
    }
  }
}
