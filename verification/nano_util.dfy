/**
 * Two string utilities of nano.h: the 32-bit FNV-1a hash used to derive
 * shader ids from shader paths, and the parser of comma/space separated
 * buffer usage words into WebGPU usage flags.
 */
module NanoUtil {
  import opened Common

  // ---------------------------------------------------------------------
  // FNV-1a

  const FNV_OFFSET: bv32 := 2166136261

  /** A C string: bytes without the terminating NUL, which it may not contain. */
  predicate IsCString(s: seq<bv8>) { forall i :: 0 <= i < |s| ==> s[i] != 0 }

  /** The byte at index `i` of the string's memory, reading the terminator (and, by assumption, 0) past its end. */
  function ByteAt(s: seq<bv8>, i: nat): bv8 { if i < |s| then s[i] else 0 }

  /** `(uint32_t)c` for a `char` byte on a target where `char` is signed: bytes 128..255 sign-extend. */
  function Widen(b: bv8): bv32
  {
    if b < 0x80 then b as bv32 else (b as bv32) | 0xFFFF_FF00
  }

  lemma WidenInjective(a: bv8, b: bv8)
    ensures Widen(a) == Widen(b) ==> a == b
  {
  }

  /** One FNV-1a step: exclusive-or the byte in, then multiply by the prime modulo 2^32. */
  function FnvStep(h: bv32, b: bv8): bv32 { (h ^ Widen(b)) * 16777619 }

  /** FNV-1a of every byte of `s`, in order. */
  function Fnv1a(s: seq<bv8>): bv32
  {
    if s == [] then FNV_OFFSET else FnvStep(Fnv1a(s[..|s| - 1]), s[|s| - 1])
  }

  /** The bytes at even indices: the ones `fnv1a_32` reads before its terminating test. */
  function EvenIndexed(s: seq<bv8>): (r: seq<bv8>)
    ensures |r| == (|s| + 1) / 2
  {
    if |s| <= 1 then s else [s[0]] + EvenIndexed(s[2..])
  }

  lemma {:induction false} EvenIndexedAt(s: seq<bv8>)
    ensures forall i :: 0 <= i < |EvenIndexed(s)| ==> EvenIndexed(s)[i] == s[2 * i]
  {
    if |s| > 1 {
      EvenIndexedAt(s[2..]);
      forall i | 1 <= i < |EvenIndexed(s)| ensures EvenIndexed(s)[i] == s[2 * i] {
        assert EvenIndexed(s)[i] == EvenIndexed(s[2..])[i - 1];
        assert s[2..][2 * (i - 1)] == s[2 * i];
      }
    }
  }

  lemma EvenIndexedSnoc(s: seq<bv8>, i: nat)
    requires i % 2 == 0 && i < |s|
    ensures EvenIndexed(s[..if i + 2 <= |s| then i + 2 else i + 1]) == EvenIndexed(s[..i]) + [s[i]]
  {
    var n := if i + 2 <= |s| then i + 2 else i + 1;
    var m := i / 2;
    assert i == 2 * m;
    var a := EvenIndexed(s[..n]);
    var done := EvenIndexed(s[..i]);
    EvenIndexedAt(s[..n]);
    EvenIndexedAt(s[..i]);
    assert |a| == m + 1 && |done| == m;
    forall k | 0 <= k <= m ensures a[k] == (done + [s[i]])[k] {
      if k < m {
        assert done[k] == s[..i][2 * k];
      }
    }
    assert a == done + [s[i]];
  }

  /** The hash of the even-indexed bytes read so far, extended by the byte at even index `i`. */
  lemma HashAdvance(key: seq<bv8>, i: nat)
    requires i % 2 == 0 && i < |key|
    ensures var n := if i + 2 <= |key| then i + 2 else i + 1;
            Fnv1a(EvenIndexed(key[..n])) == FnvStep(Fnv1a(EvenIndexed(key[..i])), key[i])
  {
    EvenIndexedSnoc(key, i);
    var done := EvenIndexed(key[..i]);
    assert (done + [key[i]])[..|done|] == done;
  }

  /**
   * fnv1a_32 as written: the loop header's `++key` and the body's `*key++`
   * both advance, so the bytes at indices 0, 2, 4, ... are hashed and the
   * loop stops at the first even index holding 0. `lastRead` is that index:
   * for an odd-length string it lies one past the terminator.
   */
  method HashString(key: seq<bv8>) returns (hash: bv32, ghost lastRead: nat)
    requires IsCString(key)
    ensures hash == Fnv1a(EvenIndexed(key))
    ensures lastRead == if |key| % 2 == 0 then |key| else |key| + 1
  {
    hash := FNV_OFFSET;
    var i := 0;
    ghost var k := 0;
    while ByteAt(key, i) != 0
      invariant i == 2 * k && i <= |key| + 1
      invariant hash == Fnv1a(EvenIndexed(key[..if i <= |key| then i else |key|]))
      decreases |key| + 2 - i
    {
      HashAdvance(key, i);
      hash := FnvStep(hash, key[i]);
      i, k := i + 2, k + 1;
    }
    assert key[..|key|] == key;
    EvenStop(|key|, k);
    lastRead := i;
  }

  /** The first even index at or past the end of `n` bytes. */
  lemma EvenStop(n: nat, k: nat)
    requires n <= 2 * k <= n + 1
    ensures 2 * k == if n % 2 == 0 then n else n + 1
  {
  }

  lemma FnvStepInjective(h: bv32, a: bv8, b: bv8)
    ensures FnvStep(h, a) == FnvStep(h, b) ==> a == b
  {
    var x, y := h ^ Widen(a), h ^ Widen(b);
    assert x * 16777619 * 0x359c449b == x;
    assert y * 16777619 * 0x359c449b == y;
    WidenInjective(a, b);
  }

  /**
   * The property FNV-1a is meant to have and `fnv1a_32` lacks: the hash of
   * a string depends on its last byte, so two strings that differ only
   * there hash differently.
   */
  lemma {:induction false} Fnv1aSeesLastByte(s: seq<bv8>, a: bv8, b: bv8)
    requires a != b
    ensures Fnv1a(s + [a]) != Fnv1a(s + [b])
  {
    assert (s + [a])[..|s|] == s && (s + [b])[..|s|] == s;
    FnvStepInjective(Fnv1a(s), a, b);
  }

  /**
   * As written, "ab" and "ac" (any even-length strings differing only at an
   * odd index) get the same shader id, although their FNV-1a hashes differ.
   */
  lemma SkippedByteCollision()
    ensures Fnv1a(EvenIndexed([97, 98])) == Fnv1a(EvenIndexed([97, 99]))
    ensures Fnv1a([97, 98]) != Fnv1a([97, 99])
  {
    assert EvenIndexed([97, 98]) == [97] == EvenIndexed([97, 99]);
    Fnv1aSeesLastByte([97], 98, 99);
    assert [97] + [98] == [97, 98] && [97] + [99] == [97, 99];
  }

  // ---------------------------------------------------------------------
  // Buffer usage words

  predicate IsDelimiter(c: char) { c == ',' || c == ' ' }

  /** The position of the next token at or after `p`: `strtok` skips delimiters first. */
  function SkipDelimiters(s: string, p: nat): (r: nat)
    requires p <= |s|
    ensures p <= r <= |s|
    ensures forall i :: p <= i < r ==> IsDelimiter(s[i])
    ensures r < |s| ==> !IsDelimiter(s[r])
    decreases |s| - p
  {
    if p < |s| && IsDelimiter(s[p]) then SkipDelimiters(s, p + 1) else p
  }

  /** The end of the token starting at `p`: the next delimiter or the end of the string. */
  function TokenEnd(s: string, p: nat): (r: nat)
    requires p <= |s|
    ensures p <= r <= |s|
    ensures forall i :: p <= i < r ==> !IsDelimiter(s[i])
    ensures r < |s| ==> IsDelimiter(s[r])
    decreases |s| - p
  {
    if p < |s| && !IsDelimiter(s[p]) then TokenEnd(s, p + 1) else p
  }

  /** The tokens `strtok(…, ", ")` returns from position `p` on. */
  function TokensFrom(s: string, p: nat): (ts: seq<string>)
    requires p <= |s|
    decreases |s| - p
  {
    var q := SkipDelimiters(s, p);
    if q == |s| then []
    else
      var e := TokenEnd(s, q);
      [s[q..e]] + TokensFrom(s, if e < |s| then e + 1 else e)
  }

  /** A non-empty string of non-delimiters. */
  predicate IsToken(w: string)
  {
    w != [] && forall j :: 0 <= j < |w| ==> !IsDelimiter(w[j])
  }

  /** Every token is non-empty and holds no delimiter. */
  lemma {:induction false} TokensAreWords(s: string, p: nat)
    requires p <= |s|
    ensures forall k :: 0 <= k < |TokensFrom(s, p)| ==> IsToken(TokensFrom(s, p)[k])
    decreases |s| - p
  {
    var q := SkipDelimiters(s, p);
    if q < |s| {
      var e := TokenEnd(s, q);
      var next := if e < |s| then e + 1 else e;
      TokensAreWords(s, next);
      TokensFromStep(s, p, q, e, next);
      forall j | 0 <= j < e - q ensures !IsDelimiter(s[q..e][j]) {
        assert s[q..e][j] == s[q + j];
      }
    }
  }

  /** The flags one word contributes; every other word (`write` among them) adds none. */
  function WordUsage(t: string): UsageFlags
  {
    if t == "storage" then {Storage}
    else if t == "uniform" then {Uniform}
    else if t == "read_write" then {CopySrc, CopyDst}
    else if t == "read" then {CopySrc}
    else {}
  }

  function TokensUsage(ts: seq<string>): UsageFlags
  {
    if ts == [] then {} else TokensUsage(ts[..|ts| - 1]) + WordUsage(ts[|ts| - 1])
  }

  /** Each flag is present exactly when a word that sets it is among the tokens. */
  lemma {:induction false} TokensUsageExactly(ts: seq<string>)
    ensures Storage in TokensUsage(ts) <==> "storage" in ts
    ensures Uniform in TokensUsage(ts) <==> "uniform" in ts
    ensures CopySrc in TokensUsage(ts) <==> "read" in ts || "read_write" in ts
    ensures CopyDst in TokensUsage(ts) <==> "read_write" in ts
    ensures TokensUsage(ts) <= {Storage, Uniform, CopySrc, CopyDst}
  {
    if ts != [] {
      TokensUsageExactly(ts[..|ts| - 1]);
      assert ts == ts[..|ts| - 1] + [ts[|ts| - 1]];
    }
  }

  lemma UsageSnoc(ts: seq<string>, t: string)
    ensures TokensUsage(ts + [t]) == TokensUsage(ts) + WordUsage(t)
  {
    assert (ts + [t])[..|ts|] == ts;
  }

  /**
   * One `strtok` call: the token at the next non-delimiter joins the tokens
   * seen so far, the scan resumes after its delimiter, and the token's flags
   * join the flags of the tokens seen.
   */
  lemma TokenStep(s: string, p: nat, seen: seq<string>, flags: UsageFlags, q: nat, e: nat, next: nat)
    requires p <= |s| && q == SkipDelimiters(s, p) && q < |s|
    requires e == TokenEnd(s, q) && next == (if e < |s| then e + 1 else e)
    requires seen + TokensFrom(s, p) == TokensFrom(s, 0) && flags == TokensUsage(seen)
    ensures (seen + [s[q..e]]) + TokensFrom(s, next) == TokensFrom(s, 0)
    ensures flags + WordUsage(s[q..e]) == TokensUsage(seen + [s[q..e]])
  {
    var token, rest := s[q..e], TokensFrom(s, next);
    TokensFromStep(s, p, q, e, next);
    AppendAssoc(seen, [token], rest);
    UsageSnoc(seen, token);
  }

  lemma TokensFromStep(s: string, p: nat, q: nat, e: nat, next: nat)
    requires p <= |s| && q == SkipDelimiters(s, p) && q < |s|
    requires e == TokenEnd(s, q) && next == (if e < |s| then e + 1 else e)
    ensures TokensFrom(s, p) == [s[q..e]] + TokensFrom(s, next)
  {
  }

  lemma AppendAssoc<T>(a: seq<T>, b: seq<T>, c: seq<T>)
    ensures a + (b + c) == (a + b) + c
  {
  }

  /**
   * The `strtok` loop of nano_get_wgpu_buffer_usage over the C string `s`:
   * the union of the flags of its words.
   */
  method TokenFlags(s: string) returns (flags: UsageFlags)
    ensures flags == TokensUsage(TokensFrom(s, 0))
  {
    flags := {};
    var p := 0;
    ghost var seen: seq<string> := [];
    while true
      invariant p <= |s|
      invariant seen + TokensFrom(s, p) == TokensFrom(s, 0)
      invariant flags == TokensUsage(seen)
      decreases |s| - p
    {
      var start := SkipDelimiters(s, p);
      if start == |s| {
        break;
      }
      var end := TokenEnd(s, start);
      var token := s[start..end];
      var next := if end < |s| then end + 1 else end;
      TokenStep(s, p, seen, flags, start, end, next);
      flags := flags + WordUsage(token);
      seen := seen + [token];
      p := next;
    }
    assert TokensFrom(s, p) == [];
    assert seen == TokensFrom(s, 0);
  }

  /**
   * nano_get_wgpu_buffer_usage with a terminated copy: no flags for a
   * missing binding; otherwise the union of the flags of the words of its
   * usage string.
   */
  method BufferUsage(usage: Option<string>) returns (flags: UsageFlags)
    ensures usage.None? ==> flags == {}
    ensures usage.Some? ==> flags == TokensUsage(TokensFrom(usage.value, 0))
  {
    if usage.None? {
      return {};
    }
    flags := TokenFlags(usage.value);
  }

  // ---------------------------------------------------------------------
  // The copy the usage words are read from

  /** The size of the `usage_copy` array the usage string is copied into. */
  const USAGE_COPY_SIZE: nat := 51

  predicate NoNul(s: string) { forall i :: 0 <= i < |s| ==> s[i] != '\0' }

  /** The index of the first NUL of `s` at or after `i`, if any. */
  function NulFrom(s: string, i: nat): (r: Option<nat>)
    ensures r.Some? ==> i <= r.value < |s| && s[r.value] == '\0'
    ensures r.Some? ==> forall j :: i <= j < r.value ==> s[j] != '\0'
    ensures r.None? ==> forall j :: i <= j < |s| ==> s[j] != '\0'
    decreases |s| - i
  {
    if i >= |s| then None else if s[i] == '\0' then Some(i) else NulFrom(s, i + 1)
  }

  /**
   * The C string `strtok` reads after `strncpy(usage_copy, usage,
   * strlen(usage))`, where `stack` is what the uninitialised 51-byte array
   * held: the copy writes no terminator, so the string runs on through the
   * stale bytes to the first NUL among them. There is none (the read runs
   * off the array) when the usage has 51 or more characters (from 52 on
   * the copy also writes past the array), or when no stale byte after it
   * is NUL.
   */
  function CopiedText(usage: string, stack: string): (r: Option<string>)
    requires |stack| == USAGE_COPY_SIZE && NoNul(usage)
    ensures r.Some? <==> |usage| < USAGE_COPY_SIZE && NulFrom(stack, |usage|).Some?
    ensures r.Some? ==> NoNul(r.value) && |usage| <= |r.value| < USAGE_COPY_SIZE && r.value[..|usage|] == usage
  {
    if |usage| >= USAGE_COPY_SIZE then None
    else match NulFrom(stack, |usage|)
      case None => None
      case Some(n) => Some(usage + stack[|usage|..n])
  }

  /**
   * nano_get_wgpu_buffer_usage as written, given the stale contents of
   * `usage_copy`: no flags for a missing binding; otherwise the flags of the
   * words of the copied text, or None where the read runs off the array
   * and the result is undefined.
   */
  method BufferUsageAsWritten(usage: Option<string>, stack: string) returns (r: Option<UsageFlags>)
    requires |stack| == USAGE_COPY_SIZE && (usage.Some? ==> NoNul(usage.value))
    ensures usage.None? ==> r == Some({})
    ensures usage.Some? ==> (r.None? <==> |usage.value| >= USAGE_COPY_SIZE || NulFrom(stack, |usage.value|).None?)
    ensures usage.Some? && r.Some? ==> r.value == TokensUsage(TokensFrom(CopiedText(usage.value, stack).value, 0))
  {
    if usage.None? {
      return Some({});
    }
    var text := CopiedText(usage.value, stack);
    if text.None? {
      return None;
    }
    var flags := TokenFlags(text.value);
    return Some(flags);
  }

  /** When the stale byte right after the usage is NUL, the as-written copy reads the usage string itself. */
  lemma TerminatedCopyIsUsage(usage: string, stack: string)
    requires |stack| == USAGE_COPY_SIZE && NoNul(usage)
    requires |usage| < USAGE_COPY_SIZE && stack[|usage|] == '\0'
    ensures CopiedText(usage, stack) == Some(usage)
  {
    assert stack[|usage|..|usage|] == [];
    assert usage + [] == usage;
  }

  /**
   * A usage of 51 or more characters leaves no NUL inside `usage_copy`: at
   * 51 the copy fills the array exactly, and a longer one also writes past
   * it. Either way `strtok` reads past the array, and the as-written result
   * is undefined.
   */
  lemma LongUsageRunsPastCopy(usage: string, stack: string)
    requires |stack| == USAGE_COPY_SIZE && NoNul(usage) && |usage| >= USAGE_COPY_SIZE
    ensures CopiedText(usage, stack).None?
  {
  }

  /** A string that is one word is read as that single token. */
  lemma SingleWord(w: string)
    requires IsToken(w)
    ensures TokensFrom(w, 0) == [w]
  {
    assert SkipDelimiters(w, 0) == 0;
    TokenEndsAt(w, 0);
    TokensFromStep(w, 0, 0, |w|, |w|);
    assert w[0..|w|] == w;
  }

  lemma {:induction false} TokenEndsAt(w: string, p: nat)
    requires p <= |w| && forall j :: 0 <= j < |w| ==> !IsDelimiter(w[j])
    ensures TokenEnd(w, p) == |w|
    decreases |w| - p
  {
    if p < |w| {
      TokenEndsAt(w, p + 1);
    }
  }

  /**
   * A stale byte after the usage joins its last word: for "storage" followed
   * by the stale bytes 'x' and NUL, `strtok` reads the word "storagex", so
   * the buffer loses the Storage flag that the usage string asks for.
   */
  lemma StaleByteDropsStorage(stack: string)
    requires |stack| == USAGE_COPY_SIZE && stack[7] == 'x' && stack[8] == '\0'
    ensures CopiedText("storage", stack) == Some("storagex")
    ensures TokensUsage(TokensFrom("storagex", 0)) == {}
    ensures TokensUsage(TokensFrom("storage", 0)) == {Storage}
  {
    StaleByteJoinsWord(stack);
    assert IsToken("storagex");
    OneWordUsage("storagex");
    assert IsToken("storage");
    OneWordUsage("storage");
  }

  lemma StaleByteJoinsWord(stack: string)
    requires |stack| == USAGE_COPY_SIZE && stack[7] == 'x' && stack[8] == '\0'
    ensures CopiedText("storage", stack) == Some("storagex")
  {
    assert NulFrom(stack, 8) == Some(8);
    assert NulFrom(stack, 7) == Some(8);
    assert stack[7..8] == "x";
    assert "storage" + "x" == "storagex";
  }

  /** A string that is one word sets the flags of that word. */
  lemma OneWordUsage(w: string)
    requires IsToken(w)
    ensures TokensUsage(TokensFrom(w, 0)) == WordUsage(w)
  {
    SingleWord(w);
    UsageSnoc([], w);
    assert [] + [w] == [w];
  }
}
