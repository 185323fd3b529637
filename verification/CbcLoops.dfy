/** The CBC loops over buffers: out of place and in place, the latter decrypting backwards. */
module CbcLoops {
  import opened Cbc

  // ---------------------------------------------------------------- buffer primitives

  /** A buffer with `data` written at `at`. */
  function Patch(b: Bytes, at: nat, data: Bytes): (r: Bytes)
    requires at + |data| <= |b|
    ensures |r| == |b|
  {
    b[..at] + data + b[at + |data|..]
  }

  /** The `n` bytes at `at`. */
  function Block(b: Bytes, at: nat, n: nat): (r: Bytes)
    requires at + n <= |b|
    ensures |r| == n
  {
    b[at..at + n]
  }

  /** Elsewhere the buffer is as it was. */
  lemma PatchElsewhere(b: Bytes, at: nat, data: Bytes, s: nat, n: nat)
    requires at + |data| <= |b| && s + n <= |b| && (at + |data| <= s || s + n <= at)
    ensures Patch(b, at, data)[s..s + n] == b[s..s + n]
  {
  }

  /** What precedes the patch, with the patch. */
  lemma PatchSlice(b: Bytes, from: nat, at: nat, data: Bytes)
    requires from <= at && at + |data| <= |b|
    ensures Patch(b, at, data)[from..at + |data|] == b[from..at] + data
    ensures Patch(b, at, data)[..from] == b[..from]
    ensures Patch(b, at, data)[at + |data|..] == b[at + |data|..]
    ensures Patch(b, at, data)[at..at + |data|] == data
  {
  }

  /** The buffer `b` with `x` folded into the `size` bytes at `d`. */
  ghost predicate Folded(b: Bytes, d: nat, x: Bytes, b': Bytes)
    requires d + |x| <= |b|
  {
    |b'| == |b| && forall k :: 0 <= k < |b| ==> b'[k] == if d <= k < d + |x| then b[k] ^ x[k - d] else b[k]
  }

  lemma FoldedPatch(b: Bytes, d: nat, x: Bytes, b': Bytes)
    requires d + |x| <= |b| && Folded(b, d, x, b')
    ensures b' == Patch(b, d, Xor(b[d..d + |x|], x))
  {
    var y := Xor(b[d..d + |x|], x);
    var p := Patch(b, d, y);
    assert |y| == |x| && |p| == |b| == |b'|;
    forall k | 0 <= k < |b| ensures b'[k] == p[k] {
      if d <= k < d + |x| { assert p[k] == y[k - d] == b[d..d + |x|][k - d] ^ x[k - d]; }
    }
  }

  /** `crypto_xor_byte`. */
  method XorBytes(dst: array<bv8>, d: nat, src: array<bv8>, s: nat, size: nat)
    requires d + size <= dst.Length && s + size <= src.Length
    requires dst != src || d + size <= s || s + size <= d
    modifies dst
    ensures Folded(old(dst[..]), d, old(src[..])[s..s + size], dst[..])
  {
    ghost var b0, x := dst[..], src[..][s..s + size];
    var i := 0;
    while i < size
      invariant i <= size
      invariant forall k :: 0 <= k < dst.Length ==> dst[k] == if d <= k < d + i then b0[k] ^ x[k - d] else b0[k]
      invariant forall k :: i <= k < size ==> src[s + k] == x[k]
    {
      dst[d + i] := dst[d + i] ^ src[s + i];
      i := i + 1;
    }
  }

  /** The loop of `crypto_xor` that takes four bytes at a time. */
  method XorWords(dst: array<bv8>, d: nat, src: array<bv8>, s: nat, size: nat) returns (i: nat)
    requires d + size <= dst.Length && s + size <= src.Length
    requires dst != src || d + size <= s || s + size <= d
    modifies dst
    ensures i <= size < i + 4 && src[..][s..s + size] == old(src[..])[s..s + size]
    ensures Folded(old(dst[..]), d, old(src[..])[s..s + size][..i], dst[..])
  {
    hide Folded;
    ghost var b0, x := dst[..], src[..][s..s + size];
    i := 0;
    FoldNone(b0, d, x);
    while size - i >= 4
      invariant i <= size && src[..][s..s + size] == x && Folded(b0, d, x[..i], dst[..])
    {
      ghost var b1 := dst[..];
      SubSlice(src[..], s, size, i, 4);
      XorBytes(dst, d + i, src, s + i, 4);
      FoldOn(b0, d, x, i, 4, b1, dst[..], s);
      i := i + 4;
    }
  }

  /** `crypto_xor`. */
  method XorInto(dst: array<bv8>, d: nat, src: array<bv8>, s: nat, size: nat)
    requires d + size <= dst.Length && s + size <= src.Length
    requires dst != src || d + size <= s || s + size <= d
    modifies dst
    ensures dst[..] == Patch(old(dst[..]), d, Xor(old(dst[..])[d..d + size], old(src[..])[s..s + size]))
  {
    hide Folded, Patch, Xor;
    ghost var b0, x := dst[..], src[..][s..s + size];
    var i := XorWords(dst, d, src, s, size);
    ghost var b1 := dst[..];
    SubSlice(src[..], s, size, i, size - i);
    XorBytes(dst, d + i, src, s + i, size - i);
    FoldMore(b0, d, x, i, size - i, b1, dst[..]);
    assert x[..size] == x;
    FoldedPatch(b0, d, x, dst[..]);
  }

  lemma FoldOn(b: Bytes, d: nat, x: Bytes, i: nat, n: nat, b1: Bytes, b2: Bytes, s: nat)
    requires i + n <= |x| && d + |x| <= |b| && Folded(b, d, x[..i], b1) && Folded(b1, d + i, x[i..i + n], b2)
    ensures Folded(b, d, x[..i + n], b2)
    ensures s + |x| <= |b| && (d + |x| <= s || s + |x| <= d) ==> b2[s..s + |x|] == b1[s..s + |x|]
  {
    FoldMore(b, d, x, i, n, b1, b2);
    if s + |x| <= |b| && (d + |x| <= s || s + |x| <= d) { FoldElsewhere(b1, d + i, x[i..i + n], b2, s, |x|); }
  }

  lemma FoldNone(b: Bytes, d: nat, x: Bytes)
    requires d <= |b|
    ensures x[..0] == [] && Folded(b, d, x[..0], b)
  {
  }

  lemma FoldMore(b: Bytes, d: nat, x: Bytes, i: nat, n: nat, b1: Bytes, b2: Bytes)
    requires i + n <= |x| && d + |x| <= |b| && Folded(b, d, x[..i], b1) && Folded(b1, d + i, x[i..i + n], b2)
    ensures Folded(b, d, x[..i + n], b2)
  {
  }

  lemma FoldElsewhere(b: Bytes, d: nat, x: Bytes, b': Bytes, s: nat, n: nat)
    requires d + |x| <= |b| && Folded(b, d, x, b') && s + n <= |b| && (d + |x| <= s || s + n <= d)
    ensures b'[s..s + n] == b[s..s + n]
  {
  }

  lemma SubSlice(b: Bytes, s: nat, size: nat, i: nat, n: nat)
    requires s + size <= |b| && i + n <= size
    ensures b[s..s + size][i..i + n] == b[s + i..s + i + n]
  {
    var t, u := b[s..s + size], b[s + i..s + i + n];
    assert forall k :: 0 <= k < n ==> u[k] == t[i + k];
  }

  /** Write a block. */
  method Store(dst: array<bv8>, d: nat, data: Bytes)
    requires d + |data| <= dst.Length
    modifies dst
    ensures dst[..] == Patch(old(dst[..]), d, data)
  {
    ghost var b0 := dst[..];
    var i := 0;
    while i < |data|
      invariant i <= |data| && dst[..d] == b0[..d] && dst[d..d + i] == data[..i] && dst[d + i..] == b0[d + i..]
    {
      ghost var b1 := dst[..];
      dst[d + i] := data[i];
      assert dst[d + i + 1..] == b1[d + i..][1..];
      assert dst[d..d + i + 1] == b1[d..d + i] + [data[i]];
      i := i + 1;
    }
    assert dst[..] == dst[..d] + dst[d..d + |data|] + dst[d + |data|..];
  }

  lemma SubBlock(b: Bytes, s: nat, size: nat, i: nat, n: nat)
    requires s + size <= |b| && i + n <= size
    ensures Block(Block(b, s, size), i, n) == Block(b, s + i, n)
  {
    SubSlice(b, s, size, i, n);
  }

  lemma BlockBefore(b: Bytes, s: nat, size: nat, i: nat, n: nat)
    requires s + size <= |b| && i <= size
    ensures i >= n ==> Block(Block(b, s, size), i - n, n) == Block(b, s + i - n, n)
  {
    if i >= n { SubBlock(b, s, size, i - n, n); }
  }

  // ---------------------------------------------------------------- what every loop computes

  lemma XorSwap(a: Bytes, b: Bytes)
    requires |a| == |b|
    ensures Xor(a, b) == Xor(b, a)
  {
    forall i | 0 <= i < |a| ensures Xor(a, b)[i] == Xor(b, a)[i] {
      assert a[i] ^ b[i] == b[i] ^ a[i];
    }
  }

  lemma PatchAppend(b: Bytes, at: nat, x: Bytes, y: Bytes)
    requires at + |x| + |y| <= |b|
    ensures Patch(Patch(b, at, x), at + |x|, y) == Patch(b, at, x + y)
    ensures Block(Patch(b, at, x), at + |x|, |y|) == Block(b, at + |x|, |y|)
  {
    var p := Patch(b, at, x);
    assert p[..at + |x|] == b[..at] + x;
    assert p[at + |x| + |y|..] == b[at + |x| + |y|..];
  }

  lemma PatchNone(b: Bytes, at: nat)
    requires at <= |b|
    ensures Patch(b, at, []) == b
  {
  }

  /** `out` is done; the rest of the data is still to be encrypted with chaining value `iv`. */
  ghost predicate EncToward(e: Cipher, bs: nat, iv: Bytes, s: Bytes, i: nat, out: Bytes, goal: Bytes)
    requires Blocks(e, bs)
  {
    i <= |s| && |iv| == bs && out + Enc(e, bs, iv, s[i..]) == goal
  }

  lemma EncStart(e: Cipher, bs: nat, iv: Bytes, s: Bytes)
    requires Blocks(e, bs) && |iv| == bs
    ensures EncToward(e, bs, iv, s, 0, [], Enc(e, bs, iv, s))
  {
    hide Enc;
    assert s[0..] == s;
    assert [] + Enc(e, bs, iv, s) == Enc(e, bs, iv, s);
  }

  lemma EncStep(e: Cipher, bs: nat, iv: Bytes, s: Bytes, i: nat, out: Bytes, goal: Bytes)
    requires Blocks(e, bs) && i + bs <= |s| && |iv| == bs && EncToward(e, bs, iv, s, i, out, goal)
    ensures var c := App(e, Xor(Block(s, i, bs), iv)); |c| == bs && EncToward(e, bs, c, s, i + bs, out + c, goal)
  {
    hide Xor, Enc;
    var t := s[i..];
    EncUnfold(e, bs, iv, t);
    assert t[..bs] == s[i..i + bs] && t[bs..] == s[i + bs..];
    var c := App(e, Xor(s[i..i + bs], iv));
    assert out + (c + Enc(e, bs, c, s[i + bs..])) == out + c + Enc(e, bs, c, s[i + bs..]);
  }

  lemma EncEnd(e: Cipher, bs: nat, iv: Bytes, s: Bytes, i: nat, out: Bytes, goal: Bytes)
    requires Blocks(e, bs) && i <= |s| < i + bs && EncToward(e, bs, iv, s, i, out, goal)
    ensures out == goal
  {
    assert out + [] == out;
  }

  ghost predicate DecToward(d: Cipher, bs: nat, iv: Bytes, s: Bytes, i: nat, out: Bytes, goal: Bytes)
    requires Blocks(d, bs)
  {
    i <= |s| && |iv| == bs && out + Dec(d, bs, iv, s[i..]) == goal
  }

  lemma DecStart(d: Cipher, bs: nat, iv: Bytes, s: Bytes)
    requires Blocks(d, bs) && |iv| == bs
    ensures DecToward(d, bs, iv, s, 0, [], Dec(d, bs, iv, s))
  {
    hide Dec;
    assert s[0..] == s;
    assert [] + Dec(d, bs, iv, s) == Dec(d, bs, iv, s);
  }

  lemma DecStep(d: Cipher, bs: nat, iv: Bytes, s: Bytes, i: nat, out: Bytes, goal: Bytes)
    requires Blocks(d, bs) && i + bs <= |s| && |iv| == bs && DecToward(d, bs, iv, s, i, out, goal)
    ensures var c := Block(s, i, bs);
            |App(d, c)| == bs && DecToward(d, bs, c, s, i + bs, out + Xor(App(d, c), iv), goal)
  {
    hide Xor, Dec;
    var t := s[i..];
    DecUnfold(d, bs, iv, t);
    var c := s[i..i + bs];
    assert t[..bs] == c && t[bs..] == s[i + bs..];
    var p := Xor(App(d, c), iv);
    assert out + (p + Dec(d, bs, c, s[i + bs..])) == out + p + Dec(d, bs, c, s[i + bs..]);
  }

  lemma DecEnd(d: Cipher, bs: nat, iv: Bytes, s: Bytes, i: nat, out: Bytes, goal: Bytes)
    requires Blocks(d, bs) && i <= |s| < i + bs && DecToward(d, bs, iv, s, i, out, goal)
    ensures out == goal
  {
    assert out + [] == out;
  }

  lemma CarryNone(bs: nat, iv: Bytes)
    requires bs > 0 && |iv| == bs
    ensures Carry(bs, iv, []) == iv
  {
  }

  /** The chaining value is the last block written. */
  lemma CarryLast(bs: nat, iv: Bytes, out: Bytes, c: Bytes)
    requires |iv| == bs && |c| == bs
    ensures Carry(bs, iv, out + c) == c
  {
  }

  /** What does not fill a block.  The code masks with the block size less one, which is the same
      because the template takes ciphers with a power of two as block size only. */
  function Rest(n: nat, bs: nat): nat
    requires bs > 0
  {
    n % bs
  }

  ghost predicate SameRest(left: nat, n: nat, bs: nat) {
    bs > 0 && left % bs == n % bs
  }

  lemma AfterBlock(left: nat, bs: nat, n: nat)
    requires left >= bs && SameRest(left, n, bs)
    ensures SameRest(left - bs, n, bs)
  {
    ModLess(left, bs);
  }

  lemma RestIs(left: nat, n: nat, bs: nat)
    requires left < bs && SameRest(left, n, bs)
    ensures left == Rest(n, bs)
  {
    ModSmall(left, bs);
  }

  /** The buffer holds the blocks done so far, `out`. */
  ghost predicate EncState(e: Cipher, bs: nat, iv: Bytes, s: Bytes, b: Bytes, o: nat, out: Bytes, buf: Bytes,
                           goal: Bytes)
    requires Blocks(e, bs)
  {
    && |iv| == bs && |out| <= |s| && o + |s| <= |b| && (|out| == 0 || |out| >= bs)
    && buf == Patch(b, o, out) && EncToward(e, bs, Carry(bs, iv, out), s, |out|, out, goal)
  }

  lemma EncStateStart(e: Cipher, bs: nat, iv: Bytes, s: Bytes, b: Bytes, o: nat)
    requires Blocks(e, bs) && |iv| == bs && o + |s| <= |b|
    ensures EncState(e, bs, iv, s, b, o, [], b, Enc(e, bs, iv, s))
  {
    hide Enc, Patch;
    EncStart(e, bs, iv, s);
    PatchNone(b, o);
    CarryNone(bs, iv);
  }

  lemma EncStateStep(e: Cipher, bs: nat, iv: Bytes, s: Bytes, b: Bytes, o: nat, out: Bytes, buf: Bytes, goal: Bytes,
                     i: nat, cur: Bytes)
    requires Blocks(e, bs) && |iv| == bs && i == |out| && i + bs <= |s| && EncState(e, bs, iv, s, b, o, out, buf, goal)
    requires cur == Carry(bs, iv, out)
    ensures var c := App(e, Xor(Block(s, i, bs), cur));
            && |c| == bs && |buf| == |b| && o + |s| <= |b| && Carry(bs, iv, out + c) == c && |out + c| == i + bs
            && EncState(e, bs, iv, s, b, o, out + c, Patch(buf, o + i, c), goal)
            && Block(buf, o + i, bs) == Block(b, o + i, bs)
            && (i == 0 ==> cur == iv)
            && (i > 0 ==> i >= bs && cur == Block(buf, o + i - bs, bs))
  {
    hide App, Enc, Patch, Xor, Block, EncToward, Carry;
    var c := App(e, Xor(Block(s, i, bs), cur));
    EncStep(e, bs, cur, s, i, out, goal);
    PatchAppend(b, o, out, c);
    CarryAt(b, o, out, bs, iv);
    CarryLast(bs, iv, out, c);
  }

  lemma EncStateEnd(e: Cipher, bs: nat, iv: Bytes, s: Bytes, b: Bytes, o: nat, out: Bytes, buf: Bytes, goal: Bytes)
    requires Blocks(e, bs) && |s| < |out| + bs && EncState(e, bs, iv, s, b, o, out, buf, goal)
    ensures out == goal && |out| <= |s| && o + |s| <= |b| && buf == Patch(b, o, out)
    ensures |out| >= bs ==> Carry(bs, iv, out) == Block(buf, o + |out| - bs, bs)
  {
    hide Enc, Patch, EncToward, Carry, Block;
    EncEnd(e, bs, Carry(bs, iv, out), s, |out|, out, goal);
    CarryAt(b, o, out, bs, iv);
  }

  ghost predicate DecState(d: Cipher, bs: nat, iv: Bytes, s: Bytes, b: Bytes, o: nat, out: Bytes, buf: Bytes,
                           goal: Bytes)
    requires Blocks(d, bs)
  {
    && |iv| == bs && |out| <= |s| && o + |s| <= |b| && (|out| == 0 || |out| >= bs)
    && buf == Patch(b, o, out)
    && DecToward(d, bs, if |out| == 0 then iv else Block(s, |out| - bs, bs), s, |out|, out, goal)
  }

  lemma DecStateStart(d: Cipher, bs: nat, iv: Bytes, s: Bytes, b: Bytes, o: nat)
    requires Blocks(d, bs) && |iv| == bs && o + |s| <= |b|
    ensures DecState(d, bs, iv, s, b, o, [], b, Dec(d, bs, iv, s))
  {
    hide Dec, Patch;
    DecStart(d, bs, iv, s);
    PatchNone(b, o);
  }

  lemma DecStateStep(d: Cipher, bs: nat, iv: Bytes, s: Bytes, b: Bytes, o: nat, out: Bytes, buf: Bytes, goal: Bytes,
                     i: nat, cur: Bytes)
    requires Blocks(d, bs) && |iv| == bs && i == |out| && i + bs <= |s| && DecState(d, bs, iv, s, b, o, out, buf, goal)
    requires cur == if i == 0 then iv else if i >= bs then Block(s, i - bs, bs) else []
    ensures |cur| == bs
    ensures var c := Block(s, i, bs);
            && |App(d, c)| == bs && |buf| == |b| && o + |s| <= |b| && (i > 0 ==> i >= bs)
            && |out + Xor(App(d, c), cur)| == i + bs
            && DecState(d, bs, iv, s, b, o, out + Xor(App(d, c), cur), Patch(buf, o + i, Xor(App(d, c), cur)), goal)
  {
    hide App, Dec, Patch, Xor, Block, DecToward;
    DecStep(d, bs, cur, s, i, out, goal);
    PatchAppend(b, o, out, Xor(App(d, Block(s, i, bs)), cur));
  }

  lemma DecStateEnd(d: Cipher, bs: nat, iv: Bytes, s: Bytes, b: Bytes, o: nat, out: Bytes, buf: Bytes, goal: Bytes)
    requires Blocks(d, bs) && |s| < |out| + bs && DecState(d, bs, iv, s, b, o, out, buf, goal)
    ensures out == goal && |out| <= |s| && o + |s| <= |b| && buf == Patch(b, o, out)
  {
    hide Dec, Patch, DecToward, Block;
    DecEnd(d, bs, if |out| == 0 then iv else Block(s, |out| - bs, bs), s, |out|, out, goal);
  }

  // ---------------------------------------------------------------- encrypting

  /** One block from `src` to `dst`; the chaining buffer becomes the cipher block. */
  method EncryptBlock(e: Cipher, bs: nat, src: array<bv8>, so: nat, dst: array<bv8>, at: nat, iv: array<bv8>)
    requires Blocks(e, bs) && so + bs <= src.Length && at + bs <= dst.Length && iv.Length == bs
    requires src != dst && iv != src && iv != dst
    modifies dst, iv
    ensures var c := App(e, Xor(Block(old(src[..]), so, bs), old(iv[..])));
            |c| == bs && dst[..] == Patch(old(dst[..]), at, c) && iv[..] == c
  {
    ghost var iv0, x := iv[..], Block(src[..], so, bs);
    XorInto(iv, 0, src, so, bs);
    XorSwap(x, iv0);
    assert iv0[0..bs] == iv0;
    assert iv[..] == Xor(x, iv0);
    hide Xor;
    var c := App(e, iv[..]);
    Store(dst, at, c);
    Store(iv, 0, c);
    assert iv[..] == c;
  }

  /** `crypto_cbc_encrypt_segment`. */
  method EncryptSegment(e: Cipher, bs: nat, src: array<bv8>, so: nat, dst: array<bv8>, do: nat, n: nat, iv: array<bv8>)
      returns (left: nat)
    requires bs > 0 && Blocks(e, bs) && bs <= n && so + n <= src.Length && do + n <= dst.Length && iv.Length == bs
    requires src != dst && iv != src && iv != dst
    modifies dst, iv
    ensures var out := Enc(e, bs, old(iv[..]), Block(src[..], so, n));
            && left == Rest(n, bs) && |out| == n - left
            && dst[..] == Patch(old(dst[..]), do, out) && iv[..] == Carry(bs, old(iv[..]), out)
  {
    assert SameRest(n, n, bs);
    hide App, Enc, Xor, Patch, EncState, Carry, Blocks, SameRest, Rest, Block;
    ghost var s := Block(src[..], so, n);
    ghost var iv0, goal, b0 := iv[..], Enc(e, bs, iv[..], s), dst[..];
    ghost var out: Bytes := [];
    left := n;
    var i := 0;
    EncStateStart(e, bs, iv0, s, b0, do);
    CarryNone(bs, iv0);
    while left >= bs
      invariant |out| == i && i + left == n && SameRest(left, n, bs)
      invariant EncState(e, bs, iv0, s, b0, do, out, dst[..], goal)
      invariant iv[..] == Carry(bs, iv0, out)
    {
      out := SegmentStep(e, bs, src, so, n, dst, do, i, iv, iv0, s, b0, out, goal);
      AfterBlock(left, bs, n);
      left, i := left - bs, i + bs;
    }
    EncStateEnd(e, bs, iv0, s, b0, do, out, dst[..], goal);
    RestIs(left, n, bs);
  }

  method SegmentStep(e: Cipher, bs: nat, src: array<bv8>, so: nat, n: nat, dst: array<bv8>, do: nat, i: nat,
                     iv: array<bv8>,
                     ghost iv0: Bytes, ghost s: Bytes, ghost b0: Bytes, ghost out: Bytes, ghost goal: Bytes)
      returns (ghost out': Bytes)
    requires Blocks(e, bs) && so + n <= src.Length && do + n <= dst.Length && iv.Length == bs && |iv0| == bs
    requires src != dst && iv != src && iv != dst && |out| == i && i + bs <= n && s == Block(src[..], so, n)
    requires EncState(e, bs, iv0, s, b0, do, out, dst[..], goal) && iv[..] == Carry(bs, iv0, out)
    modifies dst, iv
    ensures |out'| == i + bs && EncState(e, bs, iv0, s, b0, do, out', dst[..], goal) && iv[..] == Carry(bs, iv0, out')
  {
    hide App, Enc, Xor, Patch, EncState, Carry, Blocks, Block;
    ghost var cur := iv[..];
    EncStateStep(e, bs, iv0, s, b0, do, out, dst[..], goal, i, cur);
    SubBlock(src[..], so, n, i, bs);
    EncryptBlock(e, bs, src, so + i, dst, do + i, iv);
    out' := out + App(e, Xor(Block(s, i, bs), cur));
  }

  /** One block in place, chained to the bytes at `v` in `prev`. */
  method EncryptBlockInPlace(e: Cipher, bs: nat, a: array<bv8>, at: nat, prev: array<bv8>, v: nat)
    requires Blocks(e, bs) && at + bs <= a.Length && v + bs <= prev.Length && (a != prev || v + bs <= at)
    modifies a
    ensures var c := App(e, Xor(Block(old(a[..]), at, bs), Block(old(prev[..]), v, bs)));
            |c| == bs && a[..] == Patch(old(a[..]), at, c)
  {
    hide App, Xor, Patch;
    ghost var b0 := a[..];
    ghost var x := Xor(b0[at..at + bs], Block(prev[..], v, bs));
    XorInto(a, at, prev, v, bs);
    PatchSlice(b0, at, at, x);
    assert a[at..at + bs] == a[..][at..at + bs];
    var c := App(e, a[at..at + bs]);
    assert |c| == bs;
    Store(a, at, c);
    PatchTwice(b0, at, x, c);
  }

  lemma PatchTwice(b: Bytes, at: nat, x: Bytes, y: Bytes)
    requires at + |x| <= |b| && |x| == |y|
    ensures Patch(Patch(b, at, x), at, y) == Patch(b, at, y)
  {
  }

  /** `crypto_cbc_encrypt_inplace`. */
  method EncryptInPlace(e: Cipher, bs: nat, a: array<bv8>, o: nat, n: nat, iv: array<bv8>) returns (left: nat)
    requires bs > 0 && Blocks(e, bs) && bs <= n && o + n <= a.Length && iv.Length == bs && iv != a
    modifies a, iv
    ensures var out := Enc(e, bs, old(iv[..]), Block(old(a[..]), o, n));
            && left == Rest(n, bs) && |out| == n - left
            && a[..] == Patch(old(a[..]), o, out) && iv[..] == Carry(bs, old(iv[..]), out)
  {
    assert SameRest(n, n, bs);
    hide App, Enc, Xor, Patch, EncState, Carry, Blocks, SameRest, Rest, Block;
    ghost var s := Block(a[..], o, n);
    ghost var iv0, goal, b0 := iv[..], Enc(e, bs, iv[..], s), a[..];
    ghost var out: Bytes := [];
    left := n;
    var i := 0;
    EncStateStart(e, bs, iv0, s, b0, o);
    while left >= bs
      invariant |out| == i && i + left == n && SameRest(left, n, bs) && iv[..] == iv0 && (i == 0 || i >= bs)
      invariant EncState(e, bs, iv0, s, b0, o, out, a[..], goal)
    {
      ghost var cur := Carry(bs, iv0, out);
      EncStateStep(e, bs, iv0, s, b0, o, out, a[..], goal, i, cur);
      SubBlock(b0, o, n, i, bs);
      EncryptNext(e, bs, a, o, i, iv, cur);
      AfterBlock(left, bs, n);
      out := out + App(e, Xor(Block(s, i, bs), cur));
      left, i := left - bs, i + bs;
    }
    EncStateEnd(e, bs, iv0, s, b0, o, out, a[..], goal);
    RestIs(left, n, bs);
    SaveIv(iv, a, o + i - bs, bs);
  }

  /** The next block in place: chained to the caller's value at first, then to the block before. */
  method EncryptNext(e: Cipher, bs: nat, a: array<bv8>, o: nat, i: nat, iv: array<bv8>, ghost cur: Bytes)
    requires Blocks(e, bs) && o + i + bs <= a.Length && iv.Length == bs && iv != a && |cur| == bs
    requires i == 0 ==> cur == iv[..]
    requires i > 0 ==> i >= bs && cur == Block(a[..], o + i - bs, bs)
    modifies a
    ensures var c := App(e, Xor(Block(old(a[..]), o + i, bs), cur));
            |c| == bs && a[..] == Patch(old(a[..]), o + i, c)
  {
    hide App, Xor, Patch, Blocks;
    if i == 0 {
      assert iv[..][0..bs] == iv[..];
      EncryptBlockInPlace(e, bs, a, o + i, iv, 0);
    } else {
      EncryptBlockInPlace(e, bs, a, o + i, a, o + i - bs);
    }
  }

  /** Keep the chaining value for the next call. */
  method SaveIv(iv: array<bv8>, a: array<bv8>, at: nat, bs: nat)
    requires iv.Length == bs && at + bs <= a.Length && iv != a
    modifies iv
    ensures iv[..] == Block(a[..], at, bs)
  {
    ghost var x := a[..][at..at + bs];
    assert a[at..at + bs] == x;
    PatchWhole(iv[..], x);
    hide Patch;
    Store(iv, 0, a[at..at + bs]);
  }

  lemma CarryAt(b: Bytes, at: nat, out: Bytes, bs: nat, iv: Bytes)
    requires at + |out| <= |b| && |iv| == bs
    ensures out == [] && bs > 0 ==> Carry(bs, iv, out) == iv
    ensures |out| >= bs ==> Carry(bs, iv, out) == Block(Patch(b, at, out), at + |out| - bs, bs)
  {
    hide Patch;
    if |out| >= bs { PatchCarry(b, at, out, bs); }
  }

  /** The chaining value is found in the buffer. */
  lemma PatchCarry(b: Bytes, at: nat, out: Bytes, bs: nat)
    requires at + |out| <= |b| && |out| >= bs
    ensures Patch(b, at, out)[at + |out| - bs..at + |out|] == out[|out| - bs..]
  {
    var p := Patch(b, at, out);
    assert forall k :: 0 <= k < |out| ==> p[at + k] == out[k];
  }

  lemma PatchWhole(b: Bytes, x: Bytes)
    requires |b| == |x|
    ensures Patch(b, 0, x) == x
  {
  }

  // ---------------------------------------------------------------- decrypting

  /** One block from `src` to `dst`, chained to the bytes at `v` in `prev`. */
  method DecryptBlock(d: Cipher, bs: nat, src: array<bv8>, so: nat, dst: array<bv8>, at: nat, prev: array<bv8>, v: nat)
    requires Blocks(d, bs) && so + bs <= src.Length && at + bs <= dst.Length && v + bs <= prev.Length
    requires src != dst && prev != dst
    modifies dst
    ensures var c := Block(src[..], so, bs);
            |App(d, c)| == bs && dst[..] == Patch(old(dst[..]), at, Xor(App(d, c), Block(prev[..], v, bs)))
  {
    hide App, Xor, Patch;
    ghost var b0 := dst[..];
    assert src[so..so + bs] == Block(src[..], so, bs);
    var x := App(d, src[so..so + bs]);
    assert |x| == bs;
    Store(dst, at, x);
    PatchSlice(b0, at, at, x);
    XorInto(dst, at, prev, v, bs);
    PatchTwice(b0, at, x, Xor(x, Block(prev[..], v, bs)));
  }

  /** `crypto_cbc_decrypt_segment`. */
  method DecryptSegment(d: Cipher, bs: nat, src: array<bv8>, so: nat, dst: array<bv8>, do: nat, n: nat, iv: array<bv8>)
      returns (left: nat)
    requires bs > 0 && Blocks(d, bs) && bs <= n && so + n <= src.Length && do + n <= dst.Length && iv.Length == bs
    requires src != dst && iv != src && iv != dst
    modifies dst, iv
    ensures var out := Dec(d, bs, old(iv[..]), Block(src[..], so, n));
            && left == Rest(n, bs) && |out| == n - left
            && dst[..] == Patch(old(dst[..]), do, out)
            && iv[..] == Block(old(src[..]), so + (n - left - bs), bs)
  {
    assert SameRest(n, n, bs);
    hide App, Dec, Xor, Patch, DecState, Blocks, SameRest, Rest, Block;
    ghost var s := Block(src[..], so, n);
    ghost var iv0, goal, b0 := iv[..], Dec(d, bs, iv[..], s), dst[..];
    ghost var out: Bytes := [];
    left := n;
    var i := 0;
    DecStateStart(d, bs, iv0, s, b0, do);
    while left >= bs
      invariant |out| == i && i + left == n && SameRest(left, n, bs) && iv[..] == iv0 && (i == 0 || i >= bs)
      invariant DecState(d, bs, iv0, s, b0, do, out, dst[..], goal)
    {
      out := DecryptStep(d, bs, src, so, n, dst, do, i, iv, iv0, s, b0, out, goal);
      AfterBlock(left, bs, n);
      left, i := left - bs, i + bs;
    }
    DecStateEnd(d, bs, iv0, s, b0, do, out, dst[..], goal);
    RestIs(left, n, bs);
    SaveIv(iv, src, so + i - bs, bs);
  }

  method DecryptStep(d: Cipher, bs: nat, src: array<bv8>, so: nat, n: nat, dst: array<bv8>, do: nat, i: nat,
                     iv: array<bv8>,
                     ghost iv0: Bytes, ghost s: Bytes, ghost b0: Bytes, ghost out: Bytes, ghost goal: Bytes)
      returns (ghost out': Bytes)
    requires Blocks(d, bs) && so + n <= src.Length && do + n <= dst.Length && iv.Length == bs && |iv0| == bs
    requires iv[..] == iv0
    requires src != dst && iv != dst && |out| == i && i + bs <= n && (i == 0 || i >= bs) && s == Block(src[..], so, n)
    requires DecState(d, bs, iv0, s, b0, do, out, dst[..], goal)
    modifies dst
    ensures |out'| == i + bs && DecState(d, bs, iv0, s, b0, do, out', dst[..], goal)
  {
    hide App, Dec, Xor, Patch, DecState, Blocks, Block;
    ghost var cur := if i == 0 then iv0 else Block(s, i - bs, bs);
    DecStateStep(d, bs, iv0, s, b0, do, out, dst[..], goal, i, cur);
    SubBlock(src[..], so, n, i, bs);
    BlockBefore(src[..], so, n, i, bs);
    DecryptNext(d, bs, src, so, dst, do, i, iv, cur);
    out' := out + Xor(App(d, Block(s, i, bs)), cur);
  }

  /** The next block, chained to the caller's value at first, then to the cipher block before. */
  method DecryptNext(d: Cipher, bs: nat, src: array<bv8>, so: nat, dst: array<bv8>, do: nat, i: nat, iv: array<bv8>,
                     ghost cur: Bytes)
    requires Blocks(d, bs) && so + i + bs <= src.Length && do + i + bs <= dst.Length && iv.Length == bs && |cur| == bs
    requires src != dst && iv != dst
    requires i == 0 ==> cur == iv[..]
    requires i > 0 ==> i >= bs && cur == Block(src[..], so + i - bs, bs)
    modifies dst
    ensures var c := Block(src[..], so + i, bs);
            |App(d, c)| == bs && dst[..] == Patch(old(dst[..]), do + i, Xor(App(d, c), cur))
  {
    hide App, Xor, Patch, Blocks;
    if i == 0 {
      assert iv[..][0..bs] == iv[..];
      DecryptBlock(d, bs, src, so + i, dst, do + i, iv, 0);
    } else {
      DecryptBlock(d, bs, src, so + i, dst, do + i, src, so + i - bs);
    }
  }

  lemma PatchPrepend(b: Bytes, at: nat, x: Bytes, y: Bytes)
    requires at + |x| + |y| <= |b|
    ensures Patch(Patch(b, at + |x|, y), at, x) == Patch(b, at, x + y)
  {
    var p := Patch(b, at + |x|, y);
    assert p[..at] == b[..at];
    assert p[at + |x|..] == y + b[at + |x| + |y|..];
  }

  lemma PatchBefore(b: Bytes, at: nat, y: Bytes, k: nat, n: nat)
    requires k + n <= at && at + |y| <= |b|
    ensures Block(Patch(b, at, y), k, n) == Block(b, k, n)
  {
    PatchElsewhere(b, at, y, k, n);
  }

  /** Everything after the block at `p` is decrypted, that block and those before are not. */
  ghost predicate BackState(d: Cipher, bs: nat, s: Bytes, b: Bytes, o: nat, p: nat, buf: Bytes)
    requires Blocks(d, bs)
  {
    && p + bs <= |s| && o + |s| <= |b|
    && var y := Dec(d, bs, Block(s, p, bs), s[p + bs..]);
       p + bs + |y| <= |s| && buf == Patch(b, o + p + bs, y)
  }

  /** The start: nothing after the last whole block. */
  lemma BackStart(d: Cipher, bs: nat, s: Bytes, b: Bytes, o: nat, p: nat)
    requires Blocks(d, bs) && p + bs <= |s| < p + bs + bs && o + |s| <= |b|
    ensures BackState(d, bs, s, b, o, p, b)
  {
    assert Dec(d, bs, Block(s, p, bs), s[p + bs..]) == [];
    PatchNone(b, o + p + bs);
  }

  /** One block further back, chained to `prev`. */
  lemma BackStep(d: Cipher, bs: nat, s: Bytes, b: Bytes, o: nat, p: nat, buf: Bytes, prev: Bytes)
    requires Blocks(d, bs) && |prev| == bs && BackState(d, bs, s, b, o, p, buf)
    ensures p + bs <= |s| && o + |s| <= |b| == |buf|
    ensures var x := Xor(App(d, Block(s, p, bs)), prev);
            var y := Dec(d, bs, prev, s[p..]);
            && |App(d, Block(s, p, bs))| == bs && p + |y| <= |s| && Patch(buf, o + p, x) == Patch(b, o + p, y)
  {
    hide App, Xor, Dec, Patch;
    var c := Block(s, p, bs);
    var t := s[p..];
    assert t[..bs] == c && t[bs..] == s[p + bs..];
    DecUnfold(d, bs, prev, t);
    PatchPrepend(b, o + p, Xor(App(d, c), prev), Dec(d, bs, c, s[p + bs..]));
  }

  /** Blocks not reached yet are as they were. */
  lemma BackKeeps(d: Cipher, bs: nat, s: Bytes, b: Bytes, o: nat, p: nat, buf: Bytes, k: nat)
    requires Blocks(d, bs) && BackState(d, bs, s, b, o, p, buf) && k <= p && s == b[o..o + |s|]
    ensures |buf| == |b| && Block(buf, o + k, bs) == Block(s, k, bs)
  {
    hide Dec, Patch;
    var y := Dec(d, bs, Block(s, p, bs), s[p + bs..]);
    PatchBefore(b, o + p + bs, y, o + k, bs);
    SubSlice(b, o, |s|, k, bs);
  }

  lemma BackMove(d: Cipher, bs: nat, s: Bytes, b: Bytes, o: nat, k: nat, p: nat, buf: Bytes, buf': Bytes)
    requires Blocks(d, bs) && p == k + bs && p + bs <= |s| && |b| == |buf| && o + |s| <= |b|
    requires BackState(d, bs, s, b, o, p, buf)
    requires |App(d, Block(s, p, bs))| == bs && buf' == Patch(buf, o + p, Xor(App(d, Block(s, p, bs)), Block(s, k, bs)))
    ensures BackState(d, bs, s, b, o, k, buf')
  {
    BackStep(d, bs, s, b, o, p, buf, Block(s, k, bs));
    hide Dec, Patch, Xor, App, Block;
    assert o + p == o + k + bs;
  }

  /** Decrypt the block at `at` where it is. */
  method DecryptOver(d: Cipher, bs: nat, a: array<bv8>, at: nat)
    requires Blocks(d, bs) && at + bs <= a.Length
    modifies a
    ensures var x := App(d, Block(old(a[..]), at, bs)); |x| == bs && a[..] == Patch(old(a[..]), at, x)
  {
    hide App, Patch;
    assert a[at..at + bs] == Block(a[..], at, bs);
    var x := App(d, a[at..at + bs]);
    assert |x| == bs;
    Store(a, at, x);
  }

  /** Chain a decrypted block to the bytes at `v` in `prev`. */
  method ChainOver(a: array<bv8>, at: nat, prev: array<bv8>, v: nat, bs: nat, ghost b: Bytes, ghost x: Bytes)
    requires at + bs <= a.Length && v + bs <= prev.Length && (a != prev || v + bs <= at)
    requires |b| == a.Length && |x| == bs && a[..] == Patch(b, at, x)
    modifies a
    ensures a[..] == Patch(b, at, Xor(x, Block(old(prev[..]), v, bs)))
  {
    hide Xor, Patch;
    PatchSlice(b, at, at, x);
    XorInto(a, at, prev, v, bs);
    PatchTwice(b, at, x, Xor(x, old(prev[..])[v..v + bs]));
  }

  /** Chain the block at `p` to the cipher block before it, which is still in the buffer. */
  method ChainBack(d: Cipher, bs: nat, a: array<bv8>, o: nat, k: nat, p: nat, ghost s: Bytes, ghost b: Bytes,
                   ghost buf: Bytes)
    requires Blocks(d, bs) && p == k + bs && o + p + bs <= a.Length && |b| == a.Length == |buf| && o + |s| <= |b|
    requires p + bs <= |s|
    requires s == Block(b, o, |s|) && BackState(d, bs, s, b, o, p, buf)
    requires var x := App(d, Block(s, p, bs)); |x| == bs && a[..] == Patch(buf, o + p, x)
    modifies a
    ensures BackState(d, bs, s, b, o, k, a[..])
  {
    hide App, Dec, Xor, Patch, BackState, Blocks, Block;
    ghost var x := App(d, Block(s, p, bs));
    PrevBlock(d, bs, s, b, o, k, p, buf, x);
    ChainOver(a, o + p, a, o + k, bs, buf, x);
    BackMove(d, bs, s, b, o, k, p, buf, a[..]);
  }

  /** The cipher block before is where it was. */
  lemma PrevBlock(d: Cipher, bs: nat, s: Bytes, b: Bytes, o: nat, k: nat, p: nat, buf: Bytes, x: Bytes)
    requires Blocks(d, bs) && p == k + bs && |b| == |buf| && o + |s| <= |b| && p + bs <= |s| && |x| == bs
    requires s == Block(b, o, |s|) && BackState(d, bs, s, b, o, p, buf)
    ensures Block(Patch(buf, o + p, x), o + k, bs) == Block(s, k, bs)
  {
    BlockIs(b, o, |s|);
    hide Patch, BackState, Block;
    BackKeeps(d, bs, s, b, o, p, buf, k);
    PatchBefore(buf, o + p, x, o + k, bs);
  }

  lemma BlockIs(b: Bytes, at: nat, n: nat)
    requires at + n <= |b|
    ensures Block(b, at, n) == b[at..at + n]
  {
  }

  /** The last whole block of `n` bytes starts at a multiple of the block size. */
  lemma LastBlock(n: nat, bs: nat)
    requires 0 < bs <= n
    ensures var p := n - n % bs - bs; p >= 0 && Aligned(p, bs) && p + bs <= n < p + bs + bs && p + bs + Rest(n, bs) == n
    ensures Rest(n, bs) < bs
  {
    var q, r := n / bs, n % bs;
    assert n == q * bs + r;
    if q <= 0 { MulAbove(q, 1, bs); }
    assert (q - 1) * bs == n - r - bs;
    ModUnique(n - r - bs, bs, q - 1, 0);
  }

  /** Where the last whole block starts. */
  function LastStart(n: nat, bs: nat): (p: nat)
    requires 0 < bs <= n
    ensures Aligned(p, bs) && p + bs <= n < p + bs + bs && p + bs + Rest(n, bs) == n
  {
    LastBlock(n, bs);
    n - n % bs - bs
  }

  /** Fewer than a block left below an aligned position means none. */
  lemma FirstOrNot(p: nat, r: nat, bs: nat)
    requires Aligned(p, bs) && r < bs
    ensures p + r < bs ==> p == 0
    ensures p + r >= bs ==> p >= bs && Aligned(p - bs, bs)
  {
    if p < bs { ModSmall(p, bs); } else { ModLess(p, bs); }
  }

  /** `crypto_cbc_decrypt_inplace`: from the last block to the first. */
  method DecryptInPlace(d: Cipher, bs: nat, a: array<bv8>, o: nat, n: nat, iv: array<bv8>) returns (left: nat)
    requires bs > 0 && Blocks(d, bs) && bs <= n && o + n <= a.Length && iv.Length == bs && iv != a
    modifies a, iv
    ensures var out := Dec(d, bs, old(iv[..]), Block(old(a[..]), o, n));
            && left == Rest(n, bs) && |out| <= n && left + bs <= n
            && a[..] == Patch(old(a[..]), o, out)
            && iv[..] == Block(old(a[..]), o + (n - left - bs), bs)
  {
    hide App, Dec, Xor, Patch, BackState, Blocks, Rest, Aligned, LastStart;
    var p := LastStart(n, bs);
    var lastIv := ReadBlock(a, o + p, bs);
    hide Block;
    ghost var s, b0, iv0 := Block(a[..], o, n), a[..], iv[..];
    ghost var buf;
    left, buf := Backward(d, bs, a, o, n, p, s);
    ChainOver(a, o, iv, 0, bs, buf, App(d, Block(s, 0, bs)));
    BackEnd(d, bs, s, b0, o, buf, iv0);
    PatchWhole(iv0, lastIv);
    Store(iv, 0, lastIv);
    assert n - left - bs == p;
  }

  method ReadBlock(a: array<bv8>, at: nat, bs: nat) returns (x: Bytes)
    requires at + bs <= a.Length
    ensures x == Block(a[..], at, bs)
  {
    x := a[at..at + bs];
    assert x == a[..][at..at + bs];
  }

  /** The loop: at the end only the first block still has to be chained. */
  method Backward(d: Cipher, bs: nat, a: array<bv8>, o: nat, n: nat, start: nat, ghost s: Bytes)
      returns (left: nat, ghost buf: Bytes)
    requires Blocks(d, bs) && 0 < bs <= n && o + n <= a.Length && s == Block(a[..], o, n)
    requires Aligned(start, bs) && start + bs <= n < start + bs + bs && start + bs + Rest(n, bs) == n
    modifies a
    ensures left == Rest(n, bs) && |buf| == a.Length && |App(d, Block(s, 0, bs))| == bs
    ensures BackState(d, bs, s, old(a[..]), o, 0, buf) && a[..] == Patch(buf, o, App(d, Block(s, 0, bs)))
  {
    hide App, Dec, Xor, Patch, BackState, Blocks, Block, Rest, Aligned;
    ghost var b0, r := a[..], Rest(n, bs);
    left := n;
    var p: nat := start;
    BackStart(d, bs, s, b0, o, p);
    buf := b0;
    while true
      invariant p + bs + r == left && p + bs <= n && Aligned(p, bs)
      invariant BackState(d, bs, s, b0, o, p, a[..])
      decreases p
    {
      buf := a[..];
      BlockBack(d, bs, s, b0, o, p, buf);
      DecryptOver(d, bs, a, o + p);
      left := left - bs;
      FirstOrNot(p, r, bs);
      if left < bs {
        break;
      }
      ChainBack(d, bs, a, o, p - bs, p, s, b0, buf);
      p := p - bs;
    }
  }

  lemma BackEnd(d: Cipher, bs: nat, s: Bytes, b: Bytes, o: nat, buf: Bytes, iv: Bytes)
    requires Blocks(d, bs) && |iv| == bs && BackState(d, bs, s, b, o, 0, buf)
    ensures |s| >= bs && |buf| == |b| && o + |s| <= |b| && |App(d, Block(s, 0, bs))| == bs && Block(iv, 0, bs) == iv
    ensures |Dec(d, bs, iv, s)| <= |s|
    ensures Patch(buf, o, Xor(App(d, Block(s, 0, bs)), iv)) == Patch(b, o, Dec(d, bs, iv, s))
  {
    BackStep(d, bs, s, b, o, 0, buf, iv);
    assert s[0..] == s;
  }

  lemma BlockBack(d: Cipher, bs: nat, s: Bytes, b: Bytes, o: nat, p: nat, buf: Bytes)
    requires Blocks(d, bs) && BackState(d, bs, s, b, o, p, buf) && o + |s| <= |b| && s == Block(b, o, |s|)
    requires p + bs <= |s|
    ensures |buf| == |b| && Block(buf, o + p, bs) == Block(s, p, bs)
  {
    BlockIs(b, o, |s|);
    hide Block, BackState;
    BackKeeps(d, bs, s, b, o, p, buf, p);
  }

  // ---------------------------------------------------------------- walking a message chunk by chunk

  /** What the walk has still to read of the message is there. */
  ghost predicate Unread(same: bool, s: Bytes, m: Bytes, pos: nat) {
    |s| == |m| && pos <= |m| && if same then s[pos..] == m[pos..] else s == m
  }

  /** The chunks that the walk offers for the `left` last bytes of a message: each holds a block or
      more, and what does not fill a block is offered again with the next chunk. */
  ghost predicate Offered(sizes: seq<nat>, bs: nat, left: nat) {
    && bs > 0
    && (if sizes == [] then left == 0
        else bs <= sizes[0] <= left && Offered(sizes[1..], bs, left - Whole(sizes[0], bs)))
  }

  lemma OfferedFrom(sizes: seq<nat>, j: nat, bs: nat, left: nat)
    requires j <= |sizes| && Offered(sizes[j..], bs, left)
    ensures bs > 0 && (j == |sizes| ==> left == 0)
    ensures j < |sizes| ==> bs <= sizes[j] <= left && Offered(sizes[After(j)..], bs, left - Whole(sizes[j], bs))
  {
    if j < |sizes| { assert sizes[j..][1..] == sizes[j + 1..]; }
  }

  function After(j: nat): nat { j + 1 }

  lemma WholeBlocks(n: nat, bs: nat)
    requires 0 < bs <= n
    ensures bs <= Whole(n, bs) && Aligned(Whole(n, bs), bs) && Whole(n, bs) + Rest(n, bs) == n && Rest(n, bs) < bs
  {
    LastBlock(n, bs);
    ModLess(Whole(n, bs), bs);
  }

  /** The bytes behind the last whole block do not matter. */
  lemma EncWhole(e: Cipher, bs: nat, iv: Bytes, s: Bytes, pos: nat, n: nat)
    requires Blocks(e, bs) && |iv| == bs && 0 < bs <= n && pos + n <= |s|
    ensures Enc(e, bs, iv, Block(s, pos, n)) == Enc(e, bs, iv, Block(s, pos, Whole(n, bs)))
  {
    hide Whole, Aligned, Rest;
    WholeBlocks(n, bs);
    var w := Whole(n, bs);
    var a, b := Block(s, pos, w), s[pos + w..pos + n];
    assert Block(s, pos, n) == a + b;
    EncChunks(e, bs, iv, a, b);
    EncUnfold(e, bs, Carry(bs, iv, Enc(e, bs, iv, a)), b);
  }

  lemma DecWhole(d: Cipher, bs: nat, iv: Bytes, s: Bytes, pos: nat, n: nat)
    requires Blocks(d, bs) && |iv| == bs && 0 < bs <= n && pos + n <= |s|
    ensures Dec(d, bs, iv, Block(s, pos, n)) == Dec(d, bs, iv, Block(s, pos, Whole(n, bs)))
  {
    hide Whole, Aligned, Rest;
    WholeBlocks(n, bs);
    var w := Whole(n, bs);
    var a, b := Block(s, pos, w), s[pos + w..pos + n];
    assert Block(s, pos, n) == a + b;
    DecChunks(d, bs, iv, a, b);
    assert Dec(d, bs, Carry(bs, iv, a), b) == [];
  }

  /** The first `pos` bytes of the message `m` are done. */
  ghost predicate EncUpTo(e: Cipher, bs: nat, iv0: Bytes, m: Bytes, pos: nat, buf: Bytes, iv: Bytes)
    requires Blocks(e, bs)
  {
    && |iv0| == bs && pos <= |m| == |buf| && Aligned(pos, bs)
    && var out := Enc(e, bs, iv0, m[..pos]); |out| == pos && iv == Carry(bs, iv0, out) && buf[..pos] == out
  }

  lemma {:induction false} ModAdd(a: nat, b: nat, bs: nat)
    requires Aligned(a, bs) && Aligned(b, bs)
    ensures Aligned(a + b, bs)
    decreases a
  {
    AlignedStep(a, bs);
    if a >= bs {
      ModAdd(a - bs, b, bs);
      ModLess(a + b, bs);
    }
  }

  lemma CarryConcat(bs: nat, iv: Bytes, a: Bytes, b: Bytes)
    requires |iv| == bs && |b| >= bs
    ensures Carry(bs, iv, a + b) == Carry(bs, Carry(bs, iv, a), b)
  {
    assert (a + b)[|a + b| - bs..] == b[|b| - bs..];
  }

  lemma EncUpToStep(e: Cipher, bs: nat, iv0: Bytes, m: Bytes, pos: nat, k: nat, buf: Bytes, iv: Bytes, buf': Bytes,
                    iv': Bytes)
    requires Blocks(e, bs) && EncUpTo(e, bs, iv0, m, pos, buf, iv) && k >= bs && Aligned(k, bs) && pos + k <= |m|
    requires |iv| == bs
    requires var out := Enc(e, bs, iv, Block(m, pos, k));
             |out| == k && buf' == Patch(buf, pos, out) && iv' == Carry(bs, iv, out)
    ensures EncUpTo(e, bs, iv0, m, pos + k, buf', iv')
  {
    hide Enc, Aligned;
    var a, c := m[..pos], Block(m, pos, k);
    assert m[..pos + k] == a + c;
    EncChunks(e, bs, iv0, a, c);
    var x, y := Enc(e, bs, iv0, a), Enc(e, bs, iv, c);
    CarryConcat(bs, iv0, x, y);
    ModAdd(pos, k, bs);
    assert buf'[..pos + k] == buf[..pos] + y;
  }

  /** One chunk, in place when source and destination coincide. */
  method EncryptChunk(e: Cipher, bs: nat, src: array<bv8>, dst: array<bv8>, pos: nat, n: nat, iv: array<bv8>)
      returns (left: nat)
    requires 0 < bs <= n && Blocks(e, bs) && iv.Length == bs && iv != src && iv != dst
    requires pos + n <= src.Length == dst.Length
    modifies dst, iv
    ensures left == Rest(n, bs) && left + Whole(n, bs) == n
    ensures var out := Enc(e, bs, old(iv[..]), Block(old(src[..]), pos, Whole(n, bs)));
            |out| == Whole(n, bs) && dst[..] == Patch(old(dst[..]), pos, out) && iv[..] == Carry(bs, old(iv[..]), out)
  {
    WholeBlocks(n, bs);
    hide Enc, Patch, Carry, Block, Rest, Blocks, Aligned, Whole;
    EncWhole(e, bs, iv[..], src[..], pos, n);
    if src == dst {
      left := EncryptInPlace(e, bs, dst, pos, n, iv);
    } else {
      left := EncryptSegment(e, bs, src, pos, dst, pos, n, iv);
    }
  }

  method DecryptChunk(d: Cipher, bs: nat, src: array<bv8>, dst: array<bv8>, pos: nat, n: nat, iv: array<bv8>)
      returns (left: nat)
    requires 0 < bs <= n && Blocks(d, bs) && iv.Length == bs && iv != src && iv != dst
    requires pos + n <= src.Length == dst.Length
    modifies dst, iv
    ensures left == Rest(n, bs) && left + Whole(n, bs) == n && bs <= Whole(n, bs)
    ensures var out := Dec(d, bs, old(iv[..]), Block(old(src[..]), pos, Whole(n, bs)));
            && |out| <= n && dst[..] == Patch(old(dst[..]), pos, out)
            && iv[..] == Block(old(src[..]), pos + (Whole(n, bs) - bs), bs)
  {
    WholeBlocks(n, bs);
    hide Dec, Patch, Block, Rest, Blocks, Aligned, Whole;
    DecWhole(d, bs, iv[..], src[..], pos, n);
    if src == dst {
      left := DecryptInPlace(d, bs, dst, pos, n, iv);
    } else {
      left := DecryptSegment(d, bs, src, pos, dst, pos, n, iv);
    }
    assert n - left - bs == Whole(n, bs) - bs;
  }

  /** One turn of the walk. */
  method EncryptTurn(e: Cipher, bs: nat, src: array<bv8>, dst: array<bv8>, pos: nat, n: nat, iv: array<bv8>,
                     ghost iv0: Bytes, ghost m: Bytes)
      returns (left: nat)
    requires 0 < bs <= n && Blocks(e, bs) && iv.Length == bs && iv != src && iv != dst
    requires pos + n <= src.Length == dst.Length == |m|
    requires EncUpTo(e, bs, iv0, m, pos, dst[..], iv[..]) && Unread(src == dst, src[..], m, pos)
    modifies dst, iv
    ensures left + Whole(n, bs) == n && left < bs
    ensures EncUpTo(e, bs, iv0, m, pos + Whole(n, bs), dst[..], iv[..])
    ensures Unread(src == dst, src[..], m, pos + Whole(n, bs))
  {
    hide Enc, Patch, Carry, EncUpTo, Block, Rest, Blocks, Aligned, Whole;
    WholeBlocks(n, bs);
    ghost var k := Whole(n, bs);
    ghost var buf, iv1 := dst[..], iv[..];
    if src == dst { SuffixBlock(buf, m, pos, k); }
    left := EncryptChunk(e, bs, src, dst, pos, n, iv);
    EncUpToStep(e, bs, iv0, m, pos, k, buf, iv1, dst[..], iv[..]);
    if src == dst { SuffixPatch(buf, m, pos, k, Enc(e, bs, iv1, Block(m, pos, k))); }
  }

  /** `crypto_cbc_encrypt`: in place or not, whatever the chunks, the message is encrypted as one, and
      the last cipher block is left as the chaining value. */
  method CbcEncrypt(e: Cipher, bs: nat, src: array<bv8>, dst: array<bv8>, iv: array<bv8>, sizes: seq<nat>)
    requires Blocks(e, bs) && iv.Length == bs && iv != src && iv != dst
    requires src.Length == dst.Length && Offered(sizes, bs, src.Length)
    modifies dst, iv
    ensures dst[..] == Enc(e, bs, old(iv[..]), old(src[..])) && iv[..] == Carry(bs, old(iv[..]), dst[..])
  {
    ghost var m, iv0 := src[..], iv[..];
    OfferedFrom(sizes, 0, bs, |m|) by { assert sizes[0..] == sizes; }
    EncUpToStart(e, bs, iv0, m, dst[..]);
    assert Unread(src == dst, src[..], m, 0);
    hide Enc, Patch, Carry, EncUpTo, Block, Rest, Blocks, Aligned, Whole, Offered, Unread;
    var pos: nat, j: nat := 0, 0;
    assert sizes[0..] == sizes;
    while j < |sizes|
      invariant j <= |sizes| && pos <= |m| && Offered(sizes[j..], bs, |m| - pos)
      invariant EncUpTo(e, bs, iv0, m, pos, dst[..], iv[..])
      invariant Unread(src == dst, src[..], m, pos)
    {
      OfferedFrom(sizes, j, bs, |m| - pos);
      var left := EncryptTurn(e, bs, src, dst, pos, sizes[j], iv, iv0, m);
      pos, j := pos + (sizes[j] - left), After(j);
    }
    OfferedFrom(sizes, j, bs, |m| - pos);
    EncUpToEnd(e, bs, iv0, m, pos, dst[..], iv[..]);
  }

  lemma SuffixBlock(b: Bytes, m: Bytes, pos: nat, k: nat)
    requires |b| == |m| && pos + k <= |m| && b[pos..] == m[pos..]
    ensures Block(b, pos, k) == Block(m, pos, k)
  {
    assert b[pos..][..k] == b[pos..pos + k];
    assert m[pos..][..k] == m[pos..pos + k];
  }

  lemma SuffixPatch(b: Bytes, m: Bytes, pos: nat, k: nat, x: Bytes)
    requires |b| == |m| && pos + k <= |m| && b[pos..] == m[pos..] && |x| == k
    ensures Patch(b, pos, x)[pos + k..] == m[pos + k..]
  {
    assert b[pos..][k..] == b[pos + k..];
    assert m[pos..][k..] == m[pos + k..];
  }

  lemma EncUpToStart(e: Cipher, bs: nat, iv0: Bytes, m: Bytes, buf: Bytes)
    requires Blocks(e, bs) && |iv0| == bs && |m| == |buf|
    ensures EncUpTo(e, bs, iv0, m, 0, buf, iv0)
  {
    ModSmall(0, bs);
  }

  lemma EncUpToEnd(e: Cipher, bs: nat, iv0: Bytes, m: Bytes, pos: nat, buf: Bytes, iv: Bytes)
    requires Blocks(e, bs) && EncUpTo(e, bs, iv0, m, pos, buf, iv) && pos == |m|
    ensures |iv0| == bs && buf == Enc(e, bs, iv0, m) && iv == Carry(bs, iv0, buf)
  {
    assert m[..pos] == m && buf[..pos] == buf;
  }

  ghost predicate DecUpTo(d: Cipher, bs: nat, iv0: Bytes, m: Bytes, pos: nat, buf: Bytes, iv: Bytes)
    requires Blocks(d, bs)
  {
    && |iv0| == bs && pos <= |m| == |buf| && Aligned(pos, bs)
    && var out := Dec(d, bs, iv0, m[..pos]); |out| == pos && iv == Carry(bs, iv0, m[..pos]) && buf[..pos] == out
  }

  lemma DecUpToStart(d: Cipher, bs: nat, iv0: Bytes, m: Bytes, buf: Bytes)
    requires Blocks(d, bs) && |iv0| == bs && |m| == |buf|
    ensures DecUpTo(d, bs, iv0, m, 0, buf, iv0)
  {
    ModSmall(0, bs);
  }

  lemma DecUpToStep(d: Cipher, bs: nat, iv0: Bytes, m: Bytes, pos: nat, k: nat, buf: Bytes, iv: Bytes, buf': Bytes,
                    iv': Bytes)
    requires Blocks(d, bs) && DecUpTo(d, bs, iv0, m, pos, buf, iv) && k >= bs && Aligned(k, bs) && pos + k <= |m|
    requires |iv| == bs
    requires var out := Dec(d, bs, iv, Block(m, pos, k)); pos + |out| <= |m| && buf' == Patch(buf, pos, out)
    requires iv' == Block(m, pos + (k - bs), bs)
    ensures DecUpTo(d, bs, iv0, m, pos + k, buf', iv') && |Dec(d, bs, iv, Block(m, pos, k))| == k
  {
    hide Dec, Aligned;
    var a, c := m[..pos], Block(m, pos, k);
    assert m[..pos + k] == a + c;
    DecChunks(d, bs, iv0, a, c);
    DecAligned(d, bs, iv, c);
    var y := Dec(d, bs, iv, c);
    CarryConcat(bs, iv0, a, c);
    assert c[|c| - bs..] == iv';
    ModAdd(pos, k, bs);
    assert buf'[..pos + k] == buf[..pos] + y;
  }

  lemma DecAligned(d: Cipher, bs: nat, iv: Bytes, a: Bytes)
    requires Blocks(d, bs) && |iv| == bs && Aligned(|a|, bs)
    ensures |Dec(d, bs, iv, a)| == |a|
  {
    DecLength(d, bs, iv, a);
  }

  lemma DecUpToEnd(d: Cipher, bs: nat, iv0: Bytes, m: Bytes, pos: nat, buf: Bytes, iv: Bytes)
    requires Blocks(d, bs) && DecUpTo(d, bs, iv0, m, pos, buf, iv) && pos == |m|
    ensures |iv0| == bs && buf == Dec(d, bs, iv0, m) && iv == Carry(bs, iv0, m)
  {
    assert m[..pos] == m && buf[..pos] == buf;
  }

  lemma SuffixLast(b: Bytes, m: Bytes, pos: nat, k: nat, bs: nat)
    requires |b| == |m| && pos + k <= |m| && b[pos..] == m[pos..] && bs <= k
    ensures Block(b, pos + (k - bs), bs) == Block(m, pos + (k - bs), bs)
  {
    assert b[pos..][k - bs..k] == b[pos + k - bs..pos + k];
    assert m[pos..][k - bs..k] == m[pos + k - bs..pos + k];
  }

  /** One turn of the walk. */
  method DecryptTurn(d: Cipher, bs: nat, src: array<bv8>, dst: array<bv8>, pos: nat, n: nat, iv: array<bv8>,
                     ghost iv0: Bytes, ghost m: Bytes)
      returns (left: nat)
    requires 0 < bs <= n && Blocks(d, bs) && iv.Length == bs && iv != src && iv != dst
    requires pos + n <= src.Length == dst.Length == |m|
    requires DecUpTo(d, bs, iv0, m, pos, dst[..], iv[..]) && Unread(src == dst, src[..], m, pos)
    modifies dst, iv
    ensures left + Whole(n, bs) == n && left < bs
    ensures DecUpTo(d, bs, iv0, m, pos + Whole(n, bs), dst[..], iv[..])
    ensures Unread(src == dst, src[..], m, pos + Whole(n, bs))
  {
    hide Dec, Patch, Carry, DecUpTo, Block, Rest, Blocks, Aligned, Whole;
    WholeBlocks(n, bs);
    ghost var k := Whole(n, bs);
    ghost var buf, iv1 := dst[..], iv[..];
    if src == dst { SuffixBlock(buf, m, pos, k); SuffixLast(buf, m, pos, k, bs); }
    left := DecryptChunk(d, bs, src, dst, pos, n, iv);
    DecUpToStep(d, bs, iv0, m, pos, k, buf, iv1, dst[..], iv[..]);
    if src == dst { SuffixPatch(buf, m, pos, k, Dec(d, bs, iv1, Block(m, pos, k))); }
  }

  /** `crypto_cbc_decrypt`. */
  method CbcDecrypt(d: Cipher, bs: nat, src: array<bv8>, dst: array<bv8>, iv: array<bv8>, sizes: seq<nat>)
    requires Blocks(d, bs) && iv.Length == bs && iv != src && iv != dst
    requires src.Length == dst.Length && Offered(sizes, bs, src.Length)
    modifies dst, iv
    ensures dst[..] == Dec(d, bs, old(iv[..]), old(src[..])) && iv[..] == Carry(bs, old(iv[..]), old(src[..]))
  {
    ghost var m, iv0 := src[..], iv[..];
    OfferedFrom(sizes, 0, bs, |m|) by { assert sizes[0..] == sizes; }
    DecUpToStart(d, bs, iv0, m, dst[..]);
    assert Unread(src == dst, src[..], m, 0);
    hide Dec, Patch, Carry, DecUpTo, Block, Rest, Blocks, Aligned, Whole, Offered, Unread;
    var pos: nat, j: nat := 0, 0;
    assert sizes[0..] == sizes;
    while j < |sizes|
      invariant j <= |sizes| && pos <= |m| && Offered(sizes[j..], bs, |m| - pos)
      invariant DecUpTo(d, bs, iv0, m, pos, dst[..], iv[..])
      invariant Unread(src == dst, src[..], m, pos)
    {
      OfferedFrom(sizes, j, bs, |m| - pos);
      var left := DecryptTurn(d, bs, src, dst, pos, sizes[j], iv, iv0, m);
      pos, j := pos + (sizes[j] - left), After(j);
    }
    OfferedFrom(sizes, j, bs, |m| - pos);
    DecUpToEnd(d, bs, iv0, m, pos, dst[..], iv[..]);
  }
}
