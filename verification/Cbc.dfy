/** Cipher block chaining (section 6.2 of NIST SP 800-38A) over a block cipher given as a function. */
module Cbc {

  type Bytes = seq<bv8>

  /** A block cipher in one direction. */
  type Cipher = Bytes -> Bytes

  function Xor(a: Bytes, b: Bytes): (r: Bytes)
    requires |a| == |b|
    ensures |r| == |a|
  {
    seq(|a|, i requires 0 <= i < |a| => a[i] ^ b[i])
  }

  function App(f: Cipher, b: Bytes): Bytes { f(b) }

  /** The cipher maps blocks to blocks. */
  ghost predicate Blocks(f: Cipher, bs: nat) {
    bs > 0 && forall b: Bytes :: |b| == bs ==> |App(f, b)| == bs
  }

  ghost predicate Inverse(e: Cipher, d: Cipher, bs: nat) {
    forall b: Bytes :: |b| == bs ==> App(d, App(e, b)) == b
  }

  /** Encrypt all whole blocks of the data. */
  ghost function Enc(e: Cipher, bs: nat, iv: Bytes, data: Bytes): Bytes
    requires Blocks(e, bs) && |iv| == bs
    decreases |data|
  {
    if |data| < bs then []
    else
      var c := App(e, Xor(data[..bs], iv));
      c + Enc(e, bs, c, data[bs..])
  }

  /** Decrypt all whole blocks of the data. */
  ghost function Dec(d: Cipher, bs: nat, iv: Bytes, data: Bytes): Bytes
    requires Blocks(d, bs) && |iv| == bs
    decreases |data|
  {
    if |data| < bs then []
    else Xor(App(d, data[..bs]), iv) + Dec(d, bs, data[..bs], data[bs..])
  }

  lemma EncUnfold(e: Cipher, bs: nat, iv: Bytes, data: Bytes)
    requires Blocks(e, bs) && |iv| == bs
    ensures Enc(e, bs, iv, data) ==
            if |data| < bs then []
            else App(e, Xor(data[..bs], iv)) + Enc(e, bs, App(e, Xor(data[..bs], iv)), data[bs..])
  {
  }

  lemma DecUnfold(d: Cipher, bs: nat, iv: Bytes, data: Bytes)
    requires Blocks(d, bs) && |iv| == bs
    ensures Dec(d, bs, iv, data) ==
            if |data| < bs then [] else Xor(App(d, data[..bs]), iv) + Dec(d, bs, data[..bs], data[bs..])
  {
  }

  /** The bytes that belong to whole blocks. */
  function Whole(n: nat, bs: nat): (r: nat)
    requires bs > 0
    ensures r <= n
  {
    n - n % bs
  }

  lemma ModLess(n: nat, bs: nat)
    requires bs > 0 && n >= bs
    ensures n % bs == (n - bs) % bs
  {
    var q, r := n / bs, n % bs;
    assert n == q * bs + r;
    assert n - bs == (q - 1) * bs + r;
    ModUnique(n - bs, bs, q - 1, r);
  }

  lemma MulAbove(a: int, b: int, m: nat)
    requires a < b
    ensures a * m + m <= b * m
  {
    assert b * m == a * m + (b - a) * m;
    assert (b - a) * m == (b - a - 1) * m + m;
  }

  lemma ModUnique(n: nat, bs: nat, q: int, r: nat)
    requires bs > 0 && n == q * bs + r && r < bs
    ensures n % bs == r
  {
    var q' := n / bs;
    if q > q' { MulAbove(q', q, bs); }
    if q < q' { MulAbove(q, q', bs); }
  }

  lemma ModSmall(n: nat, bs: nat)
    requires n < bs
    ensures n % bs == n
  {
    ModUnique(n, bs, 0, n);
  }

  /** A whole number of blocks. */
  ghost predicate Aligned(p: int, bs: nat) { bs > 0 && p % bs == 0 }

  lemma AlignedStep(n: nat, bs: nat)
    requires Aligned(n, bs)
    ensures if n < bs then n == 0 else Aligned(n - bs, bs)
  {
    if n < bs { ModSmall(n, bs); } else { ModLess(n, bs); }
  }

  lemma {:induction false} EncLength(e: Cipher, bs: nat, iv: Bytes, data: Bytes)
    requires Blocks(e, bs) && |iv| == bs
    ensures |Enc(e, bs, iv, data)| == Whole(|data|, bs)
    decreases |data|
  {
    if |data| < bs {
      ModSmall(|data|, bs);
    } else {
      var c := App(e, Xor(data[..bs], iv));
      assert |data[bs..]| == |data| - bs;
      EncLength(e, bs, c, data[bs..]);
      ModLess(|data|, bs);
    }
  }

  lemma {:induction false} DecLength(d: Cipher, bs: nat, iv: Bytes, data: Bytes)
    requires Blocks(d, bs) && |iv| == bs
    ensures |Dec(d, bs, iv, data)| == Whole(|data|, bs)
    decreases |data|
  {
    if |data| < bs {
      ModSmall(|data|, bs);
    } else {
      assert |data[bs..]| == |data| - bs;
      DecLength(d, bs, data[..bs], data[bs..]);
      ModLess(|data|, bs);
    }
  }

  // ---------------------------------------------------------------- round trip

  lemma XorTwice(a: Bytes, b: Bytes)
    requires |a| == |b|
    ensures Xor(Xor(a, b), b) == a
  {
    forall i | 0 <= i < |a| ensures Xor(Xor(a, b), b)[i] == a[i] {
      assert (a[i] ^ b[i]) ^ b[i] == a[i];
    }
  }

  lemma BlockOf(f: Cipher, bs: nat, b: Bytes)
    requires Blocks(f, bs) && |b| == bs
    ensures |App(f, b)| == bs
  {
  }

  lemma Undo(e: Cipher, d: Cipher, bs: nat, b: Bytes)
    requires Inverse(e, d, bs) && |b| == bs
    ensures App(d, App(e, b)) == b
  {
  }

  lemma Cut(a: Bytes, b: Bytes, n: nat)
    requires n <= |a|
    ensures (a + b)[..n] == a[..n] && (a + b)[n..] == a[n..] + b
    ensures a == a[..n] + a[n..] && |a[..n]| == n && |a[n..]| == |a| - n
  {
  }

  lemma Assoc(x: Bytes, y: Bytes, z: Bytes)
    ensures x + (y + z) == x + y + z
  {
  }

  /** Decryption inverts encryption at every length of whole blocks. */
  lemma {:induction false} RoundTrip(e: Cipher, d: Cipher, bs: nat, iv: Bytes, data: Bytes)
    requires Blocks(e, bs) && Blocks(d, bs) && Inverse(e, d, bs) && |iv| == bs && Aligned(|data|, bs)
    ensures Dec(d, bs, iv, Enc(e, bs, iv, data)) == data
    decreases |data|
  {
    hide Xor, Enc, Dec, Blocks, Inverse, Aligned, App;
    AlignedStep(|data|, bs);
    EncUnfold(e, bs, iv, data);
    if |data| < bs {
      DecUnfold(d, bs, iv, []);
    } else {
      Cut(data, [], bs);
      var p, rest := data[..bs], data[bs..];
      var x := Xor(p, iv);
      var c := App(e, x);
      BlockOf(e, bs, x);
      Undo(e, d, bs, x);
      RoundTrip(e, d, bs, c, rest);
      XorTwice(p, iv);
      RoundTripStep(d, bs, iv, c, Enc(e, bs, c, rest));
    }
  }

  lemma RoundTripStep(d: Cipher, bs: nat, iv: Bytes, c: Bytes, rest: Bytes)
    requires Blocks(d, bs) && |iv| == bs && |c| == bs
    ensures |App(d, c)| == bs && Dec(d, bs, iv, c + rest) == Xor(App(d, c), iv) + Dec(d, bs, c, rest)
  {
    hide Xor;
    assert (c + rest)[..bs] == c && (c + rest)[bs..] == rest;
    DecUnfold(d, bs, iv, c + rest);
  }

  // ---------------------------------------------------------------- chunking

  /** The chaining value after the ciphertext `c`. */
  function Carry(bs: nat, iv: Bytes, c: Bytes): (r: Bytes)
    requires |iv| == bs
    ensures |r| == bs
  {
    if |c| < bs then iv else c[|c| - bs..]
  }

  /** Encrypting a block-aligned part and then the rest with the carried chaining value is encrypting
      everything at once. */
  lemma {:induction false} EncChunks(e: Cipher, bs: nat, iv: Bytes, a: Bytes, b: Bytes)
    requires Blocks(e, bs) && |iv| == bs && Aligned(|a|, bs)
    ensures Enc(e, bs, iv, a + b) == Enc(e, bs, iv, a) + Enc(e, bs, Carry(bs, iv, Enc(e, bs, iv, a)), b)
    decreases |a|
  {
    hide Xor, Enc, Blocks, Aligned, App, Carry;
    AlignedStep(|a|, bs);
    EncUnfold(e, bs, iv, a);
    if |a| < bs {
      NoCarry(bs, iv, a, b);
    } else {
      Cut(a, b, bs);
      EncUnfold(e, bs, iv, a + b);
      var c, rest := App(e, Xor(a[..bs], iv)), a[bs..];
      BlockOf(e, bs, Xor(a[..bs], iv));
      EncChunks(e, bs, c, rest, b);
      var ea := Enc(e, bs, c, rest);
      EncAligned(e, bs, c, rest);
      CarryOn(bs, iv, c, ea);
      Assoc(c, ea, Enc(e, bs, Carry(bs, c, ea), b));
    }
  }

  lemma NoCarry(bs: nat, iv: Bytes, a: Bytes, b: Bytes)
    requires |iv| == bs && a == [] && bs > 0
    ensures Carry(bs, iv, []) == iv && Carry(bs, iv, a) == iv && a + b == b && forall x: Bytes :: [] + x == x
  {
  }

  lemma EncAligned(e: Cipher, bs: nat, iv: Bytes, a: Bytes)
    requires Blocks(e, bs) && |iv| == bs && Aligned(|a|, bs)
    ensures |Enc(e, bs, iv, a)| == |a|
  {
    EncLength(e, bs, iv, a);
  }

  lemma CarryOn(bs: nat, iv: Bytes, c: Bytes, rest: Bytes)
    requires |iv| == bs && |c| == bs && Aligned(|rest|, bs)
    ensures Carry(bs, iv, c + rest) == Carry(bs, c, rest)
  {
    AlignedStep(|rest|, bs);
    hide Aligned;
    if |rest| < bs {
      assert (c + rest)[|c + rest| - bs..] == c;
    } else {
      assert (c + rest)[|c + rest| - bs..] == rest[|rest| - bs..];
    }
  }

  lemma {:induction false} DecChunks(d: Cipher, bs: nat, iv: Bytes, a: Bytes, b: Bytes)
    requires Blocks(d, bs) && |iv| == bs && Aligned(|a|, bs)
    ensures Dec(d, bs, iv, a + b) == Dec(d, bs, iv, a) + Dec(d, bs, Carry(bs, iv, a), b)
    decreases |a|
  {
    hide Xor, Dec, Blocks, Aligned, App, Carry;
    AlignedStep(|a|, bs);
    DecUnfold(d, bs, iv, a);
    if |a| < bs {
      NoCarry(bs, iv, a, b);
    } else {
      Cut(a, b, bs);
      DecUnfold(d, bs, iv, a + b);
      var first, rest := a[..bs], a[bs..];
      BlockOf(d, bs, first);
      DecChunks(d, bs, first, rest, b);
      CarryOn(bs, iv, first, rest);
      Assoc(Xor(App(d, first), iv), Dec(d, bs, first, rest), Dec(d, bs, Carry(bs, first, rest), b));
    }
  }
}
