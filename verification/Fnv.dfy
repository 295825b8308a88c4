/**
 The 64-bit FNV-1a hash behind the ring positions (draft-eastlake-fnv, section 2).
 A word is a number below 2^64 and multiplication wraps around. Characters are taken as
 ASCII, where `char` widens to `size_t` without a sign.
 */
module Fnv {

  const MODULUS := 0x1_0000_0000_0000_0000

  type Word = w: int | 0 <= w < MODULUS

  const OFFSET_BASIS: Word := 14695981039346656037
  const PRIME: Word := 1099511628211
  const PRIME_INVERSE: Word := 0xce965057aff6957b

  /** Bitwise exclusive or. */
  function Xor(a: nat, b: nat): nat {
    if a == 0 && b == 0 then 0 else (a + b) % 2 + 2 * Xor(a / 2, b / 2)
  }

  function Pow2(k: nat): nat {
    if k == 0 then 1 else 2 * Pow2(k - 1)
  }

  lemma {:induction false} XorBound(a: nat, b: nat, k: nat)
    requires a < Pow2(k) && b < Pow2(k)
    ensures Xor(a, b) < Pow2(k)
  {
    if k > 0 {
      XorBound(a / 2, b / 2, k - 1);
    }
  }

  lemma ModulusIsPow2()
    ensures Pow2(64) == MODULUS
  {
    assert Pow2(8) == 256;
    assert Pow2(16) == 65536;
    assert Pow2(24) == 0x100_0000;
    assert Pow2(32) == 0x1_0000_0000;
    assert Pow2(40) == 0x100_0000_0000;
    assert Pow2(48) == 0x1_0000_0000_0000;
    assert Pow2(56) == 0x100_0000_0000_0000;
  }

  function XorWord(a: Word, b: Word): Word {
    ModulusIsPow2();
    XorBound(a, b, 64);
    Xor(a, b)
  }

  function MulWord(a: Word, b: Word): Word {
    (a * b) % MODULUS
  }

  function Widen(c: char): Word {
    c as int
  }

  function Step(h: Word, c: char): Word {
    MulWord(XorWord(h, Widen(c)), PRIME)
  }

  /** The running hash after the characters of `s`. */
  function HashFrom(h: Word, s: string): Word {
    if s == "" then h else Step(HashFrom(h, s[..|s| - 1]), s[|s| - 1])
  }

  function Hash(s: string): Word {
    HashFrom(OFFSET_BASIS, s)
  }

  lemma {:induction false} XorNothing(a: nat)
    ensures Xor(a, 0) == a
  {
    if a > 0 { XorNothing(a / 2); }
  }

  /** One more bit at the low end of both numbers. */
  lemma XorBit(a: nat, b: nat, s: nat, t: nat, x: nat)
    requires Xor(a, b) == x && s < 2 && t < 2
    ensures Xor(2 * a + s, 2 * b + t) == 2 * x + if s == t then 0 else 1
  {
    Halves(s, a);
    Halves(t, b);
  }

  lemma XorHighBits(h: nat)
    ensures Xor(16 * h + 4, 12) == 16 * h + 8
  {
    XorNothing(h);
    XorBit(h, 0, 0, 1, h);
    XorBit(2 * h, 1, 1, 1, 2 * h + 1);
    XorBit(4 * h + 1, 3, 0, 0, 4 * h + 2);
    XorBit(8 * h + 2, 6, 0, 0, 8 * h + 4);
  }

  lemma XorWithLetterA(h: nat)
    ensures Xor(128 * h + 37, 97) == 128 * h + 68
  {
    XorHighBits(h);
    XorBit(16 * h + 4, 12, 1, 0, 16 * h + 8);
    XorBit(32 * h + 9, 24, 0, 0, 32 * h + 17);
    XorBit(64 * h + 18, 48, 1, 1, 64 * h + 34);
  }

  lemma TimesPrime(x: Word)
    requires x == 0xcbf29ce484222344
    ensures MulWord(x, PRIME) == 0xaf63dc4c8601ec8c
  {
    ReducedOnce(0xaf63dc4c8601ec8c, 0xcbf29ce5de);
  }

  lemma FirstXor(h: nat, a: nat)
    requires h == 0xcbf29ce484222325 && a == 97
    ensures Xor(h, a) == 0xcbf29ce484222344
  {
    XorWithLetterA(0x197e539c9084446);
  }

  lemma StepOnA(h: Word, c: char)
    requires h == 0xcbf29ce484222325 && c == 'a'
    ensures Step(h, c) == 0xaf63dc4c8601ec8c
  {
    FirstXor(h, Widen(c));
    TimesPrime(XorWord(h, Widen(c)));
  }

  /** Test vectors of draft-eastlake-fnv: the empty string, and "a". */
  lemma KnownHashes(a: string)
    ensures Hash("") == 0xcbf29ce484222325
    ensures |a| == 1 && a[0] == 'a' ==> Hash(a) == 0xaf63dc4c8601ec8c
  {
    if |a| == 1 && a[0] == 'a' {
      assert a[..0] == "";
      StepOnA(OFFSET_BASIS, a[0]);
    }
  }

  /** The loop of `hashKey`. */
  method HashKey(key: string) returns (h: Word)
    ensures h == Hash(key)
  {
    h := OFFSET_BASIS;
    for i := 0 to |key|
      invariant h == HashFrom(OFFSET_BASIS, key[..i])
    {
      assert key[..i + 1][..i] == key[..i];
      h := XorWord(h, Widen(key[i]));
      h := MulWord(h, PRIME);
    }
    assert key[..|key|] == key;
  }

  lemma XorHalves(a: nat, b: nat)
    ensures Xor(a, b) % 2 == (a + b) % 2
    ensures Xor(a, b) / 2 == Xor(a / 2, b / 2)
  {
    if a != 0 || b != 0 {
      Halves((a + b) % 2, Xor(a / 2, b / 2));
    }
  }

  lemma Halves(r: nat, x: nat)
    requires r < 2
    ensures (r + 2 * x) % 2 == r && (r + 2 * x) / 2 == x
  {}

  lemma ParityUndone(x: nat, a: nat, b: nat)
    requires x % 2 == (a + b) % 2
    ensures (x + b) % 2 == a % 2
  {}

  lemma SameHalves(x: nat, y: nat)
    requires x / 2 == y / 2 && x % 2 == y % 2
    ensures x == y
  {}

  lemma {:induction false} XorUndone(a: nat, b: nat)
    ensures Xor(Xor(a, b), b) == a
    decreases a + b
  {
    if a != 0 || b != 0 {
      XorUndone(a / 2, b / 2);
      var once := Xor(a, b);
      XorHalves(a, b);
      XorHalves(once, b);
      ParityUndone(once, a, b);
      SameHalves(Xor(once, b), a);
    }
  }

  lemma {:induction false} XorCommutes(a: nat, b: nat)
    ensures Xor(a, b) == Xor(b, a)
  {
    if a != 0 || b != 0 {
      XorCommutes(a / 2, b / 2);
    }
  }

  lemma ReducedOnce(x: Word, k: int)
    ensures (x + MODULUS * k) % MODULUS == x
  {}

  lemma ScaledReduction(p: int, x: Word, q: int, j: int, k: int)
    requires p * q == 1 + MODULUS * j
    ensures (p * x - MODULUS * k) * q == x + MODULUS * (j * x - k * q)
  {
    calc {
      (p * x - MODULUS * k) * q;
      (p * q) * x - MODULUS * (k * q);
      (1 + MODULUS * j) * x - MODULUS * (k * q);
      x + MODULUS * (j * x - k * q);
    }
  }

  /** Multiplying by the prime and by its inverse, in either order, changes nothing. */
  lemma MultiplyUndone(x: Word, p: Word, q: Word)
    requires (p == PRIME && q == PRIME_INVERSE) || (p == PRIME_INVERSE && q == PRIME)
    ensures MulWord(MulWord(x, p), q) == x
  {
    var j := (PRIME * PRIME_INVERSE) / MODULUS;
    assert PRIME * PRIME_INVERSE == 1 + MODULUS * j;
    var k := (p * x) / MODULUS;
    assert x * p == p * x == MODULUS * k + MulWord(x, p);
    ScaledReduction(p, x, q, j, k);
    ReducedOnce(x, j * x - k * q);
  }

  function Unstep(h: Word, c: char): Word {
    XorWord(MulWord(h, PRIME_INVERSE), Widen(c))
  }

  /** For a fixed character one FNV-1a step is a permutation of the 64-bit states. */
  lemma StepIsPermutation(h: Word, c: char)
    ensures Unstep(Step(h, c), c) == h
    ensures Step(Unstep(h, c), c) == h
  {
    MultiplyUndone(XorWord(h, Widen(c)), PRIME, PRIME_INVERSE);
    XorUndone(h, Widen(c));
    MultiplyUndone(h, PRIME_INVERSE, PRIME);
    XorUndone(MulWord(h, PRIME_INVERSE), Widen(c));
  }

  /** From one state, different characters lead to different states. */
  lemma StepSeparates(h: Word, c: char, d: char)
    requires Step(h, c) == Step(h, d)
    ensures c == d
  {
    MultiplyUndone(XorWord(h, Widen(c)), PRIME, PRIME_INVERSE);
    MultiplyUndone(XorWord(h, Widen(d)), PRIME, PRIME_INVERSE);
    XorCommutes(h, Widen(c));
    XorCommutes(h, Widen(d));
    XorUndone(Widen(c), h);
    XorUndone(Widen(d), h);
  }

  lemma {:induction false} HashFromAppend(h: Word, a: string, b: string)
    ensures HashFrom(h, a + b) == HashFrom(HashFrom(h, a), b)
  {
    if b == "" {
      assert a + b == a;
    } else {
      assert (a + b)[..|a + b| - 1] == a + b[..|b| - 1];
      HashFromAppend(h, a, b[..|b| - 1]);
    }
  }

  /** A common suffix never merges two different running hashes. */
  lemma {:induction false} SuffixKeepsApart(g: Word, h: Word, s: string)
    requires HashFrom(g, s) == HashFrom(h, s)
    ensures g == h
  {
    if s != "" {
      var front, c := s[..|s| - 1], s[|s| - 1];
      StepIsPermutation(HashFrom(g, front), c);
      StepIsPermutation(HashFrom(h, front), c);
      SuffixKeepsApart(g, h, front);
    }
  }

  lemma SplitHash(pre: string, c: char, post: string)
    ensures Hash(pre + [c] + post) == HashFrom(Step(Hash(pre), c), post)
  {
    HashFromAppend(OFFSET_BASIS, pre + [c], post);
    assert (pre + [c])[..|pre|] == pre;
  }

  /** Two keys that differ in exactly one position never collide. */
  lemma OneDifferenceNeverCollides(a: string, b: string, i: nat)
    requires |a| == |b| && i < |a|
    requires forall j | 0 <= j < |a| :: a[j] == b[j] <==> j != i
    ensures Hash(a) != Hash(b)
  {
    var pre, post := a[..i], a[i + 1..];
    assert a == pre + [a[i]] + post;
    assert b == pre + [b[i]] + post;
    SplitHash(pre, a[i], post);
    SplitHash(pre, b[i], post);
    if Hash(a) == Hash(b) {
      SuffixKeepsApart(Step(Hash(pre), a[i]), Step(Hash(pre), b[i]), post);
      StepSeparates(Hash(pre), a[i], b[i]);
    }
  }
}
