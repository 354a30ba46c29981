/**
 The packed allocation word that observers read: three chunk counts of 20 bits each in one uint64.
 Bit operations are defined on natural numbers, bit by bit.
 */
module MediaBufferLive {
  import Pool = MediaBufferModel
  import opened MediaBufferInvariant
  import opened MediaBufferOperations

  const MASK: nat := 0xFFFFF
  const TWO_64: nat := 0x1_0000_0000_0000_0000

  // ---- bits -----------------------------------------------------------------------------------

  function Pow2(k: nat): nat {
    if k == 0 then 1 else 2 * Pow2(k - 1)
  }

  function Or(a: nat, b: nat): nat {
    if a == 0 && b == 0 then 0
    else (if a % 2 == 1 || b % 2 == 1 then 1 else 0) + 2 * Or(a / 2, b / 2)
  }

  function And(a: nat, b: nat): nat {
    if a == 0 || b == 0 then 0
    else (if a % 2 == 1 && b % 2 == 1 then 1 else 0) + 2 * And(a / 2, b / 2)
  }

  function ShiftLeft(a: nat, k: nat): nat {
    a * Pow2(k) % TWO_64
  }

  function ShiftRight(a: nat, k: nat): nat
  {
    if k == 0 then a else ShiftRight(a / 2, k - 1)
  }

  lemma {:induction false} OrZero(a: nat)
    ensures Or(a, 0) == a && Or(0, a) == a
  {
    if a > 0 {
      OrZero(a / 2);
    }
  }

  /** Bits that do not meet are added. */
  lemma {:induction false} OrAdds(a: nat, b: nat, k: nat)
    requires a < Pow2(k)
    ensures Or(a, b * Pow2(k)) == a + b * Pow2(k)
  {
    if k == 0 {
      OrZero(b);
    } else {
      var high := b * Pow2(k - 1);
      assert b * Pow2(k) == 2 * high;
      assert 2 * high / 2 == high && 2 * high % 2 == 0;
      OrAdds(a / 2, b, k - 1);
    }
  }

  lemma AndOdd(x: nat, mask: nat)
    requires mask % 2 == 1
    ensures And(x, mask) == x % 2 + 2 * And(x / 2, mask / 2)
  {
  }

  lemma Halves(a: nat, high: nat, p: nat)
    requires p > 0
    ensures (a + 2 * high) / 2 == a / 2 + high && (a + 2 * high) % 2 == a % 2
    ensures (2 * p - 1) / 2 == p - 1 && (2 * p - 1) % 2 == 1
  {
  }

  lemma {:induction false} Pow2Positive(k: nat)
    ensures Pow2(k) > 0
  {
    if k > 0 {
      Pow2Positive(k - 1);
    }
  }

  lemma Doubled(b: nat, p: nat)
    ensures b * (2 * p) == 2 * (b * p)
  {
  }

  /** A word of low bits `a` and high part `b`, halved. */
  lemma HalfWord(a: nat, b: nat, k: nat)
    requires k > 0 && a < Pow2(k)
    ensures var word := a + b * Pow2(k); var half := a / 2 + b * Pow2(k - 1);
      word / 2 == half && word % 2 == a % 2 && a / 2 < Pow2(k - 1)
    ensures (Pow2(k) - 1) / 2 == Pow2(k - 1) - 1 && (Pow2(k) - 1) % 2 == 1
  {
    var p := Pow2(k - 1);
    Pow2Positive(k - 1);
    assert Pow2(k) == 2 * p;
    hide Pow2;
    Doubled(b, p);
    Halves(a, b * p, p);
  }

  lemma LowestBit(a: nat)
    ensures a == a % 2 + 2 * (a / 2)
  {
  }

  /** Masking the low bits is a remainder. */
  lemma {:induction false} AndKeepsLow(a: nat, b: nat, k: nat)
    requires a < Pow2(k)
    ensures Pow2(k) > 0 && And(a + b * Pow2(k), Pow2(k) - 1) == a
  {
    Pow2Positive(k);
    if k == 0 {
      assert Pow2(0) == 1;
    } else {
      HalfWord(a, b, k);
      Pow2Positive(k - 1);
      hide And, Pow2;
      AndKeepsLow(a / 2, b, k - 1);
      AndOdd(a + b * Pow2(k), Pow2(k) - 1);
      LowestBit(a);
    }
  }

  /** Shifting out the low bits leaves the rest. */
  lemma {:induction false} ShiftDrops(a: nat, b: nat, k: nat)
    requires a < Pow2(k)
    ensures ShiftRight(a + b * Pow2(k), k) == b
  {
    if k > 0 {
      HalfWord(a, b, k);
      hide Pow2;
      ShiftDrops(a / 2, b, k - 1);
    } else {
      assert Pow2(0) == 1;
    }
  }

  lemma Powers()
    ensures Pow2(20) == 0x10_0000 && Pow2(40) == 0x100_0000_0000
  {
    assert Pow2(10) == 1024;
    assert Pow2(20) == 0x10_0000;
    assert Pow2(30) == 0x4000_0000;
  }

  // ---- the word -------------------------------------------------------------------------------

  /** A byte count as the program's unsigned chunk count, held to 20 bits. Go divides toward zero and
      converts the quotient modulo 2^64. */
  function Chunks(bytes: int): (c: nat)
    ensures c <= MASK
    ensures 0 <= bytes ==> c * 32768 <= bytes
  {
    var quotient := if bytes >= 0 then bytes / 32768 else -((-bytes) / 32768);
    var unsigned := quotient % TWO_64;
    if unsigned > MASK then MASK else unsigned
  }

  function Pack(target: int, owned: int, debt: int): nat {
    Or(Or(Chunks(target), ShiftLeft(Chunks(owned), 20)), ShiftLeft(Chunks(debt), 40))
  }

  function Unpack(word: nat): (int, int, int) {
    (And(word, MASK) * 32768, And(ShiftRight(word, 20), MASK) * 32768, And(ShiftRight(word, 40), MASK) * 32768)
  }

  lemma PackAdds(target: int, owned: int, debt: int)
    ensures Pack(target, owned, debt) == Chunks(target) + (Chunks(owned) + Chunks(debt) * 0x10_0000) * 0x10_0000
    ensures Pack(target, owned, debt) < TWO_64
  {
    Powers();
    var t, o, d := Chunks(target), Chunks(owned), Chunks(debt);
    hide Chunks, Or, Pow2;
    OrAdds(t, o, 20);
    OrAdds(t + o * 0x10_0000, d, 40);
  }

  /** Unpacking gives the chunk counts back, each cut off at 20 bits. */
  lemma UnpackPack(target: int, owned: int, debt: int)
    ensures Unpack(Pack(target, owned, debt)) == (Chunks(target) * 32768, Chunks(owned) * 32768, Chunks(debt) * 32768)
  {
    Powers();
    PackAdds(target, owned, debt);
    var t, o, d := Chunks(target), Chunks(owned), Chunks(debt);
    hide Chunks, Or, And, Pow2, ShiftRight, ShiftLeft, Pack;
    AndKeepsLow(t, o + d * 0x10_0000, 20);
    ShiftDrops(t, o + d * 0x10_0000, 20);
    AndKeepsLow(o, d, 20);
    assert t + (o + d * 0x10_0000) * 0x10_0000 == (t + o * 0x10_0000) + d * 0x100_0000_0000;
    ShiftDrops(t + o * 0x10_0000, d, 40);
    AndKeepsLow(d, 0, 20);
  }

  /** Whole chunks below the cut-off survive unchanged. */
  lemma ChunksExact(bytes: int)
    ensures Chunks(bytes) * 32768 == bytes <==> 0 <= bytes <= MASK * 32768 && bytes % 32768 == 0
  {
  }

  /** What becomes of any 64-bit byte count: its whole chunks, cut off at 20 bits; a negative count of a chunk or
      more wraps round to something huge, and so is cut off too. */
  lemma ChunksExactly(bytes: int)
    requires -0x8000_0000_0000_0000 <= bytes < 0x8000_0000_0000_0000
    ensures Chunks(bytes) ==
      if bytes <= -32768 || bytes >= 32768 * 0xFFFFF then 0xFFFFF
      else if bytes < 0 then 0
      else bytes / 32768
  {
  }

  lemma AlignedRequest(s: Pool.Pool, id: nat)
    requires Steady(s) && id in s.reqs
    ensures var r := s.reqs[id];
      && 0 <= r.target <= MASK * 32768 && r.target % 32768 == 0
      && 0 <= r.owned <= MASK * 32768 && r.owned % 32768 == 0
      && 0 <= r.debt <= MASK * 32768 && r.debt % 32768 == 0
  {
    hide Sound, Open, WorkConserving, Blank, Pool.PendingKnown;
    ClosedIsUnregistered(s, id);
    hide Steady;
    var r := s.reqs[id];
    assert r.owned % 32768 == 0 && r.target % 32768 == 0;
  }

  /** Where the three counts are in the word: the target's chunks in bits 0 to 19, those owned in bits 20 to 39
      and those in debt in bits 40 to 59. */
  lemma WordLayout(s: Pool.Pool, id: nat)
    requires Steady(s) && id in s.reqs
    ensures var r := s.reqs[id];
      && Pack(r.target, r.owned, r.debt)
        == r.target / 32768 + r.owned / 32768 * 1048576 + r.debt / 32768 * 1099511627776
      && 0 <= r.target / 32768 < 1048576 && 0 <= r.owned / 32768 < 1048576 && 0 <= r.debt / 32768 < 1048576
  {
    AlignedRequest(s, id);
    var r := s.reqs[id];
    hide Steady, Pack, Chunks;
    ChunksExact(r.target);
    ChunksExact(r.owned);
    ChunksExact(r.debt);
    PackAdds(r.target, r.owned, r.debt);
  }

  /** For every request of every reachable pool the packed word decodes to its exact target, owned and debt. */
  lemma PackedWordIsExact(s: Pool.Pool, id: nat)
    requires Steady(s) && id in s.reqs
    ensures var r := s.reqs[id]; Unpack(Pack(r.target, r.owned, r.debt)) == (r.target, r.owned, r.debt)
  {
    AlignedRequest(s, id);
    var r := s.reqs[id];
    hide Steady, Unpack, Pack, Chunks;
    ChunksExact(r.target);
    ChunksExact(r.owned);
    ChunksExact(r.debt);
    UnpackPack(r.target, r.owned, r.debt);
  }
}
