/** From a network and a netmask to the range of addresses to discover. */
module NetMask {
  import opened Common

  type u32 = n: int | 0 <= n < 0x1_0000_0000

  // ---- Bits ----

  function Pow2(n: nat): (r: nat)
    ensures r > 0
  {
    if n == 0 then 1 else 2 * Pow2(n - 1)
  }

  /** The & and | of C, bit by bit from the lowest. */
  function And(a: nat, b: nat): (r: nat)
    ensures r <= a && r <= b
  {
    if a == 0 || b == 0 then 0 else (if a % 2 == 1 && b % 2 == 1 then 1 else 0) + 2 * And(a / 2, b / 2)
  }

  function Or(a: nat, b: nat): nat
    decreases a + b
  {
    if a == 0 then b else if b == 0 then a else (if a % 2 == 1 || b % 2 == 1 then 1 else 0) + 2 * Or(a / 2, b / 2)
  }

  /** ~ of a 32-bit number. */
  function Not(a: u32): u32 { 0xFFFF_FFFF - a }

  function ShiftLeft(a: u32): u32 { (2 * a) % 0x1_0000_0000 }

  lemma Pow2Values()
    ensures Pow2(31) == 0x8000_0000 && Pow2(32) == 0x1_0000_0000
  {
    assert Pow2(8) == 256;
    assert Pow2(16) == 0x1_0000;
    assert Pow2(24) == 0x100_0000;
  }

  lemma {:induction false} Pow2Grows(a: nat, b: nat)
    requires a <= b
    ensures Pow2(a) <= Pow2(b) && (a < b ==> 2 * Pow2(a) <= Pow2(b))
    decreases b
  {
    if a < b { Pow2Grows(a, b - 1); }
  }

  lemma {:induction false} AndOnes(a: nat, w: nat)
    requires a < Pow2(w)
    ensures And(a, Pow2(w) - 1) == a
    decreases w
  {
    if w > 0 && a > 0 {
      assert (Pow2(w) - 1) / 2 == Pow2(w - 1) - 1 && (Pow2(w) - 1) % 2 == 1;
      AndOnes(a / 2, w - 1);
    }
  }

  /** a shifted right by s, and a with its lowest s bits cleared. */
  function Shifted(a: nat, s: nat): nat
    decreases s
  {
    if s == 0 then a else Shifted(a / 2, s - 1)
  }

  function Cleared(a: nat, s: nat): nat
    decreases s
  {
    if s == 0 then a else 2 * Cleared(a / 2, s - 1)
  }

  lemma Pow2Next(n: nat)
    ensures Pow2(n + 1) == 2 * Pow2(n)
  {
  }

  lemma Pow2One()
    ensures Pow2(0) == 1
  {
  }

  /** Masking off the lowest s of w bits. */
  lemma {:induction false} AndMask(a: nat, w: nat, s: nat)
    requires s <= w && a < Pow2(w)
    ensures Pow2(s) <= Pow2(w) && And(a, Pow2(w) - Pow2(s)) == Cleared(a, s)
    decreases w
  {
    Pow2Grows(s, w);
    if s == 0 {
      AndOnes(a, w);
    } else {
      AndMask(a / 2, w - 1, s - 1);
      var m := Pow2(w) - Pow2(s);
      assert m % 2 == 0 && m / 2 == Pow2(w - 1) - Pow2(s - 1);
    }
  }

  /** Filling in the lowest s bits, all clear. */
  lemma {:induction false} OrOnes(a: nat, s: nat)
    ensures Or(Cleared(a, s), Pow2(s) - 1) == Cleared(a, s) + Pow2(s) - 1
    decreases s
  {
    if s > 0 {
      OrOnes(a / 2, s - 1);
      assert (Pow2(s) - 1) / 2 == Pow2(s - 1) - 1 && (Pow2(s) - 1) % 2 == 1;
      assert Cleared(a, s) / 2 == Cleared(a / 2, s - 1);
    }
  }

  lemma {:induction false} ClearedRange(base: nat, x: nat, s: nat)
    ensures Cleared(base, s) <= x <= Cleared(base, s) + Pow2(s) - 1 <==> Shifted(x, s) == Shifted(base, s)
    decreases s
  {
    if s > 0 { ClearedRange(base / 2, x / 2, s - 1); }
  }

  lemma {:induction false} ClearedEnd(a: nat, w: nat, s: nat)
    requires s <= w && a < Pow2(w)
    ensures Cleared(a, s) + Pow2(s) - 1 < Pow2(w)
    decreases w
  {
    if s > 0 { ClearedEnd(a / 2, w - 1, s - 1); }
  }

  // ---- Masks ----

  /** 32 - s ones, then s zeros. */
  ghost predicate MaskOf(mask: u32, s: nat) { s <= 32 && mask == 0x1_0000_0000 - Pow2(s) }

  ghost predicate Contiguous(mask: u32) { exists s: nat :: MaskOf(mask, s) }

  lemma ShiftKeeps(m: u32)
    requires m >= 0x8000_0000
    ensures Contiguous(ShiftLeft(m)) <==> Contiguous(m)
    ensures ShiftLeft(m) == 2 * m - 0x1_0000_0000 < m
  {
    Pow2Values();
    if Contiguous(m) {
      var s: nat :| MaskOf(m, s);
      assert s < 32;
      assert MaskOf(ShiftLeft(m), s + 1);
    }
    if Contiguous(ShiftLeft(m)) {
      var s: nat :| MaskOf(ShiftLeft(m), s);
      assert s > 0;
      assert MaskOf(m, s - 1);
    }
  }

  lemma StopsAt(m: u32)
    requires m < 0x8000_0000
    ensures Contiguous(m) <==> m == 0
  {
    Pow2Values();
    if Contiguous(m) {
      var s: nat :| MaskOf(m, s);
      if s < 32 { Pow2Grows(s, 31); }
    }
    assert m == 0 ==> MaskOf(m, 32);
  }

  /** allones: the mask is ones followed by zeros, all of either included. */
  method AllOnes(mask: u32) returns (r: bool)
    ensures r <==> Contiguous(mask)
  {
    var m := mask;
    while m >= 0x8000_0000
      invariant Contiguous(m) <==> Contiguous(mask)
      decreases m
    {
      ShiftKeeps(m);
      m := ShiftLeft(m);
    }
    StopsAt(m);
    r := m == 0;
  }

  // ---- The range ----

  datatype Range = Range(start: u32, end: u32)

  /** With a contiguous mask the range from the masked base to the same with all other
      bits set is exactly the network: the addresses that share the prefix. */
  lemma RangeIsNetwork(base: u32, mask: u32, s: nat, x: u32)
    requires MaskOf(mask, s)
    ensures And(base, mask) <= x <= Or(And(base, mask), Not(mask)) <==> Shifted(x, s) == Shifted(base, s)
    ensures And(base, mask) <= base <= Or(And(base, mask), Not(mask)) < 0x1_0000_0000
  {
    hide And, Or, Cleared, Shifted, Pow2;
    Pow2Values();
    AndMask(base, 32, s);
    OrOnes(base, s);
    ClearedRange(base, x, s);
    ClearedRange(base, base, s);
    ClearedEnd(base, 32, s);
  }

  function ShiftedLeft(a: u32, k: nat): u32
    decreases k
  {
    if k == 0 then a else ShiftedLeft(ShiftLeft(a), k - 1)
  }

  /** The mask with n leading ones, as it is made by shifting. */
  function PrefixMask(n: nat): u32
    requires 1 <= n <= 32
  {
    ShiftedLeft(Shifted(0xFFFF_FFFF, 32 - n) % 0x1_0000_0000, 32 - n)
  }

  lemma {:induction false} ShiftedOnes(w: nat, s: nat)
    requires s <= w
    ensures Shifted(Pow2(w) - 1, s) == Pow2(w - s) - 1
    decreases s
  {
    if s > 0 {
      assert (Pow2(w) - 1) / 2 == Pow2(w - 1) - 1;
      ShiftedOnes(w - 1, s - 1);
    }
  }

  lemma ShiftSmall(a: u32)
    requires 2 * a < 0x1_0000_0000
    ensures ShiftLeft(a) == 2 * a
  {
  }

  lemma {:induction false} OnesShiftedLeft(n: nat, j: nat, k: nat)
    requires n + j + k == 32
    ensures Pow2(n + j) >= Pow2(j) && Pow2(n + j) - Pow2(j) < 0x1_0000_0000
    ensures Pow2(32) - Pow2(j + k) == ShiftedLeft(Pow2(n + j) - Pow2(j), k)
    decreases k
  {
    hide Pow2;
    Pow2Values();
    Pow2Grows(j, n + j);
    Pow2Grows(n + j, 32);
    Pow2Grows(0, j);
    Pow2One();
    hide ShiftLeft;
    var a := Pow2(n + j) - Pow2(j);
    if k > 0 {
      Pow2Next(j);
      Pow2Next(n + j);
      Pow2Grows(n + j + 1, 32);
      ShiftSmall(a);
      OnesShiftedLeft(n, j + 1, k - 1);
    }
  }

  lemma PrefixIsMask(n: nat)
    requires 1 <= n <= 32
    ensures MaskOf(PrefixMask(n), 32 - n)
  {
    hide Pow2, Shifted, ShiftedLeft;
    Pow2Values();
    Pow2One();
    ShiftedOnes(32, 32 - n);
    Pow2Grows(n, 32);
    OnesShiftedLeft(n, 0, 32 - n);
  }

  /** A netmask as given: as an address, if it reads as one, and as a number. */
  datatype Given = Given(dotted: Option<u32>, bits: int)

  predicate Usable(m: u32) { m >= 0x8000_0000 }

  /** The number of host bits the netmask leaves, if it is accepted: a dotted mask of
      at least one leading one and no other ones; else a number from 1 to 32. */
  ghost predicate Leaves(g: Given, s: nat) {
    if g.dotted.Some? && Usable(g.dotted.value) && Contiguous(g.dotted.value) then MaskOf(g.dotted.value, s)
    else 1 <= g.bits <= 32 && s == 32 - g.bits
  }

  lemma OneMask(mask: u32, s: nat, t: nat)
    requires MaskOf(mask, s) && MaskOf(mask, t)
    ensures s == t
  {
    if s < t { Pow2Grows(s, t); }
    if t < s { Pow2Grows(t, s); }
  }

  /** do_network_discover_after_dns, for a base address that reads as one. */
  method NetworkRange(base: u32, g: Given) returns (r: Option<Range>)
    ensures r == None <==> forall s: nat :: !Leaves(g, s)
    ensures r.Some? ==> r.value.start <= base <= r.value.end
    ensures r.Some? ==> forall s: nat, x: u32 :: Leaves(g, s) ==> (r.value.start <= x <= r.value.end <==> Shifted(x, s) == Shifted(base, s))
  {
    var mask: u32 := 0;
    var ok := false;
    if g.dotted.Some? && Usable(g.dotted.value) { ok := AllOnes(g.dotted.value); }
    ghost var s: nat := 0;
    if ok {
      mask := g.dotted.value;
      s :| MaskOf(mask, s);
      assert Leaves(g, s);
    } else {
      if g.bits > 32 || g.bits < 1 { return None; }
      mask := PrefixMask(g.bits);
      s := 32 - g.bits;
      PrefixIsMask(g.bits);
      assert Leaves(g, s);
    }
    var start := And(base, mask);
    RangeIsNetwork(base, mask, s, base);
    var end := Or(start, Not(mask));
    r := Some(Range(start, end));
    forall t: nat, x: u32 | Leaves(g, t) ensures start <= x <= end <==> Shifted(x, t) == Shifted(base, t) {
      OneMask(mask, s, t);
      RangeIsNetwork(base, mask, s, x);
    }
  }
}
