/** The Internet checksum (RFC 1071), as the agent computes it for its pings. */
module Checksum {
  import opened Common

  /** How the two bytes of a 16-bit word are read. */
  datatype Order = Little | Big

  function Word(o: Order, first: byte, second: byte): (r: nat)
    ensures r < 0x1_0000
  {
    if o == Little then first as int + 256 * second as int else 256 * first as int + second as int
  }

  /** The sum of the words of p; an odd last byte is the first byte of a word. */
  function Sum(o: Order, p: seq<byte>): nat {
    if |p| == 0 then 0 else if |p| == 1 then Word(o, p[0], 0) else Word(o, p[0], p[1]) + Sum(o, p[2..])
  }

  /** The largest word an odd last byte can make. */
  function LastWord(o: Order): nat { Word(o, 255, 0) }

  lemma {:induction false} SumBound(o: Order, p: seq<byte>)
    ensures 2 * Sum(o, p) <= if |p| % 2 == 0 then |p| * 0xFFFF else (|p| - 1) * 0xFFFF + 2 * LastWord(o)
    decreases |p|
  {
    if |p| > 1 { SumBound(o, p[2..]); }
  }

  lemma {:induction false} SumAppend(o: Order, p: seq<byte>, q: seq<byte>)
    requires |p| % 2 == 0
    ensures Sum(o, p + q) == Sum(o, p) + Sum(o, q)
    decreases |p|
  {
    if p == [] {
      assert p + q == q;
    } else {
      assert (p + q)[2..] == p[2..] + q;
      SumAppend(o, p[2..], q);
    }
  }

  /** One's-complement value of a sum: the residue modulo 0xFFFF, but never zero
      unless the sum is. */
  function Residue(s: nat): nat { if s == 0 then 0 else (s - 1) % 0xFFFF + 1 }

  /** Adding the high half to the low half, twice. */
  function Folded(s: nat): nat {
    var once := s / 0x1_0000 + s % 0x1_0000;
    once + once / 0x1_0000
  }

  /** For a sum of at most 32 bits the two folds and the cut to 16 bits give the
      one's-complement sum. */
  lemma FoldIsResidue(s: nat)
    requires s < 0x1_0000_0000
    ensures Folded(s) % 0x1_0000 == Residue(s)
  {
    var h, l := s / 0x1_0000, s % 0x1_0000;
    var once := h + l;
    assert s == h * 0xFFFF + once;
    assert once <= 2 * 0xFFFF;
    if s > 0 {
      var r := Folded(s) % 0x1_0000;
      assert 1 <= r <= 0xFFFF;
      if once >= 0x1_0000 {
        assert r == once - 0xFFFF && s - 1 == (h + 1) * 0xFFFF + (r - 1);
      } else {
        assert r == once && s - 1 == h * 0xFFFF + (r - 1);
      }
    }
  }

  /** The value of a signed 32-bit int that a sum must not pass. */
  const INT_MAX: nat := 0x7FFF_FFFF

  /** The longest packets whose sum never leaves a signed int. */
  function Limit(o: Order): nat { if o == Little then 65537 else 65536 }

  lemma WithinLimit(o: Order, p: seq<byte>)
    requires |p| <= Limit(o)
    ensures Sum(o, p) <= INT_MAX
  {
    SumBound(o, p);
  }

  /** The end of inet_checksum: the two folds, and the complement cut to 16 bits. */
  method FoldSum(s: nat) returns (answer: nat)
    requires s <= INT_MAX
    ensures answer == 0xFFFF - Residue(s)
  {
    FoldIsResidue(s);
    var sum := s / 0x1_0000 + s % 0x1_0000;
    sum := sum + sum / 0x1_0000;
    answer := 0xFFFF - sum % 0x1_0000;
  }

  /** inet_checksum, if the sum does not leave a signed int: the complement of the
      one's-complement sum. */
  method InetChecksum(o: Order, p: seq<byte>) returns (answer: nat)
    requires Sum(o, p) <= INT_MAX
    ensures answer == 0xFFFF - Residue(Sum(o, p))
  {
    hide Residue, Word;
    var sum := 0;
    var w := 0;
    assert p[0..] == p;
    while |p| - w > 1
      invariant 0 <= w <= |p| && sum + Sum(o, p[w..]) == Sum(o, p) <= INT_MAX
    {
      assert p[w..][2..] == p[w + 2..];
      sum := sum + Word(o, p[w], p[w + 1]);
      assert sum <= INT_MAX;
      w := w + 2;
    }
    if |p| - w == 1 {
      sum := sum + Word(o, p[w], 0);
      assert sum <= INT_MAX;
    }
    answer := FoldSum(sum);
  }

  lemma {:induction false} SumOfOnes(o: Order, p: seq<byte>)
    requires forall i :: 0 <= i < |p| ==> p[i] == 255
    ensures 2 * Sum(o, p) == if |p| % 2 == 0 then |p| * 0xFFFF else (|p| - 1) * 0xFFFF + 2 * LastWord(o)
    decreases |p|
  {
    if |p| > 1 { SumOfOnes(o, p[2..]); }
  }

  /** Every packet of n bytes keeps its sum within a signed int exactly if n is within
      the limit. */
  lemma LongerOverflows(o: Order, n: nat)
    ensures (forall p: seq<byte> :: |p| == n ==> Sum(o, p) <= INT_MAX) <==> n <= Limit(o)
  {
    if n <= Limit(o) {
      forall p: seq<byte> | |p| == n ensures Sum(o, p) <= INT_MAX { WithinLimit(o, p); }
    } else {
      var p := seq(n, i => 255 as byte);
      SumOfOnes(o, p);
    }
  }

  lemma SumSplit(o: Order, p: seq<byte>, k: nat)
    requires k % 2 == 0 && k + 2 <= |p|
    ensures Sum(o, p) == Sum(o, p[..k]) + Word(o, p[k], p[k + 1]) + Sum(o, p[k + 2..])
  {
    assert p == p[..k] + p[k..];
    SumAppend(o, p[..k], p[k..]);
    assert p[k..][2..] == p[k + 2..];
  }

  lemma SameResidue(b: nat, t: nat, d: int)
    requires b > 0 && 0 < t <= 0xFFFF && b == t + 0xFFFF * d
    ensures Residue(b) == t
  {
    assert b - 1 == 0xFFFF * d + (t - 1);
  }

  // ---- A packet verifies itself ----

  /** A one's-complement sum and its complement come to minus zero. */
  lemma ResidueComplement(s: nat)
    ensures Residue(s + (0xFFFF - Residue(s))) == 0xFFFF
  {
    var r := Residue(s);
    if s > 0 {
      var m := (s - 1) / 0xFFFF;
      assert s - 1 == m * 0xFFFF + (r - 1);
      SameResidue(s + (0xFFFF - r), 0xFFFF, m);
    }
  }

  /** The packet with its checksum in the field at k that was zero has checksum zero. */
  lemma SelfVerifying(o: Order, p: seq<byte>, k: nat, q: seq<byte>)
    requires k % 2 == 0 && k + 2 <= |p| && p[k] == 0 && p[k + 1] == 0
    requires |q| == |p| && q[..k] == p[..k] && q[k + 2..] == p[k + 2..]
    requires Word(o, q[k], q[k + 1]) == 0xFFFF - Residue(Sum(o, p))
    ensures 0xFFFF - Residue(Sum(o, q)) == 0
  {
    SumSplit(o, p, k);
    SumSplit(o, q, k);
    assert Word(o, p[k], p[k + 1]) == 0;
    ResidueComplement(Sum(o, p));
  }

  // ---- Byte order ----

  function Swapped(w: nat): nat
    requires w < 0x1_0000
  {
    w % 256 * 256 + w / 256
  }

  lemma SwapIsTimes256(r: nat)
    requires r < 0x1_0000
    ensures 256 * r == Swapped(r) + 0xFFFF * (r / 256) && Swapped(r) <= 0xFFFF && (r > 0 ==> Swapped(r) > 0)
  {
  }

  function Seconds(p: seq<byte>): nat {
    if |p| < 2 then 0 else p[1] as int + Seconds(p[2..])
  }

  lemma {:induction false} SumsInStep(p: seq<byte>)
    ensures Sum(Big, p) + 0xFFFF * Seconds(p) == 256 * Sum(Little, p)
    decreases |p|
  {
    if |p| > 1 { SumsInStep(p[2..]); }
  }

  lemma {:induction false} SumsPositive(p: seq<byte>)
    ensures Sum(Big, p) > 0 <==> Sum(Little, p) > 0
    decreases |p|
  {
    if |p| > 1 { SumsPositive(p[2..]); }
  }

  /** A machine of either byte order leaves the same two bytes in the packet. */
  lemma ByteOrderFree(p: seq<byte>)
    ensures Residue(Sum(Big, p)) == Swapped(Residue(Sum(Little, p)))
  {
    SumsInStep(p);
    var b, l, k := Sum(Big, p), Sum(Little, p), Seconds(p);
    SumsPositive(p);
    if l > 0 {
      var r := Residue(l);
      var m := (l - 1) / 0xFFFF;
      assert l == m * 0xFFFF + r;
      var t := Swapped(r);
      SwapIsTimes256(r);
      hide Residue, Swapped;
      SameResidue(b, t, 256 * m + r / 256 - k);
    }
  }
}
