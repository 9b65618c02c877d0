/**
 The memory of an answer. While a query runs, its blocks are allocated one by one
 and their rounded sizes added up; when it is done, one buffer of the total size
 takes copies of all that the answer refers to.
 */
module AnswerMemory {
  import opened Common

  // ---- Rounding ----

  /** sizeof(union maxalign) */
  const ALIGN: nat := 8

  /** MEM_ROUND */
  function Round(n: nat): (r: nat)
    ensures n <= r < n + ALIGN && r % ALIGN == 0
    ensures n % ALIGN == 0 ==> r == n
  {
    (n + ALIGN - 1) / ALIGN * ALIGN
  }

  lemma RoundLeast(n: nat, m: nat)
    requires n <= m && m % ALIGN == 0
    ensures Round(n) <= m
  {
  }

  // ---- The account ----

  /** An allocation of the query. Its size is what was asked for, rounded. */
  datatype Block = Block(at: nat, size: nat, preserved: bool)

  function Total(q: seq<Block>): nat {
    if q == [] then 0 else q[0].size + Total(q[1..])
  }

  function Preserved(q: seq<Block>): (r: seq<Block>)
    ensures forall b :: b in r <==> b in q && b.preserved
  {
    if q == [] then []
    else
      assert q == [q[0]] + q[1..];
      if q[0].preserved then [q[0]] + Preserved(q[1..]) else Preserved(q[1..])
  }

  lemma {:induction false} TotalAppend(p: seq<Block>, q: seq<Block>)
    ensures Total(p + q) == Total(p) + Total(q) && Preserved(p + q) == Preserved(p) + Preserved(q)
  {
    if p == [] {
      assert p + q == q;
    } else {
      assert (p + q)[1..] == p[1..] + q;
      TotalAppend(p[1..], q);
    }
  }

  lemma {:induction false} PreservedNoDup(q: seq<Block>)
    requires NoDup(q)
    ensures NoDup(Preserved(q)) && Preserved(Preserved(q)) == Preserved(q)
  {
    if q != [] {
      PreservedNoDup(q[1..]);
      assert q[0] !in q[1..];
      if q[0].preserved { assert Preserved(q)[1..] == Preserved(q[1..]); }
    }
  }

  lemma {:induction false} TotalRemove(q: seq<Block>, b: Block)
    requires NoDup(q) && b in q
    ensures Total(Remove(q, {b})) == Total(q) - b.size
    ensures !b.preserved ==> Preserved(Remove(q, {b})) == Preserved(q)
    ensures NoDup(Remove(q, {b}))
  {
    assert q == [q[0]] + q[1..];
    RemoveNoDup(q, {b});
    if q[0] == b {
      RemoveNothing(q[1..], {b});
    } else {
      TotalRemove(q[1..], b);
      assert Remove(q, {b}) == [q[0]] + Remove(q[1..], {b});
    }
  }

  /** Distinct blocks of an account take no more than the account has recorded. */
  lemma {:induction false} TotalOfSome(p: seq<Block>, q: seq<Block>)
    requires NoDup(p) && NoDup(q) && forall b :: b in p ==> b in q
    ensures Total(p) <= Total(q)
  {
    if p != [] {
      var b := p[0];
      TotalRemove(q, b);
      assert b !in p[1..];
      forall x | x in p[1..] ensures x in Remove(q, {b}) { assert x in p; }
      TotalOfSome(p[1..], Remove(q, {b}));
    }
  }

  ghost predicate Books(interim: int, preserved: int, counted: seq<Block>, allocations: seq<Block>) {
    && interim == Total(counted) && preserved == Total(Preserved(counted))
    && NoDup(counted) && NoDup(allocations)
    && (forall b :: b in counted ==> b in allocations)
    && (forall b :: b in allocations ==> b.size > 0 && b.size % ALIGN == 0)
  }

  lemma BooksEnter(interim: int, preserved: int, counted: seq<Block>, allocations: seq<Block>, b: Block)
    requires Books(interim, preserved, counted, allocations) && b !in allocations && b.size > 0 && b.size % ALIGN == 0
    ensures Books(interim, preserved, counted, allocations + [b])
    ensures Books(interim + b.size, preserved + (if b.preserved then b.size else 0), counted + [b], allocations + [b])
  {
    TotalAppend(counted, [b]);
    assert [b][1..] == [];
    assert Preserved([b]) == if b.preserved then [b] else [];
    TotalAppend(Preserved(counted), Preserved([b]));
  }

  lemma BooksLeave(interim: int, preserved: int, counted: seq<Block>, allocations: seq<Block>, b: Block)
    requires Books(interim, preserved, counted, allocations) && b in counted && !b.preserved
    ensures Books(interim - b.size, preserved, Remove(counted, {b}), Remove(allocations, {b}))
  {
    TotalRemove(counted, b);
    RemoveNoDup(allocations, {b});
  }

  lemma BooksReset(interim: int, preserved: int, counted: seq<Block>, allocations: seq<Block>)
    requires Books(interim, preserved, counted, allocations)
    ensures Books(preserved, preserved, Preserved(counted), allocations)
    ensures Books(0, 0, [], allocations)
  {
    PreservedNoDup(counted);
  }

  lemma {:induction false} TotalHasOne(b: Block, q: seq<Block>)
    requires b in q
    ensures Total(q) >= b.size
  {
    if q[0] != b { TotalHasOne(b, q[1..]); }
  }

  /** Something the answer refers to: the bytes to copy, and the block they are in. */
  datatype Item = Item(bytes: seq<byte>, block: Block)

  function BlocksOf(items: seq<Item>): (r: seq<Block>)
    ensures |r| == |items| && forall i :: 0 <= i < |items| ==> r[i] == items[i].block
  {
    seq(|items|, i requires 0 <= i < |items| => items[i].block)
  }

  /** Every item is in a counted block of its own, which it fits. */
  ghost predicate Backed(items: seq<Item>, counted: seq<Block>) {
    && NoDup(BlocksOf(items))
    && forall i :: 0 <= i < |items| ==>
      items[i].block in counted && |items[i].bytes| <= items[i].block.size && items[i].block.size % ALIGN == 0
  }

  lemma NoItems(items: seq<Item>, counted: seq<Block>, allocations: seq<Block>, interim: int, preserved: int)
    requires Backed(items, counted) && Books(interim, preserved, counted, allocations) && interim == 0
    ensures items == []
  {
    if items != [] { TotalHasOne(items[0].block, counted); }
  }

  function Sizes(items: seq<Item>): nat {
    if items == [] then 0 else Round(|items[0].bytes|) + Sizes(items[1..])
  }

  lemma {:induction false} SizesOfBlocks(items: seq<Item>)
    requires forall i :: 0 <= i < |items| ==> |items[i].bytes| <= items[i].block.size && items[i].block.size % ALIGN == 0
    ensures Sizes(items) <= Total(BlocksOf(items))
  {
    if items != [] {
      RoundLeast(|items[0].bytes|, items[0].block.size);
      SizesOfBlocks(items[1..]);
      assert BlocksOf(items)[1..] == BlocksOf(items[1..]);
    }
  }

  /** What was counted is enough for all that is made final. */
  lemma BackedFits(items: seq<Item>, counted: seq<Block>, allocations: seq<Block>, interim: int, preserved: int)
    requires Backed(items, counted) && Books(interim, preserved, counted, allocations)
    ensures Sizes(items) <= interim
  {
    SizesOfBlocks(items);
    TotalOfSome(BlocksOf(items), counted);
  }

  lemma {:induction false} SizesAppend(items: seq<Item>, x: Item)
    ensures Sizes(items + [x]) == Sizes(items) + Round(|x.bytes|)
  {
    if items != [] {
      assert (items + [x])[1..] == items[1..] + [x];
      SizesAppend(items[1..], x);
    } else {
      assert items + [x] == [x];
      assert Sizes([x]) == Round(|x.bytes|) + Sizes([x][1..]);
    }
  }

  lemma {:induction false} SizesFront(items: seq<Item>, i: nat)
    requires i <= |items|
    ensures Sizes(items[..i]) <= Sizes(items)
    decreases |items| - i
  {
    if i < |items| {
      assert items[..i + 1] == items[..i] + [items[i]];
      SizesAppend(items[..i], items[i]);
      SizesFront(items, i + 1);
    } else {
      assert items[..i] == items;
    }
  }

  ghost predicate Copied(area: seq<byte>, x: Item, at: nat, lo: nat, hi: nat) {
    lo <= at && at % ALIGN == 0 && at + |x.bytes| <= hi && at + |x.bytes| <= |area| && area[at..at + |x.bytes|] == x.bytes
  }

  /** The copy of item i is at places[i], aligned, between lo and hi, and equal to the
      original; no two copies overlap. */
  ghost predicate Packed(area: seq<byte>, items: seq<Item>, places: seq<nat>, lo: nat, hi: nat) {
    && |places| == |items|
    && (forall i :: 0 <= i < |items| ==> Copied(area, items[i], places[i], lo, hi))
    && (forall i, j :: 0 <= i < j < |items| ==> places[i] + |items[i].bytes| <= places[j])
  }

  lemma PackedEmpty(area: seq<byte>, lo: nat, hi: nat)
    ensures Packed(area, [], [], lo, hi)
  {
  }

  lemma {:induction false} TotalMultiple(q: seq<Block>)
    requires forall b :: b in q ==> b.size % ALIGN == 0
    ensures Total(q) % ALIGN == 0
  {
    if q != [] { TotalMultiple(q[1..]); }
  }

  lemma InterimMultiple(counted: seq<Block>, allocations: seq<Block>, interim: int, preserved: int)
    requires Books(interim, preserved, counted, allocations)
    ensures interim >= 0 && interim % ALIGN == 0
  {
    TotalMultiple(counted);
  }

  lemma PackedNothing(area: seq<byte>, lo: nat)
    ensures Packed(area, [], [], lo, lo) && Sizes([]) == 0
  {
  }

  lemma PackedStep(before: seq<byte>, after: seq<byte>, items: seq<Item>, places: seq<nat>, x: Item, lo: nat, at: nat)
    requires Packed(before, items, places, lo, at) && lo <= at && at % ALIGN == 0 && at + |x.bytes| <= |before|
    requires after == before[..at] + x.bytes + before[at + |x.bytes|..]
    ensures Packed(after, items + [x], places + [at], lo, at + Round(|x.bytes|))
  {
    forall i | 0 <= i < |items| ensures Copied(after, items[i], places[i], lo, at + Round(|x.bytes|)) {
      assert Copied(before, items[i], places[i], lo, at);
    }
    assert after[at..at + |x.bytes|] == x.bytes;
    forall i, j | 0 <= i < j <= |items| ensures (places + [at])[i] + |(items + [x])[i].bytes| <= (places + [at])[j] {
      if j == |items| { assert Copied(before, items[i], places[i], lo, at); }
    }
  }

  lemma PackedWithin(area: seq<byte>, items: seq<Item>, places: seq<nat>, lo: nat, hi: nat, end: nat)
    requires Packed(area, items, places, lo, hi) && hi <= end
    ensures Packed(area, items, places, lo, end)
  {
    forall i | 0 <= i < |items| ensures Copied(area, items[i], places[i], lo, end) {
      assert Copied(area, items[i], places[i], lo, hi);
    }
  }

  /** Where nothing is asked for, the query's own address is given: no block of the list. */
  const STAND_IN := Block(0, 0, false)

  /** What an allocation of this rounded size gives, at being malloc's answer. */
  function Given(size: nat, preservedBlock: bool, at: Option<nat>): Option<Block> {
    if size == 0 then Some(STAND_IN) else if at == None then None else Some(Block(at.value, size, preservedBlock))
  }

  /** The memory side of a query. */
  class Account {
    var allocations: seq<Block>
    var interim: int
    var preserved: int
    var final: Option<nat>   // the next free byte of the answer's buffer
    var expires: int
    // The blocks interim stands for. Blocks forgotten by a reset are still allocated.
    ghost var counted: seq<Block>

    /** The counters are the sums of rounded block sizes. */
    ghost predicate Valid()
      reads this
    {
      Books(interim, preserved, counted, allocations)
    }

    constructor (e: int)
      ensures Valid() && final == None && allocations == [] && counted == [] && expires == e
    {
      allocations, interim, preserved, final, expires, counted := [], 0, 0, None, e, [];
    }

    ghost predicate Unused(at: nat)
      reads this
    {
      forall b :: b in allocations ==> b.at != at
    }

    /** alloc_common; at is what malloc gives. For nothing malloc is not asked. */
    method AllocCommon(size: nat, preservedBlock: bool, at: Option<nat>) returns (b: Option<Block>)
      requires Valid() && (size > 0 ==> final == None) && size % ALIGN == 0
      requires at.Some? ==> Unused(at.value)
      modifies this`allocations
      ensures Valid()
      ensures b == Given(size, preservedBlock, at)
      ensures allocations == old(allocations) + if b == None || size == 0 then [] else [b.value]
    {
      if size == 0 { return Some(STAND_IN); }
      if at == None { return None; }
      BooksEnter(interim, preserved, counted, allocations, Block(at.value, size, preservedBlock));
      hide Books;
      var a := Block(at.value, size, preservedBlock);
      b := Some(a);
      allocations := allocations + [a];
    }

    /** adns__alloc_interim and adns__alloc_preserved. */
    method AllocCounted(sz: nat, preservedBlock: bool, at: Option<nat>) returns (b: Option<Block>)
      requires Valid() && (sz > 0 ==> final == None)
      requires at.Some? ==> Unused(at.value)
      modifies this`allocations, this`interim, this`preserved, this`counted
      ensures Valid()
      ensures b == Given(Round(sz), preservedBlock, at)
      ensures allocations == old(allocations) + if b == None || sz == 0 then [] else [b.value]
      ensures counted == old(counted) + if b == None || sz == 0 then [] else [b.value]
    {
      hide Books, Total, Preserved;
      var size := Round(sz);
      if at.Some? && sz > 0 { BooksEnter(interim, preserved, counted, allocations, Block(at.value, size, preservedBlock)); }
      b := AllocCommon(size, preservedBlock, at);
      if b == None { return; }
      if sz > 0 { counted := counted + [b.value]; }
      interim := interim + size;
      if preservedBlock { preserved := preserved + size; }
    }

    /** adns__alloc_mine: freed with the query, but not counted. */
    method AllocMine(sz: nat, at: Option<nat>) returns (b: Option<Block>)
      requires Valid() && (sz > 0 ==> final == None)
      requires at.Some? ==> Unused(at.value)
      modifies this`allocations
      ensures Valid()
      ensures b == Given(Round(sz), false, at)
      ensures allocations == old(allocations) + if b == None || sz == 0 then [] else [b.value]
    {
      b := AllocCommon(Round(sz), false, at);
    }

    /** adns__transfer_interim of a block that was allocated as interim with size sz.
        A null block is no block. */
    method TransferTo(to: Account, block: Option<Block>, sz: nat)
      requires Valid() && to.Valid() && to != this && final == None && to.final == None
      requires block.Some? ==>
        block.value in counted && !block.value.preserved && block.value.size == Round(sz) && to.Unused(block.value.at)
      modifies this`allocations, this`interim, this`counted, to`allocations, to`interim, to`counted, to`expires
      ensures Valid() && to.Valid()
      ensures interim + to.interim == old(interim + to.interim) && preserved + to.preserved == old(preserved + to.preserved)
      ensures block == None ==> to.expires == old(to.expires) && counted == old(counted) && to.counted == old(to.counted)
      ensures block.Some? ==>
        && counted == Remove(old(counted), {block.value}) && to.counted == old(to.counted) + [block.value]
        && allocations == Remove(old(allocations), {block.value}) && to.allocations == old(to.allocations) + [block.value]
        && to.expires == if old(to.expires) > expires then expires else old(to.expires)
    {
      if block == None { return; }
      hide Books, Total, Preserved, Remove;
      var b := block.value;
      BooksLeave(interim, preserved, counted, allocations, b);
      BooksEnter(to.interim, to.preserved, to.counted, to.allocations, b);
      allocations := Remove(allocations, {b});
      to.allocations := to.allocations + [b];
      interim := interim - Round(sz);
      to.interim := to.interim + Round(sz);
      counted := Remove(counted, {b});
      to.counted := to.counted + [b];
      if to.expires > expires { to.expires := expires; }
    }

    /** The counting part of adns__reset_preserved. */
    method ResetPreserved()
      requires Valid() && final == None
      modifies this`interim, this`counted
      ensures Valid() && interim == preserved && counted == Preserved(old(counted))
    {
      BooksReset(interim, preserved, counted, allocations);
      counted := Preserved(counted);
      interim := preserved;
    }

    /** When there is no memory for the buffer, the preserved blocks go too. */
    method ForgetAll()
      requires Valid() && final == None
      modifies this`interim, this`preserved, this`counted
      ensures Valid() && interim == 0 && preserved == 0 && counted == []
    {
      BooksReset(interim, preserved, counted, allocations);
      preserved, interim := 0, 0;
      counted := [];
    }

    // ---- Packing ----

    /** adns__alloc_final */
    method AllocFinal(sz: nat) returns (at: nat)
      requires final.Some? && interim >= Round(sz)
      modifies this`interim, this`final
      ensures at == old(final.value) && final == Some(at + Round(sz))
      ensures interim == old(interim) - Round(sz) && interim >= 0
    {
      at := final.value;
      interim := interim - Round(sz);
      final := Some(at + Round(sz));
    }

    /** adns__makefinal_str, on a string with its final zero, and adns__makefinal_block. */
    method MakeFinal(area: array<byte>, bytes: seq<byte>) returns (at: nat)
      requires final.Some? && final.value + interim <= area.Length && interim >= Round(|bytes|)
      modifies this`interim, this`final, area
      ensures at == old(final.value) && final == Some(at + Round(|bytes|))
      ensures interim == old(interim) - Round(|bytes|) && interim >= 0
      ensures area[..] == old(area[..at]) + bytes + old(area[at + |bytes|..])
    {
      at := AllocFinal(|bytes|);
      forall i | 0 <= i < |bytes| { area[at + i] := bytes[i]; }
    }

    /** The order of makefinal_query: the two names, the record array, and then what
        each record's type makes final. Nothing is made of null pointers. */
    method MakeFinalAll(area: array<byte>, items: seq<Item>) returns (places: seq<nat>)
      requires Valid() && final.Some? && final.value % ALIGN == 0 && final.value + interim <= area.Length
      requires Backed(items, counted)
      modifies this`interim, this`final, area
      ensures interim >= 0 && |places| == |items|
      ensures Packed(area[..], items, places, old(final.value), old(final.value + interim))
      ensures area[..old(final.value)] == old(area[..final.value])
    {
      hide Sizes, Packed, Backed, Round, Total, Books, NoDup;
      places := [];
      BackedFits(items, counted, allocations, interim, preserved);
      PackedNothing(area[..], final.value);
      for i := 0 to |items|
        invariant |places| == i && final.Some? && final.value == old(final.value) + Sizes(items[..i])
        invariant final.value % ALIGN == 0 && interim == old(interim) - Sizes(items[..i]) && Sizes(items) <= old(interim)
        invariant Packed(area[..], items[..i], places, old(final.value), final.value)
        invariant area[..old(final.value)] == old(area[..final.value])
      {
        assert items[..i + 1] == items[..i] + [items[i]];
        SizesAppend(items[..i], items[i]);
        SizesFront(items, i + 1);
        ghost var before := area[..];
        assert before[..old(final.value)] == old(area[..final.value]);
        var at := MakeFinal(area, items[i].bytes);
        PackedStep(before, area[..], items[..i], places, items[i], old(final.value), at);
        places := places + [at];
      }
      assert items[..|items|] == items;
      PackedWithin(area[..], items, places, old(final.value), final.value, old(final.value + interim));
    }

    /** The blocks are freed; the buffer is what remains. */
    method FreeAllocations()
      modifies this`allocations, this`counted
      ensures allocations == [] && counted == []
    {
      allocations, counted := [], [];
    }

    /** makefinal_query: answer is the fixed part of the answer, which realloc keeps if
        there is enough memory. */
    method MakeFinalQuery(answer: array<byte>, items: seq<Item>, enough: bool) returns (buffer: array<byte>, places: seq<nat>, ok: bool)
      requires Valid() && final == None && Backed(items, counted)
      modifies this
      ensures ok <==> enough || old(interim) == 0
      ensures buffer.Length >= answer.Length && buffer[..answer.Length] == answer[..]
      ensures ok ==> Packed(buffer[..], items, places, Round(answer.Length), buffer.Length) && interim >= 0
      ensures ok ==> buffer.Length == if old(interim) == 0 then answer.Length else Round(answer.Length) + old(interim)
      ensures !ok ==> interim == 0 && preserved == 0 && buffer == answer
      ensures allocations == []
    {
      hide Packed, Backed, NoDup;
      places, buffer, ok := [], answer, true;
      if interim == 0 { NoItems(items, counted, allocations, interim, preserved); }
      PackedEmpty(answer[..], Round(answer.Length), answer.Length);
      if interim != 0 {
        if !enough {
          ForgetAll();
          FreeAllocations();
          return buffer, places, false;
        }
        InterimMultiple(counted, allocations, interim, preserved);
        var n := Round(Round(answer.Length) + interim);
        buffer := new byte[n](i requires 0 <= i < n reads answer => if i < answer.Length then answer[i] else 0);
        assert buffer[..answer.Length] == answer[..];
        final := Some(Round(answer.Length));
        places := MakeFinalAll(buffer, items);
        assert buffer[..answer.Length] == buffer[..Round(answer.Length)][..answer.Length];
      } else {
        final := Some(Round(answer.Length));
      }
      FreeAllocations();
    }
  }
}
