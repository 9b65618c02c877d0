/**
 The text of a domain name: labels joined by dots, with every byte that is not an
 ordinary one quoted. An ordinary backslash escape is used for printing characters,
 and a backslash with three octal digits for all others.
 */
module DomainText {
  import opened Common

  type Bytes = seq<byte>

  const BACKSLASH: byte := 92
  const DOT: byte := 46
  const ZERO: byte := 48

  predicate Alpha(b: byte) { 97 <= b <= 122 || 65 <= b <= 90 }
  predicate Digit(b: byte) { 48 <= b <= 57 }

  /** ctype_domainunquoted: letters, digits and the four characters - _ / + */
  predicate Unquoted(b: byte) { Alpha(b) || Digit(b) || b in {45, 95, 47, 43} }

  predicate Numbered(b: byte) { b <= 32 || b >= 127 }

  /** How one byte is printed. */
  function QuoteByte(b: byte): Bytes {
    if Numbered(b) then [BACKSLASH, ZERO + b / 64, ZERO + b / 8 % 8, ZERO + b % 8]
    else if Unquoted(b) then [b]
    else [BACKSLASH, b]
  }

  function Quote(l: Bytes): Bytes {
    if l == [] then [] else QuoteByte(l[0]) + Quote(l[1..])
  }

  lemma {:induction false} QuoteAppend(a: Bytes, b: Bytes)
    ensures Quote(a + b) == Quote(a) + Quote(b)
  {
    if a == [] {
      assert a + b == b;
    } else {
      assert (a + b)[1..] == a[1..] + b;
      QuoteAppend(a[1..], b);
    }
  }

  lemma {:induction false} QuotePlain(a: Bytes)
    requires forall i :: 0 <= i < |a| ==> !Numbered(a[i]) && Unquoted(a[i])
    ensures Quote(a) == a
  {
    if a != [] {
      QuotePlain(a[1..]);
      assert a == [a[0]] + a[1..];
    }
  }

  /** The text of a list of labels. */
  function Text(ls: seq<Bytes>): Bytes {
    if ls == [] then [] else if |ls| == 1 then Quote(ls[0]) else Quote(ls[0]) + [DOT] + Text(ls[1..])
  }

  // ---- Reading text back ----

  /** How a reader takes the three digits of a number. */
  datatype Base = Octal | Decimal

  function Value(base: Base, a: nat, b: nat, c: nat): nat {
    if base == Octal then 64 * a + 8 * b + c else 100 * a + 10 * b + c
  }

  function Number(base: Base, a: byte, b: byte, c: byte): nat
    requires Digit(a) && Digit(b) && Digit(c)
  {
    Value(base, a - ZERO, b - ZERO, c - ZERO)
  }

  /** Reads on in text t after the part cur of a label; numbers are taken in the given base. */
  function Unquote(base: Base, t: Bytes, cur: Bytes): Option<seq<Bytes>>
    decreases |t|
  {
    if t == [] then Some([cur])
    else if t[0] == DOT then
      var rest := Unquote(base, t[1..], []);
      if rest == None then None else Some([cur] + rest.value)
    else if t[0] != BACKSLASH then Unquote(base, t[1..], cur + [t[0]])
    else if |t| < 2 then None
    else if !Digit(t[1]) then Unquote(base, t[2..], cur + [t[1]])
    else if |t| < 4 || !Digit(t[2]) || !Digit(t[3]) then None
    else
      var v := Number(base, t[1], t[2], t[3]);
      if v >= 256 then None else Unquote(base, t[4..], cur + [v as byte])
  }

  /** The labels a text stands for. */
  function Decode(base: Base, t: Bytes): Option<seq<Bytes>> {
    if t == [] then Some([]) else Unquote(base, t, [])
  }

  /** What a reader that takes numbers in the given base makes of a printed byte. */
  function Reread(base: Base, b: byte): nat {
    if Numbered(b) then Value(base, b as int / 64, b as int / 8 % 8, b as int % 8) else b
  }

  lemma UnquoteByte(base: Base, b: byte, t: Bytes, cur: Bytes)
    ensures Unquote(base, QuoteByte(b) + t, cur) ==
            if Reread(base, b) >= 256 then None else Unquote(base, t, cur + [Reread(base, b) as byte])
  {
    var q := QuoteByte(b);
    assert (q + t)[|q|..] == t;
    if Numbered(b) {
      assert (q + t)[4..] == t;
      assert Number(base, q[1], q[2], q[3]) == Reread(base, b);
    } else if Unquoted(b) {
      assert (q + t)[1..] == t;
    } else {
      assert (q + t)[2..] == t;
    }
  }

  predicate Readable(base: Base, l: Bytes) { forall i :: 0 <= i < |l| ==> Reread(base, l[i]) < 256 }

  function RereadLabel(base: Base, l: Bytes): (r: Bytes)
    requires Readable(base, l)
    ensures |r| == |l| && forall i :: 0 <= i < |l| ==> r[i] == Reread(base, l[i])
  {
    seq(|l|, i requires 0 <= i < |l| => Reread(base, l[i]) as byte)
  }

  lemma ReadableCons(base: Base, l: Bytes)
    requires l != []
    ensures Readable(base, l) <==> Reread(base, l[0]) < 256 && Readable(base, l[1..])
    ensures Readable(base, l) ==> RereadLabel(base, l) == [Reread(base, l[0]) as byte] + RereadLabel(base, l[1..])
  {
    hide Reread;
    assert forall i :: 0 < i < |l| ==> l[i] == l[1..][i - 1];
  }

  lemma {:induction false} UnquoteLabel(base: Base, l: Bytes, t: Bytes, cur: Bytes)
    ensures Unquote(base, Quote(l) + t, cur) ==
            if Readable(base, l) then Unquote(base, t, cur + RereadLabel(base, l)) else None
  {
    if l == [] {
      assert Quote(l) + t == t;
      assert cur + RereadLabel(base, l) == cur;
    } else {
      assert Quote(l) + t == QuoteByte(l[0]) + (Quote(l[1..]) + t);
      UnquoteByte(base, l[0], Quote(l[1..]) + t, cur);
      ReadableCons(base, l);
      hide Quote, QuoteByte, Unquote, Readable, RereadLabel, Reread;
      if Reread(base, l[0]) < 256 {
        UnquoteLabel(base, l[1..], t, cur + [Reread(base, l[0]) as byte]);
        if Readable(base, l) {
          assert cur + [Reread(base, l[0]) as byte] + RereadLabel(base, l[1..]) == cur + RereadLabel(base, l);
        }
      }
    }
  }

  function RereadAll(base: Base, ls: seq<Bytes>): Option<seq<Bytes>> {
    if ls == [] then Some([])
    else if !Readable(base, ls[0]) then None
    else
      var rest := RereadAll(base, ls[1..]);
      if rest == None then None else Some([RereadLabel(base, ls[0])] + rest.value)
  }

  predicate NonEmpty(ls: seq<Bytes>) { forall i :: 0 <= i < |ls| ==> ls[i] != [] }

  lemma UnquoteDot(base: Base, t: Bytes, cur: Bytes)
    ensures Unquote(base, [], cur) == Some([cur])
    ensures Unquote(base, [DOT] + t, cur) ==
            if Unquote(base, t, []) == None then None else Some([cur] + Unquote(base, t, []).value)
  {
    assert ([DOT] + t)[1..] == t;
  }

  lemma {:induction false} UnquoteText(base: Base, ls: seq<Bytes>)
    requires ls != []
    ensures Unquote(base, Text(ls), []) == RereadAll(base, ls)
  {
    hide Unquote, Quote, Readable;
    var l := ls[0];
    if Readable(base, l) { assert [] + RereadLabel(base, l) == RereadLabel(base, l); }
    if |ls| == 1 {
      assert Text(ls) == Quote(l) + [];
      UnquoteLabel(base, l, [], []);
      assert RereadAll(base, ls[1..]) == Some([]);
      if Readable(base, l) {
        UnquoteDot(base, [], RereadLabel(base, l));
        assert [RereadLabel(base, l)] + [] == [RereadLabel(base, l)];
      }
    } else {
      var t := Text(ls[1..]);
      assert Text(ls) == Quote(l) + ([DOT] + t);
      UnquoteLabel(base, l, [DOT] + t, []);
      if Readable(base, l) { UnquoteDot(base, t, RereadLabel(base, l)); }
      UnquoteText(base, ls[1..]);
    }
  }

  lemma TextEmpty(ls: seq<Bytes>)
    requires NonEmpty(ls)
    ensures Text(ls) == [] <==> ls == []
  {
    if ls != [] { assert ls[0] != []; }
  }

  /** What a reader in any base makes of the printed text of a name. */
  lemma DecodeText(base: Base, ls: seq<Bytes>)
    requires NonEmpty(ls)
    ensures Decode(base, Text(ls)) == RereadAll(base, ls)
  {
    TextEmpty(ls);
    if ls != [] { UnquoteText(base, ls); }
  }

  lemma OctalRereads(b: byte)
    ensures Reread(Octal, b) == b
  {
    assert b == b / 64 * 64 + b / 8 % 8 * 8 + b % 8;
  }

  lemma {:induction false} OctalAll(ls: seq<Bytes>)
    ensures RereadAll(Octal, ls) == Some(ls)
  {
    if ls != [] {
      forall i | 0 <= i < |ls[0]| ensures Reread(Octal, ls[0][i]) == ls[0][i] { OctalRereads(ls[0][i]); }
      assert Readable(Octal, ls[0]) && RereadLabel(Octal, ls[0]) == ls[0];
      OctalAll(ls[1..]);
      assert ls == [ls[0]] + ls[1..];
    }
  }

  /** Reading octal numbers gives back exactly the labels printed. */
  lemma {:induction false} OctalRoundTrip(ls: seq<Bytes>)
    requires NonEmpty(ls)
    ensures Decode(Octal, Text(ls)) == Some(ls)
  {
    DecodeText(Octal, ls);
    OctalAll(ls);
  }

  /** Different names are printed differently. */
  lemma TextInjective(ls: seq<Bytes>, ms: seq<Bytes>)
    requires NonEmpty(ls) && NonEmpty(ms) && Text(ls) == Text(ms)
    ensures ls == ms
  {
    OctalRoundTrip(ls);
    OctalRoundTrip(ms);
  }

  /** Bytes whose number, if they are printed as one, is the same in octal and decimal. */
  predicate SameInDecimal(ls: seq<Bytes>) {
    forall i, j :: 0 <= i < |ls| && 0 <= j < |ls[i]| ==> ls[i][j] < 8 || 33 <= ls[i][j] <= 126
  }

  lemma DecimalRereads(b: byte)
    ensures Reread(Decimal, b) == b <==> b < 8 || 33 <= b <= 126
  {
    assert b == b / 64 * 64 + b / 8 % 8 * 8 + b % 8;
  }

  lemma {:induction false} DecimalAll(ls: seq<Bytes>)
    ensures RereadAll(Decimal, ls) == Some(ls) <==> SameInDecimal(ls)
  {
    if ls != [] {
      DecimalAll(ls[1..]);
      forall i | 0 <= i < |ls[0]| ensures Reread(Decimal, ls[0][i]) == ls[0][i] <==> ls[0][i] < 8 || 33 <= ls[0][i] <= 126 {
        DecimalRereads(ls[0][i]);
      }
      assert ls == [ls[0]] + ls[1..];
      assert SameInDecimal(ls) <==> SameInDecimal([ls[0]]) && SameInDecimal(ls[1..]);
      assert SameInDecimal([ls[0]]) <==> Readable(Decimal, ls[0]) && RereadLabel(Decimal, ls[0]) == ls[0];
    }
  }

  /** The documentation promises a backslash and three decimal digits, as RFC 1035
      section 5.1 has them. A reader that relies on it gets the labels back exactly
      if no byte is printed as a number above 7. */
  lemma DecimalReaderExactly(ls: seq<Bytes>)
    requires NonEmpty(ls)
    ensures Decode(Decimal, Text(ls)) == Some(ls) <==> SameInDecimal(ls)
  {
    DecodeText(Decimal, ls);
    DecimalAll(ls);
  }

  /** A space is printed as 040. */
  lemma SpaceMisread()
    ensures Decode(Decimal, Text([[32]])) == Some([[40]])
  {
    var ls: seq<Bytes> := [[32]];
    DecodeText(Decimal, ls);
    assert Reread(Decimal, 32) == 40;
    assert Readable(Decimal, ls[0]) && RereadLabel(Decimal, ls[0]) == [40];
    assert RereadAll(Decimal, ls[1..]) == Some([]);
    assert [RereadLabel(Decimal, ls[0])] + [] == [[40]];
  }
}
