/**
 The header of a resource record: its owner, compared label by label with another
 name wherever compression breaks either, and the fixed fields after it.
 */
module RecordOwner {
  import opened Common
  import opened DomainName
  import opened DomainText
  import opened DomainParse

  const MAX_TTL_BELIEVED: nat := 7 * 86400

  // ---- Names up to ASCII case ----

  function Upper(b: byte): byte { if Alpha(b) && b >= 97 then b - 32 else b }

  function Fold(l: seq<byte>): (r: seq<byte>)
    ensures |r| == |l| && forall i :: 0 <= i < |l| ==> r[i] == Upper(l[i])
  {
    seq(|l|, i requires 0 <= i < |l| => Upper(l[i]))
  }

  /** The same labels up to ASCII case. */
  predicate SameName(ls: seq<seq<byte>>, ms: seq<seq<byte>>) {
    |ls| == |ms| && forall i :: 0 <= i < |ls| ==> Fold(ls[i]) == Fold(ms[i])
  }

  /** The inner loop: two labels of the same length. */
  method CompareLabels(l: seq<byte>, m: seq<byte>) returns (mismatch: bool)
    ensures mismatch <==> Fold(l) != Fold(m)
  {
    mismatch := |l| != |m|;
    if mismatch { return; }
    var i := 0;
    while !mismatch && i < |l|
      invariant 0 <= i <= |l|
      invariant if mismatch then i > 0 && Fold(l)[i - 1] != Fold(m)[i - 1] else Fold(l)[..i] == Fold(m)[..i]
      decreases |l| - i, !mismatch
    {
      var ch := Upper(l[i]);
      var eoCh := Upper(m[i]);
      i := i + 1;
      if ch != eoCh { mismatch := true; }
    }
    if !mismatch { assert Fold(l) == Fold(l)[..i] && Fold(m) == Fold(m)[..i]; }
  }

  // ---- Walking two names in step ----

  /** Both walks have done equally many labels, the same up to case. */
  ghost predicate InStep(w: Name, d: seq<byte>, ls: seq<seq<byte>>, cur: Cursor, v: Name, e: seq<byte>, ms: seq<seq<byte>>, eoCur: Cursor) {
    OnTheWay(w, d, ls, cur, true) && OnTheWay(v, e, ms, eoCur, true) && SameName(ls, ms)
  }

  lemma LabelInName(w: Name, d: seq<byte>, ls: seq<seq<byte>>, cur: Cursor, l: seq<byte>)
    requires OnTheWay(w, d, ls, cur, true) && Next(d, cur).Label?
    requires l == d[Next(d, cur).start..Next(d, cur).start + Next(d, cur).len]
    ensures l != [] && OnTheWay(w, d, ls + [l], Next(d, cur).next, true)
    ensures |w.labels| > |ls| && w.labels[|ls|] == l
  {
    OneLabelOn(w, d, ls, cur, true);
  }

  /** What comparing the next labels, the empty one at the end included, shows. */
  lemma NextCompared(w: Name, d: seq<byte>, ls: seq<seq<byte>>, cur: Cursor, v: Name, e: seq<byte>, ms: seq<seq<byte>>, eoCur: Cursor, l: seq<byte>, m: seq<byte>)
    requires InStep(w, d, ls, cur, v, e, ms, eoCur)
    requires match Next(d, cur)
             case Label(start, len, _) => l == d[start..start + len]
             case Root(_) => l == []
             case _ => false
    requires match Next(e, eoCur)
             case Label(start, len, _) => m == e[start..start + len]
             case Root(_) => m == []
             case _ => false
    ensures Fold(l) != Fold(m) ==> !SameName(w.labels, v.labels)
    ensures Fold(l) == Fold(m) ==> |l| == |m|
    ensures Fold(l) == Fold(m) && l != [] ==> InStep(w, d, ls + [l], Next(d, cur).next, v, e, ms + [m], Next(e, eoCur).next)
    ensures Fold(l) == Fold(m) && l == [] ==> SameName(w.labels, v.labels)
  {
    hide Walk, Next, HostLabel;
    if Next(d, cur).Label? { LabelInName(w, d, ls, cur, l); } else { NoLabelOn(w, d, ls, cur, true); }
    if Next(e, eoCur).Label? { LabelInName(v, e, ms, eoCur, m); } else { NoLabelOn(v, e, ms, eoCur, true); }
  }

  lemma NothingSame()
    ensures SameName([], [])
  {
  }

  lemma StepParts(w: Name, d: seq<byte>, ls: seq<seq<byte>>, cur: Cursor, v: Name, e: seq<byte>, ms: seq<seq<byte>>, eoCur: Cursor)
    requires InStep(w, d, ls, cur, v, e, ms, eoCur)
    ensures OnTheWay(v, e, ms, eoCur, true)
  {
  }

  lemma LabelOrStop(w: Name, d: seq<byte>, ls: seq<seq<byte>>, cur: Cursor)
    requires OnTheWay(w, d, ls, cur, true)
    ensures w.stop != Never ==> Settles(d, cur)
    ensures w.stop.AtEnd? ==> Next(d, cur).Label? || Next(d, cur).Root?
    ensures match Next(d, cur)
            case Label(start, len, next) => len > 0 && start + len <= |d| && cur.namelen < next.namelen <= MAX_DOMAIN
            case Root(end) => w.stop == AtEnd(end) && w.labels == ls
            case Truncated => w.stop == CutShort
            case BadResponse => w.stop == Bad
            case UnknownFormat => w.stop == Unknown
            case TooLong => w.stop == Long
            case Endless => w.stop == Never
  {
    NeverEndless(d, cur);
    if Next(d, cur).Label? { OneLabelOn(w, d, ls, cur, true); } else { NoLabelOn(w, d, ls, cur, true); }
  }

  /** The owner of the record begins at fls. It is compared with the name at eo, if
      there is one, which must be whole. */
  method CompareOwner(fls: FindLabel, eo: FindLabel?) returns (st: Status, truncated: bool, matched: bool, ghost w: Name)
    requires fls.Valid() && fls.namelen <= MAX_DOMAIN && Followable(fls.dgram, fls.View())
    requires eo != null ==> eo != fls && eo.Valid() && eo.namelen <= MAX_DOMAIN && Walk(eo.dgram, eo.View()).stop.AtEnd?
    modifies fls, eo
    ensures w == Walk(fls.dgram, old(fls.View()))
    ensures w.stop != Never && st == StopStatus(w.stop) && (truncated <==> w.stop.CutShort?)
    ensures w.stop.AtEnd? ==> fls.dmend == Some(w.stop.end)
    ensures w.stop.AtEnd? ==> (matched <==> eo != null && SameName(w.labels, Walk(eo.dgram, old(eo.View())).labels))
  {
    hide Walk, Followable, Next, Settles, SameName, Fold;
    ghost var d := fls.dgram;
    WalkStopsExactly(d, fls.View());
    w := Walk(d, fls.View());
    ghost var ls: seq<seq<byte>> := [];
    AtTheStart(d, fls.View(), true);
    ghost var e := if eo == null then [] else eo.dgram;
    ghost var v := if eo == null then w else Walk(eo.dgram, eo.View());
    ghost var ms: seq<seq<byte>> := [];
    if eo != null { AtTheStart(e, eo.View(), true); }
    NothingSame();
    var mismatch := eo == null;
    truncated, matched := false, false;
    while true
      invariant fls.Valid() && OnTheWay(w, d, ls, fls.View(), true)
      invariant eo != null && !mismatch ==> eo.Valid() && InStep(w, d, ls, fls.View(), v, e, ms, eo.View())
      invariant eo == null ==> mismatch
      invariant eo != null && mismatch ==> !SameName(w.labels, v.labels)
      decreases MAX_DOMAIN - fls.namelen
    {
      hide OnTheWay, InStep;
      ghost var cur := fls.View();
      LabelOrStop(w, d, ls, cur);
      var lablen, labstart;
      st, lablen, labstart := fls.NextLabel();
      if st != Ok { return; }
      if lablen < 0 { truncated := true; return; }
      var l := if lablen > 0 then fls.dgram[labstart..labstart + lablen] else [];
      if !mismatch {
        ghost var eoCur := eo.View();
        StepParts(w, d, ls, cur, v, e, ms, eoCur);
        LabelOrStop(v, e, ms, eoCur);
        var eoSt, eoLen, eoStart := eo.NextLabel();
        var m := if eoLen > 0 then eo.dgram[eoStart..eoStart + eoLen] else [];
        NextCompared(w, d, ls, cur, v, e, ms, eoCur, l, m);
        mismatch := CompareLabels(l, m);
        ms := ms + [m];
      }
      if lablen == 0 { break; }
      LabelInName(w, d, ls, cur, l);
      ls := ls + [l];
    }
    matched := !mismatch;
  }

  // ---- The record header ----

  /** GET_W */
  function Word(d: seq<byte>, c: nat): nat
    requires c + 2 <= |d|
  {
    d[c] as int * 256 + d[c + 1] as int
  }

  /** GET_L */
  function Long32(d: seq<byte>, c: nat): nat
    requires c + 4 <= |d|
  {
    Word(d, c) * 0x1_0000 + Word(d, c + 2)
  }

  datatype Record = Record(typ: nat, class_: nat, ttl: nat, rdlen: nat, rdstart: nat, end: nat, matched: bool)

  /** The record that begins with an owner ending at e. */
  function RecordAt(d: seq<byte>, e: nat, matched: bool): Option<Record> {
    if e + 10 > |d| || e + 10 + Word(d, e + 8) > |d| then None
    else
      var ttl := Long32(d, e + 4);
      var believed := if ttl > MAX_TTL_BELIEVED then MAX_TTL_BELIEVED else ttl;
      Some(Record(Word(d, e), Word(d, e + 2), believed, Word(d, e + 8), e + 10, e + 10 + Word(d, e + 8), matched))
  }

  method ReadHeader(d: seq<byte>, begin: nat, matched: bool) returns (r: Option<Record>)
    ensures r == RecordAt(d, begin, matched)
  {
    var cbyte := begin;
    if cbyte + 10 > |d| { return None; }
    var typ := Word(d, cbyte);
    cbyte := cbyte + 2;
    var class_ := Word(d, cbyte);
    cbyte := cbyte + 2;
    var ttl := Long32(d, cbyte);
    cbyte := cbyte + 4;
    if ttl > MAX_TTL_BELIEVED { ttl := MAX_TTL_BELIEVED; }
    var rdlen := Word(d, cbyte);
    cbyte := cbyte + 2;
    var rdstart := cbyte;
    cbyte := cbyte + rdlen;
    if cbyte > |d| { return None; }
    r := Some(Record(typ, class_, ttl, rdlen, rdstart, cbyte, matched));
  }

  /** adns__findrr_anychk; no record means the datagram is truncated. */
  method FindRecord(d: seq<byte>, begin: nat, eo: Option<(seq<byte>, nat)>) returns (st: Status, r: Option<Record>)
    requires Followable(d, Start(d, begin, |d|))
    requires eo.Some? ==> Walk(eo.value.0, Start(eo.value.0, eo.value.1, |eo.value.0|)).stop.AtEnd?
    ensures var w := Walk(d, Start(d, begin, |d|)); w.stop != Never && st == StopStatus(w.stop)
    ensures (forall ls :: !NameAt(d, begin, |d|, ls)) ==> r == None
    ensures forall ls :: NameAt(d, begin, |d|, ls) ==>
      st == Ok && exists matched ::
        && r == RecordAt(d, PastUncompressed(d, begin), matched)
        && (eo == None ==> !matched)
        && (eo.Some? ==> forall ms :: NameAt(eo.value.0, eo.value.1, |eo.value.0|, ms) ==> (matched <==> SameName(ls, ms)))
  {
    hide Walk, Followable, NameAt, PastUncompressed, SameName;
    var fls := new FindLabel(d, begin, |d|);
    var eoFls: FindLabel? := null;
    if eo.Some? { eoFls := new FindLabel(eo.value.0, eo.value.1, |eo.value.0|); }
    ghost var w;
    var truncated, matched;
    st, truncated, matched, w := CompareOwner(fls, eoFls);
    forall ls ensures NameAt(d, begin, |d|, ls) <==> w.stop.AtEnd? && w.labels == ls { WalkNameAt(d, begin, |d|, ls); }
    if eo.Some? {
      forall ms ensures NameAt(eo.value.0, eo.value.1, |eo.value.0|, ms) ==> Walk(eo.value.0, Start(eo.value.0, eo.value.1, |eo.value.0|)).labels == ms {
        WalkNameAt(eo.value.0, eo.value.1, |eo.value.0|, ms);
      }
    }
    if st != Ok || truncated { return st, None; }
    assert NameAt(d, begin, |d|, w.labels);
    WalkEnds(d, begin, |d|);
    var cbyte := fls.dmend.value;
    r := ReadHeader(d, cbyte, matched);
  }
}
