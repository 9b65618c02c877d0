/** Names and record headers out of a datagram: the parsing built on the label walker. */
module DomainParse {
  import opened Common
  import opened VBufs
  import opened DomainName
  import opened DomainText

  // ---- Printing one label ----

  /** The length of the front of l that is printed as it is. */
  method PlainRun(l: seq<byte>) returns (i: nat)
    ensures i <= |l| && forall k :: 0 <= k < i ==> !Numbered(l[k]) && Unquoted(l[k])
    ensures i < |l| ==> Numbered(l[i]) || !Unquoted(l[i])
  {
    i := 0;
    while i < |l|
      invariant i <= |l| && forall k :: 0 <= k < i ==> !Numbered(l[k]) && Unquoted(l[k])
    {
      if l[i] <= 32 || l[i] >= 127 { return; }
      if !Unquoted(l[i]) { return; }
      i := i + 1;
    }
  }

  ghost predicate Starved(vb: VBuf)
    reads vb
  {
    vb.asked >= 2 && !vb.memory(vb.asked - 2) && !vb.memory(vb.asked - 1)
  }

  lemma QuoteRun(rest: seq<byte>, i: nat)
    requires i <= |rest| && forall k :: 0 <= k < i ==> !Numbered(rest[k]) && Unquoted(rest[k])
    ensures Quote(rest) == rest[..i] + if i < |rest| then QuoteByte(rest[i]) + Quote(rest[i + 1..]) else []
  {
    QuotePlain(rest[..i]);
    QuoteAppend(rest[..i], rest[i..]);
    assert rest == rest[..i] + rest[i..];
    if i < |rest| { assert rest[i..][1..] == rest[i + 1..]; }
  }

  lemma QuoteNothing()
    ensures Quote([]) == []
  {
  }

  /** One run of plain bytes, and the byte after it quoted. */
  method AppendRun(vb: VBuf, rest: seq<byte>) returns (ok: bool, next: seq<byte>, ghost run: seq<byte>)
    requires vb.Valid() && rest != []
    modifies vb, vb.buf
    ensures vb.Valid() && (vb.buf == old(vb.buf) || fresh(vb.buf))
    ensures if ok then vb.Contents() == old(vb.Contents()) + run else Starved(vb)
    ensures ok ==> |next| < |rest| && Quote(rest) == run + Quote(next)
  {
    hide Quote, QuoteByte, VBuf.Contents;
    var i := PlainRun(rest);
    QuoteRun(rest, i);
    QuoteNothing();
    next, run := [], [];
    ok := vb.Append(rest[..i]);
    if !ok { return; }
    var q := if i < |rest| then QuoteByte(rest[i]) else [];
    ok := vb.Append(q);
    next := if i < |rest| then rest[i + 1..] else [];
    run := rest[..i] + q;
  }

  /** vbuf__append_quoted1035 */
  method AppendQuoted(vb: VBuf, lab: seq<byte>) returns (ok: bool)
    requires vb.Valid()
    modifies vb, vb.buf
    ensures vb.Valid() && (vb.buf == old(vb.buf) || fresh(vb.buf))
    ensures if ok then vb.Contents() == old(vb.Contents()) + Quote(lab) else Starved(vb)
  {
    hide Quote, VBuf.Contents;
    var rest := lab;
    ghost var done: seq<byte> := [];
    while rest != []
      invariant vb.Valid() && (vb.buf == old(vb.buf) || fresh(vb.buf))
      invariant vb.Contents() == old(vb.Contents()) + done && Quote(lab) == done + Quote(rest)
      decreases |rest|
    {
      ghost var run;
      ok, rest, run := AppendRun(vb, rest);
      if !ok { return; }
      done := done + run;
    }
    QuoteNothing();
    ok := true;
  }

  // ---- A name ----

  predicate AlphaOrDigit(b: byte) { Alpha(b) || Digit(b) }

  /** A label that a host name may have. */
  predicate HostLabel(l: seq<byte>) {
    l != [] && AlphaOrDigit(l[0]) && forall i :: 0 < i < |l| ==> l[i] == 45 || AlphaOrDigit(l[i])
  }

  predicate AllHost(ls: seq<seq<byte>>) { forall i :: 0 <= i < |ls| ==> HostLabel(ls[i]) }

  function StopStatus(s: Stop): Status
    requires s != Never
  {
    match s
    case AtEnd(_) => Ok
    case CutShort => Ok
    case Bad => InvalidResponse
    case Unknown => UnknownFormatStatus
    case Long => AnswerDomainTooLong
  }

  /** The check of a label when quoting is not allowed. */
  method CheckHostLabel(l: seq<byte>) returns (ok: bool)
    requires l != []
    ensures ok <==> HostLabel(l)
  {
    if !AlphaOrDigit(l[0]) { return false; }
    for i := 1 to |l|
      invariant forall k :: 0 < k < i ==> l[k] == 45 || AlphaOrDigit(l[k])
    {
      if l[i] != 45 && !AlphaOrDigit(l[i]) { return false; }
    }
    ok := true;
  }

  lemma HostLabelPlain(l: seq<byte>)
    requires HostLabel(l)
    ensures Quote(l) == l
  {
    QuotePlain(l);
  }

  lemma {:induction false} TextSnoc(ls: seq<seq<byte>>, l: seq<byte>)
    ensures Text(ls + [l]) == if ls == [] then Quote(l) else Text(ls) + [DOT] + Quote(l)
  {
    hide Quote;
    if |ls| > 1 {
      assert (ls + [l])[1..] == ls[1..] + [l];
      TextSnoc(ls[1..], l);
      assert Text(ls + [l]) == Quote(ls[0]) + [DOT] + (Text(ls[1..]) + [DOT] + Quote(l));
    } else if |ls| == 1 {
      assert (ls + [l])[1..] == [l];
    } else {
      assert ls + [l] == [l];
    }
  }

  /** What parsing has made of the walk when it returns. */
  ghost predicate Parsed(name: Name, quote: bool, st: Status, before: seq<byte>, after: seq<byte>, end: Option<nat>) {
    if !quote && !AllHost(name.labels) then st == AnswerDomainInvalid
    else
      && name.stop != Never && st == StopStatus(name.stop)
      && (name.stop.AtEnd? ==> after == before + Text(name.labels) + [0] && end == Some(name.stop.end))
      && (name.stop.CutShort? ==> after == [])
  }

  /** The walk has done the labels ls and is at cur. */
  ghost predicate OnTheWay(name: Name, d: seq<byte>, ls: seq<seq<byte>>, cur: Cursor, quote: bool) {
    && cur.namelen <= MAX_DOMAIN && name == Name(ls + Walk(d, cur).labels, Walk(d, cur).stop)
    && NonEmpty(ls) && (quote || AllHost(ls))
  }

  lemma OneLabelOn(name: Name, d: seq<byte>, ls: seq<seq<byte>>, cur: Cursor, quote: bool)
    requires OnTheWay(name, d, ls, cur, quote) && Next(d, cur).Label?
    ensures var s := Next(d, cur);
      var lab := d[s.start..s.start + s.len];
      && lab != [] && (if quote || HostLabel(lab) then OnTheWay(name, d, ls + [lab], s.next, quote) else !AllHost(name.labels))
  {
    hide Next;
    var s := Next(d, cur);
    var lab := d[s.start..s.start + s.len];
    assert Walk(d, cur) == Name([lab] + Walk(d, s.next).labels, Walk(d, s.next).stop);
    hide Walk;
    assert name.labels == (ls + [lab]) + Walk(d, s.next).labels;
    assert name.labels[|ls|] == lab;
  }

  lemma NoLabelOn(name: Name, d: seq<byte>, ls: seq<seq<byte>>, cur: Cursor, quote: bool)
    requires OnTheWay(name, d, ls, cur, quote) && !Next(d, cur).Label?
    ensures name.labels == ls && (quote || AllHost(name.labels))
    ensures match Next(d, cur)
            case Root(end) => name.stop == AtEnd(end)
            case Truncated => name.stop == CutShort
            case BadResponse => name.stop == Bad
            case UnknownFormat => name.stop == Unknown
            case TooLong => name.stop == Long
            case Endless => name.stop == Never
            case _ => false
  {
    hide Next;
    assert ls + [] == ls;
  }

  /** The label itself, quoted or checked. */
  method AppendBare(vb: VBuf, lab: seq<byte>, quote: bool) returns (st: Status)
    requires vb.Valid() && lab != []
    modifies vb, vb.buf
    ensures vb.Valid() && (vb.buf == old(vb.buf) || fresh(vb.buf))
    ensures st in {Ok, OutOfMemory, AnswerDomainInvalid}
    ensures st == Ok ==> (quote || HostLabel(lab)) && vb.Contents() == old(vb.Contents()) + Quote(lab)
    ensures st == AnswerDomainInvalid ==> !quote && !HostLabel(lab)
    ensures st == OutOfMemory ==> Starved(vb)
  {
    hide Quote, HostLabel, VBuf.Contents;
    var ok;
    if quote {
      ok := AppendQuoted(vb, lab);
    } else {
      var host := CheckHostLabel(lab);
      if !host { return AnswerDomainInvalid; }
      HostLabelPlain(lab);
      ok := vb.Append(lab);
    }
    st := if ok then Ok else OutOfMemory;
  }

  /** One label is added to the text: a dot first, unless it is the first. */
  method AppendLabel(vb: VBuf, lab: seq<byte>, quote: bool, first: bool) returns (st: Status)
    requires vb.Valid() && lab != []
    modifies vb, vb.buf
    ensures vb.Valid() && (vb.buf == old(vb.buf) || fresh(vb.buf))
    ensures st in {Ok, OutOfMemory, AnswerDomainInvalid}
    ensures st == Ok ==> (quote || HostLabel(lab)) && vb.Contents() == old(vb.Contents()) + ((if first then [] else [DOT]) + Quote(lab))
    ensures st == AnswerDomainInvalid ==> !quote && !HostLabel(lab)
    ensures st == OutOfMemory ==> Starved(vb)
  {
    hide Quote, HostLabel, VBuf.Contents;
    var ok := true;
    if !first {
      ok := vb.Append([DOT]);
      if !ok { return OutOfMemory; }
    }
    st := AppendBare(vb, lab, quote);
    assert [] + Quote(lab) == Quote(lab);
  }

  lemma AtTheStart(d: seq<byte>, cur: Cursor, quote: bool)
    requires cur.namelen <= MAX_DOMAIN
    ensures OnTheWay(Walk(d, cur), d, [], cur, quote) && Text([]) == []
  {
    assert [] + Walk(d, cur).labels == Walk(d, cur).labels;
  }

  /** adns__parse_domain_more */
  method ParseDomainMore(fls: FindLabel, vb: VBuf, quote: bool) returns (st: Status, ghost name: Name)
    requires fls.Valid() && vb.Valid() && fls.namelen <= MAX_DOMAIN
    requires Followable(fls.dgram, fls.View()) || (!quote && !AllHost(Walk(fls.dgram, fls.View()).labels))
    modifies fls, vb, vb.buf
    ensures vb.Valid() && (vb.buf == old(vb.buf) || fresh(vb.buf))
    ensures name == Walk(fls.dgram, old(fls.View()))
    ensures if st == OutOfMemory then Starved(vb) else Parsed(name, quote, st, old(vb.Contents()), vb.Contents(), fls.dmend)
  {
    hide Walk, Followable, Next, Settles, Text, Quote, AllHost, HostLabel, NonEmpty, VBuf.Contents, OnTheWay;
    ghost var d := fls.dgram;
    WalkStopsExactly(d, fls.View());
    name := Walk(d, fls.View());
    ghost var ls: seq<seq<byte>> := [];
    var first := true;
    AtTheStart(d, fls.View(), quote);
    while true
      invariant fls.Valid() && vb.Valid() && (vb.buf == old(vb.buf) || fresh(vb.buf))
      invariant OnTheWay(name, d, ls, fls.View(), quote) && (first <==> ls == [])
      invariant vb.Contents() == old(vb.Contents()) + Text(ls)
      decreases MAX_DOMAIN - fls.namelen
    {
      ghost var cur := fls.View();
      NeverEndless(d, cur);
      if Next(d, cur).Label? { OneLabelOn(name, d, ls, cur, quote); } else { NoLabelOn(name, d, ls, cur, quote); }
      var lablen, labstart;
      st, lablen, labstart := fls.NextLabel();
      if st != Ok { return; }
      if lablen < 0 { vb.Reset(); return; }
      if lablen == 0 { break; }
      var lab := fls.dgram[labstart..labstart + lablen];
      st := AppendLabel(vb, lab, quote, first);
      if st != Ok { return; }
      first := false;
      TextSnoc(ls, lab);
      ls := ls + [lab];
    }
    var ok := vb.Append([0]);
    if !ok { return OutOfMemory, name; }
    st := Ok;
  }

  // ---- A name from its start ----

  /** The standard defines ls as the name at c, and it is not too long. */
  ghost predicate NameAt(d: seq<byte>, c: nat, max: nat, ls: seq<seq<byte>>) {
    NameLength(ls, 0) <= MAX_DOMAIN && exists n: nat :: Spells(d, c, max, ls, n)
  }

  /** Just past the first pointer or the empty label, whichever comes first. */
  function PastUncompressed(d: seq<byte>, c: nat): nat
    decreases |d| - c
  {
    if c >= |d| || d[c] == 0 then c + 1
    else if d[c] >= 64 then c + 2
    else PastUncompressed(d, c + 1 + d[c] as int)
  }

  lemma WalkNameAt(d: seq<byte>, c: nat, max: nat, ls: seq<seq<byte>>)
    ensures var w := Walk(d, Start(d, c, max)); NameAt(d, c, max, ls) <==> w.stop.AtEnd? && w.labels == ls
  {
    var cur := Start(d, c, max);
    if NameAt(d, c, max, ls) {
      var n: nat :| Spells(d, c, max, ls, n);
      WalkFindsName(d, cur, ls, n);
    }
    if Walk(d, cur).stop.AtEnd? {
      var n := WalkIsName(d, cur);
    }
  }

  lemma {:induction false} WalkNonEmpty(d: seq<byte>, cur: Cursor)
    requires cur.namelen <= MAX_DOMAIN
    ensures NonEmpty(Walk(d, cur).labels)
    decreases MAX_DOMAIN - cur.namelen
  {
    match Next(d, cur) {
      case Label(start, len, next) => WalkNonEmpty(d, next);
      case _ =>
    }
  }

  lemma RootEnd(d: seq<byte>, cur: Cursor)
    requires !AtPointer(d, cur) && cur.namelen <= MAX_DOMAIN && Look(d, cur).Root?
    ensures Walk(d, cur).stop == AtEnd(if cur.end == None then cur.at + 1 else cur.end.value)
    ensures PastUncompressed(d, cur.at) == cur.at + 1
  {
    NextHere(d, cur);
  }

  /** Once stored, the end does not change. */
  lemma {:induction false} WalkKeepsEnd(d: seq<byte>, cur: Cursor, k: nat)
    requires cur.namelen <= MAX_DOMAIN && Walk(d, cur).stop.AtEnd? && EndsIn(d, cur, k)
    ensures Walk(d, cur).stop.end == if cur.end != None then cur.end.value else PastUncompressed(d, cur.at)
    decreases MAX_DOMAIN - cur.namelen, k
  {
    hide Walk, Look, Next;
    if AtPointer(d, cur) {
      WalkHop(d, cur);
      WalkKeepsEnd(d, Hop(d, cur), k - 1);
    } else if Look(d, cur).Label? {
      WalkLabel(d, cur);
      var next := Look(d, cur).next;
      WalkSettles(d, next);
      WalkKeepsEnd(d, next, |d| + 1);
    } else {
      WalkNoLabel(d, cur);
      RootEnd(d, cur);
    }
  }

  lemma WalkEnds(d: seq<byte>, c: nat, max: nat)
    requires Walk(d, Start(d, c, max)).stop.AtEnd?
    ensures Walk(d, Start(d, c, max)).stop.end == PastUncompressed(d, c)
  {
    var cur := Start(d, c, max);
    WalkSettles(d, cur);
    WalkKeepsEnd(d, cur, |d| + 1);
  }

  /** The text t, with its final zero byte, is that of ls, and reads back as ls. */
  ghost predicate Printed(t: seq<byte>, ls: seq<seq<byte>>) {
    t == Text(ls) + [0] && Decode(Octal, Text(ls)) == Some(ls)
  }

  lemma ParsedPrinted(d: seq<byte>, c: nat, max: nat, name: Name, quote: bool, st: Status, t: seq<byte>, end: Option<nat>)
    requires name == Walk(d, Start(d, c, max)) && Parsed(name, quote, st, [], t, end)
    ensures forall ls :: NameAt(d, c, max, ls) && (quote || AllHost(ls)) <==> st == Ok && Printed(t, ls)
    ensures st == Ok && t != [] ==> end == Some(PastUncompressed(d, c))
    ensures if !quote && !AllHost(name.labels) then st == AnswerDomainInvalid else name.stop != Never && st == StopStatus(name.stop)
  {
    hide Walk, NameAt, AllHost, PastUncompressed, NonEmpty, Decode, Text;
    WalkNonEmpty(d, Start(d, c, max));
    OctalRoundTrip(name.labels);
    if name.stop.AtEnd? { WalkEnds(d, c, max); }
    forall ls ensures NameAt(d, c, max, ls) && (quote || AllHost(ls)) <==> st == Ok && Printed(t, ls) {
      WalkNameAt(d, c, max, ls);
      if Printed(t, ls) && t == [] + Text(name.labels) + [0] {
        assert Text(ls) == t[..|t| - 1] == Text(name.labels);
      }
    }
  }

  /** adns__parse_domain. The text, read back, is the name the standard defines, if
      and only if there is one. The pointers on the way must settle, unless a label
      that is no host's is met first: otherwise the call does not return. */
  method ParseDomain(d: seq<byte>, begin: nat, max: nat, vb: VBuf, quote: bool) returns (st: Status, cbyte: nat)
    requires vb.Valid()
    requires Followable(d, Start(d, begin, max)) || (!quote && !AllHost(Walk(d, Start(d, begin, max)).labels))
    modifies vb, vb.buf
    ensures vb.Valid() && (vb.buf == old(vb.buf) || fresh(vb.buf))
    ensures st == OutOfMemory ==> Starved(vb)
    ensures st != OutOfMemory ==> forall ls ::
      NameAt(d, begin, max, ls) && (quote || AllHost(ls)) <==> st == Ok && Printed(vb.Contents(), ls)
    ensures st == Ok && vb.Contents() != [] ==> cbyte == PastUncompressed(d, begin)
    ensures st != OutOfMemory ==>
      var w := Walk(d, Start(d, begin, max));
      if !quote && !AllHost(w.labels) then st == AnswerDomainInvalid else w.stop != Never && st == StopStatus(w.stop)
  {
    hide Walk, Followable, Parsed, NameAt, AllHost, PastUncompressed, Printed, StopStatus;
    cbyte := begin;
    var fls := new FindLabel(d, begin, max);
    vb.Reset();
    ghost var name;
    st, name := ParseDomainMore(fls, vb, quote);
    if fls.dmend != None { cbyte := fls.dmend.value; }
    if st != OutOfMemory {
      ParsedPrinted(d, begin, max, name, quote, st, vb.Contents(), fls.dmend);
    }
  }
}
