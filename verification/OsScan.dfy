/**
 The reply to an OS scan: the agent writes what it found as a list of options into
 an event, and the user interface reads the options back.
 */
module OsScan {
  import opened Common

  type Bytes = seq<byte>
  type u32 = n: int | 0 <= n < 0x1_0000_0000

  /** A string as C has them: any bytes but zero. */
  predicate IsString(s: Bytes) { forall i :: 0 <= i < |s| ==> s[i] != 0 }

  // ---- What is sent ----

  datatype Fields = Fields(protocol: u32, state: u32, number: u32, proto: u32, rpcnum: u32, rpclow: u32, rpchigh: u32)
  datatype Port = Port(fields: Fields, service: Option<Bytes>, owner: Option<Bytes>)
  datatype Uptime = Uptime(seconds: u32, lastBoot: Option<Bytes>)

  datatype Scan = Scan(os: Option<Bytes>, ports: seq<Port>, uptime: Option<Uptime>)

  function Text(s: Option<Bytes>): Bytes { if s == None then [] else s.value }

  predicate StringsOk(n: Scan) {
    && IsString(Text(n.os))
    && (forall i :: 0 <= i < |n.ports| ==> IsString(Text(n.ports[i].service)) && IsString(Text(n.ports[i].owner)))
    && (n.uptime.Some? ==> IsString(Text(n.uptime.value.lastBoot)))
  }

  // ---- What is read ----

  datatype Entry = Entry(fields: Fields, name: Bytes, owner: Bytes)

  /** os_stats; it starts all zero. */
  datatype Stats = Stats(os: Option<Bytes>, ports: seq<Entry>, seconds: u32, lastBoot: Option<Bytes>)

  const NOTHING := Stats(None, [], 0, None)

  // ---- Numbers and strings in memory ----

  /** Network order, as htonl leaves a number in memory. */
  function Word(n: u32): (r: Bytes)
    ensures |r| == 4
  {
    [n / 0x100_0000, n / 0x1_0000 % 256, n / 256 % 256, n % 256]
  }

  function WordAt(d: Bytes, p: nat): u32
    requires p + 4 <= |d|
  {
    d[p] as int * 0x100_0000 + d[p + 1] as int * 0x1_0000 + d[p + 2] as int * 256 + d[p + 3] as int
  }

  lemma BytesOfWord(n: u32)
    ensures n / 0x100_0000 * 0x100_0000 + n / 0x1_0000 % 256 * 0x1_0000 + n / 256 % 256 * 256 + n % 256 == n
  {
  }

  lemma WordBack(pre: Bytes, n: u32, post: Bytes)
    ensures WordAt(pre + Word(n) + post, |pre|) == n
  {
    var d := pre + Word(n) + post;
    BytesOfWord(n);
    assert d[|pre|] == Word(n)[0] && d[|pre| + 1] == Word(n)[1] && d[|pre| + 2] == Word(n)[2] && d[|pre| + 3] == Word(n)[3];
  }

  /** The string that begins at p, if there is a zero after it. */
  function StringAt(d: Bytes, p: nat): Option<Bytes>
    decreases |d| - p
  {
    if p >= |d| then None
    else if d[p] == 0 then Some([])
    else
      var rest := StringAt(d, p + 1);
      if rest == None then None else Some([d[p]] + rest.value)
  }

  lemma {:induction false} StringBack(pre: Bytes, s: Bytes, post: Bytes)
    requires IsString(s)
    ensures StringAt(pre + s + [0] + post, |pre|) == Some(s)
    decreases |s|
  {
    var d := pre + s + [0] + post;
    if s != [] {
      StringBack(pre + [s[0]], s[1..], post);
      assert pre + [s[0]] + s[1..] == pre + s;
      assert [s[0]] + s[1..] == s;
    } else {
      assert d[|pre|] == 0;
    }
  }

  // ---- Options ----

  datatype Opt = OsOpt(name: Bytes) | PortOpt(entry: Entry) | UptimeOpt(seconds: u32, lastBoot: Bytes) | Unknown

  /** The bytes of the seven port fields. */
  function FieldBytes(f: Fields): (r: Bytes)
    ensures |r| == 28
  {
    Word(f.protocol) + Word(f.state) + Word(f.number) + Word(f.proto) + Word(f.rpcnum) + Word(f.rpclow) + Word(f.rpchigh)
  }

  /** What follows the type and length of an option. */
  function Body(o: Opt): Bytes {
    match o
    case OsOpt(name) => name + [0]
    case PortOpt(e) => FieldBytes(e.fields) + e.name + [0] + e.owner + [0]
    case UptimeOpt(seconds, lastBoot) => Word(seconds) + lastBoot + [0]
    case Unknown => []
  }

  function TypeOf(o: Opt): u32 {
    match o
    case OsOpt(_) => 1
    case PortOpt(_) => 2
    case UptimeOpt(_, _) => 3
    case Unknown => 0
  }

  function Size(o: Opt): nat { 8 + |Body(o)| }

  function Encoded(o: Opt): (r: Bytes)
    requires Size(o) < 0x1_0000_0000
    ensures |r| == Size(o)
  {
    Word(TypeOf(o)) + Word(Size(o)) + Body(o)
  }

  /** The options of a scan in the order they are written: a missing string is written
      as an empty one. */
  function PortOpts(ports: seq<Port>): (r: seq<Opt>)
    ensures |r| == |ports|
    ensures forall i :: 0 <= i < |ports| ==> r[i] == PortOpt(Entry(ports[i].fields, Text(ports[i].service), Text(ports[i].owner)))
  {
    seq(|ports|, i requires 0 <= i < |ports| => PortOpt(Entry(ports[i].fields, Text(ports[i].service), Text(ports[i].owner))))
  }

  function OsOpts(n: Scan): seq<Opt> { if n.os.Some? then [OsOpt(n.os.value)] else [] }

  function UptimeOpts(n: Scan): seq<Opt> {
    if n.uptime.Some? then [UptimeOpt(n.uptime.value.seconds, Text(n.uptime.value.lastBoot))] else []
  }

  function Options(n: Scan): seq<Opt> { OsOpts(n) + PortOpts(n.ports) + UptimeOpts(n) }

  function Total(os: seq<Opt>): nat { if os == [] then 0 else Size(os[0]) + Total(os[1..]) }

  function EncodedAll(os: seq<Opt>): (r: Bytes)
    requires Total(os) < 0x1_0000_0000
    ensures |r| == Total(os)
  {
    if os == [] then [] else Encoded(os[0]) + EncodedAll(os[1..])
  }

  lemma {:induction false} TotalAppend(os: seq<Opt>, o: Opt)
    ensures Total(os + [o]) == Total(os) + Size(o)
    ensures Total(os + [o]) < 0x1_0000_0000 ==> EncodedAll(os + [o]) == EncodedAll(os) + Encoded(o)
  {
    hide Encoded, Size;
    if os == [] {
      assert os + [o] == [o] && [o][1..] == [];
    } else {
      var r := os + [o];
      assert r[1..] == os[1..] + [o] && r[0] == os[0];
      TotalAppend(os[1..], o);
      if Total(r) < 0x1_0000_0000 {
        assert EncodedAll(r) == Encoded(os[0]) + (EncodedAll(os[1..]) + Encoded(o));
      }
    }
  }

  // ---- Reading one option ----

  function FieldsAt(d: Bytes, p: nat): Fields
    requires p + 28 <= |d|
  {
    Fields(WordAt(d, p), WordAt(d, p + 4), WordAt(d, p + 8), WordAt(d, p + 12), WordAt(d, p + 16), WordAt(d, p + 20), WordAt(d, p + 24))
  }

  /** The option at p, and what has to be there for it to be read at all. */
  function ReadOpt(d: Bytes, p: nat): Option<Opt> {
    if p + 8 > |d| then None
    else
      var t := WordAt(d, p);
      if t == 1 then
        var s := StringAt(d, p + 8);
        if s == None then None else Some(OsOpt(s.value))
      else if t == 2 then
        if p + 36 > |d| then None
        else
          var s := StringAt(d, p + 36);
          if s == None then None
          else
            var w := StringAt(d, p + 36 + |s.value| + 1);
            if w == None then None else Some(PortOpt(Entry(FieldsAt(d, p + 8), s.value, w.value)))
      else if t == 3 then
        if p + 12 > |d| then None
        else
          var s := StringAt(d, p + 12);
          if s == None then None else Some(UptimeOpt(WordAt(d, p + 8), s.value))
      else Some(Unknown)
  }

  predicate OptStrings(o: Opt) {
    match o
    case OsOpt(name) => IsString(name)
    case PortOpt(e) => IsString(e.name) && IsString(e.owner)
    case UptimeOpt(_, lastBoot) => IsString(lastBoot)
    case Unknown => false
  }

  lemma FieldsBack(pre: Bytes, f: Fields, post: Bytes)
    ensures FieldsAt(pre + FieldBytes(f) + post, |pre|) == f
  {
    hide Word, WordAt;
    var d := pre + FieldBytes(f) + post;
    var a, b, c, e, g, h, k := Word(f.protocol), Word(f.state), Word(f.number), Word(f.proto), Word(f.rpcnum), Word(f.rpclow), Word(f.rpchigh);
    WordBack(pre, f.protocol, b + c + e + g + h + k + post);
    assert d == pre + a + (b + c + e + g + h + k + post);
    WordBack(pre + a, f.state, c + e + g + h + k + post);
    assert d == (pre + a) + b + (c + e + g + h + k + post);
    WordBack(pre + a + b, f.number, e + g + h + k + post);
    assert d == (pre + a + b) + c + (e + g + h + k + post);
    WordBack(pre + a + b + c, f.proto, g + h + k + post);
    assert d == (pre + a + b + c) + e + (g + h + k + post);
    WordBack(pre + a + b + c + e, f.rpcnum, h + k + post);
    assert d == (pre + a + b + c + e) + g + (h + k + post);
    WordBack(pre + a + b + c + e + g, f.rpclow, k + post);
    assert d == (pre + a + b + c + e + g) + h + (k + post);
    WordBack(pre + a + b + c + e + g + h, f.rpchigh, post);
    assert d == (pre + a + b + c + e + g + h) + k + post;
  }

  /** Where the body of an option begins, and what is before it. */
  lemma HeadBack(pre: Bytes, o: Opt, post: Bytes) returns (head: Bytes)
    requires Size(o) < 0x1_0000_0000
    ensures |head| == |pre| + 8 && pre + Encoded(o) + post == head + Body(o) + post
    ensures WordAt(head + Body(o) + post, |pre|) == TypeOf(o) && WordAt(head + Body(o) + post, |pre| + 4) == Size(o)
  {
    hide WordAt, Word, Body;
    var t, l, b := Word(TypeOf(o)), Word(Size(o)), Body(o);
    head := pre + t + l;
    var d := head + b + post;
    assert pre + Encoded(o) + post == d;
    WordBack(pre, TypeOf(o), l + b + post);
    assert d == pre + t + (l + b + post);
    WordBack(pre + t, Size(o), b + post);
    assert d == (pre + t) + l + (b + post);
  }

  lemma OsBack(head: Bytes, name: Bytes, post: Bytes)
    requires IsString(name)
    ensures StringAt(head + Body(OsOpt(name)) + post, |head|) == Some(name)
  {
    hide StringAt;
    StringBack(head, name, post);
    assert head + Body(OsOpt(name)) + post == head + name + [0] + post;
  }

  lemma UptimeBack(head: Bytes, seconds: u32, lastBoot: Bytes, post: Bytes)
    requires IsString(lastBoot)
    ensures var d := head + Body(UptimeOpt(seconds, lastBoot)) + post;
      |head| + 4 <= |d| && WordAt(d, |head|) == seconds && StringAt(d, |head| + 4) == Some(lastBoot)
  {
    hide WordAt, StringAt, Word;
    var d := head + Body(UptimeOpt(seconds, lastBoot)) + post;
    var w := Word(seconds);
    WordBack(head, seconds, lastBoot + [0] + post);
    assert d == head + w + (lastBoot + [0] + post);
    StringBack(head + w, lastBoot, post);
    assert d == (head + w) + lastBoot + [0] + post;
  }

  lemma PortBack(head: Bytes, e: Entry, post: Bytes)
    requires IsString(e.name) && IsString(e.owner)
    ensures var d := head + Body(PortOpt(e)) + post;
      && |head| + 28 <= |d| && FieldsAt(d, |head|) == e.fields && StringAt(d, |head| + 28) == Some(e.name)
      && StringAt(d, |head| + 28 + |e.name| + 1) == Some(e.owner)
  {
    hide FieldsAt, StringAt, FieldBytes;
    var d := head + Body(PortOpt(e)) + post;
    var f := FieldBytes(e.fields);
    FieldsBack(head, e.fields, e.name + [0] + e.owner + [0] + post);
    assert d == head + f + (e.name + [0] + e.owner + [0] + post);
    StringBack(head + f, e.name, e.owner + [0] + post);
    assert d == (head + f) + e.name + [0] + (e.owner + [0] + post);
    StringBack(head + f + e.name + [0], e.owner, post);
    assert d == (head + f + e.name + [0]) + e.owner + [0] + post;
  }

  /** An option is read back where it was written, with its length. */
  lemma OptBack(pre: Bytes, o: Opt, post: Bytes)
    requires OptStrings(o) && Size(o) < 0x1_0000_0000
    ensures ReadOpt(pre + Encoded(o) + post, |pre|) == Some(o)
    ensures |pre| + 8 <= |pre + Encoded(o) + post| && WordAt(pre + Encoded(o) + post, |pre| + 4) == Size(o)
  {
    hide WordAt, StringAt, FieldsAt, Body, Encoded;
    var head := HeadBack(pre, o, post);
    match o {
      case OsOpt(name) => OsBack(head, name, post);
      case PortOpt(e) => PortBack(head, e, post);
      case UptimeOpt(seconds, lastBoot) => UptimeBack(head, seconds, lastBoot, post);
    }
  }

  // ---- Reading them all ----

  /** n options from p on, each as far after the one before as that one's length says,
      and where the walk ends. */
  function ReadAll(d: Bytes, p: nat, n: nat): Option<(seq<Opt>, nat)>
    decreases n
  {
    if n == 0 then Some(([], p))
    else if ReadOpt(d, p) == None then None
    else
      var rest := ReadAll(d, p + WordAt(d, p + 4), n - 1);
      if rest == None then None else Some(([ReadOpt(d, p).value] + rest.value.0, rest.value.1))
  }

  /** All options are read back, and the walk ends exactly where they do. */
  lemma {:induction false} AllBack(pre: Bytes, os: seq<Opt>, post: Bytes)
    requires Total(os) < 0x1_0000_0000 && forall i :: 0 <= i < |os| ==> OptStrings(os[i])
    ensures ReadAll(pre + EncodedAll(os) + post, |pre|, |os|) == Some((os, |pre| + Total(os)))
    decreases |os|
  {
    hide ReadOpt, Encoded, Size, WordAt;
    if os != [] {
      var d := pre + EncodedAll(os) + post;
      var x := Encoded(os[0]);
      OptBack(pre, os[0], EncodedAll(os[1..]) + post);
      assert d == pre + x + (EncodedAll(os[1..]) + post);
      AllBack(pre + x, os[1..], post);
      assert d == (pre + x) + EncodedAll(os[1..]) + post;
      assert os == [os[0]] + os[1..];
    }
  }

  // ---- What becomes of the options ----

  function Apply(s: Stats, o: Opt): Stats {
    match o
    case OsOpt(name) => s.(os := Some(name))
    case PortOpt(e) => s.(ports := [e] + s.ports)
    case UptimeOpt(seconds, lastBoot) =>
      if lastBoot == [] then s.(seconds := seconds) else s.(seconds := seconds, lastBoot := Some(lastBoot))
    case Unknown => s
  }

  function Fold(s: Stats, os: seq<Opt>): Stats
    decreases |os|
  {
    if os == [] then s else Fold(Apply(s, os[0]), os[1..])
  }

  lemma {:induction false} FoldAppend(s: Stats, a: seq<Opt>, b: seq<Opt>)
    ensures Fold(s, a + b) == Fold(Fold(s, a), b)
    decreases |a|
  {
    if a == [] {
      assert a + b == b;
    } else {
      assert (a + b)[1..] == a[1..] + b;
      FoldAppend(Apply(s, a[0]), a[1..], b);
    }
  }

  function Reverse(ports: seq<Port>): seq<Entry> {
    if ports == [] then []
    else Reverse(ports[1..]) + [Entry(ports[0].fields, Text(ports[0].service), Text(ports[0].owner))]
  }

  lemma {:induction false} FoldPorts(s: Stats, ports: seq<Port>)
    ensures Fold(s, PortOpts(ports)) == s.(ports := Reverse(ports) + s.ports)
    decreases |ports|
  {
    if ports != [] {
      var e := Entry(ports[0].fields, Text(ports[0].service), Text(ports[0].owner));
      assert PortOpts(ports)[1..] == PortOpts(ports[1..]);
      FoldPorts(Apply(s, PortOpt(e)), ports[1..]);
      assert Reverse(ports[1..]) + ([e] + s.ports) == Reverse(ports) + s.ports;
    }
  }

  /** What the user interface should know of a scan: the ports in reverse order, a
      missing string as an empty one, no last boot if it is empty. */
  function Expected(n: Scan): Stats {
    var boot := if n.uptime.Some? then Text(n.uptime.value.lastBoot) else [];
    Stats(n.os, Reverse(n.ports), if n.uptime.Some? then n.uptime.value.seconds else 0, if boot == [] then None else Some(boot))
  }

  lemma FoldOptions(n: Scan)
    ensures Fold(NOTHING, Options(n)) == Expected(n)
  {
    var a := OsOpts(n);
    FoldAppend(NOTHING, a + PortOpts(n.ports), UptimeOpts(n));
    FoldAppend(NOTHING, a, PortOpts(n.ports));
    FoldPorts(Fold(NOTHING, a), n.ports);
    assert Reverse(n.ports) + [] == Reverse(n.ports);
  }

  // ---- The reply ----

  const REPLY_OS_SCAN: nat := 103
  const HEADER: nat := 12
  const REPLY: nat := 16

  function Half(n: nat): (r: Bytes)
    requires n < 0x1_0000
    ensures |r| == 2
  {
    [n / 256, n % 256]
  }

  /** event_hdr: length, header length, type and flags. */
  function EventHeader(length: u32): (r: Bytes)
    ensures |r| == HEADER
  {
    Word(length) + Half(HEADER) + Half(REPLY_OS_SCAN) + [0, 0, 0, 0]
  }

  /** os_scan_r: the number of options, the address and the page, both as they are in memory. */
  function ReplyHead(options: u32, ip: Bytes, np: Bytes): (r: Bytes)
    requires |ip| == 4 && |np| == 8
    ensures |r| == REPLY
  {
    Word(options) + ip + np
  }

  function Fits(n: Scan, room: nat): bool { HEADER + REPLY + Total(Options(n)) <= room && room < 0x1_0000_0000 }

  lemma OptionsStrings(n: Scan)
    requires StringsOk(n)
    ensures forall i :: 0 <= i < |Options(n)| ==> OptStrings(Options(n)[i])
  {
  }

  lemma {:induction false} TotalAtLeast(os: seq<Opt>)
    ensures Total(os) >= |os|
  {
    if os != [] { TotalAtLeast(os[1..]); }
  }

  lemma HeadCount(options: u32, ip: Bytes, np: Bytes, post: Bytes)
    requires |ip| == 4 && |np| == 8
    ensures WordAt(ReplyHead(options, ip, np) + post, 0) == options
  {
    hide Word, WordAt;
    WordBack([], options, ip + np + post);
    assert ReplyHead(options, ip, np) + post == [] + Word(options) + (ip + np + post);
  }

  lemma FewOptions(n: Scan, room: nat)
    requires Fits(n, room)
    ensures |Options(n)| < 0x1_0000_0000
  {
    hide Options, Total;
    TotalAtLeast(Options(n));
  }

  /** Whatever the scan found that fits the buffer, the interface gets to know it; and
      the options end where the event does. */
  lemma EndToEnd(n: Scan, ip: Bytes, np: Bytes, room: nat)
    requires StringsOk(n) && Fits(n, room) && |ip| == 4 && |np| == 8
    ensures var os := Options(n);
      && |os| < 0x1_0000_0000
      && var e := ReplyHead(|os|, ip, np) + EncodedAll(os);
      && WordAt(e, 0) == |os|
      && ReadAll(e, REPLY, WordAt(e, 0)) == Some((os, |e|))
      && Fold(NOTHING, os) == Expected(n)
  {
    hide Options, Word, WordAt, ReadAll, Fold, Expected, ReplyHead, Encoded, StringsOk, OptStrings;
    FewOptions(n, room);
    OptionsStrings(n);
    FoldOptions(n);
    var os := Options(n);
    var h := ReplyHead(|os|, ip, np);
    AllBack(h, os, []);
    assert h + EncodedAll(os) + [] == h + EncodedAll(os);
    HeadCount(|os|, ip, np, EncodedAll(os));
  }
}
