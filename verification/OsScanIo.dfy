/** The agent's writer and the user interface's reader of an OS scan reply. */
module OsScanIo {
  import opened Common
  import opened OsScan

  /** Copies bytes into the buffer at p. */
  method Put(buf: array<byte>, p: nat, bytes: Bytes)
    requires p + |bytes| <= buf.Length
    modifies buf
    ensures buf[..p + |bytes|] == old(buf[..p]) + bytes
  {
    forall i | 0 <= i < |bytes| { buf[p + i] := bytes[i]; }
  }

  /** strcpy of a string that may be missing; len grows by its size. */
  method PutString(buf: array<byte>, p: nat, s: Option<Bytes>) returns (size: nat)
    requires p + |Text(s)| + 1 <= buf.Length
    modifies buf
    ensures size == |Text(s)| + 1 && buf[..p + size] == old(buf[..p]) + Text(s) + [0]
  {
    if s.Some? {
      Put(buf, p, s.value + [0]);
      assert buf[..p + |s.value| + 1] == old(buf[..p]) + s.value + [0];
      size := |s.value| + 1;
    } else {
      Put(buf, p, [0]);
      assert old(buf[..p]) + [] + [0] == old(buf[..p]) + [0];
      size := 1;
    }
  }

  /** Fills in the second word of the option at p, up to whose end len the buffer is written. */
  method SetLength(buf: array<byte>, p: nat, len: u32)
    requires 8 <= len && p + len <= buf.Length
    modifies buf
    ensures buf[..p + len] == old(buf[..p + len][..p + 4] + Word(len) + buf[..p + len][p + 8..p + len])
  {
    var w := Word(len);
    forall i | 0 <= i < 4 { buf[p + 4 + i] := w[i]; }
  }

  /** What writing the length over the second word of an option makes of it. */
  lemma LengthSet(was: Bytes, b: Bytes, t: u32, n: u32, len: u32, body: Bytes)
    requires b == was + (Word(t) + Word(n) + body) && len == 8 + |body|
    ensures b[..|was| + 4] + Word(len) + b[|was| + 8..|was| + len] == was + (Word(t) + Word(len) + body)
  {
    assert b[..|was| + 4] == was + Word(t);
    assert b[|was| + 8..|was| + len] == body;
  }

  /** One option: the length is only known, and written, when its body is there. */
  method PutOs(buf: array<byte>, p: nat, name: Bytes) returns (len: nat)
    requires p + Size(OsOpt(name)) <= buf.Length < 0x1_0000_0000
    modifies buf
    ensures len == Size(OsOpt(name)) && buf[..p + len] == old(buf[..p]) + Encoded(OsOpt(name))
  {
    hide Word;
    ghost var was := buf[..p];
    Put(buf, p, Word(1) + Word(0));
    var size := PutString(buf, p + 8, Some(name));
    len := 8 + size;
    assert buf[..p + len] == was + (Word(1) + Word(0) + (name + [0]));
    LengthSet(was, buf[..p + len], 1, 0, len, name + [0]);
    SetLength(buf, p, len);
  }

  lemma PortBytes(was: Bytes, h: Bytes, f: Bytes, s: Bytes, o: Bytes)
    ensures was + (h + f) + s + [0] + o + [0] == was + (h + (f + s + [0] + o + [0]))
  {
  }

  method PutPort(buf: array<byte>, p: nat, port: Port) returns (len: nat)
    requires p + Size(PortOpt(Entry(port.fields, Text(port.service), Text(port.owner)))) <= buf.Length < 0x1_0000_0000
    modifies buf
    ensures var o := PortOpt(Entry(port.fields, Text(port.service), Text(port.owner)));
      len == Size(o) && buf[..p + len] == old(buf[..p]) + Encoded(o)
  {
    hide Word, FieldBytes, Text;
    ghost var was := buf[..p];
    ghost var f := FieldBytes(port.fields);
    Put(buf, p, Word(2) + Word(0) + FieldBytes(port.fields));
    len := 36;
    var size := PutString(buf, p + len, port.service);
    len := len + size;
    size := PutString(buf, p + len, port.owner);
    len := len + size;
    PortBytes(was, Word(2) + Word(0), f, Text(port.service), Text(port.owner));
    ghost var body := f + Text(port.service) + [0] + Text(port.owner) + [0];
    LengthSet(was, buf[..p + len], 2, 0, len, body);
    SetLength(buf, p, len);
  }

  method PutUptime(buf: array<byte>, p: nat, u: Uptime) returns (len: nat)
    requires p + Size(UptimeOpt(u.seconds, Text(u.lastBoot))) <= buf.Length < 0x1_0000_0000
    modifies buf
    ensures var o := UptimeOpt(u.seconds, Text(u.lastBoot)); len == Size(o) && buf[..p + len] == old(buf[..p]) + Encoded(o)
  {
    hide Word, Text;
    ghost var was := buf[..p];
    Put(buf, p, Word(3) + Word(0) + Word(u.seconds));
    len := 12;
    var size := PutString(buf, p + len, u.lastBoot);
    len := len + size;
    ghost var body := Word(u.seconds) + Text(u.lastBoot) + [0];
    assert buf[..p + len] == was + (Word(3) + Word(0) + body);
    LengthSet(was, buf[..p + len], 3, 0, len, body);
    SetLength(buf, p, len);
  }

  lemma {:induction false} TotalFront(front: seq<Opt>, all: seq<Opt>)
    requires front <= all
    ensures Total(front) <= Total(all)
    decreases |all|
  {
    if |front| < |all| {
      var n := |all| - 1;
      TotalAppend(all[..n], all[n]);
      assert all == all[..n] + [all[n]];
      TotalFront(front, all[..n]);
    } else {
      assert front == all;
    }
  }

  lemma Room(done: seq<Opt>, o: Opt, all: seq<Opt>)
    requires done + [o] <= all
    ensures Total(done) + Size(o) <= Total(all)
    decreases |all|
  {
    TotalAppend(done, o);
    TotalFront(done + [o], all);
  }

  /** The options done so far are in the buffer, behind the room for the header. */
  ghost predicate Written(b: Bytes, done: seq<Opt>, all: seq<Opt>, length: nat) {
    && done <= all && Total(all) < 0x1_0000_0000 && length == HEADER + REPLY + Total(done) && length <= |b|
    && b[HEADER + REPLY..length] == (TotalFront(done, all); EncodedAll(done))
  }

  lemma WrittenOne(b: Bytes, b2: Bytes, done: seq<Opt>, all: seq<Opt>, o: Opt, length: nat)
    requires Written(b, done, all, length) && done + [o] <= all && Size(o) < 0x1_0000_0000
    requires length + Size(o) <= |b2| && b2[..length + Size(o)] == b[..length] + Encoded(o)
    ensures Written(b2, done + [o], all, length + Size(o))
  {
    hide Encoded, Size, EncodedAll, Total;
    TotalFront(done, all);
    TotalFront(done + [o], all);
    TotalAppend(done, o);
    var q := HEADER + REPLY;
    assert b2[q..length + Size(o)] == b2[..length + Size(o)][q..];
    assert b2[..length + Size(o)][q..] == b[q..length] + Encoded(o);
  }

  lemma NothingWritten(b: Bytes, all: seq<Opt>)
    requires Total(all) < 0x1_0000_0000 && HEADER + REPLY <= |b|
    ensures Written(b, [], all, HEADER + REPLY)
  {
  }

  lemma WrittenLength(b: Bytes, done: seq<Opt>, all: seq<Opt>, length: nat)
    requires Written(b, done, all, length)
    ensures length == HEADER + REPLY + Total(done) && length <= |b| && Total(done) < 0x1_0000_0000
    ensures b[HEADER + REPLY..length] == EncodedAll(done)
  {
    TotalFront(done, all);
  }

  function PortOpt1(p: Port): Opt { PortOpt(Entry(p.fields, Text(p.service), Text(p.owner))) }

  lemma EndParts(n: Scan)
    ensures if n.os.Some? then |OsOpts(n)| == 1 && OsOpts(n)[0] == OsOpt(n.os.value) else OsOpts(n) == []
    ensures if n.uptime.None? then UptimeOpts(n) == []
            else |UptimeOpts(n)| == 1 && UptimeOpts(n)[0] == UptimeOpt(n.uptime.value.seconds, Text(n.uptime.value.lastBoot))
  {
  }

  lemma PortPart(n: Scan, j: nat)
    requires j < |n.ports|
    ensures |OsOpts(n)| + j < |Options(n)| && Options(n)[|OsOpts(n)| + j] == PortOpt1(n.ports[j])
  {
    hide OsOpts, UptimeOpts, PortOpts, Text;
    assert Options(n)[|OsOpts(n)| + j] == PortOpts(n.ports)[j];
  }

  /** Where each option of a scan is among them all. */
  lemma OptionsParts(n: Scan)
    ensures var all, k := Options(n), if n.os.Some? then 1 else 0;
      && |all| == k + |n.ports| + (if n.uptime.Some? then 1 else 0)
      && (n.os.Some? ==> all[0] == OsOpt(n.os.value))
      && (forall j :: 0 <= j < |n.ports| ==> all[k + j] == PortOpt1(n.ports[j]))
      && (n.uptime.Some? ==> all[|all| - 1] == UptimeOpt(n.uptime.value.seconds, Text(n.uptime.value.lastBoot)))
  {
    hide OsOpts, UptimeOpts, PortOpts, PortOpt1, Text;
    EndParts(n);
    forall j: nat | j < |n.ports| ensures Options(n)[|OsOpts(n)| + j] == PortOpt1(n.ports[j]) { PortPart(n, j); }
  }

  /** The header goes before what has been written. */
  method PutFront(buf: array<byte>, head: Bytes, length: nat)
    requires |head| <= length <= buf.Length
    modifies buf
    ensures buf[..length] == head + old(buf[|head|..length])
  {
    forall i | 0 <= i < |head| { buf[i] := head[i]; }
  }

  /** The loop over the ports; the first k options are already written. */
  method SendPorts(buf: array<byte>, ports: seq<Port>, start: nat, ghost all: seq<Opt>, ghost k: nat) returns (length: nat)
    requires k + |ports| <= |all| && forall j :: 0 <= j < |ports| ==> all[k + j] == PortOpt1(ports[j])
    requires Written(buf[..], all[..k], all, start) && HEADER + REPLY + Total(all) <= buf.Length < 0x1_0000_0000
    modifies buf
    ensures Written(buf[..], all[..k + |ports|], all, length)
  {
    hide Encoded, EncodedAll, Total, Written, Text;
    length := start;
    for j := 0 to |ports|
      invariant Written(buf[..], all[..k + j], all, length)
    {
      ghost var done, o := all[..k + j], all[k + j];
      assert all[..k + j + 1] == done + [o];
      Room(done, o, all);
      ghost var b := buf[..];
      WrittenLength(b, done, all, length);
      var len := PutPort(buf, length, ports[j]);
      WrittenOne(b, buf[..], done, all, o, length);
      length := length + len;
    }
  }

  /** The option for the operating system, which comes first. */
  method SendOs(buf: array<byte>, os: Bytes, start: nat, ghost all: seq<Opt>) returns (length: nat)
    requires all != [] && all[0] == OsOpt(os) && Written(buf[..], [], all, start) && HEADER + REPLY + Total(all) <= buf.Length < 0x1_0000_0000
    modifies buf
    ensures Written(buf[..], all[..1], all, length)
  {
    hide Encoded, EncodedAll, Total, Written;
    ghost var o := OsOpt(os);
    assert all[..1] == [] + [o];
    Room([], o, all);
    ghost var b := buf[..];
    WrittenLength(b, [], all, start);
    var len := PutOs(buf, start, os);
    WrittenOne(b, buf[..], [], all, o, start);
    length := start + len;
  }

  /** The option for the time since the last boot, which comes last. */
  method SendUptime(buf: array<byte>, u: Uptime, start: nat, ghost all: seq<Opt>) returns (length: nat)
    requires all != [] && all[|all| - 1] == UptimeOpt(u.seconds, Text(u.lastBoot))
    requires Written(buf[..], all[..|all| - 1], all, start) && HEADER + REPLY + Total(all) <= buf.Length < 0x1_0000_0000
    modifies buf
    ensures Written(buf[..], all, all, length)
  {
    hide Encoded, EncodedAll, Total, Written, Text;
    ghost var done, o := all[..|all| - 1], all[|all| - 1];
    assert all == done + [o];
    Room(done, o, all);
    ghost var b := buf[..];
    WrittenLength(b, done, all, start);
    var len := PutUptime(buf, start, u);
    WrittenOne(b, buf[..], done, all, o, start);
    length := start + len;
  }

  /** All the options, from the place after the reply's head on. */
  method SendOptions(buf: array<byte>, n: Scan) returns (options: nat, length: nat)
    requires Fits(n, buf.Length)
    modifies buf
    ensures options == |Options(n)| && Written(buf[..], Options(n), Options(n), length)
  {
    hide Encoded, EncodedAll, Total, Written, Options, PortOpts, Text;
    ghost var all := Options(n);
    OptionsParts(n);
    NothingWritten(buf[..], all);
    length := HEADER + REPLY;
    options := 0;
    assert all[..0] == [];
    if n.os.Some? {
      length := SendOs(buf, n.os.value, length, all);
      options := 1;
    }
    length := SendPorts(buf, n.ports, length, all, options);
    options := options + |n.ports|;
    assert all[..|all|] == all;
    if n.uptime.Some? {
      length := SendUptime(buf, n.uptime.value, length, all);
      options := options + 1;
    }
  }

  /** send_osscan_reply, into a buffer the reply fits. */
  method SendReply(buf: array<byte>, n: Scan, ip: Bytes, np: Bytes) returns (options: nat, length: nat)
    requires Fits(n, buf.Length) && |ip| == 4 && |np| == 8
    modifies buf
    ensures options == |Options(n)| && length == HEADER + REPLY + Total(Options(n)) && options < 0x1_0000_0000
    ensures buf[..length] == EventHeader(length) + ReplyHead(options, ip, np) + EncodedAll(Options(n))
  {
    hide Encoded, EncodedAll, Total, Written, Options, EventHeader, ReplyHead;
    ghost var all := Options(n);
    options, length := SendOptions(buf, n);
    WrittenLength(buf[..], all, all, length);
    TotalAtLeast(all);
    PutFront(buf, EventHeader(length) + ReplyHead(options, ip, np), length);
  }

  // ---- Reading ----

  /** strdup of the string at p. */
  method CopyString(d: Bytes, p: nat) returns (s: Bytes)
    requires StringAt(d, p).Some?
    ensures StringAt(d, p) == Some(s)
  {
    var q := p;
    s := [];
    assert [] + StringAt(d, p).value == StringAt(d, p).value;
    while d[q] != 0
      invariant p <= q < |d| && StringAt(d, q).Some?
      invariant StringAt(d, p) == Some(s + StringAt(d, q).value)
      decreases |d| - q
    {
      assert s + ([d[q]] + StringAt(d, q + 1).value) == (s + [d[q]]) + StringAt(d, q + 1).value;
      s := s + [d[q]];
      q := q + 1;
    }
    assert s + [] == s;
  }

  /** The switch over one option's type. */
  method HandleOption(d: Bytes, p: nat, s: Stats) returns (r: Stats)
    requires ReadOpt(d, p).Some?
    ensures r == Apply(s, ReadOpt(d, p).value)
  {
    r := s;
    var t := WordAt(d, p);
    if t == 1 {
      var name := CopyString(d, p + 8);
      r := r.(os := Some(name));
    } else if t == 3 {
      r := r.(seconds := WordAt(d, p + 8));
      var boot := CopyString(d, p + 12);
      if |boot| != 0 { r := r.(lastBoot := Some(boot)); }
    } else if t == 2 {
      var name := CopyString(d, p + 36);
      var owner := CopyString(d, p + 36 + |name| + 1);
      r := r.(ports := [Entry(FieldsAt(d, p + 8), name, owner)] + r.ports);
    }
  }

  lemma ReadNext(d: Bytes, p: nat, n: nat)
    requires n > 0 && ReadAll(d, p, n).Some?
    ensures ReadOpt(d, p).Some? && p + 8 <= |d| && ReadAll(d, p + WordAt(d, p + 4), n - 1).Some?
    ensures ReadAll(d, p, n).value.0 == [ReadOpt(d, p).value] + ReadAll(d, p + WordAt(d, p + 4), n - 1).value.0
    ensures ReadAll(d, p, n).value.1 == ReadAll(d, p + WordAt(d, p + 4), n - 1).value.1
  {
  }

  lemma ReadNothing(d: Bytes, p: nat)
    ensures ReadAll(d, p, 0) == Some(([], p))
  {
  }

  /** handle_os_scan_reply, on an event without its header; the host is on the page. */
  method HandleReply(d: Bytes) returns (r: Stats, end: nat)
    requires |d| >= REPLY && ReadAll(d, REPLY, WordAt(d, 0)).Some?
    ensures r == Fold(NOTHING, ReadAll(d, REPLY, WordAt(d, 0)).value.0)
    ensures end == ReadAll(d, REPLY, WordAt(d, 0)).value.1
  {
    hide ReadOpt, ReadAll, WordAt;
    var j := WordAt(d, 0);
    var ptr: nat := REPLY;
    r := NOTHING;
    ghost var all := ReadAll(d, REPLY, j).value;
    for i := 0 to j
      invariant ReadAll(d, ptr, j - i).Some? && ReadAll(d, ptr, j - i).value.1 == all.1
      invariant Fold(NOTHING, all.0) == Fold(r, ReadAll(d, ptr, j - i).value.0)
    {
      ReadNext(d, ptr, j - i);
      ghost var rest := ReadAll(d, ptr, j - i).value.0;
      assert rest[1..] == ReadAll(d, ptr + WordAt(d, ptr + 4), j - i - 1).value.0;
      r := HandleOption(d, ptr, r);
      ptr := ptr + WordAt(d, ptr + 4);
    }
    ReadNothing(d, ptr);
    end := ptr;
  }

  /** A reply that has been sent and is handled: the interface knows what the scan
      found, and has read exactly the event. */
  method SendAndHandle(buf: array<byte>, n: Scan, ip: Bytes, np: Bytes) returns (r: Stats)
    requires Fits(n, buf.Length) && StringsOk(n) && |ip| == 4 && |np| == 8
    modifies buf
    ensures r == Expected(n)
  {
    hide ReadAll, WordAt, Fold, Options, EncodedAll, ReplyHead, Expected, StringsOk;
    var options, length := SendReply(buf, n, ip, np);
    var event := buf[HEADER..length];
    assert event == buf[..length][HEADER..];
    assert event == ReplyHead(options, ip, np) + EncodedAll(Options(n));
    EndToEnd(n, ip, np, buf.Length);
    var end;
    r, end := HandleReply(event);
    assert end == |event|;
  }
}
