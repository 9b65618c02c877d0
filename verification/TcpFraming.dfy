/**
 Receiving over TCP. Every DNS message is sent after a two-byte length, and a
 read may return any part of the stream, so messages are put together in a
 buffer. This module says what the messages of a stream are and proves the
 receive loop right for every way the stream is cut into reads.
 */
module TcpFraming {
  import opened Common
  import opened VBufs

  type Bytes = seq<byte>

  // ---- The messages of a stream ----

  function FrameLength(s: Bytes): nat
    requires |s| >= 2
  {
    s[0] as int * 256 + s[1] as int
  }

  predicate HasFrame(s: Bytes) { |s| >= 2 && |s| >= 2 + FrameLength(s) }

  /** The complete messages at the front of s. */
  function Frames(s: Bytes): (r: seq<Bytes>) {
    if HasFrame(s) then [s[2..2 + FrameLength(s)]] + Frames(s[2 + FrameLength(s)..]) else []
  }

  /** What is left of s after its complete messages. */
  function Rest(s: Bytes): (r: Bytes)
    ensures !HasFrame(r)
  {
    if HasFrame(s) then Rest(s[2 + FrameLength(s)..]) else s
  }

  /** The stream a sender makes of messages. */
  function Stream(ms: seq<Bytes>): Bytes
    requires forall m :: m in ms ==> |m| < 0x1_0000
  {
    if ms == [] then [] else [|ms[0]| / 256, |ms[0]| % 256] + ms[0] + Stream(ms[1..])
  }

  /** A sender's messages come out of the stream again, with whatever incomplete
      message follows left over. */
  lemma {:induction false} FramesOfStream(ms: seq<Bytes>, r: Bytes)
    requires (forall m :: m in ms ==> |m| < 0x1_0000) && !HasFrame(r)
    ensures Frames(Stream(ms) + r) == ms && Rest(Stream(ms) + r) == r
  {
    if ms == [] {
      assert Stream(ms) + r == r;
    } else {
      var s := Stream(ms) + r;
      var n := |ms[0]|;
      assert s[0] == n / 256 && s[1] == n % 256 && FrameLength(s) == n;
      assert s[2..2 + n] == ms[0];
      assert s[2 + n..] == Stream(ms[1..]) + r;
      FramesOfStream(ms[1..], r);
      assert ms == [ms[0]] + ms[1..];
    }
  }

  lemma LengthBytes(a: byte, b: byte)
    ensures var n := a as int * 256 + b as int; n < 0x1_0000 && n / 256 == a as int && n % 256 == b as int
  {
  }

  lemma StreamNothing()
    ensures Stream([]) == []
  {
  }

  lemma StreamCons(m: Bytes, ms: seq<Bytes>)
    requires |m| < 0x1_0000 && forall x :: x in ms ==> |x| < 0x1_0000
    ensures (forall x :: x in [m] + ms ==> |x| < 0x1_0000) && Stream([m] + ms) == [|m| / 256, |m| % 256] + m + Stream(ms)
  {
    assert ([m] + ms)[1..] == ms;
  }

  lemma TakeFrame(q: Bytes)
    requires HasFrame(q)
    ensures Frames(q) == [q[2..2 + FrameLength(q)]] + Frames(q[2 + FrameLength(q)..])
    ensures Rest(q) == Rest(q[2 + FrameLength(q)..])
  {
  }

  lemma NoFrame(q: Bytes)
    requires !HasFrame(q)
    ensures Frames(q) == [] && Rest(q) == q
  {
  }

  /** Nothing of the stream is lost or made up. */
  lemma {:induction false} StreamOfFrames(s: Bytes)
    ensures forall m :: m in Frames(s) ==> |m| < 0x1_0000
    ensures Stream(Frames(s)) + Rest(s) == s
  {
    hide Stream, Frames, Rest;
    if HasFrame(s) {
      var n := FrameLength(s);
      var m, t := s[2..2 + n], s[2 + n..];
      LengthBytes(s[0], s[1]);
      StreamOfFrames(t);
      TakeFrame(s);
      StreamCons(m, Frames(t));
      assert s == [s[0], s[1]] + m + t;
    } else {
      NoFrame(s);
      StreamNothing();
    }
  }

  /** Messages may be split off as the stream arrives. */
  lemma {:induction false} FramesAppend(a: Bytes, b: Bytes)
    ensures Frames(a + b) == Frames(a) + Frames(Rest(a) + b)
    ensures Rest(a + b) == Rest(Rest(a) + b)
  {
    hide Frames, Rest;
    if HasFrame(a) {
      var n := FrameLength(a);
      assert FrameLength(a + b) == n;
      assert (a + b)[2..2 + n] == a[2..2 + n];
      assert (a + b)[2 + n..] == a[2 + n..] + b;
      TakeFrame(a);
      TakeFrame(a + b);
      FramesAppend(a[2 + n..], b);
    } else {
      NoFrame(a);
    }
  }

  lemma SliceOfSlice(b: Bytes, i: nat, j: nat, x: nat, y: nat)
    requires i <= j <= |b| && x <= y <= j - i
    ensures b[i..j][x..y] == b[i + x..i + y]
  {
    var w := b[i..j];
    assert |w[x..y]| == |b[i + x..i + y]|;
    forall k | 0 <= k < y - x
      ensures w[x..y][k] == b[i + x..i + y][k]
    {
      assert w[x..y][k] == w[x + k] == b[i + (x + k)];
    }
  }

  // ---- The socket ----

  /** What the next read meets. */
  datatype Arrival = Data(bytes: Bytes) | Again | Interrupted | NoResources | Failed | Closed

  datatype ReadResult = Got(bytes: Bytes) | WouldBlock | WasInterrupted | OutOfResources | Error | EndOfStream

  function BytesOf(q: seq<Arrival>): Bytes {
    if q == [] then [] else (if q[0].Data? then q[0].bytes else []) + BytesOf(q[1..])
  }

  function Load(q: seq<Arrival>): nat {
    if q == [] then 0 else 1 + (if q[0].Data? then |q[0].bytes| else 0) + Load(q[1..])
  }

  /** A connected socket with what is going to arrive on it. */
  class Socket {
    var script: seq<Arrival>

    constructor (q: seq<Arrival>)
      ensures script == q
    {
      script := q;
    }

    /** read: at most room bytes, and at least one if it gets any. */
    method Read(room: nat) returns (r: ReadResult)
      requires room > 0
      modifies this
      ensures BytesOf(old(script)) == (if r.Got? then r.bytes else []) + BytesOf(script)
      ensures r.Got? ==> 0 < |r.bytes| <= room
      ensures old(script) != [] ==> Load(script) < Load(old(script))
      ensures old(script) == [] ==> r.WouldBlock? && script == []
      ensures r.OutOfResources? <==> old(script) != [] && old(script)[0].NoResources?
      ensures r.Error? || r.EndOfStream? <==> old(script) != [] && (old(script)[0].Failed? || old(script)[0].Closed?)
    {
      if script == [] { return WouldBlock; }
      var a := script[0];
      match a {
        case Again => r := WouldBlock;
        case Interrupted => r := WasInterrupted;
        case NoResources => r := OutOfResources;
        case Failed => r := Error;
        case Closed => r := EndOfStream;
        case Data(bytes) =>
          if bytes == [] { r := WasInterrupted; }
          else if |bytes| <= room { r := Got(bytes); }
          else {
            r := Got(bytes[..room]);
            script := [Data(bytes[room..])] + script[1..];
            assert bytes == bytes[..room] + bytes[room..];
            return;
          }
      }
      script := script[1..];
    }
  }

  // ---- The receive loop ----

  datatype Outcome = Ok | NoMemory | Resources

  /** The receiving half of the resolver's TCP connection. */
  class Receiver {
    var open: bool
    const recv: VBuf
    var skip: nat
    // Whether handling the n-th message breaks the connection.
    const breaks: nat -> bool
    var handled: nat
    ghost var stream: Bytes
    ghost var delivered: seq<Bytes>

    /** No message but the last has broken the connection, and the last has not
        either as long as it is open. */
    ghost predicate Unbroken()
      reads this`handled, this`delivered, this`open
    {
      handled == |delivered| && forall i :: 0 <= i < handled && (open || i < handled - 1) ==> !breaks(i)
    }

    /** The state between two calls: what has been delivered is exactly the messages
        of the stream, and what is buffered exactly the rest. Only a message that
        broke the connection leaves messages after it undelivered. */
    ghost predicate Valid()
      reads this, recv, recv.buf
    {
      && skip == 0 && recv.used <= recv.buf.Length && Unbroken()
      && (open ==> delivered == Frames(stream) && recv.buf[..recv.used] == Rest(stream))
      && (!open ==> recv.used == 0 && delivered <= Frames(stream))
      && (!open && delivered != Frames(stream) ==> handled > 0 && breaks(handled - 1))
    }

    constructor (b: nat -> bool, m: nat -> bool)
      ensures Valid() && open && stream == [] && delivered == [] && fresh(recv) && fresh(recv.buf)
    {
      breaks := b;
      recv := new VBuf(m);
      open, skip, handled := true, 0, 0;
      stream, delivered := [], [];
    }

    /** The state at the head of the loop. */
    ghost predicate Running()
      reads this, recv, recv.buf
    {
      && open && skip <= recv.used <= recv.buf.Length && Unbroken()
      && Frames(stream) == delivered + Frames(recv.buf[skip..recv.used])
      && Rest(stream) == Rest(recv.buf[skip..recv.used])
    }

    method Close()
      modifies this`open, recv`used, this`skip
      ensures !open && recv.used == 0 && skip == 0
    {
      recv.used := 0;
      open, skip := false, 0;
    }

    /** Moves what is not consumed to the front. */
    method Compact()
      requires skip <= recv.used <= recv.buf.Length
      modifies recv`used, this`skip, recv.buf
      ensures skip == 0 && recv.used == old(recv.used) - old(skip) && recv.buf[..recv.used] == old(recv.buf[skip..recv.used])
    {
      recv.used := recv.used - skip;
      forall i | 0 <= i < recv.used { recv.buf[i] := recv.buf[i + skip]; }
      skip := 0;
    }

    /** adns__procdgram is given a message in the buffer. It may break the connection. */
    method Deliver(start: nat, length: nat) returns (broken: bool)
      requires open && start + length <= recv.used <= recv.buf.Length
      modifies this`open, recv`used, this`skip, this`handled, this`delivered
      ensures delivered == old(delivered) + [recv.buf[start..start + length]]
      ensures broken == breaks(old(handled)) && handled == old(handled) + 1
      ensures if broken then !open && recv.used == 0 && skip == 0 else open && recv.used == old(recv.used) && skip == old(skip)
    {
      delivered := delivered + [recv.buf[start..start + length]];
      broken := breaks(handled);
      handled := handled + 1;
      if broken { Close(); }
    }

    /** What a read puts after the bytes in the buffer. */
    method Append(bytes: Bytes)
      requires recv.used + |bytes| <= recv.buf.Length
      modifies recv`used, this`stream, recv.buf
      ensures recv.used == old(recv.used) + |bytes| && stream == old(stream) + bytes
      ensures recv.buf[..recv.used] == old(recv.buf[..recv.used]) + bytes
    {
      forall i | 0 <= i < |bytes| { recv.buf[recv.used + i] := bytes[i]; }
      recv.used := recv.used + |bytes|;
      stream := stream + bytes;
    }

    /** The first half of the loop: a complete message is handed on. Otherwise want
        is the room its next part needs. */
    method TakeMessage() returns (taken: bool, want: nat)
      requires Running()
      modifies this`open, recv`used, this`skip, this`handled, this`delivered
      ensures old(delivered) <= delivered
      ensures taken ==> (if open then Running() else Valid()) && recv.used - skip < old(recv.used - skip)
      ensures !taken ==> Running() && |recv.buf[skip..recv.used]| < want && !HasFrame(recv.buf[skip..recv.used])
    {
      hide Frames, Rest;
      ghost var q := recv.buf[skip..recv.used];
      if recv.used >= skip + 2 {
        var length := recv.buf[skip] as int * 256 + recv.buf[skip + 1] as int;
        if recv.used >= skip + 2 + length {
          TakeFrame(q);
          var oldSkip := skip;
          ghost var b := recv.buf[..];
          SliceOfSlice(b, oldSkip, recv.used, 2, 2 + length);
          SliceOfSlice(b, oldSkip, recv.used, 2 + length, recv.used - oldSkip);
          skip := skip + 2 + length;
          assert q == b[oldSkip..recv.used] && q[2 + length..] == q[2 + length..recv.used - oldSkip];
          var _ := Deliver(oldSkip + 2, length);
          return true, 0;
        }
        return false, 2 + length;
      }
      return false, 2;
    }

    /** The buffer is moved up and made big enough. */
    method MakeRoom(want: nat) returns (ok: bool)
      requires Running() && |recv.buf[skip..recv.used]| < want && !HasFrame(recv.buf[skip..recv.used])
      modifies recv`used, this`skip, recv`buf, recv`asked, recv.buf
      ensures Valid() && open && (recv.buf == old(recv.buf) || fresh(recv.buf)) && recv.buf[..recv.used] == old(recv.buf[skip..recv.used])
      ensures if ok then recv.used < recv.buf.Length else recv.asked > 0 && !recv.memory(recv.asked - 1)
    {
      hide Frames, Rest, HasFrame, Unbroken;
      NoFrame(recv.buf[skip..recv.used]);
      Compact();
      ok := recv.Ensure(want);
    }

    /** With no whole message buffered, the state between two calls is that at the head of the loop. */
    lemma AtHead()
      requires Valid() && open && !HasFrame(recv.buf[..recv.used])
      ensures Running()
    {
      hide HasFrame;
      NoFrame(recv.buf[..recv.used]);
      assert recv.buf[skip..recv.used] == recv.buf[..recv.used];
      assert delivered + [] == delivered;
      hide Frames, Rest;
    }

    /** What was read goes behind what is buffered. */
    method Receive(bytes: Bytes)
      requires Valid() && open && !HasFrame(recv.buf[..recv.used]) && recv.used + |bytes| <= recv.buf.Length
      modifies recv`used, this`stream, recv.buf
      ensures Running() && stream == old(stream) + bytes
    {
      hide Frames, Rest, HasFrame, Unbroken;
      ghost var q := recv.buf[..recv.used];
      NoFrame(q);
      FramesAppend(stream, bytes);
      Append(bytes);
      assert recv.buf[skip..recv.used] == q + bytes;
    }

    method GiveUp()
      requires Valid() && open
      modifies this`open, recv`used, this`skip
      ensures Valid() && !open
    {
      hide Frames, Rest;
      Close();
    }

    /** The second half: the buffer is moved up, made big enough, and read into. */
    method ReadMore(socket: Socket, want: nat) returns (r: Option<Outcome>)
      requires Running() && |recv.buf[skip..recv.used]| < want && !HasFrame(recv.buf[skip..recv.used])
      modifies this`open, recv`used, this`skip, recv`buf, this`stream, recv`asked, recv.buf, socket
      ensures stream + BytesOf(socket.script) == old(stream + BytesOf(socket.script)) && old(stream) <= stream
      ensures recv.buf == old(recv.buf) || fresh(recv.buf)
      ensures r == None ==> Running() && Load(socket.script) < old(Load(socket.script))
      ensures r != None ==> Valid() && Load(socket.script) <= old(Load(socket.script))
      ensures r == Some(Ok) && open && old(socket.script) != [] ==> Load(socket.script) < old(Load(socket.script))
      ensures r == Some(NoMemory) ==> open && socket.script == old(socket.script) && recv.asked > 0 && !recv.memory(recv.asked - 1)
      ensures r == Some(Resources) ==> open && old(socket.script) != [] && old(socket.script)[0].NoResources?
      ensures !open ==> r == Some(Ok) && old(socket.script) != [] && (old(socket.script)[0].Failed? || old(socket.script)[0].Closed?)
    {
      hide Frames, Rest, BytesOf, Load, HasFrame, Unbroken, Running;
      var ok := MakeRoom(want);
      if !ok { return Some(NoMemory); }
      var got := socket.Read(recv.buf.Length - recv.used);
      match got {
        case Got(bytes) =>
          Receive(bytes);
          assert stream + BytesOf(socket.script) == old(stream) + (bytes + BytesOf(socket.script));
          return None;
        case WouldBlock => return Some(Ok);
        case WasInterrupted =>
          AtHead();
          return None;
        case OutOfResources => return Some(Resources);
        case Error => GiveUp(); return Some(Ok);
        case EndOfStream => GiveUp(); return Some(Ok);
      }
    }

    /** The TCP part of adns_processreadable. */
    method ProcessReadable(socket: Socket) returns (r: Outcome)
      requires Valid() && open
      modifies this, recv, recv.buf, socket
      ensures Valid() && skip == 0
      ensures old(delivered) <= delivered
      ensures stream + BytesOf(socket.script) == old(stream + BytesOf(socket.script)) && old(stream) <= stream
      ensures open && r == Ok && old(socket.script) != [] ==> Load(socket.script) < old(Load(socket.script))
      ensures r == NoMemory ==> recv.asked > 0 && !recv.memory(recv.asked - 1)
      ensures r != Ok ==> open
      ensures recv.buf == old(recv.buf) || fresh(recv.buf)
    {
      hide Frames, Rest, BytesOf, Load, HasFrame;
      assert recv.buf[0..recv.used] == recv.buf[..recv.used];
      NoFrame(recv.buf[..recv.used]);
      r := Ok;
      while open
        invariant if open then Running() else Valid()
        invariant old(delivered) <= delivered && old(stream) <= stream
        invariant stream + BytesOf(socket.script) == old(stream + BytesOf(socket.script))
        invariant socket.script == old(socket.script) || Load(socket.script) < old(Load(socket.script))
        invariant recv.buf == old(recv.buf) || fresh(recv.buf)
        decreases Load(socket.script), recv.used - skip
      {
        var taken, want := TakeMessage();
        if !taken {
          var done := ReadMore(socket, want);
          if done != None { return done.value; }
        }
      }
    }
  }
}
