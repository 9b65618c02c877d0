/** The growing byte buffer of the resolver library. */
module VBufs {
  import opened Common

  /** buf[..used] is the contents. Whether the n-th enlargement succeeds is up to memory. */
  class VBuf {
    var buf: array<byte>
    var used: nat
    const memory: nat -> bool
    var asked: nat

    ghost predicate Valid()
      reads this
    {
      used <= buf.Length
    }

    function Contents(): seq<byte>
      reads this, buf
      requires Valid()
    {
      buf[..used]
    }

    constructor (m: nat -> bool)
      ensures Valid() && Contents() == [] && fresh(buf)
    {
      memory, asked, used := m, 0, 0;
      buf := new byte[0];
    }

    /** realloc, which keeps the bytes in use. */
    method Enlarge(size: nat) returns (ok: bool)
      requires Valid() && used <= size
      modifies this`buf, this`asked
      ensures Valid() && Contents() == old(Contents()) && asked == old(asked) + 1 && ok == memory(old(asked))
      ensures if ok then fresh(buf) && buf.Length == size else buf == old(buf)
    {
      ok := memory(asked);
      asked := asked + 1;
      if ok {
        var bigger := new byte[size](i requires 0 <= i < size reads this, buf => if i < buf.Length then buf[i] else 0);
        assert bigger[..used] == buf[..used];
        buf := bigger;
      }
    }

    /** adns__vbuf_ensure: room for want bytes in all. */
    method Ensure(want: nat) returns (ok: bool)
      requires Valid()
      modifies this`buf, this`asked
      ensures Valid() && Contents() == old(Contents())
      ensures if ok then want <= buf.Length else asked > 0 && !memory(asked - 1)
      ensures buf == old(buf) || fresh(buf)
    {
      if buf.Length >= want { return true; }
      ok := Enlarge(want);
    }

    /** adns__vbuf_append: the buffer is at least doubled, or if there is no memory for
        that made just big enough. It fails only if both fail, and then changes nothing. */
    method Append(data: seq<byte>) returns (ok: bool)
      requires Valid()
      modifies this, buf
      ensures Valid() && (buf == old(buf) || fresh(buf))
      ensures Contents() == if ok then old(Contents()) + data else old(Contents())
      ensures !ok ==> asked == old(asked) + 2 && !memory(old(asked)) && !memory(old(asked) + 1)
    {
      var newlen := used + |data|;
      if buf.Length < newlen {
        if newlen < 20 { newlen := 20; }
        newlen := newlen * 2;
        ok := Enlarge(newlen);
        if !ok {
          newlen := used + |data|;
          ok := Enlarge(newlen);
        }
        if !ok { return false; }
      }
      forall i | 0 <= i < |data| { buf[used + i] := data[i]; }
      used := used + |data|;
      ok := true;
    }

    /** vb->used = 0 */
    method Reset()
      requires Valid()
      modifies this`used
      ensures Valid() && Contents() == []
    {
      used := 0;
    }
  }
}
