/**
 * Pieces shared by the two firmware loaders (hardware.c and
 * hardware_intel.c): what a call hands to the transport and the vendor
 * callbacks, the `FILE*` reads of a patch file, the command buffer that
 * bytes are written into through a pointer, and the bddata decoder.
 */
module HwCommon {
  import opened Bytes
  import opened Hci
  import opened Hex
  import opened Maybe

  /** What a call does to the outside world, in the order it does it. */
  datatype Effect =
    | Send(opcode: u16, awaits: Option<byte>, cmd: seq<byte>)  // xmit_cb: opcode, awaited event (hardware.c only), packet
    | ReleaseCommand                                           // dealloc of the command buffer
    | ReleaseEvent                                             // dealloc of the received event
    | FwCfg(ok: bool)                                          // fwcfg_cb(SUCCESS / FAIL)
    | DeregisterIntEvt                                         // int_evt_callback_dereg_cb
    | LpmCb(ok: bool)                                          // lpm_cb(SUCCESS / FAIL)
    | UpioLpmMode(asserted: bool)                              // upio_set(UPIO_LPM_MODE, ASSERT / DEASSERT)
    | ScoCfg(ok: bool)                                         // scocfg_cb(SUCCESS / FAIL)

  /** How many times `e` occurs in `es`. */
  function Occurrences(es: seq<Effect>, e: Effect): nat
  {
    if |es| == 0 then 0 else (if es[0] == e then 1 else 0) + Occurrences(es[1..], e)
  }

  /** How many commands `es` hands to the transport. */
  function CountSends(es: seq<Effect>): nat
  {
    if |es| == 0 then 0 else (if es[0].Send? then 1 else 0) + CountSends(es[1..])
  }

  lemma {:induction false} CountsAppend(a: seq<Effect>, b: seq<Effect>, e: Effect)
    ensures Occurrences(a + b, e) == Occurrences(a, e) + Occurrences(b, e)
    ensures CountSends(a + b) == CountSends(a) + CountSends(b)
  {
    if |a| > 0 {
      assert (a + b)[1..] == a[1..] + b;
      CountsAppend(a[1..], b, e);
    } else {
      assert a + b == b;
    }
  }

  /** Counting in a list by its first element. */
  lemma CountsCons(x: Effect, es: seq<Effect>)
    ensures forall e :: Occurrences([x] + es, e) == (if x == e then 1 else 0) + Occurrences(es, e)
    ensures CountSends([x] + es) == (if x.Send? then 1 else 0) + CountSends(es)
  {
    assert ([x] + es)[1..] == es;
  }

  /** Counting in lists of up to four effects, element by element. */
  lemma CountsOfList(a: Effect, b: Effect, c: Effect, d: Effect)
    ensures forall e :: Occurrences([a], e) == (if a == e then 1 else 0)
    ensures forall e :: Occurrences([a, b], e) == (if a == e then 1 else 0) + (if b == e then 1 else 0)
    ensures forall e :: Occurrences([a, b, c], e)
                     == (if a == e then 1 else 0) + (if b == e then 1 else 0) + (if c == e then 1 else 0)
    ensures forall e :: Occurrences([a, b, c, d], e)
                     == (if a == e then 1 else 0) + (if b == e then 1 else 0) + (if c == e then 1 else 0) + (if d == e then 1 else 0)
    ensures CountSends([a]) == (if a.Send? then 1 else 0)
    ensures CountSends([a, b]) == (if a.Send? then 1 else 0) + (if b.Send? then 1 else 0)
    ensures CountSends([a, b, c]) == (if a.Send? then 1 else 0) + (if b.Send? then 1 else 0) + (if c.Send? then 1 else 0)
    ensures CountSends([a, b, c, d])
         == (if a.Send? then 1 else 0) + (if b.Send? then 1 else 0) + (if c.Send? then 1 else 0) + (if d.Send? then 1 else 0)
  {
    CountsCons(d, []);
    CountsCons(c, [d]);
    CountsCons(b, [c, d]);
    CountsCons(a, [b, c, d]);
    CountsCons(c, []);
    CountsCons(b, [c]);
    CountsCons(a, [b, c]);
    CountsCons(b, []);
    CountsCons(a, [b]);
    CountsCons(a, []);
    assert [d] == [d] + [] && [c] == [c] + [] && [b] == [b] + [] && [a] == [a] + [];
    assert [c, d] == [c] + [d] && [b, c, d] == [b] + [c, d] && [a, b, c, d] == [a] + [b, c, d];
    assert [b, c] == [b] + [c] && [a, b, c] == [a] + [b, c] && [a, b] == [a] + [b];
  }

  /** An open `FILE*`: the bytes not read yet and its end-of-file indicator. */
  datatype Stream = Stream(rest: seq<byte>, eof: bool)

  /** `fopen(path, "rb")`: NULL unless the file exists. */
  function Fopen(files: map<string, seq<byte>>, path: string): Option<Stream>
  {
    if path in files then Some(Stream(files[path], false)) else None
  }

  /** What an `fread` delivered and the stream after it. */
  datatype Read = Read(data: seq<byte>, f: Stream)

  /**
   * `fread(buf, 1, n, f)`: as many of the next `n` bytes as there are; the
   * end-of-file indicator is set when fewer were available.
   */
  function Fread(f: Stream, n: nat): (r: Read)
    ensures |r.data| <= n && f.rest == r.data + r.f.rest
    ensures |r.data| == n || |r.f.rest| == 0
    ensures r.f.eof == (f.eof || |f.rest| < n)
  {
    if |f.rest| >= n then Read(f.rest[..n], Stream(f.rest[n..], f.eof))
    else Read(f.rest, Stream([], true))
  }

  const LineSize: nat := 1024

  /** Number of characters `fgets` transfers when at most `cap` are allowed. */
  function FgetsCount(rest: seq<byte>, cap: nat): (n: nat)
    ensures n <= |rest| && n <= cap
    ensures |rest| > 0 && cap > 0 ==> n > 0
    ensures forall i :: 0 <= i < n - 1 ==> rest[i] != '\n' as int
    ensures n < |rest| && n < cap ==> n > 0 && rest[n - 1] == '\n' as int
  {
    if cap == 0 || |rest| == 0 then 0
    else if rest[0] == '\n' as int then 1
    else 1 + FgetsCount(rest[1..], cap - 1)
  }

  /** What an `fgets` left in the line buffer and whether it returned non-NULL. */
  datatype LineRead = LineRead(got: bool, line: seq<byte>, f: Stream)

  /**
   * `fgets(line, 1024, f)`: at end of file it returns NULL and leaves the
   * buffer as it was; otherwise it copies up to and including the next
   * newline (at most 1023 characters) followed by a NUL.
   */
  function Fgets(f: Stream, line: seq<byte>): (r: LineRead)
    requires |line| == LineSize
    ensures |r.line| == LineSize
    ensures |f.rest| == 0 ==> r == LineRead(false, line, f.(eof := true))
    ensures |f.rest| > 0 ==> r.got && |r.f.rest| < |f.rest|
    ensures r.got ==> Strlen(r.line) < LineSize
  {
    if |f.rest| == 0 then LineRead(false, line, f.(eof := true))
    else
      var n := FgetsCount(f.rest, LineSize - 1);
      var hitEnd := n == |f.rest| && n < LineSize - 1 && f.rest[n - 1] != '\n' as int;
      var l := f.rest[..n] + [0] + line[n + 1..];
      assert l[n] == 0;
      LineRead(true, l, Stream(f.rest[n..], f.eof || hitEnd))
  }

  /** `strlen`: the index of the first NUL, or the whole length. */
  function Strlen(s: seq<byte>): (n: nat)
    ensures n <= |s|
    ensures n < |s| ==> s[n] == 0
    ensures forall i :: 0 <= i < n ==> s[i] != 0
  {
    if |s| == 0 then 0 else if s[0] == 0 then 0 else 1 + Strlen(s[1..])
  }

  /**
   * A transport buffer whose command area is written through a pointer
   * `p`; bytes written beyond the area are dropped.
   */
  class CmdBuffer {
    var data: array<byte>
    var p: nat
    /** Every byte written, in order, including any beyond the area. */
    ghost var written: seq<byte>

    ghost predicate Valid()
      reads this, data
    {
      p == |written| && data[..] == Take(written, data.Length)
    }

    /** A zero-filled buffer from the transport's `alloc`. */
    constructor(size: nat)
      ensures Valid() && written == [] && data.Length == size && fresh(data)
    {
      data := new byte[size](_ => 0);
      p := 0;
      written := [];
    }

    /** `*p++ = b` */
    method Put(b: byte)
      requires Valid()
      modifies this, data
      ensures Valid() && data == old(data) && written == old(written) + [b]
    {
      if p < data.Length {
        data[p] := b;
      }
      p := p + 1;
      written := written + [b];
    }

    /** `memcpy(p, bs, |bs|); p += |bs|`, also `UINT16_TO_STREAM` of two bytes. */
    method PutAll(bs: seq<byte>)
      requires Valid()
      modifies this, data
      ensures Valid() && data == old(data) && written == old(written) + bs
    {
      var i := 0;
      while i < |bs|
        invariant 0 <= i <= |bs|
        invariant Valid() && data == old(data)
        invariant written == old(written) + bs[..i]
      {
        Put(bs[i]);
        assert bs[..i + 1] == bs[..i] + [bs[i]];
        i := i + 1;
      }
      assert bs[..i] == bs;
    }

    /** The first `len` bytes of the area, the packet handed to `xmit_cb`. */
    method Frame(len: nat) returns (cmd: seq<byte>)
      requires Valid() && len <= data.Length
      ensures cmd == Take(written, len)
    {
      cmd := data[..len];
      assert forall i :: 0 <= i < len ==> cmd[i] == data[..][i];
    }
  }

  /**
   * A command written into the buffer as the cases write it: the opcode
   * (`UINT16_TO_STREAM`), the parameter length, then the parameters; the
   * packet handed on is the first 3 + length bytes.
   */
  method WriteCommand(buf: CmdBuffer, opcode: u16, params: seq<byte>) returns (cmd: seq<byte>)
    requires buf.Valid() && buf.written == [] && PreambleSize + |params| <= buf.data.Length && |params| < 256
    modifies buf, buf.data
    ensures cmd == Command(opcode, params)
    ensures buf.Valid() && buf.data == old(buf.data) && buf.written == cmd
  {
    buf.PutAll(LE16(opcode));
    buf.Put(|params|);
    buf.PutAll(params);
    cmd := buf.Frame(PreambleSize + |params|);
    TakeAll(buf.written);
  }

  /** The bddata file holds at most this many characters. */
  const BdDataReadMax: nat := 1024

  /** The bytes `open_bddata` writes for the file contents it reads. */
  function BdDataBytes(file: seq<byte>): (r: seq<byte>)
    ensures |r| == (if |file| < BdDataReadMax then |file| else BdDataReadMax) / 2
    ensures forall k :: 0 <= k < |r| ==> 2 * k + 1 < |file| && r[k] == FormByte(file[2 * k], file[2 * k + 1])
  {
    HexPairs(file[..if |file| < BdDataReadMax then |file| else BdDataReadMax])
  }

  /**
   * `open_bddata`: fails when the file cannot be opened; otherwise reads
   * up to 1024 characters and writes one byte per pair of them through
   * the write position `p`.
   */
  method OpenBddata(buf: CmdBuffer, file: Option<seq<byte>>) returns (ok: bool)
    requires buf.Valid()
    modifies buf, buf.data
    ensures buf.Valid() && buf.data == old(buf.data)
    ensures ok == file.Some?
    ensures buf.written == old(buf.written) + if ok then BdDataBytes(file.value) else []
  {
    if file.None? {
      return false;
    }
    var n := if |file.value| < BdDataReadMax then |file.value| else BdDataReadMax;
    var line := file.value[..n];
    ghost var start := buf.written;
    ghost var pairs: seq<byte> := [];
    var c: byte := 0;
    var i := 0;
    while i < |line|
      invariant 0 <= i <= |line|
      invariant buf.Valid() && buf.data == old(buf.data)
      invariant buf.written == start + pairs && 2 * |pairs| == i - i % 2
      invariant forall k :: 0 <= k < |pairs| ==> pairs[k] == FormByte(line[2 * k], line[2 * k + 1])
      invariant i % 2 == 1 ==> c == Shl4(CharToHex(line[i - 1]))
    {
      if i % 2 == 1 {
        c := Or8(c, CharToHex(line[i]));
        FormByteIsOr(line[i - 1], line[i]);
        assert 2 * |pairs| == i - 1;
        buf.Put(c);
        assert (start + pairs) + [c] == start + (pairs + [c]);
        pairs := pairs + [c];
      } else {
        c := Shl4(CharToHex(line[i]));
      }
      i := i + 1;
    }
    assert pairs == HexPairs(line);
    return true;
  }
}
