/**
 * Streaming a binary patch file to the controller, shared by both
 * loaders. The file is a sequence of records, each a little-endian 32-bit
 * address, a 32-bit byte count and that many bytes, ended by the address
 * 0xFFFFFFFF. Every call either reads a record header (state DL_FW_PATCH)
 * and falls through, or sends the next at most 244 bytes of the current
 * record as one memory-write command (state DL_FW_PATCH1).
 */
module PatchDownload {
  import opened Bytes
  import opened Hci
  import opened HwCommon

  const PatchMaxLength: nat := 244
  const MemWriteModeByte: byte := 0
  /** The address that marks the end of the patch. */
  const EndAddress: u32 := 0xFFFF_FFFF
  /** `is_patch_enabled` once the end marker has been read. */
  const PatchEnabled: byte := 2

  /** The memory-write command: address, mode, count, then the bytes. */
  function MemWriteCommand(address: u32, data: seq<byte>): (cmd: seq<byte>)
    requires |data| <= PatchMaxLength
    ensures cmd == Command(OpInfMemWrite, LE32(address) + [MemWriteModeByte, |data|] + data)
    ensures |cmd| == 9 + |data| && cmd[2] == 6 + |data|
  {
    LE16(OpInfMemWrite) + [6 + |data|] + LE32(address) + [MemWriteModeByte, |data|] + data
  }

  /** How a download call ends: the goto to manufacture-off, the abort path, or a command sent. */
  datatype DlOutcome = ToManufactureOff | Abort | Write(cmd: seq<byte>, more: bool)

  /** The outcome and the control-block fields it leaves behind. */
  datatype DlStep = DlStep(outcome: DlOutcome, isPatchEnabled: byte, address: u32, nrOfBytes: u32, f: Stream)

  function Min(a: nat, b: nat): nat
  {
    if a < b then a else b
  }

  /** DL_FW_PATCH1 with `nr` bytes of the current record still to send. */
  function ChunkStep(f: Stream, pe: byte, address: u32, nr: u32): (s: DlStep)
    ensures |s.f.rest| <= |f.rest|
    ensures s.outcome.Write? ==> |s.f.rest| < |f.rest|
  {
    if nr == 0 then DlStep(Abort, pe, address, nr, f)
    else
      var k := Min(nr, PatchMaxLength);
      var d := Fread(f, k);
      if |d.data| < k then DlStep(Abort, pe, address, nr, d.f)
      else
        var left := nr - k;
        var next := if left > 0 then (address + k) % U32Modulus else address;
        DlStep(Write(MemWriteCommand(address, d.data), left > 0), pe, next, left, d.f)
  }

  /** DL_FW_PATCH: read the next record header, then fall through into DL_FW_PATCH1. */
  function HeaderStep(f: Stream, pe: byte, address: u32, nr: u32): (s: DlStep)
    ensures |s.f.rest| <= |f.rest|
    ensures s.outcome.Write? ==> |s.f.rest| < |f.rest|
  {
    var a := Fread(f, 4);
    var addr := OverlayLE32(address, a.data);
    if |a.data| == 0 then DlStep(ToManufactureOff, pe, addr, nr, a.f)
    else if addr == EndAddress then DlStep(ToManufactureOff, PatchEnabled, addr, nr, a.f)
    else LengthStep(a.f, pe, addr, nr)
  }

  /** The second half of a record header: its length, then the first chunk. */
  function LengthStep(f: Stream, pe: byte, address: u32, nr: u32): (s: DlStep)
    ensures |s.f.rest| <= |f.rest|
    ensures s.outcome.Write? ==> |s.f.rest| < |f.rest|
  {
    var b := Fread(f, 4);
    var n := OverlayLE32(nr, b.data);
    if |b.data| == 0 then DlStep(ToManufactureOff, pe, address, n, b.f)
    else ChunkStep(b.f, pe, address, n)
  }

  /** One call of the download, from a header (`atHeader`) or inside a record. */
  function DownloadCall(f: Stream, pe: byte, address: u32, nr: u32, atHeader: bool): (s: DlStep)
    ensures s.outcome.Write? ==> |s.f.rest| < |f.rest|
  {
    if atHeader then HeaderStep(f, pe, address, nr) else ChunkStep(f, pe, address, nr)
  }

  /** The memory-write command written field by field into the buffer. */
  method WriteMemCommand(buf: CmdBuffer, address: u32, data: seq<byte>) returns (cmd: seq<byte>)
    requires buf.Valid() && buf.written == [] && buf.data.Length == CmdMaxLen && |data| <= PatchMaxLength
    modifies buf, buf.data
    ensures cmd == MemWriteCommand(address, data)
    ensures buf.Valid() && buf.data == old(buf.data) && buf.written == cmd
  {
    buf.PutAll(LE16(OpInfMemWrite));
    buf.Put(6 + |data|);
    buf.PutAll(LE32(address));
    buf.Put(MemWriteModeByte);
    buf.Put(|data|);
    buf.PutAll(data);
    cmd := buf.Frame(PreambleSize + 6 + |data|);
    TakeAll(buf.written);
  }

  /**
   * One download call on the open patch file, as both loaders perform it:
   * `fread` into the address and count fields, then at most one
   * memory-write command written into the buffer. A call that sends
   * nothing leaves the buffer untouched.
   */
  method DownloadStep(buf: CmdBuffer, f: Stream, pe: byte, address: u32, nr: u32, atHeader: bool) returns (s: DlStep)
    requires buf.Valid() && buf.written == [] && buf.data.Length == CmdMaxLen
    modifies buf, buf.data
    ensures buf.Valid() && buf.data == old(buf.data)
    ensures s == DownloadCall(f, pe, address, nr, atHeader)
    ensures s.outcome.Write? || buf.written == []
  {
    if !atHeader {
      s := SendChunk(buf, f, pe, address, nr);
      return;
    }
    var a := Fread(f, 4);
    var addr := OverlayLE32(address, a.data);
    if |a.data| == 0 {
      return DlStep(ToManufactureOff, pe, addr, nr, a.f);
    }
    if addr == EndAddress {
      return DlStep(ToManufactureOff, PatchEnabled, addr, nr, a.f);
    }
    var b := Fread(a.f, 4);
    var n := OverlayLE32(nr, b.data);
    if |b.data| == 0 {
      return DlStep(ToManufactureOff, pe, addr, n, b.f);
    }
    s := SendChunk(buf, b.f, pe, addr, n);
  }

  /** DL_FW_PATCH1: read the next at most 244 bytes of the record and write them as one command. */
  method SendChunk(buf: CmdBuffer, f: Stream, pe: byte, address: u32, nr: u32) returns (s: DlStep)
    requires buf.Valid() && buf.written == [] && buf.data.Length == CmdMaxLen
    modifies buf, buf.data
    ensures buf.Valid() && buf.data == old(buf.data)
    ensures s == ChunkStep(f, pe, address, nr)
    ensures s.outcome.Write? || buf.written == []
  {
    if nr == 0 {
      return DlStep(Abort, pe, address, nr, f);
    }
    var k := Min(nr, PatchMaxLength);
    var d := Fread(f, k);
    if |d.data| < k {
      return DlStep(Abort, pe, address, nr, d.f);
    }
    var cmd := WriteMemCommand(buf, address, d.data);
    var left := nr - k;
    var next := address;
    if left > 0 {
      next := (address + k) % U32Modulus;
    }
    s := DlStep(Write(cmd, left > 0), pe, next, left, d.f);
  }

  /** The commands a download sends when every one is accepted, and how it ends. */
  datatype Transfer = Transfer(writes: seq<seq<byte>>, completed: bool, isPatchEnabled: byte)

  /** Successive download calls until one ends without sending. */
  function Download(f: Stream, pe: byte, address: u32, nr: u32, atHeader: bool): Transfer
    decreases |f.rest|
  {
    var s := DownloadCall(f, pe, address, nr, atHeader);
    match s.outcome
    case ToManufactureOff => Transfer([], true, s.isPatchEnabled)
    case Abort => Transfer([], false, s.isPatchEnabled)
    case Write(cmd, more) =>
      var t := Download(s.f, s.isPatchEnabled, s.address, s.nrOfBytes, !more);
      Transfer([cmd] + t.writes, t.completed, t.isPatchEnabled)
  }

  /** One record of a patch file. */
  datatype PatchRecord = PatchRecord(address: u32, data: seq<byte>)

  predicate ValidRecord(r: PatchRecord)
  {
    r.address != EndAddress && 0 < |r.data| < U32Modulus
  }

  /** The file layout of a list of records followed by the end marker. */
  function EncodeRecords(recs: seq<PatchRecord>): seq<byte>
    requires forall i :: 0 <= i < |recs| ==> ValidRecord(recs[i])
  {
    if |recs| == 0 then LE32(EndAddress)
    else
      assert ValidRecord(recs[0]);
      LE32(recs[0].address) + LE32(|recs[0].data|) + recs[0].data + EncodeRecords(recs[1..])
  }

  /** A record cut into commands of at most 244 bytes at consecutive addresses. */
  function Chunks(address: u32, data: seq<byte>): seq<seq<byte>>
    decreases |data|
  {
    if |data| <= PatchMaxLength then [MemWriteCommand(address, data)]
    else [MemWriteCommand(address, data[..PatchMaxLength])] + Chunks((address + PatchMaxLength) % U32Modulus, data[PatchMaxLength..])
  }

  function AllChunks(recs: seq<PatchRecord>): seq<seq<byte>>
  {
    if |recs| == 0 then [] else Chunks(recs[0].address, recs[0].data) + AllChunks(recs[1..])
  }

  /** The address of the last command of a record, which DL_FW_PATCH1 leaves behind. */
  function LastAddress(address: u32, n: nat): u32
    decreases n
  {
    if n <= PatchMaxLength then address else LastAddress((address + PatchMaxLength) % U32Modulus, n - PatchMaxLength)
  }

  /**
   * With n > 0 bytes left, a call sends min(n, 244) bytes of the file at
   * the current address, leaves n - min(n, 244) to send, and advances the
   * address only while bytes remain; a short read takes the abort path.
   */
  lemma ChunkStepSends(f: Stream, pe: byte, address: u32, nr: u32)
    requires nr > 0
    ensures var k := Min(nr, PatchMaxLength);
      var s := ChunkStep(f, pe, address, nr);
      && (|f.rest| >= k ==>
            && s.outcome == Write(MemWriteCommand(address, f.rest[..k]), nr - k > 0)
            && s.nrOfBytes == nr - k
            && s.address == (if nr - k > 0 then (address + k) % U32Modulus else address)
            && s.f.rest == f.rest[k..])
      && (|f.rest| < k ==> s.outcome == Abort)
      && s.isPatchEnabled == pe
  {
  }

  /** A record with no bytes left sends nothing and takes the abort path. */
  lemma EmptyRecordAborts(f: Stream, pe: byte, address: u32)
    ensures ChunkStep(f, pe, address, 0) == DlStep(Abort, pe, address, 0, f)
  {
  }

  /** The end marker sets `is_patch_enabled` to 2 and goes to manufacture-off. */
  lemma EndMarkerEnables(tail: seq<byte>, e: bool, pe: byte, address: u32, nr: u32)
    ensures var s := HeaderStep(Stream(LE32(EndAddress) + tail, e), pe, address, nr);
      s.outcome == ToManufactureOff && s.isPatchEnabled == PatchEnabled && s.f == Stream(tail, e)
  {
    var f := Stream(LE32(EndAddress) + tail, e);
    assert Fread(f, 4).data == LE32(EndAddress);
    assert Fread(f, 4).f == Stream(tail, e);
    OverlayLE32Bytes(address, LE32(EndAddress));
    LE32OfFromLE(LE32(EndAddress));
  }

  /** A file that ends before an address or before a count goes to manufacture-off unchanged. */
  lemma EmptyHeaderStops(f: Stream, pe: byte, address: u32, nr: u32)
    requires |f.rest| == 0 || (|f.rest| == 4 && FromLE(f.rest) != EndAddress)
    ensures var s := HeaderStep(f, pe, address, nr);
      s.outcome == ToManufactureOff && s.isPatchEnabled == pe
  {
    if |f.rest| == 4 {
      assert Fread(f, 4).data == f.rest;
      OverlayLE32Bytes(address, f.rest);
    }
  }

  /** The call at DL_FW_PATCH1 when the file holds the rest of the record. */
  lemma ChunkOfRecord(d: seq<byte>, tail: seq<byte>, e: bool, pe: byte, address: u32)
    requires 0 < |d| < U32Modulus
    ensures var s := ChunkStep(Stream(d + tail, e), pe, address, |d|);
      if |d| <= PatchMaxLength then
        s == DlStep(Write(MemWriteCommand(address, d), false), pe, address, 0, Stream(tail, e))
      else
        s == DlStep(Write(MemWriteCommand(address, d[..PatchMaxLength]), true), pe,
                    (address + PatchMaxLength) % U32Modulus, |d| - PatchMaxLength,
                    Stream(d[PatchMaxLength..] + tail, e))
  {
    var k := Min(|d|, PatchMaxLength);
    assert (d + tail)[..k] == d[..k];
    if |d| <= PatchMaxLength {
      assert d[..k] == d;
      assert (d + tail)[k..] == tail;
    } else {
      assert (d + tail)[k..] == d[k..] + tail;
    }
  }

  /** Unfolding of the download at a call that sends a command. */
  lemma DownloadAfterWrite(f: Stream, pe: byte, address: u32, nr: u32, atHeader: bool)
    requires DownloadCall(f, pe, address, nr, atHeader).outcome.Write?
    ensures var s := DownloadCall(f, pe, address, nr, atHeader);
      var t := Download(s.f, s.isPatchEnabled, s.address, s.nrOfBytes, !s.outcome.more);
      Download(f, pe, address, nr, atHeader) == Transfer([s.outcome.cmd] + t.writes, t.completed, t.isPatchEnabled)
  {
  }

  /** The call that sends the last chunk of a record; the next call reads a header. */
  lemma LastChunkCall(d: seq<byte>, tail: seq<byte>, e: bool, pe: byte, address: u32)
    requires 0 < |d| <= PatchMaxLength
    ensures var t := Download(Stream(tail, e), pe, address, 0, true);
      Download(Stream(d + tail, e), pe, address, |d|, false)
        == Transfer([MemWriteCommand(address, d)] + t.writes, t.completed, t.isPatchEnabled)
  {
    ChunkOfRecord(d, tail, e, pe, address);
    DownloadAfterWrite(Stream(d + tail, e), pe, address, |d|, false);
  }

  /** A call that sends a full chunk of a longer record; the next call stays in the record. */
  lemma FullChunkCall(d: seq<byte>, tail: seq<byte>, e: bool, pe: byte, address: u32, t: Transfer)
    requires PatchMaxLength < |d| < U32Modulus
    requires t == Download(Stream(d[PatchMaxLength..] + tail, e), pe, (address + PatchMaxLength) % U32Modulus,
                           |d| - PatchMaxLength, false)
    ensures Download(Stream(d + tail, e), pe, address, |d|, false)
      == Transfer([MemWriteCommand(address, d[..PatchMaxLength])] + t.writes, t.completed, t.isPatchEnabled)
  {
    ChunkOfRecord(d, tail, e, pe, address);
    DownloadAfterWrite(Stream(d + tail, e), pe, address, |d|, false);
  }

  /** A record longer than one chunk: its first chunk, then the chunks of the rest. */
  lemma ChunksOfLongRecord(address: u32, d: seq<byte>, w: seq<seq<byte>>)
    requires PatchMaxLength < |d|
    ensures var next := (address + PatchMaxLength) % U32Modulus;
      && [MemWriteCommand(address, d[..PatchMaxLength])] + (Chunks(next, d[PatchMaxLength..]) + w) == Chunks(address, d) + w
      && LastAddress(address, |d|) == LastAddress(next, |d[PatchMaxLength..]|)
  {
  }

  /**
   * A whole record, read from inside it, is sent as its chunks; the call
   * after the last chunk reads a header at the record's last address.
   */
  lemma {:induction false} RecordSentInChunks(d: seq<byte>, tail: seq<byte>, e: bool, pe: byte, address: u32, last: u32, t: Transfer)
    requires 0 < |d| < U32Modulus
    requires last == LastAddress(address, |d|)
    requires t == Download(Stream(tail, e), pe, last, 0, true)
    ensures Download(Stream(d + tail, e), pe, address, |d|, false)
      == Transfer(Chunks(address, d) + t.writes, t.completed, t.isPatchEnabled)
    decreases |d|
  {
    if |d| > PatchMaxLength {
      var next := (address + PatchMaxLength) % U32Modulus;
      var d' := d[PatchMaxLength..];
      ChunksOfLongRecord(address, d, t.writes);
      RecordSentInChunks(d', tail, e, pe, next, last, t);
      FullChunkCall(d, tail, e, pe, address, Transfer(Chunks(next, d') + t.writes, t.completed, t.isPatchEnabled));
    } else {
      assert last == address;
      assert Chunks(address, d) == [MemWriteCommand(address, d)];
      LastChunkCall(d, tail, e, pe, address);
    }
  }

  /**
   * Streaming a well-formed patch file, whatever the control block held
   * before, sends exactly the chunks of its records in file order, then
   * reaches the end marker with `is_patch_enabled` = 2.
   */
  lemma {:induction false} DownloadSendsAllChunks(recs: seq<PatchRecord>, tail: seq<byte>, e: bool, pe: byte, address: u32, nr: u32)
    requires forall i :: 0 <= i < |recs| ==> ValidRecord(recs[i])
    ensures Download(Stream(EncodeRecords(recs) + tail, e), pe, address, nr, true)
      == Transfer(AllChunks(recs), true, PatchEnabled)
    decreases |recs|
  {
    var f := Stream(EncodeRecords(recs) + tail, e);
    if |recs| == 0 {
      EndMarkerEnables(tail, e, pe, address, nr);
    } else {
      var r := recs[0];
      var rest := EncodeRecords(recs[1..]) + tail;
      assert EncodeRecords(recs) + tail == LE32(r.address) + (LE32(|r.data|) + (r.data + rest));
      RecordHeaderRead(r, rest, e, pe, address, nr);
      assert Download(f, pe, address, nr, true) == Download(Stream(r.data + rest, e), pe, r.address, |r.data|, false);
      var last := LastAddress(r.address, |r.data|);
      RecordSentInChunks(r.data, rest, e, pe, r.address, last, Download(Stream(rest, e), pe, last, 0, true));
      DownloadSendsAllChunks(recs[1..], tail, e, pe, LastAddress(r.address, |r.data|), 0);
    }
  }

  /** The header of a valid record is read whole and leads into its first chunk. */
  lemma RecordHeaderRead(r: PatchRecord, rest: seq<byte>, e: bool, pe: byte, address: u32, nr: u32)
    requires ValidRecord(r)
    ensures HeaderStep(Stream(LE32(r.address) + (LE32(|r.data|) + (r.data + rest)), e), pe, address, nr)
         == ChunkStep(Stream(r.data + rest, e), pe, r.address, |r.data|)
  {
    var f := Stream(LE32(r.address) + (LE32(|r.data|) + (r.data + rest)), e);
    var a := Fread(f, 4);
    assert a.data == LE32(r.address) && a.f == Stream(LE32(|r.data|) + (r.data + rest), e);
    LE32OfFromLE(LE32(r.address));
    OverlayLE32Bytes(address, a.data);
    var b := Fread(a.f, 4);
    assert b.data == LE32(|r.data|) && b.f == Stream(r.data + rest, e);
    LE32OfFromLE(LE32(|r.data|));
    OverlayLE32Bytes(nr, b.data);
  }

  /** The chunks of a record carry its bytes, at most 244 per command, in order. */
  lemma {:induction false} ChunksCarryRecord(address: u32, data: seq<byte>)
    requires |data| > 0
    ensures forall c :: c in Chunks(address, data) ==> |c| >= 9 && |c| - 9 <= PatchMaxLength && IsCommand(c) && Opcode(c) == OpInfMemWrite
    ensures Payloads(Chunks(address, data)) == data
    decreases |data|
  {
    if |data| > PatchMaxLength {
      ChunksCarryRecord((address + PatchMaxLength) % U32Modulus, data[PatchMaxLength..]);
      var head := MemWriteCommand(address, data[..PatchMaxLength]);
      var more := Chunks((address + PatchMaxLength) % U32Modulus, data[PatchMaxLength..]);
      assert Chunks(address, data) == [head] + more;
      PayloadsAppend([head], more);
      assert head[9..] == data[..PatchMaxLength];
      assert data == data[..PatchMaxLength] + data[PatchMaxLength..];
    } else {
      var head := MemWriteCommand(address, data);
      assert head[9..] == data;
      assert Payloads([head]) == head[9..] + Payloads([]);
    }
  }

  /** The data bytes of a list of memory-write commands, concatenated. */
  function Payloads(cmds: seq<seq<byte>>): seq<byte>
  {
    if |cmds| == 0 then [] else (if |cmds[0]| >= 9 then cmds[0][9..] else []) + Payloads(cmds[1..])
  }

  lemma {:induction false} PayloadsAppend(a: seq<seq<byte>>, b: seq<seq<byte>>)
    ensures Payloads(a + b) == Payloads(a) + Payloads(b)
    decreases |a|
  {
    if |a| == 0 {
      assert a + b == b;
    } else {
      assert (a + b)[1..] == a[1..] + b;
      PayloadsAppend(a[1..], b);
    }
  }
}
