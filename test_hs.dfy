/**
 * test_hs.c, the host test tool: the hex converters, the command encoder
 * and the event reader of `parse_cmd`, and the line filter of
 * `open_file`. Its `char_to_hex` is the same mapping as `Hex.CharToHex`,
 * and its `serial_translate_baud` the same table as
 * `SerialBaud.SerialTranslateBaud`.
 */
module TestHs {
  import opened Bytes
  import opened Hex
  import opened HwCommon
  import opened Maybe

  // ---------------------------------------------------------------- hex digits

  /** `byte2int`: the value of a hex digit, or -1. */
  function Byte2Int(c: byte): (r: int)
    ensures IsHexDigit(c) ==> r == DigitValue(c)
    ensures !IsHexDigit(c) ==> r == -1
  {
    if '0' as int <= c <= '9' as int then c - '0' as int
    else if c == 'a' as int || c == 'A' as int then 10
    else if c == 'b' as int || c == 'B' as int then 11
    else if c == 'c' as int || c == 'C' as int then 12
    else if c == 'd' as int || c == 'D' as int then 13
    else if c == 'e' as int || c == 'E' as int then 14
    else if c == 'f' as int || c == 'F' as int then 15
    else -1
  }

  /** The two converters agree on digits and differ only in how they mark a non-digit. */
  lemma Byte2IntMatchesCharToHex(c: byte)
    ensures Byte2Int(c) == if CharToHex(c) == 0xFF then -1 else CharToHex(c) as int
  {
  }

  // ---------------------------------------------------------------- the command encoder

  /**
   * The encode loop of `parse_cmd`: over the characters of the C string,
   * an even position sets the accumulator to the high nibble and an odd
   * one ORs in the low nibble and writes the byte to the port. The bytes
   * written are the string's hex pairs; an odd last character is dropped.
   */
  method EncodeCommand(cmd: seq<byte>) returns (written: seq<byte>)
    ensures written == HexPairs(cmd[..Strlen(cmd)])
    ensures |written| == Strlen(cmd) / 2
  {
    var n := Strlen(cmd);
    var s := cmd[..n];
    var c: byte := 0;
    written := [];
    var i := 0;
    while i < n
      invariant 0 <= i <= n
      invariant 2 * |written| == i - i % 2
      invariant forall k :: 0 <= k < |written| ==> written[k] == FormByte(s[2 * k], s[2 * k + 1])
      invariant i % 2 == 1 ==> c == Shl4(CharToHex(s[i - 1]))
    {
      if i % 2 == 1 {
        c := Or8(c, CharToHex(s[i]));
        FormByteIsOr(s[i - 1], s[i]);
        assert 2 * |written| == i - 1;
        written := written + [c];
      } else {
        c := Shl4(CharToHex(s[i]));
      }
      i := i + 1;
    }
    assert written == HexPairs(s);
  }

  // ---------------------------------------------------------------- the event reader

  /** The H4 packet indicator of an HCI event (Bluetooth Core Specification Vol 4 Part A section 2). */
  const EventIndicator: byte := 0x04

  /** The event code on which the reader stops at once. */
  const DebugStartupCode: byte := 15

  /** How reading an event ended. */
  datatype Stop = DebugStartup | Complete | Exhausted

  /**
   * What reading an event left: how it ended, how many passes of the loop
   * it made (one `read` each) and the event code it kept. `Exhausted` is
   * the given reads running out before the event ended.
   */
  datatype Framed = Framed(stop: Stop, consumed: nat, eventCode: nat)

  /** The same ending, `n` bytes later in the port. */
  function Shift(r: Framed, n: nat): Framed
  {
    r.(consumed := r.consumed + n)
  }

  /** The position of the first packet indicator, or the length of the port's bytes. */
  function FirstIndicator(port: seq<byte>): (k: nat)
    ensures k <= |port|
    ensures k < |port| ==> port[k] == EventIndicator
    ensures forall i :: 0 <= i < k ==> port[i] != EventIndicator
  {
    if |port| == 0 || port[0] == EventIndicator then 0 else 1 + FirstIndicator(port[1..])
  }

  /** Reading after the indicator: the event code, then the length L and L parameter bytes. */
  function FrameEvent(rest: seq<byte>): (r: Framed)
    ensures r.consumed <= |rest|
  {
    if |rest| == 0 then Framed(Exhausted, 0, 0)
    else if rest[0] == DebugStartupCode then Framed(DebugStartup, 1, DebugStartupCode)
    else if |rest| == 1 then Framed(Exhausted, 1, rest[0])
    else if rest[1] as int + 2 <= |rest| then Framed(Complete, rest[1] as int + 2, rest[0])
    else Framed(Exhausted, |rest|, rest[0])
  }

  /**
   * How the event reader is meant to frame the port's bytes: everything
   * before the first indicator is skipped; event code 15 ends reading at
   * once; otherwise the length byte L is followed by exactly L bytes.
   */
  function Frame(port: seq<byte>): (r: Framed)
    ensures r.consumed <= |port|
  {
    var k := FirstIndicator(port);
    if k == |port| then Framed(Exhausted, |port|, 0)
    else Shift(FrameEvent(port[k + 1..]), k + 1)
  }

  /**
   * The byte `bc` holds after each pass. The port is opened non-blocking
   * and the count `read` returns is not looked at, so a read that gets no
   * byte (None) leaves the previous byte in `bc`; `bc0` is what `bc`
   * held before the first pass.
   */
  function Delivered(got: seq<Option<byte>>, bc0: byte): (r: seq<byte>)
    ensures |r| == |got|
    ensures forall i :: 0 <= i < |got| && got[i].Some? ==> r[i] == got[i].value
    ensures |got| > 0 && got[0].None? ==> r[0] == bc0
    ensures forall i :: 0 < i < |got| && got[i].None? ==> r[i] == r[i - 1]
    decreases |got|
  {
    if |got| == 0 then []
    else
      var bc := if got[0].Some? then got[0].value else bc0;
      var tail := Delivered(got[1..], bc);
      assert forall i :: 1 < i < |got| && got[i].None? ==> got[1..][i - 1].None?;
      [bc] + tail
  }

  /** The loop variables of the reader: `x`, `event_started`, `cc`, `event_code` and `len`. */
  datatype Scan = Scan(x: nat, started: bool, cc: nat, eventCode: nat, len: nat)

  const InitScan: Scan := Scan(0, false, 0, 0, 0)

  /** One pass of the loop body: it goes on, or breaks out with how reading ended. */
  datatype Pass = Go(s: Scan) | Break(stop: Stop, s: Scan)

  /**
   * The loop body on the value `v` the byte read gave `x`. `len` is
   * unsigned: the decrement is written with its wrap-around, though the
   * loop breaks before `len` could go below 0.
   */
  function ScanByte(s: Scan, v: byte): Pass
  {
    if v == EventIndicator && !s.started then Go(s.(x := v, started := true, cc := 0))
    else if !s.started then Go(s.(x := v))
    else
      var cc := s.cc + 1;
      if cc == 1 && v == DebugStartupCode then Break(DebugStartup, s.(x := v, cc := cc, eventCode := v))
      else
        var s1 := if cc == 1 then s.(x := v, cc := cc, eventCode := v)
          else if cc == 2 then s.(x := v, cc := cc, len := v)
          else s.(x := v, cc := cc, len := if s.len == 0 then U32Modulus - 1 else s.len - 1);
        if s1.len == 0 && cc >= 2 then Break(Complete, s1) else Go(s1)
  }

  /**
   * `sscanf(&bc, "%c", &x)` as written: a NUL byte is an empty string,
   * the conversion fails and `x` keeps the value it had.
   */
  function SscanfChar(x: nat, bc: byte): byte
    requires x < 256
  {
    if bc == 0 then x else bc
  }

  /** The reader's loop over the port's bytes; `asWritten` selects the `sscanf` reading of each byte. */
  function ScanFrom(s: Scan, port: seq<byte>, asWritten: bool): Framed
    requires s.x < 256
    decreases |port|
  {
    if |port| == 0 then Framed(Exhausted, 0, s.eventCode)
    else
      var v := if asWritten then SscanfChar(s.x, port[0]) else port[0];
      match ScanByte(s, v)
      case Break(stop, s1) => Framed(stop, 1, s1.eventCode)
      case Go(s1) => Shift(ScanFrom(s1, port[1..], asWritten), 1)
  }

  /**
   * The event loop of `parse_cmd`, with each byte `bc` holds taken as it
   * is: it frames the bytes the reads leave in `bc` as intended.
   */
  method ReadEvent(got: seq<Option<byte>>, bc0: byte) returns (r: Framed)
    ensures r == Frame(Delivered(got, bc0))
  {
    ghost var port := Delivered(got, bc0);
    var x: nat, started, cc: nat, eventCode: nat, len: nat := 0, false, 0, 0, 0;
    var bc := bc0;
    var i := 0;
    while i < |got|
      invariant 0 <= i <= |got| && x < 256
      invariant bc == if i == 0 then bc0 else port[i - 1]
      invariant Shift(ScanFrom(Scan(x, started, cc, eventCode, len), port[i..], false), i) == ScanFrom(InitScan, port, false)
    {
      ghost var s := Scan(x, started, cc, eventCode, len);
      assert port[i..][1..] == port[i + 1..];
      if got[i].Some? {
        bc := got[i].value;
      }
      assert bc == port[i];
      x := bc;
      if x == EventIndicator && !started {
        started := true;
        cc := 0;
      } else if started {
        cc := cc + 1;
        if cc == 1 {
          eventCode := x;
          if x == DebugStartupCode {
            ScanFrames(port);
            return Framed(DebugStartup, i + 1, eventCode);
          }
        } else if cc == 2 {
          len := x;
        } else {
          len := if len == 0 then U32Modulus - 1 else len - 1;
        }
        if len == 0 && cc >= 2 {
          ScanFrames(port);
          return Framed(Complete, i + 1, eventCode);
        }
      }
      assert ScanByte(s, bc) == Go(Scan(x, started, cc, eventCode, len));
      i := i + 1;
    }
    ScanFrames(port);
    return Framed(Exhausted, |got|, eventCode);
  }

  /** After the length byte, L remaining bytes are taken, in either reading of the bytes. */
  lemma {:induction false} ScanParams(s: Scan, rest: seq<byte>, asWritten: bool)
    requires s.x < 256 && s.started && s.cc >= 2 && s.len >= 1
    ensures ScanFrom(s, rest, asWritten)
         == if s.len <= |rest| then Framed(Complete, s.len, s.eventCode) else Framed(Exhausted, |rest|, s.eventCode)
    decreases |rest|
  {
    if |rest| > 0 {
      var v := if asWritten then SscanfChar(s.x, rest[0]) else rest[0];
      var s1 := s.(x := v, cc := s.cc + 1, len := s.len - 1);
      assert ScanByte(s, v) == if s1.len == 0 then Break(Complete, s1) else Go(s1);
      if s1.len > 0 {
        ScanParams(s1, rest[1..], asWritten);
      }
    }
  }

  /** Right after the indicator, the bytes are framed as `FrameEvent` says. */
  lemma ScanEvent(x: nat, rest: seq<byte>)
    requires x < 256
    ensures ScanFrom(Scan(x, true, 0, 0, 0), rest, false) == FrameEvent(rest)
  {
    if |rest| >= 2 && rest[0] != DebugStartupCode {
      var s2 := Scan(rest[1], true, 2, rest[0], rest[1]);
      assert rest[1..][1..] == rest[2..];
      if rest[1] > 0 {
        ScanParams(s2, rest[2..], false);
      }
    }
  }

  /** Before the first indicator nothing is kept, whatever `x` holds. */
  lemma {:induction false} ScanSkip(x: nat, port: seq<byte>)
    requires x < 256
    ensures ScanFrom(Scan(x, false, 0, 0, 0), port, false) == Frame(port)
    decreases |port|
  {
    if |port| > 0 {
      if port[0] == EventIndicator {
        ScanEvent(EventIndicator, port[1..]);
      } else {
        ScanSkip(port[0], port[1..]);
        var k := FirstIndicator(port[1..]);
        assert FirstIndicator(port) == 1 + k;
        if k < |port| - 1 {
          assert port[1..][k + 1..] == port[k + 2..];
        }
      }
    }
  }

  /** The loop, reading each byte as it is, frames the port's bytes as intended. */
  lemma ScanFrames(port: seq<byte>)
    ensures ScanFrom(InitScan, port, false) == Frame(port)
  {
    ScanSkip(0, port);
  }

  /**
   * As written, a length byte 0 is not read: `x` keeps the event code,
   * so an event without parameters is taken to have as many as its
   * code's value, and its three bytes do not end the event.
   */
  lemma ZeroLengthEventOverruns()
    ensures Frame([0x04, 0x0E, 0x00]) == Framed(Complete, 3, 0x0E)
    ensures ScanFrom(InitScan, [0x04, 0x0E, 0x00], true) == Framed(Exhausted, 3, 0x0E)
  {
    var port: seq<byte> := [0x04, 0x0E, 0x00];
    assert port[1..] == [0x0E, 0x00] && port[1..][1..] == [0x00] && port[1..][1..][1..] == [];
  }

  /** After a NUL byte, reads that get nothing leave NUL in `bc`. */
  lemma {:induction false} StaleNul(got: seq<Option<byte>>, bc0: byte, i: nat)
    requires 2 <= i < |got| && got[2] == Some(0)
    requires forall j :: 2 < j < |got| ==> got[j].None?
    ensures Delivered(got, bc0)[i] == 0
    decreases i
  {
    if i > 2 {
      StaleNul(got, bc0, i - 1);
    }
  }

  /**
   * As written on the non-blocking port: after 04 0E 00, reads that get
   * nothing leave 0 in `bc`; `x` still holds 0x0E, so the loop counts
   * fourteen stale passes as parameters and then returns.
   */
  lemma ZeroLengthEventEndsOnStaleReads(bc0: byte)
    ensures var got := [Some(0x04), Some(0x0E), Some(0x00)] + seq(14, _ => None);
      ScanFrom(InitScan, Delivered(got, bc0), true) == Framed(Complete, 17, 0x0E)
  {
    var got: seq<Option<byte>> := [Some(0x04), Some(0x0E), Some(0x00)] + seq(14, _ => None);
    var port := Delivered(got, bc0);
    forall i | 2 <= i < 17 ensures port[i] == 0 {
      StaleNul(got, bc0, i);
    }
    assert port[0] == 0x04 && port[1] == 0x0E && port[2] == 0;
    var s1 := Scan(0x04, true, 0, 0, 0);
    var s2 := Scan(0x0E, true, 1, 0x0E, 0);
    var s3 := Scan(0x0E, true, 2, 0x0E, 0x0E);
    assert port[1..][1..] == port[2..] && port[2..][1..] == port[3..];
    ScanParams(s3, port[3..], true);
    assert ScanFrom(s2, port[2..], true) == Shift(ScanFrom(s3, port[3..], true), 1);
    assert ScanFrom(s1, port[1..], true) == Shift(ScanFrom(s2, port[2..], true), 1);
    assert ScanFrom(InitScan, port, true) == Shift(ScanFrom(s1, port[1..], true), 1);
  }

  /** Byte values other than 0 are read the same either way: the two readings differ only on NUL bytes. */
  lemma {:induction false} NoNulReadsAlike(s: Scan, port: seq<byte>)
    requires s.x < 256
    requires forall i :: 0 <= i < |port| ==> port[i] != 0
    ensures ScanFrom(s, port, true) == ScanFrom(s, port, false)
    decreases |port|
  {
    if |port| > 0 {
      match ScanByte(s, port[0])
      case Break(_, _) =>
      case Go(s1) =>
        NoNulReadsAlike(s1, port[1..]);
    }
  }

  /** `parse_cmd`: the command bytes written, then the event read back. */
  method ParseCmd(cmd: seq<byte>, got: seq<Option<byte>>, bc0: byte) returns (written: seq<byte>, event: Framed)
    ensures written == HexPairs(cmd[..Strlen(cmd)])
    ensures event == Frame(Delivered(got, bc0))
  {
    written := EncodeCommand(cmd);
    event := ReadEvent(got, bc0);
  }

  // ---------------------------------------------------------------- the line filter

  /** The strings `open_file` hands to `parse_cmd`, from stream `f` and the line buffer's contents. */
  function Commands(f: Stream, line: seq<byte>): (cs: seq<seq<byte>>)
    requires |line| == LineSize
    ensures forall k :: 0 <= k < |cs| ==> |cs[k]| == 0 || cs[k][0] != '#' as int
    decreases |f.rest|
  {
    var r := Fgets(f, line);
    if !r.got then []
    else
      var n := Strlen(r.line);
      if n == 0 then []
      else
        var l := r.line[n - 1 := 0];
        if l[0] == '#' as int then Commands(r.f, l) else [l[..n - 1]] + Commands(r.f, l)
  }

  /**
   * `open_file`'s loop: each line is read with `fgets` into the buffer,
   * reading stops at end of file or on an empty string, the last
   * character is overwritten with NUL, and a line that then starts with
   * '#' is not parsed.
   */
  method OpenFile(file: seq<byte>) returns (cmds: seq<seq<byte>>)
    ensures cmds == Commands(Stream(file, false), Zeros(LineSize))
  {
    var f := Stream(file, false);
    var line := Zeros(LineSize);
    cmds := [];
    ghost var all := Commands(f, line);
    while true
      invariant |line| == LineSize
      invariant cmds + Commands(f, line) == all
      decreases |f.rest|
    {
      var stop;
      stop, cmds, line, f := NextLine(cmds, f, line);
      if stop {
        break;
      }
    }
  }

  /**
   * One pass of `open_file`'s loop: whether it breaks, the strings
   * handed to `parse_cmd` so far (a comment adds none), and the buffer
   * and stream it leaves.
   */
  method NextLine(cmds0: seq<seq<byte>>, f0: Stream, line0: seq<byte>)
    returns (stop: bool, cmds: seq<seq<byte>>, line: seq<byte>, f: Stream)
    requires |line0| == LineSize
    ensures |line| == LineSize
    ensures stop ==> cmds == cmds0 + Commands(f0, line0)
    ensures !stop ==> |f.rest| < |f0.rest| && cmds + Commands(f, line) == cmds0 + Commands(f0, line0)
  {
    cmds, line, f := cmds0, line0, f0;
    var r := Fgets(f, line);
    if !r.got {
      return true, cmds, line, f;
    }
    line, f := r.line, r.f;
    var n := Strlen(line);
    if n == 0 {
      return true, cmds, line, f;
    }
    line := line[n - 1 := 0];
    if line[0] == '#' as int {
      return false, cmds, line, f;
    }
    assert line[..Strlen(line)] == line[..n - 1] by { StrlenCut(line, n - 1); }
    cmds := cmds + [line[..Strlen(line)]];
    stop := false;
  }

  /** A NUL at `n` after `n` non-NUL bytes ends the string there. */
  lemma StrlenCut(s: seq<byte>, n: nat)
    requires n < |s| && s[n] == 0 && forall i :: 0 <= i < n ==> s[i] != 0
    ensures Strlen(s) == n
  {
  }

  // ---------------------------------------------------------------- files of lines

  /** A text line `open_file` reads whole: no newline, no NUL, shorter than the buffer's 1023 characters. */
  predicate PlainLine(l: seq<byte>)
  {
    |l| < LineSize - 1 && forall i :: 0 <= i < |l| ==> l[i] != '\n' as int && l[i] != 0
  }

  /** A file of lines, each ended by a newline. */
  function JoinLines(lines: seq<seq<byte>>): seq<byte>
  {
    if |lines| == 0 then [] else lines[0] + ['\n' as int] + JoinLines(lines[1..])
  }

  /** The lines that are not comments. */
  function Uncommented(lines: seq<seq<byte>>): (r: seq<seq<byte>>)
    ensures |r| <= |lines|
  {
    if |lines| == 0 then []
    else if |lines[0]| > 0 && lines[0][0] == '#' as int then Uncommented(lines[1..])
    else [lines[0]] + Uncommented(lines[1..])
  }

  /** `fgets` returns a plain line with its newline. */
  lemma {:induction false} FgetsCountLine(l: seq<byte>, rest: seq<byte>, cap: nat)
    requires |l| < cap && forall i :: 0 <= i < |l| ==> l[i] != '\n' as int
    ensures FgetsCount(l + ['\n' as int] + rest, cap) == |l| + 1
    decreases |l|
  {
    if |l| > 0 {
      assert (l + ['\n' as int] + rest)[1..] == l[1..] + ['\n' as int] + rest;
      FgetsCountLine(l[1..], rest, cap - 1);
    }
  }

  /** `fgets` on a plain line: the line and its newline, then a NUL, with the stream after the newline. */
  lemma FgetsLine(l: seq<byte>, rest: seq<byte>, e: bool, line: seq<byte>)
    requires |line| == LineSize && PlainLine(l)
    ensures var r := Fgets(Stream(l + ['\n' as int] + rest, e), line);
      && r.got && r.f == Stream(rest, e)
      && r.line == l + ['\n' as int, 0] + line[|l| + 2..]
      && Strlen(r.line) == |l| + 1
  {
    var f := Stream(l + ['\n' as int] + rest, e);
    FgetsCountLine(l, rest, LineSize - 1);
    var n := |l| + 1;
    assert f.rest[..n] == l + ['\n' as int];
    assert f.rest[n..] == rest;
    var r := Fgets(f, line);
    assert r.line == l + ['\n' as int, 0] + line[n + 1..];
    StrlenCut(r.line, n);
  }

  /**
   * For a file of plain lines, `open_file` parses exactly the lines that
   * do not start with '#', in order, each without its newline.
   */
  lemma {:induction false} CommandsOfLines(lines: seq<seq<byte>>, e: bool, line: seq<byte>)
    requires |line| == LineSize
    requires forall k :: 0 <= k < |lines| ==> PlainLine(lines[k])
    ensures Commands(Stream(JoinLines(lines), e), line) == Uncommented(lines)
    decreases |lines|
  {
    if |lines| > 0 {
      var l := lines[0];
      var rest := JoinLines(lines[1..]);
      assert JoinLines(lines) == l + ['\n' as int] + rest;
      FgetsLine(l, rest, e, line);
      var l2 := (l + ['\n' as int, 0] + line[|l| + 2..])[|l| := 0];
      assert l2[..|l|] == l;
      assert l2[0] == if |l| > 0 then l[0] else 0;
      CommandsOfLines(lines[1..], e, l2);
    }
  }
}
