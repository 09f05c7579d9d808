/**
 * The firmware-configuration engine of hardware.c, in its two build
 * variants: AG6xx over UART (binary `.pbn` patch, bddata step) and WP2
 * over USB (text `.seq` patch, started by HCI_Reset).
 *
 * `hw_config_cback` is called once per HCI event. The specification of
 * one call is `Step`, built from `EventCheck` (what `check_event`
 * returns and changes) and `CaseOf` (one branch of the switch on the
 * state); the class `HwCfg` holds the control block `hw_cfg_cb` and
 * performs the same call step by step, writing commands through a
 * pointer into a transport buffer.
 */
module HwConfig {
  import opened Bytes
  import opened Hci
  import opened Hex
  import opened Maybe
  import opened HwCommon
  import opened PatchLocator
  import opened PatchDownload

  /** The two builds of hardware.c. */
  datatype Variant = Ag6xxUart | Wp2Usb

  /** The names of the state enum, covering both builds. */
  datatype CfgState =
    | Init | ManufactureOn | ManufactureOff | BdData | BdDataStatus | MemWrite
    | SetBaudHs | SetHostBaud | ManufactureOffCmpl | SwReadVersion | SwFindPatch
    | DlFwPatch | DlFwPatch1 | Success

  /**
   * `hw_cfg_cb`, with the file-scope flag `fw_patchfile_empty` (non-zero
   * once a WP2 patch line has been sent) as `patchLineSent`.
   */
  datatype ControlBlock = ControlBlock(state: CfgState, fwFd: Option<Stream>, isPatchEnabled: byte,
                                       address: u32, nrOfBytes: u32, patchLineSent: bool)

  /** What the call reads from the file system: configuration, patch directory, files, bddata file. */
  datatype Env = Env(cfg: PatchConfig, dir: Option<seq<string>>, files: map<string, seq<byte>>,
                     bddata: Option<seq<byte>>)

  /** The transport's answers: whether `alloc` returned a buffer, and what `xmit_cb` returned. */
  datatype Io = Io(allocOk: bool, xmitOk: bool)

  const IntelStartup: byte := 0x00
  const IntelDefaultBdData: byte := 0x05
  const IntelWriteBdDataCmpl: byte := 0x19
  /** `FAILURE` (-1) as the `uint8_t` that `check_event` returns. */
  const Failure: byte := 0xFF
  const BdDataParamSize: nat := 80
  const PathMaxLen: nat := 128
  /**
   * The event is read at offsets up to 14 (the WP2 version bytes); the
   * model takes the receive buffer to be at least that long.
   */
  const EvtMinLen: nat := 15

  function Extension(v: Variant): string
  {
    if v.Ag6xxUart? then ".pbn" else ".seq"
  }

  /** A patch file is open in every state that reads one. */
  predicate Inv(cb: ControlBlock)
  {
    (cb.state == MemWrite || cb.state == DlFwPatch || cb.state == DlFwPatch1) ==> cb.fwFd.Some?
  }

  // ---------------------------------------------------------------- check_event

  /** What `check_event` returns, the state it leaves, and the callbacks it fires. */
  datatype Checked = Checked(status: byte, state: CfgState, effects: seq<Effect>)

  function EventCheck(state: CfgState, evt: seq<byte>): Checked
    requires |evt| >= EvtMinLen
  {
    if evt[0] == EvtIntelDebug then
      if evt[2] == IntelStartup then Checked(0, state, [])
      else if evt[2] == IntelWriteBdDataCmpl then Checked(evt[3], state, [])
      else if evt[2] == IntelDefaultBdData then
        Checked(if evt[3] == 0x02 then 0 else Failure,
                if state == Init then ManufactureOn else state,
                if state == Init then [DeregisterIntEvt] else [])
      else Checked(Failure, state, [])
    else if evt[0] == EvtCommandComplete then Checked(evt[5], state, [])
    else if evt[0] == EvtCommandStatus then Checked(evt[2], state, [])
    else Checked(0, state, [])
  }

  // ---------------------------------------------------------------- the switch

  /**
   * What one branch of the switch leaves: the control block, the effects,
   * `is_proceeding`, and whether the command buffer is still held (not
   * released inside the branch).
   */
  datatype CaseResult = CaseResult(cb: ControlBlock, effects: seq<Effect>, proceeding: bool, held: bool)

  /** A branch that hands a command to `xmit_cb`; the call proceeds when the transport accepts it. */
  function Sent(cb: ControlBlock, opcode: u16, awaits: Option<byte>, cmd: seq<byte>, io: Io): CaseResult
  {
    CaseResult(cb, [Send(opcode, awaits, cmd)], io.xmitOk, true)
  }

  /** A branch that releases the command buffer and proceeds without sending. */
  function Released(cb: ControlBlock): CaseResult
  {
    CaseResult(cb, [ReleaseCommand], true, false)
  }

  /** A branch that leaves `is_proceeding` false without sending. */
  function Stuck(cb: ControlBlock): CaseResult
  {
    CaseResult(cb, [], false, true)
  }

  /** HW_CFG_MANUFACTURE_OFF: leave manufacturing mode, telling whether the patch is enabled. */
  function ManufactureOffResult(cb: ControlBlock, io: Io): (r: CaseResult)
    ensures Inv(r.cb)
  {
    Sent(cb.(state := ManufactureOffCmpl), OpManufactureMode, Some(IntelStartup),
         Command(OpManufactureMode, [0, cb.isPatchEnabled]), io)
  }

  /**
   * HW_CFG_MANUFACTURE_ON: enter manufacturing mode. The WP2 build first
   * skips the Command Complete of its HCI_Reset and waits for the default
   * bddata event.
   */
  function ManufactureOnResult(v: Variant, cb: ControlBlock, evt: seq<byte>, io: Io): (r: CaseResult)
    requires |evt| >= EvtMinLen
    ensures Inv(cb) ==> Inv(r.cb)
  {
    var cmd := Command(OpManufactureMode, [1, 0]);
    if v.Ag6xxUart? then Sent(cb.(state := BdData), OpManufactureMode, Some(EvtCommandComplete), cmd, io)
    else if evt[2] == IntelDefaultBdData then
      Sent(cb.(state := SwReadVersion), OpManufactureMode, Some(EvtCommandComplete), cmd, io)
    else Released(cb)
  }

  /**
   * The bddata command: 80 parameter bytes decoded from the file. A short
   * file leaves the rest of the zeroed buffer; a long one is cut off.
   */
  function BdDataCommand(file: seq<byte>): (cmd: seq<byte>)
    ensures |cmd| == PreambleSize + BdDataParamSize
    ensures cmd[..PreambleSize] == [0x2F, 0xFC, 80]
    ensures forall i :: PreambleSize <= i < |cmd| ==>
              cmd[i] == if i - PreambleSize < |BdDataBytes(file)| then BdDataBytes(file)[i - PreambleSize] else 0
  {
    var params := Take(BdDataBytes(file), BdDataParamSize);
    CommandLayout(OpInfBdData, params);
    Command(OpInfBdData, params)
  }

  /** HW_CFG_BDDATA: without a bddata file `fwcfg_cb(FAIL)` fires and the call does not proceed. */
  function BdDataResult(cb: ControlBlock, env: Env, io: Io): (r: CaseResult)
    ensures Inv(cb) ==> Inv(r.cb)
  {
    if env.bddata.None? then CaseResult(cb, [FwCfg(false)], false, true)
    else Sent(cb.(state := BdDataStatus), OpInfBdData, Some(IntelWriteBdDataCmpl), BdDataCommand(env.bddata.value), io)
  }

  function SwReadVersionResult(cb: ControlBlock, io: Io): (r: CaseResult)
    ensures Inv(r.cb)
  {
    Sent(cb.(state := SwFindPatch), OpReadSwVersion, Some(EvtCommandComplete), Command(OpReadSwVersion, []), io)
  }

  /** The AG6xx chip id: `%x` of hardware variant (byte 7) and revision (byte 8) as one 16-bit value. */
  function ChipIdAg6xx(evt: seq<byte>): (s: string)
    requires |evt| > 8
    ensures ParseHex(s) == evt[7] as int * 256 + evt[8] as int
    ensures |s| > 1 ==> s[0] != '0'
  {
    LowerHex(evt[7] as int * 256 + evt[8] as int)
  }

  /** The WP2 chip id: `%02x` of each of bytes 6 to 14 of the version event. */
  function ChipIdUsb(evt: seq<byte>): (s: string)
    requires |evt| >= EvtMinLen
    ensures |s| == 18
    ensures forall k :: 0 <= k < 9 ==> ParseHex(s[2 * k .. 2 * k + 2]) == evt[6 + k]
  {
    HexString(evt[6..15])
  }

  function ChipId(v: Variant, evt: seq<byte>): string
    requires |evt| >= EvtMinLen
  {
    if v.Ag6xxUart? then ChipIdAg6xx(evt) else ChipIdUsb(evt)
  }

  function Locator(v: Variant, evt: seq<byte>, env: Env): Located
    requires |evt| >= EvtMinLen
  {
    Locate(ChipId(v, evt), env.cfg, env.dir, PathMaxLen, Extension(v))
  }

  /**
   * DL_FW_PATCH / DL_FW_PATCH1: one download call on the open patch file,
   * then the goto to manufacture-off, the abort path, or a memory write.
   */
  function DownloadResult(cb: ControlBlock, io: Io): (r: CaseResult)
    requires cb.fwFd.Some?
    ensures Inv(r.cb)
  {
    Downloaded(cb, DownloadCall(cb.fwFd.value, cb.isPatchEnabled, cb.address, cb.nrOfBytes, cb.state == DlFwPatch), io)
  }

  /** The control block and branch a download call `s` leaves. */
  function Downloaded(cb: ControlBlock, s: DlStep, io: Io): (r: CaseResult)
    ensures Inv(r.cb)
  {
    var cb1 := cb.(fwFd := Some(s.f), isPatchEnabled := s.isPatchEnabled, address := s.address, nrOfBytes := s.nrOfBytes);
    match s.outcome
    case ToManufactureOff => ManufactureOffResult(cb1, io)
    case Abort => Stuck(cb1.(state := if s.nrOfBytes == 0 then DlFwPatch1 else ManufactureOff))
    case Write(cmd, more) =>
      Sent(cb1.(state := if more then DlFwPatch1 else DlFwPatch), OpInfMemWrite, Some(EvtCommandComplete), cmd, io)
  }

  // ---------------------------------------------------------------- WP2 text patch

  /** Lines that HW_CFG_MEMWRITE reads past: comments, CR, 'F' lines, and lines with '2' second. */
  predicate Filtered(line: seq<byte>)
    requires |line| >= 2
  {
    line[0] == '*' as int || line[0] == 0x0D || line[0] == 'F' as int || line[1] == '2' as int
  }

  /** Where the skipping loop stops: at end of file, or at a line that is not filtered. */
  datatype Skipped = Skipped(atEof: bool, line: seq<byte>, f: Stream)

  function SkipFiltered(line: seq<byte>, f: Stream): (r: Skipped)
    requires |line| == LineSize
    ensures |r.line| == LineSize
    ensures !r.atEof ==> !Filtered(r.line)
    ensures |r.f.rest| <= |f.rest|
    ensures Strlen(line) < LineSize ==> Strlen(r.line) < LineSize
    decreases |f.rest|, !f.eof
  {
    if !Filtered(line) then Skipped(false, line, f)
    else if f.eof then Skipped(true, line, f)
    else
      var g := Fgets(f, line);
      SkipFiltered(g.line, g.f)
  }

  /** Bytes 10, 11, 12, ... of a line read as hex pairs, one pair for each even `pos < len - 10`. */
  function LinePayload(line: seq<byte>, len: nat): (r: seq<byte>)
    requires len < |line|
    ensures |r| == if len <= 10 then 0 else (len - 9) / 2
  {
    if len <= 10 then [] else HexPairs(line[10..len + 1])
  }

  /** The opcode of a "01" line: characters 3-4 are its low byte, 5-6 its high byte. */
  function LineOpcode(line: seq<byte>): (op: u16)
    requires |line| == LineSize
    ensures LE16(op) == [FormByte(line[3], line[4]), FormByte(line[5], line[6])]
  {
    FormWord(FormByte(line[5], line[6]), FormByte(line[3], line[4]))
  }

  function LineParamLen(line: seq<byte>): byte
    requires |line| == LineSize
  {
    FormByte(line[8], line[9])
  }

  /**
   * The packet sent for a "01" line: opcode, parameter length, then the
   * payload, framed to 3 + parameter length bytes of the buffer.
   */
  function LinePacket(line: seq<byte>): seq<byte>
    requires |line| == LineSize && Strlen(line) < LineSize
  {
    Take(LE16(LineOpcode(line)) + [LineParamLen(line)] + LinePayload(line, Strlen(line)),
         PreambleSize + LineParamLen(line))
  }

  /**
   * HW_CFG_MEMWRITE: read lines up to one that is not filtered. End of
   * file goes to manufacture-off (patch enabled once a line was sent); a
   * "01" line is sent as a command; any other line stops the call.
   */
  function MemWriteResult(cb: ControlBlock, io: Io): (r: CaseResult)
    requires cb.fwFd.Some?
    ensures Inv(r.cb)
  {
    var f := cb.fwFd.value;
    if f.eof then ManufactureOffResult(cb.(state := ManufactureOff), io)
    else
      var g := Fgets(f, Zeros(LineSize));
      assert Strlen(Zeros(LineSize)) == 0;
      MemWriteLine(cb, SkipFiltered(g.line, g.f), io)
  }

  /** HW_CFG_MEMWRITE once the filtered lines are skipped. */
  function MemWriteLine(cb: ControlBlock, s: Skipped, io: Io): (r: CaseResult)
    requires |s.line| == LineSize && Strlen(s.line) < LineSize
    ensures Inv(r.cb)
  {
    if s.atEof then
      ManufactureOffResult(cb.(fwFd := None, state := ManufactureOff,
                               isPatchEnabled := if cb.patchLineSent then PatchEnabled else cb.isPatchEnabled), io)
    else if s.line[0] == '0' as int && s.line[1] == '1' as int then
      Sent(cb.(fwFd := Some(s.f), patchLineSent := true, state := MemWrite),
           LineOpcode(s.line), Some(EvtCommandComplete), LinePacket(s.line), io)
    else Stuck(cb.(fwFd := Some(s.f)))
  }

  /**
   * HW_CFG_MEMWRITE as evidently intended: the result of the first
   * `fgets` is checked, so a file already drained (its last line read,
   * the end-of-file indicator still clear) is the end of the patch.
   */
  function MemWriteResultChecked(cb: ControlBlock, io: Io): (r: CaseResult)
    requires cb.fwFd.Some?
    ensures Inv(r.cb)
  {
    var f := cb.fwFd.value;
    if f.eof then ManufactureOffResult(cb.(state := ManufactureOff), io)
    else
      var g := Fgets(f, Zeros(LineSize));
      assert Strlen(Zeros(LineSize)) == 0;
      if !g.got then MemWriteLine(cb, Skipped(true, g.line, g.f), io)
      else MemWriteLine(cb, SkipFiltered(g.line, g.f), io)
  }

  /**
   * HW_CFG_SW_FIND_PATCH: name the chip, locate and open its patch, then
   * fall through into the download (AG6xx) or the text patch (WP2). A
   * patch that is not found, or cannot be opened, goes to manufacture-off.
   */
  function FindPatchResult(v: Variant, cb: ControlBlock, evt: seq<byte>, env: Env, io: Io): (r: CaseResult)
    requires |evt| >= EvtMinLen
    ensures Inv(r.cb)
  {
    var loc := Locator(v, evt, env);
    if !loc.found then ManufactureOffResult(cb.(state := ManufactureOff), io)
    else
      var fd := if loc.patchFile.Some? then Fopen(env.files, loc.patchFile.value) else None;
      Opened(v, cb.(fwFd := fd), io)
  }

  /** The fall-through after the patch file was opened (or failed to open). */
  function Opened(v: Variant, cb: ControlBlock, io: Io): (r: CaseResult)
    ensures Inv(r.cb)
  {
    if cb.fwFd.None? then ManufactureOffResult(cb.(state := ManufactureOff), io)
    else if v.Ag6xxUart? then DownloadResult(cb.(state := DlFwPatch), io)
    else MemWriteResult(cb.(state := MemWrite), io)
  }

  /**
   * HW_CFG_SUCCESS: only the startup event (byte 2 = 0) completes the
   * configuration; any other event takes the abort path.
   */
  function SuccessResult(cb: ControlBlock, evt: seq<byte>): (r: CaseResult)
    requires |evt| >= EvtMinLen
    ensures Inv(cb) ==> Inv(r.cb)
  {
    if evt[2] != IntelStartup then CaseResult(cb, [ReleaseCommand], false, false)
    else CaseResult(cb.(state := Init, fwFd := None), [ReleaseCommand, FwCfg(true)], true, false)
  }

  /** The switch on the state; states without a branch in this build take the default. */
  function CaseOf(v: Variant, cb: ControlBlock, evt: seq<byte>, env: Env, io: Io): (r: CaseResult)
    requires |evt| >= EvtMinLen && Inv(cb)
    ensures Inv(r.cb)
  {
    match cb.state
    case ManufactureOn => ManufactureOnResult(v, cb, evt, io)
    case BdData => if v.Ag6xxUart? then BdDataResult(cb, env, io) else Released(cb)
    case BdDataStatus => if v.Ag6xxUart? then Released(cb.(state := SwReadVersion)) else Released(cb)
    case SwReadVersion => SwReadVersionResult(cb, io)
    case SwFindPatch => FindPatchResult(v, cb, evt, env, io)
    case MemWrite => if v.Wp2Usb? then MemWriteResult(cb, io) else Released(cb)
    case DlFwPatch => if v.Ag6xxUart? then DownloadResult(cb, io) else Released(cb)
    case DlFwPatch1 => if v.Ag6xxUart? then DownloadResult(cb, io) else Released(cb)
    case ManufactureOff => ManufactureOffResult(cb, io)
    case ManufactureOffCmpl => Released(cb.(state := Success))
    case Success => SuccessResult(cb, evt)
    case Init => Released(cb)
    case SetBaudHs => Released(cb)
    case SetHostBaud => Released(cb)
  }

  /** The control block after a call, and everything the call did, in order. */
  datatype Outcome = Outcome(cb: ControlBlock, effects: seq<Effect>)

  /**
   * One call of `hw_config_cback`. A failed status means no buffer is
   * asked for. The event is always released; a call that does not
   * proceed releases the command buffer if still held, reports failure,
   * closes the patch file and returns to the initial state.
   */
  function Step(v: Variant, cb: ControlBlock, evt: seq<byte>, env: Env, io: Io): Outcome
    requires |evt| >= EvtMinLen && Inv(cb)
  {
    var c := EventCheck(cb.state, evt);
    var cb0 := cb.(state := c.state);
    var r := if c.status == 0 && io.allocOk then CaseOf(v, cb0, evt, env, io) else CaseResult(cb0, [], false, false);
    Finish(c.effects, r)
  }

  /**
   * The end of every call: the event is released; a call that does not
   * proceed releases the command buffer if still held, reports failure,
   * forgets the patch file and returns to the initial state.
   */
  function Finish(checked: seq<Effect>, r: CaseResult): Outcome
  {
    var es := checked + r.effects + [ReleaseEvent];
    if r.proceeding then Outcome(r.cb, es)
    else Outcome(r.cb.(state := Init, fwFd := None), es + (if r.held then [ReleaseCommand] else []) + [FwCfg(false)])
  }

  /** The reset command `hw_config_start` sends (WP2 build). */
  function ResetCommand(): (cmd: seq<byte>)
    ensures cmd == [0x03, 0x0C, 0x00]
  {
    Command(OpReset, [])
  }

  /** What `hw_config_start` leaves in the control block and does (WP2 build). */
  function Start(cb: ControlBlock, allocOk: bool): Outcome
  {
    var cb0 := cb.(state := Init, fwFd := None, isPatchEnabled := 0);
    if allocOk then Outcome(cb0.(state := ManufactureOn), [Send(OpReset, Some(IntelDefaultBdData), ResetCommand())])
    else Outcome(cb0, [FwCfg(false)])
  }

  /**
   * The control block `hw_cfg_cb` of one build, and the functions of
   * hardware.c that read and update it.
   */
  class HwCfg {
    const variant: Variant
    var state: CfgState
    var fwFd: Option<Stream>
    var isPatchEnabled: byte
    var address: u32
    var nrOfBytes: u32
    var patchLineSent: bool

    function Block(): ControlBlock
      reads this
    {
      ControlBlock(state, fwFd, isPatchEnabled, address, nrOfBytes, patchLineSent)
    }

    /** The zero-initialised static control block. */
    constructor(v: Variant)
      ensures variant == v && Block() == ControlBlock(Init, None, 0, 0, 0, false)
    {
      variant := v;
      state := Init;
      fwFd := None;
      isPatchEnabled := 0;
      address := 0;
      nrOfBytes := 0;
      patchLineSent := false;
    }

    /** `register_int_evt_callback`: reset the state and pass on the registration's result. */
    method RegisterIntEvtCallback(regResult: byte) returns (r: byte)
      modifies this
      ensures Block() == old(Block()).(state := Init) && r == regResult
    {
      state := Init;
      r := regResult;
    }

    /** `hw_config_start` (WP2 build): send HCI_Reset, or report failure without a buffer. */
    method ConfigStart(allocOk: bool) returns (effects: seq<Effect>)
      requires variant == Wp2Usb
      modifies this
      ensures Outcome(Block(), effects) == Start(old(Block()), allocOk)
    {
      state := Init;
      fwFd := None;
      isPatchEnabled := 0;
      if allocOk {
        var buf := new CmdBuffer(PreambleSize);
        var cmd := WriteCommand(buf, OpReset, []);
        state := ManufactureOn;
        effects := [Send(OpReset, Some(IntelDefaultBdData), cmd)];
      } else {
        effects := [FwCfg(false)];
      }
    }

    /** `check_event` */
    method CheckEvent(evt: seq<byte>) returns (status: byte, effects: seq<Effect>)
      requires |evt| >= EvtMinLen
      modifies this
      ensures Checked(status, state, effects) == EventCheck(old(state), evt)
      ensures Block() == old(Block()).(state := state)
    {
      effects := [];
      if evt[0] == EvtIntelDebug {
        var sub := evt[2];
        if sub == IntelStartup {
          status := 0;
        } else if sub == IntelWriteBdDataCmpl {
          status := evt[3];
        } else if sub == IntelDefaultBdData {
          if state == Init {
            effects := [DeregisterIntEvt];
            state := ManufactureOn;
          }
          status := if evt[3] == 0x02 then 0 else Failure;
        } else {
          status := Failure;
        }
      } else if evt[0] == EvtCommandComplete {
        status := evt[5];
      } else if evt[0] == EvtCommandStatus {
        status := evt[2];
      } else {
        status := 0;
      }
    }

    /** HW_CFG_MANUFACTURE_OFF, also reached by `goto` from the patch states. */
    method ManufactureOffCase(buf: CmdBuffer, io: Io) returns (effects: seq<Effect>, proceeding: bool, held: bool)
      requires buf.Valid() && buf.written == [] && buf.data.Length == CmdMaxLen
      modifies this, buf, buf.data
      ensures CaseResult(Block(), effects, proceeding, held) == ManufactureOffResult(old(Block()), io)
    {
      var cmd := WriteCommand(buf, OpManufactureMode, [0, isPatchEnabled]);
      state := ManufactureOffCmpl;
      effects, proceeding, held := [Send(OpManufactureMode, Some(IntelStartup), cmd)], io.xmitOk, true;
    }

    /** HW_CFG_MANUFACTURE_ON */
    method ManufactureOnCase(buf: CmdBuffer, evt: seq<byte>, io: Io) returns (effects: seq<Effect>, proceeding: bool, held: bool)
      requires buf.Valid() && buf.written == [] && buf.data.Length == CmdMaxLen && |evt| >= EvtMinLen
      modifies this, buf, buf.data
      ensures CaseResult(Block(), effects, proceeding, held) == ManufactureOnResult(variant, old(Block()), evt, io)
    {
      var cmd := WriteCommand(buf, OpManufactureMode, [1, 0]);
      if variant.Ag6xxUart? {
        state := BdData;
      } else if evt[2] == IntelDefaultBdData {
        state := SwReadVersion;
      } else {
        return [ReleaseCommand], true, false;
      }
      effects, proceeding, held := [Send(OpManufactureMode, Some(EvtCommandComplete), cmd)], io.xmitOk, true;
    }

    /** HW_CFG_BDDATA (AG6xx build) */
    method BdDataCase(buf: CmdBuffer, env: Env, io: Io) returns (effects: seq<Effect>, proceeding: bool, held: bool)
      requires buf.Valid() && buf.written == [] && buf.data.Length == CmdMaxLen
      modifies this, buf, buf.data
      ensures CaseResult(Block(), effects, proceeding, held) == BdDataResult(old(Block()), env, io)
    {
      buf.PutAll(LE16(OpInfBdData));
      buf.Put(BdDataParamSize);
      ghost var head := buf.written;
      var ok := OpenBddata(buf, env.bddata);
      if ok {
        state := BdDataStatus;
        var cmd := buf.Frame(PreambleSize + BdDataParamSize);
        TakeAppend(head, BdDataBytes(env.bddata.value), BdDataParamSize);
        ghost var params := Take(BdDataBytes(env.bddata.value), BdDataParamSize);
        assert cmd == Command(OpInfBdData, params);
        assert cmd == BdDataCommand(env.bddata.value);
        effects, proceeding, held := [Send(OpInfBdData, Some(IntelWriteBdDataCmpl), cmd)], io.xmitOk, true;
      } else {
        effects, proceeding, held := [FwCfg(false)], false, true;
      }
    }

    /** HW_CFG_SW_READ_VERSION */
    method SwReadVersionCase(buf: CmdBuffer, io: Io) returns (effects: seq<Effect>, proceeding: bool, held: bool)
      requires buf.Valid() && buf.written == [] && buf.data.Length == CmdMaxLen
      modifies this, buf, buf.data
      ensures CaseResult(Block(), effects, proceeding, held) == SwReadVersionResult(old(Block()), io)
    {
      var cmd := WriteCommand(buf, OpReadSwVersion, []);
      state := SwFindPatch;
      effects, proceeding, held := [Send(OpReadSwVersion, Some(EvtCommandComplete), cmd)], io.xmitOk, true;
    }

    /** HW_CFG_DL_FW_PATCH falling through into HW_CFG_DL_FW_PATCH1 (AG6xx build). */
    method DownloadCase(buf: CmdBuffer, io: Io) returns (effects: seq<Effect>, proceeding: bool, held: bool)
      requires buf.Valid() && buf.written == [] && buf.data.Length == CmdMaxLen && fwFd.Some?
      requires state == DlFwPatch || state == DlFwPatch1
      modifies this, buf, buf.data
      ensures CaseResult(Block(), effects, proceeding, held) == DownloadResult(old(Block()), io)
    {
      var s := DownloadStep(buf, fwFd.value, isPatchEnabled, address, nrOfBytes, state == DlFwPatch);
      effects, proceeding, held := DownloadedCase(buf, s, io);
    }

    /** The fields a download call read, and the goto, abort or memory write it ended in. */
    method DownloadedCase(buf: CmdBuffer, s: DlStep, io: Io) returns (effects: seq<Effect>, proceeding: bool, held: bool)
      requires buf.Valid() && buf.data.Length == CmdMaxLen && (s.outcome.Write? || buf.written == [])
      modifies this, buf, buf.data
      ensures CaseResult(Block(), effects, proceeding, held) == Downloaded(old(Block()), s, io)
    {
      fwFd, isPatchEnabled, address, nrOfBytes := Some(s.f), s.isPatchEnabled, s.address, s.nrOfBytes;
      match s.outcome
      case ToManufactureOff =>
        state := ManufactureOff;
        effects, proceeding, held := ManufactureOffCase(buf, io);
      case Abort =>
        state := if nrOfBytes == 0 then DlFwPatch1 else ManufactureOff;
        effects, proceeding, held := [], false, true;
      case Write(cmd, more) =>
        state := if more then DlFwPatch1 else DlFwPatch;
        effects, proceeding, held := [Send(OpInfMemWrite, Some(EvtCommandComplete), cmd)], io.xmitOk, true;
    }

    /**
     * HW_CFG_SW_FIND_PATCH: name the chip from the version event, locate
     * and open its patch, and fall through into the first download step.
     */
    method FindPatchCase(buf: CmdBuffer, evt: seq<byte>, env: Env, io: Io) returns (effects: seq<Effect>, proceeding: bool, held: bool)
      requires buf.Valid() && buf.written == [] && buf.data.Length == CmdMaxLen && |evt| >= EvtMinLen
      modifies this, buf, buf.data
      ensures CaseResult(Block(), effects, proceeding, held) == FindPatchResult(variant, old(Block()), evt, env, io)
    {
      ghost var cb := Block();
      var name := if variant.Ag6xxUart? then ChipIdAg6xx(evt) else ChipIdUsb(evt);
      var loc := FindPatch(name, env.cfg, env.dir, PathMaxLen, Extension(variant));
      assert loc == Locator(variant, evt, env);
      if !loc.found {
        state := ManufactureOff;
        assert FindPatchResult(variant, cb, evt, env, io) == ManufactureOffResult(Block(), io);
        effects, proceeding, held := ManufactureOffCase(buf, io);
        return;
      }
      fwFd := if loc.patchFile.Some? then Fopen(env.files, loc.patchFile.value) else None;
      assert FindPatchResult(variant, cb, evt, env, io) == Opened(variant, Block(), io);
      effects, proceeding, held := OpenedCase(buf, io);
    }

    /** The fall-through into manufacture-off, the download or the text patch. */
    method OpenedCase(buf: CmdBuffer, io: Io) returns (effects: seq<Effect>, proceeding: bool, held: bool)
      requires buf.Valid() && buf.written == [] && buf.data.Length == CmdMaxLen
      modifies this, buf, buf.data
      ensures CaseResult(Block(), effects, proceeding, held) == Opened(variant, old(Block()), io)
    {
      if fwFd.None? {
        state := ManufactureOff;
        effects, proceeding, held := ManufactureOffCase(buf, io);
      } else if variant.Ag6xxUart? {
        state := DlFwPatch;
        effects, proceeding, held := DownloadCase(buf, io);
      } else {
        state := MemWrite;
        effects, proceeding, held := MemWriteCase(buf, io);
      }
    }

    /** HW_CFG_SUCCESS: the startup event after manufacture-off completes the configuration. */
    method SuccessCase(evt: seq<byte>) returns (effects: seq<Effect>, proceeding: bool, held: bool)
      requires |evt| >= EvtMinLen
      modifies this
      ensures CaseResult(Block(), effects, proceeding, held) == SuccessResult(old(Block()), evt)
    {
      effects := [ReleaseCommand];
      if evt[2] != IntelStartup {
        return effects, false, false;
      }
      effects := effects + [FwCfg(true)];
      state := Init;
      fwFd := None;
      proceeding, held := true, false;
    }

    /** The `switch (hw_cfg_cb.state)` of `hw_config_cback`, for this build. */
    method Dispatch(buf: CmdBuffer, evt: seq<byte>, env: Env, io: Io) returns (effects: seq<Effect>, proceeding: bool, held: bool)
      requires buf.Valid() && buf.written == [] && buf.data.Length == CmdMaxLen && |evt| >= EvtMinLen && Inv(Block())
      modifies this, buf, buf.data
      ensures CaseResult(Block(), effects, proceeding, held) == CaseOf(variant, old(Block()), evt, env, io)
    {
      var ag := variant.Ag6xxUart?;
      match state
      case ManufactureOn =>
        effects, proceeding, held := ManufactureOnCase(buf, evt, io);
      case BdData =>
        if ag {
          effects, proceeding, held := BdDataCase(buf, env, io);
        } else {
          effects, proceeding, held := [ReleaseCommand], true, false;
        }
      case BdDataStatus =>
        if ag {
          state := SwReadVersion;
        }
        effects, proceeding, held := [ReleaseCommand], true, false;
      case SwReadVersion =>
        effects, proceeding, held := SwReadVersionCase(buf, io);
      case SwFindPatch =>
        effects, proceeding, held := FindPatchCase(buf, evt, env, io);
      case MemWrite =>
        if !ag {
          effects, proceeding, held := MemWriteCase(buf, io);
        } else {
          effects, proceeding, held := [ReleaseCommand], true, false;
        }
      case DlFwPatch =>
        if ag {
          effects, proceeding, held := DownloadCase(buf, io);
        } else {
          effects, proceeding, held := [ReleaseCommand], true, false;
        }
      case DlFwPatch1 =>
        if ag {
          effects, proceeding, held := DownloadCase(buf, io);
        } else {
          effects, proceeding, held := [ReleaseCommand], true, false;
        }
      case ManufactureOff =>
        effects, proceeding, held := ManufactureOffCase(buf, io);
      case ManufactureOffCmpl =>
        state := Success;
        effects, proceeding, held := [ReleaseCommand], true, false;
      case Success =>
        effects, proceeding, held := SuccessCase(evt);
      case Init =>
        effects, proceeding, held := [ReleaseCommand], true, false;
      case SetBaudHs =>
        effects, proceeding, held := [ReleaseCommand], true, false;
      case SetHostBaud =>
        effects, proceeding, held := [ReleaseCommand], true, false;
    }

    /**
     * `hw_config_cback`: check the event, ask for a command buffer, run
     * the switch, release the event, and take the abort path when the
     * configuration does not proceed.
     */
    method ConfigCback(evt: seq<byte>, env: Env, io: Io) returns (effects: seq<Effect>)
      requires |evt| >= EvtMinLen && Inv(Block())
      modifies this
      ensures Outcome(Block(), effects) == Step(variant, old(Block()), evt, env, io)
      ensures Inv(Block())
    {
      var status, checked := CheckEvent(evt);
      effects := checked;
      var proceeding, held := false, false;
      if status == 0 && io.allocOk {
        var buf := new CmdBuffer(CmdMaxLen);
        var es;
        es, proceeding, held := Dispatch(buf, evt, env, io);
        effects := effects + es;
      }
      effects := effects + [ReleaseEvent];
      if !proceeding {
        if held {
          effects := effects + [ReleaseCommand];
        }
        effects := effects + [FwCfg(false)];
        fwFd := None;
        state := Init;
      }
      StepKeepsInv(variant, old(Block()), evt, env, io);
    }

    /** HW_CFG_MEMWRITE (WP2 build): one "01" line of the text patch per call. */
    method MemWriteCase(buf: CmdBuffer, io: Io) returns (effects: seq<Effect>, proceeding: bool, held: bool)
      requires buf.Valid() && buf.written == [] && buf.data.Length == CmdMaxLen && fwFd.Some?
      requires state == MemWrite
      modifies this, buf, buf.data
      ensures CaseResult(Block(), effects, proceeding, held) == MemWriteResult(old(Block()), io)
    {
      if fwFd.value.eof {
        state := ManufactureOff;
        effects, proceeding, held := ManufactureOffCase(buf, io);
        return;
      }
      var line := Zeros(LineSize);
      assert Strlen(line) == 0;
      var g := Fgets(fwFd.value, line);
      var atEof, f;
      atEof, line, f := SkipLines(g.line, g.f);
      effects, proceeding, held := LineCase(buf, atEof, line, f, io);
    }

    /** HW_CFG_MEMWRITE after the skipping loop: end of file, a "01" line, or any other line. */
    method LineCase(buf: CmdBuffer, atEof: bool, line: seq<byte>, f: Stream, io: Io)
      returns (effects: seq<Effect>, proceeding: bool, held: bool)
      requires buf.Valid() && buf.written == [] && buf.data.Length == CmdMaxLen
      requires |line| == LineSize && Strlen(line) < LineSize
      modifies this, buf, buf.data
      ensures CaseResult(Block(), effects, proceeding, held) == MemWriteLine(old(Block()), Skipped(atEof, line, f), io)
    {
      ghost var cb := Block();
      if atEof {
        assert MemWriteLine(cb, Skipped(atEof, line, f), io)
            == ManufactureOffResult(cb.(fwFd := None, state := ManufactureOff,
                                        isPatchEnabled := if cb.patchLineSent then PatchEnabled else cb.isPatchEnabled), io);
        effects, proceeding, held := EndOfPatchCase(buf, io);
        return;
      }
      if line[0] == '0' as int && line[1] == '1' as int {
        fwFd := Some(f);
        patchLineSent := true;
        state := MemWrite;
        assert Block() == cb.(fwFd := Some(f), patchLineSent := true, state := MemWrite);
        var opcode, cmd := WriteLineCommand(buf, line);
        effects, proceeding, held := [Send(opcode, Some(EvtCommandComplete), cmd)], io.xmitOk, true;
      } else {
        fwFd := Some(f);
        assert MemWriteLine(cb, Skipped(atEof, line, f), io) == Stuck(cb.(fwFd := Some(f)));
        effects, proceeding, held := [], false, true;
      }
    }

    /** The end of the text patch: close it, and enable the patch if a line was sent. */
    method EndOfPatchCase(buf: CmdBuffer, io: Io) returns (effects: seq<Effect>, proceeding: bool, held: bool)
      requires buf.Valid() && buf.written == [] && buf.data.Length == CmdMaxLen
      modifies this, buf, buf.data
      ensures CaseResult(Block(), effects, proceeding, held)
           == ManufactureOffResult(old(Block()).(fwFd := None, state := ManufactureOff,
                isPatchEnabled := if old(patchLineSent) then PatchEnabled else old(isPatchEnabled)), io)
    {
      fwFd := None;
      if patchLineSent {
        isPatchEnabled := PatchEnabled;
      }
      state := ManufactureOff;
      effects, proceeding, held := ManufactureOffCase(buf, io);
    }

    }

  /** The `while` of HW_CFG_MEMWRITE: read on past filtered lines until one is not, or the end of file. */
  method SkipLines(line0: seq<byte>, f0: Stream) returns (atEof: bool, line: seq<byte>, f: Stream)
    requires |line0| == LineSize
    ensures Skipped(atEof, line, f) == SkipFiltered(line0, f0)
  {
    line, f := line0, f0;
    while Filtered(line)
      invariant |line| == LineSize
      invariant SkipFiltered(line, f) == SkipFiltered(line0, f0)
      decreases |f.rest|, !f.eof
    {
      if f.eof {
        return true, line, f;
      }
      var g := Fgets(f, line);
      line, f := g.line, g.f;
    }
    atEof := false;
  }

  /**
   * The packet for a "01" line, written into the buffer: opcode,
   * parameter length, then one byte for each pair of characters from
   * position 10 on.
   */
  method WriteLineCommand(buf: CmdBuffer, line: seq<byte>) returns (opcode: u16, cmd: seq<byte>)
    requires buf.Valid() && buf.written == [] && buf.data.Length == CmdMaxLen
    requires |line| == LineSize && Strlen(line) < LineSize
    modifies buf, buf.data
    ensures opcode == LineOpcode(line) && cmd == LinePacket(line)
  {
    var lo := FormByte(line[3], line[4]);
    var hi := FormByte(line[5], line[6]);
    opcode := FormWord(hi, lo);
    var length: int := Strlen(line);
    buf.PutAll(LE16(opcode));
    var plen := FormByte(line[8], line[9]);
    buf.Put(plen);
    PutLinePayload(buf, line, length);
    assert buf.written == LE16(LineOpcode(line)) + [LineParamLen(line)] + LinePayload(line, Strlen(line));
    cmd := buf.Frame(PreambleSize + plen);
  }

  /** The loop over a "01" line's characters from position 10: one byte per pair, up to the string's end. */
  method PutLinePayload(buf: CmdBuffer, line: seq<byte>, length: nat)
    requires buf.Valid() && length < |line| && 10 <= |line|
    modifies buf, buf.data
    ensures buf.Valid() && buf.data == old(buf.data)
    ensures buf.written == old(buf.written) + LinePayload(line, length)
  {
    ghost var n: nat := 0;
    var pos: int := 0;
    while pos < length - 10
      invariant pos == 2 * n && (length > 10 ==> pos <= length - 9) && (length <= 10 ==> pos == 0)
      invariant buf.Valid() && buf.data == old(buf.data) && buf.written == old(buf.written) + PairsFrom10(line, n)
    {
      var b := FormByte(line[10 + pos], line[11 + pos]);
      buf.Put(b);
      n := n + 1;
      pos := pos + 2;
    }
    PairsFrom10IsPayload(line, n, length);
  }

  /** The first `n` bytes decoded from position 10 of a line, as the loop writes them. */
  function PairsFrom10(line: seq<byte>, n: nat): seq<byte>
    requires 10 + 2 * n <= |line|
  {
    if n == 0 then [] else PairsFrom10(line, n - 1) + [FormByte(line[8 + 2 * n], line[9 + 2 * n])]
  }

  /** What the loop wrote is the line's payload, for either parity of the line's length. */
  lemma PairsFrom10IsPayload(line: seq<byte>, n: nat, len: nat)
    requires len < |line| && 10 + 2 * n <= |line|
    requires if len <= 10 then n == 0 else 2 * n == len - 9 || 2 * n == len - 10
    ensures PairsFrom10(line, n) == LinePayload(line, len)
  {
    PairsFrom10IsPairs(line, n);
    if len > 10 && 2 * n == len - 10 {
      var t := line[10..len + 1];
      assert t[..|t| - 1] == line[10..10 + 2 * n];
      HexPairsDropOdd(t);
    }
  }

  lemma {:induction false} PairsFrom10IsPairs(line: seq<byte>, n: nat)
    requires 10 + 2 * n <= |line|
    ensures PairsFrom10(line, n) == HexPairs(line[10..10 + 2 * n])
  {
    if n > 0 {
      var m := 8 + 2 * n;
      PairsFrom10IsPairs(line, n - 1);
      HexPairsSnoc(line[10..m], line[m], line[m + 1]);
      assert line[10..m + 2] == line[10..m] + [line[m], line[m + 1]];
    }
  }

  /** Every call leaves a patch file open in each state that reads one. */
  lemma StepKeepsInv(v: Variant, cb: ControlBlock, evt: seq<byte>, env: Env, io: Io)
    requires |evt| >= EvtMinLen && Inv(cb)
    ensures Inv(Step(v, cb, evt, env, io).cb)
  {
  }
}
