/**
 * The older firmware-configuration engine of hardware_intel.c (AG6xx
 * over UART). Its states come in a different order from hardware.c, it
 * ignores the status of the event it is called with, it has no default
 * branch, and it reaches the patch download through a settling state
 * (DL_MINIDRIVER).
 *
 * The specification of one call of `hw_config_cback` is `Step`, built from
 * `CaseOf` (one branch of the switch) and `Finish` (the common ending);
 * the class `HwCfg` holds the control block and performs the same call,
 * writing every command through a pointer into the transport buffer.
 */
module HwConfigIntel {
  import opened Bytes
  import opened Hci
  import opened Maybe
  import opened HwCommon
  import opened PatchLocator
  import opened PatchDownload
  import HwConfig

  /** The state enum (HW_CFG_START = 1 ... HW_CFG_DL_FW_PATCH1), with 0 as `Idle`. */
  datatype CfgState =
    | Idle | CfgStart | ManufactureOn | ManufactureOff | InfBdData | SetBaudHs | SetHostBaud
    | Success | SwReadVersion | DlMinidriver | SwFindPatch | DlFwPatch | DlFwPatch1

  /** The control block `hw_cfg_cb` of hardware_intel.c. */
  datatype ControlBlock = ControlBlock(state: CfgState, fwFd: Option<Stream>, isPatchEnabled: byte,
                                       address: u32, nrOfBytes: u32)

  /** `is_patch_enabled` before any patch was downloaded. */
  const PatchNotEnabled: byte := 1
  const PathMaxLen: nat := 248
  const Extension: string := ".pbn"
  /** The baud-rate code sent by HW_SET_BAUD_HS (2 Mbit/s). */
  const Baud2M: byte := 0x0A
  /** The event is read at offsets up to 8 (the hardware variant and revision). */
  const EvtMinLen: nat := 9

  /** A patch file is open in every state that reads one. */
  predicate Inv(cb: ControlBlock)
  {
    (cb.state == DlMinidriver || cb.state == DlFwPatch || cb.state == DlFwPatch1) ==> cb.fwFd.Some?
  }

  // ---------------------------------------------------------------- the switch

  /**
   * What one branch of the switch leaves: the control block, the effects,
   * `is_proceeding`, and whether the command buffer is still held.
   */
  datatype CaseResult = CaseResult(cb: ControlBlock, effects: seq<Effect>, proceeding: bool, held: bool)

  /** A branch that hands one command to `xmit_cb`; the call proceeds when the transport accepts it. */
  function Sent(cb: ControlBlock, opcode: u16, cmd: seq<byte>, io: HwConfig.Io): CaseResult
  {
    CaseResult(cb, [Send(opcode, None, cmd)], io.xmitOk, true)
  }

  /** A branch that leaves `is_proceeding` false without sending. */
  function Stuck(cb: ControlBlock): CaseResult
  {
    CaseResult(cb, [], false, true)
  }

  /** The manufacture-mode command entering the mode: {0x01, 0x00}. */
  function ManufactureOnCommand(): (cmd: seq<byte>)
    ensures cmd == [0x11, 0xFC, 0x02, 0x01, 0x00]
  {
    Command(OpManufactureMode, [1, 0])
  }

  /** The set-UART-baud command of HW_SET_BAUD_HS. */
  function SetBaudCommand(): (cmd: seq<byte>)
    ensures cmd == [0x06, 0xFC, 0x01, Baud2M]
  {
    Command(OpSetUartBaud, [Baud2M])
  }

  /** HW_CFG_INF_MANUFACTURE_OFF: leave manufacturing mode and go straight to HW_CFG_SUCCESS. */
  function ManufactureOffResult(cb: ControlBlock, io: HwConfig.Io): (r: CaseResult)
    ensures Inv(r.cb)
  {
    Sent(cb.(state := Success), OpManufactureMode, Command(OpManufactureMode, [0, cb.isPatchEnabled]), io)
  }

  /** HW_CFG_START (also reached from HW_SET_HOST_BAUD): enter manufacturing mode. */
  function StartResult(cb: ControlBlock, io: HwConfig.Io): (r: CaseResult)
    ensures Inv(r.cb)
  {
    Sent(cb.(state := InfBdData), OpManufactureMode, ManufactureOnCommand(), io)
  }

  /**
   * HW_SET_BAUD_HS: send the baud command, then fall through HW_SET_HOST_BAUD
   * into HW_CFG_START with the write position `p` not reset. The manufacture
   * command is written after the baud command, and the packet sent is the
   * first five bytes of the buffer; the call proceeds as the second
   * `xmit_cb` says.
   */
  function SetBaudResult(cb: ControlBlock, io: HwConfig.Io): (r: CaseResult)
    ensures Inv(r.cb)
  {
    CaseResult(cb.(state := InfBdData),
               [Send(OpSetUartBaud, None, SetBaudCommand()),
                Send(OpManufactureMode, None, Take(SetBaudCommand() + ManufactureOnCommand(), |ManufactureOnCommand()|))],
               io.xmitOk, true)
  }

  /** HW_CFG_INF_BDDATA: without a bddata file `fwcfg_cb(FAIL)` fires and the call does not proceed. */
  function BdDataResult(cb: ControlBlock, env: HwConfig.Env, io: HwConfig.Io): (r: CaseResult)
    ensures Inv(cb) ==> Inv(r.cb)
  {
    if env.bddata.None? then CaseResult(cb, [FwCfg(false)], false, true)
    else Sent(cb.(state := SwReadVersion), OpInfBdData, HwConfig.BdDataCommand(env.bddata.value), io)
  }

  /** SW_READ_VERSION: the extra zero byte written after the header is not part of the packet. */
  function SwReadVersionResult(cb: ControlBlock, io: HwConfig.Io): (r: CaseResult)
    ensures Inv(r.cb)
  {
    Sent(cb.(state := SwFindPatch), OpReadSwVersion, Command(OpReadSwVersion, []), io)
  }

  /** The patch lookup for the chip named by bytes 7 and 8 of the version event. */
  function Locator(evt: seq<byte>, env: HwConfig.Env): Located
    requires |evt| >= EvtMinLen
  {
    Locate(HwConfig.ChipIdAg6xx(evt), env.cfg, env.dir, PathMaxLen, Extension)
  }

  /**
   * SW_FIND_PATCH: locate and open the patch, then fall through
   * DL_MINIDRIVER into DL_FW_PATCH. A patch not found, or that cannot be
   * opened, goes to manufacture-off.
   */
  function FindPatchResult(cb: ControlBlock, evt: seq<byte>, env: HwConfig.Env, io: HwConfig.Io): (r: CaseResult)
    requires |evt| >= EvtMinLen
    ensures Inv(r.cb)
    ensures r.held && (r.proceeding ==> io.xmitOk)
  {
    var loc := Locator(evt, env);
    if !loc.found then ManufactureOffResult(cb.(state := ManufactureOff), io)
    else
      var fd := if loc.patchFile.Some? then Fopen(env.files, loc.patchFile.value) else None;
      if fd.None? then ManufactureOffResult(cb.(fwFd := None, state := ManufactureOff), io)
      else MinidriverResult(cb.(fwFd := fd, state := DlMinidriver), io)
  }

  /** HW_CFG_DL_MINIDRIVER: settle, then fall through into DL_FW_PATCH. */
  function MinidriverResult(cb: ControlBlock, io: HwConfig.Io): (r: CaseResult)
    requires cb.fwFd.Some?
    ensures Inv(r.cb)
    ensures r.held && (r.proceeding ==> io.xmitOk)
  {
    DownloadResult(cb.(state := DlFwPatch), io)
  }

  /** HW_CFG_DL_FW_PATCH / HW_CFG_DL_FW_PATCH1: one download call on the open patch file. */
  function DownloadResult(cb: ControlBlock, io: HwConfig.Io): (r: CaseResult)
    requires cb.fwFd.Some?
    ensures Inv(r.cb)
    ensures r.held && (r.proceeding ==> io.xmitOk)
  {
    Downloaded(cb, DownloadCall(cb.fwFd.value, cb.isPatchEnabled, cb.address, cb.nrOfBytes, cb.state == DlFwPatch), io)
  }

  /** The control block and branch a download call `s` leaves. */
  function Downloaded(cb: ControlBlock, s: DlStep, io: HwConfig.Io): (r: CaseResult)
    ensures Inv(r.cb)
    ensures r.held && (r.proceeding ==> io.xmitOk)
  {
    var cb1 := cb.(fwFd := Some(s.f), isPatchEnabled := s.isPatchEnabled, address := s.address, nrOfBytes := s.nrOfBytes);
    match s.outcome
    case ToManufactureOff => ManufactureOffResult(cb1.(state := ManufactureOff), io)
    case Abort => Stuck(cb1.(state := if s.nrOfBytes == 0 then DlFwPatch1 else ManufactureOff))
    case Write(cmd, more) => Sent(cb1.(state := if more then DlFwPatch1 else DlFwPatch), OpInfMemWrite, cmd, io)
  }

  /**
   * HW_CFG_SUCCESS: report success, close the patch and return to state 0,
   * whatever the event. The command buffer is neither sent nor released.
   */
  function SuccessResult(cb: ControlBlock): (r: CaseResult)
    ensures Inv(r.cb)
  {
    CaseResult(cb.(state := Idle, fwFd := None), [FwCfg(true)], true, true)
  }

  /** The switch on the state; state 0 and HW_CFG_INF_MANUFACTURE_ON have no branch. */
  function CaseOf(cb: ControlBlock, evt: seq<byte>, env: HwConfig.Env, io: HwConfig.Io): (r: CaseResult)
    requires |evt| >= EvtMinLen && Inv(cb)
    ensures Inv(r.cb)
  {
    match cb.state
    case Idle => Stuck(cb)
    case ManufactureOn => Stuck(cb)
    case SetBaudHs => SetBaudResult(cb, io)
    case SetHostBaud => StartResult(cb, io)
    case CfgStart => StartResult(cb, io)
    case InfBdData => BdDataResult(cb, env, io)
    case SwReadVersion => SwReadVersionResult(cb, io)
    case SwFindPatch => FindPatchResult(cb, evt, env, io)
    case DlMinidriver => MinidriverResult(cb, io)
    case DlFwPatch => DownloadResult(cb, io)
    case DlFwPatch1 => DownloadResult(cb, io)
    case ManufactureOff => ManufactureOffResult(cb, io)
    case Success => SuccessResult(cb)
  }

  /** The control block after a call, and everything the call did, in order. */
  datatype Outcome = Outcome(cb: ControlBlock, effects: seq<Effect>)

  /**
   * One call of `hw_config_cback`. The event's status is read and then
   * overwritten with 0, so a command buffer is asked for on every call.
   */
  function Step(cb: ControlBlock, evt: seq<byte>, env: HwConfig.Env, io: HwConfig.Io): Outcome
    requires |evt| >= EvtMinLen && Inv(cb)
  {
    var r := if io.allocOk then CaseOf(cb, evt, env, io) else CaseResult(cb, [], false, false);
    Finish(r)
  }

  /**
   * The end of every call: the event is released; a call that does not
   * proceed releases the command buffer if one was allocated, reports
   * failure, closes the patch file and returns to state 0.
   */
  function Finish(r: CaseResult): Outcome
  {
    var es := r.effects + [ReleaseEvent];
    if r.proceeding then Outcome(r.cb, es)
    else Outcome(r.cb.(state := Idle, fwFd := None), es + (if r.held then [ReleaseCommand] else []) + [FwCfg(false)])
  }

  /** What `hw_config_start` leaves and does: HCI_Reset, whose result is not looked at. */
  function Start(cb: ControlBlock, allocOk: bool): Outcome
  {
    var cb0 := cb.(state := Idle, fwFd := None, isPatchEnabled := PatchNotEnabled);
    if allocOk then Outcome(cb0.(state := CfgStart), [Send(OpReset, None, Command(OpReset, []))])
    else Outcome(cb0, [FwCfg(false)])
  }

  /** The control block `hw_cfg_cb` and the functions of hardware_intel.c that update it. */
  class HwCfg {
    var state: CfgState
    var fwFd: Option<Stream>
    var isPatchEnabled: byte
    var address: u32
    var nrOfBytes: u32

    function Block(): ControlBlock
      reads this
    {
      ControlBlock(state, fwFd, isPatchEnabled, address, nrOfBytes)
    }

    /** The zero-initialised static control block. */
    constructor()
      ensures Block() == ControlBlock(Idle, None, 0, 0, 0)
    {
      state := Idle;
      fwFd := None;
      isPatchEnabled := 0;
      address := 0;
      nrOfBytes := 0;
    }

    /** `hw_config_start`: send HCI_Reset, or report failure without a buffer. */
    method ConfigStart(allocOk: bool) returns (effects: seq<Effect>)
      modifies this
      ensures Outcome(Block(), effects) == Start(old(Block()), allocOk)
    {
      state := Idle;
      fwFd := None;
      isPatchEnabled := PatchNotEnabled;
      if allocOk {
        var buf := new CmdBuffer(PreambleSize);
        var cmd := WriteCommand(buf, OpReset, []);
        state := CfgStart;
        effects := [Send(OpReset, None, cmd)];
      } else {
        effects := [FwCfg(false)];
      }
    }

    /** HW_CFG_INF_MANUFACTURE_OFF, also reached by `goto` from the patch states. */
    method ManufactureOffCase(buf: CmdBuffer, io: HwConfig.Io) returns (effects: seq<Effect>, proceeding: bool, held: bool)
      requires buf.Valid() && buf.written == [] && buf.data.Length == CmdMaxLen
      modifies this, buf, buf.data
      ensures CaseResult(Block(), effects, proceeding, held) == ManufactureOffResult(old(Block()), io)
    {
      var cmd := WriteCommand(buf, OpManufactureMode, [0, isPatchEnabled]);
      state := Success;
      effects, proceeding, held := [Send(OpManufactureMode, None, cmd)], io.xmitOk, true;
    }

    /** HW_CFG_START */
    method StartCase(buf: CmdBuffer, io: HwConfig.Io) returns (effects: seq<Effect>, proceeding: bool, held: bool)
      requires buf.Valid() && buf.written == [] && buf.data.Length == CmdMaxLen
      modifies this, buf, buf.data
      ensures CaseResult(Block(), effects, proceeding, held) == StartResult(old(Block()), io)
    {
      var cmd := WriteCommand(buf, OpManufactureMode, [1, 0]);
      state := InfBdData;
      effects, proceeding, held := [Send(OpManufactureMode, None, cmd)], io.xmitOk, true;
    }

    /** HW_SET_BAUD_HS falling through into HW_CFG_START at the same write position. */
    method SetBaudCase(buf: CmdBuffer, io: HwConfig.Io) returns (effects: seq<Effect>, proceeding: bool, held: bool)
      requires buf.Valid() && buf.written == [] && buf.data.Length == CmdMaxLen
      modifies this, buf, buf.data
      ensures CaseResult(Block(), effects, proceeding, held) == SetBaudResult(old(Block()), io)
    {
      var baud := WriteCommand(buf, OpSetUartBaud, [Baud2M]);
      state := SetHostBaud;
      effects := [Send(OpSetUartBaud, None, baud)];
      buf.PutAll(LE16(OpManufactureMode));
      buf.Put(2);
      buf.Put(1);
      buf.Put(0);
      assert buf.written == SetBaudCommand() + ManufactureOnCommand();
      var cmd := buf.Frame(PreambleSize + 2);
      state := InfBdData;
      effects, proceeding, held := effects + [Send(OpManufactureMode, None, cmd)], io.xmitOk, true;
    }

    /** HW_CFG_INF_BDDATA */
    method BdDataCase(buf: CmdBuffer, env: HwConfig.Env, io: HwConfig.Io) returns (effects: seq<Effect>, proceeding: bool, held: bool)
      requires buf.Valid() && buf.written == [] && buf.data.Length == CmdMaxLen
      modifies this, buf, buf.data
      ensures CaseResult(Block(), effects, proceeding, held) == BdDataResult(old(Block()), env, io)
    {
      ghost var cb := Block();
      buf.PutAll(LE16(OpInfBdData));
      buf.Put(HwConfig.BdDataParamSize);
      ghost var head := buf.written;
      var ok := OpenBddata(buf, env.bddata);
      if ok {
        var cmd := buf.Frame(PreambleSize + HwConfig.BdDataParamSize);
        TakeAppend(head, BdDataBytes(env.bddata.value), HwConfig.BdDataParamSize);
        ghost var params := Take(BdDataBytes(env.bddata.value), HwConfig.BdDataParamSize);
        assert cmd == Command(OpInfBdData, params);
        assert cmd == HwConfig.BdDataCommand(env.bddata.value);
        assert BdDataResult(cb, env, io) == Sent(cb.(state := SwReadVersion), OpInfBdData, cmd, io);
        state := SwReadVersion;
        assert Block() == cb.(state := SwReadVersion);
        effects, proceeding, held := [Send(OpInfBdData, None, cmd)], io.xmitOk, true;
      } else {
        effects, proceeding, held := [FwCfg(false)], false, true;
      }
    }

    /** SW_READ_VERSION: header, parameter length 0, and one more zero byte not sent. */
    method SwReadVersionCase(buf: CmdBuffer, io: HwConfig.Io) returns (effects: seq<Effect>, proceeding: bool, held: bool)
      requires buf.Valid() && buf.written == [] && buf.data.Length == CmdMaxLen
      modifies this, buf, buf.data
      ensures CaseResult(Block(), effects, proceeding, held) == SwReadVersionResult(old(Block()), io)
    {
      buf.PutAll(LE16(OpReadSwVersion));
      buf.Put(0);
      buf.Put(0);
      assert buf.written == Command(OpReadSwVersion, []) + [0];
      var cmd := buf.Frame(PreambleSize);
      assert cmd == Command(OpReadSwVersion, []);
      state := SwFindPatch;
      effects, proceeding, held := [Send(OpReadSwVersion, None, cmd)], io.xmitOk, true;
    }

    /** SW_FIND_PATCH: name the chip, locate and open its patch, and fall through. */
    method FindPatchCase(buf: CmdBuffer, evt: seq<byte>, env: HwConfig.Env, io: HwConfig.Io)
      returns (effects: seq<Effect>, proceeding: bool, held: bool)
      requires buf.Valid() && buf.written == [] && buf.data.Length == CmdMaxLen && |evt| >= EvtMinLen
      modifies this, buf, buf.data
      ensures CaseResult(Block(), effects, proceeding, held) == FindPatchResult(old(Block()), evt, env, io)
    {
      ghost var cb := Block();
      var name := HwConfig.ChipIdAg6xx(evt);
      var loc := FindPatch(name, env.cfg, env.dir, PathMaxLen, Extension);
      assert loc == Locator(evt, env);
      if !loc.found {
        state := ManufactureOff;
        effects, proceeding, held := ManufactureOffCase(buf, io);
        return;
      }
      fwFd := if loc.patchFile.Some? then Fopen(env.files, loc.patchFile.value) else None;
      if fwFd.None? {
        state := ManufactureOff;
        assert FindPatchResult(cb, evt, env, io) == ManufactureOffResult(Block(), io);
        effects, proceeding, held := ManufactureOffCase(buf, io);
        return;
      }
      state := DlMinidriver;
      assert FindPatchResult(cb, evt, env, io) == MinidriverResult(Block(), io);
      state := DlFwPatch;
      effects, proceeding, held := DownloadCase(buf, io);
    }

    /** HW_CFG_DL_FW_PATCH (a record header first) or HW_CFG_DL_FW_PATCH1. */
    method DownloadCase(buf: CmdBuffer, io: HwConfig.Io) returns (effects: seq<Effect>, proceeding: bool, held: bool)
      requires buf.Valid() && buf.written == [] && buf.data.Length == CmdMaxLen && fwFd.Some?
      modifies this, buf, buf.data
      ensures CaseResult(Block(), effects, proceeding, held) == DownloadResult(old(Block()), io)
    {
      var s := DownloadStep(buf, fwFd.value, isPatchEnabled, address, nrOfBytes, state == DlFwPatch);
      effects, proceeding, held := DownloadedCase(buf, s, io);
    }

    /** The fields a download call read, and the goto, abort or memory write it ended in. */
    method DownloadedCase(buf: CmdBuffer, s: DlStep, io: HwConfig.Io) returns (effects: seq<Effect>, proceeding: bool, held: bool)
      requires buf.Valid() && buf.data.Length == CmdMaxLen && (s.outcome.Write? || buf.written == [])
      modifies this, buf, buf.data
      ensures CaseResult(Block(), effects, proceeding, held) == Downloaded(old(Block()), s, io)
    {
      fwFd, isPatchEnabled, address, nrOfBytes := Some(s.f), s.isPatchEnabled, s.address, s.nrOfBytes;
      match s.outcome
      case ToManufactureOff =>
        state := ManufactureOff;
        effects, proceeding, held := ManufactureOffCase(buf, io);
      case Abort =>
        state := if nrOfBytes == 0 then DlFwPatch1 else ManufactureOff;
        effects, proceeding, held := [], false, true;
      case Write(cmd, more) =>
        state := if more then DlFwPatch1 else DlFwPatch;
        effects, proceeding, held := [Send(OpInfMemWrite, None, cmd)], io.xmitOk, true;
    }

    /** The `switch (hw_cfg_cb.state)` of `hw_config_cback`. */
    method Dispatch(buf: CmdBuffer, evt: seq<byte>, env: HwConfig.Env, io: HwConfig.Io)
      returns (effects: seq<Effect>, proceeding: bool, held: bool)
      requires buf.Valid() && buf.written == [] && buf.data.Length == CmdMaxLen && |evt| >= EvtMinLen && Inv(Block())
      modifies this, buf, buf.data
      ensures CaseResult(Block(), effects, proceeding, held) == CaseOf(old(Block()), evt, env, io)
    {
      match state
      case Idle =>
        effects, proceeding, held := [], false, true;
      case ManufactureOn =>
        effects, proceeding, held := [], false, true;
      case SetBaudHs =>
        effects, proceeding, held := SetBaudCase(buf, io);
      case SetHostBaud =>
        effects, proceeding, held := StartCase(buf, io);
      case CfgStart =>
        effects, proceeding, held := StartCase(buf, io);
      case InfBdData =>
        effects, proceeding, held := BdDataCase(buf, env, io);
      case SwReadVersion =>
        effects, proceeding, held := SwReadVersionCase(buf, io);
      case SwFindPatch =>
        effects, proceeding, held := FindPatchCase(buf, evt, env, io);
      case DlMinidriver =>
        state := DlFwPatch;
        effects, proceeding, held := DownloadCase(buf, io);
      case DlFwPatch =>
        effects, proceeding, held := DownloadCase(buf, io);
      case DlFwPatch1 =>
        effects, proceeding, held := DownloadCase(buf, io);
      case ManufactureOff =>
        effects, proceeding, held := ManufactureOffCase(buf, io);
      case Success =>
        effects := [FwCfg(true)];
        state := Idle;
        fwFd := None;
        proceeding, held := true, true;
    }

    /**
     * `hw_config_cback`: ask for a command buffer (the event's status is
     * forced to 0), run the switch, release the event, and take the abort
     * path when the configuration does not proceed.
     */
    method ConfigCback(evt: seq<byte>, env: HwConfig.Env, io: HwConfig.Io) returns (effects: seq<Effect>)
      requires |evt| >= EvtMinLen && Inv(Block())
      modifies this
      ensures Outcome(Block(), effects) == Step(old(Block()), evt, env, io)
      ensures Inv(Block())
    {
      var status: byte := evt[5];
      status := 0;
      effects := [];
      var proceeding, held := false, false;
      if status == 0 && io.allocOk {
        var buf := new CmdBuffer(CmdMaxLen);
        effects, proceeding, held := Dispatch(buf, evt, env, io);
      }
      effects := effects + [ReleaseEvent];
      if !proceeding {
        if held {
          effects := effects + [ReleaseCommand];
        }
        effects := effects + [FwCfg(false)];
        fwFd := None;
        state := Idle;
      }
    }
  }
}
