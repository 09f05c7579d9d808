/**
 * Properties of the hardware_intel.c configuration engine: what each
 * call of `hw_config_cback` sends, where it leaves the state, and how it
 * ends, stated over `HwConfigIntel.Step`.
 */
module HwConfigIntelProps {
  import opened Bytes
  import opened Hci
  import opened Maybe
  import opened HwCommon
  import opened PatchLocator
  import opened PatchDownload
  import opened HwConfigIntel
  import HwConfig

  // ---------------------------------------------------------------- every call

  /**
   * The event's status is never looked at: two events that agree on the
   * hardware variant and revision bytes lead to the same call, whatever
   * their event code and status.
   */
  lemma EventStatusIgnored(cb: ControlBlock, evt: seq<byte>, evt': seq<byte>, env: HwConfig.Env, io: HwConfig.Io)
    requires |evt| >= EvtMinLen && |evt'| >= EvtMinLen && Inv(cb)
    requires evt[7] == evt'[7] && evt[8] == evt'[8]
    ensures Step(cb, evt, env, io) == Step(cb, evt', env, io)
  {
    assert HwConfig.ChipIdAg6xx(evt) == HwConfig.ChipIdAg6xx(evt');
  }

  /** No branch of the switch releases the event itself. */
  lemma CaseKeepsEvent(cb: ControlBlock, evt: seq<byte>, env: HwConfig.Env, io: HwConfig.Io)
    requires |evt| >= EvtMinLen && Inv(cb)
    ensures ReleaseEvent !in CaseOf(cb, evt, env, io).effects
  {
    match cb.state
    case SwFindPatch =>
      var loc := Locator(evt, env);
      var fd := if loc.patchFile.Some? then Fopen(env.files, loc.patchFile.value) else None;
      if loc.found && fd.Some? {
        var cb1 := cb.(fwFd := fd, state := DlFwPatch);
        DownloadedKeepsEvent(cb1, DownloadCall(cb1.fwFd.value, cb1.isPatchEnabled, cb1.address, cb1.nrOfBytes, true), io);
      }
    case DlMinidriver =>
      var cb1 := cb.(state := DlFwPatch);
      DownloadedKeepsEvent(cb1, DownloadCall(cb1.fwFd.value, cb1.isPatchEnabled, cb1.address, cb1.nrOfBytes, true), io);
    case DlFwPatch =>
      DownloadedKeepsEvent(cb, DownloadCall(cb.fwFd.value, cb.isPatchEnabled, cb.address, cb.nrOfBytes, true), io);
    case DlFwPatch1 =>
      DownloadedKeepsEvent(cb, DownloadCall(cb.fwFd.value, cb.isPatchEnabled, cb.address, cb.nrOfBytes, false), io);
    case _ =>
  }

  /** No download call releases the event. */
  lemma DownloadedKeepsEvent(cb: ControlBlock, s: DlStep, io: HwConfig.Io)
    ensures ReleaseEvent !in Downloaded(cb, s, io).effects
  {
  }

  /** Every call releases the received event exactly once. */
  lemma EveryCallReleasesEvent(cb: ControlBlock, evt: seq<byte>, env: HwConfig.Env, io: HwConfig.Io)
    requires |evt| >= EvtMinLen && Inv(cb)
    ensures Occurrences(Step(cb, evt, env, io).effects, ReleaseEvent) == 1
  {
    var r := if io.allocOk then CaseOf(cb, evt, env, io) else CaseResult(cb, [], false, false);
    if io.allocOk {
      CaseKeepsEvent(cb, evt, env, io);
    }
    OccurrencesAbsent(r.effects, ReleaseEvent);
    var tail := if r.proceeding then [] else if r.held then [ReleaseCommand, FwCfg(false)] else [FwCfg(false)];
    assert Step(cb, evt, env, io).effects == r.effects + ([ReleaseEvent] + tail);
    CountsCons(ReleaseEvent, tail);
    OccurrencesAbsent(tail, ReleaseEvent);
    CountsAppend(r.effects, [ReleaseEvent] + tail, ReleaseEvent);
  }

  /** Without a command buffer the call sends nothing, reports failure once and returns to state 0. */
  lemma AllocFailureAborts(cb: ControlBlock, evt: seq<byte>, env: HwConfig.Env, io: HwConfig.Io)
    requires |evt| >= EvtMinLen && Inv(cb) && !io.allocOk
    ensures Step(cb, evt, env, io) == Outcome(cb.(state := Idle, fwFd := None), [ReleaseEvent, FwCfg(false)])
  {
  }

  /**
   * A command the transport rejects ends the call on the abort path:
   * the command buffer is released, failure is reported and the state
   * returns to 0. HW_CFG_SUCCESS, which sends nothing, is the only state
   * that proceeds.
   */
  lemma RejectedCommandAborts(cb: ControlBlock, evt: seq<byte>, env: HwConfig.Env, io: HwConfig.Io)
    requires |evt| >= EvtMinLen && Inv(cb) && io.allocOk && !io.xmitOk && cb.state != Success
    ensures var o := Step(cb, evt, env, io);
      && o.cb.state == Idle && o.cb.fwFd.None?
      && o.effects[|o.effects| - 2..] == [ReleaseCommand, FwCfg(false)]
  {
    var r := CaseOf(cb, evt, env, io);
    assert !r.proceeding && r.held;
  }

  /** States without a branch (0 and HW_CFG_INF_MANUFACTURE_ON) take the abort path. */
  lemma NoCaseAborts(cb: ControlBlock, evt: seq<byte>, env: HwConfig.Env, io: HwConfig.Io)
    requires |evt| >= EvtMinLen && (cb.state == Idle || cb.state == ManufactureOn) && io.allocOk
    ensures Step(cb, evt, env, io) == Outcome(cb.(state := Idle, fwFd := None), [ReleaseEvent, ReleaseCommand, FwCfg(false)])
  {
    assert CaseOf(cb, evt, env, io) == Stuck(cb);
    assert [] + [ReleaseEvent] + [ReleaseCommand] + [FwCfg(false)] == [ReleaseEvent, ReleaseCommand, FwCfg(false)];
  }

  // ---------------------------------------------------------------- start and forward path

  /**
   * `hw_config_start`: `is_patch_enabled` 1 and no patch file; HCI_Reset
   * (0x0C03, no parameters) is sent and the state becomes HW_CFG_START;
   * without a buffer failure is reported and the state is 0.
   */
  lemma StartSendsReset(cb: ControlBlock, allocOk: bool)
    ensures var cb0 := cb.(fwFd := None, isPatchEnabled := PatchNotEnabled);
      Start(cb, allocOk) ==
        if allocOk then Outcome(cb0.(state := CfgStart), [Send(OpReset, None, [0x03, 0x0C, 0x00])])
        else Outcome(cb0.(state := Idle), [FwCfg(false)])
  {
    CommandLayout(OpReset, []);
    assert Command(OpReset, []) == [0x03, 0x0C, 0x00];
  }

  /** HW_CFG_START, and HW_SET_HOST_BAUD falling into it: 0xFC11 {0x01, 0x00}, then HW_CFG_INF_BDDATA. */
  lemma StartEntersManufacturing(cb: ControlBlock, evt: seq<byte>, env: HwConfig.Env, io: HwConfig.Io)
    requires |evt| >= EvtMinLen && (cb.state == CfgStart || cb.state == SetHostBaud) && io.allocOk && io.xmitOk
    ensures Step(cb, evt, env, io)
         == Outcome(cb.(state := InfBdData), [Send(OpManufactureMode, None, [0x11, 0xFC, 0x02, 0x01, 0x00]), ReleaseEvent])
  {
  }

  /** HW_CFG_INF_BDDATA with a bddata file: 0xFC2F with 80 bytes decoded from it, then SW_READ_VERSION. */
  lemma BdDataSent(cb: ControlBlock, evt: seq<byte>, env: HwConfig.Env, io: HwConfig.Io)
    requires |evt| >= EvtMinLen && cb.state == InfBdData && io.allocOk && io.xmitOk && env.bddata.Some?
    ensures var cmd := [0x2F, 0xFC, 80] + Take(BdDataBytes(env.bddata.value), 80);
      Step(cb, evt, env, io) == Outcome(cb.(state := SwReadVersion), [Send(OpInfBdData, None, cmd), ReleaseEvent])
  {
    CommandLayout(OpInfBdData, Take(BdDataBytes(env.bddata.value), 80));
  }

  /**
   * HW_CFG_INF_BDDATA without a bddata file: failure is reported in the
   * branch and again on the abort path, and the state returns to 0.
   */
  lemma MissingBdDataFailsTwice(cb: ControlBlock, evt: seq<byte>, env: HwConfig.Env, io: HwConfig.Io)
    requires |evt| >= EvtMinLen && cb.state == InfBdData && io.allocOk && env.bddata.None?
    ensures var o := Step(cb, evt, env, io);
      && o == Outcome(cb.(state := Idle, fwFd := None), [FwCfg(false), ReleaseEvent, ReleaseCommand, FwCfg(false)])
      && Occurrences(o.effects, FwCfg(false)) == 2
  {
    CountsOfList(FwCfg(false), ReleaseEvent, ReleaseCommand, FwCfg(false));
  }

  /** SW_READ_VERSION: 0xFC05 with no parameters (3 bytes), then SW_FIND_PATCH. */
  lemma ReadVersionSent(cb: ControlBlock, evt: seq<byte>, env: HwConfig.Env, io: HwConfig.Io)
    requires |evt| >= EvtMinLen && cb.state == SwReadVersion && io.allocOk && io.xmitOk
    ensures Step(cb, evt, env, io)
         == Outcome(cb.(state := SwFindPatch), [Send(OpReadSwVersion, None, [0x05, 0xFC, 0x00]), ReleaseEvent])
  {
    CommandLayout(OpReadSwVersion, []);
    assert Command(OpReadSwVersion, []) == [0x05, 0xFC, 0x00];
    assert CaseOf(cb, evt, env, io) == SwReadVersionResult(cb, io);
  }

  // ---------------------------------------------------------------- patch lookup

  /**
   * A patch not found, or found but not opened, goes to manufacture-off
   * in the same call with `is_patch_enabled` unchanged, and from there
   * straight to HW_CFG_SUCCESS.
   */
  lemma MissingPatchGoesOff(cb: ControlBlock, evt: seq<byte>, env: HwConfig.Env, io: HwConfig.Io)
    requires |evt| >= EvtMinLen && cb.state == SwFindPatch && io.allocOk && io.xmitOk
    requires var loc := Locator(evt, env);
      !loc.found || loc.patchFile.None? || loc.patchFile.value !in env.files
    ensures var loc := Locator(evt, env);
      Step(cb, evt, env, io)
        == Outcome(cb.(state := Success, fwFd := if loc.found then None else cb.fwFd),
                   [Send(OpManufactureMode, None, [0x11, 0xFC, 0x02, 0x00, cb.isPatchEnabled]), ReleaseEvent])
  {
    CommandLayout(OpManufactureMode, [0, cb.isPatchEnabled]);
    assert Command(OpManufactureMode, [0, cb.isPatchEnabled]) == [0x11, 0xFC, 0x02, 0x00, cb.isPatchEnabled];
    var loc := Locator(evt, env);
    var cbOff := cb.(state := ManufactureOff, fwFd := if loc.found then None else cb.fwFd);
    assert CaseOf(cb, evt, env, io) == ManufactureOffResult(cbOff, io);
  }

  /**
   * A patch found and opened is read from its first record header in the
   * same call: the call passes through DL_MINIDRIVER and is the first
   * download call, from DL_FW_PATCH.
   */
  lemma FoundPatchDownloads(cb: ControlBlock, evt: seq<byte>, env: HwConfig.Env, io: HwConfig.Io)
    requires |evt| >= EvtMinLen && cb.state == SwFindPatch
    requires var loc := Locator(evt, env);
      loc.found && loc.patchFile.Some? && loc.patchFile.value in env.files
    ensures var f := Stream(env.files[Locator(evt, env).patchFile.value], false);
      var cb1 := cb.(fwFd := Some(f), state := DlFwPatch);
      && CaseOf(cb, evt, env, io) == Downloaded(cb1, HeaderStep(f, cb.isPatchEnabled, cb.address, cb.nrOfBytes), io)
      && CaseOf(cb, evt, env, io).cb.state != DlMinidriver
  {
  }

  /** A configured patch name is reported found but never opened, so the lookup ends in manufacture-off. */
  lemma ConfiguredNameGoesOff(cb: ControlBlock, evt: seq<byte>, env: HwConfig.Env, io: HwConfig.Io)
    requires |evt| >= EvtMinLen && cb.state == SwFindPatch && io.allocOk && io.xmitOk
    requires |env.cfg.name| > 0
    ensures Step(cb, evt, env, io).cb.state == Success
  {
    ConfiguredNameWins(HwConfig.ChipIdAg6xx(evt), env.cfg, env.dir, PathMaxLen, Extension);
  }

  // ---------------------------------------------------------------- the binary download

  /**
   * HW_CFG_DL_FW_PATCH1 with n > 0 bytes left follows the rules of
   * hardware.c: 0xFC8E carrying the next min(n, 244) bytes at the current
   * address, the count dropping by that much and the address advancing
   * only while bytes remain; a short read sends nothing and aborts.
   */
  lemma ChunkCall(cb: ControlBlock, evt: seq<byte>, env: HwConfig.Env, io: HwConfig.Io)
    requires |evt| >= EvtMinLen && cb.state == DlFwPatch1 && cb.fwFd.Some? && io.allocOk && io.xmitOk
    requires cb.nrOfBytes > 0
    ensures var n := cb.nrOfBytes; var k := Min(n, PatchMaxLength); var f := cb.fwFd.value;
      var o := Step(cb, evt, env, io);
      if |f.rest| >= k then
        && o.effects == [Send(OpInfMemWrite, None, MemWriteCommand(cb.address, f.rest[..k])), ReleaseEvent]
        && o.cb.nrOfBytes == n - k
        && o.cb.address == (if n - k > 0 then (cb.address + k) % U32Modulus else cb.address)
        && o.cb.state == (if n - k > 0 then DlFwPatch1 else DlFwPatch)
        && o.cb.fwFd == Some(Stream(f.rest[k..], f.eof))
      else
        o == Outcome(cb.(state := Idle, fwFd := None, nrOfBytes := n), [ReleaseEvent, ReleaseCommand, FwCfg(false)])
  {
    var f := cb.fwFd.value;
    ChunkStepSends(f, cb.isPatchEnabled, cb.address, cb.nrOfBytes);
    assert CaseOf(cb, evt, env, io) == Downloaded(cb, ChunkStep(f, cb.isPatchEnabled, cb.address, cb.nrOfBytes), io);
  }

  /** A record of length 0 sends nothing and takes the abort path. */
  lemma EmptyRecordCallAborts(cb: ControlBlock, evt: seq<byte>, env: HwConfig.Env, io: HwConfig.Io)
    requires |evt| >= EvtMinLen && cb.state == DlFwPatch1 && cb.fwFd.Some? && io.allocOk
    requires cb.nrOfBytes == 0
    ensures Step(cb, evt, env, io) == Outcome(cb.(state := Idle, fwFd := None), [ReleaseEvent, ReleaseCommand, FwCfg(false)])
  {
    EmptyRecordAborts(cb.fwFd.value, cb.isPatchEnabled, cb.address);
  }

  /** The end marker at DL_FW_PATCH sets `is_patch_enabled` to 2 and leaves manufacturing mode with it. */
  lemma EndMarkerCall(cb: ControlBlock, tail: seq<byte>, e: bool, evt: seq<byte>, env: HwConfig.Env, io: HwConfig.Io)
    requires |evt| >= EvtMinLen && cb.state == DlFwPatch && cb.fwFd == Some(Stream(LE32(EndAddress) + tail, e))
    requires io.allocOk && io.xmitOk
    ensures var o := Step(cb, evt, env, io);
      && o.cb.state == Success && o.cb.isPatchEnabled == PatchEnabled && o.cb.fwFd == Some(Stream(tail, e))
      && o.effects == [Send(OpManufactureMode, None, [0x11, 0xFC, 0x02, 0x00, PatchEnabled]), ReleaseEvent]
  {
    var f := cb.fwFd.value;
    EndMarkerEnables(tail, e, cb.isPatchEnabled, cb.address, cb.nrOfBytes);
    assert CaseOf(cb, evt, env, io) == Downloaded(cb, HeaderStep(f, cb.isPatchEnabled, cb.address, cb.nrOfBytes), io);
    CommandLayout(OpManufactureMode, [0, PatchEnabled]);
    assert Command(OpManufactureMode, [0, PatchEnabled]) == [0x11, 0xFC, 0x02, 0x00, PatchEnabled];
  }

  // ---------------------------------------------------------------- the tail

  /** HW_CFG_INF_MANUFACTURE_OFF: 0xFC11 {0x00, is_patch_enabled}, then straight to HW_CFG_SUCCESS. */
  lemma OffGoesToSuccess(cb: ControlBlock, evt: seq<byte>, env: HwConfig.Env, io: HwConfig.Io)
    requires |evt| >= EvtMinLen && cb.state == ManufactureOff && io.allocOk && io.xmitOk
    ensures Step(cb, evt, env, io)
         == Outcome(cb.(state := Success), [Send(OpManufactureMode, None, [0x11, 0xFC, 0x02, 0x00, cb.isPatchEnabled]), ReleaseEvent])
  {
    CommandLayout(OpManufactureMode, [0, cb.isPatchEnabled]);
    assert Command(OpManufactureMode, [0, cb.isPatchEnabled]) == [0x11, 0xFC, 0x02, 0x00, cb.isPatchEnabled];
    assert CaseOf(cb, evt, env, io) == ManufactureOffResult(cb, io);
  }

  /**
   * HW_CFG_SUCCESS, on whatever event: success is reported, the patch
   * file is closed and the state returns to 0; the command buffer is
   * neither sent nor released.
   */
  lemma SuccessCompletes(cb: ControlBlock, evt: seq<byte>, env: HwConfig.Env, io: HwConfig.Io)
    requires |evt| >= EvtMinLen && cb.state == Success && io.allocOk
    ensures var o := Step(cb, evt, env, io);
      && o == Outcome(cb.(state := Idle, fwFd := None), [FwCfg(true), ReleaseEvent])
      && Occurrences(o.effects, ReleaseCommand) == 0 && CountSends(o.effects) == 0
  {
    var r := CaseOf(cb, evt, env, io);
    assert r == SuccessResult(cb);
    assert Step(cb, evt, env, io) == Finish(r);
    CountsOfList(FwCfg(true), ReleaseEvent, ReleaseEvent, ReleaseEvent);
  }

  // ---------------------------------------------------------------- the baud states

  /**
   * HW_SET_BAUD_HS and HW_SET_HOST_BAUD are never entered: neither
   * `hw_config_start` nor any call from another state leads into them.
   */
  lemma BaudStatesUnreachable(cb: ControlBlock, evt: seq<byte>, env: HwConfig.Env, io: HwConfig.Io, allocOk: bool)
    requires |evt| >= EvtMinLen && Inv(cb) && cb.state != SetBaudHs && cb.state != SetHostBaud
    ensures var s := Step(cb, evt, env, io).cb.state; s != SetBaudHs && s != SetHostBaud
    ensures var s := Start(cb, allocOk).cb.state; s != SetBaudHs && s != SetHostBaud
  {
    if io.allocOk {
      match cb.state
      case SwFindPatch =>
        var loc := Locator(evt, env);
        if loc.found && loc.patchFile.Some? && loc.patchFile.value in env.files {
          var cb1 := cb.(fwFd := Fopen(env.files, loc.patchFile.value), state := DlFwPatch);
          DownloadLeavesNoBaudState(cb1, DownloadCall(cb1.fwFd.value, cb1.isPatchEnabled, cb1.address, cb1.nrOfBytes, true), io);
        }
      case DlMinidriver =>
        var cb1 := cb.(state := DlFwPatch);
        DownloadLeavesNoBaudState(cb1, DownloadCall(cb1.fwFd.value, cb1.isPatchEnabled, cb1.address, cb1.nrOfBytes, true), io);
      case DlFwPatch =>
        DownloadLeavesNoBaudState(cb, DownloadCall(cb.fwFd.value, cb.isPatchEnabled, cb.address, cb.nrOfBytes, true), io);
      case DlFwPatch1 =>
        DownloadLeavesNoBaudState(cb, DownloadCall(cb.fwFd.value, cb.isPatchEnabled, cb.address, cb.nrOfBytes, false), io);
      case _ =>
    }
  }

  /** A download call never leaves a baud state. */
  lemma DownloadLeavesNoBaudState(cb: ControlBlock, s: DlStep, io: HwConfig.Io)
    ensures var st := Downloaded(cb, s, io).cb.state; st != SetBaudHs && st != SetHostBaud
  {
  }

  /**
   * Were HW_SET_BAUD_HS entered, the packet it hands on with the
   * manufacture opcode would be the baud command followed by one byte:
   * its opcode field is that of the baud command.
   */
  lemma SetBaudResendsBaud(cb: ControlBlock, io: HwConfig.Io)
    ensures var r := SetBaudResult(cb, io);
      && r.effects[1] == Send(OpManufactureMode, None, [0x06, 0xFC, 0x01, Baud2M, 0x11])
      && Opcode(r.effects[1].cmd) == OpSetUartBaud
  {
    var w := SetBaudCommand() + ManufactureOnCommand();
    assert Take(w, 5) == w[..5];
  }

  /** Every call keeps a patch file open in each state that reads one. */
  lemma StepKeepsInv(cb: ControlBlock, evt: seq<byte>, env: HwConfig.Env, io: HwConfig.Io)
    requires |evt| >= EvtMinLen && Inv(cb)
    ensures Inv(Step(cb, evt, env, io).cb)
  {
  }

  /** A list without `e` counts no `e`. */
  lemma {:induction false} OccurrencesAbsent(es: seq<Effect>, e: Effect)
    requires e !in es
    ensures Occurrences(es, e) == 0
  {
    if |es| > 0 {
      assert es[0] != e;
      OccurrencesAbsent(es[1..], e);
    }
  }
}
