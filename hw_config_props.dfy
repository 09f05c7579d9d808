/**
 * What one call of `hw_config_cback` (hardware.c) does, stated against
 * the specification `HwConfig.Step`: the event classifier, the single
 * abort path, the forward path of both builds, the patch lookup, the
 * chunked download and the WP2 text patch.
 */
module HwConfigProps {
  import opened Bytes
  import opened Hci
  import opened Hex
  import opened Maybe
  import opened HwCommon
  import opened PatchLocator
  import opened PatchDownload
  import opened HwConfig

  // ---------------------------------------------------------------- check_event

  /**
   * Command Complete carries its status at byte 5, Command Status at byte
   * 2; the Intel debug event is classified by its sub-event at byte 2;
   * every other event counts as success. Only the default-bddata event
   * changes the state, and only from Init.
   */
  lemma EventCheckClassifies(state: CfgState, evt: seq<byte>)
    requires |evt| >= EvtMinLen
    ensures var c := EventCheck(state, evt);
      && (evt[0] == EvtCommandComplete ==> c.status == evt[5])
      && (evt[0] == EvtCommandStatus ==> c.status == evt[2])
      && (evt[0] == EvtIntelDebug && evt[2] == IntelStartup ==> c.status == 0)
      && (evt[0] == EvtIntelDebug && evt[2] == IntelWriteBdDataCmpl ==> c.status == evt[3])
      && (evt[0] == EvtIntelDebug && evt[2] == IntelDefaultBdData ==> (c.status == 0 <==> evt[3] == 0x02))
      && ((evt[0] == EvtIntelDebug && evt[2] != IntelStartup && evt[2] != IntelWriteBdDataCmpl
             && evt[2] != IntelDefaultBdData) ==> c.status == Failure)
      && (evt[0] != EvtCommandComplete && evt[0] != EvtCommandStatus && evt[0] != EvtIntelDebug ==> c.status == 0)
  {
  }

  /**
   * `check_event` moves the state, and deregisters the interrupt-event
   * callback, exactly when the default-bddata event arrives in Init.
   */
  lemma EventCheckMovesOnlyFromInit(state: CfgState, evt: seq<byte>)
    requires |evt| >= EvtMinLen
    ensures var c := EventCheck(state, evt);
      var moves := evt[0] == EvtIntelDebug && evt[2] == IntelDefaultBdData && state == Init;
      && (c.state != state <==> moves)
      && (moves ==> c.state == ManufactureOn && c.effects == [DeregisterIntEvt])
      && (!moves ==> c.effects == [])
  {
  }

  // ---------------------------------------------------------------- the abort path

  /**
   * The shapes a branch of the switch can take: one command sent (buffer
   * held), the buffer released, nothing done, FAIL reported in the
   * branch, or the buffer released and SUCCESS reported.
   */
  predicate Tame(r: CaseResult)
  {
    || (|r.effects| == 1 && r.effects[0].Send? && r.held)
    || (r.effects == [ReleaseCommand] && !r.held)
    || r.effects == []
    || (r.effects == [FwCfg(false)] && r.held)
    || (r.effects == [ReleaseCommand, FwCfg(true)] && !r.held)
  }

  /** Whether a branch reports SUCCESS. */
  predicate Succeeds(r: CaseResult)
  {
    r.effects == [ReleaseCommand, FwCfg(true)]
  }

  lemma ManufactureOffTame(cb: ControlBlock, io: Io)
    ensures Tame(ManufactureOffResult(cb, io)) && !Succeeds(ManufactureOffResult(cb, io))
  {
  }

  lemma DownloadTame(cb: ControlBlock, io: Io)
    requires cb.fwFd.Some?
    ensures Tame(DownloadResult(cb, io)) && !Succeeds(DownloadResult(cb, io))
  {
    var s := DownloadCall(cb.fwFd.value, cb.isPatchEnabled, cb.address, cb.nrOfBytes, cb.state == DlFwPatch);
    assert DownloadResult(cb, io) == Downloaded(cb, s, io);
  }

  lemma MemWriteTame(cb: ControlBlock, io: Io)
    requires cb.fwFd.Some?
    ensures Tame(MemWriteResult(cb, io)) && !Succeeds(MemWriteResult(cb, io))
  {
  }

  lemma FindPatchTame(v: Variant, cb: ControlBlock, evt: seq<byte>, env: Env, io: Io)
    requires |evt| >= EvtMinLen
    ensures Tame(FindPatchResult(v, cb, evt, env, io)) && !Succeeds(FindPatchResult(v, cb, evt, env, io))
  {
    var loc := Locator(v, evt, env);
    if loc.found {
      var fd := if loc.patchFile.Some? then Fopen(env.files, loc.patchFile.value) else None;
      var cb1 := cb.(fwFd := fd);
      if fd.Some? && v.Ag6xxUart? {
        DownloadTame(cb1.(state := DlFwPatch), io);
      } else if fd.Some? {
        MemWriteTame(cb1.(state := MemWrite), io);
      }
    }
  }

  /**
   * Every branch of the switch has one of the shapes of `Tame`, and only
   * the Success branch, on the startup event, reports SUCCESS.
   */
  lemma CaseOfTame(v: Variant, cb: ControlBlock, evt: seq<byte>, env: Env, io: Io)
    requires |evt| >= EvtMinLen && Inv(cb)
    ensures var r := CaseOf(v, cb, evt, env, io);
      Tame(r) && (Succeeds(r) <==> cb.state == Success && evt[2] == IntelStartup)
  {
    match cb.state
    case SwFindPatch => FindPatchTame(v, cb, evt, env, io);
    case MemWrite => if v.Wp2Usb? { MemWriteTame(cb, io); }
    case DlFwPatch => if v.Ag6xxUart? { DownloadTame(cb, io); }
    case DlFwPatch1 => if v.Ag6xxUart? { DownloadTame(cb, io); }
    case ManufactureOff => ManufactureOffTame(cb, io);
    case ManufactureOn =>
    case BdData =>
    case BdDataStatus =>
    case SwReadVersion =>
    case ManufactureOffCmpl =>
    case Success =>
    case Init =>
    case SetBaudHs =>
    case SetHostBaud =>
  }

  /** A list with no event release, no SUCCESS report and no command counts zero of each. */
  lemma {:induction false} Quiet(es: seq<Effect>)
    requires forall i :: 0 <= i < |es| ==> es[i] != ReleaseEvent && es[i] != FwCfg(true) && !es[i].Send?
    ensures Occurrences(es, ReleaseEvent) == 0 && Occurrences(es, FwCfg(true)) == 0 && CountSends(es) == 0
  {
    if |es| > 0 {
      Quiet(es[1..]);
    }
  }

  /** The counts of each shape of branch. */
  lemma TameCounts(r: CaseResult)
    requires Tame(r)
    ensures Occurrences(r.effects, ReleaseEvent) == 0
    ensures Occurrences(r.effects, FwCfg(true)) == (if Succeeds(r) then 1 else 0)
    ensures CountSends(r.effects) <= 1
  {
    if Succeeds(r) {
      Quiet(r.effects[1..][1..]);
    } else if |r.effects| > 0 {
      Quiet(r.effects[1..]);
    }
  }

  /** What the end of a call releases, sends and reports, for a branch of any shape. */
  lemma FinishCounts(checked: seq<Effect>, r: CaseResult)
    requires checked == [] || checked == [DeregisterIntEvt]
    requires Occurrences(r.effects, ReleaseEvent) == 0 && CountSends(r.effects) <= 1
    ensures var o := Finish(checked, r);
      && Occurrences(o.effects, ReleaseEvent) == 1
      && CountSends(o.effects) <= 1
      && Occurrences(o.effects, FwCfg(true)) == Occurrences(r.effects, FwCfg(true))
  {
    var es := checked + r.effects + [ReleaseEvent];
    var tail := (if r.proceeding then [] else if r.held then [ReleaseCommand, FwCfg(false)] else [FwCfg(false)]);
    assert Finish(checked, r).effects == es + tail;
    Quiet(checked);
    Quiet(tail);
    Quiet([ReleaseEvent][1..]);
    CountsAppend(checked, r.effects, ReleaseEvent);
    CountsAppend(checked + r.effects, [ReleaseEvent], ReleaseEvent);
    CountsAppend(es, tail, ReleaseEvent);
    CountsAppend(checked, r.effects, FwCfg(true));
    CountsAppend(checked + r.effects, [ReleaseEvent], FwCfg(true));
    CountsAppend(es, tail, FwCfg(true));
  }

  /** An accepted event: the branch of the current state runs and the call ends as `Finish` says. */
  lemma StepAccepted(v: Variant, cb: ControlBlock, evt: seq<byte>, env: Env, io: Io)
    requires |evt| >= EvtMinLen && Inv(cb) && Accepted(cb, evt, io)
    ensures Step(v, cb, evt, env, io) == Finish([], CaseOf(v, cb, evt, env, io))
  {
    assert cb.(state := cb.state) == cb;
  }

  /**
   * A failed event status, or no command buffer: nothing is sent, no
   * command buffer is released, the event is released, one
   * `fwcfg_cb(FAIL)` fires, the patch file is closed and the state
   * returns to Init; the other fields are kept.
   */
  lemma FailureAborts(v: Variant, cb: ControlBlock, evt: seq<byte>, env: Env, io: Io)
    requires |evt| >= EvtMinLen && Inv(cb)
    requires EventCheck(cb.state, evt).status != 0 || !io.allocOk
    ensures var o := Step(v, cb, evt, env, io);
      && o.cb == cb.(state := Init, fwFd := None)
      && o.effects == EventCheck(cb.state, evt).effects + [ReleaseEvent, FwCfg(false)]
      && CountSends(o.effects) == 0
      && Occurrences(o.effects, ReleaseCommand) == 0
      && Occurrences(o.effects, FwCfg(false)) == 1
  {
    var c := EventCheck(cb.state, evt);
    EventCheckMovesOnlyFromInit(cb.state, evt);
    assert c.effects + [] + [ReleaseEvent] + [] + [FwCfg(false)] == c.effects + [ReleaseEvent, FwCfg(false)];
    var tail := [ReleaseEvent, FwCfg(false)];
    assert tail[1..] == [FwCfg(false)] && tail[1..][1..] == [];
    CountsAppend(c.effects, tail, ReleaseCommand);
    CountsAppend(c.effects, tail, FwCfg(false));
  }

  /**
   * Every call releases the received event exactly once and sends at
   * most one command; `fwcfg_cb(SUCCESS)` fires exactly in state Success
   * on an accepted startup event.
   */
  lemma EveryCallReleasesEvent(v: Variant, cb: ControlBlock, evt: seq<byte>, env: Env, io: Io)
    requires |evt| >= EvtMinLen && Inv(cb)
    ensures var o := Step(v, cb, evt, env, io);
      var c := EventCheck(cb.state, evt);
      && Occurrences(o.effects, ReleaseEvent) == 1
      && CountSends(o.effects) <= 1
      && Occurrences(o.effects, FwCfg(true)) ==
           (if c.state == Success && c.status == 0 && io.allocOk && evt[2] == IntelStartup then 1 else 0)
  {
    var c := EventCheck(cb.state, evt);
    EventCheckMovesOnlyFromInit(cb.state, evt);
    var cb0 := cb.(state := c.state);
    var r := if c.status == 0 && io.allocOk then CaseOf(v, cb0, evt, env, io) else CaseResult(cb0, [], false, false);
    if c.status == 0 && io.allocOk {
      CaseOfTame(v, cb0, evt, env, io);
    }
    assert Step(v, cb, evt, env, io) == Finish(c.effects, r);
    TameCounts(r);
    FinishCounts(c.effects, r);
  }

  /** A state without a branch of its own releases the command buffer and proceeds: the call changes nothing else. */
  lemma DefaultCaseProceeds(v: Variant, cb: ControlBlock, evt: seq<byte>, env: Env, io: Io)
    requires |evt| >= EvtMinLen && cb.state == SetHostBaud
    requires EventCheck(cb.state, evt).status == 0 && io.allocOk
    ensures Step(v, cb, evt, env, io) == Outcome(cb, [ReleaseCommand, ReleaseEvent])
  {
  }

  /** In Init only the default-bddata event moves the machine; any other accepted event is dropped. */
  lemma InitIgnoresOtherEvents(v: Variant, cb: ControlBlock, evt: seq<byte>, env: Env, io: Io)
    requires |evt| >= EvtMinLen && cb.state == Init && Inv(cb)
    requires !(evt[0] == EvtIntelDebug && evt[2] == IntelDefaultBdData)
    requires EventCheck(cb.state, evt).status == 0 && io.allocOk
    ensures Step(v, cb, evt, env, io) == Outcome(cb, [ReleaseCommand, ReleaseEvent])
  {
  }

  // ---------------------------------------------------------------- the forward path

  /** The bytes of the manufacture-off command. */
  lemma OffCommand(pe: byte)
    ensures Command(OpManufactureMode, [0, pe]) == [0x11, 0xFC, 0x02, 0x00, pe]
  {
    CommandLayout(OpManufactureMode, [0, pe]);
  }

  /** An event the classifier accepts without moving the state, a buffer, and a transport that takes the command. */
  predicate Accepted(cb: ControlBlock, evt: seq<byte>, io: Io)
    requires |evt| >= EvtMinLen
  {
    EventCheck(cb.state, evt) == Checked(0, cb.state, []) && io.allocOk && io.xmitOk
  }

  /** AG6xx manufacture-on: 0xFC11 with parameters {0x01, 0x00}, five bytes in all, then BdData. */
  lemma Ag6xxManufactureOn(cb: ControlBlock, evt: seq<byte>, env: Env, io: Io)
    requires |evt| >= EvtMinLen && cb.state == ManufactureOn && Accepted(cb, evt, io)
    ensures Step(Ag6xxUart, cb, evt, env, io) ==
      Outcome(cb.(state := BdData), [Send(0xFC11, Some(0x0E), [0x11, 0xFC, 0x02, 0x01, 0x00]), ReleaseEvent])
  {
    CommandLayout(OpManufactureMode, [1, 0]);
    assert Command(OpManufactureMode, [1, 0]) == [0x11, 0xFC, 0x02, 0x01, 0x00];
    var r := CaseOf(Ag6xxUart, cb, evt, env, io);
    assert r == Sent(cb.(state := BdData), OpManufactureMode, Some(EvtCommandComplete), Command(OpManufactureMode, [1, 0]), io);
    assert r.proceeding;
  }

  /** WP2 manufacture-on: the Command Complete of HCI_Reset is dropped; the default-bddata event sends 0xFC11 and goes to read the version. */
  lemma UsbManufactureOn(cb: ControlBlock, evt: seq<byte>, env: Env, io: Io)
    requires |evt| >= EvtMinLen && cb.state == ManufactureOn && Accepted(cb, evt, io)
    ensures Step(Wp2Usb, cb, evt, env, io) ==
      if evt[2] == IntelDefaultBdData then
        Outcome(cb.(state := SwReadVersion), [Send(0xFC11, Some(0x0E), [0x11, 0xFC, 0x02, 0x01, 0x00]), ReleaseEvent])
      else Outcome(cb, [ReleaseCommand, ReleaseEvent])
  {
    CommandLayout(OpManufactureMode, [1, 0]);
    assert Command(OpManufactureMode, [1, 0]) == [0x11, 0xFC, 0x02, 0x01, 0x00];
    var r := CaseOf(Wp2Usb, cb, evt, env, io);
    assert r == ManufactureOnResult(Wp2Usb, cb, evt, io);
    assert r.proceeding;
  }

  /** AG6xx bddata: 0xFC2F with the 80 parameter bytes decoded from the file, awaiting the write-bddata-complete event. */
  lemma Ag6xxBdData(cb: ControlBlock, evt: seq<byte>, env: Env, io: Io)
    requires |evt| >= EvtMinLen && cb.state == BdData && Accepted(cb, evt, io) && env.bddata.Some?
    ensures Step(Ag6xxUart, cb, evt, env, io) ==
      Outcome(cb.(state := BdDataStatus),
              [Send(0xFC2F, Some(0x19), [0x2F, 0xFC, 80] + Take(BdDataBytes(env.bddata.value), BdDataParamSize)), ReleaseEvent])
  {
    StepAccepted(Ag6xxUart, cb, evt, env, io);
    assert CaseOf(Ag6xxUart, cb, evt, env, io) == BdDataResult(cb, env, io);
    CommandLayout(OpInfBdData, Take(BdDataBytes(env.bddata.value), BdDataParamSize));
  }

  /** Without a bddata file `fwcfg_cb(FAIL)` fires in the branch and again on the abort path. */
  lemma Ag6xxMissingBdData(cb: ControlBlock, evt: seq<byte>, env: Env, io: Io)
    requires |evt| >= EvtMinLen && cb.state == BdData && Accepted(cb, evt, io) && env.bddata.None?
    ensures var o := Step(Ag6xxUart, cb, evt, env, io);
      && o == Outcome(cb.(state := Init, fwFd := None), [FwCfg(false), ReleaseEvent, ReleaseCommand, FwCfg(false)])
      && Occurrences(o.effects, FwCfg(false)) == 2
  {
    StepAccepted(Ag6xxUart, cb, evt, env, io);
    assert CaseOf(Ag6xxUart, cb, evt, env, io) == BdDataResult(cb, env, io);
    var es := [FwCfg(false), ReleaseEvent, ReleaseCommand, FwCfg(false)];
    assert es[1..][1..][1..][1..] == [];
  }

  /** AG6xx bddata status: nothing is sent, the buffer is released, and the version is read next. */
  lemma Ag6xxBdDataStatus(cb: ControlBlock, evt: seq<byte>, env: Env, io: Io)
    requires |evt| >= EvtMinLen && cb.state == BdDataStatus && Accepted(cb, evt, io)
    ensures Step(Ag6xxUart, cb, evt, env, io) == Outcome(cb.(state := SwReadVersion), [ReleaseCommand, ReleaseEvent])
  {
  }

  /** Read version: 0xFC05 with no parameters, three bytes, then the patch lookup. */
  lemma ReadVersionSends(v: Variant, cb: ControlBlock, evt: seq<byte>, env: Env, io: Io)
    requires |evt| >= EvtMinLen && cb.state == SwReadVersion && Accepted(cb, evt, io)
    ensures Step(v, cb, evt, env, io) ==
      Outcome(cb.(state := SwFindPatch), [Send(0xFC05, Some(0x0E), [0x05, 0xFC, 0x00]), ReleaseEvent])
  {
    CommandLayout(OpReadSwVersion, []);
    assert Command(OpReadSwVersion, []) == [0x05, 0xFC, 0x00];
    assert CaseOf(v, cb, evt, env, io) == SwReadVersionResult(cb, io);
  }

  /** A command the transport rejects: the buffer is released, FAIL fires and the machine returns to Init. */
  lemma RejectedCommandAborts(v: Variant, cb: ControlBlock, evt: seq<byte>, env: Env, io: Io)
    requires |evt| >= EvtMinLen && cb.state == SwReadVersion
    requires EventCheck(cb.state, evt) == Checked(0, cb.state, []) && io.allocOk && !io.xmitOk
    ensures Step(v, cb, evt, env, io) ==
      Outcome(cb.(state := Init, fwFd := None),
              [Send(0xFC05, Some(0x0E), [0x05, 0xFC, 0x00]), ReleaseEvent, ReleaseCommand, FwCfg(false)])
  {
    CommandLayout(OpReadSwVersion, []);
    assert Command(OpReadSwVersion, []) == [0x05, 0xFC, 0x00];
    var r := CaseOf(v, cb, evt, env, io);
    assert r == SwReadVersionResult(cb, io);
    assert !r.proceeding && r.held;
  }

  // ---------------------------------------------------------------- the patch lookup

  /** A patch that is not found, or cannot be opened, goes to manufacture-off in the same call with `is_patch_enabled` kept. */
  lemma MissingPatchGoesOff(v: Variant, cb: ControlBlock, evt: seq<byte>, env: Env, io: Io)
    requires |evt| >= EvtMinLen && cb.state == SwFindPatch && Accepted(cb, evt, io)
    requires var loc := Locator(v, evt, env);
      !loc.found || loc.patchFile.None? || loc.patchFile.value !in env.files
    ensures Step(v, cb, evt, env, io) ==
      Outcome(cb.(state := ManufactureOffCmpl, fwFd := if Locator(v, evt, env).found then None else cb.fwFd),
              [Send(0xFC11, Some(IntelStartup), [0x11, 0xFC, 0x02, 0x00, cb.isPatchEnabled]), ReleaseEvent])
  {
    OffCommand(cb.isPatchEnabled);
    StepAccepted(v, cb, evt, env, io);
    LookupGoesOff(v, cb, evt, env, io);
    assert CaseOf(v, cb, evt, env, io) == FindPatchResult(v, cb, evt, env, io);
  }

  /** The lookup's own branch for a patch that is missing or cannot be opened. */
  lemma LookupGoesOff(v: Variant, cb: ControlBlock, evt: seq<byte>, env: Env, io: Io)
    requires |evt| >= EvtMinLen
    requires var loc := Locator(v, evt, env);
      !loc.found || loc.patchFile.None? || loc.patchFile.value !in env.files
    ensures FindPatchResult(v, cb, evt, env, io) ==
      ManufactureOffResult(cb.(state := ManufactureOff, fwFd := if Locator(v, evt, env).found then None else cb.fwFd), io)
  {
    var loc := Locator(v, evt, env);
    var cbOff := cb.(state := ManufactureOff, fwFd := if loc.found then None else cb.fwFd);
    if loc.found {
      var fd := if loc.patchFile.Some? then Fopen(env.files, loc.patchFile.value) else None;
      assert fd.None?;
      assert FindPatchResult(v, cb, evt, env, io) == Opened(v, cb.(fwFd := fd), io);
    }
  }

  /** A patch found and opened is read in the same call: the binary download (AG6xx) or the text patch (WP2). */
  lemma FoundPatchIsRead(v: Variant, cb: ControlBlock, evt: seq<byte>, env: Env, io: Io)
    requires |evt| >= EvtMinLen && cb.state == SwFindPatch && Accepted(cb, evt, io)
    requires var loc := Locator(v, evt, env);
      loc.found && loc.patchFile.Some? && loc.patchFile.value in env.files
    ensures var file := env.files[Locator(v, evt, env).patchFile.value];
      var cb1 := cb.(fwFd := Some(Stream(file, false)));
      CaseOf(v, cb, evt, env, io) ==
        if v.Ag6xxUart? then DownloadResult(cb1.(state := DlFwPatch), io) else MemWriteResult(cb1.(state := MemWrite), io)
  {
  }

  /** A configured patch name is reported found but never opened, so the lookup always ends in manufacture-off. */
  lemma ConfiguredNameGoesOff(v: Variant, cb: ControlBlock, evt: seq<byte>, env: Env, io: Io)
    requires |evt| >= EvtMinLen && cb.state == SwFindPatch && Accepted(cb, evt, io)
    requires |env.cfg.name| > 0
    ensures Step(v, cb, evt, env, io).cb.state == ManufactureOffCmpl
  {
    ConfiguredNameWins(ChipId(v, evt), env.cfg, env.dir, PathMaxLen, Extension(v));
  }

  // ---------------------------------------------------------------- the binary download

  /**
   * DL_FW_PATCH1 with n > 0 bytes left: 0xFC8E carrying the next
   * min(n, 244) bytes of the file at the current address; the count drops
   * by that much and the address advances only while bytes remain; a
   * short read sends nothing and aborts.
   */
  lemma ChunkCall(cb: ControlBlock, evt: seq<byte>, env: Env, io: Io)
    requires |evt| >= EvtMinLen && cb.state == DlFwPatch1 && cb.fwFd.Some? && Accepted(cb, evt, io)
    requires cb.nrOfBytes > 0
    ensures var n := cb.nrOfBytes; var k := Min(n, PatchMaxLength); var f := cb.fwFd.value;
      var o := Step(Ag6xxUart, cb, evt, env, io);
      if |f.rest| >= k then
        && o.effects == [Send(OpInfMemWrite, Some(EvtCommandComplete), MemWriteCommand(cb.address, f.rest[..k])), ReleaseEvent]
        && o.cb.nrOfBytes == n - k
        && o.cb.address == (if n - k > 0 then (cb.address + k) % U32Modulus else cb.address)
        && o.cb.state == (if n - k > 0 then DlFwPatch1 else DlFwPatch)
        && o.cb.fwFd == Some(Stream(f.rest[k..], f.eof))
      else
        o.cb.state == Init && o.cb.fwFd.None? && CountSends(o.effects) == 0 && Occurrences(o.effects, FwCfg(false)) == 1
  {
    var f := cb.fwFd.value;
    ChunkStepSends(f, cb.isPatchEnabled, cb.address, cb.nrOfBytes);
    StepAccepted(Ag6xxUart, cb, evt, env, io);
    var s := ChunkStep(f, cb.isPatchEnabled, cb.address, cb.nrOfBytes);
    assert CaseOf(Ag6xxUart, cb, evt, env, io) == Downloaded(cb, s, io);
    var r := Downloaded(cb, s, io);
    assert Step(Ag6xxUart, cb, evt, env, io) == Finish([], r);
    var k := Min(cb.nrOfBytes, PatchMaxLength);
    if |f.rest| >= k {
      assert s.f == Stream(f.rest[k..], f.eof);
      assert r.effects == [Send(OpInfMemWrite, Some(EvtCommandComplete), MemWriteCommand(cb.address, f.rest[..k]))];
    } else {
      assert !r.proceeding && r.held && r.effects == [];
      var es := [ReleaseEvent, ReleaseCommand, FwCfg(false)];
      assert Step(Ag6xxUart, cb, evt, env, io).effects == es;
      assert es[1..][1..][1..] == [];
    }
  }

  /** A record of length 0 sends nothing and takes the abort path. */
  lemma EmptyRecordCallAborts(cb: ControlBlock, evt: seq<byte>, env: Env, io: Io)
    requires |evt| >= EvtMinLen && cb.state == DlFwPatch1 && cb.fwFd.Some? && Accepted(cb, evt, io)
    requires cb.nrOfBytes == 0
    ensures Step(Ag6xxUart, cb, evt, env, io) ==
      Outcome(cb.(state := Init, fwFd := None), [ReleaseEvent, ReleaseCommand, FwCfg(false)])
  {
  }

  /** The end marker: `is_patch_enabled` becomes 2 and manufacture-off is sent with it, in the same call. */
  lemma EndMarkerCall(cb: ControlBlock, evt: seq<byte>, env: Env, io: Io, tail: seq<byte>, e: bool)
    requires |evt| >= EvtMinLen && cb.state == DlFwPatch && Accepted(cb, evt, io)
    requires cb.fwFd == Some(Stream(LE32(EndAddress) + tail, e))
    ensures var o := Step(Ag6xxUart, cb, evt, env, io);
      && o.cb.state == ManufactureOffCmpl && o.cb.isPatchEnabled == PatchEnabled
      && o.effects == [Send(0xFC11, Some(IntelStartup), [0x11, 0xFC, 0x02, 0x00, 0x02]), ReleaseEvent]
  {
    EndMarkerEnables(tail, e, cb.isPatchEnabled, cb.address, cb.nrOfBytes);
    OffCommand(PatchEnabled);
  }

  /** A file that ends at a record header goes to manufacture-off with `is_patch_enabled` kept. */
  lemma EmptyHeaderCall(cb: ControlBlock, evt: seq<byte>, env: Env, io: Io)
    requires |evt| >= EvtMinLen && cb.state == DlFwPatch && Accepted(cb, evt, io)
    requires cb.fwFd.Some? && var f := cb.fwFd.value; |f.rest| == 0 || (|f.rest| == 4 && FromLE(f.rest) != EndAddress)
    ensures var o := Step(Ag6xxUart, cb, evt, env, io);
      && o.cb.state == ManufactureOffCmpl && o.cb.isPatchEnabled == cb.isPatchEnabled
      && o.effects == [Send(0xFC11, Some(IntelStartup), [0x11, 0xFC, 0x02, 0x00, cb.isPatchEnabled]), ReleaseEvent]
  {
    EmptyHeaderStops(cb.fwFd.value, cb.isPatchEnabled, cb.address, cb.nrOfBytes);
    OffCommand(cb.isPatchEnabled);
  }

  // ---------------------------------------------------------------- the tail

  /** Manufacture-off complete sends nothing and waits for the startup event. */
  lemma OffCompleteWaits(v: Variant, cb: ControlBlock, evt: seq<byte>, env: Env, io: Io)
    requires |evt| >= EvtMinLen && cb.state == ManufactureOffCmpl && Accepted(cb, evt, io)
    ensures Step(v, cb, evt, env, io) == Outcome(cb.(state := Success), [ReleaseCommand, ReleaseEvent])
  {
  }

  /** Success: the startup event reports SUCCESS and resets the state; any other event takes the abort path. */
  lemma SuccessStep(v: Variant, cb: ControlBlock, evt: seq<byte>, env: Env, io: Io)
    requires |evt| >= EvtMinLen && cb.state == Success && Accepted(cb, evt, io)
    ensures Step(v, cb, evt, env, io) ==
      if evt[2] == IntelStartup then Outcome(cb.(state := Init, fwFd := None), [ReleaseCommand, FwCfg(true), ReleaseEvent])
      else Outcome(cb.(state := Init, fwFd := None), [ReleaseCommand, ReleaseEvent, FwCfg(false)])
  {
  }

  // ---------------------------------------------------------------- the WP2 text patch

  /** A filtered line is read past: the skip restarts from the next line. */
  lemma FilteredLineSkipped(line: seq<byte>, f: Stream)
    requires |line| == LineSize && Filtered(line) && !f.eof
    ensures var g := Fgets(f, line); SkipFiltered(line, f) == SkipFiltered(g.line, g.f)
  {
  }

  /**
   * A "01" line is sent as an HCI command: opcode from characters 3-6
   * (low byte first), parameter length from characters 8-9, and the
   * parameters decoded from character 10 on.
   */
  lemma CommandLineSent(cb: ControlBlock, s: Skipped, io: Io)
    requires |s.line| == LineSize && Strlen(s.line) < LineSize && !s.atEof
    requires s.line[0] == '0' as int && s.line[1] == '1' as int
    ensures var r := MemWriteLine(cb, s, io);
      var cmd := LinePacket(s.line);
      && r.effects == [Send(LineOpcode(s.line), Some(EvtCommandComplete), cmd)]
      && r.cb.state == MemWrite && r.cb.patchLineSent
      && |cmd| == PreambleSize + LineParamLen(s.line)
      && cmd[..2] == [FormByte(s.line[3], s.line[4]), FormByte(s.line[5], s.line[6])]
      && cmd[2] == FormByte(s.line[8], s.line[9])
  {
    var line := s.line;
    var head := LE16(LineOpcode(line)) + [LineParamLen(line)];
    var w := head + LinePayload(line, Strlen(line));
    var n := PreambleSize + LineParamLen(line);
    assert LinePacket(line) == Take(w, n);
    var t := Take(w, n);
    assert |t| == n;
    assert t[..2] == w[..2] && t[2] == w[2];
  }

  /** The end of the patch file goes to manufacture-off, with the patch enabled exactly when a command line was sent. */
  lemma EndOfTextPatch(cb: ControlBlock, s: Skipped, io: Io)
    requires |s.line| == LineSize && Strlen(s.line) < LineSize && s.atEof
    ensures var r := MemWriteLine(cb, s, io);
      && r.cb.state == ManufactureOffCmpl && r.cb.fwFd.None?
      && r.cb.isPatchEnabled == (if cb.patchLineSent then PatchEnabled else cb.isPatchEnabled)
      && r.effects == [Send(0xFC11, Some(IntelStartup), [0x11, 0xFC, 0x02, 0x00, r.cb.isPatchEnabled])]
  {
    OffCommand(if cb.patchLineSent then PatchEnabled else cb.isPatchEnabled);
  }

  /** A line that is neither filtered nor a "01" line stops the call: the abort path follows. */
  lemma OtherLineStops(cb: ControlBlock, s: Skipped, io: Io)
    requires |s.line| == LineSize && Strlen(s.line) < LineSize && !s.atEof
    requires !(s.line[0] == '0' as int && s.line[1] == '1' as int)
    ensures var r := MemWriteLine(cb, s, io); !r.proceeding && r.effects == [] && r.held
  {
  }

  /**
   * A patch whose last command line ends in a newline leaves the file at
   * its end with the end-of-file indicator still clear: `fgets` reads the
   * final newline and stops there.
   */
  lemma LastLineKeepsEofClear(l: seq<byte>, line: seq<byte>, e: bool)
    requires |line| == LineSize && |l| < LineSize - 2
    requires forall i :: 0 <= i < |l| ==> l[i] != '\n' as int
    ensures Fgets(Stream(l + ['\n' as int], e), line).f == Stream([], e)
  {
    var rest := l + ['\n' as int];
    var n := FgetsCount(rest, LineSize - 1);
    assert n == |rest|;
  }

  /**
   * The next call then finds no line: `fgets` returns NULL on the zeroed
   * buffer, which is neither filtered nor a "01" line, so the call does
   * not proceed and takes the abort path instead of manufacture-off.
   */
  lemma DrainedFileStops(cb: ControlBlock, io: Io)
    requires cb.fwFd == Some(Stream([], false))
    ensures var r := MemWriteResult(cb, io);
      !r.proceeding && r.effects == [] && r.cb.state == cb.state
  {
    var g := Fgets(Stream([], false), Zeros(LineSize));
    assert g.line == Zeros(LineSize);
    assert !Filtered(g.line);
  }

  /**
   * With the `fgets` result checked, a drained file is the end of the
   * patch: it is closed and manufacture-off is sent, with the patch
   * enabled exactly when a command line was sent.
   */
  lemma DrainedFileGoesOff(cb: ControlBlock, io: Io)
    requires cb.fwFd == Some(Stream([], false))
    ensures var r := MemWriteResultChecked(cb, io);
      && r.cb.state == ManufactureOffCmpl && r.cb.fwFd.None?
      && r.cb.isPatchEnabled == (if cb.patchLineSent then PatchEnabled else cb.isPatchEnabled)
      && r.effects == [Send(0xFC11, Some(IntelStartup), [0x11, 0xFC, 0x02, 0x00, r.cb.isPatchEnabled])]
  {
    var g := Fgets(Stream([], false), Zeros(LineSize));
    assert Strlen(g.line) == 0 by { assert g.line == Zeros(LineSize); }
    EndOfTextPatch(cb, Skipped(true, g.line, g.f), io);
  }

  /** Wherever the first `fgets` gets a line, the checked branch does what the source does. */
  lemma CheckedAgreesOnLine(cb: ControlBlock, io: Io)
    requires cb.fwFd.Some? && |cb.fwFd.value.rest| > 0
    ensures MemWriteResultChecked(cb, io) == MemWriteResult(cb, io)
  {
  }
}
