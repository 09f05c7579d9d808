/**
 * The low-power-mode and SCO parts of hardware_intel.c: the sleep-mode
 * command `hw_lpm_enable` sends, its completion callback, the idle
 * timeout, and the SCO interface configuration with its callback. The
 * build-time settings (`LPM_*`, `SCO_*`, `PCM_DATA_FMT_*`) are parameters.
 */
module HwLpmSco {
  import opened Bytes
  import opened Hci
  import opened Maybe
  import opened HwCommon
  import HwConfig

  const LpmCmdParamSize: nat := 12

  /** `bt_lpm_param_t`: twelve one-byte fields in declaration order. */
  datatype LpmParam = LpmParam(sleepMode: byte, hostStackIdleThreshold: byte, hostControllerIdleThreshold: byte,
                               btWakePolarity: byte, hostWakePolarity: byte, allowHostSleepDuringSco: byte,
                               combineSleepModeAndLpm: byte, enableUartTxdTriState: byte, sleepGuardTime: byte,
                               wakeupGuardTime: byte, txdConfig: byte, pulsedHostWake: byte)

  /**
   * The static `lpm_param` of a build: its `LPM_*` settings, with the
   * guard times and TXD configuration 0.
   */
  function StaticLpmParam(sleepMode: byte, idle: byte, hcIdle: byte, btWake: byte, hostWake: byte,
                          allowSco: byte, combine: byte, txdTriState: byte, pulsedHostWake: byte): (p: LpmParam)
    ensures p.sleepGuardTime == 0 && p.wakeupGuardTime == 0 && p.txdConfig == 0
    ensures p.hostStackIdleThreshold == idle && p.btWakePolarity == btWake
  {
    LpmParam(sleepMode, idle, hcIdle, btWake, hostWake, allowSco, combine, txdTriState, 0, 0, 0, pulsedHostWake)
  }

  /** The bytes `memcpy` copies out of the struct: one per field, no padding. */
  function LpmBytes(p: LpmParam): (r: seq<byte>)
    ensures |r| == LpmCmdParamSize
    ensures r[0] == p.sleepMode && r[1] == p.hostStackIdleThreshold && r[3] == p.btWakePolarity
    ensures r[8] == p.sleepGuardTime && r[11] == p.pulsedHostWake
  {
    [p.sleepMode, p.hostStackIdleThreshold, p.hostControllerIdleThreshold, p.btWakePolarity,
     p.hostWakePolarity, p.allowHostSleepDuringSco, p.combineSleepModeAndLpm, p.enableUartTxdTriState,
     p.sleepGuardTime, p.wakeupGuardTime, p.txdConfig, p.pulsedHostWake]
  }

  /** The write-sleep-mode command: the parameters when turning on, twelve zeros when turning off. */
  function SleepModeCommand(turnOn: bool, p: LpmParam): (cmd: seq<byte>)
    ensures |cmd| == PreambleSize + LpmCmdParamSize
    ensures cmd[..PreambleSize] == [0x27, 0xFC, 12]
    ensures Params(cmd) == if turnOn then LpmBytes(p) else Zeros(LpmCmdParamSize)
  {
    Command(OpWriteSleepMode, if turnOn then LpmBytes(p) else Zeros(LpmCmdParamSize))
  }

  /** What `hw_lpm_enable` returns, and what it does in order. */
  datatype LpmResult = LpmResult(ret: bool, effects: seq<Effect>)

  /**
   * `hw_lpm_enable`: set the LPM_MODE line and send the command; a
   * rejected command is released; without a buffer or with a rejected
   * command `lpm_cb(FAIL)` fires and the result is FALSE.
   */
  function LpmEnabled(turnOn: bool, p: LpmParam, io: HwConfig.Io): LpmResult
  {
    if !io.allocOk then LpmResult(false, [LpmCb(false)])
    else
      var sent := [UpioLpmMode(turnOn), Send(OpWriteSleepMode, None, SleepModeCommand(turnOn, p))];
      if io.xmitOk then LpmResult(true, sent) else LpmResult(false, sent + [ReleaseCommand, LpmCb(false)])
  }

  method LpmEnable(turnOn: bool, p: LpmParam, io: HwConfig.Io) returns (ret: bool, effects: seq<Effect>)
    ensures LpmResult(ret, effects) == LpmEnabled(turnOn, p, io)
  {
    ret := false;
    effects := [];
    if io.allocOk {
      var buf := new CmdBuffer(PreambleSize + LpmCmdParamSize);
      // `memcpy` of `lpm_param`, or `memset` to zero, after the header
      var cmd := WriteCommand(buf, OpWriteSleepMode, if turnOn then LpmBytes(p) else Zeros(LpmCmdParamSize));
      effects := [UpioLpmMode(turnOn)];
      ret := io.xmitOk;
      effects := effects + [Send(OpWriteSleepMode, None, cmd)];
      if !ret {
        effects := effects + [ReleaseCommand];
      }
    }
    if !ret {
      effects := effects + [LpmCb(false)];
    }
  }

  /** `hw_lpm_ctrl_cback`: success exactly when the Command Complete status (byte 5) is 0. */
  function LpmCtrlCback(evt: seq<byte>): (es: seq<Effect>)
    requires |evt| > 5
    ensures |es| == 2 && es[1] == ReleaseEvent
    ensures es[0] == LpmCb(true) <==> evt[5] == 0
    ensures es[0] == LpmCb(false) <==> evt[5] != 0
  {
    [LpmCb(evt[5] == 0), ReleaseEvent]
  }

  /**
   * `hw_lpm_get_idle_timeout`: the host stack idle threshold times the
   * build's `LPM_IDLE_TIMEOUT_MULTIPLE`, as a 32-bit product.
   */
  function IdleTimeout(p: LpmParam, multiple: u32): (t: u32)
    ensures p.hostStackIdleThreshold as int * multiple as int < U32Modulus ==> t as int == p.hostStackIdleThreshold as int * multiple as int
    ensures p.hostStackIdleThreshold == 0 ==> t == 0
  {
    var prod := p.hostStackIdleThreshold as int * multiple as int;
    assert p.hostStackIdleThreshold == 0 ==> prod == 0;
    prod % U32Modulus
  }

  /** The SCO interface a build configures: PCM (the default) or I2S/PCM. */
  datatype ScoInterface = Pcm | I2sPcm

  function ScoOpcode(iface: ScoInterface): u16
  {
    if iface.Pcm? then OpScoPcmInt else OpScoI2sPcmInt
  }

  /**
   * `hw_sco_config`: send the interface parameters; `scocfg_cb(FAIL)` fires
   * when there is no buffer or the command is rejected (and released).
   */
  function ScoConfigured(iface: ScoInterface, scoParam: seq<byte>, io: HwConfig.Io): seq<Effect>
    requires |scoParam| < 256
  {
    if !io.allocOk then [ScoCfg(false)]
    else
      var send := Send(ScoOpcode(iface), None, Command(ScoOpcode(iface), scoParam));
      if io.xmitOk then [send] else [send, ReleaseCommand, ScoCfg(false)]
  }

  method ScoConfig(iface: ScoInterface, scoParam: seq<byte>, io: HwConfig.Io) returns (effects: seq<Effect>)
    requires |scoParam| < 256
    ensures effects == ScoConfigured(iface, scoParam, io)
  {
    effects := [];
    if io.allocOk {
      var buf := new CmdBuffer(PreambleSize + |scoParam|);
      var opcode := ScoOpcode(iface);
      var cmd := WriteCommand(buf, opcode, scoParam);
      effects := [Send(opcode, None, cmd)];
      if io.xmitOk {
        return;
      }
      effects := effects + [ReleaseCommand];
    }
    effects := effects + [ScoCfg(false)];
  }

  /** The opcode of the command an event completes (bytes 3 and 4). */
  function EventOpcode(evt: seq<byte>): u16
    requires |evt| > 4
  {
    evt[3] as int + 256 * evt[4] as int
  }

  /**
   * `hw_sco_cfg_cback`: release the event; in the PCM build, the completion
   * of the PCM interface command is followed by the PCM data-format
   * command. Every other path, including a rejected format command,
   * reports success.
   */
  function ScoCfgDone(iface: ScoInterface, evt: seq<byte>, pcmFmt: seq<byte>, io: HwConfig.Io): seq<Effect>
    requires |evt| > 4 && |pcmFmt| < 256
  {
    if iface.Pcm? && EventOpcode(evt) == OpScoPcmInt && io.allocOk then
      var send := Send(OpPcmDataFormat, None, Command(OpPcmDataFormat, pcmFmt));
      if io.xmitOk then [ReleaseEvent, send] else [ReleaseEvent, send, ReleaseCommand, ScoCfg(true)]
    else [ReleaseEvent, ScoCfg(true)]
  }

  method ScoCfgCback(iface: ScoInterface, evt: seq<byte>, pcmFmt: seq<byte>, io: HwConfig.Io) returns (effects: seq<Effect>)
    requires |evt| > 4 && |pcmFmt| < 256
    ensures effects == ScoCfgDone(iface, evt, pcmFmt, io)
  {
    var opcode := evt[3] as int + 256 * evt[4] as int;
    effects := [ReleaseEvent];
    if iface.Pcm? && opcode == OpScoPcmInt && io.allocOk {
      var buf := new CmdBuffer(PreambleSize + |pcmFmt|);
      var cmd := WriteCommand(buf, OpPcmDataFormat, pcmFmt);
      effects := effects + [Send(OpPcmDataFormat, None, cmd)];
      if io.xmitOk {
        return;
      }
      effects := effects + [ReleaseCommand];
    }
    effects := effects + [ScoCfg(true)];
  }

  // ---------------------------------------------------------------- properties

  /**
   * `hw_lpm_enable` returns TRUE exactly when a buffer was allocated and
   * the transport accepted the command, and `lpm_cb(FAIL)` fires exactly
   * when it returns FALSE; it never reports success and sends at most one
   * command, releasing it only when rejected.
   */
  lemma LpmFailsExactlyWhenRejected(turnOn: bool, p: LpmParam, io: HwConfig.Io)
    ensures var r := LpmEnabled(turnOn, p, io);
      && (r.ret <==> io.allocOk && io.xmitOk)
      && Occurrences(r.effects, LpmCb(false)) == (if r.ret then 0 else 1)
      && Occurrences(r.effects, LpmCb(true)) == 0
      && CountSends(r.effects) == (if io.allocOk then 1 else 0)
      && Occurrences(r.effects, ReleaseCommand) == (if io.allocOk && !io.xmitOk then 1 else 0)
  {
    var cmd := Send(OpWriteSleepMode, None, SleepModeCommand(turnOn, p));
    if io.allocOk {
      CountsOfList(UpioLpmMode(turnOn), cmd, ReleaseCommand, LpmCb(false));
      assert [UpioLpmMode(turnOn), cmd] + [ReleaseCommand, LpmCb(false)] == [UpioLpmMode(turnOn), cmd, ReleaseCommand, LpmCb(false)];
    } else {
      CountsOfList(LpmCb(false), cmd, cmd, cmd);
    }
  }

  /** Turning LPM on asserts the LPM_MODE line and sends `lpm_param`; turning it off deasserts and sends zeros. */
  lemma LpmCommandFollowsSwitch(turnOn: bool, p: LpmParam)
    ensures var r := LpmEnabled(turnOn, p, HwConfig.Io(true, true));
      && r.effects[0] == UpioLpmMode(turnOn)
      && r.effects[1] == Send(OpWriteSleepMode, None, [0x27, 0xFC, 12] + if turnOn then LpmBytes(p) else Zeros(LpmCmdParamSize))
  {
    var cmd := SleepModeCommand(turnOn, p);
    assert cmd == cmd[..PreambleSize] + Params(cmd);
  }

  /** Without wrap-around a larger threshold never gives a shorter idle timeout. */
  lemma IdleTimeoutMonotone(p: LpmParam, q: LpmParam, multiple: u32)
    requires p.hostStackIdleThreshold <= q.hostStackIdleThreshold
    requires q.hostStackIdleThreshold as int * multiple as int < U32Modulus
    ensures IdleTimeout(p, multiple) <= IdleTimeout(q, multiple)
  {
    var a, b, m := p.hostStackIdleThreshold as int, q.hostStackIdleThreshold as int, multiple as int;
    var d := b - a;
    assert b * m == a * m + d * m;
    assert d * m >= 0;
    assert IdleTimeout(p, multiple) as int == a * m;
  }

  /**
   * `hw_sco_config` reports failure exactly once when there is no buffer
   * or the command is rejected, and reports nothing otherwise; it never
   * reports success.
   */
  lemma ScoConfigReportsOnlyFailure(iface: ScoInterface, scoParam: seq<byte>, io: HwConfig.Io)
    requires |scoParam| < 256
    ensures var es := ScoConfigured(iface, scoParam, io);
      && Occurrences(es, ScoCfg(false)) == (if io.allocOk && io.xmitOk then 0 else 1)
      && Occurrences(es, ScoCfg(true)) == 0
      && CountSends(es) == (if io.allocOk then 1 else 0)
  {
    var send := Send(ScoOpcode(iface), None, Command(ScoOpcode(iface), scoParam));
    CountsOfList(send, ReleaseCommand, ScoCfg(false), send);
    CountsOfList(ScoCfg(false), send, send, send);
  }

  /**
   * `hw_sco_cfg_cback` releases the event first, never reports failure,
   * and reports success exactly once unless the PCM data-format command
   * was sent and accepted.
   */
  lemma ScoCfgCbackNeverFails(iface: ScoInterface, evt: seq<byte>, pcmFmt: seq<byte>, io: HwConfig.Io)
    requires |evt| > 4 && |pcmFmt| < 256
    ensures var es := ScoCfgDone(iface, evt, pcmFmt, io);
      var formatAccepted := iface.Pcm? && EventOpcode(evt) == OpScoPcmInt && io.allocOk && io.xmitOk;
      && es[0] == ReleaseEvent
      && Occurrences(es, ScoCfg(false)) == 0
      && Occurrences(es, ScoCfg(true)) == (if formatAccepted then 0 else 1)
  {
    var send := Send(OpPcmDataFormat, None, Command(OpPcmDataFormat, pcmFmt));
    CountsOfList(ReleaseEvent, send, ReleaseCommand, ScoCfg(true));
    CountsOfList(ReleaseEvent, ScoCfg(true), send, send);
  }
}
