/**
 * HCI command packets: a 2-byte little-endian opcode, a 1-byte parameter
 * length and the parameters (Bluetooth Core Specification, Vol 2 Part E,
 * section 5.4.1), and the opcodes the Intel vendor library sends.
 */
module Hci {
  import opened Bytes

  const PreambleSize: nat := 3
  /** Size of the command area of a transport buffer. */
  const CmdMaxLen: nat := 258

  const OpReset: u16 := 0x0C03
  const OpReadSwVersion: u16 := 0xFC05
  const OpSetUartBaud: u16 := 0xFC06
  const OpManufactureMode: u16 := 0xFC11
  const OpInfBdData: u16 := 0xFC2F
  const OpInfMemWrite: u16 := 0xFC8E
  const OpWriteSleepMode: u16 := 0xFC27
  const OpScoPcmInt: u16 := 0xFC1C
  const OpPcmDataFormat: u16 := 0xFC1E
  const OpScoI2sPcmInt: u16 := 0xFC6D

  const EvtCommandComplete: byte := 0x0E
  const EvtCommandStatus: byte := 0x0F
  const EvtIntelDebug: byte := 0xFF

  /** The packet for `opcode` with parameters `params`. */
  function Command(opcode: u16, params: seq<byte>): (cmd: seq<byte>)
    requires |params| < 256
    ensures IsCommand(cmd) && Opcode(cmd) == opcode && Params(cmd) == params
  {
    LE16(opcode) + [|params|] + params
  }

  /** The bytes of a packet: opcode low byte, high byte, length, parameters. */
  lemma CommandLayout(opcode: u16, params: seq<byte>)
    requires |params| < 256
    ensures Command(opcode, params) == [opcode % 256, opcode / 256, |params|] + params
  {
  }

  /** The length byte agrees with the number of parameter bytes. */
  predicate IsCommand(cmd: seq<byte>)
  {
    |cmd| >= PreambleSize && cmd[2] == |cmd| - PreambleSize
  }

  function Opcode(cmd: seq<byte>): u16
    requires |cmd| >= 2
  {
    cmd[0] as int + 256 * cmd[1] as int
  }

  function Params(cmd: seq<byte>): seq<byte>
    requires |cmd| >= PreambleSize
  {
    cmd[PreambleSize..]
  }

  /** A well-formed packet is the packet of its own opcode and parameters. */
  lemma CommandOfParts(cmd: seq<byte>)
    requires IsCommand(cmd)
    ensures |Params(cmd)| < 256
    ensures cmd == Command(Opcode(cmd), Params(cmd))
  {
    assert cmd == cmd[..2] + [cmd[2]] + cmd[3..];
  }
}
