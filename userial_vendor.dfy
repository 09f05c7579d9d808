/**
 * userial_vendor.c: the `vnd_userial` control block (file descriptor and
 * port name), the checks `userial_vendor_open` makes before it opens the
 * port, close, and the fd-independent ioctl switch.
 */
module UserialVendor {
  import opened Maybe
  import opened SerialBaud

  /** The USERIAL_DATABITS_*, USERIAL_PARITY_* and USERIAL_STOPBITS_* bits of `fmt`. */
  datatype FormatFlag =
    | DataBits5 | DataBits6 | DataBits7 | DataBits8
    | ParityNone | ParityEven | ParityOdd
    | StopBits1 | StopBits2

  /** `tUSERIAL_CFG`: the format bits that are set, and the baud index. */
  datatype UserialCfg = UserialCfg(fmt: set<FormatFlag>, baud: BaudIndex)

  /** The termios character sizes CS5..CS8. */
  datatype CharSize = Cs5 | Cs6 | Cs7 | Cs8

  /** The termios flags the checks choose: PARENB, PARODD and CSTOPB. */
  datatype LineFormat = LineFormat(dataBits: CharSize, parenb: bool, parodd: bool, cstopb: bool)

  /** The data bits chosen: the widest one set. */
  function DataBits(fmt: set<FormatFlag>): (r: Option<CharSize>)
    ensures r.None? <==> DataBits5 !in fmt && DataBits6 !in fmt && DataBits7 !in fmt && DataBits8 !in fmt
    ensures r == Some(Cs8) <==> DataBits8 in fmt
    ensures r == Some(Cs5) ==> DataBits5 in fmt && DataBits6 !in fmt && DataBits7 !in fmt
  {
    if DataBits8 in fmt then Some(Cs8)
    else if DataBits7 in fmt then Some(Cs7)
    else if DataBits6 in fmt then Some(Cs6)
    else if DataBits5 in fmt then Some(Cs5)
    else None
  }

  /** The parity chosen, as (PARENB, PARODD): none before even before odd. */
  function Parity(fmt: set<FormatFlag>): (r: Option<(bool, bool)>)
    ensures r.None? <==> ParityNone !in fmt && ParityEven !in fmt && ParityOdd !in fmt
    ensures r.Some? ==> (r.value.0 <==> ParityNone !in fmt)
    ensures r.Some? ==> (r.value.1 <==> ParityNone !in fmt && ParityEven !in fmt)
  {
    if ParityNone in fmt then Some((false, false))
    else if ParityEven in fmt then Some((true, false))
    else if ParityOdd in fmt then Some((true, true))
    else None
  }

  /** CSTOPB: one stop bit before two. */
  function StopBits(fmt: set<FormatFlag>): (r: Option<bool>)
    ensures r.None? <==> StopBits1 !in fmt && StopBits2 !in fmt
    ensures r.Some? ==> (r.value <==> StopBits1 !in fmt)
  {
    if StopBits1 in fmt then Some(false)
    else if StopBits2 in fmt then Some(true)
    else None
  }

  /**
   * The checks of `userial_vendor_open` before the port is opened, with
   * the termios speed and format they choose; None where it returns -1.
   */
  function OpenChecks(cfg: UserialCfg): (r: Option<(TcioBaud, LineFormat)>)
    ensures r.Some? <==> cfg.baud.Index? && DataBits(cfg.fmt).Some? && Parity(cfg.fmt).Some? && StopBits(cfg.fmt).Some?
    ensures r.Some? ==> r.value.0.rate == LineSpeed(cfg.baud.b)
  {
    if cfg.baud.Unlisted? then None
    else
      var d := DataBits(cfg.fmt);
      var p := Parity(cfg.fmt);
      var s := StopBits(cfg.fmt);
      if d.None? || p.None? || s.None? then None
      else Some((TcioBaud(LineSpeed(cfg.baud.b)), LineFormat(d.value, p.value.0, p.value.1, s.value)))
  }

  /** The `userial_vendor_ioctl` operations. */
  datatype IoctlOp = AssertBtWake | DeassertBtWake | GetBtWakeState | OtherOp

  /** The ioctl request issued on the port for an operation. */
  datatype WakeRequest = WakeAssert | WakeDeassert | WakeGetState

  /** `vnd_userial`: the open port's descriptor (-1 when closed) and its device name. */
  class VndUserial {
    var fd: int
    var portName: string

    /** A descriptor, or -1. */
    predicate Valid()
      reads this
    {
      fd >= -1
    }

    /**
     * `userial_vendor_init`: no port open, and the default device name
     * BLUETOOTH_UART_DEVICE_PORT (`defaultPort`) cut to the
     * VND_PORT_NAME_MAXLEN-byte buffer (`maxLen`) by `snprintf`.
     */
    constructor Init(defaultPort: string, maxLen: nat)
      requires maxLen > 0
      ensures Valid() && fd == -1
      ensures portName == if |defaultPort| < maxLen then defaultPort else defaultPort[..maxLen - 1]
    {
      fd := -1;
      portName := if |defaultPort| < maxLen then defaultPort else defaultPort[..maxLen - 1];
    }

    /**
     * `userial_vendor_open`: fd is set to -1 first; an unsupported baud
     * index or a missing data-bits, parity or stop-bits flag returns -1
     * before `open` is tried. Otherwise the result of `open` on the port
     * name (`openResult`, -1 on failure) becomes fd and is returned.
     */
    method Open(cfg: UserialCfg, openResult: int) returns (r: int, tried: bool)
      requires openResult >= -1
      modifies this
      ensures Valid() && portName == old(portName)
      ensures tried <==> OpenChecks(cfg).Some?
      ensures fd == r && r == if tried then openResult else -1
    {
      fd := -1;
      var ok, baud := UserialToTcioBaud(cfg.baud);
      if !ok {
        return -1, false;
      }
      var dataBits := DataBits(cfg.fmt);
      if dataBits.None? {
        return -1, false;
      }
      var parity := Parity(cfg.fmt);
      if parity.None? {
        return -1, false;
      }
      var stopBits := StopBits(cfg.fmt);
      if stopBits.None? {
        return -1, false;
      }
      fd := openResult;
      return fd, true;
    }

    /**
     * `userial_vendor_close`: nothing when no port is open; otherwise the
     * descriptor handed to `close` (returned here) and fd back to -1.
     */
    method Close() returns (closed: Option<int>)
      requires Valid()
      modifies this
      ensures Valid() && fd == -1 && portName == old(portName)
      ensures closed == if old(fd) == -1 then None else Some(old(fd))
    {
      if fd == -1 {
        return None;
      }
      closed := Some(fd);
      fd := -1;
    }

    /** `userial_set_port`: the configured value replaces the port name; it returns 0. */
    method SetPort(value: string) returns (r: int)
      modifies this
      ensures r == 0 && portName == value && fd == old(fd)
    {
      portName := value;
      r := 0;
    }

    /**
     * `userial_vendor_ioctl`: with BT_WAKE_VIA_USERIAL_IOCTL (`viaIoctl`)
     * the three wake operations issue their request on fd; every other
     * operation, and every operation without it, does nothing.
     */
    method Ioctl(op: IoctlOp, viaIoctl: bool) returns (req: Option<WakeRequest>)
      ensures req.Some? <==> viaIoctl && op != OtherOp
      ensures op == AssertBtWake && viaIoctl ==> req == Some(WakeAssert)
      ensures op == DeassertBtWake && viaIoctl ==> req == Some(WakeDeassert)
      ensures op == GetBtWakeState && viaIoctl ==> req == Some(WakeGetState)
    {
      req := None;
      if viaIoctl {
        match op
        case AssertBtWake => req := Some(WakeAssert);
        case DeassertBtWake => req := Some(WakeDeassert);
        case GetBtWakeState => req := Some(WakeGetState);
        case OtherOp =>
      }
    }
  }

  /** Every flag wins over those after it: with the first of each group set, the rest do not matter. */
  lemma FlagPrecedence(fmt: set<FormatFlag>)
    ensures DataBits8 in fmt ==> DataBits(fmt) == Some(Cs8)
    ensures DataBits7 in fmt && DataBits8 !in fmt ==> DataBits(fmt) == Some(Cs7)
    ensures DataBits6 in fmt && DataBits7 !in fmt && DataBits8 !in fmt ==> DataBits(fmt) == Some(Cs6)
    ensures ParityNone in fmt ==> Parity(fmt) == Some((false, false))
    ensures ParityEven in fmt && ParityNone !in fmt ==> Parity(fmt) == Some((true, false))
    ensures ParityOdd in fmt && ParityEven !in fmt && ParityNone !in fmt ==> Parity(fmt) == Some((true, true))
    ensures StopBits1 in fmt ==> StopBits(fmt) == Some(false)
    ensures StopBits2 in fmt && StopBits1 !in fmt ==> StopBits(fmt) == Some(true)
  {
  }

  /** A usual 8N1 configuration at any listed index passes the checks. */
  lemma EightNOnePasses(b: UserialBaud, extra: set<FormatFlag>)
    ensures var r := OpenChecks(UserialCfg({DataBits8, ParityNone, StopBits1} + extra, Index(b)));
      r == Some((TcioBaud(LineSpeed(b)), LineFormat(Cs8, false, false, false)))
  {
  }
}
