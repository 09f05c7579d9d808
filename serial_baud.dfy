/**
 * The baud-rate tables: line speed to USERIAL baud index
 * (`line_speed_to_userial_baud`, hardware.c and hardware_intel.c), index
 * to termios speed (`userial_to_tcio_baud`, userial_vendor.c) and rate to
 * termios speed (`serial_translate_baud`, userial_vendor.c and test_hs.c).
 * The USERIAL_BAUD_* and B* macros are not visible: an index is named by
 * its speed, a termios constant by the rate it selects.
 */
module SerialBaud {
  import opened Bytes
  import opened Maybe

  /** The thirteen USERIAL_BAUD_* indices. */
  datatype UserialBaud =
    | Baud600 | Baud1200 | Baud9600 | Baud19200 | Baud57600 | Baud115200 | Baud230400
    | Baud460800 | Baud921600 | Baud1M | Baud2M | Baud3M | Baud4M

  /** The line speed, in bit/s, an index stands for. */
  function LineSpeed(b: UserialBaud): nat
  {
    match b
    case Baud600 => 600
    case Baud1200 => 1200
    case Baud9600 => 9600
    case Baud19200 => 19200
    case Baud57600 => 57600
    case Baud115200 => 115200
    case Baud230400 => 230400
    case Baud460800 => 460800
    case Baud921600 => 921600
    case Baud1M => 1000000
    case Baud2M => 2000000
    case Baud3M => 3000000
    case Baud4M => 4000000
  }

  /** The speeds that have an index. */
  const IndexedSpeeds: set<nat> :=
    {600, 1200, 9600, 19200, 57600, 115200, 230400, 460800, 921600, 1000000, 2000000, 3000000, 4000000}

  /**
   * `line_speed_to_userial_baud`: the index of a listed speed; any other
   * speed is reported and mapped to 115200.
   */
  function LineSpeedToUserialBaud(speed: u32): (b: UserialBaud)
    ensures speed in IndexedSpeeds ==> LineSpeed(b) == speed
    ensures speed !in IndexedSpeeds ==> b == Baud115200
  {
    if speed == 4000000 then Baud4M
    else if speed == 3000000 then Baud3M
    else if speed == 2000000 then Baud2M
    else if speed == 1000000 then Baud1M
    else if speed == 921600 then Baud921600
    else if speed == 460800 then Baud460800
    else if speed == 230400 then Baud230400
    else if speed == 115200 then Baud115200
    else if speed == 57600 then Baud57600
    else if speed == 19200 then Baud19200
    else if speed == 9600 then Baud9600
    else if speed == 1200 then Baud1200
    else if speed == 600 then Baud600
    else Baud115200
  }

  /** Every index is recovered from its own speed. */
  lemma LineSpeedRoundTrip(b: UserialBaud)
    ensures LineSpeed(b) < U32Modulus && LineSpeed(b) in IndexedSpeeds
    ensures LineSpeedToUserialBaud(LineSpeed(b)) == b
  {
  }

  /** A termios speed constant B<rate>, named by its rate. */
  datatype TcioBaud = TcioBaud(rate: nat)

  /** A `uint8_t` index handed to `userial_to_tcio_baud`: one of the thirteen, or any other value. */
  datatype BaudIndex = Index(b: UserialBaud) | Unlisted

  /**
   * `userial_to_tcio_baud`: TRUE and the matching termios speed for the
   * thirteen indices; FALSE and B115200 written for any other.
   */
  method UserialToTcioBaud(cfgBaud: BaudIndex) returns (ok: bool, baud: TcioBaud)
    ensures ok <==> cfgBaud.Index?
    ensures ok ==> baud.rate == LineSpeed(cfgBaud.b)
    ensures !ok ==> baud == TcioBaud(115200)
  {
    ok := true;
    if cfgBaud == Index(Baud115200) {
      baud := TcioBaud(115200);
    } else if cfgBaud == Index(Baud4M) {
      baud := TcioBaud(4000000);
    } else if cfgBaud == Index(Baud3M) {
      baud := TcioBaud(3000000);
    } else if cfgBaud == Index(Baud2M) {
      baud := TcioBaud(2000000);
    } else if cfgBaud == Index(Baud1M) {
      baud := TcioBaud(1000000);
    } else if cfgBaud == Index(Baud921600) {
      baud := TcioBaud(921600);
    } else if cfgBaud == Index(Baud460800) {
      baud := TcioBaud(460800);
    } else if cfgBaud == Index(Baud230400) {
      baud := TcioBaud(230400);
    } else if cfgBaud == Index(Baud57600) {
      baud := TcioBaud(57600);
    } else if cfgBaud == Index(Baud19200) {
      baud := TcioBaud(19200);
    } else if cfgBaud == Index(Baud9600) {
      baud := TcioBaud(9600);
    } else if cfgBaud == Index(Baud1200) {
      baud := TcioBaud(1200);
    } else if cfgBaud == Index(Baud600) {
      baud := TcioBaud(600);
    } else {
      baud := TcioBaud(115200);
      ok := false;
    }
  }

  /** The rates `serial_translate_baud` always knows. */
  const TranslatedRates: set<int> := {0, 300, 1200, 2400, 4800, 9600, 19200, 38400, 57600, 115200, 2000000, 230400}

  /**
   * `serial_translate_baud`: the termios constant of a listed rate, with
   * 460800 listed only when built with SUPPORT_HISPEED (`hispeed`); any
   * other rate gives -1, here None, meaning a custom divisor is needed.
   */
  function SerialTranslateBaud(inrate: int, hispeed: bool): (r: Option<TcioBaud>)
    ensures r.Some? <==> inrate in TranslatedRates || (hispeed && inrate == 460800)
    ensures r.Some? ==> r.value.rate == inrate
  {
    match inrate
    case 0 => Some(TcioBaud(0))
    case 300 => Some(TcioBaud(300))
    case 1200 => Some(TcioBaud(1200))
    case 2400 => Some(TcioBaud(2400))
    case 4800 => Some(TcioBaud(4800))
    case 9600 => Some(TcioBaud(9600))
    case 19200 => Some(TcioBaud(19200))
    case 38400 => Some(TcioBaud(38400))
    case 57600 => Some(TcioBaud(57600))
    case 115200 => Some(TcioBaud(115200))
    case 2000000 => Some(TcioBaud(2000000))
    case 230400 => Some(TcioBaud(230400))
    case 460800 => if hispeed then Some(TcioBaud(460800)) else None
    case _ => None
  }

  /** SUPPORT_HISPEED changes the translation of 460800 and of nothing else. */
  lemma HispeedOnlyAdds460800(inrate: int)
    ensures inrate != 460800 ==> SerialTranslateBaud(inrate, true) == SerialTranslateBaud(inrate, false)
    ensures SerialTranslateBaud(460800, true) == Some(TcioBaud(460800)) && SerialTranslateBaud(460800, false).None?
  {
  }

  /**
   * Where both tables know a speed they agree on its termios constant;
   * the indices for 600 bit/s and for 921600 bit/s and above (460800
   * without SUPPORT_HISPEED) have no translated rate.
   */
  lemma TablesAgree(b: UserialBaud, hispeed: bool)
    ensures var t := SerialTranslateBaud(LineSpeed(b), hispeed);
      t.Some? ==> t.value == TcioBaud(LineSpeed(b))
    ensures SerialTranslateBaud(LineSpeed(b), hispeed).None?
        <==> b in {Baud600, Baud921600, Baud1M, Baud3M, Baud4M} || (!hispeed && b == Baud460800)
  {
  }
}
