/** What the HX8379 driver sees of the world: its immutable configuration and
    the collaborators it calls (the MIPI-DSI host, the GPIO controller and the
    kernel's sleep). Every call to a collaborator is recorded as an event, and
    the integer it returns is read from an oracle chosen by the caller; a
    negative value is a failure. */
module Platform {

  newtype u8 = x: int | 0 <= x < 0x100
  newtype u16 = x: int | 0 <= x < 0x1_0000

  /** Zephyr's errno values; only their sign matters to the driver. */
  const ENODEV: int := 19
  const ENOTSUP: int := 134

  /** The two optional GPIO lines of the panel. */
  datatype Line = Reset | Backlight

  datatype GpioFlags = OutputInactive | OutputActive

  /** The standard DCS commands the driver names. */
  datatype DcsCommand = ExitSleepMode | SetDisplayOn

  datatype ModeFlag = Video | VideoBurst | Lpm

  datatype Timings = Timings(
    hactive: nat, hbp: nat, hfp: nat, hsync: nat,
    vactive: nat, vbp: nat, vfp: nat, vsync: nat)

  /** The description of the panel handed to the DSI host on attach. */
  datatype DsiDevice = DsiDevice(
    dataLanes: u8, pixfmt: u8, modeFlags: set<ModeFlag>, timings: Timings)

  /** The per-instance configuration; a line that is absent has a NULL port. */
  datatype Config = Config(
    hasResetGpio: bool,
    hasBacklightGpio: bool,
    numOfLanes: u8,
    pixelFormat: u8,
    panelWidth: u16,
    panelHeight: u16,
    channel: u8)

  /** One call to a collaborator. */
  datatype Event =
    | IsReady(line: Line)
    | Configure(line: Line, flags: GpioFlags)
    | Set(line: Line, value: int)
    | Sleep(ms: nat)
    | Attach(channel: u8, device: DsiDevice)
    | GenericWrite(channel: u8, data: seq<bv8>)
    | DcsWrite(channel: u8, command: DcsCommand)
  {
    /** A readiness check, configuration or level change of the given line. */
    predicate OnLine(l: Line) {
      (IsReady? || Configure? || Set?) && line == l
    }
  }

  /** The collaborators, observed through the calls made to them. The result
      of the call recorded at position k of the trace is oracle(k). */
  class Peripherals {
    var trace: seq<Event>
    const oracle: nat -> int

    constructor (oracle: nat -> int)
      ensures trace == [] && this.oracle == oracle
    {
      this.oracle := oracle;
      trace := [];
    }

    method Record(e: Event) returns (ret: int)
      modifies this
      ensures trace == old(trace) + [e]
      ensures ret == oracle(|old(trace)|)
    {
      ret := oracle(|trace|);
      trace := trace + [e];
    }

    /** gpio_is_ready_dt: the line's controller is ready when the oracle
        answers a non-negative value. */
    method GpioIsReadyDt(line: Line) returns (ready: bool)
      modifies this
      ensures trace == old(trace) + [IsReady(line)]
      ensures ready <==> oracle(|old(trace)|) >= 0
    {
      var ret := Record(IsReady(line));
      ready := ret >= 0;
    }

    method GpioPinConfigureDt(line: Line, flags: GpioFlags) returns (ret: int)
      modifies this
      ensures trace == old(trace) + [Configure(line, flags)]
      ensures ret == oracle(|old(trace)|)
    {
      ret := Record(Configure(line, flags));
    }

    method GpioPinSetDt(line: Line, value: int) returns (ret: int)
      modifies this
      ensures trace == old(trace) + [Set(line, value)]
      ensures ret == oracle(|old(trace)|)
    {
      ret := Record(Set(line, value));
    }

    /** k_msleep / k_sleep: the driver never looks at what it returns. */
    method KMsleep(ms: nat)
      modifies this
      ensures trace == old(trace) + [Sleep(ms)]
    {
      var _ := Record(Sleep(ms));
    }

    method MipiDsiAttach(channel: u8, device: DsiDevice) returns (ret: int)
      modifies this
      ensures trace == old(trace) + [Attach(channel, device)]
      ensures ret == oracle(|old(trace)|)
    {
      ret := Record(Attach(channel, device));
    }

    method MipiDsiGenericWrite(channel: u8, data: seq<bv8>) returns (ret: int)
      modifies this
      ensures trace == old(trace) + [GenericWrite(channel, data)]
      ensures ret == oracle(|old(trace)|)
    {
      ret := Record(GenericWrite(channel, data));
    }

    /** mipi_dsi_dcs_write with an empty payload. */
    method MipiDsiDcsWrite(channel: u8, command: DcsCommand) returns (ret: int)
      modifies this
      ensures trace == old(trace) + [DcsWrite(channel, command)]
      ensures ret == oracle(|old(trace)|)
    {
      ret := Record(DcsWrite(channel, command));
    }
  }
}
