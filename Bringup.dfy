/** hx8379_init: the fail-fast bring-up of the panel. Plan gives, step by
    step, the calls the driver makes and what it does with each result; Init
    is the driver's straight-line code, proved to behave as Execute(Plan). */
module Bringup {
  import opened Platform
  import opened Tables
  import opened Pipeline

  // Display timings, in pixel clocks / lines
  const HSYNC: nat := 2
  const HFP: nat := 1
  const HBP: nat := 1
  const VSYNC: nat := 1
  const VFP: nat := 50
  const VBP: nat := 12

  /** The link description attached to the DSI host. */
  function LinkConfig(cfg: Config): DsiDevice {
    DsiDevice(cfg.numOfLanes, cfg.pixelFormat, {Video, VideoBurst, Lpm},
      Timings(cfg.panelWidth as nat, HBP, HFP, HSYNC, cfg.panelHeight as nat + 1, VBP, VFP, VSYNC))
  }

  /** A call whose negative result is returned at once. */
  function Call(e: Event): Step {
    Step(e, StopIfNegative)
  }

  function Pause(ms: nat): Step {
    Step(Sleep(ms), Discard)
  }

  /** One checked generic write per block, in order. */
  function Sends(ch: u8, blocks: seq<seq<bv8>>): seq<Step> {
    seq(|blocks|, j requires 0 <= j < |blocks| => Call(GenericWrite(ch, blocks[j])))
  }

  /** The vendor blocks from "enable extended commands" to the second
      undocumented command. */
  const RegisterBlocks: seq<seq<bv8>> := [
    EnableExtension, PowerConfig, LineConfig, CycleConfig, Cmd1, PanelConfig, Cmd3]

  /** The gate-in-panel and gamma blocks. */
  const GateBlocks: seq<seq<bv8>> := [Gip0Config, Gip1Config, Gip2Config, GammaConfig]

  /** The vendor blocks sent before the VCOM block. */
  const CommandBlocks: seq<seq<bv8>> := RegisterBlocks + GateBlocks

  /** The bank-switched LUT programming: bank selects (SETBANK, n) and tables. */
  const BankBlocks: seq<seq<bv8>> := [
    [SETBANK, 0x2], Bank2, [SETBANK, 0x0], [SETBANK, 0x1], Bank1, [SETBANK, 0x0], Bank0]

  /** Every block hx8379_init sends with a generic write, in order. */
  const InitBlocks: seq<seq<bv8>> := CommandBlocks + [VcomConfig] + BankBlocks

  /** The optional reset pulse. */
  function ResetStage(cfg: Config): seq<Step> {
    if cfg.hasResetGpio then
      [Step(IsReady(Reset), StopIfNotReady(-ENODEV)),
       Call(Configure(Reset, OutputInactive)),
       Pause(11),
       Call(Set(Reset, 1)),
       Pause(120)]
    else []
  }

  /** The register set-up blocks. */
  function RegisterSetup(ch: u8): seq<Step> {
    [Call(GenericWrite(ch, EnableExtension)), Call(GenericWrite(ch, PowerConfig)),
     Call(GenericWrite(ch, LineConfig)), Call(GenericWrite(ch, CycleConfig)),
     Call(GenericWrite(ch, Cmd1)), Call(GenericWrite(ch, PanelConfig)),
     Call(GenericWrite(ch, Cmd3))]
  }

  /** The gate and gamma blocks, the settling delay and the VCOM block. */
  function GateSetup(ch: u8): seq<Step> {
    [Call(GenericWrite(ch, Gip0Config)), Call(GenericWrite(ch, Gip1Config)),
     Call(GenericWrite(ch, Gip2Config)), Call(GenericWrite(ch, GammaConfig)),
     Pause(1), Call(GenericWrite(ch, VcomConfig))]
  }

  /** The digital gamma look-up table, bank by bank. */
  function GammaLut(ch: u8): seq<Step> {
    [Call(GenericWrite(ch, [SETBANK, 0x2])), Call(GenericWrite(ch, Bank2)),
     Call(GenericWrite(ch, [SETBANK, 0x0])), Call(GenericWrite(ch, [SETBANK, 0x1])),
     Call(GenericWrite(ch, Bank1)), Call(GenericWrite(ch, [SETBANK, 0x0])),
     Call(GenericWrite(ch, Bank0))]
  }

  /** Leaving sleep mode, switching the display on, and the backlight. The
      display-on result is kept but never tested. */
  function Activation(cfg: Config): seq<Step> {
    [Call(DcsWrite(cfg.channel, ExitSleepMode)),
     Pause(120),
     Step(DcsWrite(cfg.channel, SetDisplayOn), KeepResult),
     Pause(120)]
    + (if cfg.hasBacklightGpio then [Call(Configure(Backlight, OutputActive))] else [])
  }

  /** Everything after the reset stage, in the order hx8379_init makes the calls. */
  function Body(cfg: Config): seq<Step> {
    [Call(Attach(cfg.channel, LinkConfig(cfg)))]
    + (RegisterSetup(cfg.channel) + (GateSetup(cfg.channel) + (GammaLut(cfg.channel) + Activation(cfg))))
  }

  function Plan(cfg: Config): seq<Step> {
    ResetStage(cfg) + Body(cfg)
  }

  /** What hx8379_init does, starting from the given trace. */
  ghost function InitSpec(cfg: Config, trace: seq<Event>, oracle: Oracle): Run {
    Execute(Run(trace, 0, false), Plan(cfg), oracle)
  }

  /** The reset pulse, when the panel has a reset line: -ENODEV when its
      controller is not ready, otherwise the first negative GPIO result. */
  method PulseReset(cfg: Config, p: Peripherals) returns (ret: int)
    modifies p
    ensures var r := Execute(Run(old(p.trace), 0, false), ResetStage(cfg), p.oracle);
      p.trace == r.trace && ret == r.ret && (r.stopped <==> ret < 0)
  {
    ghost var o := p.oracle;
    ghost var steps := ResetStage(cfg);
    ghost var r := Run(p.trace, 0, false);
    ret := 0;

    if cfg.hasResetGpio {
      var ready := p.GpioIsReadyDt(Reset);
      r := Advance(r, steps, 0, o);
      if !ready {
        Halted(r, steps, 1, o);
        return -ENODEV;
      }
      ret := p.GpioPinConfigureDt(Reset, OutputInactive);
      r := Advance(r, steps, 1, o);
      if ret < 0 {
        Halted(r, steps, 2, o);
        return;
      }
      p.KMsleep(11);
      r := Advance(r, steps, 2, o);
      ret := p.GpioPinSetDt(Reset, 1);
      r := Advance(r, steps, 3, o);
      if ret < 0 {
        Halted(r, steps, 4, o);
        return;
      }
      p.KMsleep(120);
      r := Advance(r, steps, 4, o);
    }
  }

  /** The generic writes of hx8379_init from "enable extended commands" to
      the second undocumented command; the first negative result is returned. */
  method SendRegisterSetup(ch: u8, p: Peripherals, ghost retIn: int) returns (ret: int)
    modifies p
    ensures var r := Execute(Run(old(p.trace), retIn, false), RegisterSetup(ch), p.oracle);
      p.trace == r.trace && ret == r.ret && (r.stopped <==> ret < 0)
  {
    ghost var o := p.oracle;
    ghost var steps := RegisterSetup(ch);
    ghost var r := Run(p.trace, retIn, false);

    // Enable extended commands
    ret := p.MipiDsiGenericWrite(ch, EnableExtension);
    r := Advance(r, steps, 0, o);
    if ret < 0 {
      Halted(r, steps, 1, o);
      return;
    }
    // Voltage and current targets
    ret := p.MipiDsiGenericWrite(ch, PowerConfig);
    r := Advance(r, steps, 1, o);
    if ret < 0 {
      Halted(r, steps, 2, o);
      return;
    }
    // Line count and porches
    ret := p.MipiDsiGenericWrite(ch, LineConfig);
    r := Advance(r, steps, 2, o);
    if ret < 0 {
      Halted(r, steps, 3, o);
      return;
    }
    // Cycle counts
    ret := p.MipiDsiGenericWrite(ch, CycleConfig);
    r := Advance(r, steps, 3, o);
    if ret < 0 {
      Halted(r, steps, 4, o);
      return;
    }
    ret := p.MipiDsiGenericWrite(ch, Cmd1);
    r := Advance(r, steps, 4, o);
    if ret < 0 {
      Halted(r, steps, 5, o);
      return;
    }
    // Panel register
    ret := p.MipiDsiGenericWrite(ch, PanelConfig);
    r := Advance(r, steps, 5, o);
    if ret < 0 {
      Halted(r, steps, 6, o);
      return;
    }
    ret := p.MipiDsiGenericWrite(ch, Cmd3);
    r := Advance(r, steps, 6, o);
    if ret < 0 {
      Halted(r, steps, 7, o);
      return;
    }
  }

  /** The generic writes of hx8379_init from "set group delay values" to
      "set VCOM voltage", with the settling delay before VCOM; the first
      negative result is returned. */
  method SendGateSetup(ch: u8, p: Peripherals, ghost retIn: int) returns (ret: int)
    modifies p
    ensures var r := Execute(Run(old(p.trace), retIn, false), GateSetup(ch), p.oracle);
      p.trace == r.trace && ret == r.ret && (r.stopped <==> ret < 0)
  {
    ghost var o := p.oracle;
    ghost var steps := GateSetup(ch);
    ghost var r := Run(p.trace, retIn, false);

    // Gate-in-panel timings
    ret := p.MipiDsiGenericWrite(ch, Gip0Config);
    r := Advance(r, steps, 0, o);
    if ret < 0 {
      Halted(r, steps, 1, o);
      return;
    }
    ret := p.MipiDsiGenericWrite(ch, Gip1Config);
    r := Advance(r, steps, 1, o);
    if ret < 0 {
      Halted(r, steps, 2, o);
      return;
    }
    ret := p.MipiDsiGenericWrite(ch, Gip2Config);
    r := Advance(r, steps, 2, o);
    if ret < 0 {
      Halted(r, steps, 3, o);
      return;
    }
    // Gamma curve
    ret := p.MipiDsiGenericWrite(ch, GammaConfig);
    r := Advance(r, steps, 3, o);
    if ret < 0 {
      Halted(r, steps, 4, o);
      return;
    }
    // Settling delay before VCOM
    p.KMsleep(1);
    r := Advance(r, steps, 4, o);
    ret := p.MipiDsiGenericWrite(ch, VcomConfig);
    r := Advance(r, steps, 5, o);
    if ret < 0 {
      Halted(r, steps, 6, o);
      return;
    }
  }

  /** Selects a LUT bank: the bank number is stored in place in the two-byte
      buffer that already holds SETBANK, and the buffer is written. */
  method SelectBank(ch: u8, p: Peripherals, param: array<bv8>, bank: bv8) returns (ret: int)
    requires param.Length == 2 && param[0] == SETBANK
    modifies p, param
    ensures param[..] == [SETBANK, bank]
    ensures p.trace == old(p.trace) + [GenericWrite(ch, [SETBANK, bank])]
    ensures ret == p.oracle(|old(p.trace)|)
  {
    param[1] := bank;
    assert param[..] == [SETBANK, bank];
    ret := p.MipiDsiGenericWrite(ch, param[..]);
  }

  /** The digital gamma LUT: bank 2, then bank 1, then bank 0, each table
      written after its bank select; the first negative result is returned. */
  method WriteGammaLut(ch: u8, p: Peripherals, ghost retIn: int) returns (ret: int)
    modifies p
    ensures var r := Execute(Run(old(p.trace), retIn, false), GammaLut(ch), p.oracle);
      p.trace == r.trace && ret == r.ret && (r.stopped <==> ret < 0)
  {
    ghost var o := p.oracle;
    ghost var steps := GammaLut(ch);
    ghost var r := Run(p.trace, retIn, false);

    var param := new bv8[2];
    param[0] := SETBANK;
    ret := SelectBank(ch, p, param, 0x2);
    r := Advance(r, steps, 0, o);
    if ret < 0 {
      Halted(r, steps, 1, o);
      return;
    }
    ret := p.MipiDsiGenericWrite(ch, Bank2);
    r := Advance(r, steps, 1, o);
    if ret < 0 {
      Halted(r, steps, 2, o);
      return;
    }
    ret := SelectBank(ch, p, param, 0x0);
    r := Advance(r, steps, 2, o);
    if ret < 0 {
      Halted(r, steps, 3, o);
      return;
    }
    ret := SelectBank(ch, p, param, 0x1);
    r := Advance(r, steps, 3, o);
    if ret < 0 {
      Halted(r, steps, 4, o);
      return;
    }
    ret := p.MipiDsiGenericWrite(ch, Bank1);
    r := Advance(r, steps, 4, o);
    if ret < 0 {
      Halted(r, steps, 5, o);
      return;
    }
    ret := SelectBank(ch, p, param, 0x0);
    r := Advance(r, steps, 5, o);
    if ret < 0 {
      Halted(r, steps, 6, o);
      return;
    }
    ret := p.MipiDsiGenericWrite(ch, Bank0);
    r := Advance(r, steps, 6, o);
    if ret < 0 {
      Halted(r, steps, 7, o);
      return;
    }
  }

  /** Leaves sleep mode, switches the display on and sets up the backlight;
      the display-on result is kept but never tested, so a negative value
      from it does not stop the driver. */
  method Activate(cfg: Config, p: Peripherals, ghost retIn: int) returns (ret: int)
    modifies p
    ensures var r := Execute(Run(old(p.trace), retIn, false), Activation(cfg), p.oracle);
      p.trace == r.trace && ret == r.ret
  {
    ghost var o := p.oracle;
    ghost var steps := Activation(cfg);
    ghost var r := Run(p.trace, retIn, false);

    ret := p.MipiDsiDcsWrite(cfg.channel, ExitSleepMode);
    r := Advance(r, steps, 0, o);
    if ret < 0 {
      Halted(r, steps, 1, o);
      return;
    }
    // 120 ms after leaving sleep mode
    p.KMsleep(120);
    r := Advance(r, steps, 1, o);
    ret := p.MipiDsiDcsWrite(cfg.channel, SetDisplayOn);
    r := Advance(r, steps, 2, o);
    p.KMsleep(120);
    r := Advance(r, steps, 3, o);

    if cfg.hasBacklightGpio {
      ret := p.GpioPinConfigureDt(Backlight, OutputActive);
      r := Advance(r, steps, 4, o);
      if ret < 0 {
        Halted(r, steps, 5, o);
        return;
      }
    }
  }

  /** hx8379_init. */
  method Init(cfg: Config, p: Peripherals) returns (ret: int)
    modifies p
    ensures p.trace == InitSpec(cfg, old(p.trace), p.oracle).trace
    ensures ret == InitSpec(cfg, old(p.trace), p.oracle).ret
  {
    ghost var o := p.oracle;
    ghost var r := Run(p.trace, 0, false);
    ghost var attach := [Call(Attach(cfg.channel, LinkConfig(cfg)))];
    ghost var regs, gates := RegisterSetup(cfg.channel), GateSetup(cfg.channel);
    ghost var lut, act := GammaLut(cfg.channel), Activation(cfg);
    ExecuteAppend(r, ResetStage(cfg), Body(cfg), o);

    var timings := Timings(
      hactive := cfg.panelWidth as nat, hbp := HBP, hfp := HFP, hsync := HSYNC,
      vactive := cfg.panelHeight as nat + 1, vbp := VBP, vfp := VFP, vsync := VSYNC);
    var mdev := DsiDevice(
      dataLanes := cfg.numOfLanes, pixfmt := cfg.pixelFormat,
      modeFlags := {Video, VideoBurst, Lpm}, timings := timings);

    ret := PulseReset(cfg, p);
    r := Run(p.trace, ret, ret < 0);
    if ret < 0 {
      Halted(r, Body(cfg), 0, o);
      return;
    }

    ExecuteAppend(r, attach, regs + (gates + (lut + act)), o);
    ret := p.MipiDsiAttach(cfg.channel, mdev);
    r := Advance(r, attach, 0, o);
    if ret < 0 {
      Halted(r, regs + (gates + (lut + act)), 0, o);
      return;
    }

    ExecuteAppend(r, regs, gates + (lut + act), o);
    ret := SendRegisterSetup(cfg.channel, p, ret);
    r := Run(p.trace, ret, ret < 0);
    if ret < 0 {
      Halted(r, gates + (lut + act), 0, o);
      return;
    }

    ExecuteAppend(r, gates, lut + act, o);
    ret := SendGateSetup(cfg.channel, p, ret);
    r := Run(p.trace, ret, ret < 0);
    if ret < 0 {
      Halted(r, lut + act, 0, o);
      return;
    }

    ExecuteAppend(r, lut, act, o);
    ret := WriteGammaLut(cfg.channel, p, ret);
    r := Run(p.trace, ret, ret < 0);
    if ret < 0 {
      Halted(r, act, 0, o);
      return;
    }

    ret := Activate(cfg, p, ret);
  }
}
