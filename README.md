# HX8379 MIPI-DSI panel driver — a Dafny model

This project models the Zephyr driver for the Himax HX8379 LCD controller
(`drivers/display/display_hx8379.c`). It covers:

- **Bring-up (`hx8379_init`).** A fixed, fail-fast sequence of calls:
  - an optional reset pulse;
  - the MIPI-DSI attach with the link timings computed from the configuration;
  - 19 generic writes of vendor command blocks, seven of them forming the bank-switched digital-gamma LUT programming;
  - exit-sleep and display-on DCS commands, with their 120 ms delays;
  - the optional backlight enable.
- **The runtime control surface.** Orientation, pixel format, capabilities, blanking, and the unsupported write.
- **The constant command tables**, byte for byte.

## How the collaborators are modelled

The driver's collaborators (the GPIO controller, the DSI host and the kernel sleep) are represented by `Platform.Peripherals`:

- every call appends an `Event` to its `trace`;
- the integer a call returns is read from an oracle chosen by the caller, `oracle(k)` for the call recorded at trace position `k`;
- a negative value is a failure, as in the driver's `ret < 0` tests;
- `gpio_is_ready_dt` reports ready when the oracle answers a non-negative value.

The bring-up is specified on two levels:

- **Reference semantics.** `Bringup.Plan(cfg)` lists, step by step, the call the driver makes and what it does with the result: return it if negative, keep it unchecked, ignore it, or return `-ENODEV` if not ready. `Pipeline.Execute` runs such a plan until a step fails.
- **Imperative code.** `Bringup.Init` is the driver's straight-line code, split into one method per stage. It is proved to produce exactly the trace and return value of `Execute(Plan(cfg))`.

The properties of the bring-up are then proved about that reference semantics in `BringupProperties`.

Notes on the code:

- **`write` returns 0.**
- **`hx8379_init` makes 19 generic writes.**
- **A failing attach returns the attach's own error code.**
- **The display-on result is never tested.** The value `hx8379_init` returns is therefore the backlight-configuration result when a backlight line exists, and the display-on result otherwise, even when that is negative.
- **27 per-parameter annotations beside the tables disagree with the bytes sent.** The model uses the bytes:
  - power parameter P13 is 0x80, annotated F8;
  - 25 of the GIP0 parameters are non-zero, although every one is annotated 00 (P02 is 0x07, P08 is 0x32, P37 is 0x0E, …);
  - the second VCOM parameter is 0x92, annotated 2C.

## Model

| member | source | states |
|---|---|---|
| Tables.CommandIds | drivers/display/display_hx8379.c:155-530 | each command block starts with its command id (0xB9, 0xB1, 0xB2, 0xB4, 0xC7, 0xCC, 0xD2, 0xD3, 0xD5, 0xD6, 0xE0, 0xB6); all three LUT banks start with 0xC1; the two unsent blocks are {0x36, 0x02} and {0x35, 0x00} |
| Tables.BlockLengths | drivers/display/display_hx8379.c:155-528 | the byte count (C `sizeof`) of every transmitted block |
| Tables.PowerConfigBytes | drivers/display/display_hx8379.c:167-185 | the OR-composed power parameters evaluate to 0x44, 0x37, 0x57, 0x90, 0xD0, 0xE2, 0x58, 0x33, 0x34, 0x42, …; P13 is 0x80, not the F8 of its comment |
| Tables.FieldBytes | drivers/display/display_hx8379.c:155-389 | the named fields of the extension, display-line, cycle, panel and VCOM blocks evaluate to the listed bytes |
| Tables.AnnotatedBytes | drivers/display/display_hx8379.c:167-389 | where the per-parameter annotations disagree, the bytes sent: power P13 is 0x80, the second VCOM parameter 0x92, and exactly 25 of the 37 GIP0 parameters are non-zero |
| Platform.Peripherals.GpioIsReadyDt | drivers/display/display_hx8379.c:655 | records the readiness check of a line; ready exactly when its answer is non-negative |
| Platform.Peripherals.GpioPinConfigureDt | drivers/display/display_hx8379.c:659 | records a line configuration and returns its answer |
| Platform.Peripherals.GpioPinSetDt | drivers/display/display_hx8379.c:665 | records a line level change and returns its answer |
| Platform.Peripherals.KMsleep | drivers/display/display_hx8379.c:664 | records a sleep of the given milliseconds; its result is not used |
| Platform.Peripherals.MipiDsiAttach | drivers/display/display_hx8379.c:673 | records the attach with its device description and returns its answer |
| Platform.Peripherals.MipiDsiGenericWrite | drivers/display/display_hx8379.c:680-681 | records a generic write of exactly the given bytes and returns its answer |
| Platform.Peripherals.MipiDsiDcsWrite | drivers/display/display_hx8379.c:826-827 | records a payload-less DCS command and returns its answer |
| Pipeline.Perform | drivers/display/display_hx8379.c:680-684 | one call: its answer is the oracle's value at the call's trace position; a checked negative answer makes the driver return it, a not-ready answer makes it return the given error, an unchecked answer becomes `ret`, a sleep leaves `ret` alone |
| Pipeline.ExecuteFrom | drivers/display/display_hx8379.c:654-847 | the calls of a plan made one after the other until one makes the driver return |
| Pipeline.Execute | drivers/display/display_hx8379.c:654-847 | a whole plan run from its first step |
| Pipeline.ExecuteStoppedFrom | drivers/display/display_hx8379.c:680-684 | a run that returned early did so at its last call, which is the first to fail, and returned that step's failure code |
| Pipeline.ExecuteRanFrom | drivers/display/display_hx8379.c:680-684 | a run that did not return early made every remaining call and none failed |
| Pipeline.ExecuteResult | drivers/display/display_hx8379.c:654-847 | the outcome of any run: the calls made are the plan's first k calls; on an early return the k-th is the first failure and gives the return value; otherwise the whole plan ran without failure |
| Pipeline.ExecutePrefix | drivers/display/display_hx8379.c:654-847 | whatever the answers, the calls made are an initial part of the plan's calls, appended to the earlier trace |
| Pipeline.ExecuteCompletes | drivers/display/display_hx8379.c:654-847 | when no step fails, every call of the plan is made in order and the driver does not return early |
| Pipeline.ExecuteStopsAt | drivers/display/display_hx8379.c:654-847 | when step n is the first to fail, the driver returns its failure code and makes no call after it |
| Pipeline.ExecuteReaches | drivers/display/display_hx8379.c:654-847 | when none of the first k steps can fail, those k calls and the next one are made |
| Bringup.LinkConfig | drivers/display/display_hx8379.c:639-652 | the device handed to the DSI host: the configured lanes and pixel format, video, burst and low-power modes, and the panel timings |
| Bringup.ResetStage | drivers/display/display_hx8379.c:654-671 | with a reset line: readiness check (else -ENODEV), configure inactive, 11 ms, set 1, 120 ms, each GPIO result checked; nothing without one |
| Bringup.RegisterSetup | drivers/display/display_hx8379.c:679-730 | checked generic writes of the seven register blocks |
| Bringup.GateSetup | drivers/display/display_hx8379.c:732-771 | checked writes of GIP0, GIP1, GIP2 and gamma, 1 ms, checked write of VCOM |
| Bringup.GammaLut | drivers/display/display_hx8379.c:773-821 | checked writes of the bank selects and the three LUT banks in source order |
| Bringup.Activation | drivers/display/display_hx8379.c:825-845 | exit sleep checked, 120 ms, display on kept unchecked, 120 ms, backlight configured active and checked when present |
| Bringup.Body | drivers/display/display_hx8379.c:673-845 | the attach, checked, then the four later stages |
| Bringup.Plan | drivers/display/display_hx8379.c:654-847 | the whole bring-up: the reset stage followed by the body |
| Bringup.InitSpec | drivers/display/display_hx8379.c:632-848 | the run of the plan from a given trace and answers; `ret` starts at 0 where the C leaves it unset, which is never seen: every `return ret` follows an assignment to `ret` (by the reset line's configure or set, or by the attach), and the not-ready path returns `-ENODEV` itself |
| BringupProperties.InitRetUnset | drivers/display/display_hx8379.c:635-677 | whatever `ret` holds before its first assignment, hx8379_init makes the same calls and returns the same value |
| Bringup.PulseReset | drivers/display/display_hx8379.c:654-671 | the reset pulse: -ENODEV if the line is not ready; otherwise configure inactive, 11 ms, set to 1, 120 ms, returning the first negative GPIO result; nothing without a reset line |
| Bringup.SendRegisterSetup | drivers/display/display_hx8379.c:679-730 | writes the extension, power, line, cycle, cmd1, panel and cmd3 blocks in order, returning at the first negative result |
| Bringup.SendGateSetup | drivers/display/display_hx8379.c:732-771 | writes the three GIP blocks and the gamma block, sleeps 1 ms, then writes the VCOM block, returning at the first negative result |
| Bringup.SelectBank | drivers/display/display_hx8379.c:790-795 | stores the bank number in place in the SETBANK buffer and writes exactly {0xBD, bank} |
| Bringup.WriteGammaLut | drivers/display/display_hx8379.c:773-821 | select bank 2, bank 2 table, select 0, select 1, bank 1 table, select 0, bank 0 table, returning at the first negative result |
| Bringup.Activate | drivers/display/display_hx8379.c:825-847 | exit sleep (checked), 120 ms, display on (unchecked), 120 ms, then the backlight configured active (checked) if present |
| Bringup.Init | drivers/display/display_hx8379.c:632-848 | hx8379_init makes exactly the calls of the reference plan and returns its value |
| BringupProperties.PlanSteps | drivers/display/display_hx8379.c:654-847 | every step of the plan has the driver's shape: exactly the sleeps have their result ignored, only the reset readiness check yields -ENODEV, only display-on is unchecked, reset calls only with a reset line, generic writes on the panel's channel |
| BringupProperties.AttachLayout | drivers/display/display_hx8379.c:673 | the attach is the first call after the reset stage |
| BringupProperties.ActivationLayout | drivers/display/display_hx8379.c:825-845 | the activation stage closes the plan, 21 steps after the attach |
| BringupProperties.PlanLayout | drivers/display/display_hx8379.c:673-845 | the positions of the attach, exit-sleep, both 120 ms sleeps, display-on and backlight in the plan, and its length |
| BringupProperties.ShapedFailFast | drivers/display/display_hx8379.c:654-847 | any plan of the driver's shape fails fast: an early return happens at the first failing call, which is neither a sleep nor display-on, with -ENODEV or that call's own negative result |
| BringupProperties.InitFailFast | drivers/display/display_hx8379.c:654-847 | hx8379_init fails fast in that sense |
| BringupProperties.InitStopsAtFailure | drivers/display/display_hx8379.c:654-847 | a negative answer injected at any tested call (every call but the sleeps and display-on), after non-negative answers to the earlier tested calls, makes hx8379_init return at once: exactly the first n + 1 calls are made, and the value is -ENODEV for the readiness check, else that call's result |
| BringupProperties.InitSkipsReset | drivers/display/display_hx8379.c:654 | without a reset line no reset-line call and no 11 ms sleep is made, and the first call is the attach |
| BringupProperties.InitResetNotReady | drivers/display/display_hx8379.c:655-658 | a reset line that is not ready returns -ENODEV after the readiness check alone |
| BringupProperties.InitResetConfigureFails | drivers/display/display_hx8379.c:659-663 | a failing configure of the reset line is returned, after exactly two calls |
| BringupProperties.InitResetSetFails | drivers/display/display_hx8379.c:665-669 | a failing set of the reset line is returned, after exactly four calls |
| BringupProperties.ResetStepsPass | drivers/display/display_hx8379.c:654-671 | no reset step fails when the reset stage answers non-negatively |
| BringupProperties.ResetPassesReachesAttach | drivers/display/display_hx8379.c:654-673 | a passing reset stage lets the driver reach the attach |
| BringupProperties.ResetEvents | drivers/display/display_hx8379.c:654-673 | with a reset line, the plan's first six calls are: ready check, configure inactive, 11 ms, set 1, 120 ms, attach |
| BringupProperties.InitResetOrder | drivers/display/display_hx8379.c:654-673 | with a reset line and a passing reset stage, the trace starts with those six calls |
| BringupProperties.AttachCall | drivers/display/display_hx8379.c:639-673 | after a passing reset stage the attach is made with the link configuration |
| BringupProperties.NoWriteUpToAttach | drivers/display/display_hx8379.c:654-677 | no generic write comes before or at the attach |
| BringupProperties.AttachFails | drivers/display/display_hx8379.c:673-677 | a negative attach result is returned at once and no generic write was made |
| BringupProperties.InitAttach | drivers/display/display_hx8379.c:639-677 | the attach carries the configured lanes and pixel format, video, burst and low-power modes, hactive = width, hbp = hfp = 1, hsync = 2, vactive = height + 1, vbp = 12, vfp = 50, vsync = 1; a negative attach result is returned with no generic write |
| BringupProperties.PlanSplit | drivers/display/display_hx8379.c:654-847 | the plan is everything up to the LUT, then the activation stage, which starts 21 steps after the attach |
| BringupProperties.SucceedingPlan | drivers/display/display_hx8379.c:834-837 | when every tested call (all but the sleeps and display-on) answers non-negatively, no step fails, because the sleeps' answers are dropped and display-on is never tested |
| BringupProperties.CompletedResult | drivers/display/display_hx8379.c:834-847 | a run without failure returns the backlight result with a backlight line and the display-on result without one |
| BringupProperties.ActivationEvents | drivers/display/display_hx8379.c:825-845 | the activation calls: exit sleep, 120 ms, display on, 120 ms, and the backlight configured active if present |
| BringupProperties.InitCompletes | drivers/display/display_hx8379.c:825-847 | when every tested call (all but the sleeps and display-on) succeeds, every call is made, the trace ends with the activation calls, and the value returned is the backlight result or the display-on result |
| BringupProperties.InitDisplayOnUnchecked | drivers/display/display_hx8379.c:834-847 | a negative display-on result neither stops the driver nor prevents the backlight configuration; without a backlight line it is what the driver returns |
| BringupProperties.WritesOfSends | drivers/display/display_hx8379.c:680-730 | one checked write per block sends exactly those blocks, in order |
| BringupProperties.StagesAreSends | drivers/display/display_hx8379.c:680-821 | the register, gate and LUT stages are the checked writes of their blocks, with the 1 ms delay before VCOM |
| BringupProperties.QuietStagesWrite | drivers/display/display_hx8379.c:654-677 | the reset stage, the attach and the activation stage write no payload |
| BringupProperties.RegisterSetupWrites | drivers/display/display_hx8379.c:679-730 | the register stage writes extension, power, line, cycle, cmd1, panel, cmd3 |
| BringupProperties.GateSetupWrites | drivers/display/display_hx8379.c:732-771 | the gate stage writes GIP0, GIP1, GIP2, gamma, then VCOM |
| BringupProperties.GammaLutWrites | drivers/display/display_hx8379.c:773-821 | the LUT stage writes {0xBD,2}, bank 2, {0xBD,0}, {0xBD,1}, bank 1, {0xBD,0}, bank 0 |
| BringupProperties.PlanWrites | drivers/display/display_hx8379.c:680-821 | the payloads of all of the plan's generic writes are exactly the 19 blocks, in order |
| BringupProperties.InitWrites | drivers/display/display_hx8379.c:680-821 | whatever the answers, the payloads hx8379_init writes are an initial part of the 19 blocks, and all 19 in order when it does not return early |
| BringupProperties.InitWritesChannel | drivers/display/display_hx8379.c:680-821 | every generic write goes to the panel's configured channel |
| Control.ScanFlip | drivers/display/display_hx8379.c:589-603 | the scan-direction byte for each named orientation |
| Control.ScanFlipBits | drivers/display/display_hx8379.c:589-606 | the horizontal-flip bit is set exactly for normal and 270 degrees, the vertical bit exactly for 90 and 270 degrees, and no other bit is set |
| Control.ScanFlipValues | drivers/display/display_hx8379.c:591-603 | normal → 0x02, 90° → 0x01, 180° → 0x00, 270° → 0x03 |
| Control.ScanFlipInjective | drivers/display/display_hx8379.c:591-603 | distinct orientations send distinct bytes |
| Control.SetOrientation | drivers/display/display_hx8379.c:579-608 | a named orientation sends exactly {0x36, flip byte} on the panel's channel and returns the write's result; any other value returns -ENOTSUP with no call |
| Control.SetPixelFormat | drivers/display/display_hx8379.c:567-577 | returns 0 exactly when the format is the configured one, and -ENOTSUP otherwise |
| Control.Capabilities.Clear | drivers/display/display_hx8379.c:615 | memset: every field zero, which is the normal orientation |
| Control.GetCapabilities | drivers/display/display_hx8379.c:610-621 | reports width and height, the configured format as both the supported and the current format, normal orientation, and zero screen info, whatever the structure held before |
| Control.BlankingOff | drivers/display/display_hx8379.c:541-552 | with a backlight line, sets it to 1 and returns that result with no DSI call; without one, -ENOTSUP and no call |
| Control.BlankingOn | drivers/display/display_hx8379.c:554-565 | with a backlight line, sets it to 0 and returns that result with no DSI call; without one, -ENOTSUP and no call |
| Control.Write | drivers/display/display_hx8379.c:532-539 | always returns 0 and changes nothing |

## Left out

- **Logging.** `LOG_ERR`/`LOG_WRN` do not affect behaviour and are not modelled.
- **Device-tree registration.** The `HX8379_PANEL` / `DEVICE_DT_INST_DEFINE` macros (lines 850-870) are plumbing and are not modelled. The configuration is a `Platform.Config` value.
- **The MIPI-DSI host, the GPIO controller and their byte transport.** Their code is not part of this model. Each call becomes a trace event whose result comes from the caller's oracle.
- **Real time.** `k_msleep` and `k_sleep` are `Sleep(ms)` events without timing semantics.
- **Numeric enum values.**
  - The errno codes are Zephyr's (ENODEV = 19, ENOTSUP = 134); only their sign matters to the driver.
  - Orientations are a datatype, whose `Other` case stands for any value outside the four the API names.
  - Pixel formats are the configured byte, compared for equality.
- **Capability field widths.** `supportedPixelFormats`, `screenInfo` and `currentPixelFormat` of `Control.Capabilities` are unbounded naturals standing for the C structure's `uint32_t` and enum fields; every value stored fits them. The resolutions are `u16` as in C, and the orientation is the `Orientation` datatype.
- **Struct construction.** `hx8379_init` fills the `mdev` structure field by field. The model builds the equivalent `DsiDevice` value at once, with named fields.
- **One C function split into stages.** `Bringup.Init` calls one method per stage (reset, register set-up, gate set-up, LUT, activation). The calls keep the order and early returns of the single C function. The stage methods `SendRegisterSetup`, `SendGateSetup`, `WriteGammaLut` and `Activate` take the previous `ret` only as a ghost parameter, because it is never read before being overwritten.
- **The DCS commands in `blanking_off`/`blanking_on`.** They follow an unconditional return (lines 551 and 564), so they are unreachable; the model sends no DSI command from blanking.
- **`address_config`, `tear_config` and unused defines.** The two tables are defined (as `Tables.AddressConfig` and `Tables.TearConfig`) but never transmitted. The defines the driver never uses (such as `HX8379_SETMIPI`, the panel bits other than `REV_PANEL`, and the display-off DCS command, which appears only in the unreachable blanking code) are not modelled.
- **The unused arguments of `write`.** The coordinates, descriptor and buffer are accepted and ignored, as in the driver.
