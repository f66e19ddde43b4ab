/** What hx8379_init promises, proved about its reference semantics InitSpec
    (which Bringup.Init is proved to follow): the reset stage, the attach
    parameters, the fail-fast rule and its display-on exception, and the
    exact blocks sent. */
module BringupProperties {
  import opened Platform
  import opened Tables
  import opened Pipeline
  import opened Bringup

  /** The payloads of the generic writes of a trace, in order. */
  function Writes(es: seq<Event>): seq<seq<bv8>> {
    if |es| == 0 then []
    else Writes(es[..|es| - 1]) + (if es[|es| - 1].GenericWrite? then [es[|es| - 1].data] else [])
  }

  /** Position of the attach call in the plan: after the reset stage. */
  function AttachAt(cfg: Config): nat {
    |ResetStage(cfg)|
  }

  /** Position of the display-on command in the plan. */
  function DisplayOnAt(cfg: Config): nat {
    |ResetStage(cfg)| + 23
  }

  /** Facts every step of the plan satisfies. */
  predicate StepShape(cfg: Config, s: Step) {
    && (s.check.Discard? <==> s.event.Sleep?)
    && (s.check.StopIfNotReady? <==> s.event.IsReady?)
    && (s.check.StopIfNotReady? ==> s.event == IsReady(Reset) && s.check.err == -ENODEV)
    && (s.check.KeepResult? <==> s.event == DcsWrite(cfg.channel, SetDisplayOn))
    && (s.event.OnLine(Reset) || s.event == Sleep(11) ==> cfg.hasResetGpio)
    && (s.event.GenericWrite? ==> s.event.channel == cfg.channel)
  }

  predicate AllShaped(cfg: Config, steps: seq<Step>) {
    forall s :: s in steps ==> StepShape(cfg, s)
  }

  lemma ShapedAppend(cfg: Config, a: seq<Step>, b: seq<Step>)
    requires AllShaped(cfg, a) && AllShaped(cfg, b)
    ensures AllShaped(cfg, a + b)
  {
  }

  lemma StagesShaped(cfg: Config)
    ensures AllShaped(cfg, ResetStage(cfg))
    ensures AllShaped(cfg, [Call(Attach(cfg.channel, LinkConfig(cfg)))])
    ensures AllShaped(cfg, Activation(cfg))
  {
  }

  lemma WritesShaped(cfg: Config)
    ensures AllShaped(cfg, RegisterSetup(cfg.channel))
    ensures AllShaped(cfg, GateSetup(cfg.channel))
    ensures AllShaped(cfg, GammaLut(cfg.channel))
  {
  }

  lemma PlanSteps(cfg: Config)
    ensures forall j :: 0 <= j < |Plan(cfg)| ==> StepShape(cfg, Plan(cfg)[j])
  {
    var ch := cfg.channel;
    StagesShaped(cfg);
    WritesShaped(cfg);
    ShapedAppend(cfg, GammaLut(ch), Activation(cfg));
    ShapedAppend(cfg, GateSetup(ch), GammaLut(ch) + Activation(cfg));
    ShapedAppend(cfg, RegisterSetup(ch), GateSetup(ch) + (GammaLut(ch) + Activation(cfg)));
    ShapedAppend(cfg, [Call(Attach(ch, LinkConfig(cfg)))], RegisterSetup(ch) + (GateSetup(ch) + (GammaLut(ch) + Activation(cfg))));
    ShapedAppend(cfg, ResetStage(cfg), Body(cfg));
    forall j | 0 <= j < |Plan(cfg)| ensures StepShape(cfg, Plan(cfg)[j]) {
      assert Plan(cfg)[j] in Plan(cfg);
    }
  }

  /** The attach is the first call after the reset stage. */
  lemma AttachLayout(cfg: Config)
    ensures |Plan(cfg)| > AttachAt(cfg)
    ensures Plan(cfg)[AttachAt(cfg)] == Call(Attach(cfg.channel, LinkConfig(cfg)))
  {
    assert Plan(cfg)[|ResetStage(cfg)| + 0] == Body(cfg)[0];
  }

  /** The activation stage closes the plan. */
  lemma ActivationLayout(cfg: Config)
    ensures |Plan(cfg)| == AttachAt(cfg) + 21 + |Activation(cfg)|
    ensures forall j :: 0 <= j < |Activation(cfg)| ==> Plan(cfg)[AttachAt(cfg) + 21 + j] == Activation(cfg)[j]
  {
    PlanSplit(cfg);
    AppendTail(Prelude(cfg), Activation(cfg), AttachAt(cfg) + 21);
  }

  lemma AppendTail<T>(x: seq<T>, y: seq<T>, n: nat)
    requires n == |x|
    ensures forall j :: 0 <= j < |y| ==> (x + y)[n + j] == y[j]
  {
  }

  /** Where the attach, the activation commands and the backlight sit in
      a plan for cfg. */
  predicate Layout(cfg: Config, plan: seq<Step>) {
    var a := AttachAt(cfg);
    && |plan| == a + 25 + (if cfg.hasBacklightGpio then 1 else 0)
    && plan[a] == Call(Attach(cfg.channel, LinkConfig(cfg)))
    && plan[a + 21] == Call(DcsWrite(cfg.channel, ExitSleepMode))
    && plan[a + 22] == Pause(120)
    && plan[DisplayOnAt(cfg)] == Step(DcsWrite(cfg.channel, SetDisplayOn), KeepResult)
    && plan[a + 24] == Pause(120)
    && (cfg.hasBacklightGpio ==> plan[a + 25] == Call(Configure(Backlight, OutputActive)))
  }

  /** Any plan with the attach at AttachAt and the activation stage after 21
      further steps has the layout of hx8379_init's. */
  lemma LayoutOf(cfg: Config, plan: seq<Step>)
    requires |plan| == AttachAt(cfg) + 21 + |Activation(cfg)|
    requires plan[AttachAt(cfg)] == Call(Attach(cfg.channel, LinkConfig(cfg)))
    requires forall j :: 0 <= j < |Activation(cfg)| ==> plan[AttachAt(cfg) + 21 + j] == Activation(cfg)[j]
    ensures Layout(cfg, plan)
  {
    var act, a := Activation(cfg), AttachAt(cfg);
    assert plan[a + 21 + 0] == act[0];
    assert plan[a + 21 + 1] == act[1];
    assert plan[a + 21 + 2] == act[2];
    assert plan[a + 21 + 3] == act[3];
    if cfg.hasBacklightGpio {
      assert plan[a + 21 + 4] == act[4];
    }
  }

  lemma PlanLayout(cfg: Config)
    ensures Layout(cfg, Plan(cfg))
  {
    AttachLayout(cfg);
    ActivationLayout(cfg);
    LayoutOf(cfg, Plan(cfg));
  }

  /** The reset stage, when there is one, answers non-negatively. */
  predicate ResetPasses(cfg: Config, t: seq<Event>, o: Oracle) {
    !cfg.hasResetGpio || (o(|t|) >= 0 && o(|t| + 1) >= 0 && o(|t| + 3) >= 0)
  }

  /** Every tested call answers non-negatively; the sleeps and the
      display-on command may answer anything. */
  predicate AllSucceed(cfg: Config, t: seq<Event>, o: Oracle) {
    forall j :: 0 <= j < |Plan(cfg)| && Checked(cfg, Plan(cfg)[j].event) ==> o(|t| + j) >= 0
  }

  /** The fail-fast rule, for a run s of steps from trace t: the calls made
      are the plan's first k calls. When the driver returned early, the k-th
      call is the first to fail, it is neither a sleep nor the display-on
      command, and the value returned is negative: -ENODEV for a reset line
      that is not ready, otherwise the call's own result. Otherwise every
      call was made and none failed. */
  ghost predicate FailsFast(cfg: Config, steps: seq<Step>, t: seq<Event>, o: Oracle, s: Run) {
    var k := |s.trace| - |t|;
    && 0 <= k <= |steps| && s.trace == t + Events(steps)[..k]
    && (!s.stopped ==> k == |steps| && NoFailureIn(steps, 0, k, |t|, o))
    && (s.stopped ==>
         && 1 <= k && NoFailureIn(steps, 0, k - 1, |t|, o)
         && o(|t| + k - 1) < 0 && s.ret < 0
         && !steps[k - 1].event.Sleep? && steps[k - 1].event != DcsWrite(cfg.channel, SetDisplayOn)
         && s.ret == (if steps[k - 1].event == IsReady(Reset) then -ENODEV else o(|t| + k - 1)))
  }

  /** Any plan whose steps have the shape of hx8379_init's fails fast. */
  lemma ShapedFailFast(cfg: Config, steps: seq<Step>, t: seq<Event>, o: Oracle)
    requires forall j :: 0 <= j < |steps| ==> StepShape(cfg, steps[j])
    ensures FailsFast(cfg, steps, t, o, Execute(Run(t, 0, false), steps, o))
  {
    ExecuteResult(Run(t, 0, false), steps, o);
    var s := Execute(Run(t, 0, false), steps, o);
    if s.stopped {
      assert StepShape(cfg, steps[|s.trace| - |t| - 1]);
    }
  }

  /** hx8379_init fails fast. */
  lemma InitFailFast(cfg: Config, t: seq<Event>, o: Oracle)
    ensures FailsFast(cfg, Plan(cfg), t, o, InitSpec(cfg, t, o))
  {
    PlanSteps(cfg);
    ShapedFailFast(cfg, Plan(cfg), t, o);
  }

  /** A call whose result the driver tests: every call but the sleeps and
      the display-on command. */
  predicate Checked(cfg: Config, e: Event) {
    !e.Sleep? && e != DcsWrite(cfg.channel, SetDisplayOn)
  }

  /** A failure injected at any tested call n: when every earlier tested
      call answered non-negatively and call n answers negatively,
      hx8379_init makes exactly the first n + 1 calls of the plan and
      returns -ENODEV for the reset line's readiness check, or else call
      n's own result. */
  lemma InitStopsAtFailure(cfg: Config, t: seq<Event>, o: Oracle, n: nat)
    requires n < |Plan(cfg)| && Checked(cfg, Plan(cfg)[n].event) && o(|t| + n) < 0
    requires forall j :: 0 <= j < n && Checked(cfg, Plan(cfg)[j].event) ==> o(|t| + j) >= 0
    ensures InitSpec(cfg, t, o)
         == Run(t + Events(Plan(cfg))[..n + 1],
                if Plan(cfg)[n].event.IsReady? then -ENODEV else o(|t| + n), true)
  {
    var plan := Plan(cfg);
    PlanSteps(cfg);
    assert NoFailureIn(plan, 0, n, |t|, o) by {
      forall j | 0 <= j < n ensures !Fails(plan[j], o(|t| + j)) {
        assert StepShape(cfg, plan[j]);
      }
    }
    assert StepShape(cfg, plan[n]);
    ExecuteStopsAt(Run(t, 0, false), plan, n, o);
  }

  /** The value `ret` holds before its first assignment never reaches the
      caller: the first tested call, the reset line's readiness check or
      else the attach, either returns a value of its own or is followed by a
      call that assigns `ret`. */
  lemma InitRetUnset(cfg: Config, t: seq<Event>, o: Oracle, x: int)
    ensures Execute(Run(t, x, false), Plan(cfg), o) == InitSpec(cfg, t, o)
  {
    var plan := Plan(cfg);
    AttachLayout(cfg);
    var r1 := Advance(Run(t, x, false), plan, 0, o);
    var r2 := Advance(Run(t, 0, false), plan, 0, o);
    if cfg.hasResetGpio {
      assert plan[0] == ResetStage(cfg)[0] && plan[1] == ResetStage(cfg)[1];
      if !r1.stopped {
        var r1' := Advance(r1, plan, 1, o);
        var r2' := Advance(r2, plan, 1, o);
      }
    }
  }

  /** Without a reset line, no reset-line call and no 11 ms reset sleep is
      made, and the first call is the attach. */
  lemma InitSkipsReset(cfg: Config, t: seq<Event>, o: Oracle)
    requires !cfg.hasResetGpio
    ensures var s := InitSpec(cfg, t, o);
      && |s.trace| > |t| && s.trace[|t|] == Attach(cfg.channel, LinkConfig(cfg))
      && forall e :: e in s.trace[|t|..] ==> !e.OnLine(Reset) && e != Sleep(11)
  {
    var plan, s := Plan(cfg), InitSpec(cfg, t, o);
    ExecuteReaches(Run(t, 0, false), plan, 0, o);
    ExecutePrefix(Run(t, 0, false), plan, o);
    PlanSteps(cfg);
    PlanLayout(cfg);
    var tail := s.trace[|t|..];
    assert tail[0] == plan[0].event;
    forall e | e in tail ensures !e.OnLine(Reset) && e != Sleep(11) {
      var k :| 0 <= k < |tail| && tail[k] == e;
      assert e == plan[k].event;
    }
  }

  lemma InitResetNotReady(cfg: Config, t: seq<Event>, o: Oracle)
    requires cfg.hasResetGpio && o(|t|) < 0
    ensures InitSpec(cfg, t, o) == Run(t + [IsReady(Reset)], -ENODEV, true)
  {
    ExecuteStopsAt(Run(t, 0, false), Plan(cfg), 0, o);
    assert Events(Plan(cfg))[..1] == [IsReady(Reset)];
  }

  lemma InitResetConfigureFails(cfg: Config, t: seq<Event>, o: Oracle)
    requires cfg.hasResetGpio && o(|t|) >= 0 && o(|t| + 1) < 0
    ensures InitSpec(cfg, t, o)
         == Run(t + [IsReady(Reset), Configure(Reset, OutputInactive)], o(|t| + 1), true)
  {
    var plan := Plan(cfg);
    assert NoFailureIn(plan, 0, 1, |t|, o);
    ExecuteStopsAt(Run(t, 0, false), plan, 1, o);
    assert Events(plan)[..2] == [IsReady(Reset), Configure(Reset, OutputInactive)];
  }

  lemma InitResetSetFails(cfg: Config, t: seq<Event>, o: Oracle)
    requires cfg.hasResetGpio && o(|t|) >= 0 && o(|t| + 1) >= 0 && o(|t| + 3) < 0
    ensures InitSpec(cfg, t, o)
         == Run(t + [IsReady(Reset), Configure(Reset, OutputInactive), Sleep(11), Set(Reset, 1)], o(|t| + 3), true)
  {
    var plan := Plan(cfg);
    assert NoFailureIn(plan, 0, 3, |t|, o) by {
      forall j | 0 <= j < 3 ensures !Fails(plan[j], o(|t| + j)) {
        assert j == 0 || j == 1 || j == 2;
      }
    }
    ExecuteStopsAt(Run(t, 0, false), plan, 3, o);
    assert Events(plan)[..4] == [IsReady(Reset), Configure(Reset, OutputInactive), Sleep(11), Set(Reset, 1)];
  }

  /** No step before the attach fails when the reset stage passes. */
  lemma ResetStepsPass(cfg: Config, plan: seq<Step>, t: seq<Event>, o: Oracle)
    requires plan == Plan(cfg) && ResetPasses(cfg, t, o)
    ensures |plan| > AttachAt(cfg)
    ensures forall j :: 0 <= j < AttachAt(cfg) ==> !Fails(plan[j], o(|t| + j))
  {
    forall j | 0 <= j < AttachAt(cfg) ensures !Fails(plan[j], o(|t| + j)) {
      assert plan[j] == ResetStage(cfg)[j];
      assert j == 0 || j == 1 || j == 2 || j == 3 || j == 4;
    }
  }

  /** A reset stage that passes lets the driver make the attach call. */
  lemma ResetPassesReachesAttach(cfg: Config, plan: seq<Step>, t: seq<Event>, o: Oracle)
    requires plan == Plan(cfg) && ResetPasses(cfg, t, o)
    ensures var s := InitSpec(cfg, t, o);
      && |s.trace| > |t| + AttachAt(cfg)
      && t <= s.trace && s.trace[|t|..] <= Events(plan)
  {
    ResetStepsPass(cfg, plan, t, o);
    ExecuteReaches(Run(t, 0, false), plan, AttachAt(cfg), o);
    ExecutePrefix(Run(t, 0, false), plan, o);
  }

  /** The first six calls of the plan when there is a reset line. */
  lemma ResetEvents(cfg: Config, plan: seq<Step>)
    requires plan == Plan(cfg) && cfg.hasResetGpio
    ensures |plan| >= 6
    ensures Events(plan)[..6] == [IsReady(Reset), Configure(Reset, OutputInactive), Sleep(11), Set(Reset, 1), Sleep(120),
                 Attach(cfg.channel, LinkConfig(cfg))]
  {
    PlanLayout(cfg);
    assert plan[..5] == ResetStage(cfg);
  }

  /** With a reset line, and a reset stage that passes: ready check,
      configure inactive, 11 ms, set to 1, 120 ms, then the attach. */
  lemma InitResetOrder(cfg: Config, t: seq<Event>, o: Oracle)
    requires cfg.hasResetGpio && ResetPasses(cfg, t, o)
    ensures t + [IsReady(Reset), Configure(Reset, OutputInactive), Sleep(11), Set(Reset, 1), Sleep(120),
                 Attach(cfg.channel, LinkConfig(cfg))] <= InitSpec(cfg, t, o).trace
  {
    var plan, s := Plan(cfg), InitSpec(cfg, t, o);
    ResetPassesReachesAttach(cfg, plan, t, o);
    ResetEvents(cfg, plan);
    var tail := s.trace[|t|..];
    assert tail == Events(plan)[..|tail|];
    assert tail[..6] == Events(plan)[..6];
    assert s.trace[..|t| + 6] == t + tail[..6];
  }

  /** Once the reset stage passes, the attach is made with the panel's width,
      its height plus one, the fixed porches and pulse widths, and the video,
      burst and low-power modes; a negative attach result is returned and
      nothing else is sent. */
  lemma InitAttach(cfg: Config, t: seq<Event>, o: Oracle)
    requires ResetPasses(cfg, t, o)
    ensures var s, a := InitSpec(cfg, t, o), |t| + AttachAt(cfg);
      && |s.trace| > a
      && s.trace[a] == Attach(cfg.channel, DsiDevice(cfg.numOfLanes, cfg.pixelFormat, {Video, VideoBurst, Lpm},
           Timings(cfg.panelWidth as nat, 1, 1, 2, cfg.panelHeight as nat + 1, 12, 50, 1)))
      && (o(a) < 0 ==>
           && s.stopped && s.ret == o(a) && |s.trace| == a + 1
           && forall e :: e in s.trace[|t|..] ==> !e.GenericWrite?)
  {
    var plan, s := Plan(cfg), InitSpec(cfg, t, o);
    AttachCall(cfg, plan, t, o);
    if o(|t| + AttachAt(cfg)) < 0 {
      AttachFails(cfg, plan, t, o);
    }
  }

  lemma AttachCall(cfg: Config, plan: seq<Step>, t: seq<Event>, o: Oracle)
    requires plan == Plan(cfg) && ResetPasses(cfg, t, o)
    ensures var s, a := InitSpec(cfg, t, o), |t| + AttachAt(cfg);
      && |s.trace| > a
      && s.trace[a] == Attach(cfg.channel, LinkConfig(cfg))
  {
    var s, a := InitSpec(cfg, t, o), AttachAt(cfg);
    ResetPassesReachesAttach(cfg, plan, t, o);
    PlanLayout(cfg);
    assert s.trace[|t| + a] == s.trace[|t|..][a] == Events(plan)[a];
  }

  /** No step up to the attach is a generic write. */
  lemma NoWriteUpToAttach(cfg: Config, plan: seq<Step>)
    requires plan == Plan(cfg)
    ensures |plan| > AttachAt(cfg)
    ensures forall j :: 0 <= j <= AttachAt(cfg) ==> !plan[j].event.GenericWrite?
  {
    AttachLayout(cfg);
    forall j | 0 <= j < AttachAt(cfg) ensures !plan[j].event.GenericWrite? {
      assert plan[j] == ResetStage(cfg)[j];
    }
  }

  /** A failing attach is the call the driver stops at. */
  lemma AttachFails(cfg: Config, plan: seq<Step>, t: seq<Event>, o: Oracle)
    requires plan == Plan(cfg) && ResetPasses(cfg, t, o) && o(|t| + AttachAt(cfg)) < 0
    ensures var s, a := InitSpec(cfg, t, o), |t| + AttachAt(cfg);
      && s.stopped && s.ret == o(a) && |s.trace| == a + 1
      && forall e :: e in s.trace[|t|..] ==> !e.GenericWrite?
  {
    var s, a := InitSpec(cfg, t, o), AttachAt(cfg);
    ResetStepsPass(cfg, plan, t, o);
    AttachLayout(cfg);
    assert NoFailureIn(plan, 0, a, |t|, o);
    assert Fails(plan[a], o(|t| + a));
    ExecuteStopsAt(Run(t, 0, false), plan, a, o);
    NoWriteUpToAttach(cfg, plan);
    forall e | e in s.trace[|t|..] ensures !e.GenericWrite? {
      var k :| 0 <= k < |s.trace[|t|..]| && s.trace[|t|..][k] == e;
      assert e == plan[k].event;
    }
  }

  /** Everything before the activation stage. */
  function Prelude(cfg: Config): seq<Step> {
    ResetStage(cfg) + ([Call(Attach(cfg.channel, LinkConfig(cfg)))]
      + (RegisterSetup(cfg.channel) + (GateSetup(cfg.channel) + GammaLut(cfg.channel))))
  }

  lemma Regroup<T>(a: seq<T>, b: seq<T>, c: seq<T>, d: seq<T>, e: seq<T>, f: seq<T>)
    ensures a + (b + (c + (d + (e + f)))) == (a + (b + (c + (d + e)))) + f
  {
  }

  lemma PlanSplit(cfg: Config)
    ensures Plan(cfg) == Prelude(cfg) + Activation(cfg)
    ensures |Prelude(cfg)| == AttachAt(cfg) + 21
  {
    var ch := cfg.channel;
    Regroup(ResetStage(cfg), [Call(Attach(ch, LinkConfig(cfg)))], RegisterSetup(ch), GateSetup(ch), GammaLut(ch), Activation(cfg));
  }

  /** No call of the plan fails when every tested call answers
      non-negatively. */
  lemma SucceedingPlan(cfg: Config, plan: seq<Step>, t: seq<Event>, o: Oracle)
    requires plan == Plan(cfg) && AllSucceed(cfg, t, o)
    ensures NoFailureIn(plan, 0, |plan|, |t|, o)
  {
    PlanSteps(cfg);
    PlanLayout(cfg);
    forall j | 0 <= j < |plan| ensures !Fails(plan[j], o(|t| + j)) {
      assert StepShape(cfg, plan[j]);
    }
  }

  /** A run in which no call fails returns the last value the driver
      assigned: the backlight configuration's result when there is a
      backlight line, otherwise the unchecked display-on result. */
  lemma CompletedResult(cfg: Config, plan: seq<Step>, t: seq<Event>, o: Oracle)
    requires plan == Plan(cfg) && NoFailureIn(plan, 0, |plan|, |t|, o)
    ensures InitSpec(cfg, t, o).ret
         == if cfg.hasBacklightGpio then o(|t| + AttachAt(cfg) + 25) else o(|t| + DisplayOnAt(cfg))
  {
    var pre, act := Prelude(cfg), Activation(cfg);
    var b := |t| + |pre|;
    PlanSplit(cfg);
    ExecuteAppend(Run(t, 0, false), pre, act, o);
    assert NoFailureIn(pre, 0, |pre|, |t|, o) by {
      forall j | 0 <= j < |pre| ensures !Fails(pre[j], o(|t| + j)) {
        assert pre[j] == plan[j];
      }
    }
    ExecuteCompletes(Run(t, 0, false), pre, o);
    var r := Execute(Run(t, 0, false), pre, o);
    assert !Fails(act[0], o(b + 0)) by {
      assert act[0] == plan[|pre| + 0];
    }
    var r1 := Advance(r, act, 0, o);
    var r2 := Advance(r1, act, 1, o);
    var r3 := Advance(r2, act, 2, o);
    var r4 := Advance(r3, act, 3, o);
    assert r4.ret == o(b + 2);
    if cfg.hasBacklightGpio {
      assert !Fails(act[4], o(b + 4)) by {
        assert act[4] == plan[|pre| + 4];
      }
      var r5 := Advance(r4, act, 4, o);
      assert ExecuteFrom(r5, act, 5, o) == r5;
    } else {
      assert ExecuteFrom(r4, act, 4, o) == r4;
    }
  }

  /** The calls of the activation stage: leave sleep mode, 120 ms, display
      on, 120 ms, and the backlight line set up as an active output when
      there is one. */
  lemma ActivationEvents(cfg: Config)
    ensures Events(Activation(cfg))
         == [DcsWrite(cfg.channel, ExitSleepMode), Sleep(120), DcsWrite(cfg.channel, SetDisplayOn), Sleep(120)]
            + (if cfg.hasBacklightGpio then [Configure(Backlight, OutputActive)] else [])
  {
  }

  /** When every call but the display-on command succeeds, hx8379_init makes
      every call of the plan, does not return early, ends with the activation
      calls, and returns the backlight configuration's result, or, without a
      backlight line, the display-on result, negative or not. */
  lemma InitCompletes(cfg: Config, t: seq<Event>, o: Oracle)
    requires AllSucceed(cfg, t, o)
    ensures var s := InitSpec(cfg, t, o);
      && !s.stopped
      && s.trace == t + Events(Prelude(cfg)) + Events(Activation(cfg))
      && |Events(Prelude(cfg))| == AttachAt(cfg) + 21
      && s.ret == if cfg.hasBacklightGpio then o(|t| + AttachAt(cfg) + 25) else o(|t| + DisplayOnAt(cfg))
  {
    var plan := Plan(cfg);
    SucceedingPlan(cfg, plan, t, o);
    ExecuteCompletes(Run(t, 0, false), plan, o);
    CompletedResult(cfg, plan, t, o);
    PlanSplit(cfg);
    EventsAppend(Prelude(cfg), Activation(cfg));
  }

  /** The display-on result is never tested: a negative display-on answer
      neither stops the driver nor keeps it from configuring the backlight. */
  lemma InitDisplayOnUnchecked(cfg: Config, t: seq<Event>, o: Oracle)
    requires AllSucceed(cfg, t, o) && o(|t| + DisplayOnAt(cfg)) < 0
    ensures var s := InitSpec(cfg, t, o);
      && !s.stopped && |s.trace| == |t| + |Plan(cfg)|
      && (cfg.hasBacklightGpio ==> s.trace[|s.trace| - 1] == Configure(Backlight, OutputActive) && s.ret >= 0)
      && (!cfg.hasBacklightGpio ==> s.ret < 0)
  {
    var plan := Plan(cfg);
    SucceedingPlan(cfg, plan, t, o);
    ExecuteCompletes(Run(t, 0, false), plan, o);
    CompletedResult(cfg, plan, t, o);
    PlanLayout(cfg);
    if cfg.hasBacklightGpio {
      assert o(|t| + AttachAt(cfg) + 25) >= 0;
    }
  }

  /** Writes distributes over concatenation. */
  lemma {:induction false} WritesAppend(a: seq<Event>, b: seq<Event>)
    ensures Writes(a + b) == Writes(a) + Writes(b)
    decreases |b|
  {
    if |b| > 0 {
      var b' := b[..|b| - 1];
      assert (a + b)[..|a + b| - 1] == a + b';
      WritesAppend(a, b');
    } else {
      assert a + b == a;
    }
  }

  /** The writes of an initial part of a trace are an initial part of its
      writes. */
  lemma {:induction false} WritesPrefix(es: seq<Event>, k: nat)
    requires k <= |es|
    ensures Writes(es[..k]) <= Writes(es)
  {
    assert es[..k] + es[k..] == es;
    WritesAppend(es[..k], es[k..]);
  }

  /** A trace without generic writes has no payloads. */
  lemma {:induction false} NoWrites(es: seq<Event>)
    requires forall j :: 0 <= j < |es| ==> !es[j].GenericWrite?
    ensures Writes(es) == []
    decreases |es|
  {
    if |es| > 0 {
      NoWrites(es[..|es| - 1]);
    }
  }

  /** One checked write per block sends exactly the blocks, in order. */
  lemma {:induction false} WritesOfSends(ch: u8, blocks: seq<seq<bv8>>)
    ensures Writes(Events(Sends(ch, blocks))) == blocks
    decreases |blocks|
  {
    if |blocks| > 0 {
      var n := |blocks| - 1;
      var es := Events(Sends(ch, blocks));
      assert es[..n] == Events(Sends(ch, blocks[..n]));
      WritesOfSends(ch, blocks[..n]);
      assert blocks[..n] + [blocks[n]] == blocks;
    }
  }

  /** The three write stages are the checked writes of their blocks (with the
      settling delay before VCOM). */
  lemma StagesAreSends(ch: u8)
    ensures RegisterSetup(ch) == Sends(ch, RegisterBlocks)
    ensures GateSetup(ch) == Sends(ch, GateBlocks) + [Pause(1)] + Sends(ch, [VcomConfig])
    ensures GammaLut(ch) == Sends(ch, BankBlocks)
  {
  }

  /** The reset stage, the attach and the activation stage write nothing. */
  lemma QuietStagesWrite(cfg: Config)
    ensures Writes(Events(ResetStage(cfg) + [Call(Attach(cfg.channel, LinkConfig(cfg)))])) == []
    ensures Writes(Events(Activation(cfg))) == []
  {
    NoWrites(Events(ResetStage(cfg) + [Call(Attach(cfg.channel, LinkConfig(cfg)))]));
    NoWrites(Events(Activation(cfg)));
  }

  lemma RegisterSetupWrites(ch: u8)
    ensures Writes(Events(RegisterSetup(ch))) == RegisterBlocks
  {
    StagesAreSends(ch);
    WritesOfSends(ch, RegisterBlocks);
  }

  lemma GammaLutWrites(ch: u8)
    ensures Writes(Events(GammaLut(ch))) == BankBlocks
  {
    StagesAreSends(ch);
    WritesOfSends(ch, BankBlocks);
  }

  lemma GateSetupWrites(ch: u8)
    ensures Writes(Events(GateSetup(ch))) == GateBlocks + [VcomConfig]
  {
    StagesAreSends(ch);
    SendsAroundPause(ch, GateBlocks, [VcomConfig], 1);
  }

  /** Checked writes of two block lists with a sleep between them send the
      blocks of both, in order. */
  lemma SendsAroundPause(ch: u8, first: seq<seq<bv8>>, second: seq<seq<bv8>>, ms: nat)
    ensures Writes(Events(Sends(ch, first) + [Pause(ms)] + Sends(ch, second))) == first + second
  {
    var a, p, b := Sends(ch, first), [Pause(ms)], Sends(ch, second);
    WritesOfSends(ch, first);
    WritesOfSends(ch, second);
    NoWrites(Events(p));
    EventsAppend(a + p, b);
    EventsAppend(a, p);
    WritesAppend(Events(a) + Events(p), Events(b));
    WritesAppend(Events(a), Events(p));
  }

  /** The writes of five consecutive parts of a plan are the writes of each
      part, in order. */
  lemma WritesOfParts(a: seq<Step>, b: seq<Step>, c: seq<Step>, d: seq<Step>, e: seq<Step>)
    ensures Writes(Events(a + b + c + d + e))
         == Writes(Events(a)) + Writes(Events(b)) + Writes(Events(c)) + Writes(Events(d)) + Writes(Events(e))
  {
    EventsAppend(a + b + c + d, e);
    EventsAppend(a + b + c, d);
    EventsAppend(a + b, c);
    EventsAppend(a, b);
    WritesAppend(Events(a + b + c + d), Events(e));
    WritesAppend(Events(a + b + c), Events(d));
    WritesAppend(Events(a + b), Events(c));
    WritesAppend(Events(a), Events(b));
  }

  lemma PlanParts(cfg: Config)
    ensures Plan(cfg)
         == (ResetStage(cfg) + [Call(Attach(cfg.channel, LinkConfig(cfg)))]) + RegisterSetup(cfg.channel)
            + GateSetup(cfg.channel) + GammaLut(cfg.channel) + Activation(cfg)
  {
  }

  /** The payloads of all the plan's generic writes are the 19 blocks of
      InitBlocks, in order. */
  lemma PlanWrites(cfg: Config)
    ensures Writes(Events(Plan(cfg))) == InitBlocks
  {
    var ch := cfg.channel;
    PlanParts(cfg);
    WritesOfParts(ResetStage(cfg) + [Call(Attach(ch, LinkConfig(cfg)))], RegisterSetup(ch), GateSetup(ch), GammaLut(ch), Activation(cfg));
    QuietStagesWrite(cfg);
    RegisterSetupWrites(ch);
    GateSetupWrites(ch);
    GammaLutWrites(ch);
  }

  /** hx8379_init sends InitBlocks with generic writes, in order: whatever
      the answers, the payloads written are an initial part of those 19
      blocks, and all of them when the driver does not return early. */
  lemma InitWrites(cfg: Config, t: seq<Event>, o: Oracle)
    ensures |InitBlocks| == 19
    ensures var s := InitSpec(cfg, t, o);
      && t <= s.trace
      && Writes(s.trace[|t|..]) <= InitBlocks
      && (!s.stopped ==> Writes(s.trace[|t|..]) == InitBlocks)
  {
    var plan, s := Plan(cfg), InitSpec(cfg, t, o);
    InitFailFast(cfg, t, o);
    PlanWrites(cfg);
    var k := |s.trace| - |t|;
    assert s.trace[|t|..] == Events(plan)[..k];
    WritesPrefix(Events(plan), k);
    if !s.stopped {
      assert Events(plan)[..k] == Events(plan);
    }
  }

  /** Every generic write of hx8379_init goes to the panel's virtual channel. */
  lemma InitWritesChannel(cfg: Config, t: seq<Event>, o: Oracle)
    ensures var s := InitSpec(cfg, t, o);
      && t <= s.trace
      && forall e :: e in s.trace[|t|..] && e.GenericWrite? ==> e.channel == cfg.channel
  {
    var plan, s := Plan(cfg), InitSpec(cfg, t, o);
    ExecutePrefix(Run(t, 0, false), plan, o);
    PlanSteps(cfg);
    var tail := s.trace[|t|..];
    forall e | e in tail && e.GenericWrite? ensures e.channel == cfg.channel {
      var j :| 0 <= j < |tail| && tail[j] == e;
      assert e == plan[j].event;
    }
  }
}
