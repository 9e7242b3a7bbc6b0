/** What one iteration of the control loop, and a run of iterations, promise:
    the order of the outward actions, which of them happen in which
    circumstances and with what payload, and how the balancing state
    evolves. */
module ControlLoopProperties {
  import opened Balancing
  import opened ControlLoop

  /** The actions of stage k in t, in order. */
  function AtStage(t: seq<Action>, k: nat): (r: seq<Action>)
    ensures |r| <= |t|
  {
    if t == [] then [] else (if Stage(t[0]) == k then [t[0]] else []) + AtStage(t[1..], k)
  }

  /** Every action of t has a stage in [lo, hi). */
  predicate Within(t: seq<Action>, lo: nat, hi: nat)
  {
    forall i :: 0 <= i < |t| ==> lo <= Stage(t[i]) < hi
  }

  /** The stages of t strictly increase: every kind of action occurs at most
      once, and in the fixed order of the loop body. */
  predicate Ordered(t: seq<Action>)
  {
    forall i, j :: 0 <= i < j < |t| ==> Stage(t[i]) < Stage(t[j])
  }

  lemma {:induction false} AtStageAppend(a: seq<Action>, b: seq<Action>, k: nat)
    ensures AtStage(a + b, k) == AtStage(a, k) + AtStage(b, k)
  {
    if a == [] {
      assert a + b == b;
    } else {
      var head := if Stage(a[0]) == k then [a[0]] else [];
      assert (a + b)[0] == a[0];
      assert (a + b)[1..] == a[1..] + b;
      AtStageAppend(a[1..], b, k);
      assert AtStage(a + b, k) == head + (AtStage(a[1..], k) + AtStage(b, k));
      assert head + (AtStage(a[1..], k) + AtStage(b, k)) == (head + AtStage(a[1..], k)) + AtStage(b, k);
    }
  }

  lemma {:induction false} AtStageNone(t: seq<Action>, k: nat)
    requires forall i :: 0 <= i < |t| ==> Stage(t[i]) != k
    ensures AtStage(t, k) == []
  {
    if t != [] {
      AtStageNone(t[1..], k);
    }
  }

  lemma AtStageSingle(a: Action, k: nat)
    ensures AtStage([a], k) == if Stage(a) == k then [a] else []
  {
    assert [a][1..] == [];
  }

  lemma AtStageOutside(t: seq<Action>, lo: nat, hi: nat, k: nat)
    requires Within(t, lo, hi) && !(lo <= k < hi)
    ensures AtStage(t, k) == []
  {
    AtStageNone(t, k);
  }

  lemma WithinAppend(a: seq<Action>, b: seq<Action>, lo: nat, mid: nat, hi: nat)
    requires Within(a, lo, mid) && Within(b, mid, hi) && lo <= mid <= hi
    ensures Within(a + b, lo, hi)
  {
    forall i | 0 <= i < |a + b|
      ensures lo <= Stage((a + b)[i]) < hi
    {
      if i < |a| {
        assert (a + b)[i] == a[i];
      } else {
        assert (a + b)[i] == b[i - |a|];
      }
    }
  }

  /** Two ordered traces whose stages do not overlap, the first below the
      second, make an ordered trace. */
  lemma OrderedAppend(a: seq<Action>, b: seq<Action>, lo: nat, mid: nat, hi: nat)
    requires Ordered(a) && Ordered(b) && Within(a, lo, mid) && Within(b, mid, hi) && lo <= mid <= hi
    ensures Ordered(a + b) && Within(a + b, lo, hi)
  {
    WithinAppend(a, b, lo, mid, hi);
    forall i, j | 0 <= i < j < |a + b|
      ensures Stage((a + b)[i]) < Stage((a + b)[j])
    {
      if j < |a| {
        assert (a + b)[i] == a[i] && (a + b)[j] == a[j];
      } else if i < |a| {
        assert (a + b)[i] == a[i] && (a + b)[j] == b[j - |a|];
      } else {
        assert (a + b)[i] == b[i - |a|] && (a + b)[j] == b[j - |a|];
      }
    }
  }

  // The stages each block of the loop body can produce.

  lemma FirmwareStages(s: State, e: Env)
    ensures Within(FirmwareBlock(s, e).trace, 1, 2)
  {
  }

  lemma FirmwareOrdered(s: State, e: Env)
    ensures Ordered(FirmwareBlock(s, e).trace)
  {
  }

  lemma TemperatureStages(p: Platform, s: State, e: Env)
    ensures Within(TemperatureBlock(p, s, e).trace, 2, 4)
  {
  }

  lemma TemperatureOrdered(p: Platform, s: State, e: Env)
    ensures Ordered(TemperatureBlock(p, s, e).trace)
  {
  }

  lemma VoltageOrdered(s: State, e: Env)
    ensures Within(VoltageBlock(s, e).trace, 4, 11) && Ordered(VoltageBlock(s, e).trace)
  {
    if s.flags.voltTimeout {
      var check := ConfigCheck(s, e);
      var measure := Measure(check.state, e);
      var report := Report(measure.state, e);
      CheckStages(s, e);
      MeasureStages(check.state, e);
      ReportStages(measure.state, e);
      OrderedAppend(check.trace, measure.trace, 4, 7, 10);
      OrderedAppend(check.trace + measure.trace, report.trace, 4, 10, 11);
    }
  }

  lemma CheckStages(s: State, e: Env)
    ensures Within(ConfigCheck(s, e).trace, 4, 7) && Ordered(ConfigCheck(s, e).trace)
  {
  }

  lemma MeasureStages(s: State, e: Env)
    ensures Within(Measure(s, e).trace, 7, 10) && Ordered(Measure(s, e).trace)
  {
  }

  lemma ReportStages(s: State, e: Env)
    ensures Within(Report(s, e).trace, 10, 11) && Ordered(Report(s, e).trace)
  {
  }

  lemma PushStages(p: Platform, s: State)
    ensures Within(ConfigPushBlock(p, s).trace, 11, 12)
  {
  }

  lemma PushOrdered(p: Platform, s: State)
    ensures Ordered(ConfigPushBlock(p, s).trace)
  {
  }

  lemma BalancingStages(p: Platform, s: State, e: Env)
    ensures Within(BalancingBlock(p, s, e).trace, 12, 13)
  {
  }

  lemma BalancingOrdered(p: Platform, s: State, e: Env)
    ensures Ordered(BalancingBlock(p, s, e).trace)
  {
  }

  /** The actions of stage k in an iteration's trace, made of the traces of
      its five blocks and the final wait, are those of the one block that
      owns stage k. */
  lemma AtStageOfParts(t1: seq<Action>, t2: seq<Action>, t3: seq<Action>, t4: seq<Action>,
                       t5: seq<Action>, k: nat)
    requires k != Stage(WaitForInterrupt)
    ensures var t := t1 + t2 + t3 + t4 + t5 + [WaitForInterrupt];
      && (AtStage(t2, k) == AtStage(t3, k) == AtStage(t4, k) == AtStage(t5, k) == [] ==> AtStage(t, k) == AtStage(t1, k))
      && (AtStage(t1, k) == AtStage(t3, k) == AtStage(t4, k) == AtStage(t5, k) == [] ==> AtStage(t, k) == AtStage(t2, k))
      && (AtStage(t1, k) == AtStage(t2, k) == AtStage(t4, k) == AtStage(t5, k) == [] ==> AtStage(t, k) == AtStage(t3, k))
      && (AtStage(t1, k) == AtStage(t2, k) == AtStage(t3, k) == AtStage(t5, k) == [] ==> AtStage(t, k) == AtStage(t4, k))
      && (AtStage(t1, k) == AtStage(t2, k) == AtStage(t3, k) == AtStage(t4, k) == [] ==> AtStage(t, k) == AtStage(t5, k))
  {
    AtStageOfSum(t1, t2, t3, t4, t5, [WaitForInterrupt], k);
    AtStageSingle(WaitForInterrupt, k);
  }

  /** The actions of stage k in a concatenation of six traces are those of
      each trace in turn. */
  lemma AtStageOfSum(t1: seq<Action>, t2: seq<Action>, t3: seq<Action>, t4: seq<Action>,
                     t5: seq<Action>, t6: seq<Action>, k: nat)
    ensures AtStage(t1 + t2 + t3 + t4 + t5 + t6, k) ==
      AtStage(t1, k) + AtStage(t2, k) + AtStage(t3, k) + AtStage(t4, k) + AtStage(t5, k) + AtStage(t6, k)
  {
    AtStageAppend(t1, t2, k);
    AtStageAppend(t1 + t2, t3, k);
    AtStageAppend(t1 + t2 + t3, t4, k);
    AtStageAppend(t1 + t2 + t3 + t4, t5, k);
    AtStageAppend(t1 + t2 + t3 + t4 + t5, t6, k);
  }

  /** Every iteration performs its actions in the fixed order of the loop
      body, each at most once, and ends with the wait for an interrupt. */
  lemma StepOrder(p: Platform, s: State, e: Env)
    requires ValidState(p, s) && EnvFits(p, e)
    ensures Ordered(StepSpec(p, s, e).trace)
    ensures StepSpec(p, s, e).trace[|StepSpec(p, s, e).trace| - 1] == WaitForInterrupt
  {
    var fw := FirmwareBlock(s, e);
    var temp := TemperatureBlock(p, fw.state, e);
    var volt := VoltageBlock(temp.state, e);
    var push := ConfigPushBlock(p, volt.state);
    var bal := BalancingBlock(p, push.state, e);
    FirmwareStages(s, e);
    FirmwareOrdered(s, e);
    TemperatureStages(p, fw.state, e);
    TemperatureOrdered(p, fw.state, e);
    VoltageOrdered(temp.state, e);
    PushStages(p, volt.state);
    PushOrdered(p, volt.state);
    BalancingStages(p, push.state, e);
    BalancingOrdered(p, push.state, e);
    OrderedAppend(fw.trace, temp.trace, 1, 2, 4);
    OrderedAppend(fw.trace + temp.trace, volt.trace, 1, 4, 11);
    OrderedAppend(fw.trace + temp.trace + volt.trace, push.trace, 1, 11, 12);
    OrderedAppend(fw.trace + temp.trace + volt.trace + push.trace, bal.trace, 1, 12, 13);
    OrderedAppend(fw.trace + temp.trace + volt.trace + push.trace + bal.trace, [WaitForInterrupt], 1, 13, 14);
  }

  lemma FirmwareAtOtherStage(s: State, e: Env, k: nat)
    requires k != 1
    ensures AtStage(FirmwareBlock(s, e).trace, k) == []
  {
    FirmwareStages(s, e);
    AtStageOutside(FirmwareBlock(s, e).trace, 1, 2, k);
  }

  lemma TemperatureAtOtherStage(p: Platform, s: State, e: Env, k: nat)
    requires !(2 <= k < 4)
    ensures AtStage(TemperatureBlock(p, s, e).trace, k) == []
  {
    TemperatureStages(p, s, e);
    AtStageOutside(TemperatureBlock(p, s, e).trace, 2, 4, k);
  }

  lemma VoltageAtOtherStage(s: State, e: Env, k: nat)
    requires !(4 <= k < 11)
    ensures AtStage(VoltageBlock(s, e).trace, k) == []
  {
    VoltageOrdered(s, e);
    AtStageOutside(VoltageBlock(s, e).trace, 4, 11, k);
  }

  lemma PushAtOtherStage(p: Platform, s: State, k: nat)
    requires k != 11
    ensures AtStage(ConfigPushBlock(p, s).trace, k) == []
  {
    PushStages(p, s);
    AtStageOutside(ConfigPushBlock(p, s).trace, 11, 12, k);
  }

  lemma BalancingAtOtherStage(p: Platform, s: State, e: Env, k: nat)
    requires k != 12
    ensures AtStage(BalancingBlock(p, s, e).trace, k) == []
  {
    BalancingStages(p, s, e);
    AtStageOutside(BalancingBlock(p, s, e).trace, 12, 13, k);
  }

  // Stage k of an iteration comes from the one block that owns it.

  lemma StepAtFirmwareStage(p: Platform, s: State, e: Env)
    requires ValidState(p, s) && EnvFits(p, e)
    ensures
      var fw := FirmwareBlock(s, e);
      AtStage(StepSpec(p, s, e).trace, FirmwareStage) == AtStage(fw.trace, FirmwareStage)
  {
    var fw := FirmwareBlock(s, e);
    var temp := TemperatureBlock(p, fw.state, e);
    var volt := VoltageBlock(temp.state, e);
    var push := ConfigPushBlock(p, volt.state);
    var bal := BalancingBlock(p, push.state, e);
    AtStageOfParts(fw.trace, temp.trace, volt.trace, push.trace, bal.trace, FirmwareStage);
    TemperatureAtOtherStage(p, fw.state, e, FirmwareStage);
    VoltageAtOtherStage(temp.state, e, FirmwareStage);
    PushAtOtherStage(p, volt.state, FirmwareStage);
    BalancingAtOtherStage(p, push.state, e, FirmwareStage);
  }

  lemma StepAtTemperatureStage(p: Platform, s: State, e: Env, k: nat)
    requires ValidState(p, s) && EnvFits(p, e) && 2 <= k < 4
    ensures
      var fw := FirmwareBlock(s, e);
      var temp := TemperatureBlock(p, fw.state, e);
      AtStage(StepSpec(p, s, e).trace, k) == AtStage(temp.trace, k)
  {
    var fw := FirmwareBlock(s, e);
    var temp := TemperatureBlock(p, fw.state, e);
    var volt := VoltageBlock(temp.state, e);
    var push := ConfigPushBlock(p, volt.state);
    var bal := BalancingBlock(p, push.state, e);
    AtStageOfParts(fw.trace, temp.trace, volt.trace, push.trace, bal.trace, k);
    FirmwareAtOtherStage(s, e, k);
    VoltageAtOtherStage(temp.state, e, k);
    PushAtOtherStage(p, volt.state, k);
    BalancingAtOtherStage(p, push.state, e, k);
  }

  lemma StepAtVoltageStage(p: Platform, s: State, e: Env, k: nat)
    requires ValidState(p, s) && EnvFits(p, e) && 4 <= k < 11
    ensures
      var fw := FirmwareBlock(s, e);
      var temp := TemperatureBlock(p, fw.state, e);
      var volt := VoltageBlock(temp.state, e);
      AtStage(StepSpec(p, s, e).trace, k) == AtStage(volt.trace, k)
  {
    var fw := FirmwareBlock(s, e);
    var temp := TemperatureBlock(p, fw.state, e);
    var volt := VoltageBlock(temp.state, e);
    var push := ConfigPushBlock(p, volt.state);
    var bal := BalancingBlock(p, push.state, e);
    AtStageOfParts(fw.trace, temp.trace, volt.trace, push.trace, bal.trace, k);
    FirmwareAtOtherStage(s, e, k);
    TemperatureAtOtherStage(p, fw.state, e, k);
    PushAtOtherStage(p, volt.state, k);
    BalancingAtOtherStage(p, push.state, e, k);
  }

  lemma StepAtPushStage(p: Platform, s: State, e: Env)
    requires ValidState(p, s) && EnvFits(p, e)
    ensures
      var fw := FirmwareBlock(s, e);
      var temp := TemperatureBlock(p, fw.state, e);
      var volt := VoltageBlock(temp.state, e);
      var push := ConfigPushBlock(p, volt.state);
      AtStage(StepSpec(p, s, e).trace, ConfigPushStage) == AtStage(push.trace, ConfigPushStage)
  {
    var fw := FirmwareBlock(s, e);
    var temp := TemperatureBlock(p, fw.state, e);
    var volt := VoltageBlock(temp.state, e);
    var push := ConfigPushBlock(p, volt.state);
    var bal := BalancingBlock(p, push.state, e);
    AtStageOfParts(fw.trace, temp.trace, volt.trace, push.trace, bal.trace, ConfigPushStage);
    FirmwareAtOtherStage(s, e, ConfigPushStage);
    TemperatureAtOtherStage(p, fw.state, e, ConfigPushStage);
    VoltageAtOtherStage(temp.state, e, ConfigPushStage);
    BalancingAtOtherStage(p, push.state, e, ConfigPushStage);
  }

  lemma StepAtBalancingStage(p: Platform, s: State, e: Env)
    requires ValidState(p, s) && EnvFits(p, e)
    ensures
      var fw := FirmwareBlock(s, e);
      var temp := TemperatureBlock(p, fw.state, e);
      var volt := VoltageBlock(temp.state, e);
      var push := ConfigPushBlock(p, volt.state);
      var bal := BalancingBlock(p, push.state, e);
      AtStage(StepSpec(p, s, e).trace, CompletionStage) == AtStage(bal.trace, CompletionStage)
  {
    var fw := FirmwareBlock(s, e);
    var temp := TemperatureBlock(p, fw.state, e);
    var volt := VoltageBlock(temp.state, e);
    var push := ConfigPushBlock(p, volt.state);
    var bal := BalancingBlock(p, push.state, e);
    AtStageOfParts(fw.trace, temp.trace, volt.trace, push.trace, bal.trace, CompletionStage);
    FirmwareAtOtherStage(s, e, CompletionStage);
    TemperatureAtOtherStage(p, fw.state, e, CompletionStage);
    VoltageAtOtherStage(temp.state, e, CompletionStage);
    PushAtOtherStage(p, volt.state, CompletionStage);
  }

  lemma CheckAtOtherStage(s: State, e: Env, k: nat)
    requires !(4 <= k < 7)
    ensures AtStage(ConfigCheck(s, e).trace, k) == []
  {
    CheckStages(s, e);
    AtStageOutside(ConfigCheck(s, e).trace, 4, 7, k);
  }

  lemma MeasureAtOtherStage(s: State, e: Env, k: nat)
    requires !(7 <= k < 10)
    ensures AtStage(Measure(s, e).trace, k) == []
  {
    MeasureStages(s, e);
    AtStageOutside(Measure(s, e).trace, 7, 10, k);
  }

  lemma ReportAtOtherStage(s: State, e: Env, k: nat)
    requires k != 10
    ensures AtStage(Report(s, e).trace, k) == []
  {
    ReportStages(s, e);
    AtStageOutside(Report(s, e).trace, 10, 11, k);
  }

  /** The actions of the voltage block at stages 4 to 6 are those of the
      configuration check. */
  lemma VoltageAtCheckStage(s: State, e: Env, k: nat)
    requires s.flags.voltTimeout && 4 <= k < 7
    ensures AtStage(VoltageBlock(s, e).trace, k) == AtStage(ConfigCheck(s, e).trace, k)
  {
    var check := ConfigCheck(s, e);
    var measure := Measure(check.state, e);
    var report := Report(measure.state, e);
    AtStageAppend(check.trace, measure.trace, k);
    AtStageAppend(check.trace + measure.trace, report.trace, k);
    MeasureAtOtherStage(check.state, e, k);
    ReportAtOtherStage(measure.state, e, k);
  }

  /** The actions of the voltage block at stage 10 are those of the
      report. */
  lemma VoltageAtReportStage(s: State, e: Env)
    requires s.flags.voltTimeout
    ensures
      var measure := Measure(ConfigCheck(s, e).state, e);
      AtStage(VoltageBlock(s, e).trace, VoltReportStage) == AtStage(Report(measure.state, e).trace, VoltReportStage)
  {
    var check := ConfigCheck(s, e);
    var measure := Measure(check.state, e);
    var report := Report(measure.state, e);
    AtStageAppend(check.trace, measure.trace, VoltReportStage);
    AtStageAppend(check.trace + measure.trace, report.trace, VoltReportStage);
    CheckAtOtherStage(s, e, VoltReportStage);
    MeasureAtOtherStage(check.state, e, VoltReportStage);
  }

  /** The actions of the voltage block at stages 7 to 9 are those of the
      measurement. */
  lemma VoltageAtMeasureStage(s: State, e: Env, k: nat)
    requires s.flags.voltTimeout && 7 <= k < 10
    ensures AtStage(VoltageBlock(s, e).trace, k) == AtStage(Measure(ConfigCheck(s, e).state, e).trace, k)
  {
    var check := ConfigCheck(s, e);
    var measure := Measure(check.state, e);
    var report := Report(measure.state, e);
    AtStageAppend(check.trace, measure.trace, k);
    AtStageAppend(check.trace + measure.trace, report.trace, k);
    CheckAtOtherStage(s, e, k);
    ReportAtOtherStage(measure.state, e, k);
  }

  /** The measurement starts a conversion (stage 7), reads the cells
      (stage 8) and checks for an open wire (stage 9), once each. */
  lemma MeasureAtStage(s: State, e: Env, k: nat)
    ensures AtStage(Measure(s, e).trace, k) ==
      if k == MeasureStartStage then [StartVoltageMeasure]
      else if k == CellReadStage then [ReadCellVoltages]
      else if k == OpenWireStage then [VerifyOpenWire]
      else []
  {
    AtStageAppend([StartVoltageMeasure], [ReadCellVoltages, VerifyOpenWire], k);
    AtStageAppend([ReadCellVoltages], [VerifyOpenWire], k);
    AtStageSingle(StartVoltageMeasure, k);
    AtStageSingle(ReadCellVoltages, k);
    AtStageSingle(VerifyOpenWire, k);
  }

  /** A pending firmware-revision request is answered exactly once, with the
      module's ID; without one nothing is sent. */
  lemma StepFirmwareReport(p: Platform, s: State, e: Env)
    requires ValidState(p, s) && EnvFits(p, e)
    ensures AtStage(StepSpec(p, s, e).trace, FirmwareStage) ==
      if s.flags.firmwareRequest then [SendFirmwareRevision(s.slaveId)] else []
  {
    StepAtFirmwareStage(p, s, e);
    AtStageSingle(SendFirmwareRevision(s.slaveId), FirmwareStage);
  }

  /** Every iteration leaves the firmware request served. */
  lemma StepFirmwareFlag(p: Platform, s: State, e: Env)
    requires ValidState(p, s) && EnvFits(p, e)
    ensures !StepSpec(p, s, e).state.flags.firmwareRequest
  {
  }

  /** Once both ADC conversions are done, the temperature table is sent
      once; otherwise nothing is sent. */
  lemma StepTemperatureReport(p: Platform, s: State, e: Env)
    requires ValidState(p, s) && EnvFits(p, e)
    ensures var r := StepSpec(p, s, e);
      var ready := s.flags.adc0Done && s.flags.adc1Done;
      AtStage(r.trace, TempReportStage) == (if ready then [SendTemp(r.state.temps, s.slaveId)] else [])
  {
    var fw := FirmwareBlock(s, e);
    var temp := TemperatureBlock(p, fw.state, e);
    StepAtTemperatureStage(p, s, e, TempReportStage);
    if s.flags.adc0Done && s.flags.adc1Done {
      AtStageAppend([PowerDownAdc], [SendTemp(temp.state.temps, s.slaveId)], TempReportStage);
      AtStageSingle(PowerDownAdc, TempReportStage);
      AtStageSingle(SendTemp(temp.state.temps, s.slaveId), TempReportStage);
    }
  }

  /** Once both ADC conversions are done, the table is converted entry by
      entry and both flags are cleared; otherwise the table and the flags
      are left as they were. */
  lemma StepTemperatureTable(p: Platform, s: State, e: Env)
    requires ValidState(p, s) && EnvFits(p, e)
    ensures var r := StepSpec(p, s, e);
      var ready := s.flags.adc0Done && s.flags.adc1Done;
      r.state.flags.adc0Done == (s.flags.adc0Done && !ready) &&
      r.state.flags.adc1Done == (s.flags.adc1Done && !ready) &&
      |r.state.temps| == |s.temps| &&
      forall i :: 0 <= i < |s.temps| ==>
        r.state.temps[i] == if ready then p.convertTemp(s.temps[i]) else s.temps[i]
  {
  }

  /** The ADCs are powered down once if and only if both conversions are
      done. */
  lemma StepAdcPowerDown(p: Platform, s: State, e: Env)
    requires ValidState(p, s) && EnvFits(p, e)
    ensures AtStage(StepSpec(p, s, e).trace, AdcPowerDownStage) ==
      if s.flags.adc0Done && s.flags.adc1Done then [PowerDownAdc] else []
  {
    var fw := FirmwareBlock(s, e);
    var temp := TemperatureBlock(p, fw.state, e);
    StepAtTemperatureStage(p, s, e, AdcPowerDownStage);
    if s.flags.adc0Done && s.flags.adc1Done {
      AtStageAppend([PowerDownAdc], [SendTemp(temp.state.temps, s.slaveId)], AdcPowerDownStage);
      AtStageSingle(PowerDownAdc, AdcPowerDownStage);
      AtStageSingle(SendTemp(temp.state.temps, s.slaveId), AdcPowerDownStage);
    }
  }

  /** The configuration is read back once if and only if the one-second
      timeout is pending. */
  lemma StepConfigRead(p: Platform, s: State, e: Env)
    requires ValidState(p, s) && EnvFits(p, e)
    ensures AtStage(StepSpec(p, s, e).trace, ConfigReadStage) == if s.flags.voltTimeout then [ReadConfig] else []
  {
    var fw := FirmwareBlock(s, e);
    var temp := TemperatureBlock(p, fw.state, e);
    StepAtVoltageStage(p, s, e, ConfigReadStage);
    if s.flags.voltTimeout {
      var write := if ConfigWasReset(e.cfg0) then [WriteConfig(s.ltcConfig, WatchdogRecovery)] else [];
      VoltageAtCheckStage(temp.state, e, ConfigReadStage);
      AtStageAppend([ReadConfig], write, ConfigReadStage);
      AtStageSingle(ReadConfig, ConfigReadStage);
      AtStageSingle(WriteConfig(s.ltcConfig, WatchdogRecovery), ConfigReadStage);
      assert [ReadConfig] + [] == [ReadConfig];
    }
  }

  /** When the one-second timeout finds that the front end lost its
      configuration, the configuration last commanded is written back once;
      in every other case no recovery write happens. */
  lemma StepWatchdogRecovery(p: Platform, s: State, e: Env)
    requires ValidState(p, s) && EnvFits(p, e)
    ensures var r := StepSpec(p, s, e);
      var recover := s.flags.voltTimeout && ConfigWasReset(e.cfg0);
      AtStage(r.trace, RecoveryStage) ==
        (if recover then [WriteConfig(s.ltcConfig, WatchdogRecovery)] else [])
  {
    var fw := FirmwareBlock(s, e);
    var temp := TemperatureBlock(p, fw.state, e);
    StepAtVoltageStage(p, s, e, RecoveryStage);
    if s.flags.voltTimeout {
      VoltageAtCheckStage(temp.state, e, RecoveryStage);
      AtStageAppend([ReadConfig], [WriteConfig(s.ltcConfig, WatchdogRecovery)], RecoveryStage);
      AtStageSingle(ReadConfig, RecoveryStage);
      AtStageSingle(WriteConfig(s.ltcConfig, WatchdogRecovery), RecoveryStage);
      assert [ReadConfig] + [] == [ReadConfig];
    }
  }

  /** The watchdog flag is cleared exactly when the configuration is
      written back, and keeps its value otherwise. */
  lemma StepWatchdogFlag(p: Platform, s: State, e: Env)
    requires ValidState(p, s) && EnvFits(p, e)
    ensures StepSpec(p, s, e).state.flags.spiTimeout ==
      (s.flags.spiTimeout && !(s.flags.voltTimeout && ConfigWasReset(e.cfg0)))
  {
  }

  /** A voltage conversion is started once if and only if the one-second
      timeout is pending. */
  lemma StepMeasureStart(p: Platform, s: State, e: Env)
    requires ValidState(p, s) && EnvFits(p, e)
    ensures AtStage(StepSpec(p, s, e).trace, MeasureStartStage) == if s.flags.voltTimeout then [StartVoltageMeasure] else []
  {
    var fw := FirmwareBlock(s, e);
    var temp := TemperatureBlock(p, fw.state, e);
    StepAtVoltageStage(p, s, e, MeasureStartStage);
    if s.flags.voltTimeout {
      VoltageAtMeasureStage(temp.state, e, MeasureStartStage);
      MeasureAtStage(ConfigCheck(temp.state, e).state, e, MeasureStartStage);
    }
  }

  /** The cell voltages are read once if and only if the one-second timeout
      is pending. */
  lemma StepCellRead(p: Platform, s: State, e: Env)
    requires ValidState(p, s) && EnvFits(p, e)
    ensures AtStage(StepSpec(p, s, e).trace, CellReadStage) == if s.flags.voltTimeout then [ReadCellVoltages] else []
  {
    var fw := FirmwareBlock(s, e);
    var temp := TemperatureBlock(p, fw.state, e);
    StepAtVoltageStage(p, s, e, CellReadStage);
    if s.flags.voltTimeout {
      VoltageAtMeasureStage(temp.state, e, CellReadStage);
      MeasureAtStage(ConfigCheck(temp.state, e).state, e, CellReadStage);
    }
  }

  /** The open-wire check runs once if and only if the one-second timeout is
      pending. */
  lemma StepOpenWireCheck(p: Platform, s: State, e: Env)
    requires ValidState(p, s) && EnvFits(p, e)
    ensures AtStage(StepSpec(p, s, e).trace, OpenWireStage) == if s.flags.voltTimeout then [VerifyOpenWire] else []
  {
    var fw := FirmwareBlock(s, e);
    var temp := TemperatureBlock(p, fw.state, e);
    StepAtVoltageStage(p, s, e, OpenWireStage);
    if s.flags.voltTimeout {
      VoltageAtMeasureStage(temp.state, e, OpenWireStage);
      MeasureAtStage(ConfigCheck(temp.state, e).state, e, OpenWireStage);
    }
  }

  /** On the one-second timeout the voltages just read are sent once unless
      the read failed; without the timeout nothing is sent. */
  lemma StepVoltageReport(p: Platform, s: State, e: Env)
    requires ValidState(p, s) && EnvFits(p, e)
    ensures AtStage(StepSpec(p, s, e).trace, VoltReportStage) ==
      if s.flags.voltTimeout && !e.voltReadError then [SendVoltages(e.readVoltages, s.slaveId)] else []
  {
    var fw := FirmwareBlock(s, e);
    var temp := TemperatureBlock(p, fw.state, e);
    StepAtVoltageStage(p, s, e, VoltReportStage);
    if s.flags.voltTimeout {
      VoltageAtReportStage(temp.state, e);
      AtStageSingle(SendVoltages(e.readVoltages, s.slaveId), VoltReportStage);
    }
  }

  /** On the one-second timeout the table and the open-wire result take the
      values just read, even when the read reported a failure; the timeout
      is always rearmed. */
  lemma StepVoltageTable(p: Platform, s: State, e: Env)
    requires ValidState(p, s) && EnvFits(p, e)
    ensures var r := StepSpec(p, s, e);
      r.state.voltages == (if s.flags.voltTimeout then e.readVoltages else s.voltages) &&
      r.state.openWireCell == (if s.flags.voltTimeout then e.openWireCell else s.openWireCell) &&
      !r.state.flags.voltTimeout
  {
  }

  /** A pending change of the balancing vector is pushed to the front end
      exactly once, as the configuration rebuilt from the vector; without
      one nothing is written. */
  lemma StepConfigPush(p: Platform, s: State, e: Env)
    requires ValidState(p, s) && EnvFits(p, e)
    ensures AtStage(StepSpec(p, s, e).trace, ConfigPushStage) ==
      if s.flags.equiStatusChange
      then [WriteConfig(p.makeConfigRegister(s.ltcConfig, s.balanceVector), BalanceUpdate)]
      else []
  {
    StepAtPushStage(p, s, e);
    AtStageSingle(WriteConfig(p.makeConfigRegister(s.ltcConfig, s.balanceVector), BalanceUpdate), ConfigPushStage);
  }

  /** The configuration remembered for watchdog recovery is the one last
      pushed. */
  lemma StepConfigRegister(p: Platform, s: State, e: Env)
    requires ValidState(p, s) && EnvFits(p, e)
    ensures StepSpec(p, s, e).state.ltcConfig ==
      if s.flags.equiStatusChange then p.makeConfigRegister(s.ltcConfig, s.balanceVector) else s.ltcConfig
  {
  }

  /** The balancing law runs on the freshest voltages: while balancing, the
      vector becomes Balance of the table as it stands after this
      iteration's measurement, a new push is requested exactly when a bit
      was cleared (a request still pending was served earlier in the same
      iteration), and balancing ends when the vector reaches zero. While not
      balancing nothing moves. */
  lemma StepBalancing(p: Platform, s: State, e: Env)
    requires ValidState(p, s) && EnvFits(p, e)
    ensures var r := StepSpec(p, s, e);
      var volts := if s.flags.voltTimeout then e.readVoltages else s.voltages;
      var limit := Limit(s.balThres, p.balDeltaVolt);
      var active := s.flags.balancingActive;
      r.state.balanceVector == (if active then Balance(s.balanceVector, volts, limit) else s.balanceVector) &&
      r.state.flags.equiStatusChange == (active && ClearsSome(s.balanceVector, volts, limit)) &&
      r.state.flags.balancingActive == (active && r.state.balanceVector != 0)
  {
  }

  /** Completion is reported once, with the threshold and the module's ID,
      in the iteration in which balancing ends, and never otherwise. */
  lemma StepCompletionReport(p: Platform, s: State, e: Env)
    requires ValidState(p, s) && EnvFits(p, e)
    ensures var r := StepSpec(p, s, e);
      AtStage(r.trace, CompletionStage) ==
        if s.flags.balancingActive && !r.state.flags.balancingActive
        then [SendEquiStatus(0, s.balThres, s.slaveId)]
        else []
  {
    StepAtBalancingStage(p, s, e);
    AtStageSingle(SendEquiStatus(0, s.balThres, s.slaveId), CompletionStage);
  }

  /** A vector changed by one iteration is pushed to the front end by the
      next, whatever interrupts arrive in between. */
  lemma PushFollowsClear(p: Platform, s: State, e: Env, raised: Raised, e': Env)
    requires ValidState(p, s) && EnvFits(p, e) && RaisedFits(p, raised) && EnvFits(p, e')
    requires StepSpec(p, s, e).state.balanceVector != s.balanceVector
    ensures var s1 := StepSpec(p, s, e).state;
      AtStage(StepSpec(p, Raise(s1, raised), e').trace, ConfigPushStage) ==
        [WriteConfig(p.makeConfigRegister(s1.ltcConfig, s1.balanceVector), BalanceUpdate)]
  {
    var volts := if s.flags.voltTimeout then e.readVoltages else s.voltages;
    var limit := Limit(s.balThres, p.balDeltaVolt);
    var s1 := StepSpec(p, s, e).state;
    StepBalancing(p, s, e);
    BalanceChanges(s.balanceVector, volts, limit);
    StepConfigPush(p, Raise(s1, raised), e');
  }

  /** A temperature report that follows an ADC interrupt carries the
      conversion of the samples that interrupt stored, converted exactly
      once, and powers the ADCs down before it. */
  lemma TickTemperatureReport(p: Platform, s: State, raised: Raised, e: Env)
    requires ValidState(p, s) && RaisedFits(p, raised) && EnvFits(p, e)
    requires raised.adc0Done || raised.adc1Done
    requires (s.flags.adc0Done || raised.adc0Done) && (s.flags.adc1Done || raised.adc1Done)
    ensures var t := StepSpec(p, Raise(s, raised), e).trace;
      AtStage(t, TempReportStage) == [SendTemp(ConvertAll(p, raised.samples), s.slaveId)] &&
      AtStage(t, AdcPowerDownStage) == [PowerDownAdc]
  {
    var s0 := Raise(s, raised);
    StepTemperatureReport(p, s0, e);
    StepTemperatureTable(p, s0, e);
    StepAdcPowerDown(p, s0, e);
    assert StepSpec(p, s0, e).state.temps == ConvertAll(p, raised.samples);
  }

  /** An iteration never changes CFG0 of the commanded configuration when
      the configuration builder leaves it alone: a balance push rebuilds
      only the discharge bits, and a recovery write re-sends what was
      commanded. */
  lemma StepKeepsCfg0(p: Platform, s: State, e: Env)
    requires ValidState(p, s) && EnvFits(p, e) && KeepsCfg0(p)
    ensures StepSpec(p, s, e).state.ltcConfig[0] == s.ltcConfig[0]
  {
    StepConfigRegister(p, s, e);
  }

  /** Over any run CFG0 of the commanded configuration keeps its value. */
  lemma {:induction false} RunKeepsCfg0(p: Platform, s: State, ticks: seq<Tick>)
    requires ValidState(p, s) && TicksFit(p, ticks) && KeepsCfg0(p)
    ensures Run(p, s, ticks).state.ltcConfig[0] == s.ltcConfig[0]
    decreases |ticks|
  {
    if ticks != [] {
      var s0 := Raise(s, ticks[0].raised);
      StepKeepsCfg0(p, s0, ticks[0].env);
      RunKeepsCfg0(p, StepSpec(p, s0, ticks[0].env).state, ticks[1..]);
    }
  }

  /** Over any run after start-up, the configuration the firmware commands
      keeps bit 0 of CFG0 set, so a CFG0 read back with that bit cleared
      always means the front end was reset, never that it was told so. */
  lemma RunConfigNeverLooksReset(p: Platform, portE: U8, initTxError: bool, firmwareTxError: bool,
                                 ticks: seq<Tick>)
    requires TicksFit(p, ticks) && KeepsCfg0(p)
    ensures var s := StartupSpec(InitialState(p), portE, initTxError, firmwareTxError).state;
      !ConfigWasReset(Run(p, s, ticks).state.ltcConfig[0])
  {
    var s := StartupSpec(InitialState(p), portE, initTxError, firmwareTxError).state;
    RunKeepsCfg0(p, s, ticks);
    ResetDetectable();
  }

  /** Over any run, the vector only loses bits: a cell that stopped
      discharging does not start again. */
  lemma {:induction false} RunNeverSetsBits(p: Platform, s: State, ticks: seq<Tick>, i: nat)
    requires ValidState(p, s) && TicksFit(p, ticks)
    requires HasBit(Run(p, s, ticks).state.balanceVector, i)
    ensures HasBit(s.balanceVector, i)
    decreases |ticks|
  {
    if ticks != [] {
      var s0 := Raise(s, ticks[0].raised);
      var first := StepSpec(p, s0, ticks[0].env);
      RunNeverSetsBits(p, first.state, ticks[1..], i);
      var volts := if s0.flags.voltTimeout then ticks[0].env.readVoltages else s0.voltages;
      StepBalancing(p, s0, ticks[0].env);
      BalanceNeverSets(s0.balanceVector, volts, Limit(s0.balThres, p.balDeltaVolt));
    }
  }

  /** Balancing completion is reported at most once over any run, and never
      when the run starts outside balancing mode; once balancing ended it
      stays ended. */
  lemma {:induction false} RunCompletionAtMostOnce(p: Platform, s: State, ticks: seq<Tick>)
    requires ValidState(p, s) && TicksFit(p, ticks)
    ensures |AtStage(Run(p, s, ticks).trace, CompletionStage)| <= if s.flags.balancingActive then 1 else 0
    ensures Run(p, s, ticks).state.flags.balancingActive ==> s.flags.balancingActive
    decreases |ticks|
  {
    if ticks != [] {
      var s0 := Raise(s, ticks[0].raised);
      var first := StepSpec(p, s0, ticks[0].env);
      var rest := Run(p, first.state, ticks[1..]);
      RunCompletionAtMostOnce(p, first.state, ticks[1..]);
      StepCompletionReport(p, s0, ticks[0].env);
      AtStageAppend(first.trace, rest.trace, CompletionStage);
    }
  }

  /** The slave ID is the low nibble of port E: bit i of the ID is bit i of
      the port for i < 4, and 0 above. */
  lemma SlaveIdBits(portE: U8, i: nat)
    ensures HasBit(SlaveIdOf(portE), i) == (i < 4 && HasBit(portE, i))
  {
    Pow2Facts();
    LowBits(portE, 4, i);
  }

  /** Start-up announces the module, then its firmware revision, then
      programs the front end; it keeps the low nibble of port E as the ID,
      flags every ID outside 1..10 without stopping, and keeps the result of
      the second send. */
  lemma StartupAnnounces(s: State, portE: U8, initTxError: bool, firmwareTxError: bool)
    ensures var r := StartupSpec(s, portE, initTxError, firmwareTxError);
      var id := SlaveIdOf(portE);
      r.trace == [SendInitStatus(id), SendFirmwareRevision(id), WriteConfig(s.ltcConfig, AtStartup)] &&
      Ordered(r.trace) &&
      r.state.slaveId == id && id < 16 &&
      r.state.flags.badSlaveId == (s.flags.badSlaveId || !(1 <= id <= 10)) &&
      r.state.flags.canTxError == firmwareTxError
  {
  }

  /** The watchdog test tells the power-up configuration from the one the
      front end falls back to after a reset; `RunConfigNeverLooksReset`
      carries this to every configuration commanded later. */
  lemma ResetDetectable()
    ensures !ConfigWasReset(DefaultConfig[0])
    ensures ConfigWasReset(PowerOnCfg0)
  {
  }
}
