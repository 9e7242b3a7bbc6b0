/** The slave module's event-driven control loop, as values: the state the
    loop body reads and writes, the answers of the peripherals it calls, the
    outward actions it performs, and one iteration of `while(1)` as a
    function from the state before to the state after and the actions in
    between. The class in module Slave runs the same iteration in place and
    is proved to agree with these functions. */
module ControlLoop {
  import opened Balancing

  /** An unsigned byte. */
  type U8 = x: int | 0 <= x < 0x100

  /** The target's 16-bit signed int, the type of the temperature table. */
  type I16 = x: int | -0x8000 <= x < 0x8000

  /** The six configuration bytes CFG0..CFG5 of the LTC6802 front end. */
  type ConfigReg = s: seq<U8> | |s| == 6 witness [0, 0, 0, 0, 0, 0]

  /** The configuration commanded at power-up: GPIO pull-downs off, level
      polling, cells 11 and 12 ignored, comparator duty cycle 1, discharge
      off, no cell interrupts, undervoltage 2.688 V, overvoltage 4.2 V. Its
      comparator-duty-cycle field makes bit 0 of CFG0 equal to 1. */
  const DefaultConfig: ConfigReg := [0xF9, 0, 0, 0, 112, 175]

  /** CFG0 as the front end reads it back after its own watchdog reset it. */
  const PowerOnCfg0: U8 := 0x40

  /** Does a CFG0 byte read back from the front end show that its
      configuration was reset (bit 0 of the comparator duty cycle is 0)? */
  predicate ConfigWasReset(cfg0: U8)
  {
    cfg0 % 2 == 0
  }

  /** The global event flags `gFlags`. */
  datatype Flags = Flags(
    firmwareRequest: bool,
    adc0Done: bool,
    adc1Done: bool,
    voltTimeout: bool,
    equiStatusChange: bool,
    balancingActive: bool,
    spiTimeout: bool,
    badSlaveId: bool,
    canTxError: bool)

  const NoFlags: Flags := Flags(false, false, false, false, false, false, false, false, false)

  /** What the build and the drivers fix: the cell count NB_CELL, the
      hysteresis margin BAL_DELTA_VOLT, the temperature conversion
      `convertTemp` and the configuration builder `ltcMakeConfigRegister`. */
  datatype Platform = Platform(
    nbCell: nat,
    balDeltaVolt: U16,
    convertTemp: I16 -> I16,
    makeConfigRegister: (ConfigReg, U16) -> ConfigReg)

  /** What the model assumes of `ltcMakeConfigRegister`: it rebuilds the
      discharge bits from the vector and leaves CFG0, which holds the
      comparator duty cycle, as it was. */
  ghost predicate KeepsCfg0(p: Platform)
  {
    forall c: ConfigReg, v: U16 :: p.makeConfigRegister(c, v)[0] == c[0]
  }

  /** The balancing vector is a uint16, so there are at most 16 cells. */
  predicate ValidPlatform(p: Platform)
  {
    p.nbCell <= MaxCells
  }

  /** The firmware's globals and the locals of `main` that outlive an
      iteration. */
  datatype State = State(
    flags: Flags,
    slaveId: U8,
    voltages: seq<U16>,
    temps: seq<I16>,
    balThres: U16,
    balanceVector: U16,
    ltcConfig: ConfigReg,
    txError: bool,
    openWireCell: U8)

  /** The tables have one entry per cell, and the local `txError` is 0
      between iterations. */
  predicate ValidState(p: Platform, s: State)
  {
    |s.voltages| == p.nbCell && |s.temps| == p.nbCell && !s.txError
  }

  /** The state before `main` runs: zeroed globals and the default
      configuration. */
  function InitialState(p: Platform): (s: State)
    ensures ValidState(p, s) && s.flags == NoFlags
  {
    State(NoFlags, 0, seq(p.nbCell, _ => 0), seq(p.nbCell, _ => 0), 0, 0, DefaultConfig, false, 0)
  }

  /** The answers of the peripherals during one iteration. A CAN send
      answers true when it failed. */
  datatype Env = Env(
    firmwareTxError: bool,
    tempTxError: bool,
    cfg0: U8,
    readVoltages: seq<U16>,
    voltReadError: bool,
    openWireCell: U8,
    voltTxError: bool,
    equiTxError: bool)

  /** The voltage read fills exactly one entry per cell. */
  predicate EnvFits(p: Platform, e: Env)
  {
    |e.readVoltages| == p.nbCell
  }

  /** Why the configuration is written to the front end. */
  datatype WriteCause = AtStartup | WatchdogRecovery | BalanceUpdate

  /** The outward actions of the module: CAN messages, SPI transactions
      with the front end, ADC power control and the low-power wait. */
  datatype Action =
    | SendInitStatus(id: U8)
    | SendFirmwareRevision(id: U8)
    | PowerDownAdc
    | SendTemp(temps: seq<I16>, id: U8)
    | ReadConfig
    | WriteConfig(config: ConfigReg, cause: WriteCause)
    | StartVoltageMeasure
    | ReadCellVoltages
    | VerifyOpenWire
    | SendVoltages(voltages: seq<U16>, id: U8)
    | SendEquiStatus(vector: U16, threshold: U16, id: U8)
    | WaitForInterrupt

  /** The position of an action in the fixed order of an iteration. */
  function Stage(a: Action): (r: nat)
  {
    match a
    case SendInitStatus(_) => 0
    case SendFirmwareRevision(_) => 1
    case PowerDownAdc => 2
    case SendTemp(_, _) => 3
    case ReadConfig => 4
    case WriteConfig(_, cause) =>
      (match cause case AtStartup => 5 case WatchdogRecovery => 6 case BalanceUpdate => 11)
    case StartVoltageMeasure => 7
    case ReadCellVoltages => 8
    case VerifyOpenWire => 9
    case SendVoltages(_, _) => 10
    case SendEquiStatus(_, _, _) => 12
    case WaitForInterrupt => 13
  }

  const FirmwareStage: nat := 1
  const AdcPowerDownStage: nat := 2
  const TempReportStage: nat := 3
  const ConfigReadStage: nat := 4
  const RecoveryStage: nat := 6
  const MeasureStartStage: nat := 7
  const CellReadStage: nat := 8
  const OpenWireStage: nat := 9
  const VoltReportStage: nat := 10
  const ConfigPushStage: nat := 11
  const CompletionStage: nat := 12

  /** A state and the actions that led to it. */
  datatype Outcome = Outcome(state: State, trace: seq<Action>)

  /** The slave ID is the low four bits of port E. */
  function SlaveIdOf(portE: U8): (r: U8)
  {
    portE % 16
  }

  /** IDs 1 to 10 are valid. */
  predicate BadSlaveId(id: U8)
  {
    id == 0 || id > 10
  }

  /** `main` before its loop, after the peripherals are set up: read the
      slave ID and flag a bad one (without stopping), announce the module and
      its firmware revision on CAN, and program the front end. */
  function StartupSpec(s: State, portE: U8, initTxError: bool, firmwareTxError: bool): (r: Outcome)
  {
    var id := SlaveIdOf(portE);
    var flags := s.flags.(badSlaveId := s.flags.badSlaveId || BadSlaveId(id));
    Outcome(
      s.(slaveId := id, flags := flags.(canTxError := firmwareTxError)),
      [SendInitStatus(id), SendFirmwareRevision(id), WriteConfig(s.ltcConfig, AtStartup)])
  }

  /** A pending firmware-revision request is answered on CAN. Each CAN send
      stores its own failure in `canTxError`. */
  function FirmwareBlock(s: State, e: Env): (r: Outcome)
  {
    var due := s.flags.firmwareRequest;
    Outcome(
      s.(flags := s.flags.(
        canTxError := if due then e.firmwareTxError else s.flags.canTxError,
        firmwareRequest := false)),
      if due then [SendFirmwareRevision(s.slaveId)] else [])
  }

  /** Every raw sample of the table converted, in place. */
  function ConvertAll(p: Platform, raw: seq<I16>): (r: seq<I16>)
    ensures |r| == |raw|
    ensures forall i :: 0 <= i < |raw| ==> r[i] == p.convertTemp(raw[i])
  {
    seq(|raw|, i requires 0 <= i < |raw| => p.convertTemp(raw[i]))
  }

  /** Once both ADCs are done: power them down, convert every raw sample in
      place and send the table. */
  function TemperatureBlock(p: Platform, s: State, e: Env): (r: Outcome)
  {
    var due := s.flags.adc0Done && s.flags.adc1Done;
    var temps := if due then ConvertAll(p, s.temps) else s.temps;
    Outcome(
      s.(temps := temps,
         flags := s.flags.(
           canTxError := if due then e.tempTxError else s.flags.canTxError,
           adc0Done := s.flags.adc0Done && !due,
           adc1Done := s.flags.adc1Done && !due)),
      if due then [PowerDownAdc, SendTemp(temps, s.slaveId)] else [])
  }

  /** Read the configuration back; CFG0 bit 0 cleared means the front end
      was reset by its watchdog, so the whole configuration is written
      again. */
  function ConfigCheck(s: State, e: Env): (r: Outcome)
  {
    var reset := ConfigWasReset(e.cfg0);
    Outcome(
      s.(flags := s.flags.(spiTimeout := s.flags.spiTimeout && !reset)),
      [ReadConfig] + if reset then [WriteConfig(s.ltcConfig, WatchdogRecovery)] else [])
  }

  /** Start a conversion, read the cell voltages into the table (the read
      reports whether it failed) and look for an open wire. */
  function Measure(s: State, e: Env): (r: Outcome)
  {
    Outcome(
      s.(voltages := e.readVoltages, txError := e.voltReadError, openWireCell := e.openWireCell),
      [StartVoltageMeasure, ReadCellVoltages, VerifyOpenWire])
  }

  /** Send the voltages unless the read failed, then rearm the timeout and
      forget the read error. */
  function Report(s: State, e: Env): (r: Outcome)
  {
    var send := !s.txError;
    Outcome(
      s.(txError := false,
         flags := s.flags.(
           canTxError := if send then e.voltTxError else s.flags.canTxError,
           voltTimeout := false)),
      if send then [SendVoltages(s.voltages, s.slaveId)] else [])
  }

  /** Once a second: check the configuration, measure, report. */
  function VoltageBlock(s: State, e: Env): (r: Outcome)
  {
    if s.flags.voltTimeout then
      var check := ConfigCheck(s, e);
      var measure := Measure(check.state, e);
      var report := Report(measure.state, e);
      Outcome(report.state, check.trace + measure.trace + report.trace)
    else Outcome(s, [])
  }

  /** After the balancing vector changed: rebuild the configuration from it
      and write it to the front end. */
  function ConfigPushBlock(p: Platform, s: State): (r: Outcome)
  {
    var due := s.flags.equiStatusChange;
    var config := p.makeConfigRegister(s.ltcConfig, s.balanceVector);
    Outcome(
      s.(ltcConfig := if due then config else s.ltcConfig,
         flags := s.flags.(equiStatusChange := false)),
      if due then [WriteConfig(config, BalanceUpdate)] else [])
  }

  /** While balancing: run the control law, and once every cell is balanced
      report completion and leave balancing mode. */
  function BalancingBlock(p: Platform, s: State, e: Env): (r: Outcome)
  {
    var active := s.flags.balancingActive;
    var limit := Limit(s.balThres, p.balDeltaVolt);
    var vector := if active then Balance(s.balanceVector, s.voltages, limit) else s.balanceVector;
    var done := active && vector == 0;
    Outcome(
      s.(balanceVector := vector,
         flags := s.flags.(
           equiStatusChange := s.flags.equiStatusChange || (active && ClearsSome(s.balanceVector, s.voltages, limit)),
           canTxError := if done then e.equiTxError else s.flags.canTxError,
           balancingActive := active && !done)),
      if done then [SendEquiStatus(vector, s.balThres, s.slaveId)] else [])
  }

  /** One iteration of the control loop: the five blocks in their fixed
      order, then the wait for the next interrupt. It keeps the tables one
      entry per cell. */
  function StepSpec(p: Platform, s: State, e: Env): (r: Outcome)
    requires ValidState(p, s) && EnvFits(p, e)
    ensures ValidState(p, r.state)
  {
    var fw := FirmwareBlock(s, e);
    var temp := TemperatureBlock(p, fw.state, e);
    var volt := VoltageBlock(temp.state, e);
    var push := ConfigPushBlock(p, volt.state);
    var bal := BalancingBlock(p, push.state, e);
    Outcome(bal.state, fw.trace + temp.trace + volt.trace + push.trace + bal.trace + [WaitForInterrupt])
  }

  /** What the interrupt routines do between two iterations: the CAN
      receive routine raises the firmware request, the two ADC routines
      store fresh raw samples in the temperature table and raise their done
      flags, and the one-second timer raises the timeout. `samples` is the
      table as the ADC routines leave it; it is stored only when one of them
      ran. */
  datatype Raised = Raised(firmwareRequest: bool, adc0Done: bool, adc1Done: bool, voltTimeout: bool,
                           samples: seq<I16>)

  /** The ADC routines fill one entry per cell. */
  predicate RaisedFits(p: Platform, raised: Raised)
  {
    |raised.samples| == p.nbCell
  }

  function Raise(s: State, raised: Raised): (r: State)
  {
    s.(temps := if raised.adc0Done || raised.adc1Done then raised.samples else s.temps,
       flags := s.flags.(
         firmwareRequest := s.flags.firmwareRequest || raised.firmwareRequest,
         adc0Done := s.flags.adc0Done || raised.adc0Done,
         adc1Done := s.flags.adc1Done || raised.adc1Done,
         voltTimeout := s.flags.voltTimeout || raised.voltTimeout))
  }

  /** What happens between two wake-ups: some flags are raised, then one
      iteration runs against the peripherals' answers. */
  datatype Tick = Tick(raised: Raised, env: Env)

  predicate TicksFit(p: Platform, ticks: seq<Tick>)
  {
    forall k :: 0 <= k < |ticks| ==> RaisedFits(p, ticks[k].raised) && EnvFits(p, ticks[k].env)
  }

  /** The loop run over a sequence of wake-ups in which nothing re-arms
      balancing. */
  function Run(p: Platform, s: State, ticks: seq<Tick>): (r: Outcome)
    requires ValidState(p, s) && TicksFit(p, ticks)
    ensures ValidState(p, r.state)
    decreases |ticks|
  {
    if ticks == [] then Outcome(s, [])
    else
      var first := StepSpec(p, Raise(s, ticks[0].raised), ticks[0].env);
      var rest := Run(p, first.state, ticks[1..]);
      Outcome(rest.state, first.trace + rest.trace)
  }
}
