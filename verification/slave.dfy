/** The slave module as the firmware runs it: globals updated in place by
    `main`, its start-up sequence and the body of its `while(1)` loop. Every
    method is proved to do what the matching function of ControlLoop says. */
module Slave {
  import opened Balancing
  import opened ControlLoop

  class SlaveModule {
    /** NB_CELL, BAL_DELTA_VOLT and the driver functions, fixed by the build. */
    const platform: Platform

    /** `gFlags` */
    var flags: Flags
    /** `gSlaveID` */
    var slaveId: U8
    /** `gVoltages`, in millivolts */
    const gVoltages: array<U16>
    /** `gTemp`, raw samples until converted, then tenths of a degree */
    const gTemp: array<I16>
    /** `gBalThres` */
    var balThres: U16
    /** `gBalanceVector` */
    var balanceVector: U16
    /** `ltcConfig`, the configuration last commanded to the front end */
    var ltcConfig: ConfigReg
    /** The locals `txError` and `openWireCell` of `main`. */
    var txError: bool
    var openWireCell: U8

    /** One table entry per cell. */
    ghost predicate Shaped()
      reads this
    {
      ValidPlatform(platform) && gVoltages.Length == platform.nbCell && gTemp.Length == platform.nbCell
    }

    /** Between two iterations the read error of the last one is forgotten. */
    ghost predicate Valid()
      reads this
    {
      Shaped() && !txError
    }

    /** The globals as a value. */
    ghost function Snapshot(): State
      reads this, gVoltages, gTemp
    {
      State(flags, slaveId, gVoltages[..], gTemp[..], balThres, balanceVector, ltcConfig, txError, openWireCell)
    }

    /** The globals as the C runtime leaves them before `main`: zeroed, with
        the default configuration in `ltcConfig`. */
    constructor (platform: Platform)
      requires ValidPlatform(platform)
      ensures Valid() && fresh(gVoltages) && fresh(gTemp)
      ensures this.platform == platform
      ensures Snapshot() == InitialState(platform)
    {
      this.platform := platform;
      flags := NoFlags;
      slaveId := 0;
      gVoltages := new U16[platform.nbCell](_ => 0);
      gTemp := new I16[platform.nbCell](_ => 0);
      balThres := 0;
      balanceVector := 0;
      ltcConfig := DefaultConfig;
      txError := false;
      openWireCell := 0;
    }

    /** `main` up to its loop, given port E and the results of the two CAN
        sends. */
    method Startup(portE: U8, initTxError: bool, firmwareTxError: bool) returns (trace: seq<Action>)
      requires Valid()
      modifies this
      ensures Valid()
      ensures Snapshot() == StartupSpec(old(Snapshot()), portE, initTxError, firmwareTxError).state
      ensures trace == StartupSpec(old(Snapshot()), portE, initTxError, firmwareTxError).trace
    {
      var id := portE % 16;
      var bad := flags.badSlaveId;
      if id == 0 || id > 10 {
        bad := true;
      }
      trace := [SendInitStatus(id)];
      var canTxError := initTxError;
      trace := trace + [SendFirmwareRevision(id)];
      canTxError := firmwareTxError;
      trace := trace + [WriteConfig(ltcConfig, AtStartup)];
      slaveId, flags := id, flags.(badSlaveId := bad, canTxError := canTxError);
      assert Snapshot() == old(Snapshot()).(slaveId := slaveId, flags := flags);
    }

    /** One iteration of `while(1)`, given the peripherals' answers. */
    method Step(e: Env) returns (trace: seq<Action>)
      requires Valid() && EnvFits(platform, e)
      modifies this, gVoltages, gTemp
      ensures Valid()
      ensures Snapshot() == StepSpec(platform, old(Snapshot()), e).state
      ensures trace == StepSpec(platform, old(Snapshot()), e).trace
    {
      var firmware := HandleFirmwareRequest(e);
      var temperatures := HandleTemperatures(e);
      var voltages := HandleVoltageTimeout(e);
      var push := PushBalanceConfig();
      var balancing := RunBalancing(e);
      trace := firmware + temperatures + voltages + push + balancing + [WaitForInterrupt];
    }

    method HandleFirmwareRequest(e: Env) returns (trace: seq<Action>)
      requires Valid()
      modifies this
      ensures Valid()
      ensures Snapshot() == FirmwareBlock(old(Snapshot()), e).state
      ensures trace == FirmwareBlock(old(Snapshot()), e).trace
    {
      trace := [];
      if flags.firmwareRequest {
        trace := [SendFirmwareRevision(slaveId)];
        flags := flags.(canTxError := e.firmwareTxError, firmwareRequest := false);
      }
      assert Snapshot() == old(Snapshot()).(flags := flags);
    }

    method HandleTemperatures(e: Env) returns (trace: seq<Action>)
      requires Valid()
      modifies this, gTemp
      ensures Valid()
      ensures Snapshot() == TemperatureBlock(platform, old(Snapshot()), e).state
      ensures trace == TemperatureBlock(platform, old(Snapshot()), e).trace
    {
      trace := [];
      if flags.adc0Done && flags.adc1Done {
        trace := [PowerDownAdc];
        for i := 0 to gTemp.Length
          modifies gTemp
          invariant forall k :: 0 <= k < i ==> gTemp[k] == platform.convertTemp(old(gTemp[k]))
          invariant forall k :: i <= k < gTemp.Length ==> gTemp[k] == old(gTemp[k])
        {
          gTemp[i] := platform.convertTemp(gTemp[i]);
        }
        trace := trace + [SendTemp(gTemp[..], slaveId)];
        flags := flags.(canTxError := e.tempTxError);
        flags := flags.(adc0Done := false, adc1Done := false);
      }
      assert Snapshot() == old(Snapshot()).(flags := flags, temps := gTemp[..]);
    }

    method HandleVoltageTimeout(e: Env) returns (trace: seq<Action>)
      requires Valid() && EnvFits(platform, e)
      modifies this, gVoltages
      ensures Valid()
      ensures Snapshot() == VoltageBlock(old(Snapshot()), e).state
      ensures trace == VoltageBlock(old(Snapshot()), e).trace
    {
      trace := [];
      if flags.voltTimeout {
        var check := CheckConfig(e);
        var measure := MeasureVoltages(e);
        var report := ReportVoltages(e);
        trace := check + measure + report;
      }
    }

    method CheckConfig(e: Env) returns (trace: seq<Action>)
      requires Valid()
      modifies this
      ensures Valid()
      ensures Snapshot() == ConfigCheck(old(Snapshot()), e).state
      ensures trace == ConfigCheck(old(Snapshot()), e).trace
    {
      // The read is retried until it succeeds; e.cfg0 is CFG0 as read then.
      trace := [ReadConfig];
      if e.cfg0 % 2 == 0 {
        flags := flags.(spiTimeout := false);
        trace := trace + [WriteConfig(ltcConfig, WatchdogRecovery)];
      }
      assert Snapshot() == old(Snapshot()).(flags := flags);
    }

    method MeasureVoltages(e: Env) returns (trace: seq<Action>)
      requires Shaped() && EnvFits(platform, e)
      modifies this, gVoltages
      ensures Shaped()
      ensures Snapshot() == Measure(old(Snapshot()), e).state
      ensures trace == Measure(old(Snapshot()), e).trace
    {
      trace := [StartVoltageMeasure, ReadCellVoltages];
      forall k | 0 <= k < gVoltages.Length {
        gVoltages[k] := e.readVoltages[k];
      }
      txError := e.voltReadError;
      trace := trace + [VerifyOpenWire];
      openWireCell := e.openWireCell;
      assert gVoltages[..] == e.readVoltages;
    }

    method ReportVoltages(e: Env) returns (trace: seq<Action>)
      requires Shaped()
      modifies this
      ensures Valid()
      ensures Snapshot() == Report(old(Snapshot()), e).state
      ensures trace == Report(old(Snapshot()), e).trace
    {
      trace := [];
      if !txError {
        trace := [SendVoltages(gVoltages[..], slaveId)];
        flags := flags.(canTxError := e.voltTxError);
      }
      flags := flags.(voltTimeout := false);
      txError := false;
      assert Snapshot() == old(Snapshot()).(flags := flags, txError := false);
    }

    method PushBalanceConfig() returns (trace: seq<Action>)
      requires Valid()
      modifies this
      ensures Valid()
      ensures Snapshot() == ConfigPushBlock(platform, old(Snapshot())).state
      ensures trace == ConfigPushBlock(platform, old(Snapshot())).trace
    {
      trace := [];
      if flags.equiStatusChange {
        ltcConfig := platform.makeConfigRegister(ltcConfig, balanceVector);
        trace := [WriteConfig(ltcConfig, BalanceUpdate)];
        flags := flags.(equiStatusChange := false);
      }
      assert Snapshot() == old(Snapshot()).(flags := flags, ltcConfig := ltcConfig);
    }

    method RunBalancing(e: Env) returns (trace: seq<Action>)
      requires Valid()
      modifies this
      ensures Valid()
      ensures Snapshot() == BalancingBlock(platform, old(Snapshot()), e).state
      ensures trace == BalancingBlock(platform, old(Snapshot()), e).trace
    {
      trace := [];
      var voltages := gVoltages[..];
      if flags.balancingActive {
        var equiStatusChange;
        balanceVector, equiStatusChange :=
          CheckForBalancedCells(balanceVector, voltages, balThres, platform.balDeltaVolt,
                                flags.equiStatusChange);
        flags := flags.(equiStatusChange := equiStatusChange);
        if balanceVector == 0 {
          trace := [SendEquiStatus(balanceVector, balThres, slaveId)];
          flags := flags.(canTxError := e.equiTxError);
          flags := flags.(balancingActive := false);
        }
      }
      assert Snapshot() == old(Snapshot()).(flags := flags, balanceVector := balanceVector);
    }
  }
}
