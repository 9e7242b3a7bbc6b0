# Slave battery-module firmware: balancing law and control loop

This project models the main program of a slave module in a battery
management system. A slave watches a group of series cells through an
LTC6802 front end, which measures at most 12 cells; the configuration this
program commands ignores cells 11 and 12. It reports cell voltages and
temperatures to a master over CAN. It balances the pack by discharging the
cells set in the balancing vector (which code outside `main.c` sets,
presumably the CAN receive routine) until each one is below the balancing threshold
plus the margin `BAL_DELTA_VOLT`. The model accepts any cell count up to
16, the width of the `uint16` balancing vector.

The model has four modules:

- `Balancing` (`balancing.dfy`) is the balancing law `checkForBalancedCells`.
  - The 16-bit balancing vector is a natural number below 2^16. Bit `i` is
    read by halving (`HasBit`) and cleared by `Clear`.
  - `BalancePass` and `Balance` say what a pass over the cells computes.
  - The method `CheckForBalancedCells` runs the firmware's loop over the cells
    and is proved to compute `Balance`. It also raises the
    balancing-register-changed flag exactly when some bit is cleared.
  - The sum `targetVoltage + fuzzFactor` is computed modulo 2^16 (`Limit`).
    On the HCS12 target `int` is 16 bits wide, so two `uint16` operands add
    in 16-bit unsigned arithmetic.
- `ControlLoop` (`control_loop.dfy`) describes one iteration of `while(1)` as
  values.
  - A `State` holds the globals and the locals of `main` that outlive an
    iteration. An `Env` holds what the peripherals answer during one
    iteration. An `Action` is an outward effect: a CAN message, an SPI
    transaction, ADC power-down or the low-power wait.
  - One function per block of the loop body: `FirmwareBlock`,
    `TemperatureBlock`, `VoltageBlock` (made of `ConfigCheck`, `Measure` and
    `Report`), `ConfigPushBlock` and `BalancingBlock`.
  - `StepSpec` chains the five blocks and ends with the wait for an interrupt.
  - `StartupSpec` is `main` up to its loop.
  - `Run` strings iterations together. Between two iterations, interrupt
    routines may raise flags, and the ADC routines store fresh raw
    temperature samples (`Raise`).
- `Slave` (`slave.dfy`) is the firmware as it runs: a class `SlaveModule`.
  - Its fields are the globals. `gVoltages` and `gTemp` are arrays.
  - Its methods update the fields in place, one method per block of the loop
    body.
  - Each method is proved to leave the state, and return the actions, that
    the matching `ControlLoop` function gives.
- `ControlLoopProperties` (`control_loop_properties.dfy`) proves what the loop
  promises about the functions of `ControlLoop`.
  - `AtStage(t, k)` is the subsequence of the trace `t` made of the actions at
    position `k` in the fixed order of the loop body (`Stage`).
  - The lemmas say which actions an iteration performs under which flags, in
    which order, and what state it leaves.
  - Further lemmas cover runs of several iterations.

Foreign code becomes parameters:

- The CAN send functions, the LTC6802 driver calls and the ADC interrupts are
  not modelled as code.
  - Their answers in one iteration are the fields of `Env`.
  - Their effects are the actions of the trace.
- `convertTemp` and `ltcMakeConfigRegister` are arrows in a `Platform` value.
  `NB_CELL` and `BAL_DELTA_VOLT` are fields of the same value.
- `defines.h`, `ltc6802.h`, `CANSlave.h` and `temp.h` are not part of this
  model.

`main` does nothing to keep the voltage table at its previous values after
a failed read: it passes `gVoltages` to `ltcReadCellVoltage`, and whether the
table keeps its values depends on that driver, which is not part of this
model. The model lets the table take any values the driver leaves
(`Env.readVoltages`); `main` only suppresses the voltage report, and the
balancing pass later in the same iteration works on that table.

## Model

| member | source | states |
|---|---|---|
| Balancing.CheckForBalancedCells | trunk/Slave/CodeWarrior/Sources/main.c:210-220 | the vector left by the loop is `Balance` of the vector, the voltages and the wrapped limit; the flag becomes set exactly when it was set or some discharging cell is below the limit, and is never reset |
| Balancing.BalancePassBit | trunk/Slave/CodeWarrior/Sources/main.c:213-218 | after the first k cells, bit i is set exactly when it was set and not (i < k and cell i is below the limit) |
| Balancing.BalanceExact | trunk/Slave/CodeWarrior/Sources/main.c:213-218 | after a pass, each of the 16 bits is cleared exactly when it was set and its cell exists and is below the limit; every other bit is unchanged |
| Balancing.BalanceNeverSets | trunk/Slave/CodeWarrior/Sources/main.c:214-216 | a pass never sets a bit, so the new vector is a bitwise subset of the old; every cell still discharging afterwards is at or above the limit |
| Balancing.BalanceChanges | trunk/Slave/CodeWarrior/Sources/main.c:214-217 | the vector changes if and only if some discharging cell is below the limit, which is when the flag is raised |
| Balancing.BalanceIdempotent | trunk/Slave/CodeWarrior/Sources/main.c:210-219 | a second pass with the same voltages and limit returns the same vector and clears no bit |
| Balancing.ClearBit | trunk/Slave/CodeWarrior/Sources/main.c:216 | `v & ~(1 << j)` clears bit j and keeps every other bit |
| Balancing.LimitWraps | trunk/Slave/CodeWarrior/Sources/main.c:215 | the limit is the plain sum when it fits in 16 bits; otherwise it wraps to below the target voltage |
| Balancing.WorkedExample | trunk/Slave/CodeWarrior/Sources/main.c:213-218 | threshold 3700 mV, margin 20 mV, voltages [3690, 3750, 3705, 3600] and vector 0b1111 give vector 0b0010 |
| Balancing.LowBits | trunk/Slave/CodeWarrior/Sources/main.c:76 | masking with 2^w - 1 keeps exactly the w low bits |
| ControlLoop.InitialState | trunk/Slave/CodeWarrior/Sources/main.c:29-62 | before `main`, the tables have one entry per cell, no flag is set and no read error is pending |
| ControlLoop.ConvertAll | trunk/Slave/CodeWarrior/Sources/main.c:118-119 | the converted table has the same length and holds `convertTemp` of each raw sample at the same index |
| ControlLoop.StepSpec | trunk/Slave/CodeWarrior/Sources/main.c:101-205 | an iteration keeps one table entry per cell and leaves no read error pending |
| ControlLoop.Run | trunk/Slave/CodeWarrior/Sources/main.c:101-205 | any number of iterations keeps one table entry per cell and leaves no read error pending |
| ControlLoop.StartupSpec | trunk/Slave/CodeWarrior/Sources/main.c:76-99 | definition of start-up; see `StartupAnnounces`, `SlaveIdBits` |
| ControlLoop.FirmwareBlock | trunk/Slave/CodeWarrior/Sources/main.c:104-107 | definition of the firmware block; see `StepFirmwareReport`, `StepFirmwareFlag` |
| ControlLoop.TemperatureBlock | trunk/Slave/CodeWarrior/Sources/main.c:111-128 | definition of the temperature block; see `StepAdcPowerDown`, `StepTemperatureReport`, `StepTemperatureTable` |
| ControlLoop.ConfigCheck | trunk/Slave/CodeWarrior/Sources/main.c:138-143 | definition of the configuration check; see `StepConfigRead`, `StepWatchdogRecovery`, `StepWatchdogFlag` |
| ControlLoop.Measure | trunk/Slave/CodeWarrior/Sources/main.c:149-153 | definition of the measurement; see `MeasureAtStage`, `StepVoltageTable` |
| ControlLoop.Report | trunk/Slave/CodeWarrior/Sources/main.c:157-164 | definition of the voltage report; see `StepVoltageReport`, `StepVoltageTable` |
| ControlLoop.VoltageBlock | trunk/Slave/CodeWarrior/Sources/main.c:134-165 | definition of the voltage block; see `StepMeasureStart`, `StepCellRead`, `StepOpenWireCheck`, `StepVoltageReport` |
| ControlLoop.ConfigPushBlock | trunk/Slave/CodeWarrior/Sources/main.c:169-175 | definition of the configuration push; see `StepConfigPush`, `StepConfigRegister` |
| ControlLoop.BalancingBlock | trunk/Slave/CodeWarrior/Sources/main.c:178-186 | definition of the balancing block; see `StepBalancing`, `StepCompletionReport` |
| ControlLoop.Raise | trunk/Slave/CodeWarrior/Sources/main.c:201-203 | definition of what interrupt routines do between iterations (raise flags, store raw temperature samples); see `PushFollowsClear`, `TickTemperatureReport` |
| Balancing.Limit | trunk/Slave/CodeWarrior/Sources/main.c:215 | definition of the wrapped limit; see `LimitWraps` |
| Balancing.Balance | trunk/Slave/CodeWarrior/Sources/main.c:210-220 | definition of a full pass; see `BalanceExact`, `BalanceNeverSets`, `BalanceChanges`, `BalanceIdempotent` |
| Slave.SlaveModule.constructor | trunk/Slave/CodeWarrior/Sources/main.c:29-62 | the module uses exactly the given platform (cell count, margin, conversion, configuration builder); the globals start zeroed and the configuration starts at its default |
| Slave.SlaveModule.Startup | trunk/Slave/CodeWarrior/Sources/main.c:73-99 | start-up updates the globals and performs the actions `StartupSpec` gives |
| Slave.SlaveModule.Step | trunk/Slave/CodeWarrior/Sources/main.c:101-205 | one iteration updates the globals and arrays in place as `StepSpec` gives, returns its actions, and keeps the tables one entry per cell |
| Slave.SlaveModule.HandleFirmwareRequest | trunk/Slave/CodeWarrior/Sources/main.c:104-107 | the firmware block as `FirmwareBlock` gives |
| Slave.SlaveModule.HandleTemperatures | trunk/Slave/CodeWarrior/Sources/main.c:111-128 | the temperature block, which converts `gTemp` in place, as `TemperatureBlock` gives |
| Slave.SlaveModule.HandleVoltageTimeout | trunk/Slave/CodeWarrior/Sources/main.c:134-165 | the voltage block as `VoltageBlock` gives |
| Slave.SlaveModule.CheckConfig | trunk/Slave/CodeWarrior/Sources/main.c:138-143 | the read-back of the configuration and the recovery write, as `ConfigCheck` gives |
| Slave.SlaveModule.MeasureVoltages | trunk/Slave/CodeWarrior/Sources/main.c:149-153 | the measurement fills `gVoltages` with the values read, as `Measure` gives |
| Slave.SlaveModule.ReportVoltages | trunk/Slave/CodeWarrior/Sources/main.c:157-164 | the report and the reset of the timeout and the read error, as `Report` gives |
| Slave.SlaveModule.PushBalanceConfig | trunk/Slave/CodeWarrior/Sources/main.c:169-175 | the push of the balancing configuration as `ConfigPushBlock` gives |
| Slave.SlaveModule.RunBalancing | trunk/Slave/CodeWarrior/Sources/main.c:178-186 | the balancing pass and the completion report as `BalancingBlock` gives |
| ControlLoopProperties.StepOrder | trunk/Slave/CodeWarrior/Sources/main.c:101-205 | the actions of an iteration come in the fixed order of the loop body, each kind at most once, and the last one is the wait for an interrupt |
| ControlLoopProperties.StepFirmwareReport | trunk/Slave/CodeWarrior/Sources/main.c:104-107 | the firmware revision is sent once, with the module's ID, if and only if it was requested |
| ControlLoopProperties.StepFirmwareFlag | trunk/Slave/CodeWarrior/Sources/main.c:104-107 | no firmware request is pending after an iteration |
| ControlLoopProperties.StepTemperatureReport | trunk/Slave/CodeWarrior/Sources/main.c:111-124 | the converted table is sent once, with the module's ID, if and only if both ADC conversions were done |
| ControlLoopProperties.StepTemperatureTable | trunk/Slave/CodeWarrior/Sources/main.c:111-128 | when both conversions were done, every entry is converted and both flags are cleared; otherwise the table and the flags are unchanged |
| ControlLoopProperties.StepAdcPowerDown | trunk/Slave/CodeWarrior/Sources/main.c:111-115 | the ADCs are powered down once if and only if both conversions were done |
| ControlLoopProperties.StepConfigRead | trunk/Slave/CodeWarrior/Sources/main.c:134-138 | the configuration is read back once if and only if the one-second timeout was pending |
| ControlLoopProperties.MeasureAtStage | trunk/Slave/CodeWarrior/Sources/main.c:149-153 | the measurement starts a conversion, reads the cells and checks for an open wire, once each and in that order |
| ControlLoopProperties.StepMeasureStart | trunk/Slave/CodeWarrior/Sources/main.c:134-149 | a voltage conversion is started once if and only if the timeout was pending |
| ControlLoopProperties.StepCellRead | trunk/Slave/CodeWarrior/Sources/main.c:134-150 | the cell voltages are read once if and only if the timeout was pending |
| ControlLoopProperties.StepOpenWireCheck | trunk/Slave/CodeWarrior/Sources/main.c:134-153 | the open-wire check runs once if and only if the timeout was pending |
| ControlLoopProperties.StepWatchdogRecovery | trunk/Slave/CodeWarrior/Sources/main.c:138-143 | the last commanded configuration is written back once if and only if the timeout was pending and bit 0 of the CFG0 read back is 0, on every such iteration |
| ControlLoopProperties.StepWatchdogFlag | trunk/Slave/CodeWarrior/Sources/main.c:140-141 | `spiTimeout` is cleared exactly when the configuration is written back, and keeps its value otherwise |
| ControlLoopProperties.StepVoltageReport | trunk/Slave/CodeWarrior/Sources/main.c:149-161 | the voltages just read are sent once if and only if the timeout was pending and the read reported no error |
| ControlLoopProperties.StepVoltageTable | trunk/Slave/CodeWarrior/Sources/main.c:149-165 | on the timeout the table and the open-wire result take the values read, even after a failed read; the timeout is always cleared |
| ControlLoopProperties.StepConfigPush | trunk/Slave/CodeWarrior/Sources/main.c:169-175 | the configuration rebuilt from the vector is written once if and only if a change was pending |
| ControlLoopProperties.StepConfigRegister | trunk/Slave/CodeWarrior/Sources/main.c:169-172 | the configuration kept for watchdog recovery is the one last pushed |
| ControlLoopProperties.StepBalancing | trunk/Slave/CodeWarrior/Sources/main.c:178-186 | while balancing, the vector becomes `Balance` of the freshest voltages; a new push is requested exactly when a bit was cleared; balancing stays active exactly while the vector is non-zero; when not balancing nothing moves |
| ControlLoopProperties.StepCompletionReport | trunk/Slave/CodeWarrior/Sources/main.c:180-185 | completion is sent once, with vector 0, the threshold and the module's ID, if and only if balancing ends in this iteration |
| ControlLoopProperties.PushFollowsClear | trunk/Slave/CodeWarrior/Sources/main.c:169-186 | a vector changed in one iteration is written to the front end by the next one, whatever interrupts arrive in between |
| ControlLoopProperties.RunNeverSetsBits | trunk/Slave/CodeWarrior/Sources/main.c:178-179 | over any run, a bit set at the end was set at the start |
| ControlLoopProperties.RunCompletionAtMostOnce | trunk/Slave/CodeWarrior/Sources/main.c:178-186 | over any run, completion is reported at most once, and never when balancing was not active at the start; once ended, balancing stays ended |
| ControlLoopProperties.SlaveIdBits | trunk/Slave/CodeWarrior/Sources/main.c:76 | the ID is the low nibble of port E: its bit i is bit i of the port for i < 4, and 0 above |
| ControlLoopProperties.StartupAnnounces | trunk/Slave/CodeWarrior/Sources/main.c:76-99 | start-up sends the init status, then the firmware revision, both with the ID, then writes the configuration; the stored ID is the low nibble of port E; `badSlaveId` is set exactly when it was set or that ID is 0 or above 10, and start-up goes on; `canTxError` holds the result of the second send |
| ControlLoopProperties.ResetDetectable | trunk/Slave/CodeWarrior/Sources/main.c:62 | bit 0 of the power-up CFG0 is 1 and bit 0 of the power-on CFG0 is 0, so the check tells them apart |
| ControlLoopProperties.TickTemperatureReport | trunk/Slave/CodeWarrior/Sources/main.c:111-128 | after an ADC interrupt stored fresh samples and both conversions are done, the ADCs are powered down once and the table sent is the conversion of exactly those samples, converted once |
| ControlLoopProperties.StepKeepsCfg0 | trunk/Slave/CodeWarrior/Sources/main.c:169-175 | with a configuration builder that keeps CFG0, an iteration leaves CFG0 of the commanded configuration unchanged |
| ControlLoopProperties.RunKeepsCfg0 | trunk/Slave/CodeWarrior/Sources/main.c:101-205 | by induction, CFG0 of the commanded configuration is the same at the end of any run as at its start |
| ControlLoopProperties.RunConfigNeverLooksReset | trunk/Slave/CodeWarrior/Sources/main.c:56-62 | after start-up and any run, bit 0 of the commanded CFG0 is 1, so the watchdog test at main.c:140 never mistakes a commanded configuration for a reset one |

## Left out

- Peripheral set-up (`MCU_init`), the timer enables and the ADC power
  registers are hardware writes. ADC power-down is the single action
  `PowerDownAdc`.
- The raw read of port E is hardware. `Startup` takes the port value as a
  parameter.
- The encoding of CAN messages and the wait for CAN synchronisation
  (main.c:84) belong to the CAN driver. Each send is an action, and its
  failure is a boolean in `Env` stored in `canTxError`.
- The LTC6802 driver calls are foreign code. Their results are `Env` fields,
  and `ltcMakeConfigRegister` is an arrow in `Platform`.
- `convertTemp` is conversion arithmetic in a header outside this model. It
  is an arrow in `Platform`, applied entry by entry.
- The retry loop around `ltcReadConfig` (main.c:138) has no bound. Only its
  exit is modelled: one `ReadConfig` action and the CFG0 byte of the read
  that succeeded. Its termination is not claimed.
- Interrupts can preempt the loop at any instruction, and `WAI` puts the
  processor to sleep. Neither is modelled.
  - An iteration is atomic.
  - Interrupt routines only raise flags between iterations (`Raise`).
  - The wait is the final `WaitForInterrupt` action.
- `main.c` does not show which code sets `gBalanceVector`, `gBalThres` or
  `balancingActive` (presumably the CAN receive routine); that code is not
  part of this model, so `Run` never re-arms `balancingActive`.
- The ADC routines that fill `gTemp` are not modelled as code. `Raise` stores
  the table they leave (`Raised.samples`) whenever one of them ran; which
  entries each routine writes is not modelled.
- `ltcMakeConfigRegister` is not part of this model. `StepKeepsCfg0`,
  `RunKeepsCfg0` and `RunConfigNeverLooksReset` assume of it (`KeepsCfg0`) that it leaves CFG0 as it
  was; the other lemmas assume nothing about it.
- Whether a failed `ltcReadCellVoltage` leaves `gVoltages` untouched: the
  model lets the table take any value (`Env.readVoltages`), which includes
  its previous values.
- `gElapsedTime` is not used by `main`.
- `spiTimeout` is never set in `main`; whatever code sets it is not part of
  this model. No interrupt in `Raise` and no field of `Env` sets it, so in the
  model it stays false from `InitialState` on, and `StepWatchdogFlag` only
  shows that the loop clears it and never sets it.
- The `flags_t` bit-field widths are not modelled. Each flag is a boolean.
- The balancing vector is a natural number below 2^16, not a bit-vector type.
  Bit operations are defined arithmetically (`HasBit`, `Clear`).
- `ControlLoop.StepSpec`: its own contract only keeps the table sizes. What an
  iteration does is stated by the `ControlLoopProperties` lemmas.
- `ControlLoop.Run`: its own contract only keeps the table sizes. Its
  behaviour is stated by `RunNeverSetsBits` and `RunCompletionAtMostOnce`.
