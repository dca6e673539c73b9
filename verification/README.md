# Verified model of the vehicle controller

A Dafny 4.11 model of the parts of this vehicle controller that carry state over time: the
three-process pipeline of `recoverybase`, the register drivers of `bcm2835.c`, the PID controller
with the actuator chain behind it, and the encoder speed sampler. `dafny verify dfyconfig.toml`
checks everything.

## The system and what is proved about it

**The recoverybase pipeline** (`Pipeline*.dfy`). Camera, Speed and ServoPID are processes over one
shared `State`. Each runs its own endless schedule from `RunALL`; they hand work down the line
through one-slot `is_new_data` flags and stop at barriers that only the manager (`Car::Run`) opens.
`Pipeline` is an interleaving step system: every process has a program counter, every read or write
of shared memory is a step of its own (spin-then-clear is two), and the start-up reset in `Car::Run`
races with the parts already forked. `MAX_TIMES` and `METHOD` are parameters. `PipelineMachine` is
the same in the source's form, a class whose methods update the shared arrays, proved equal to the
step functions. The history counters (laps, publications, hand-offs, barriers, sweeps, saves) are
not in the source; nothing branches on them.

- `PipelineSafety`: causality along the line, parked parts whenever a need flag is up, the budget of
  barriers per manager sweep, and which parts are ever saved.
- `PipelineSaves`: which checkpoints a run takes under each METHOD, and that none is left out.
- `PipelineProgress`: no deadlock below the limit. A measure over all program counters falls with
  every turn of the process everybody waits for and is unchanged by any other turn; 128 rounds, in
  each of which every process gets a turn somewhere, therefore raise `times` from every reachable
  state, and every fair run passes the limit, upon which the manager leaves its loop.
- `PipelineShutdown`: after the limit the picture changes. The manager stops opening barriers, so
  ServoPID can reach its `exit(0)` if and only if `MAX_TIMES % 3 == 2`; with the shipped value 30 it
  never does, under any schedule.

**Drivers** (`Spi0`, `I2c`, `AuxSpi`, `SystemTimer`, `Gpio`). Each peripheral is a class whose state
moves on nondeterministically whenever a driver reads its status. A peripheral may idle at a status
read although it could work, but only a finite, arbitrary number of times; without that no polling
loop ends. SPI0 stalls when its RX FIFO is full (section 10.6.1 of the BCM2835 ARM Peripherals
manual), the BSC data length register holds 16 bits (section 3), and the slave on SPI0 is any
function of the bytes it has seen, the one being exchanged included.

**PID and actuators** (`MiniPid`, `MiniPidLaws`, `MiniPidAnswers`, `Pca9685`, `Actuator`). Doubles are `real`. The
controller is a class with the fields of the C++ one; its methods are proved against functions on a
record of those fields, and the laws are about whole histories of calls. The PCA9685 is a register
file of 16 channels of four bytes, with the ALL_LED registers writing through to all.

**Measurements** (`SpeedSampler`, `CycleAverage`).

### Where the code does something else than it seems to

- `stage` is a `bool`, so `(stage + 1) % 3` is always true again and `stage[i] == i` holds for i = 1
  only: no part but Speed is ever checkpointed (`PipelineSafety.SavedParts`).
- `FAULTED` ships as false, which enables one simulated fault; the model is the branch with no fault
  left to simulate.
- `bounded` is strict although its comment says inclusive, so a raw output exactly at a limit replaces
  the error sum (`MiniPidLaws.AtLimitStartsOver`, `MiniPidLaws.LimitRun`). The model follows the code.
- Output limits beat the ramp: set while the output is far outside, they pull it in at once
  (`MiniPidLaws.LimitsBeatRamp`; `MiniPidLaws.RampHolds` gives the exact condition).
- An SPI receive buffer that begins inside the send buffer is safe only if the whole transfer fits into
  the TX FIFO (`Spi0.OverwriteUnsent`).
- `reset` keeps the setpoint, so `getOutput(actual)` right after it still works with the old one
  (`MiniPidLaws.StaleSetpoint`). `setI` promises no jump of the integral contribution; coming from a gain of
  zero there is one (`MiniPidLaws.SetIKeepsTerm`).
- Full-off switched on and off again does not always return a channel to its PWM setting; on the
  all-pin the low bits of OFF_H are lost (`Pca9685.ToggleRestores` gives the exact condition).
- The cycle average takes 0 for "no average yet". The truncation error stays below one exactly if a
  nonzero sample never meets an average of 0 (`CycleAverage.AverageError`).
- The wrap-around correction of the encoder uses 10467 instead of half a turn: across zero it is
  right exactly up to 5915 counts (`SpeedSampler.UnwrapRecovers`). The test for a reading of -1 at the
  end of `Speed::Run` can never succeed, and a total time of zero is possible
  (`SpeedSampler.ZeroTime`).
- The auxiliary SPI sends chunks left-justified and unpacks them right-justified: a word looped back
  unchanged is understood exactly if it is full or zero (`AuxSpi.LoopedBackWord`).
- `i2c_write` and `i2c_read` without bus errors report success exactly for lengths below 65536.
- `st_read` needs no bound of 2^32 ticks on its duration; anything up to 2^64 - 2^32 is safe. Only
  `delayMicroseconds` with start plus delay past 2^64 returns early.
- `gpio_get_pud` returns the error code on boards before the Pi 4, and on a Pi 4 for the unused
  pattern 3.

## Model

| member | source | states |
|---|---|---|
| Pipeline.ExecAppend | recoverybase/src/part.cpp:63-159 | a run in two halves is the run of the whole schedule |
| PipelineSafety.StepKeepsInv | recoverybase/src/part.cpp:63-159 | every step of every process and of the manager keeps the invariant: counters agree with program counters, no hand-off without a publication, need flags only at barriers, barriers only as granted, stage stuck |
| PipelineSafety.Causality | recoverybase/src/servoPID.cpp:18-42 | in every interleaving: servo publications <= servo hand-offs <= speed publications <= speed hand-offs <= camera publications, `times <= 3 * camera publications + 2` and `times <= MAX_TIMES + 3` |
| PipelineSafety.Quiescence | recoverybase/src/part.cpp:15-24 | whenever a need flag is up or a compulsive save is about to happen, that part stands at its barrier |
| PipelineSafety.SavedParts | recoverybase/src/car.cpp:287-303 | all checkpoints ever taken are of Speed, and a compulsive one found it at its barrier |
| PipelineSafety.BarrierBudget | recoverybase/src/car.cpp:359-413 | each part passes at most one barrier per manager sweep, plus one for the start-up reset |
| PipelineSaves.EverySave | recoverybase/src/car.cpp:287-351 | over every run: one unit save for each due unit check of Speed under METHOD 1 and 3, one compulsive save for each of its raised need flags under METHOD 2 and 3, and no other |
| PipelineSaves.SavedByMethod | recoverybase/src/car.cpp:287-351 | every checkpoint ever taken is of a kind METHOD asks for |
| PipelineSaves.CheckpointBeforeBarrier | recoverybase/src/car.cpp:276-308 | under METHOD 2 and 3 Speed passes at most one barrier more than it has compulsive checkpoints: only the start-up reset opens one without |
| PipelineSaves.EverySweepLooks | recoverybase/src/car.cpp:311-355 | every sweep looks at Speed's unit checkpoint exactly once |
| PipelineSaves.ResetRace | recoverybase/src/car.cpp:365-373 | a run in which the start-up reset takes back a publication nobody has seen and opens a barrier before the first sweep |
| PipelineSaves.ServoFlag | recoverybase/src/servoPID.cpp:25-28 | after the reset ServoPID's own flag is up exactly if it was or ServoPID has published: nobody clears it |
| PipelineProgress.RestUnfolds | recoverybase/src/part.cpp:69-138 | the table of turns left follows from the programs line by line, with the cost of a barrier and of a wait for data |
| PipelineProgress.RankBound | recoverybase/src/part.cpp:69-138 | seen through all waits, no part is further from its next goal than one lap |
| PipelineProgress.MeasureStep | recoverybase/src/part.cpp:63-159 | a turn of the process everybody waits for lowers the measure, any other turn changes neither measure nor process |
| PipelineProgress.Progress | recoverybase/src/part.cpp:63-159 | from every reachable state with `times <= MAX_TIMES`, any schedule of 128 rounds raises `times`: no deadlock under fair scheduling |
| PipelineProgress.ShortestWay | recoverybase/src/car.cpp:276-308 | at most 128 well chosen turns raise `times` by exactly one |
| PipelineProgress.EveryRunEnds | recoverybase/src/car.cpp:381-407 | 128 rounds per value drive `times` to any target up to MAX_TIMES + 1 |
| PipelineProgress.ManagerReturns | recoverybase/src/car.cpp:381-413 | `Car::Run` leaves its loop under every fair schedule, at most 13 rounds after the limit was passed |
| PipelineProgress.ManagerStaysBelowLimit | recoverybase/src/car.cpp:381 | it never leaves the loop while `times <= MAX_TIMES` |
| PipelineShutdown.ServoNeverExits | recoverybase/src/part.cpp:157 | unless MAX_TIMES is 2 modulo 3, ServoPID never exits, in any run |
| PipelineShutdown.ServoCanExit | recoverybase/src/part.cpp:157 | if it is, some run brings ServoPID to its exit |
| PipelineShutdown.ServoExit | recoverybase/src/car.cpp:381 | ServoPID can exit in some run if and only if MAX_TIMES is 2 modulo 3 |
| PipelineMachine.SharedMemory.constructor | recoverybase/src/car.cpp:42-68 | `InitState` establishes the initial state |
| PipelineMachine.SharedMemory.PartTurn | recoverybase/src/part.cpp:63-159 | one operation of a part on the shared arrays is the step function |
| PipelineMachine.SharedMemory.SaveState | recoverybase/src/car.cpp:294 | a save is recorded only when the stage equals the index of the part |
| PipelineMachine.SharedMemory.ManagerTurn | recoverybase/src/car.cpp:276-373 | one operation of the manager is the step function |
| PipelineMachine.SharedMemory.Execute | recoverybase/src/car.cpp:359-413 | every interleaving on the arrays is a run of the step system, so all run properties above hold of it |
| MiniPid.Controller.constructor | MiniPID.cpp:26-45 | a new controller |
| MiniPid.Controller.SetPID | MiniPID.cpp:114-117 | new gains, signs normalised for the direction |
| MiniPid.Controller.SetI | MiniPID.cpp:75-90 | error sum and error cap rescaled to the new gain |
| MiniPid.Controller.SetMaxIOutput | MiniPID.cpp:128-137 | the cap on the integral term, and on the error sum when I is not 0 |
| MiniPid.Controller.SetOutputLimits | MiniPID.cpp:150-159 | reversed limits are ignored; the integral cap shrinks to the span when unset or larger |
| MiniPid.Controller.SetOutputFilter | MiniPID.cpp:322-326 | strengths other than 0 and (0, 1) are ignored |
| MiniPid.Controller.CheckSigns | MiniPID.cpp:360-373 | all gains nonnegative, or all nonpositive when reversed |
| MiniPid.Controller.Reset | MiniPID.cpp:294-297 | first-run flag up, error sum 0, all else kept |
| MiniPid.Controller.UpdateErrorSum | MiniPID.cpp:240-257 | anti-windup against output limits, ramp and integral cap |
| MiniPid.Controller.Restrict | MiniPID.cpp:260-265 | ramp first, then limits |
| MiniPid.Controller.AddTerms | MiniPID.cpp:192-237 | setpoint range, first-run defaults and the four terms |
| MiniPid.Controller.GetOutput | MiniPID.cpp:185-272 | output and all fields after a call, as functions of the fields before |
| MiniPid.Controller.GetOutputAt | MiniPID.cpp:287-289 | the same with the stored setpoint |
| MiniPid.Controller.GetOutputAgain | MiniPID.cpp:278-280 | the same with the stored setpoint and measured value |
| MiniPid.Clamp | MiniPID.cpp:339-343 | within the bounds, and the value itself when it is |
| MiniPidLaws.FilteredLimit | MiniPID.cpp:259-271 | after n calls the output exceeds the limits by at most f^n times the excess of the output before the first call |
| MiniPidLaws.StaysInside | MiniPID.cpp:259-271 | inside stays inside; without a filter every output is inside |
| MiniPidLaws.BlendExcess | MiniPID.cpp:266-268 | one filter step shrinks the excess by the filter strength |
| MiniPidLaws.RampHolds | MiniPID.cpp:259-271 | every output of a run is within the ramp rate of the one before, if and only if the limits are off or (1 - filter) times the distance of the output before the first call from the limits is at most the rate |
| MiniPidLaws.SoundAlways | MiniPID.cpp:150-159 | min <= max and a filter in [0, 1), on which this rests, survive every sequence of calls |
| MiniPidLaws.LimitsBeatRamp | MiniPID.cpp:259-265 | a new controller brought to an output of 10 and then limited to 1 breaks a ramp of 0.5 |
| MiniPidLaws.SetIKeepsTerm | MiniPID.cpp:75-90 | changing the gain leaves the capped integral term as it was if and only if nothing had accumulated, or there was a gain and the new one has the wanted sign (a negative cap: if the product stays on its side of the cap) |
| MiniPidLaws.Accumulates | MiniPID.cpp:240-257 | exactly when a call adds its error to the sum: strictly inside limits and ramp with a sum the cap allows, or not inside with nothing to lose |
| MiniPidLaws.AccumulatesUncapped | MiniPID.cpp:240-257 | without a cap: if and only if strictly inside limits and ramp, or the sum was 0 |
| MiniPidLaws.AtLimitStartsOver | MiniPID.cpp:240-241 | a raw output exactly at a limit replaces the sum by the error although the limit cuts nothing |
| MiniPidLaws.CapBoundsSum | MiniPID.cpp:240-254 | after a call the sum is within the error cap if and only if the output was inside or its error alone is within |
| MiniPidLaws.LimitRun | MiniPID.cpp:240-254 | a run from a new controller onto the limit that loses half of the accumulated error |
| MiniPidLaws.TextbookPid | MiniPID.cpp:185-272 | with all extras off, the n-th output is F*sp + P*e + I*(sum of earlier errors) - D*(change of the measured value) |
| MiniPidLaws.SumOfErrors | MiniPID.cpp:240-257 | the error sum is the sum of all errors so far |
| MiniPidLaws.SettingsKept | MiniPID.cpp:185-272 | no history of samples changes settings or gains |
| MiniPidLaws.TwinsStay | MiniPID.cpp:60-183 | no configuration call tells apart controllers that differ only in what a first run overwrites |
| MiniPidLaws.TwinsMeet | MiniPID.cpp:185-272 | one `getOutput` makes such controllers agree in everything |
| MiniPidLaws.ResetIsRenewal | MiniPID.cpp:294-297 | after any past, reset makes every later sequence of calls answer as a new controller with the same configuration, if the shorter forms of `getOutput` are used only once a setpoint (and measured value) has been given again |
| MiniPidLaws.TwoArgumentsAnchor | MiniPID.cpp:185 | sequences using `getOutput(actual, setpoint)` only need no proviso |
| MiniPidLaws.StaleSetpoint | MiniPID.cpp:278-297 | with any settings, `getOutput(actual)` right after reset answers as a new controller if and only if the old setpoint makes no difference to the sum of the first two terms, or without a filter none that gets past the output limits |
| MiniPidLaws.StaleSetpointPlain | MiniPID.cpp:278-297 | with all extras off: if and only if (F + P) times the old setpoint is 0 |
| MiniPidLaws.FirstAnswer | MiniPID.cpp:208-271 | on a first run the answer is the limited and filtered sum of the first two terms |
| MiniPidAnswers.OutputExplained | MiniPID.cpp:192-271 | every call after the first goes through five stages: setpoint within its range, integral at its cap, sum within the ramp, within the limits (each the nearest point), and the filter |
| MiniPidAnswers.OneExplanation | MiniPID.cpp:192-271 | these stages are unique, so they determine the answer |
| MiniPidAnswers.NextSumExplained | MiniPID.cpp:240-257 | from the same stages, the next error sum: the error alone outside or at a limit in force, else the sum cut at its cap |
| MiniPidAnswers.LimitedPid | MiniPID.cpp:185-272 | over any history of a new controller with output limits: F*sp + P*e + (I*sum cut at the cap) - D*(change of the measured value), cut at the limits |
| MiniPidAnswers.LimitedFirst | MiniPID.cpp:208-265 | the first call of such a controller: F*sp + P*e cut at the limits |
| MiniPidAnswers.FilterConverges | MiniPID.cpp:266-268 | towards a steady level the distance after n calls is exactly f^n times the one before the first |
| MiniPidAnswers.ShorterForms | MiniPID.cpp:278-289 | the one- and no-argument forms answer as the full form with what the last call was given |
| MiniPidAnswers.SignsAgree | MiniPID.cpp:114-117 | after setting gains their sizes are those asked for and their signs agree with the direction |
| MiniPidAnswers.CapReached | MiniPID.cpp:128-137 | the error cap is the sum whose contribution is the integral cap |
| MiniPidAnswers.CapFollowsGain | MiniPID.cpp:79-81 | so it is after a change of the integral gain |
| MiniPidAnswers.FilterTaken | MiniPID.cpp:322-326 | a strength takes effect exactly if it lies in [0, 1) |
| MiniPidAnswers.LimitsBoundIntegral | MiniPID.cpp:150-159 | after setting limits the integral cap is at most their span, and as before if it already was |
| Pca9685.Chip.PwmReset | pca9685.c:125-129 | every channel full-off |
| Pca9685.Chip.PwmTicks | pca9685.c:135-142 | 12-bit ticks, both flags cleared, other channels untouched |
| Pca9685.Chip.WriteFlag | pca9685.c:187-193 | read, set or clear bit 4, write back: one byte of the addressed channels changes |
| Pca9685.Chip.SetFullOn | pca9685.c:165-178 | full-on wins over full-off; switching off clears only the flag |
| Pca9685.Chip.SetFullOff | pca9685.c:185-194 | only the flag changes on a single pin; on the all-pin the rest of OFF_H is lost |
| Pca9685.Chip.Execute | pca9685.c:222-249 | each command gives the addressed channels the promised signal and no other channel changes |
| Pca9685.Chip.ExecuteAll | pca9685.c:222-249 | after any sequence of commands, pins 0 to 15 and the all-pin mixed, each channel decodes to its last command |
| Pca9685.LastCommandWins | pca9685.c:222-249 | the reference map: the latest command for a channel decides |
| Pca9685.NoCommandNoChange | pca9685.c:222-249 | a channel never addressed keeps its signal |
| Pca9685.DutyCycle | pca9685.c:216-249 | a written value is the number of high ticks in each period of 4096, cut to 0 and 4096 |
| Pca9685.ToggleRestores | pca9685.c:185-194 | exactly when full-off on and off again brings the signal back |
| Actuator.TickRange | recovery/src/pca.cpp:22-30 | ticks exist exactly for 1 to 2 ms; they are 245 to 491, from 1.5 ms on at least 368 |
| Actuator.TicksExact | recovery/src/pca.cpp:22-30 | a pulse of t ms has floor(245.76 * t) ticks |
| Actuator.PulseInRange | recovery/src/servoPID.cpp:36-39 | a limited controller, whatever its gains and past, yields an accepted pulse |
| Actuator.Pca.SetPulse | recovery/src/pca.cpp:32-40 | the channel carries the ticks, or the process ends and nothing changes |
| Actuator.PidProcess.Retune | recovery/src/servoPID.cpp:32-35 | new gains exactly when flagged, flag cleared |
| Actuator.PidProcess.Run | recovery/src/throttlePID.cpp:29-37 | retune, output, pulse and channel, no exit and no other channel touched |
| Actuator.Vehicle.Drive | recovery/src/servoPID.cpp:31-40 | over any run of sensor values, targets and live retunes of both controllers the process never exits, channel 11 stays in 245..491 and channel 15 in 368..491 ticks, and the vehicle goes through the states of `AfterEvents`; after a turn under proportional control the channel carries floor(245.76 * (1.5 + q/2)) ticks, q being gain times what is missing from the setpoint, cut to the limits, and a servo pulse becomes the direction |
| Actuator.ThrottleInNumbers | recovery/src/throttlePID.cpp:29-37 | over any run, for any gains: channel 15 after a throttle turn in numbers, nothing else changed |
| Actuator.ServoInNumbers | recovery/src/servoPID.cpp:31-40 | the same for channel 11, with the pulse written back as direction |
| Actuator.ProportionalThrottle | recovery/src/throttlePID.cpp:10-14 | as shipped the throttle answers P * (target speed - speed) cut to [0, 1] |
| Actuator.RetuneTakesEffect | recovery/src/servoPID.cpp:32-35 | a requested retune takes effect at the next turn of its own process, sizes as asked for, and leaves the other alone |
| Actuator.FirstThrottle | recovery/src/throttlePID.cpp:34-36 | a new vehicle at speed 0 with target 200 puts 424 ticks on channel 15 |
| SpeedSampler.UnwrapRecovers | recovery/src/speed.cpp:64-71 | up to half a turn, the corrected difference is the true displacement if and only if the readings did not pass zero or it is at most 5915 counts |
| SpeedSampler.UnwrapLimit | recovery/src/speed.cpp:68-71 | a displacement of 5916 counts across zero is misread |
| SpeedSampler.NetRotation | recovery/src/speed.cpp:74 | the summed differences are the true net rotation if every displacement is within half a turn and either did not pass zero or is at most 5915 counts |
| SpeedSampler.MicrosBound | recovery/src/speed.cpp:59-62 | the summed time is at most 2500 us a sample, and zero only if every one is |
| SpeedSampler.NoTime | recovery/src/speed.cpp:78 | the quotient fails if and only if every sample took 0 us |
| SpeedSampler.ZeroTime | recovery/src/speed.cpp:59-62 | eight usable readings of a turning wheel for which it fails |
| SpeedSampler.SpeedBetween | recovery/src/speed.cpp:64-78 | the published speed lies between the slowest and the fastest of the sampled ones |
| SpeedSampler.ConstantSpeed | recovery/src/speed.cpp:64-78 | a wheel of constant speed is measured exactly |
| SpeedSampler.UsableBounds | recovery/src/speed.cpp:48-62 | exactly the pairs with two valid readings at most 2.5 ms apart are used |
| SpeedSampler.Speed.Take | recovery/src/speed.cpp:40-76 | exactly the usable pairs are added, with their corrected difference |
| SpeedSampler.Speed.Run | recovery/src/speed.cpp:33-86 | sums exactly the first eight usable pairs of any stream, total time at most 0.02 s, and always publishes |
| CycleAverage.DiffUs | recoverybase/src/share.cpp:12-16 | the distance of two time stamps in either order |
| CycleAverage.DiffIsTicks | recoverybase/src/share.cpp:12-16 | two readings of a clock that carries at 999999 us are apart by the microseconds it has ticked |
| CycleAverage.SteadyCycles | recoverybase/src/part.cpp:26-37 | cycles of 4m to 4m + 3 us each give an average of m |
| CycleAverage.AverageError | recoverybase/src/part.cpp:26-37 | at all times less than one below the exact recurrence and never above it, if and only if no nonzero sample meets a zero average |
| CycleAverage.PositiveSamples | recoverybase/src/part.cpp:32-37 | samples of at least 1 are enough for that |
| CycleAverage.AverageBetween | recoverybase/src/part.cpp:32-37 | the average lies between any bounds of the samples, zero samples included |
| CycleAverage.ZeroSampleForgets | recoverybase/src/part.cpp:32-33 | samples 1, 0, 9 break the bound |
| CycleAverage.Part.UpdateAverageCycleTime | recoverybase/src/part.cpp:26-37 | a quarter of the measured time is averaged in |
| CycleAverage.Part.UpdateAll | recoverybase/src/part.cpp:26-37 | any number of cycles gives the average of their samples |
| SystemTimer.Linearizable | bcm2835.c:1611-1642 | the value read is one the counter held during the call, also across the 64-bit wrap, for any call shorter than 2^64 - 2^32 ticks |
| SystemTimer.Untorn | bcm2835.c:1611-1642 | before the wrap the value lies between first and last register read |
| SystemTimer.Timer.StRead | bcm2835.c:1611-1642 | the reading lies between the counter before and after the call, or is 0 without access |
| SystemTimer.Timer.Readings | bcm2835.c:1611-1642 | successive readings never go back |
| SystemTimer.Timer.StDelay | bcm2835.c:1645-1651 | returns with the first reading that has reached offset plus delay modulo 2^64, not before and not after, and ends |
| SystemTimer.Timer.DelayMicroseconds | bcm2835.c:520-554 | from a nonzero start never early, whatever nanosleep does, unless start plus delay overflows, with no further reading once it is over; exactly the sleeps asked of nanosleep |
| Spi0.CorrectOrderReverses | bcm2835.c:85-127 | every entry of the lookup table is the bit reversal of its index |
| Spi0.CorrectOrderTwice | bcm2835.c:121-127 | correcting twice restores the byte |
| Spi0.RepliesExtend | bcm2835.c:776-816 | what the slave answered does not change as more is sent |
| Spi0.NeverStuck | bcm2835.c:795-809 | while bytes are outstanding the device can shift or the driver can push or drain |
| Spi0.PushExtends | bcm2835.c:800 | pushing the next byte extends the corrected prefix on its way to the wire |
| Spi0.Push | bcm2835.c:798-802 | the byte pushed is still the original one: received bytes stay behind sent ones |
| Spi0.Take | bcm2835.c:804-808 | the next answer lands at its place and nothing unsent is overwritten |
| Spi0.FillTx | bcm2835.c:798-802 | the send loop ends, keeps the transfer invariant, and makes progress or leaves something to drain |
| Spi0.DrainRx | bcm2835.c:804-808 | the receive loop ends and keeps the transfer invariant |
| Spi0.Round | bcm2835.c:795-809 | each pass of the outer loop reduces the work left, so it ends |
| Spi0.TransferNb | bcm2835.c:776-816 | for any length, FIFO depths and timing: it ends, the wire carries the send buffer, the receive buffer the answers, both bit-reversed if so configured, the rest of memory untouched; buffers may overlap unless the receive buffer begins inside the send buffer and the transfer is longer than the TX FIFO |
| Spi0.OverwriteUnsent | bcm2835.c:795-809 | in that remaining case the driver can overwrite a byte it has not sent yet |
| Spi0.TransferN | bcm2835.c:864-867 | in place: the old contents go out, exactly the answers are left |
| Spi0.TransferLoopedBack | PARTS_TEST/bcm2835-1.63/examples/spin/spin.c:52-55 | with MISO tied to MOSI the buffer reads back what was sent, in either bit order |
| Spi0.LoopedReplies | bcm2835.c:864-867 | such a wire answers every byte with itself |
| Spi0.AwaitRoom | bcm2835.c:840-841 | the wait for TXD, which does not drain, ends all the same |
| Spi0.DropReplies | bcm2835.c:847-848 | drains until the receive FIFO is empty, and ends |
| Spi0.AwaitSent | bcm2835.c:851-858 | the wait for DONE ends with everything on the wire |
| Spi0.WriteNb | bcm2835.c:819-859 | send only: for any length, FIFO depths and timing it ends with exactly the buffer on the wire |
| I2c.Controller.Prepare | bcm2835.c:1290-1295 | FIFO and flags cleared, length truncated to 16 bits |
| I2c.Prefill | bcm2835.c:1296-1302 | before the start exactly the first min(16, len) bytes wait in the FIFO, in order |
| I2c.Controller.Finish | bcm2835.c:1337 | the last write sets the DONE bit in the control register, where it starts no transfer |
| I2c.Refill | bcm2835.c:1308-1317 | in order, never more than 16 waiting, with progress |
| I2c.WriteOutcome | bcm2835.c:1319-1335 | OK means all bytes moved; without bus errors OK exactly if the length fits DLEN |
| I2c.I2cWrite | bcm2835.c:1272-1340 | always ends; an exact prefix of the buffer was pushed; NACK if flagged, else clock-stretch timeout if flagged, else missing data if any, else OK with all of it moved; without errors OK exactly when the length fits DLEN |
| I2c.TakeAll | bcm2835.c:1371-1390 | bytes stored in FIFO order, at most `len`, FIFO empty after DONE |
| I2c.ReadOutcome | bcm2835.c:1384-1407 | after DONE with an empty FIFO: received bytes in bus order, the rest of the buffer as before, OK exactly if the length fits DLEN when no error was flagged |
| I2c.I2cRead | bcm2835.c:1343-1413 | always ends; the received bytes in bus order, the rest of the buffer untouched; reasons as for writing |
| AuxSpi.PackUnpack | bcm2835.c:1033-1038 | a word decodes by its bit-count byte to the bytes packed into it |
| AuxSpi.FramesRoundTrip | bcm2835.c:1027-1053 | for any length the ceil(len/3) frames decode to the buffer, exactly the last going to IO |
| AuxSpi.BuildWord | bcm2835.c:1033-1038 | the shifting loop builds the packed word |
| AuxSpi.NextFrame | bcm2835.c:1032-1046 | one round writes the frame of the next up to three bytes |
| AuxSpi.WriteNb | bcm2835.c:1004-1054 | the words written are the frames of the buffer, or of zeros without one |
| AuxSpi.ReceiveChunk | bcm2835.c:1107-1118 | unpacking inverts right-justified packing of a chunk |
| AuxSpi.ReceiveRoundTrip | bcm2835.c:1103-1123 | the receive loop inverts the same chunking for any length |
| AuxSpi.LoopedBackWord | bcm2835.c:1033-1038 | a transmitted word read back as it is gives the chunk if and only if it is full or all zero |
| AuxSpi.StoreChunk | bcm2835.c:1103-1122 | one word stored at its place, everything else kept |
| AuxSpi.StoreWords | bcm2835.c:1103-1123 | ceil(len/3) words are read, their unpacked bytes stored, nothing beyond `len` |
| AuxSpi.ReadNb | bcm2835.c:1103-1123 | the same, or with a null buffer as many words read and dropped |
| Gpio.Peripheral.SetBits | bcm2835.c:246-251 | only the masked bits of one register change |
| Gpio.SelectedModes | bcm2835.c:275-283 | one call is one update of the mode table; spare bits stay |
| Gpio.ModesDetermineRegisters | bcm2835.c:262-283 | the table and the spare bits determine the registers |
| Gpio.Peripheral.Fsel | bcm2835.c:275-283 | the packed registers take the low three bits of the mode at the pin, all other pins keep theirs |
| Gpio.Peripheral.FselAll | bcm2835.c:275-283 | any series of calls acts as on a plain table |
| Gpio.LastSelectWins | bcm2835.c:275-283 | a pin has its last mode, whatever the order of the other calls |
| Gpio.UnnamedPinKeepsMode | bcm2835.c:275-283 | a pin never named keeps its mode |
| Gpio.Peripheral.SpiBegin | bcm2835.c:674-696 | pins 7 to 11 to ALT0 and the control register cleared, or nothing at all without access |
| Gpio.Peripheral.SpiEnd | bcm2835.c:698-706 | pins 7 to 11 back to input |
| Gpio.SpiSession | bcm2835.c:674-706 | begin then end changes pins 7 to 11 only, to input, and restores the table if and only if they were inputs |
| Gpio.Peripheral.SetPud | bcm2835.c:606-640 | the register update of the Pi 4, or the clocked sequence of older boards |
| Gpio.Peripheral.GetPud | bcm2835.c:643-663 | the code of the stored pull, or the error code |
| Gpio.PullsUpdate | bcm2835.c:606-630 | a named request changes the two bits of its pin and no others |
| Gpio.PudRoundTrip | bcm2835.c:606-663 | on a Pi 4 reading back gives the request exactly for off, up and down, or for the error code over the unused pattern; other pins keep theirs |
| Gpio.RequestedResistor | bcm2835.c:613-620 | request 0 switches the pin's resistor off, 1 pulls down, 2 pulls up |
| Gpio.ReportedResistor | bcm2835.c:653-659 | the codes read back name the resistor in force, 8 the unused pattern |
| Gpio.Peripheral.SetAndGetPud | bcm2835.c:606-663 | the same on the register arrays, for either kind of board |

## Left out

- The fault branch of `Car::Run` and everything it needs (CRIU dump and restore, `fork`, `kill`, `waitpid`): what it does to shared memory is not visible in the source. `SaveState` is an event.
- The requests to nanosleep are recorded as numbers; a delay too long for its nanosecond field makes it fail, which the model lets it do at any time.
- What `costtime` and `gettimeofday` do, and the unit checkpoint interval: whether an interval has run out is a free choice at every unit check.
- `times += 1` and the `stage` update are single steps: each has one writer only.
- PipelineShutdown.ServoCanExit: gives one run; nothing is said about how likely it is.
- IEEE rounding, infinities and NaN: doubles and floats are reals. A quotient by a zero time is one value, `NotFinite`, without sign.
- MiniPidLaws.ResetIsRenewal: `setI` with a zero gain is taken to change nothing where the source would divide by zero.
- MiniPidLaws.FilteredLimit: limits with min < max only; without output limits there is nothing to stay inside.
- `setP`, `setD`, `setF`, the four-argument `setPID` and the one-argument limits: compositions of what is there.
- Pca9685.Chip.constructor: power-up contents of the real chip are unspecified; the model starts from zero registers, and every result holds from any contents.
- `pca9685Setup`, `pca9685PWMFreq` and the read functions of pca9685.c: they touch no channel register.
- Waiting and flag clearing in `ServoPID::WaitNeededNewData` and `ThrottlePID::WaitNeededNewData` of `recovery`: any order of the two processes and of sensor writes is an event sequence of `Vehicle.Drive`.
- The RGB channels of `Pca`: three more `pwmWrite` calls.
- The parity and error handling inside the AS5048 sensor read: a reading is any integer, negative for failure.
- Spi0.TransferNb: nothing is claimed for a receive buffer beginning inside the send buffer when the transfer is longer than the TX FIFO; `Spi0.OverwriteUnsent` shows why.
- `spi_transfer` and `spi_write`: transfers of one byte and of two.
- `i2c_write_read_rs` and `i2c_read_register_rs`: their repeated start depends on real delays.
- AuxSpi.WriteNb: the waits for TX_FULL and BUSY and the dummy reads of IO are not modelled; they change nothing that is written.
- The driver loop around `AuxSpi.ReadNb`: its polls of BUSY need device timing the source does not state.
- MiniPid.Controller.SetI: a gain of 0 where the source divides by it is excluded; the quotient is not a real.
- SystemTimer.Timer.StDelay: without access to the timer it would loop for ever on a reading of 0, so access or a zero sum is required; `delayMicroseconds` never gets there without it.
- SystemTimer.Timer.Readings: the class counter ends before its 64-bit wrap, some 584000 years after power-up; `Linearizable` covers the wrap.
- Gpio.Peripheral.Fsel: pins 0 to 59, the fields of the six registers; a larger number addresses other registers of the block, which do not behave like memory.
- Gpio.Peripheral.FselAll: the same.
- Gpio.Peripheral.SetPud: pins 0 to 63, the fields of the four registers; a larger number addresses what lies behind them.
- Gpio.Peripheral.GetPud: the same.
- Gpio.Peripheral.SetAndGetPud: the same.
- `gpio_pud` and `gpio_pudclk` by themselves, set and clear registers, event detection, pads, PWM: single register writes.
- Memory barriers, debug printing, device-tree probing and memory mapping.
- Lane detection, image processing and camera access: calls into OpenCV and raspicam.
- The copies of the drivers under `recovery/lib` and `PARTS_TEST`: modelled once.
