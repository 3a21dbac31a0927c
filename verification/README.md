# SmartLock decision logic in Dafny

A model of the firmware of a keypad/Bluetooth door lock on a KL27Z board. The
application (`SmartLock.c`) is a six-state machine that an endless loop
dispatches through a table of state functions. An attempt starts in
`eSTATE_ZERO`, which compares the four-slot credential buffer with the stored
password `{1, 2, 3, 4}`:

- An accepted attempt clears the consecutive-error counter and gives the accept
  feedback (high tone, green LED). It then pulses the solenoid latch relay.
- A rejected attempt gives the reject feedback (low tone, red LED) and counts one
  more error in an 8-bit counter.

A lockout policy is written into the two deciding states but compiled out with
`#if 0`. Under it, three consecutive errors engage the window-lock motor. As
written, nothing ever releases it (see below).

Four driver components feed the state machine, and the model follows them:

- the credential input (`Password.c`): the comparison, the receive-interrupt
  handler that fills the buffer with a wrapping cursor, and the 4x3 keypad scan;
- the actuator sequencer (`Control.c`): open-loop clear/hold/set pulses on
  active-low outputs and the `inLockdown` flag;
- the feedback signaler (`Indicators.c`): the tone period, the tone on, three
  blinks, the tone off;
- the board itself (GPIO, tone timer, serial transmitter, busy-wait delay).

The board is reduced to the `Hardware.Board` class. It tracks which pins are
outputs, the tone timer's enable bit and period, and an ordered trace of every
observable event (set/clear/write of a pin, a wait, a new tone period, a tone
toggle, a byte sent).

Modules:

- `Hardware`: the board class, the event type, and the trace measures `Level`,
  `Count` and `Untouched` with their append lemmas.
- `Password`: the `CredentialInput` class (the `pinData` array and the
  `dataIndex` cursor), the pure `Receive`/`Feed` specification of the buffer,
  and the keypad scan specified by `Scan`/`ScanTrace`.
- `Control`: the `Actuators` class holding `inLockdown`. Each operation is
  specified by a pure `...Effect` function.
- `Indicators`: the feedback sequences, produced by the same loop as the source
  and specified by `Feedback`.
- `SmartLock`: the state machine.
  - `Next` gives one dispatch, `ActionOf`/`Effects` what it does, and
    `Execute`/`Actions` a run of dispatches.
  - The `Controller` class has one method per state function, `Step` for one pass
    of the main loop and `Run` for a bounded prefix of the endless loop.
  - `lockoutEnabled` selects the compiled-out lockout branch.

Where the code and its comments disagree, the model follows the code:

- The comment on `Control_bfnCorrectPin` (Control.c:70-75) says that its lockdown
  branch unlocks the window pin. The code pulses the *forward* (engage) output
  and assigns `TRUE` again, so the flag never changes
  (`Control.CorrectPinAlwaysPulsesLatch`). With the lockout branch switched on,
  an engaged window lock is therefore never released by an accepted attempt.
- The compiled-out branch of `vfnStateOneCorrect` tests the application's own
  `inLockdown` (SmartLock.c:90). Nothing ever assigns that variable, so
  `eSTATE_TWO_LOCKDOWN_OFF` can never be taken, even with the branch switched
  on (`SmartLock.ReleaseNeverRuns`).

## Model

| member | source | states |
|---|---|---|
| Hardware.Board.PortInit | SmartLock/source/3_HAL/GPIO.c:56-66 | the direction bit is OR-ed in: configuring an output adds the pin to the outputs, and configuring an input never removes one |
| Hardware.Board.SetData | SmartLock/source/3_HAL/GPIO.c:75-86 | succeeds exactly when the pin is an output; only then is a set event emitted |
| Hardware.Board.ClearData | SmartLock/source/3_HAL/GPIO.c:116-127 | succeeds exactly when the pin is an output; only then is a clear event emitted |
| Hardware.Board.WriteData | SmartLock/source/3_HAL/GPIO.c:157-175 | succeeds exactly when the pin is an output; only then is the level written |
| Hardware.Board.ReadData | SmartLock/source/3_HAL/GPIO.c:96-107 | succeeds exactly when the pin is not an output; the value is the sensed level on success and 0 (the caller's initial value) otherwise |
| Hardware.Board.Delay | SmartLock/source/4_SL/serviceLayer.c:23-29 | the busy-wait appends one wait event of the given length and changes nothing else |
| Hardware.Board.PwmInit | SmartLock/source/3_HAL/PWM.c:97-117 | the tone timer starts with modulus 1001 and its counter is left stopped |
| Hardware.Board.ChangeCounter | SmartLock/source/3_HAL/PWM.c:156-179 | the modulus becomes the new period and always reads back equal, so the call reports success |
| Hardware.Board.ToggleSignal | SmartLock/source/3_HAL/PWM.c:185-188 | the counter-enable bit is inverted |
| Hardware.Board.UartSend | SmartLock/source/3_HAL/UART.c:215-226 | the byte is sent, and success reported, exactly when the transmitter is ready |
| Password.Matches | SmartLock/source/2_HIL/Password.c:125-139 | the comparison accepts a candidate if and only if it equals the stored password [1, 2, 3, 4] |
| Password.SingleMismatchRejects | SmartLock/source/2_HIL/Password.c:130-136 | one wrong symbol in any of the four slots rejects the candidate |
| Password.CredentialInput.IsCorrect | SmartLock/source/2_HIL/Password.c:125-139 | the slot-by-slot loop with a flag accumulator returns true exactly when the buffer matches the stored password; it modifies nothing |
| Password.CredentialInput.constructor | SmartLock/source/2_HIL/Password.c:78-97 | the buffer starts zeroed with the cursor on slot 0 |
| Password.NextCursor | SmartLock/source/2_HIL/Password.c:289-296 | the cursor stays in [0, 4) and advances by one modulo 4 |
| Password.Receive | SmartLock/source/2_HIL/Password.c:283-298 | a failed read changes neither buffer nor cursor; a received byte lands in the slot under the cursor, the cursor advances modulo 4, and every other slot is unchanged |
| Password.CredentialInput.ReadVal | SmartLock/source/2_HIL/Password.c:283-298 | the handler's new buffer and cursor are `Receive` of the old ones; a confirmation byte is sent only for a received byte with the transmitter ready |
| Password.FeedCursor | SmartLock/source/2_HIL/Password.c:289-296 | after n received bytes the cursor has moved n slots modulo 4 |
| Password.FeedKeepsLastFour | SmartLock/source/2_HIL/Password.c:285-296 | each of the last four bytes received sits in the slot the cursor pointed to when it arrived |
| Password.WirelessEntryAccepted | SmartLock/source/2_HIL/Password.c:283-298 | sending 1, 2, 3, 4 from cursor 0 leaves exactly the stored password, which is accepted, with the cursor back on 0 |
| Password.WirelessWrongDigitRejected | SmartLock/source/2_HIL/Password.c:125-139 | sending 1, 2, 9, 4 from cursor 0 is rejected |
| Password.ScanRow | SmartLock/source/2_HIL/Password.c:198-206 | returns the first active column of a row at or after the start column, or none when no column in that range is active |
| Password.Scan | SmartLock/source/2_HIL/Password.c:191-212 | returns the first active cell in row-major order, inside the 4x3 grid; none exactly when no cell is active |
| Password.ScanFinds | SmartLock/source/2_HIL/Password.c:195-204 | an active cell with every earlier cell inactive is the one the scan reports |
| Password.ScanLeavesRowsLow | SmartLock/source/2_HIL/Password.c:197-207 | every row the scan drove high is low again afterwards, and rows not reached keep their level |
| Password.KeyOf | SmartLock/source/2_HIL/Password.c:149-163 | the key character is 0 exactly when no in-grid cell was found |
| Password.KeysDistinct | SmartLock/source/2_HIL/Password.c:58-63 | different cells map to different characters in the keypad table |
| Password.MatrixPortInit | SmartLock/source/2_HIL/Password.c:169-182 | the four row pins become outputs; the three column pins are left as inputs |
| Password.MatrixRead | SmartLock/source/2_HIL/Password.c:191-212 | the nested loops report a hit exactly when `Scan` finds a cell, and return that cell; with no hit, row and column keep their exit values 4 and 3; the trace is each row driven on then off, up to the row of the hit |
| Password.GetChar | SmartLock/source/2_HIL/Password.c:149-163 | returns the keypad character of the first active cell, or 0 when no key is pressed |
| Control.CorrectPinEffect | SmartLock/source/2_HIL/Control.c:77-94 | releasing the latch always reports success and never changes the lockdown flag, and it never drives the release output PB1 |
| Control.LockdownOnEffect | SmartLock/source/2_HIL/Control.c:103-119 | engaging leaves the flag set; it succeeds exactly when the flag was clear, emits nothing when it fails, and never drives PB1 or the latch relay |
| Control.LockdownOffEffect | SmartLock/source/2_HIL/Control.c:127-143 | releasing leaves the flag clear; it succeeds exactly when the flag was set, emits nothing when it fails, and never drives PB0 or the latch relay |
| Control.PulseShape | SmartLock/source/2_HIL/Control.c:108-110 | a pulse on a configured pin is exactly clear, hold, set: one clear and one set of that pin, ending at the inactive high level and driving no other pin |
| Control.PulseDrivesOnlyItsPin | SmartLock/source/2_HIL/Control.c:80-82 | a pulse, whether or not its pin is configured, never drives another pin |
| Control.CorrectPinAlwaysPulsesLatch | SmartLock/source/2_HIL/Control.c:77-94 | whatever the flag, releasing the latch succeeds, keeps the flag, and starts with exactly one clear-hold-set pulse of PA12, which ends inactive |
| Control.EngageIsIdempotent | SmartLock/source/2_HIL/Control.c:103-119 | engaging always leaves the flag set, and a second engage reports failure, emits nothing and leaves the flag set |
| Control.ReleaseWhenClearIsNoOp | SmartLock/source/2_HIL/Control.c:127-143 | releasing when not engaged reports failure, emits nothing and leaves the flag clear |
| Control.EngageThenRelease | SmartLock/source/2_HIL/Control.c:103-143 | from a clear flag, engage then release both succeed and restore the clear flag; engage pulses PB0 and release pulses PB1 |
| Control.Actuators.constructor | SmartLock/source/2_HIL/Control.c:39 | the lockdown flag starts clear |
| Control.Actuators.DriverInit | SmartLock/source/2_HIL/Control.c:50-69 | PB0, PB1, PA12 and PE25 become outputs, then PB0, PB1 and PA12 are set to their inactive level, in that order |
| Control.Actuators.PulsePin | SmartLock/source/2_HIL/Control.c:80-82 | one clear, a wait of 2000000, one set |
| Control.Actuators.CorrectPin | SmartLock/source/2_HIL/Control.c:77-94 | result, new flag and emitted events are those of `CorrectPinEffect` on the old flag |
| Control.Actuators.LockdownOn | SmartLock/source/2_HIL/Control.c:103-119 | result, new flag and emitted events are those of `LockdownOnEffect` on the old flag |
| Control.Actuators.LockdownOff | SmartLock/source/2_HIL/Control.c:127-143 | result, new flag and emitted events are those of `LockdownOffEffect` on the old flag |
| Indicators.Feedback | SmartLock/source/2_HIL/Indicators.c:43-58 | a feedback sequence sets the pitch first, then switches the tone on, and switching the tone off is its last event |
| Indicators.BlinksLeaveToneAlone | SmartLock/source/2_HIL/Indicators.c:48-55 | the blink loop never toggles the tone |
| Indicators.BlinksStayOnTheirLed | SmartLock/source/2_HIL/Indicators.c:48-55 | the blink loop never drives a pin other than its LED |
| Indicators.BlinkCycleShape | SmartLock/source/2_HIL/Indicators.c:50-54 | one iteration sets the configured LED once, clears it once and leaves it off |
| Indicators.BlinksCount | SmartLock/source/2_HIL/Indicators.c:48-55 | n iterations set and clear the LED n times each and leave it off |
| Indicators.FeedbackTogglesToneTwice | SmartLock/source/2_HIL/Indicators.c:43-58 | each feedback sequence toggles the tone exactly twice, so the tone ends as it started |
| Indicators.FeedbackBlinksThreeTimes | SmartLock/source/2_HIL/Indicators.c:43-58 | each feedback sequence sets and clears its LED exactly three times and leaves it off |
| Indicators.FeedbackTouchesOnlyItsLed | SmartLock/source/2_HIL/Indicators.c:68-83 | a feedback sequence never drives any pin but its own LED, so the accept sequence leaves the red LED alone and the reject sequence the green one |
| Indicators.DriverInit | SmartLock/source/2_HIL/Indicators.c:24-33 | PA1 and PA2 become outputs and the tone timer gets its initial modulus |
| Indicators.Signal | SmartLock/source/2_HIL/Indicators.c:43-58 | the shared loop emits exactly `Feedback`: the new period, a toggle, three blinks, a toggle; the tone ends in its old on/off state with the new period |
| Indicators.CorrectPin | SmartLock/source/2_HIL/Indicators.c:43-58 | returns 1 and emits the feedback sequence with period 500 on PA1 |
| Indicators.WrongPin | SmartLock/source/2_HIL/Indicators.c:68-83 | returns 1 and emits the feedback sequence with period 1000 on PA2 |
| SmartLock.Next | FinalDelivery/2_Source/1_APP/SmartLock.c:152-253 | every dispatch changes the state; without the lockout branch no dispatch enters a lockdown state; only ZERO records the verdict, only the two deciding states change the counter, only the lockdown states change the actuator flag, and the application's lockdown copy never changes |
| SmartLock.ActionOf | FinalDelivery/2_Source/1_APP/SmartLock.c:112-119 | the dispatched state gives feedback exactly in ONE_CORRECT and ONE_WRONG, green exactly in ONE_CORRECT, and each actuator operation sees the current lockdown flag |
| SmartLock.Effects | FinalDelivery/2_Source/1_APP/SmartLock.c:152-253 | only the feedback sequences touch the tone, and the actuator operations never drive an LED |
| SmartLock.PeriodAfter | FinalDelivery/2_Source/1_APP/SmartLock.c:137-140 | after a run the tone period is that of the last feedback sequence in it, or unchanged when there was none |
| SmartLock.PeriodAfterOneMore | FinalDelivery/2_Source/1_APP/SmartLock.c:139 | one more action after a run retunes the tone exactly when it is a feedback sequence |
| SmartLock.Index | FinalDelivery/2_Source/1_APP/SmartLock.c:67-75 | each state's enumerator is a valid index into the dispatch table, and the table holds that state there |
| SmartLock.DispatchIsOneToOne | FinalDelivery/2_Source/1_APP/SmartLock.c:112-119 | the table has six entries and every index dispatches to the state it encodes |
| SmartLock.ExecuteAppend | FinalDelivery/2_Source/1_APP/SmartLock.c:137-140 | running two batches of dispatches is running the second from where the first ended |
| SmartLock.ActionsAppend | FinalDelivery/2_Source/1_APP/SmartLock.c:137-140 | the actions of two batches are those of the first followed by those of the second |
| SmartLock.FlattenAppend | FinalDelivery/2_Source/1_APP/SmartLock.c:137-140 | the events of two runs of actions are those of the first followed by those of the second |
| SmartLock.FlattenUntouched | FinalDelivery/2_Source/1_APP/SmartLock.c:137-140 | a pin that no action of a run drives is not driven by the run |
| SmartLock.OneMoreDispatch | FinalDelivery/2_Source/1_APP/SmartLock.c:139 | one more pass of the loop takes one more `Next` step, adds the reached state's action, and appends its events |
| SmartLock.ZeroDecides | FinalDelivery/2_Source/1_APP/SmartLock.c:152-163 | from ZERO the next state is ONE_CORRECT if and only if the password matched, and ONE_WRONG if and only if it did not; nothing is emitted and neither counter nor flags change |
| SmartLock.AcceptedAttempt | FinalDelivery/2_Source/1_APP/SmartLock.c:152-227 | an accepted attempt (no pending window release) takes three dispatches back to ZERO with the counter cleared; its actions are the check, the accept feedback and the latch release |
| SmartLock.AcceptedAttemptEvents | FinalDelivery/2_Source/1_APP/SmartLock.c:173-227 | the events of an accepted attempt pulse the latch relay exactly once, leave it inactive and never drive the red LED |
| SmartLock.RejectedAttempt | FinalDelivery/2_Source/1_APP/SmartLock.c:199-214 | a rejected attempt that does not trigger the lockout takes two dispatches back to ZERO with one more error counted modulo 256; its actions are the check and the reject feedback |
| SmartLock.RejectedAttemptEvents | FinalDelivery/2_Source/1_APP/SmartLock.c:199-214 | a rejected attempt drives no pin but the red LED: latch, motor and green LED are left alone |
| SmartLock.LockingRejection | FinalDelivery/2_Source/1_APP/SmartLock.c:203-212 | with the lockout policy on, the rejection that brings the counter to 3 or more engages the window lock on the way back to ZERO |
| SmartLock.RejectionsAccumulate | FinalDelivery/2_Source/1_APP/SmartLock.c:199-214 | k rejected attempts below the lockout threshold return to ZERO with the counter advanced by k modulo 256 |
| SmartLock.RejectionsOnlySignal | FinalDelivery/2_Source/1_APP/SmartLock.c:199-214 | those k attempts perform 2k actions, each a check or the reject feedback: the latch is never released |
| SmartLock.CounterWrapsAfter256 | FinalDelivery/2_Source/1_APP/SmartLock.c:201 | the 8-bit counter wraps: 256 more rejections bring it back to the same value |
| SmartLock.LockoutAfterThreeRejections | FinalDelivery/2_Source/1_APP/SmartLock.c:203-212 | with the lockout policy on, the rejection that brings the counter to three returns to ZERO with three errors and the window lock engaged |
| SmartLock.LockoutActions | FinalDelivery/2_Source/1_APP/SmartLock.c:203-240 | on the way there the only actuator operation is one engage, as the last action |
| SmartLock.ShippedStaysOrdinary | FinalDelivery/2_Source/1_APP/SmartLock.c:173-213 | in the shipped build, from outside the lockdown states and with the lock released, no run ever reaches a lockdown state or engages the lock, and every action leaves the motor alone |
| SmartLock.QuietLeavesMotorAlone | FinalDelivery/2_Source/1_APP/SmartLock.c:223-227 | the check, both feedback sequences and the latch release with the flag clear never drive the motor outputs |
| SmartLock.ShippedLeavesMotorAlone | FinalDelivery/2_Source/1_APP/SmartLock.c:137-140 | in the shipped build no event of any run drives PB0 or PB1 |
| SmartLock.ReleaseNeverRuns | FinalDelivery/2_Source/1_APP/SmartLock.c:178-187 | the lockdown-release state is unreachable even with the lockout policy on, because the application's own lockdown copy is never set |
| SmartLock.NextAsWritten | FinalDelivery/2_Source/1_APP/SmartLock.c:173-214 | as written, ONE_CORRECT always goes on to TWO_CORRECT and ONE_WRONG always back to ZERO, so no dispatch enters a lockdown state, whatever the branch switch |
| SmartLock.LockoutBranchAsWrittenIsDead | FinalDelivery/2_Source/1_APP/SmartLock.c:178-213 | with `#if 0` switched on as written, every dispatch is the shipped one |
| SmartLock.ThirdErrorAsWrittenDoesNotLock | FinalDelivery/2_Source/1_APP/SmartLock.c:203-213 | on the third consecutive error the intended machine goes to TWO_LOCKDOWN_ON, while the code as written goes back to ZERO |
| SmartLock.Controller.constructor | FinalDelivery/2_Source/1_APP/SmartLock.c:84-96 | the machine starts in ZERO with no errors and both application flags clear |
| SmartLock.Controller.InitDrivers | FinalDelivery/2_Source/1_APP/SmartLock.c:129-131 | keypad, indicator and actuator initialisation in that order: rows, LEDs and actuator pins become outputs, the actuators are set inactive, and the tone timer is initialised |
| SmartLock.Controller.StateZero | FinalDelivery/2_Source/1_APP/SmartLock.c:152-163 | records the password verdict and moves to ONE_CORRECT on a match, ONE_WRONG otherwise |
| SmartLock.Controller.StateOneCorrect | FinalDelivery/2_Source/1_APP/SmartLock.c:173-189 | clears the counter, emits the accept feedback once, and moves to TWO_CORRECT (or, under the lockout policy with the application's lockdown copy set, TWO_LOCKDOWN_OFF) |
| SmartLock.Controller.StateOneWrong | FinalDelivery/2_Source/1_APP/SmartLock.c:199-214 | counts one more error modulo 256, emits the reject feedback once, and moves to ZERO (or, under the lockout policy with three or more errors, TWO_LOCKDOWN_ON) |
| SmartLock.Controller.StateTwoCorrect | FinalDelivery/2_Source/1_APP/SmartLock.c:223-227 | runs the latch release once and returns to ZERO |
| SmartLock.Controller.StateTwoLockdownOn | FinalDelivery/2_Source/1_APP/SmartLock.c:236-240 | runs the engage operation once and returns to ZERO |
| SmartLock.Controller.StateTwoLockdownOff | FinalDelivery/2_Source/1_APP/SmartLock.c:249-253 | runs the release operation once and moves to TWO_CORRECT |
| SmartLock.Controller.Step | FinalDelivery/2_Source/1_APP/SmartLock.c:139 | one table dispatch: the state variable stays a valid index, the new configuration is `Next` of the old one, and the trace grows by exactly the events of the old state's action; the tone's on/off state is kept and its period is retuned only by a feedback state |
| SmartLock.Controller.Run | FinalDelivery/2_Source/1_APP/SmartLock.c:137-140 | n passes of the loop reach `Execute` of the start configuration and emit exactly the events of its actions; the tone ends in its old on/off state, with the period of the last feedback given (`PeriodAfter`); in the shipped build, starting outside the lockdown states, the window motor is never driven |

## Left out

- Register-level peripheral set-up and access is not modelled (clock gating, pin
  muxing, TPM and LPUART registers). The board is the abstract `Board` class,
  and a busy-wait is a single wait event of the requested length.
- `Password_vfnDriverInit` is not modelled beyond the keypad part it calls:
  `UART_vfnDriverInit` and the callback registration are register set-up.
- The interrupt wiring and the race between `readVal` and the main loop are left
  out. `ReadVal` runs as one atomic step, and `Run` takes the buffer as it stands
  for its whole run.
- Debug `printf` output, and the clearing of framing and overrun flags inside the
  serial read, are left out. A byte read with a framing error is still stored,
  as in the source.
- The numeric key table of the `#else` branch (Password.c:65-70) is not modelled.
  `AS_CHAR` is defined, so the character table is the one compiled in.
- Nothing in the core pulses the lightbulb relay (PE25). It is only configured
  as an output.
- The endless main loop is modelled by `Run` for any finite number of passes.
  The verdict is fixed for the run, because the buffer only changes from the
  interrupt.
- The tone timer's PWM waveform (duty cycle, prescaler) is not modelled. Only
  its period and on/off state are.

## Findings

| source | as written | input that shows it | evidently intended | confidence | as-written member | corrected member |
|---|---|---|---|---|---|---|
| FinalDelivery/2_Source/1_APP/SmartLock.c:203-213 | the lockout branch inside `#if 0` chooses the next state, but the unconditional `*stateVar = eSTATE_ZERO;` after `#endif` overwrites it; the ONE_CORRECT branch (lines 178-188) is overwritten the same way, so switching the branch on changes nothing | counter at 2, state ONE_WRONG, branch enabled: the branch picks TWO_LOCKDOWN_ON and the next line replaces it with ZERO, so the lock is never engaged | the branch's choice stands: the third consecutive error engages the window lock | high, not executed | SmartLock.ThirdErrorAsWrittenDoesNotLock | SmartLock.LockoutAfterThreeRejections |
