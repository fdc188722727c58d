# RotorRig firmware core, modelled in Dafny

RotorRig is a motor and propeller test stand. The firmware drives a brushless
ESC over bidirectional DShot and reads thrust from an HX711 load cell. It
keeps the load-cell calibration in EEPROM and runs timed throttle programs. It
takes commands over a serial console. A host-side monitor filter cuts the
console output into CSV session files.

This project models the parts of that system that hold its safety and timing
rules, and proves what those rules promise:

- `Esc` (`EscBdshot`) ramps the throttle toward its target. It sends a DShot
  command at a fixed period, caches the last eRPM reading and latches the
  RPM_TIMEOUT failsafe. The clocks and the driver's reading are parameters of
  the tick; the driver is a sink that records every command it gets.
- `HxWindow` and `Hx711` (`SensorsHx711`) cover the load-cell path:
  - the 12-slot ring of raw counts and its oldest-first view;
  - the in-place insertion sort (module `Sorting`) and the integer trimmed
    mean;
  - the noise figures;
  - the tare and calibration handshakes;
  - the rule that every calibration change empties the window.
- `Storage` (`CalStorage`) holds the 24-byte calibration record in a 128-byte
  EEPROM image. The record is checked by a magic number, a version, its size
  and the CRC-32 of IEEE 802.3 (section 3.2.9, the frame check sequence, in
  its reflected form 0xEDB88320). `Float32` decodes the stored `float` scale
  from its four bytes.
- `Autotest` (`AutoTest`) runs a program of at most 32 throttle steps. It
  keeps a steady flag, steps on elapsed milliseconds, and returns to 0 % with
  a ramp at the end.
- `CommandLine` (`CLI`) and `Tokenizer` cover the console:
  - line assembly and the space tokenizer;
  - the command dispatcher;
  - the soft stop bounded by a 6 s timeout;
  - the CORE2 sequencer that chains two runs with a gap.

  It composes the ESC and the step runner. The load-cell commands come back
  as requests for the caller to apply.
- `CsvRows` and `CsvLogger` (`RotorRigCsvLogger`) model the host filter:
  - `strip_prefix` and the integer and float token grammars;
  - the 24-column record check;
  - the `rx` loop, which reassembles lines and opens and closes a session
    file on `OK LOG 1` / `OK LOG 0`.

  Files are modelled by the lines they hold.
- `Common` holds what these modules share: 32-bit wrap-safe elapsed time,
  clamping, two's-complement wrap-around, C's truncating division, and the
  float-to-unsigned cast.

Where the code does something by changing state, the model is a class with
the source's fields, arrays and `modifies` clauses. Each method is proved
against a function of the old state, and the properties are proved about
those functions as lemmas. Pure code is modelled as functions.

Two behaviours of the code to note:

- The trimmed mean drops `n * trim / 100` samples from each end
  (firmware/src/sensors_hx711.cpp:208). It keeps every sample when the
  trimmed span would be empty, so the median branch is never reached.
- `_looks_like_csv` is not total. It checks the columns in order and
  returns False at the first cell that fails. With `fields` from 1 to 23, a
  row of that many cells raises `IndexError` when every column checked
  before the first missing index passes. With 1 to 3 fields, that is every
  such row whose first cell is an integer. With `fields` at 0 or below no
  row matches the count, so nothing is raised. The `IndexError` escapes
  `rx`; the model carries it as `raised`.

## Model

| member | source | states |
|---|---|---|
| Common.Clamp | firmware/src/esc_bdshot.cpp:8-12 | the result lies in [lo, hi]; a value already inside is kept, one outside becomes the nearer bound |
| Common.ElapsedU32 | firmware/src/esc_bdshot.cpp:101 | the unsigned 32-bit difference is `now - t0`, plus 2^32 when the counter has wrapped in between |
| Common.ElapsedAfterWrap | firmware/src/autotest.cpp:5 | wrap-safety: every elapsed time below 2^32 ms is recovered exactly, across a counter wrap or not |
| Common.ElapsedUsLow32 | firmware/src/esc_bdshot.cpp:114 | the 64-bit microsecond difference cut to 32 bits is the true difference whenever that is below 2^32 |
| Common.WrapI32 | firmware/src/sensors_hx711.cpp:150 | an `int32_t` subtraction keeps an in-range value and otherwise wraps modulo 2^32 |
| Common.DivTruncBetween | firmware/src/sensors_hx711.cpp:218 | a mean taken with C's truncating division stays between the bounds of the values averaged |
| Common.TruncToU32 | firmware/src/autotest.cpp:60 | the float-to-`uint32_t` cast truncates toward zero on every value that fits |
| Float32.Decode | firmware/src/sensors_hx711.cpp:152 | a binary32 pattern is finite exactly when its exponent is not 255; its magnitude is that of the encoding and its sign is the sign bit |
| Float32.ClearSign | firmware/src/sensors_hx711.cpp:120 | clearing the sign bit keeps exponent and mantissa |
| Float32.ClearSignIsAbs | firmware/src/sensors_hx711.cpp:120 | `fabsf` of a finite value is its absolute value |
| Float32.NegativeIsSignBit | firmware/src/sensors_hx711.cpp:119 | a finite non-zero value is below zero exactly when its sign bit is set |
| Float32.OneIsOne | firmware/src/storage.h:6 | the default scale pattern decodes to 1.0 |
| Float32.DivBy | firmware/src/sensors_hx711.cpp:152 | dividing by a finite non-zero scale is real division; by NaN gives NaN; by zero gives NaN exactly for 0/0 |
| Esc.Initial | firmware/src/esc_bdshot.h:39-61 | the initial controller is idle, unlatched with reason OK, at rate 9999, with an empty telemetry cache, and keeps the invariant |
| Esc.RampRate | firmware/src/esc_bdshot.cpp:72-73 | the rate is 9999 for a non-positive ramp time, else the one that covers 100 % in `ramp_s` seconds |
| Esc.PctToDshot | firmware/src/esc_bdshot.cpp:76-82 | the command is at most 2000 and is 20 times the clamped percentage rounded half up: `cmd - 0.5 <= 20p < cmd + 0.5` |
| Esc.PctToDshotEnds | firmware/src/esc_bdshot.cpp:76-82 | 0 % maps to command 0 and 100 % to 2000 |
| Esc.PctToDshotMonotone | firmware/src/esc_bdshot.cpp:76-82 | a higher percentage never gives a lower command |
| Esc.RampStep | firmware/src/esc_bdshot.cpp:100-110 | one ramp step lands between the old value and the target, moves by at most `rate * dt`, snaps onto the target when it is within reach, and otherwise closes the gap by exactly `rate * dt` |
| Esc.Telemetry | firmware/src/esc_bdshot.cpp:139-175 | rpm is the eRPM over the pole pairs when valid and 0 otherwise; the error is 0 or 100, and unknown before any telemetry |
| Esc.TelemetryCases | firmware/src/esc_bdshot.cpp:139-175 | near idle with a cache older than 250 ms nothing is shown; otherwise the cached eRPM, with rpm valid exactly when it is positive, and an error of 100 past the 500 ms timeout and 0 within it |
| Esc.InitialTelemetryUnknown | firmware/src/esc_bdshot.h:55-57 | before any reading the telemetry is empty: no eRPM, no rpm, unknown error |
| Esc.SetTargetClamps | firmware/src/esc_bdshot.cpp:68-74 | the target always lands in [0, 100] and equals an in-range request; the rate is 9999 or `100 / ramp_s`; the current throttle is untouched |
| Esc.SetPolePairsNeverZero | firmware/src/esc_bdshot.h:14 | the stored pole-pair count is never 0: a 0 becomes 1, anything else is kept |
| Esc.StopNowResets | firmware/src/esc_bdshot.cpp:43-66 | `stopNow` zeroes both percentages, sets rate 9999, clears the latch and the cache, and sends command 0 exactly once when the driver exists |
| Esc.StopNowTelemetry | firmware/src/esc_bdshot.cpp:139-172 | after `stopNow` the telemetry shows no rotation and an unknown error |
| Esc.TickPreservesInv | firmware/src/esc_bdshot.cpp:90-137 | a tick keeps both percentages in [0, 100], a positive rate and pole-pair count, the reason agreeing with the latch, and only commands up to 2000 on the wire |
| Esc.TickWhileLatched | firmware/src/esc_bdshot.cpp:95-99 | while latched a tick forces current and target to 0 and keeps the latch with reason RPM_TIMEOUT |
| Esc.TickKeepsLatch | firmware/src/esc_bdshot.cpp:131-136 | no tick ever clears the latch |
| Esc.TickLatchesOnlyWhenDue | firmware/src/esc_bdshot.cpp:131-136 | a tick latches exactly when telemetry was seen, the cache is older than 500 ms and the throttle is above 3 % |
| Esc.TickRamps | firmware/src/esc_bdshot.cpp:100-110 | unlatched, a tick keeps the target and moves the throttle one ramp step toward it, never past it |
| Esc.TickSendGate | firmware/src/esc_bdshot.cpp:112-129 | a command is sent and telemetry pulled only once 1000 µs have passed; the cache, the seen flag and the cache time change only on a positive reading |
| Esc.NoLatchAfterClear | firmware/src/esc_bdshot.cpp:43-53 | the tick straight after `clearFailsafe` or `stopNow` never latches, whatever the time and the reading |
| Esc.Apply | firmware/src/esc_bdshot.cpp:20-137 | every public operation of the controller keeps its invariant |
| Esc.Run | firmware/src/esc_bdshot.cpp:20-137 | any sequence of operations keeps the invariant |
| Esc.LatchHoldsUntilCleared | firmware/src/esc_bdshot.cpp:95-99 | once latched, the failsafe survives every sequence of operations that contains no explicit clear; the throttle running when it latched lasts until the first tick with a driver attached and is zero from then on |
| Esc.EscBdshot.constructor | firmware/src/esc_bdshot.h:39-61 | a new controller is in the initial state |
| Esc.EscBdshot.Begin | firmware/src/esc_bdshot.cpp:20-41 | `begin` attaches the driver, zeroes both percentages, sets rate 9999, restarts the ramp, send and telemetry clocks, forgets the cached eRPM and clears the failsafe; it sends no command; the invariant is kept |
| Esc.EscBdshot.SetPolePairs | firmware/src/esc_bdshot.h:14 | the object changes as the zero-guarded pole-pair step says |
| Esc.EscBdshot.PolePairs | firmware/src/esc_bdshot.h:15 | the reported pole-pair count is at least 1 |
| Esc.EscBdshot.ClearFailsafe | firmware/src/esc_bdshot.cpp:43-53 | the object changes as the clear step says: latch and cache cleared, nothing else |
| Esc.EscBdshot.StopNow | firmware/src/esc_bdshot.cpp:55-66 | the object changes as the stop step says |
| Esc.EscBdshot.SetTargetThrottlePct | firmware/src/esc_bdshot.cpp:68-74 | the object changes as the clamped set-target step says |
| Esc.EscBdshot.ApplyThrottleInternal | firmware/src/esc_bdshot.cpp:84-88 | exactly one command goes to the driver when it exists, none otherwise |
| Esc.EscBdshot.TickFast | firmware/src/esc_bdshot.cpp:90-137 | the object changes as the three-phase tick says, and keeps the invariant |
| Esc.EscBdshot.RampPhase | firmware/src/esc_bdshot.cpp:95-110 | the ramp section: forced to zero when latched, else one ramp step |
| Esc.EscBdshot.SendPhase | firmware/src/esc_bdshot.cpp:112-129 | the send-and-pull section, gated on the send period |
| Esc.EscBdshot.LatchPhase | firmware/src/esc_bdshot.cpp:131-136 | the failsafe section: latch when due, else unchanged |
| Esc.EscBdshot.CurrentThrottlePct | firmware/src/esc_bdshot.h:26 | the current percentage read is in [0, 100] |
| Esc.EscBdshot.TargetThrottlePct | firmware/src/esc_bdshot.h:27 | the target percentage read is in [0, 100] |
| Esc.EscBdshot.IsFailsafe | firmware/src/esc_bdshot.h:29 | latched exactly when the reason is RPM_TIMEOUT |
| Esc.EscBdshot.FailsafeReasonOf | firmware/src/esc_bdshot.h:30 | the reason is RPM_TIMEOUT exactly while latched |
| Autotest.Cleared | firmware/src/autotest.h:5-23 | the default runner is idle with step -1 and no steps |
| Autotest.CapCount | firmware/src/autotest.cpp:14-15 | the step count is capped at 32 and never raised |
| Autotest.StepTime | firmware/src/autotest.cpp:41-45 | a step time is reported exactly when running with the step below the count, and it is the step's list entry when the list is enabled, the uniform time otherwise; `None` stands for the NaN returned in every other case |
| Autotest.StartBegins | firmware/src/autotest.cpp:7-21 | `start` runs step 0 of `min(n, 32)` copied steps, the rest zero, not steady, with a fresh timer and the uniform time |
| Autotest.StartProgramBegins | firmware/src/autotest.cpp:23-39 | `startProgram` also copies the per-step times; step 0 runs for the first of them, or 0 without a list |
| Autotest.StopIdles | firmware/src/autotest.cpp:47-53 | after `stop` the runner is idle, reports no step time, and a tick changes nothing and commands nothing |
| Autotest.TickPreservesInv | firmware/src/autotest.cpp:52-76 | while running, the step index stays a slot of the 32-slot tables, including for an empty program; idle, it is -1 |
| Autotest.TickStepsInOrder | firmware/src/autotest.cpp:55-75 | a running tick commands the current step; steady is `elapsed >= ramp_s * 1000`; it advances by exactly one step once the step's time is up and restarts the timer; past the last step it stops and commands 0 %; the tables never change |
| Autotest.FinishStopsThrottle | firmware/src/autotest.cpp:67-72 | the tick that ends a program leaves the ESC targeting 0 % without touching its current throttle |
| Autotest.ProgramFinishes | firmware/src/autotest.cpp:66-75 | every program ends after as many late ticks as it has steps left |
| Autotest.LateTicks | firmware/src/autotest.cpp:52-76 | repeated ticks, each exactly when the current step's time is up, keep the invariant |
| Autotest.ApplyOne | firmware/src/autotest.cpp:64 | a tick that hands the ESC one target has the effect of one `setTargetThrottlePct` with the step's ramp time |
| Autotest.ApplyTwo | firmware/src/autotest.cpp:64-71 | the finishing tick hands over the step's target and then 0 %, applied in that order |
| Autotest.AutoTest.constructor | firmware/src/autotest.h:5-23 | a new runner is in the default state |
| Autotest.AutoTest.Reset | firmware/src/autotest.cpp:8 | the value-initialised state, tables zeroed |
| Autotest.AutoTest.CopyPrefix | firmware/src/autotest.cpp:30-33 | the copy loop fills the first `count` slots from the program and leaves the rest zero |
| Autotest.AutoTest.Start | firmware/src/autotest.cpp:7-21 | the object becomes the started state |
| Autotest.AutoTest.StartProgram | firmware/src/autotest.cpp:23-39 | the object becomes the started program, with or without a time list |
| Autotest.AutoTest.Stop | firmware/src/autotest.cpp:47-50 | the object becomes idle with step -1, tables kept |
| Autotest.AutoTest.IsActive | firmware/src/autotest.h:33 | running exactly when there is a current step |
| Autotest.AutoTest.StepId | firmware/src/autotest.h:34 | the step is -1 exactly when idle, otherwise a slot of the tables |
| Autotest.AutoTest.Tick | firmware/src/autotest.cpp:52-76 | the runner advances as the tick step says and the ESC receives exactly the targets it hands over, in order |
| Storage.ShiftIsConditionalXor | firmware/src/storage.cpp:9-10 | the mask form of one shift is the textbook one: xor the polynomial in exactly when the bit shifted out is 1 |
| Storage.ShiftByte | firmware/src/storage.cpp:8-11 | the bit loop is eight shifts of the register |
| Storage.Crc32Ieee | firmware/src/storage.cpp:4-14 | the byte loop computes the byte-recursive CRC-32 (start 0xFFFFFFFF, final complement) |
| Storage.Crc32Empty | firmware/src/storage.cpp:4-14 | the CRC of no bytes is 0 |
| Storage.Word32Matches | firmware/src/storage.h:24-35 | a 32-bit field reads as `x` exactly when its four bytes are `x`'s little-endian bytes |
| Storage.Word16Matches | firmware/src/storage.h:24-35 | the same for a 16-bit field |
| Storage.Le32RoundTrip | firmware/src/storage.h:24-35 | a 32-bit field written little-endian reads back as itself |
| Storage.Le16RoundTrip | firmware/src/storage.h:24-35 | the same for a 16-bit field |
| Storage.BodyLayout | firmware/src/storage.h:24-35 | the record's first 20 bytes hold magic, version, size, offset, scale, invert and valid at their offsets |
| Storage.BlobLayout | firmware/src/storage.cpp:21-33 | the saved record is that body followed by the CRC of the body, at offset 20 |
| Storage.I32RoundTrip | firmware/src/storage.cpp:26 | an `int32_t` offset survives being stored as its bit pattern and read back |
| Storage.Blob | firmware/src/storage.cpp:21-33 | the saved record is 24 bytes |
| Storage.ParseOr | firmware/src/storage.cpp:43-65 | `load` yields the stored record when it validates, the caller's record otherwise |
| Storage.Erased | firmware/src/storage.cpp:67-71 | the reset region is 128 bytes |
| Storage.ErasedRejected | firmware/src/storage.cpp:67-71 | an erased region never loads |
| Storage.BlobFits | firmware/src/storage.h:21-22 | the 24-byte record fits the 128-byte region at address 0, so `save` cannot fail for size |
| Storage.DefaultCalIsUnit | firmware/src/storage.h:4-9 | the default record is offset 0, scale 1.0, not inverted, invalid |
| Storage.SaveLoadRoundTrip | firmware/src/storage.cpp:21-65 | `save` followed by `load` gives back every field, whatever follows the record |
| Storage.ParseAcceptsExactly | firmware/src/storage.cpp:50-58 | `load` accepts exactly the images with the right magic, version and size and a CRC field matching the first 20 bytes |
| Storage.CrcTamperRejected | firmware/src/storage.cpp:54-58 | a saved record whose CRC field alone was altered no longer loads |
| Storage.ParsePrefix | firmware/src/storage.cpp:46-48 | `load` reads only the first 24 bytes |
| Storage.CalStorage.constructor | firmware/src/storage.cpp:16-19 | the region holds what the flash held at power-up |
| Storage.CalStorage.Save | firmware/src/storage.cpp:21-41 | bytes [0, 24) become the record, the other 104 are unchanged, and it reports success |
| Storage.CalStorage.Load | firmware/src/storage.cpp:43-65 | success exactly when the image validates; then the stored record, else the caller's record untouched |
| Storage.CalStorage.Reset | firmware/src/storage.cpp:67-71 | every byte becomes 0xFF, and it reports success |
| Sorting.InsertPermutes | firmware/src/sensors_hx711.cpp:200-206 | one insertion adds exactly the key to the multiset |
| Sorting.Insert | firmware/src/sensors_hx711.cpp:202-205 | inserting a key lengthens the prefix by one |
| Sorting.SortSeq | firmware/src/sensors_hx711.cpp:200-206 | sorting keeps the length |
| Sorting.InsertSorted | firmware/src/sensors_hx711.cpp:200-206 | inserting into a sorted prefix keeps it sorted |
| Sorting.SortSeqSorted | firmware/src/sensors_hx711.cpp:200-206 | the insertion sort's result is sorted |
| Sorting.SortSeqPermutes | firmware/src/sensors_hx711.cpp:200-206 | the insertion sort's result is a permutation of its input |
| Sorting.SortSeqOfSorted | firmware/src/sensors_hx711.cpp:200-206 | an already sorted window is left as it is |
| Sorting.SortSeqIdempotent | firmware/src/sensors_hx711.cpp:200-206 | sorting twice is sorting once |
| Sorting.InsertAtStop | firmware/src/sensors_hx711.cpp:203-205 | the backwards scan stops after the last element not above the key, and the key goes there |
| Sorting.InsertAt | firmware/src/sensors_hx711.cpp:202-205 | one pass of the inner loop inserts `a[i]` into the prefix in place, leaving the rest of the array alone |
| Sorting.InsertionSort | firmware/src/sensors_hx711.cpp:200-206 | the in-place sort leaves `a[0..n)` as the functional insertion sort of its old contents, the rest untouched |
| HxWindow.Reset | firmware/src/sensors_hx711.cpp:166-169 | a reset empties the window without touching the slots |
| HxWindow.Push | firmware/src/sensors_hx711.cpp:171-175 | a push writes only slot `head`, advances `head` modulo 12 and grows `count` only until 12 |
| HxWindow.Slot | firmware/src/sensors_hx711.cpp:182-187 | every index the copy loop computes is a slot in [0, 12) |
| HxWindow.SlotIsModular | firmware/src/sensors_hx711.cpp:182-187 | the `i`-th oldest sample is in slot `head - count + i` modulo 12 |
| HxWindow.Linear | firmware/src/sensors_hx711.cpp:177-190 | the oldest-first view holds `count` samples |
| HxWindow.PushLinear | firmware/src/sensors_hx711.cpp:171-190 | a push appends the sample to the view and, once full, drops the oldest |
| HxWindow.Recent | firmware/src/sensors_hx711.cpp:171-175 | the last `min(n, 12)` samples of a history |
| HxWindow.RecentGrows | firmware/src/sensors_hx711.cpp:171-175 | until 12 samples, one more push appends it to the recent samples |
| HxWindow.RecentSlides | firmware/src/sensors_hx711.cpp:171-175 | past 12 samples, one more push drops the oldest and appends the new one |
| HxWindow.LinearIsLastPushed | firmware/src/sensors_hx711.cpp:171-190 | after a reset and any pushes, the view is exactly the last `min(pushes, 12)` samples, oldest first |
| HxWindow.HasEnoughMeansSamples | firmware/src/sensors_hx711.h:67 | `count >= n` exactly when the window holds at least `n` samples |
| HxWindow.TrimK | firmware/src/sensors_hx711.cpp:208-209 | `k` is `n * trim / 100` or 0, and always leaves at least one sample between the two trimmed ends |
| HxWindow.TrimmedMeanFromParts | firmware/src/sensors_hx711.cpp:200-218 | a non-empty trimmed mean is the truncated mean of the sorted samples with `k` dropped from each end |
| HxWindow.TrimmedMeanBounded | firmware/src/sensors_hx711.cpp:215-218 | the trimmed mean lies between the window's minimum and maximum, and the 64-bit sum cannot overflow |
| HxWindow.MeanOfTrimmedFits | firmware/src/sensors_hx711.cpp:218 | the trimmed mean of a non-empty window fits an `int32_t` |
| HxWindow.TrimmedMeanExample | firmware/src/sensors_hx711.cpp:192-219 | [10, 10, 10, 10, 1000] trimmed by 20 % gives 10: the outlier is dropped |
| HxWindow.NoiseFromParts | firmware/src/sensors_hx711.cpp:221-259 | from four samples on, the noise is valid, peak-to-peak the wrapped spread, std the square root of the sample variance, and stability follows the calibrated or the raw rule |
| HxWindow.NoiseNeedsFourSamples | firmware/src/sensors_hx711.cpp:223-228 | below four samples the noise is the default record (invalid, -1, not stable); from four on it is valid |
| HxWindow.NoisePeakToPeak | firmware/src/sensors_hx711.cpp:247-255 | when the spread fits an `int32_t`, peak-to-peak is `max - min >= 0` and bounds every sample; uncalibrated, stable exactly when it is below 1500 counts |
| HxWindow.ConstantWindowIsQuiet | firmware/src/sensors_hx711.cpp:221-259 | a window of equal samples has no spread and no deviation, and is stable when uncalibrated |
| Hx711.RawToGrams | firmware/src/sensors_hx711.cpp:148-153 | the result is NaN unless calibrated |
| Hx711.RawToSample | firmware/src/sensors_hx711.cpp:155-164 | a sample is valid exactly when calibrated with finite grams; it then carries those grams and their newtons, otherwise the default sample |
| Hx711.UncalibratedSampleIsDefault | firmware/src/sensors_hx711.h:13-17 | uncalibrated, every reading converts to the default invalid sample with NaN thrust |
| Hx711.OperationsKeepRing | firmware/src/sensors_hx711.h:93-96 | every operation keeps `head < 12` and `count <= 12` |
| Hx711.CalibrateOutcome | firmware/src/sensors_hx711.cpp:110-128 | a rejected calibration changes nothing; an accepted one sets the library's offset, `invert` from the factor's sign and a positive magnitude as scale, marks the record valid and empties the window |
| Hx711.CalibratedGrams | firmware/src/sensors_hx711.cpp:148-153 | after calibration, grams are the raw difference over the signed factor: no absolute value is taken of the reading |
| Hx711.CalibrationChangesEmptyWindow | firmware/src/sensors_hx711.cpp:85-92 | tare completion, a changed record, a successful load and a reset each empty the window; a failed load changes nothing |
| Hx711.TickKeepsRecordAndWindow | firmware/src/sensors_hx711.cpp:54-93 | without a finished tare a tick touches neither the record nor the window; unattached it changes nothing; each new sample bumps the wrapping counter |
| Hx711.DoneReportedOnce | firmware/src/sensors_hx711.cpp:102-108 | consuming a done flag clears it, so it is reported once, and changes nothing else |
| Hx711.CalTrimPublishesOutcome | firmware/src/sensors_hx711.cpp:130-138 | the calibration handshake ends idle with the done flag equal to acceptance |
| Hx711.SensorsHx711.constructor | firmware/src/sensors_hx711.cpp:4-6 | a new front end is unattached with the default record and an empty window |
| Hx711.SensorsHx711.Begin | firmware/src/sensors_hx711.cpp:8-45 | `begin` installs the stored record when it validates, else the default, and clears counters, handshakes and window |
| Hx711.SensorsHx711.TickFast | firmware/src/sensors_hx711.cpp:54-93 | the object changes as the tick step says |
| Hx711.SensorsHx711.TareTrimStart | firmware/src/sensors_hx711.cpp:95-100 | the object changes as the tare-start step says |
| Hx711.SensorsHx711.TareTrimDoneConsume | firmware/src/sensors_hx711.cpp:102-108 | reports the tare flag and clears it |
| Hx711.SensorsHx711.CalibrateWithMass | firmware/src/sensors_hx711.cpp:110-128 | reports acceptance, and the object changes as the calibration step says |
| Hx711.SensorsHx711.CalTrimStart | firmware/src/sensors_hx711.cpp:130-138 | the object changes as the calibration handshake says |
| Hx711.SensorsHx711.CalTrimDoneConsume | firmware/src/sensors_hx711.cpp:140-146 | reports the calibration flag and clears it |
| Hx711.SensorsHx711.SaveCal | firmware/src/sensors_hx711.cpp:265-268 | refused and nothing written while uncalibrated; otherwise the record goes to the first 24 bytes of EEPROM |
| Hx711.SensorsHx711.LoadCal | firmware/src/sensors_hx711.cpp:270-277 | success exactly when the stored record validates; the object changes as the load step says |
| Hx711.SensorsHx711.ResetCal | firmware/src/sensors_hx711.cpp:279-287 | back to the default record with an empty window, and the EEPROM erased |
| Hx711.SensorsHx711.WindowReset | firmware/src/sensors_hx711.cpp:166-169 | the window empties |
| Hx711.SensorsHx711.WindowPush | firmware/src/sensors_hx711.cpp:171-175 | the ring array changes as the push step says |
| Hx711.SensorsHx711.WindowHasEnough | firmware/src/sensors_hx711.h:67 | true exactly when the window holds at least `n` samples |
| Hx711.SensorsHx711.CopyWindowToLinear | firmware/src/sensors_hx711.cpp:177-190 | the buffer receives the oldest-first window and its length |
| Hx711.SensorsHx711.WindowTrimmedMean | firmware/src/sensors_hx711.cpp:192-219 | returns the trimmed mean of the window, or the last raw count when it is empty |
| Hx711.SensorsHx711.WindowNoise | firmware/src/sensors_hx711.cpp:221-263 | returns the noise of the window |
| Hx711.MeanOfTrimmedIn | firmware/src/sensors_hx711.cpp:200-218 | sorting a copy in place and averaging the middle yields the trimmed mean of the old contents |
| Hx711.SumRange | firmware/src/sensors_hx711.cpp:215-217 | the summing loop yields the sum of the slice and its length |
| Hx711.MinMaxSum | firmware/src/sensors_hx711.cpp:230-237 | the first noise loop yields minimum, maximum and sum |
| Hx711.SquaredDeviations | firmware/src/sensors_hx711.cpp:240-244 | the second noise loop yields the sum of squared deviations |
| Tokenizer.Tokens | firmware/src/cli.cpp:137-146 | at most 16 tokens, a prefix of the line's words, all of them when fewer than 16 |
| Tokenizer.WordsShape | firmware/src/cli.cpp:137-146 | every word is non-empty and holds no space |
| Tokenizer.WordsConcat | firmware/src/cli.cpp:137-146 | the words joined give back the line without its spaces |
| Tokenizer.NoWordsIffBlank | firmware/src/cli.cpp:137-146 | there is no word exactly when the line is all spaces |
| Tokenizer.TokensShape | firmware/src/cli.cpp:137-146 | the tokens are non-empty, space-free, in order, cut at 16, and none for a line of spaces |
| Tokenizer.Tokenize | firmware/src/cli.cpp:132-146 | the loop of `handleLine` yields exactly those tokens |
| Tokenizer.Lower | firmware/src/cli.cpp:65 | lower-casing keeps the length, turns each of `A`..`Z` into the matching `a`..`z` and keeps every other character |
| CommandLine.Initial | firmware/src/cli.h:53-70 | the console starts disarmed, logging off, no sequence, gap 90, ramp 2.5 s, cut 0.8 %, timeout 6000 ms, and keeps its invariant |
| CommandLine.ThrottleArg | firmware/src/cli.cpp:336-340 | a finite argument is passed on as is; an infinite one acts as the nearer end of [0, 100] |
| CommandLine.ClampInt | firmware/src/cli.cpp:315-318 | the gap is clamped into its bounds: kept inside, the nearer bound outside |
| CommandLine.AfterTokens | firmware/src/cli.cpp:132-358 | a load-cell request changes nothing else; a calibration request carries a positive mass; no command touches the line buffer |
| CommandLine.BeginSoftStopKeepsInv | firmware/src/cli.cpp:87-103 | a soft stop starts its timer now and ramps the target to 0 without touching the current throttle or the runner |
| CommandLine.CoreRunKeepsInv | firmware/src/cli.cpp:420-433 | the CORE run cancels a soft stop, turns logging on and starts the 13-step profile at step 0 |
| CommandLine.SoftStopOutcome | firmware/src/cli.cpp:105-130 | the soft stop finishes exactly when active and either down to the cut level or 6000 ms old; it then stops the ESC and turns logging off; otherwise nothing changes |
| CommandLine.SequencePhases | firmware/src/cli.cpp:435-484 | phase 1 goes to 2 once the runner is idle, logging off; 2 to 3 once the gap has passed, restarting the profile with logging on; 3 to 0 once idle; the single run ends the same way; the ESC is never touched |
| CommandLine.StopKeepsInv | firmware/src/cli.cpp:271-282 | STOP and the sequence halt keep the invariant |
| CommandLine.AutotestKeepsInv | firmware/src/cli.cpp:284-332 | every AUTOTEST form keeps the invariant |
| CommandLine.EscCommandsKeepInv | firmware/src/cli.cpp:228-268 | SETMETA, START, ESTOP, THROTTLE, STOPRAMP and LOG keep the invariant |
| CommandLine.TokensKeepInv | firmware/src/cli.cpp:132-358 | every command line keeps the invariant: mode in {0,1,2}, phase in {0..3}, gap and ramp inside their clamps |
| CommandLine.StopRampClamps | firmware/src/cli.cpp:162-173 | a finite argument sets the ramp to its clamp into [0.2, 8] and nothing else; a missing or non-finite one changes nothing |
| CommandLine.Core2Starts | firmware/src/cli.cpp:313-328 | armed CORE2 takes the gap argument (90 by default) clamped into [0, 600] and enters phase 1 with the profile loaded and logging on |
| CommandLine.EstopConverges | firmware/src/cli.cpp:255-268 | ESTOP ends, from any state, disarmed in mode 0, phase 0, runner idle, soft stop cancelled, ESC stopped and logging off |
| CommandLine.StopIsSoft | firmware/src/cli.cpp:271-282 | STOP disarms and halts the sequence; it starts a soft stop only when none is running, so a running one keeps its start time |
| CommandLine.AutotestStopIsSoft | firmware/src/cli.cpp:291-302 | AUTOTEST STOP halts the sequence the same way, stays armed and never restarts a running soft stop |
| CommandLine.RefusedWhenDisarmed | firmware/src/cli.cpp:284-338 | THROTTLE and AUTOTEST change nothing and request nothing while disarmed |
| CommandLine.ThrottleSetsTarget | firmware/src/cli.cpp:334-343 | an armed THROTTLE with a number cancels the soft stop and sets the target to the clamped percentage with the 0.5 s ramp |
| CommandLine.CharKeepsInv | firmware/src/cli.cpp:68-77 | a character of input keeps the invariant: no `\r` or `\n` stored, at most 200 characters |
| CommandLine.FeedKeepsInv | firmware/src/cli.cpp:68-77 | any run of input keeps the invariant |
| CommandLine.TickKeepsInv | firmware/src/cli.cpp:67-84 | every console tick keeps the invariants of console, ESC and runner |
| CommandLine.FeedWithoutNewline | firmware/src/cli.cpp:70-75 | input without a line end only grows the buffer, `\r` dropped and anything past 200 characters lost |
| CommandLine.LineDispatched | firmware/src/cli.cpp:71-73 | a line typed into an empty buffer and ended by `\n` is dispatched exactly once without its `\r`s and leaves the buffer empty; an empty line dispatches nothing |
| CommandLine.Cli.constructor | firmware/src/cli.h:53-70 | the field initialisers plus `bind` to the ESC and the runner |
| CommandLine.Cli.BeginSoftStop | firmware/src/cli.cpp:87-103 | the objects change as the soft-stop start says |
| CommandLine.Cli.StartAutotestCoreRun | firmware/src/cli.cpp:420-433 | the objects change as the CORE run says |
| CommandLine.Cli.ServiceSoftStop | firmware/src/cli.cpp:105-130 | the objects change as the soft-stop service says |
| CommandLine.Cli.ServiceAutotestSequence | firmware/src/cli.cpp:435-484 | the objects change as the phase machine says |
| CommandLine.Cli.StopRamp | firmware/src/cli.cpp:162-173 | the objects change as `stopramp` says |
| CommandLine.Cli.Log | firmware/src/cli.cpp:175-182 | the objects change as `log` says |
| CommandLine.Cli.SetMeta | firmware/src/cli.cpp:228-244 | the objects change as `setmeta` says |
| CommandLine.Cli.Start | firmware/src/cli.cpp:246-252 | the objects change as `start` says |
| CommandLine.Cli.HaltSequence | firmware/src/cli.cpp:273-276 | the sequence halt: mode 0, phase 0, runner stopped |
| CommandLine.Cli.Estop | firmware/src/cli.cpp:255-268 | the objects change as `estop` says |
| CommandLine.Cli.Stop | firmware/src/cli.cpp:271-282 | the objects change as `stop` says |
| CommandLine.Cli.AutotestCommand | firmware/src/cli.cpp:284-332 | the objects change as `autotest` says |
| CommandLine.Cli.AutotestStopCommand | firmware/src/cli.cpp:291-302 | the halt, then a soft stop only when none was active |
| CommandLine.Cli.AutotestCoreCommand | firmware/src/cli.cpp:304-311 | mode 1 with no sequence, then the CORE run |
| CommandLine.Cli.AutotestCore2Command | firmware/src/cli.cpp:313-328 | mode 2, the clamped gap, phase 1 from now, then the CORE run |
| CommandLine.Cli.Throttle | firmware/src/cli.cpp:334-343 | the objects change as `throttle` says |
| CommandLine.Cli.HandleLine | firmware/src/cli.cpp:132-358 | the objects change as the dispatcher says, and the load-cell request is returned |
| CommandLine.Cli.Receive | firmware/src/cli.cpp:69-76 | one character of input, as the line assembler says |
| CommandLine.Cli.Tick | firmware/src/cli.cpp:67-84 | the input, then the sequencer, then the soft stop, as the tick says, with the requests in order |
| CsvRows.CheckColsMeans | firmware/monitor/filter_rotorrig_csvlogger.py:214-232 | with every listed column present, a column check never raises and accepts exactly when each listed cell passes |
| CsvRows.ListsMeans | firmware/monitor/filter_rotorrig_csvlogger.py:214-232 | over lists that name every column but the first by its type, the three checks accept exactly when every such cell passes |
| CsvRows.ColumnsLayout | firmware/monitor/filter_rotorrig_csvlogger.py:214-229 | the integer, float and text lists name each of columns 1 to 23 on the list of its type |
| CsvRows.RowVerdictMeans | firmware/monitor/filter_rotorrig_csvlogger.py:207-233 | with 24 fields the row check never raises and accepts exactly 24 cells each passing its column's test |
| CsvRows.ShortRowRaises | firmware/monitor/filter_rotorrig_csvlogger.py:207-217 | with 1 to 3 fields, a row of that many cells whose first cell passes raises at column 3 |
| CsvLogger.LStrip | firmware/monitor/filter_rotorrig_csvlogger.py:52 | `lstrip` removes exactly the leading white space: a suffix, with only spaces dropped and none left in front |
| CsvLogger.RStrip | firmware/monitor/filter_rotorrig_csvlogger.py:56 | `rstrip` removes exactly the trailing white space: a prefix, with only spaces dropped and none left at the end |
| CsvLogger.Strip | firmware/monitor/filter_rotorrig_csvlogger.py:56 | `strip` never lengthens the text and leaves no white space at either end |
| CsvLogger.RStripCR | firmware/monitor/filter_rotorrig_csvlogger.py:255 | `rstrip("\r")` removes exactly the trailing carriage returns |
| CsvLogger.StripOfPadded | firmware/monitor/filter_rotorrig_csvlogger.py:56 | `strip` gives back any text that neither starts nor ends with a space from any padding |
| CsvLogger.StripPrefix | firmware/monitor/filter_rotorrig_csvlogger.py:49-53 | what is left is always a suffix of the line |
| CsvLogger.StampPrefixLen | firmware/monitor/filter_rotorrig_csvlogger.py:8 | the stamp prefix removed is never longer than the line |
| CsvLogger.StripPrefixStamped | firmware/monitor/filter_rotorrig_csvlogger.py:8 | a time stamp with its `>` and the white space around the `>` is removed, leaving the rest |
| CsvLogger.StripPrefixArrow | firmware/monitor/filter_rotorrig_csvlogger.py:51-52 | without a stamp, a single leading `>` and the white space after it are removed |
| CsvLogger.FloatSyntaxIsRegex | firmware/monitor/filter_rotorrig_csvlogger.py:10-19 | the scanner accepts exactly the language of `_FLOAT_RE`: a sign, a digit or point mantissa, an exponent |
| CsvLogger.ScanIsGrammar | firmware/monitor/filter_rotorrig_csvlogger.py:10-19 | a token the scanner accepts splits into sign, mantissa and exponent as the regular expression says |
| CsvLogger.GrammarIsScan | firmware/monitor/filter_rotorrig_csvlogger.py:10-19 | any sign, mantissa and exponent of the regular expression make a token the scanner accepts |
| CsvLogger.IntSyntaxIsFloat | firmware/monitor/filter_rotorrig_csvlogger.py:10-19 | an integer token matches the float expression |
| CsvLogger.FloatOrSpecialMeans | firmware/monitor/filter_rotorrig_csvlogger.py:58-65 | `is_float_or_special` holds exactly for a non-empty stripped token that is one of the nine NaN/infinity spellings in any case, or a word of the float grammar |
| CsvLogger.IntIsFloat | firmware/monitor/filter_rotorrig_csvlogger.py:55-65 | every integer token is also a float token |
| CsvLogger.DecimalIsIntToken | firmware/monitor/filter_rotorrig_csvlogger.py:55-56 | the decimal text of any integer is an integer token |
| CsvLogger.SplitJoin | firmware/monitor/filter_rotorrig_csvlogger.py:206 | joining the parts of a split gives the text back, and no part holds the separator |
| CsvLogger.JoinSplit | firmware/monitor/filter_rotorrig_csvlogger.py:206 | parts without the separator split back from their join |
| CsvLogger.Cells | firmware/monitor/filter_rotorrig_csvlogger.py:206 | a split has at least one cell |
| CsvLogger.Split | firmware/monitor/filter_rotorrig_csvlogger.py:206 | `split` gives at least one part |
| CsvLogger.LooksLikeCsvMeans | firmware/monitor/filter_rotorrig_csvlogger.py:202-233 | with 24 fields the check never raises and accepts exactly a non-blank line of 24 cells, each an integer, a float or NA, or non-empty text as its column says |
| CsvLogger.FewFieldsRaise | firmware/monitor/filter_rotorrig_csvlogger.py:207-217 | with `fields` set to 1, 2 or 3, a line of that many cells starting with an integer raises |
| CsvLogger.HeaderFallback | firmware/monitor/filter_rotorrig_csvlogger.py:130-135 | the header is the 24 names when `fields` is 24, otherwise `col0` to `col{fields-1}` |
| CsvLogger.HeaderStart | firmware/monitor/filter_rotorrig_csvlogger.py:135 | a header line starts with `t` or `c`, so it is never a marker |
| CsvLogger.InitialInv | firmware/monitor/filter_rotorrig_csvlogger.py:90-95 | the fresh filter keeps the session invariant |
| CsvLogger.StopKeepsInv | firmware/monitor/filter_rotorrig_csvlogger.py:159-171 | `_csv_stop` turns logging off and closes the open file, keeping its lines |
| CsvLogger.StartKeepsInv | firmware/monitor/filter_rotorrig_csvlogger.py:138-151 | `_csv_start` opens the next session's file with logging on, no records yet and only the header |
| CsvLogger.WriteCsvCounts | firmware/monitor/filter_rotorrig_csvlogger.py:235-241 | `_write_csv` writes only while logging, and then exactly one stripped line, counting it |
| CsvLogger.RecordLine | firmware/monitor/filter_rotorrig_csvlogger.py:266-268 | a line other than a marker is written when accepted, ignored when rejected, and raises only on the check's error |
| CsvLogger.LineStepCases | firmware/monitor/filter_rotorrig_csvlogger.py:253-268 | the three outcomes of one line: start, stop, or the record check |
| CsvLogger.LineKeepsInv | firmware/monitor/filter_rotorrig_csvlogger.py:253-268 | one line keeps the invariant whatever the check says: no marker line is ever written, and a line that raises changes nothing |
| CsvLogger.MarkerLines | firmware/monitor/filter_rotorrig_csvlogger.py:258-264 | `OK LOG 1` opens a fresh file with logging on; `OK LOG 0` closes the open one with logging off |
| CsvLogger.DrainStep | firmware/monitor/filter_rotorrig_csvlogger.py:253-254 | one turn of the loop of `rx`, and its end |
| CsvLogger.DrainAdvance | firmware/monitor/filter_rotorrig_csvlogger.py:253-256 | handling the first complete line then draining the rest is draining the buffer; a raise stops the loop with the rest kept |
| CsvLogger.TailHasNoNewline | firmware/monitor/filter_rotorrig_csvlogger.py:253 | the unfinished tail holds no line end |
| CsvLogger.LinesRebuild | firmware/monitor/filter_rotorrig_csvlogger.py:252-254 | the buffer is its complete lines, each ended by `\n`, followed by the tail |
| CsvLogger.LinesHaveNoNewline | firmware/monitor/filter_rotorrig_csvlogger.py:254 | no complete line holds a line end |
| CsvLogger.DrainHandlesLines | firmware/monitor/filter_rotorrig_csvlogger.py:252-268 | `rx` handles every complete line exactly once, in order, keeps the unfinished tail, and raises exactly when handling the lines one by one raises |
| CsvLogger.DrainLeavesNoNewline | firmware/monitor/filter_rotorrig_csvlogger.py:253 | after a call that does not raise, the buffer holds no line end |
| CsvLogger.StepKeepsInv | firmware/monitor/filter_rotorrig_csvlogger.py:253-268 | the loop body keeps the invariant for any record check |
| CsvLogger.DrainKeepsInv | firmware/monitor/filter_rotorrig_csvlogger.py:252-268 | the loop keeps the invariant, up to and including the line that raises |
| CsvLogger.RotorRigCsvLogger.constructor | firmware/monitor/filter_rotorrig_csvlogger.py:78-98 | a fresh filter: not logging, no file, empty buffer, the check bound to the settings |
| CsvLogger.RotorRigCsvLogger.CsvStop | firmware/monitor/filter_rotorrig_csvlogger.py:159-171 | the state changes as `_csv_stop` says, keeping the session invariant |
| CsvLogger.RotorRigCsvLogger.CsvStart | firmware/monitor/filter_rotorrig_csvlogger.py:138-157 | the state changes as `_csv_start` says, keeping the session invariant |
| CsvLogger.RotorRigCsvLogger.WriteCsvHeader | firmware/monitor/filter_rotorrig_csvlogger.py:126-136 | the header line is appended only when headers are on and a file is open |
| CsvLogger.RotorRigCsvLogger.WriteCsv | firmware/monitor/filter_rotorrig_csvlogger.py:235-243 | the state changes as `_write_csv` says; writing a line that is not a marker keeps the session invariant |
| CsvLogger.RotorRigCsvLogger.RxLine | firmware/monitor/filter_rotorrig_csvlogger.py:254-268 | one complete line, handled as the loop body says, keeping the session invariant |
| CsvLogger.RotorRigCsvLogger.Rx | firmware/monitor/filter_rotorrig_csvlogger.py:245-270 | the new state and buffer are those of draining the old buffer plus the text; the text is returned unchanged; the session invariant is kept |

## Left out

- The HX711_ADC library, the DShot driver, EEPROM `begin`/`commit`, Wire
  and `new` are foreign code. What they report (a new conversion, the
  reconstructed raw count, tare completion and the tare offset, a refreshed
  data set, a new calibration factor, an eRPM reading) arrives as
  parameters. The settings the firmware pushes into the HX711 library
  (`applyCalToLibrary_`) are not tracked.
- `millis` and `micros` are parameters, and each modelled operation takes
  one reading of each. The firmware reads the clock again within one call
  in several places, and the model gives all those reads the same value:
  - `AutoTest::tick` reads it for the elapsed time (autotest.cpp:55) and
    again on advancing (autotest.cpp:74);
  - `EscBdshot::begin` reads `millis` three times: at esc_bdshot.cpp:31
    and 35, and through `clearFailsafe` at esc_bdshot.cpp:52;
  - `autotest core2` reads it at cli.cpp:323 and again in `startProgram`
    (autotest.cpp:37);
  - phase 2 of `serviceAutotestSequence` reads it at cli.cpp:451 and again
    in `startProgram` (autotest.cpp:37).

  `CLI::tick` also hands one time value to every line it dispatches and
  to both services, where each of those reads the clock itself.
- Floating point is exact real arithmetic with no rounding:
  - the throttle percentages and ramp rates;
  - the ramp step;
  - the `(pct / 100) * 2000` product in `pctToDshot`
    (esc_bdshot.cpp:78);
  - the runner's `step_s * 1000` and `ramp_s * 1000` products
    (autotest.cpp:57 and 60);
  - the grams conversion: the `(float)` cast of the `int32_t` difference
    and the division by the scale (sensors_hx711.cpp:150-152);
  - the newton conversion;
  - the calibrated stability test.

  The `lrintf` reconstruction of the raw count is the library's reading,
  given as `Option<i32>`. The standard deviation's `sqrt` is a function
  parameter.
- `strtof` and `strtol` are function parameters that return `None` when
  they convert nothing.
- `main.cpp`, `csv.cpp`, `logger.cpp`, the INA226 wrapper, `printStatus`,
  `setLive`, the `help`, `status` and `i2cscan` output are not part of this
  model. Neither is any serial text except the `csvOn` flag. Of the
  metadata `setmeta` sets, only the pole-pair count is modelled.
- The console is always bound to the ESC and the runner. The
  `!esc_` branch of `serviceSoftStop` is not modelled. The load-cell
  commands come back as requests instead of calls on the load-cell object.
- The busy-wait that primes the HX711 in `begin`
  (firmware/src/sensors_hx711.cpp:30-34) is library I/O and is left out.
  `Hx711.SensorsHx711.Begin` sets `attached` after loading the record,
  which does not read it.
- The median fallback of `windowTrimmedMean` and the re-checks of `n` after
  the copy cannot be reached. The model shows this by assertion and does
  not keep them as code.
- Storage.CrcTamperRejected: proved only for a change confined to the CRC
  field. That a change to any single byte of the first 20 is also rejected
  rests on the error-detection property of CRC-32, which is not proved.
  Changes to magic, version or size are covered by
  Storage.ParseAcceptsExactly.
- Common.TruncToU32: negative or too large floats are undefined in C; the
  model saturates them as the ARM conversion does.
- Common.WrapI32: `raw - cal.offset` (firmware/src/sensors_hx711.cpp:150)
  and `mx - mn` (firmware/src/sensors_hx711.cpp:247) are `int32_t`
  subtractions whose overflow C++ leaves undefined; the model gives the
  two's-complement wrap.
- CommandLine.ThrottleArg: an infinite argument, which `setTargetThrottlePct`
  clamps at once, is passed on as the nearer end of [0, 100].
- Hx711.RawToGrams: the ensures only says that the result is NaN while
  uncalibrated. What it is once calibrated is stated by
  Hx711.CalibratedGrams (after a calibration) and by `Float32.DivBy`.
- Esc.EscBdshot.GetTelemetry, Autotest.AutoTest.StepTimeS and
  Autotest.AutoTest.IsSteady are plain reads of `Telemetry`, `StepTime` and
  the steady flag, with no contract of their own.
- CommandLine.Cli.CsvOn and CommandLine.Cli.Armed are plain reads of the
  logging and armed flags, with no contract of their own.
- The host filter:
  - The raw text log, file names and dates, `flush`/`fsync` and the
    environment variables are left out. `fields`, `delim` and
    `write_header` are constructor parameters.
  - The delimiter is one character.
  - White space, digits and case are the ASCII ones.
  - The record check is bound once, in the constructor.
