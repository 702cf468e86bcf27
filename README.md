# GPD handheld sensor-to-actuator control, modelled in Dafny

This project models the decision logic of two small control tools for the GPD
Pocket 3 handheld:

- **Auto-rotation** (`src/gpd-tools/optimized-iio-rotation.c`). The tool reads
  the accelerometer's x, y and z axes and rejects a sample whose x or y lies
  outside [-1225, 1225]. It then classifies the sample into one of `Normal`,
  `LeftUp`, `BottomUp`, `RightUp` or `Undefined`, using an ordered if-chain in
  which the x thresholds win. It sends a compositor transform command only for
  a defined orientation that differs from the last one applied. On a failed
  read it sleeps 100 ms. Otherwise it sleeps 50 ms, or 200 ms when the CPU
  temperature, truncated to whole degrees, exceeds 45 (46000 millidegrees or more).
- **Fan and keyboard-backlight control** (`src/gpd-tools/gpd-hardware-control.c`).
  Two stepwise tables map the CPU temperature to a fan PWM duty and the ambient
  light to a keyboard brightness. The sensor readers fall back to -1 (missing
  temperature or fan source) or 50 (missing light sensor). In `--monitor` mode
  each cycle issues both writes. A single reading issues none.

Files:

- `wrappers.dfy`: `Option`, used for a sensor source that cannot be opened.
- `c_int.dfy`: `TruncDiv`, C's `/`, which truncates toward zero.
- `iio_rotation.dfy`: the classifier, the accelerometer read and the thermal verdict.
- `rotation_loop.dfy`: the loop body as a pure `Step` over `RotationState`, and
  `Run` over a finite sequence of ticks. It also holds the lemmas about runs and
  the class `LoopState`, whose `Tick` and `RunTicks` update the loop state in place.
- `hardware_control.dfy`: the readers, the two tables, and `Control` (monitor
  mode versus single-reading mode).
- `thermal_agreement.dfy`: a lemma saying the two tools read the shared thermal
  source consistently.

The outside world becomes inputs and outputs:

- A sensor file's content is an `Option<int>`, with `None` when `fopen` fails.
- The compositor command's exit status is a `bool`.
- Each tick reports the transform index it sent, the chosen sleep in milliseconds,
  and whether the every-100-operations summary is printed.
- `LoopState.commands` records every transform index handed to the compositor.

Behaviour of the code worth knowing:

- An out-of-bounds sample takes the same path as an unreadable source.
  `read_accelerometer_optimized` returns 0 for it (`optimized-iio-rotation.c:56-58`),
  so `main` sleeps 100 ms, skips the thermal check and changes no counter
  (`Step`, `OutOfBoundsRejected`).
- There is no hysteresis: `MIN_THRESHOLD_CHANGE` (`optimized-iio-rotation.c:12`)
  is never used.
- `fscanf`'s result is never checked, so there is no parse-failure outcome.
- The 200 ms sleep is `MAX_SAFE_FREQUENCY_MS * 4` (`optimized-iio-rotation.c:123`).
- The summary condition `operation_count > 0 && operation_count % 100 == 0`
  holds on every accepted tick while the count stays at a multiple of 100. So
  the summary repeats rather than appearing once per hundred operations
  (`ReportRepeatsWhileIdle`).

## Model

| member | source | states |
|---|---|---|
| `CInt.TruncDiv` | src/gpd-tools/optimized-iio-rotation.c:29 | The quotient truncates toward zero, as C's `int` division does. For a non-negative dividend it is the largest q with q·b ≤ a. For a negative dividend it is the smallest q with a ≤ q·b. |
| `IioRotation.Ordinal` | src/gpd-tools/optimized-iio-rotation.c:15 | The enum value is at most 4, and it equals 4 exactly for `Undefined`. So each defined orientation maps to a transform index from 0 to 3. |
| `IioRotation.OrdinalInjective` | src/gpd-tools/optimized-iio-rotation.c:14-15 | Distinct orientations map to distinct compositor transform numbers. |
| `IioRotation.Classify` | src/gpd-tools/optimized-iio-rotation.c:64-80 | Total classification with x first. RightUp iff x > 600 for every y, LeftUp iff x < -600, BottomUp iff -600 ≤ x ≤ 600 and y > 800, Normal iff -600 ≤ x ≤ 600 and y < -800, Undefined iff -600 ≤ x ≤ 600 and -800 ≤ y ≤ 800. |
| `IioRotation.ReadAccelerometer` | src/gpd-tools/optimized-iio-rotation.c:40-61 | Accepted iff all three sources open and x and y are in [-1225, 1225]. z only needs to open. When all three open, all three values are delivered, even if the bounds check then rejects the sample. |
| `IioRotation.ThermalSafe` | src/gpd-tools/optimized-iio-rotation.c:21-37 | Fails open: an unreadable source is safe. Otherwise it is safe iff the reading is below 46000 millidegrees, so 45999 is safe, 46000 is not, and every negative reading is safe. |
| `RotationLoop.Step` | src/gpd-tools/optimized-iio-rotation.c:92-134 | A transform is sent iff the read is accepted and the orientation is defined and differs from the last applied one; the index sent is its ordinal, below 4. A success sets the last orientation and adds 1 to the count. A failure changes neither, and Undefined is never applied. A rejected read changes nothing and sleeps 100 ms. After an accepted read the tick sleeps 50 ms when safe; when unsafe it sleeps 200 ms and counts one reduction. The summary is due iff the read is accepted and the new count is a positive multiple of 100. |
| `RotationLoop.Run` | src/gpd-tools/optimized-iio-rotation.c:92-134 | The endless loop cut to a finite sequence of ticks. It gives one output per tick and passes the state from one `Step` to the next. An empty run leaves the state as it was. |
| `RotationLoop.RunCountsApplied` | src/gpd-tools/optimized-iio-rotation.c:111-117 | Over any run, `operation_count` grows by exactly the number of ticks whose command was sent and succeeded. |
| `RotationLoop.RunSendsTransforms` | src/gpd-tools/optimized-iio-rotation.c:102-109 | Every index any run hands to the compositor is below 4: a transform number of a defined orientation, never Undefined's 4. |
| `RotationLoop.RunCountsSlowed` | src/gpd-tools/optimized-iio-rotation.c:120-125 | Over any run, `thermal_reductions` grows by exactly the number of 200 ms sleeps. |
| `RotationLoop.RunLastDefinedIffCounted` | src/gpd-tools/optimized-iio-rotation.c:88-117 | If "an orientation is applied" and "a count was made" coincide at the start, they coincide after any run. |
| `RotationLoop.LastDefinedIffSomeApplied` | src/gpd-tools/optimized-iio-rotation.c:88-117 | From the initial state, `last_orientation` is defined after a run iff at least one command succeeded. |
| `RotationLoop.RetryAfterFailure` | src/gpd-tools/optimized-iio-rotation.c:102-117 | After a failed command, the next accepted sample with the same orientation sends the same transform again. |
| `RotationLoop.NoRepeatAfterSuccess` | src/gpd-tools/optimized-iio-rotation.c:102-114 | After a successful rotation, a sample with the same orientation sends nothing. |
| `RotationLoop.ReportRepeatsWhileIdle` | src/gpd-tools/optimized-iio-rotation.c:129-133 | While the count sits at a positive multiple of 100, every accepted tick that applies nothing reports again. |
| `RotationLoop.RepeatedOrientationSentOnce` | src/gpd-tools/optimized-iio-rotation.c:100-117 | Samples classified RightUp, RightUp, LeftUp with successful commands send exactly transforms 3 then 1 and leave the count at 2. |
| `RotationLoop.OutOfBoundsRejected` | src/gpd-tools/optimized-iio-rotation.c:94-98 | A sample with x = 1226 changes no state, sends nothing and sleeps the 100 ms recovery delay. |
| `RotationLoop.LoopState.constructor` | src/gpd-tools/optimized-iio-rotation.c:88-90 | The loop starts with `Undefined`, both counters at 0, and no commands sent. |
| `RotationLoop.LoopState.Tick` | src/gpd-tools/optimized-iio-rotation.c:92-134 | One in-place pass of the loop body. The new state and output are those of `Step` on the old state. The command trace grows by exactly the transform sent, if any. |
| `RotationLoop.LoopState.RunTicks` | src/gpd-tools/optimized-iio-rotation.c:92-134 | The loop over a finite sequence of ticks ends in `Run`'s final state, produces `Run`'s outputs, and appends every transform sent, in order. |
| `HardwareControl.ReadCpuTemp` | src/gpd-tools/gpd-hardware-control.c:18-26 | Returns -1 for an unreadable source. Otherwise it returns the millidegrees divided by 1000, truncated toward zero. |
| `HardwareControl.TempSentinelAmbiguous` | src/gpd-tools/gpd-hardware-control.c:20-25 | A genuine reading gives the same -1 as a missing source exactly when it lies between -1999 and -1000 millidegrees. |
| `HardwareControl.ReadFanSpeed` | src/gpd-tools/gpd-hardware-control.c:29-37 | Returns -1 for an unreadable source, otherwise the RPM value read. |
| `HardwareControl.ReadAmbientLight` | src/gpd-tools/gpd-hardware-control.c:40-49 | Returns the default 50 for a missing sensor, otherwise the value read. |
| `HardwareControl.FanLevel` | src/gpd-tools/gpd-hardware-control.c:52-68 | The duty is always one of 80, 120, 180 or 255. It is 255 iff temp > 85, 180 iff 71..85, 120 iff 51..70 and 80 iff temp ≤ 50. |
| `HardwareControl.FanLevelMonotone` | src/gpd-tools/gpd-hardware-control.c:55-67 | The fan duty never decreases as the temperature rises. |
| `HardwareControl.BacklightLevel` | src/gpd-tools/gpd-hardware-control.c:71-89 | The brightness is always one of 60, 120, 180 or 255, all within [0, 255]. It is 255 iff ambient < 10, 180 iff 10..49, 120 iff 50..199 and 60 iff ambient ≥ 200. |
| `HardwareControl.BacklightLevelAntitone` | src/gpd-tools/gpd-hardware-control.c:75-83 | The brightness never increases as the ambient light rises. |
| `HardwareControl.FallbackLevels` | src/gpd-tools/gpd-hardware-control.c:111-113 | A missing temperature drives the fan to 80, and a missing light sensor sets the keyboard to 120. |
| `HardwareControl.Snapshot` | src/gpd-tools/gpd-hardware-control.c:99-104 | The status record holds the three readers' results: temperature, fan speed and ambient light. Battery temperature is 0 in both modes. Monitor mode sets it explicitly (line 103). The single-reading initialiser at lines 120-124 leaves it out, so C zeroes it. |
| `HardwareControl.CycleWrites` | src/gpd-tools/gpd-hardware-control.c:99-113 | A monitoring cycle issues exactly two writes: the fan duty from the temperature, then the brightness from the light. The fan-speed reading is not an input to either. |
| `HardwareControl.Control` | src/gpd-tools/gpd-hardware-control.c:95-133 | In monitor mode, cycle j yields the status record of its sources and exactly one fan write and one backlight write, whatever earlier cycles wrote. In single-reading mode there is one status record and no writes. |
| `ThermalAgreement.VerdictMatchesReading` | src/gpd-tools/optimized-iio-rotation.c:21-37 | On the same source, the rotation tool's verdict is "safe" iff the hardware tool's temperature (`gpd-hardware-control.c:18-26`) is at most 45. This includes a missing source: the verdict fails open, and the reading is the -1 sentinel. |

## Left out

- `src/gpd-tools/gpd-boot-monitor.c` is not part of this model: it only polls services and appends to a log.
- File I/O: `fopen`, `fscanf`, `fclose`. A source that opens is modelled as yielding an int. The result of `fscanf` is never checked, so a parse failure leaves an uninitialised variable (undefined behaviour in C) and is not modelled. The file handles leaked when only some accelerometer sources open are not modelled either.
- The external commands (`system("hyprctl ...")`, the `echo > /sys/...` writes), the display name and the resolution string. A rotation command is reduced to its transform index and its success flag. The fan and backlight writes always report success (`|| true`), so they are reduced to the level written.
- The unused D-Bus error global and the unused `MIN_THRESHOLD_CHANGE` constant. Neither affects behaviour.
- Real sleeping (`usleep`, `sleep(5)`). The rotation loop's chosen sleep is an output in milliseconds. The fixed 5 s monitoring period is not modelled.
- All `printf` output except the condition under which the performance summary is printed.
- Command-line parsing. It is reduced to the `monitor` flag of `Control`.
- `Control` requires at least one set of readings in single-reading mode, because that mode always takes exactly one reading.
- The endless `while (1)` loops. Each is cut to a finite sequence of ticks or cycles supplied as input.
- `RotationLoop.LoopState.Tick`: C `int` overflow of `operation_count` and `thermal_reductions` after 2^31 increments is not modelled; the counters are unbounded naturals. Sensor values are unbounded integers. Only comparisons and truncated division by 1000 are applied to them, so none can wrap.
