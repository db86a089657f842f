# MPU-9150 driver and console program, modelled in Dafny

This project models the register-level driver of the MPU-9150 inertial sensor
(`src/MPU9150.java`) and the console program that drives it (`src/Main.java`).

- **The device** (`i2c.dfy`, module `I2C`) is a file of 8-bit registers. It is a
  map from every register address 0..255 to a `bv8`. A single-byte read returns
  the register. A write replaces it. A block read copies the bytes the bus
  delivered into the caller's buffer, in place, and returns how many there were.
  Every bus transaction goes into a ghost trace. The contracts use the trace to
  say which transactions an operation issues, and in what order.
- **Java arithmetic** (`bits.dfy`, module `Bits`) follows the language. A byte
  is widened to `int` by sign extension. `(hi << 8) | (lo & 0xFF)` is computed
  on 32-bit words and read back as two's complement. Casts to `(byte)` keep the
  low 8 bits. `number++` wraps at 2^31.
- **The driver** (`mpu9150.dfy`, module `MPU9150`) has the constants of the Java
  class and a class `MPU9150` with the field `mode`. Each configuration method
  does the same read-modify-write as the Java code. Each is proved to reach the
  state given by a pure function on a `Snapshot`, which holds `mode`, the
  registers and the trace:
  - `SetPowerModeSpec` covers `setPowerMode`.
  - `SetRangeSpec` covers the save / switch-on / write / restore sequence of
    `setRange`.
  - `SetWakeUpFrequencySpec` covers `setWakeUpFrequency`.
  - `ResetSpec` covers `reset`.

  The bit-level meaning of each register value is proved separately: which
  field holds what, which bits are kept, and that these facts determine the
  value. The burst reads decode six bytes, padded with the zeros of a fresh
  Java array, into three signed 16-bit values. Decoding and big-endian encoding
  are proved to be inverse in both directions.
- **The program** (`main.dfy`, module `MainProgram`) has three parts:
  - The console command chain, as the function `Dispatch` with its inverse
    `CommandLine`.
  - The startup and shutdown sequences, and the console loop over a given
    sequence of input lines.
  - The sampling loop of `DataReaderRunnable`, over a given sequence of polls.
    Each poll is the status the sensor latches into INT_STATUS and the bytes
    the next burst read returns.

`src/Main.java:140` calls `sensor.getAcceleration`, which `MPU9150` does not
declare. The model treats that call as `readAcceleration`.

Behaviour a reader might expect of such a driver that the code does not have
(the model follows the code):
- A short burst read is not an error. `readAcceleration` returns the byte count,
  and the missing bytes stay 0.
- The console knows only the ranges 2 g and 4 g and the frequencies 1.25, 5 and
  20 Hz. "8g", "16g" and "40hz" are ignored like any other unknown line.
- The program prints "Press Enter to finish!", but an empty line is ignored.
  Only "e" ends the loop.
- There is no lock around the driver, and the driver has no error type of its
  own: it passes on the bus's `IOException`, and `readAcceleration` and
  `readGyroscope` throw `IndexOutOfBoundsException` for a store not of length
  3 (`src/MPU9150.java:128-130`, `:151-153`; modelled as `Err`). `main` can
  also end in a `NullPointerException` (see "## Findings").

## Model

| member | source | states |
|---|---|---|
| `Bits.Decode16` | src/MPU9150.java:137-139 | Java's `(hi << 8) \| (lo & 0xFF)` on two bytes is a signed 16-bit value: the high byte read as signed, times 256, plus the low byte read as unsigned |
| `Bits.Decode16Value` | src/MPU9150.java:137-139 | the 32-bit word built from the two sign-extended bytes, read as a Java `int`, equals the signed big-endian value of the pair |
| `Bits.DecodeEncode` | src/MPU9150.java:137-139 | decoding the big-endian two's-complement bytes of any value in [-32768, 32767] returns that value |
| `Bits.EncodeDecode` | src/MPU9150.java:137-139 | every byte pair is the big-endian encoding of the value it decodes to, so decoding loses nothing |
| `Bits.Low2` | src/MPU9150.java:78 | `x & 0x03` (and the part of `x << 6` that survives a `(byte)` cast) is below 4 and equals `x` for codes 0..3 |
| `Bits.Wrap32` | src/Main.java:156 | the Java `int` kept of an exact result agrees with it modulo 2^32 and equals it when it fits in 32 bits |
| `Bits.Wrap32Step` | src/Main.java:156 | wrapping after every increment gives the same counter as wrapping once at the end |
| `I2C.I2CDevice.ReadInto` | src/MPU9150.java:131-135 | a burst read stores exactly the delivered bytes at the offset, leaves the rest of the buffer as it was, returns their number and logs one block transaction |
| `MPU9150.ModeBits` | src/MPU9150.java:99-108 | the mode pattern lies within bits 5-6 and is never both bits at once |
| `MPU9150.PowerMgmt1With` | src/MPU9150.java:94-107 | the value written to PWR_MGMT_1 keeps bits 0-4 and 7 of the old value and its bits 5-6 select the requested mode |
| `MPU9150.AccelConfigWith` | src/MPU9150.java:78 | the value written to ACCEL_CONFIG keeps the bits of mask 0xE7 and holds `range & 3` in bits 3-4 |
| `MPU9150.PowerMgmt2With` | src/MPU9150.java:117 | the value written to PWR_MGMT_2 keeps bits 0-5 and holds the two low bits of the frequency in bits 6-7 |
| `MPU9150.DecodeModeCorrect` | src/MPU9150.java:94-108 | bits 5-6 of a PWR_MGMT_1 value select mode `m` exactly when they hold m's pattern (both directions) |
| `MPU9150.PowerMgmt1Determined` | src/MPU9150.java:94-107 | keeping bits 0-4 and 7 and selecting `m` is true of exactly one value, the one `setPowerMode(m)` writes |
| `MPU9150.AccelConfigDetermined` | src/MPU9150.java:78 | keeping the 0xE7 bits and holding the range code is true of exactly one value, the one `setRange` writes |
| `MPU9150.PowerMgmt2Determined` | src/MPU9150.java:117 | keeping bits 0-5 and holding the frequency code is true of exactly one value, the one `setWakeUpFrequency` writes |
| `MPU9150.SetPowerModeSpec` | src/MPU9150.java:91-109 | for a power mode: `mode` becomes it, PWR_MGMT_1 selects it and keeps its other bits, one read and one write are issued; any other value changes nothing; no other register changes |
| `MPU9150.SetRangeSpec` | src/MPU9150.java:72-82 | bits 3-4 of ACCEL_CONFIG hold `range & 3`, its other bits and every other register except PWR_MGMT_1 are kept, `mode` and PWR_MGMT_1's mode bits return to the saved mode, and the writes are: ON, ACCEL_CONFIG, restore |
| `MPU9150.SetWakeUpFrequencySpec` | src/MPU9150.java:116-119 | bits 6-7 of PWR_MGMT_2 hold the two low bits of the frequency, bits 0-5, `mode` and every other register are kept |
| `MPU9150.ResetSpec` | src/MPU9150.java:196-197 | exactly 0x80 is written to PWR_MGMT_1 and `mode` is unchanged |
| `MPU9150.Padded` | src/MPU9150.java:131-135 | the burst buffer holds the delivered bytes followed by zeros |
| `MPU9150.DecodeVector` | src/MPU9150.java:137-139 | six bytes decode to three values, each in [-32768, 32767] |
| `MPU9150.SetPowerModeLastWins` | src/MPU9150.java:94-108 | of two power-mode changes only the last shows in the registers and in `mode` |
| `MPU9150.SetPowerModeIdempotent` | src/MPU9150.java:94-108 | `setPowerMode(m)` twice leaves the same registers and `mode` as once |
| `MPU9150.PowerMgmt1Overwrites` | src/MPU9150.java:95-105 | selecting a mode on a PWR_MGMT_1 value that already selected another gives the same value as selecting it on the original |
| `MPU9150.SetRangeReadBack` | src/MPU9150.java:72-82 | for range codes 0..3 ACCEL_CONFIG reads back the code, and `mode` is what it was before |
| `MPU9150.SetWakeUpFrequencyReadBack` | src/MPU9150.java:116-119 | for frequency codes 0..3 PWR_MGMT_2 bits 6-7 read back the code |
| `MPU9150.VectorDecodeEncode` | src/MPU9150.java:137-139 | decoding the encoding of three signed 16-bit values returns them |
| `MPU9150.VectorEncodeDecode` | src/MPU9150.java:137-139 | every six bytes are the encoding of the three values they decode to |
| `MPU9150.DecodeVectorExample` | src/MPU9150.java:137-139 | the bytes 40 00 00 00 C0 00 decode to 16384, 0, -16384 |
| `MPU9150.MPU9150.constructor` | src/MPU9150.java:40-50 | the driver keeps the device it is given, `mode` starts as ON (0) and the bus is not touched |
| `MPU9150.MPU9150.GetDeviceID` | src/MPU9150.java:57-59 | returns the identity register as a number in 0..255 after one single-byte read |
| `MPU9150.MPU9150.SetPowerMode` | src/MPU9150.java:91-109 | reaches exactly `SetPowerModeSpec` of the old state and keeps `mode` a power mode |
| `MPU9150.MPU9150.SetRange` | src/MPU9150.java:72-82 | reaches exactly `SetRangeSpec` of the old state and keeps `mode` a power mode |
| `MPU9150.MPU9150.SetWakeUpFrequency` | src/MPU9150.java:116-119 | reaches exactly `SetWakeUpFrequencySpec` of the old state |
| `MPU9150.MPU9150.ReadVector` | src/MPU9150.java:127-142 | a store not of length 3 fails with no bus traffic; otherwise one 6-byte burst read fills the store with the decoded values and returns the bus's byte count, short or not |
| `MPU9150.MPU9150.ReadAcceleration` | src/MPU9150.java:127-142 | `ReadVector`'s contract at ACCEL_XOUT_H (0x3B) |
| `MPU9150.MPU9150.ReadGyroscope` | src/MPU9150.java:150-165 | `ReadVector`'s contract at GYRO_XOUT_H (0x43) |
| `MPU9150.MPU9150.ReadTemperatureRaw` | src/MPU9150.java:172-179 | one 2-byte burst read at TEMP_OUT_H (0x41) yields the signed 16-bit decode of the (zero-padded) bytes; the count is ignored |
| `MPU9150.MPU9150.IsDataReady` | src/MPU9150.java:188-190 | true exactly when bit 0 of INT_STATUS is set, after one single-byte read |
| `MPU9150.MPU9150.Reset` | src/MPU9150.java:196-203 | reaches exactly `ResetSpec` of the old state: one write of 0x80, `mode` unchanged |
| `MainProgram.Dispatch` | src/Main.java:53-82 | a line causes no driver call exactly when it is none of the ten commands; power commands carry a power mode, frequency commands codes 0..2, range commands 2 g or 4 g |
| `MainProgram.DispatchThenCommandLine` | src/Main.java:53-82 | each of the ten commands is the command line of the action it selects |
| `MainProgram.CommandLineThenDispatch` | src/Main.java:53-82 | each action with a command line is selected by it and by no other line's action ("5hz" → frequency 1, "1.25hz" → 0, "20hz" → 2, "cycle" → 2, "sleep" → 1, "on" → 0, "2g" → range 0, "4g" → 1, "r" → reset, "e" → exit) |
| `MainProgram.UnlistedSettingsIgnored` | src/Main.java:51-83 | "8g", "16g" and "40hz" have no branch and cause no call |
| `MainProgram.Perform` | src/Main.java:53-79 | the driver call of an action keeps `mode` a power mode; exit and unknown lines change nothing; frequency and reset calls keep `mode` |
| `MainProgram.StartupSpec` | src/Main.java:31-37 | after ON, 2 g, CYCLE, 1.25 Hz: `mode` is CYCLE and PWR_MGMT_1 selects it, the range bits are 0, the wake-up bits are 0, all other bits and registers are kept |
| `MainProgram.CommandLoopSpec` | src/Main.java:50-83 | the loop ends on "e" exactly when the input holds "e", and `mode` stays a power mode |
| `MainProgram.SessionAsWritten` | src/Main.java:31-91 | with "e" in the input the program ends with `mode` SLEEP; without it no shutdown transaction follows the console loop |
| `MainProgram.Session` | src/Main.java:31-91 | the program with the end of input treated as "e" always ends with `mode` SLEEP and PWR_MGMT_1 selecting sleep |
| `MainProgram.EndOfInputSkipsSleep` | src/Main.java:51-53 | with no input line the program as written leaves the sensor in CYCLE, where the corrected program ends in SLEEP |
| `MainProgram.SessionMatchesAsWritten` | src/Main.java:50-91 | whenever the input holds "e" the corrected program and the one as written reach the same state |
| `MainProgram.Apply` | src/Main.java:53-79 | performs exactly the driver call `Perform` describes |
| `MainProgram.Startup` | src/Main.java:31-37 | reaches exactly `StartupSpec` of the old state |
| `MainProgram.CommandLoop` | src/Main.java:50-83 | reaches exactly the state and ending `CommandLoopSpec` gives for the input |
| `MainProgram.Run` | src/Main.java:30-91 | reaches exactly `Session` of the old state and leaves the sampling loop told to stop |
| `MainProgram.ReadyCountAppend` | src/Main.java:133-135 | one more poll adds one to the count of ready polls exactly when its status has the data-ready bit set |
| `MainProgram.CountedStep` | src/Main.java:133-156 | the counter after one more turn of the loop is the Java `int` after the previous counter plus one, when that turn finds data ready, and is unchanged otherwise |
| `MainProgram.DataReader.constructor` | src/Main.java:124-125 | the reader starts not stopping, with counter 0 |
| `MainProgram.DataReader.MakeStop` | src/Main.java:165-167 | sets the stop flag |
| `MainProgram.DataReader.Iteration` | src/Main.java:133-156 | data not ready: counter unchanged, no sample, only the status read; data ready: one 6-byte burst read, the sample holds the old counter and the decoded acceleration, and the counter goes up by exactly one (wrapping as a Java `int`) whether or not 6 bytes arrived |
| `MainProgram.DataReader.Run` | src/Main.java:132-157 | a stopped reader counts nothing; otherwise the counter grows by the number of polls that find data ready; `mode` and every register but INT_STATUS are unchanged |

## Left out

- `src/MyMqtt.java` is not part of this model. It is a wrapper over a network client.
- Threads are not modelled: the reader thread, `Thread.join(2000)`, and the unsynchronised `stopping` flag and `sensor` field shared between threads. The sampling loop and the console loop are modelled as separate methods. `Run` only creates the reader and tells it to stop, in the order the program does.
- All floating point is left out: `readTemperature`'s `/ 340.0 + 35` and the `/ 16384.0` conversion to g. `ReadTemperatureRaw` and `Sample` keep the raw counts.
- All console and timing I/O is left out: printing and formatting, `System.currentTimeMillis`, and `Thread.sleep(500)` in `reset`. Reading the console becomes the parameter `input`.
- Bus and device acquisition (`I2CFactory`, `bus.getDevice`, `ADDRESS`, the accessor `getDevice`) is left out; the driver gets an `I2CDevice` directly.
- Bus failures are left out: the register bus never throws, so the `IOException` paths and `catch` blocks do not arise.
- The device-ID check commented out in the constructor is left out.
- The sensor's own behaviour is not modelled. Registers are plain memory: a reset does not restore the power-on defaults, and reading INT_STATUS does not clear it. What the sensor latches or returns on a burst read comes in as parameters (`Poll`, `reply`); `I2CDevice.Latch` stands for the sensor setting a register.
- `MainProgram.Run`: treats the end of the console input like "e" (the corrected behaviour under Findings). The original throws there; `SessionAsWritten` models that.
- The `thread != null` test in `stopReading` is left out, because the thread always exists by the time it runs.

## Findings

| source | as written | input that shows it | evidently intended | confidence | as-written member | corrected member |
|---|---|---|---|---|---|---|
| src/Main.java:51-53 | at the end of the console input `br.readLine()` returns null and `read.equals(...)` throws a NullPointerException, which the `catch (IOException)` does not catch, so `stopReading()` and `setPowerMode(SLEEP)` never run and the reader thread keeps sampling | an empty console input (end of input before any line "e") | the end of the input ends the loop like "e", so the program stops sampling and puts the sensor to sleep | medium; not executed | `MainProgram.SessionAsWritten`, `MainProgram.EndOfInputSkipsSleep` | `MainProgram.Session`, `MainProgram.Run` |
