/**
 * The console program around the driver: it configures the sensor, starts
 * a sampling loop, applies one driver call per command line read from the
 * console until the line "e", then stops sampling and puts the sensor to
 * sleep.
 *
 * The console input is a parameter (the sequence of lines), as are the
 * values the hardware latches and returns while sampling.
 */
module MainProgram {
  import opened Bits
  import opened I2C
  import opened Wrappers
  import opened MPU9150

  /** The driver call a command line stands for. */
  datatype Action =
    | SetWakeUpFrequency(frequency: Int32)
    | SetPowerMode(mode: Int32)
    | SetRange(range: Int32)
    | Reset
    | Exit
    | Ignore

  /** The command lines the program recognises. */
  const COMMANDS: seq<string> := ["5hz", "1.25hz", "20hz", "cycle", "sleep", "on", "2g", "4g", "r", "e"]

  /** The if/else chain over the line read from the console. */
  function Dispatch(line: string): (a: Action)
    ensures a == Ignore <==> line !in COMMANDS
    ensures a.SetPowerMode? ==> IsPowerMode(a.mode)
    ensures a.SetWakeUpFrequency? ==> WAKEUP_FREQUENCY_1_25HZ <= a.frequency <= WAKEUP_FREQUENCY_20HZ
    ensures a.SetRange? ==> a.range == RANGE_2_G || a.range == RANGE_4_G
  {
    if line == "5hz" then SetWakeUpFrequency(WAKEUP_FREQUENCY_5HZ)
    else if line == "1.25hz" then SetWakeUpFrequency(WAKEUP_FREQUENCY_1_25HZ)
    else if line == "20hz" then SetWakeUpFrequency(WAKEUP_FREQUENCY_20HZ)
    else if line == "cycle" then SetPowerMode(POWER_MODE_CYCLE)
    else if line == "sleep" then SetPowerMode(POWER_MODE_SLEEP)
    else if line == "on" then SetPowerMode(POWER_MODE_ON)
    else if line == "2g" then SetRange(RANGE_2_G)
    else if line == "4g" then SetRange(RANGE_4_G)
    else if line == "r" then Reset
    else if line == "e" then Exit
    else Ignore
  }

  /** The command line that selects an action, if there is one. */
  function CommandLine(a: Action): Option<string> {
    match a
    case SetWakeUpFrequency(f) =>
      if f == WAKEUP_FREQUENCY_5HZ then Some("5hz")
      else if f == WAKEUP_FREQUENCY_1_25HZ then Some("1.25hz")
      else if f == WAKEUP_FREQUENCY_20HZ then Some("20hz")
      else None
    case SetPowerMode(m) =>
      if m == POWER_MODE_CYCLE then Some("cycle")
      else if m == POWER_MODE_SLEEP then Some("sleep")
      else if m == POWER_MODE_ON then Some("on")
      else None
    case SetRange(r) =>
      if r == RANGE_2_G then Some("2g") else if r == RANGE_4_G then Some("4g") else None
    case Reset => Some("r")
    case Exit => Some("e")
    case Ignore => None
  }

  /** Every recognised line is the command line of the action it selects. */
  lemma DispatchThenCommandLine(line: string)
    requires line in COMMANDS
    ensures CommandLine(Dispatch(line)) == Some(line)
  {
  }

  /** Every action that has a command line is selected by it: each command maps to one call. */
  lemma CommandLineThenDispatch(a: Action, line: string)
    requires CommandLine(a) == Some(line)
    ensures Dispatch(line) == a
  {
  }

  /** The lines for the 8 g and 16 g ranges and for 40 Hz have no branch and are ignored. */
  lemma UnlistedSettingsIgnored()
    ensures Dispatch("8g") == Ignore && Dispatch("16g") == Ignore && Dispatch("40hz") == Ignore
  {
  }

  /** The state after the driver call an action stands for. */
  function Perform(s: Snapshot, a: Action): (r: Snapshot)
    ensures IsPowerMode(s.mode) ==> IsPowerMode(r.mode)
    ensures a == Exit || a == Ignore ==> r == s
    ensures a.SetWakeUpFrequency? || a == Reset ==> r.mode == s.mode
  {
    match a
    case SetWakeUpFrequency(f) => SetWakeUpFrequencySpec(s, f)
    case SetPowerMode(m) => SetPowerModeSpec(s, m)
    case SetRange(range) => SetRangeSpec(s, range)
    case Reset => ResetSpec(s)
    case Exit => s
    case Ignore => s
  }

  /** The configuration sequence before sampling starts: ON, 2 g, CYCLE, 1.25 Hz. */
  function StartupSpec(s: Snapshot): (r: Snapshot)
    ensures r.mode == POWER_MODE_CYCLE
    ensures DecodeMode(r.regs[REG_PWR_MGMT_1]) == Some(POWER_MODE_CYCLE)
    ensures r.regs[REG_PWR_MGMT_1] & 0x9F == s.regs[REG_PWR_MGMT_1] & 0x9F
    ensures RangeField(r.regs[REG_ACCEL_CONFIG]) as int == RANGE_2_G
    ensures r.regs[REG_ACCEL_CONFIG] & 0xE7 == s.regs[REG_ACCEL_CONFIG] & 0xE7
    ensures WakeUpField(r.regs[REG_PWR_MGMT_2]) as int == WAKEUP_FREQUENCY_1_25HZ
    ensures r.regs[REG_PWR_MGMT_2] & 0x3F == s.regs[REG_PWR_MGMT_2] & 0x3F
    ensures forall a: RegAddr :: a != REG_PWR_MGMT_1 && a != REG_ACCEL_CONFIG && a != REG_PWR_MGMT_2 ==>
      r.regs[a] == s.regs[a]
  {
    var on := SetPowerModeSpec(s, POWER_MODE_ON);
    var ranged := SetRangeSpec(on, RANGE_2_G);
    var cycling := SetPowerModeSpec(ranged, POWER_MODE_CYCLE);
    SetWakeUpFrequencySpec(cycling, WAKEUP_FREQUENCY_1_25HZ)
  }

  /** How the console loop ended: on the line "e", or because the input ran out. */
  datatype LoopEnd = Exited | EndOfInput

  datatype LoopResult = LoopResult(state: Snapshot, end: LoopEnd)

  /** The console loop over the lines `lines`, from state `s`. */
  function CommandLoopSpec(s: Snapshot, lines: seq<string>): (r: LoopResult)
    ensures r.end == Exited <==> "e" in lines
    ensures IsPowerMode(s.mode) ==> IsPowerMode(r.state.mode)
    decreases |lines|
  {
    if lines == [] then LoopResult(s, EndOfInput)
    else if Dispatch(lines[0]) == Exit then LoopResult(s, Exited)
    else CommandLoopSpec(Perform(s, Dispatch(lines[0])), lines[1..])
  }

  /**
   * The whole program as written: at the end of the input `readLine`
   * returns null and `read.equals(...)` throws, so the shutdown is skipped.
   */
  function SessionAsWritten(s: Snapshot, lines: seq<string>): (r: Snapshot)
    ensures "e" in lines ==> r.mode == POWER_MODE_SLEEP
    ensures "e" !in lines ==> r.trace == CommandLoopSpec(StartupSpec(s), lines).state.trace
  {
    var run := CommandLoopSpec(StartupSpec(s), lines);
    if run.end == Exited then SetPowerModeSpec(run.state, POWER_MODE_SLEEP) else run.state
  }

  /** The whole program with the end of the input ending the loop like "e". */
  function Session(s: Snapshot, lines: seq<string>): (r: Snapshot)
    ensures r.mode == POWER_MODE_SLEEP
    ensures DecodeMode(r.regs[REG_PWR_MGMT_1]) == Some(POWER_MODE_SLEEP)
  {
    SetPowerModeSpec(CommandLoopSpec(StartupSpec(s), lines).state, POWER_MODE_SLEEP)
  }

  /** With an empty console input the program as written leaves the sensor cycling. */
  lemma EndOfInputSkipsSleep(s: Snapshot)
    ensures SessionAsWritten(s, []).mode == POWER_MODE_CYCLE
    ensures DecodeMode(SessionAsWritten(s, []).regs[REG_PWR_MGMT_1]) == Some(POWER_MODE_CYCLE)
    ensures Session(s, []).mode == POWER_MODE_SLEEP
  {
    assert CommandLoopSpec(StartupSpec(s), []) == LoopResult(StartupSpec(s), EndOfInput);
  }

  /** Whenever the input holds "e" the corrected program behaves exactly as written. */
  lemma SessionMatchesAsWritten(s: Snapshot, lines: seq<string>)
    requires "e" in lines
    ensures Session(s, lines) == SessionAsWritten(s, lines)
  {
  }

  /** Performs the driver call of an action. */
  method Apply(driver: MPU9150, a: Action)
    requires driver.Valid()
    modifies driver, driver.sensor
    ensures driver.Valid()
    ensures driver.State() == Perform(old(driver.State()), a)
  {
    match a
    case SetWakeUpFrequency(f) => driver.SetWakeUpFrequency(f);
    case SetPowerMode(m) => driver.SetPowerMode(m);
    case SetRange(range) => driver.SetRange(range);
    case Reset => driver.Reset();
    case Exit =>
    case Ignore =>
  }

  method Startup(driver: MPU9150)
    requires driver.Valid()
    modifies driver, driver.sensor
    ensures driver.Valid()
    ensures driver.State() == StartupSpec(old(driver.State()))
  {
    driver.SetPowerMode(POWER_MODE_ON);
    driver.SetRange(RANGE_2_G);
    driver.SetPowerMode(POWER_MODE_CYCLE);
    driver.SetWakeUpFrequency(WAKEUP_FREQUENCY_1_25HZ);
  }

  /** The console loop: one driver call per line until the line "e". */
  method CommandLoop(driver: MPU9150, input: seq<string>) returns (end: LoopEnd)
    requires driver.Valid()
    modifies driver, driver.sensor
    ensures driver.Valid()
    ensures LoopResult(driver.State(), end) == CommandLoopSpec(old(driver.State()), input)
  {
    var i := 0;
    while i < |input|
      invariant 0 <= i <= |input|
      invariant driver.Valid()
      invariant CommandLoopSpec(driver.State(), input[i..]) == CommandLoopSpec(old(driver.State()), input)
      decreases |input| - i
    {
      assert input[i..][0] == input[i] && input[i..][1..] == input[i + 1..];
      var a := Dispatch(input[i]);
      if a == Exit {
        return Exited;
      }
      Apply(driver, a);
      i := i + 1;
    }
    return EndOfInput;
  }

  /**
   * The program: configure, start sampling, run the console loop, stop
   * sampling and put the sensor to sleep.  The end of the input ends the
   * loop as "e" does.
   */
  method Run(driver: MPU9150, input: seq<string>) returns (reader: DataReader)
    requires driver.Valid()
    modifies driver, driver.sensor
    ensures driver.Valid()
    ensures driver.State() == Session(old(driver.State()), input)
    ensures fresh(reader) && reader.stopping
  {
    Startup(driver);
    // startReading
    reader := new DataReader();
    var _ := CommandLoop(driver, input);
    // stopReading
    reader.MakeStop();
    driver.SetPowerMode(POWER_MODE_SLEEP);
  }

  /** One line of the sampling output: the sample number and the raw acceleration. */
  datatype Sample = Sample(number: Int32, accel: seq<int>)

  /** What the hardware presents at one turn of the sampling loop. */
  datatype Poll = Poll(status: bv8, reply: seq<bv8>)

  predicate Ready(status: bv8) {
    status & 0x01 == 0x01
  }

  /** How many of the polls find the data-ready bit set. */
  function ReadyCount(polls: seq<Poll>): nat
  {
    if polls == [] then 0
    else ReadyCount(polls[..|polls| - 1]) + (if Ready(polls[|polls| - 1].status) then 1 else 0)
  }

  /** One more poll adds one to the count exactly when it finds the data ready. */
  lemma ReadyCountAppend(polls: seq<Poll>, p: Poll)
    ensures ReadyCount(polls + [p]) == ReadyCount(polls) + if Ready(p.status) then 1 else 0
  {
    assert (polls + [p])[..|polls|] == polls;
  }

  /** The counter after `i + 1` polls is the counter after `i` polls, stepped for poll `i`. */
  lemma CountedStep(start: int, polls: seq<Poll>, i: nat)
    requires i < |polls|
    ensures Wrap32(start + ReadyCount(polls[..i + 1]))
         == Wrap32(Wrap32(start + ReadyCount(polls[..i])) + if Ready(polls[i].status) then 1 else 0)
  {
    assert polls[..i + 1] == polls[..i] + [polls[i]];
    ReadyCountAppend(polls[..i], polls[i]);
    Wrap32Step(start + ReadyCount(polls[..i]), if Ready(polls[i].status) then 1 else 0);
  }

  /** The sampling loop of the reader thread. */
  class DataReader {
    var stopping: bool
    var number: Int32

    constructor ()
      ensures !stopping && number == 0
    {
      stopping := false;
      number := 0;
    }

    method MakeStop()
      modifies this`stopping
      ensures stopping
    {
      stopping := true;
    }

    /**
     * One turn of the loop: poll the data-ready flag; when it is set, read
     * the acceleration and count the sample, whether or not all six bytes
     * arrived.
     */
    method Iteration(driver: MPU9150, reply: seq<bv8>) returns (sample: Option<Sample>)
      requires |reply| <= 6
      modifies this`number, driver.sensor`trace
      ensures Ready(driver.sensor.regs[REG_INT_STATUS]) ==>
        number == Wrap32(old(number) + 1) &&
        sample == Some(Sample(old(number), DecodeVector(Padded(reply, 6)))) &&
        driver.State() == old(driver.State()).(trace := old(driver.sensor.trace) +
                                                 [ReadByte(REG_INT_STATUS), ReadBlock(REG_ACCEL_XOUT_H, 6)])
      ensures !Ready(driver.sensor.regs[REG_INT_STATUS]) ==>
        number == old(number) && sample == None &&
        driver.State() == old(driver.State()).(trace := old(driver.sensor.trace) + [ReadByte(REG_INT_STATUS)])
    {
      var ready := driver.IsDataReady();
      if !ready {
        return None;
      }
      var accelData := new int[3];
      var datacount := driver.ReadAcceleration(accelData, reply);
      // a count other than 6 only prints a warning
      sample := Some(Sample(number, accelData[..]));
      number := Wrap32(number + 1);
    }

    /**
     * The loop `while (!stopping)` over the turns the hardware presents:
     * before each turn the sensor latches the poll's status into INT_STATUS.
     */
    method Run(driver: MPU9150, polls: seq<Poll>)
      requires forall i :: 0 <= i < |polls| ==> |polls[i].reply| <= 6
      modifies this`number, driver.sensor
      ensures number == if old(stopping) then old(number) else Wrap32(old(number) + ReadyCount(polls))
      ensures driver.mode == old(driver.mode)
      ensures forall a: RegAddr :: a != REG_INT_STATUS ==> driver.sensor.regs[a] == old(driver.sensor.regs[a])
    {
      var i := 0;
      while i < |polls| && !stopping
        invariant 0 <= i <= |polls|
        invariant stopping == old(stopping)
        invariant old(stopping) ==> i == 0
        invariant number == Wrap32(old(number) + ReadyCount(polls[..i]))
        invariant forall a: RegAddr :: a != REG_INT_STATUS ==> driver.sensor.regs[a] == old(driver.sensor.regs[a])
        decreases |polls| - i
      {
        driver.sensor.Latch(REG_INT_STATUS, polls[i].status);
        var _ := Iteration(driver, polls[i].reply);
        CountedStep(old(number), polls, i);
        i := i + 1;
      }
      assert !old(stopping) ==> polls[..i] == polls;
    }
  }
}
