/**
 * The MPU-9150 register-level driver: a power-mode state machine kept in
 * the field `mode`, read-modify-write updates of single configuration
 * registers, and burst reads of 16-bit big-endian measurement registers.
 *
 * The pure part of this module describes one driver state (`Snapshot`:
 * the mode field, the device's registers and its bus trace) and, for every
 * configuration operation, the state it leads to.  The class `MPU9150`
 * performs the operations on a device and is proved to reach exactly those
 * states.
 */
module MPU9150 {
  import opened Bits
  import opened I2C
  import opened Wrappers

  // The register map.
  const REG_DEVID: RegAddr := 0x00
  const REG_ACCEL_CONFIG: RegAddr := 0x1C
  const REG_FIFOENABLE: RegAddr := 0x23
  const REG_INT_STATUS: RegAddr := 0x3A
  const REG_ACCEL_XOUT_H: RegAddr := 0x3B
  const REG_TEMP_OUT_H: RegAddr := 0x41
  const REG_GYRO_XOUT_H: RegAddr := 0x43
  const REG_USERCONTROL: RegAddr := 0x6A
  const REG_PWR_MGMT_1: RegAddr := 0x6B
  const REG_PWR_MGMT_2: RegAddr := 0x6C
  const REG_FIFO_COUNT_H: RegAddr := 0x72
  const REG_FIFO_COUNT_L: RegAddr := 0x73

  // Full-scale range codes of the accelerometer (bits 3-4 of ACCEL_CONFIG).
  const RANGE_2_G := 0x00
  const RANGE_4_G := 0x01
  const RANGE_8_G := 0x02
  const RANGE_16_G := 0x03

  // Wake-up frequency codes of cycle mode (bits 6-7 of PWR_MGMT_2).
  const WAKEUP_FREQUENCY_1_25HZ := 0x00
  const WAKEUP_FREQUENCY_5HZ := 0x01
  const WAKEUP_FREQUENCY_20HZ := 0x02
  const WAKEUP_FREQUENCY_40HZ := 0x03

  // Power modes, the values of the field `mode`.
  const POWER_MODE_ON := 0x00
  const POWER_MODE_SLEEP := 0x01
  const POWER_MODE_CYCLE := 0x02

  predicate IsPowerMode(m: int) {
    m == POWER_MODE_ON || m == POWER_MODE_SLEEP || m == POWER_MODE_CYCLE
  }

  /** Bits 5-6 of PWR_MGMT_1 for a power mode: bit 6 is SLEEP, bit 5 is CYCLE. */
  function ModeBits(m: int): (b: bv8)
    requires IsPowerMode(m)
    ensures b & 0x9F == 0
    ensures b != 0x60
  {
    if m == POWER_MODE_SLEEP then 0x40 else if m == POWER_MODE_CYCLE then 0x20 else 0x00
  }

  /** The power mode that bits 5-6 of a PWR_MGMT_1 value select, if any. */
  function DecodeMode(v: bv8): Option<int> {
    match v & 0x60
    case 0x00 => Some(POWER_MODE_ON)
    case 0x40 => Some(POWER_MODE_SLEEP)
    case 0x20 => Some(POWER_MODE_CYCLE)
    case _ => None
  }

  /** The range code held in bits 3-4 of an ACCEL_CONFIG value. */
  function RangeField(v: bv8): bv8 {
    (v >> 3) & 0x03
  }

  /** The wake-up frequency code held in bits 6-7 of a PWR_MGMT_2 value. */
  function WakeUpField(v: bv8): bv8 {
    v >> 6
  }

  /** PWR_MGMT_1 after selecting mode `m` on a register that held `prev`. */
  function PowerMgmt1With(prev: bv8, m: int): (v: bv8)
    requires IsPowerMode(m)
    ensures v & 0x9F == prev & 0x9F
    ensures DecodeMode(v) == Some(m)
  {
    (prev & 0x9F) | ModeBits(m)
  }

  /** ACCEL_CONFIG after selecting range code `range` on a register that held `prev`. */
  function AccelConfigWith(prev: bv8, range: int): (v: bv8)
    ensures v & 0xE7 == prev & 0xE7
    ensures RangeField(v) == Low2(range)
  {
    (prev & 0xE7) | (Low2(range) << 3)
  }

  /**
   * PWR_MGMT_2 after selecting frequency code `frequency` on a register that
   * held `prev`.  Java computes `frequency << 6` in 32 bits and the `(byte)`
   * cast keeps only the two lowest bits of `frequency`.
   */
  function PowerMgmt2With(prev: bv8, frequency: int): (v: bv8)
    ensures v & 0x3F == prev & 0x3F
    ensures WakeUpField(v) == Low2(frequency)
  {
    (prev & 0x3F) | (Low2(frequency) << 6)
  }

  /** What the driver knows and has done: its `mode` field, the device's registers, the bus trace. */
  datatype Snapshot = Snapshot(mode: int, regs: RegFile, trace: seq<Transfer>)

  /** The state after `setPowerMode(m)`; a value that is no power mode changes nothing. */
  function SetPowerModeSpec(s: Snapshot, m: int): (r: Snapshot)
    ensures IsPowerMode(m) ==> r.mode == m
    ensures IsPowerMode(m) ==> DecodeMode(r.regs[REG_PWR_MGMT_1]) == Some(m)
    ensures IsPowerMode(m) ==> r.regs[REG_PWR_MGMT_1] & 0x9F == s.regs[REG_PWR_MGMT_1] & 0x9F
    ensures forall a: RegAddr :: a != REG_PWR_MGMT_1 ==> r.regs[a] == s.regs[a]
    ensures IsPowerMode(m) ==>
      r.trace == s.trace + [ReadByte(REG_PWR_MGMT_1), WriteByte(REG_PWR_MGMT_1, r.regs[REG_PWR_MGMT_1])]
    ensures !IsPowerMode(m) ==> r == s
  {
    if IsPowerMode(m) then
      var v := PowerMgmt1With(s.regs[REG_PWR_MGMT_1], m);
      Snapshot(m, s.regs[REG_PWR_MGMT_1 := v],
               s.trace + [ReadByte(REG_PWR_MGMT_1), WriteByte(REG_PWR_MGMT_1, v)])
    else
      s
  }

  /**
   * The state after `setRange(range)`: switch to ON, rewrite bits 3-4 of
   * ACCEL_CONFIG, and switch back to the mode saved at the start.
   */
  function SetRangeSpec(s: Snapshot, range: int): (r: Snapshot)
    ensures RangeField(r.regs[REG_ACCEL_CONFIG]) == Low2(range)
    ensures r.regs[REG_ACCEL_CONFIG] & 0xE7 == s.regs[REG_ACCEL_CONFIG] & 0xE7
    ensures IsPowerMode(s.mode) ==> r.mode == s.mode
    ensures IsPowerMode(s.mode) ==> r.regs[REG_PWR_MGMT_1] == PowerMgmt1With(s.regs[REG_PWR_MGMT_1], s.mode)
    ensures !IsPowerMode(s.mode) ==> r.mode == POWER_MODE_ON
    ensures forall a: RegAddr :: a != REG_PWR_MGMT_1 && a != REG_ACCEL_CONFIG ==> r.regs[a] == s.regs[a]
    ensures IsPowerMode(s.mode) ==>
      r.trace == s.trace + [ReadByte(REG_PWR_MGMT_1), WriteByte(REG_PWR_MGMT_1, s.regs[REG_PWR_MGMT_1] & 0x9F),
                            ReadByte(REG_ACCEL_CONFIG), WriteByte(REG_ACCEL_CONFIG, r.regs[REG_ACCEL_CONFIG]),
                            ReadByte(REG_PWR_MGMT_1), WriteByte(REG_PWR_MGMT_1, r.regs[REG_PWR_MGMT_1])]
  {
    var on := SetPowerModeSpec(s, POWER_MODE_ON);
    var v := AccelConfigWith(on.regs[REG_ACCEL_CONFIG], range);
    var configured := on.(regs := on.regs[REG_ACCEL_CONFIG := v],
                          trace := on.trace + [ReadByte(REG_ACCEL_CONFIG), WriteByte(REG_ACCEL_CONFIG, v)]);
    SetPowerModeSpec(configured, s.mode)
  }

  /** The state after `setWakeUpFrequency(frequency)`. */
  function SetWakeUpFrequencySpec(s: Snapshot, frequency: int): (r: Snapshot)
    ensures r.mode == s.mode
    ensures WakeUpField(r.regs[REG_PWR_MGMT_2]) == Low2(frequency)
    ensures r.regs[REG_PWR_MGMT_2] & 0x3F == s.regs[REG_PWR_MGMT_2] & 0x3F
    ensures forall a: RegAddr :: a != REG_PWR_MGMT_2 ==> r.regs[a] == s.regs[a]
    ensures r.trace == s.trace + [ReadByte(REG_PWR_MGMT_2), WriteByte(REG_PWR_MGMT_2, r.regs[REG_PWR_MGMT_2])]
  {
    var v := PowerMgmt2With(s.regs[REG_PWR_MGMT_2], frequency);
    s.(regs := s.regs[REG_PWR_MGMT_2 := v],
       trace := s.trace + [ReadByte(REG_PWR_MGMT_2), WriteByte(REG_PWR_MGMT_2, v)])
  }

  /** The state after `reset()`: the device-reset bit is written, the driver's mode is not touched. */
  function ResetSpec(s: Snapshot): (r: Snapshot)
    ensures r.mode == s.mode
    ensures r.regs[REG_PWR_MGMT_1] == 0x80
    ensures forall a: RegAddr :: a != REG_PWR_MGMT_1 ==> r.regs[a] == s.regs[a]
    ensures r.trace == s.trace + [WriteByte(REG_PWR_MGMT_1, 0x80)]
  {
    s.(regs := s.regs[REG_PWR_MGMT_1 := 0x80], trace := s.trace + [WriteByte(REG_PWR_MGMT_1, 0x80)])
  }

  /** The bytes of a burst read: the bus's reply, then the zeros of a fresh Java array. */
  function Padded(reply: seq<bv8>, n: nat): (b: seq<bv8>)
    requires |reply| <= n
    ensures |b| == n
    ensures b[..|reply|] == reply
    ensures forall i :: |reply| <= i < n ==> b[i] == 0
  {
    reply + seq(n - |reply|, _ => 0)
  }

  /** Three signed 16-bit values from six big-endian bytes. */
  function DecodeVector(b: seq<bv8>): (v: seq<int>)
    requires |b| == 6
    ensures |v| == 3
    ensures forall i :: 0 <= i < 3 ==> IsInt16(v[i])
  {
    [Decode16(b[0], b[1]), Decode16(b[2], b[3]), Decode16(b[4], b[5])]
  }

  /** The six big-endian bytes of three signed 16-bit values. */
  function EncodeVector(v: seq<int>): (b: seq<bv8>)
    requires |v| == 3 && forall i :: 0 <= i < 3 ==> IsInt16(v[i])
    ensures |b| == 6
  {
    [High8(v[0]), Low8(v[0]), High8(v[1]), Low8(v[1]), High8(v[2]), Low8(v[2])]
  }

  /** Bits 5-6 select a mode exactly when they hold that mode's pattern. */
  lemma DecodeModeCorrect(v: bv8, m: int)
    ensures DecodeMode(v) == Some(m) <==> IsPowerMode(m) && v & 0x60 == ModeBits(m)
  {
    if IsPowerMode(m) && v & 0x60 == ModeBits(m) {
      assert DecodeMode(v) == Some(m);
    }
  }

  /** A PWR_MGMT_1 value keeps bits 0-4 and 7 and selects `m` exactly when it is the one written. */
  lemma PowerMgmt1Determined(prev: bv8, m: int, v: bv8)
    requires IsPowerMode(m)
    ensures (v & 0x9F == prev & 0x9F && DecodeMode(v) == Some(m)) <==> v == PowerMgmt1With(prev, m)
  {
    if v & 0x9F == prev & 0x9F && DecodeMode(v) == Some(m) {
      DecodeModeCorrect(v, m);
      assert v == (v & 0x9F) | (v & 0x60);
    }
  }

  /** An ACCEL_CONFIG value keeps the bits of mask 0xE7 and holds the range code exactly when it is the one written. */
  lemma AccelConfigDetermined(prev: bv8, range: int, v: bv8)
    ensures (v & 0xE7 == prev & 0xE7 && RangeField(v) == Low2(range)) <==> v == AccelConfigWith(prev, range)
  {
    if v & 0xE7 == prev & 0xE7 && RangeField(v) == Low2(range) {
      assert v == (v & 0xE7) | (RangeField(v) << 3);
    }
  }

  /** A PWR_MGMT_2 value keeps bits 0-5 and holds the frequency code exactly when it is the one written. */
  lemma PowerMgmt2Determined(prev: bv8, frequency: int, v: bv8)
    ensures (v & 0x3F == prev & 0x3F && WakeUpField(v) == Low2(frequency)) <==> v == PowerMgmt2With(prev, frequency)
  {
    if v & 0x3F == prev & 0x3F && WakeUpField(v) == Low2(frequency) {
      assert v == (v & 0x3F) | (WakeUpField(v) << 6);
    }
  }

  /** Selecting a mode overwrites bits 5-6 entirely: the earlier mode leaves no trace. */
  lemma PowerMgmt1Overwrites(v: bv8, m1: int, m2: int)
    requires IsPowerMode(m1) && IsPowerMode(m2)
    ensures PowerMgmt1With(PowerMgmt1With(v, m1), m2) == PowerMgmt1With(v, m2)
  {
  }

  /** Of two power-mode changes only the last one shows in the registers. */
  lemma SetPowerModeLastWins(s: Snapshot, m1: int, m2: int)
    requires IsPowerMode(m1) && IsPowerMode(m2)
    ensures SetPowerModeSpec(SetPowerModeSpec(s, m1), m2).regs == SetPowerModeSpec(s, m2).regs
    ensures SetPowerModeSpec(SetPowerModeSpec(s, m1), m2).mode == m2
  {
    var v := s.regs[REG_PWR_MGMT_1];
    var once := SetPowerModeSpec(s, m1);
    var twice := SetPowerModeSpec(once, m2);
    PowerMgmt1Overwrites(v, m1, m2);
    assert once.regs[REG_PWR_MGMT_1] == PowerMgmt1With(v, m1);
    assert twice.regs[REG_PWR_MGMT_1] == PowerMgmt1With(v, m2);
    assert forall a: RegAddr :: twice.regs[a] == SetPowerModeSpec(s, m2).regs[a];
  }

  /** Setting the same power mode twice leaves the registers and `mode` as setting it once. */
  lemma SetPowerModeIdempotent(s: Snapshot, m: int)
    ensures SetPowerModeSpec(SetPowerModeSpec(s, m), m).regs == SetPowerModeSpec(s, m).regs
    ensures SetPowerModeSpec(SetPowerModeSpec(s, m), m).mode == SetPowerModeSpec(s, m).mode
  {
    if IsPowerMode(m) {
      SetPowerModeLastWins(s, m, m);
    }
  }

  /** Reading ACCEL_CONFIG back after `setRange(range)` with a valid code gives that code. */
  lemma SetRangeReadBack(s: Snapshot, range: int)
    requires RANGE_2_G <= range <= RANGE_16_G
    ensures RangeField(SetRangeSpec(s, range).regs[REG_ACCEL_CONFIG]) as int == range
    ensures IsPowerMode(s.mode) ==> SetRangeSpec(s, range).mode == s.mode
  {
  }

  /** Reading PWR_MGMT_2 back after `setWakeUpFrequency(frequency)` with a valid code gives that code. */
  lemma SetWakeUpFrequencyReadBack(s: Snapshot, frequency: int)
    requires WAKEUP_FREQUENCY_1_25HZ <= frequency <= WAKEUP_FREQUENCY_40HZ
    ensures WakeUpField(SetWakeUpFrequencySpec(s, frequency).regs[REG_PWR_MGMT_2]) as int == frequency
  {
  }

  /** Decoding the encoding of three signed 16-bit values returns them. */
  lemma {:induction false} VectorDecodeEncode(v: seq<int>)
    requires |v| == 3 && forall i :: 0 <= i < 3 ==> IsInt16(v[i])
    ensures DecodeVector(EncodeVector(v)) == v
  {
    DecodeEncode(v[0]);
    DecodeEncode(v[1]);
    DecodeEncode(v[2]);
  }

  /** Every six bytes are the encoding of the three values they decode to. */
  lemma {:induction false} VectorEncodeDecode(b: seq<bv8>)
    requires |b| == 6
    ensures EncodeVector(DecodeVector(b)) == b
  {
    EncodeDecode(b[0], b[1]);
    EncodeDecode(b[2], b[3]);
    EncodeDecode(b[4], b[5]);
  }

  /** The burst `[0x40, 0x00, 0x00, 0x00, 0xC0, 0x00]` is +1 g, 0 g, -1 g at the 2 g scale. */
  lemma DecodeVectorExample()
    ensures DecodeVector([0x40, 0x00, 0x00, 0x00, 0xC0, 0x00]) == [0x4000, 0, -0x4000]
  {
  }

  /** The driver object of one device. */
  class MPU9150 {
    const sensor: I2CDevice
    var mode: int

    /** `mode` only ever holds a power mode. */
    ghost predicate Valid()
      reads this
    {
      IsPowerMode(mode)
    }

    ghost function State(): Snapshot
      reads this, sensor
    {
      Snapshot(mode, sensor.regs, sensor.trace)
    }

    constructor (device: I2CDevice)
      ensures sensor == device && mode == POWER_MODE_ON
      ensures Valid()
    {
      sensor := device;
      mode := POWER_MODE_ON;
    }

    /** The identity register, as an unsigned byte. */
    method GetDeviceID() returns (id: int)
      modifies sensor`trace
      ensures 0 <= id < 0x100 && id == sensor.regs[REG_DEVID] as int
      ensures State() == old(State()).(trace := old(sensor.trace) + [ReadByte(REG_DEVID)])
    {
      var b := sensor.Read(REG_DEVID);
      id := b as int;
    }

    method SetRange(range: Int32)
      requires Valid()
      modifies this`mode, sensor
      ensures Valid()
      ensures State() == SetRangeSpec(old(State()), range)
    {
      var temp := mode;
      SetPowerMode(POWER_MODE_ON);
      var b := sensor.Read(REG_ACCEL_CONFIG);
      var format := (b & 0xE7) | (Low2(range) << 3);
      sensor.Write(REG_ACCEL_CONFIG, format);
      SetPowerMode(temp);
    }

    method SetPowerMode(m: Int32)
      requires Valid()
      modifies this`mode, sensor
      ensures Valid()
      ensures State() == SetPowerModeSpec(old(State()), m)
    {
      if m == POWER_MODE_ON {
        var b := sensor.Read(REG_PWR_MGMT_1);
        var format := b & 0x9F;
        sensor.Write(REG_PWR_MGMT_1, format);
        mode := m;
      } else if m == POWER_MODE_SLEEP {
        var b := sensor.Read(REG_PWR_MGMT_1);
        var format := (b & 0x9F) | 0x40;
        sensor.Write(REG_PWR_MGMT_1, format);
        mode := m;
      } else if m == POWER_MODE_CYCLE {
        var b := sensor.Read(REG_PWR_MGMT_1);
        var format := (b & 0x9F) | 0x20;
        sensor.Write(REG_PWR_MGMT_1, format);
        mode := m;
      }
    }

    method SetWakeUpFrequency(frequency: Int32)
      modifies sensor
      ensures State() == SetWakeUpFrequencySpec(old(State()), frequency)
    {
      var b := sensor.Read(REG_PWR_MGMT_2);
      var format := (b & 0x3F) | (Low2(frequency) << 6);
      sensor.Write(REG_PWR_MGMT_2, format);
    }

    /**
     * One burst read of six bytes at `reg` decoded into `store`; fails
     * without touching the bus when `store` does not hold three values.
     * The bus's byte count is returned, a short read is not an error.
     */
    method ReadVector(reg: RegAddr, store: array<int>, reply: seq<bv8>) returns (r: Result<int, string>)
      requires |reply| <= 6
      modifies sensor`trace, store
      ensures store.Length != 3 ==> r.Err? && store[..] == old(store[..]) && State() == old(State())
      ensures store.Length == 3 ==> r == Ok(|reply|) && store[..] == DecodeVector(Padded(reply, 6))
      ensures store.Length == 3 ==> State() == old(State()).(trace := old(sensor.trace) + [ReadBlock(reg, 6)])
    {
      if store.Length != 3 {
        return Err("Store array must be 3 double");
      }
      var data := new bv8[6](_ => 0);
      var read := sensor.ReadInto(reg, data, 0, 6, reply);
      assert data[..] == Padded(reply, 6);
      store[0] := Decode16(data[0], data[1]);
      store[1] := Decode16(data[2], data[3]);
      store[2] := Decode16(data[4], data[5]);
      r := Ok(read);
    }

    method ReadAcceleration(store: array<int>, reply: seq<bv8>) returns (r: Result<int, string>)
      requires |reply| <= 6
      modifies sensor`trace, store
      ensures store.Length != 3 ==> r.Err? && store[..] == old(store[..]) && State() == old(State())
      ensures store.Length == 3 ==> r == Ok(|reply|) && store[..] == DecodeVector(Padded(reply, 6))
      ensures store.Length == 3 ==>
        State() == old(State()).(trace := old(sensor.trace) + [ReadBlock(REG_ACCEL_XOUT_H, 6)])
    {
      r := ReadVector(REG_ACCEL_XOUT_H, store, reply);
    }

    method ReadGyroscope(store: array<int>, reply: seq<bv8>) returns (r: Result<int, string>)
      requires |reply| <= 6
      modifies sensor`trace, store
      ensures store.Length != 3 ==> r.Err? && store[..] == old(store[..]) && State() == old(State())
      ensures store.Length == 3 ==> r == Ok(|reply|) && store[..] == DecodeVector(Padded(reply, 6))
      ensures store.Length == 3 ==>
        State() == old(State()).(trace := old(sensor.trace) + [ReadBlock(REG_GYRO_XOUT_H, 6)])
    {
      r := ReadVector(REG_GYRO_XOUT_H, store, reply);
    }

    /** The raw temperature count of a two-byte burst read; the byte count is ignored. */
    method ReadTemperatureRaw(reply: seq<bv8>) returns (raw: int)
      requires |reply| <= 2
      modifies sensor`trace
      ensures IsInt16(raw)
      ensures raw == Decode16(Padded(reply, 2)[0], Padded(reply, 2)[1])
      ensures State() == old(State()).(trace := old(sensor.trace) + [ReadBlock(REG_TEMP_OUT_H, 2)])
    {
      var temp := new bv8[2](_ => 0);
      var _ := sensor.ReadInto(REG_TEMP_OUT_H, temp, 0, 2, reply);
      assert temp[..] == Padded(reply, 2);
      raw := Decode16(temp[0], temp[1]);
    }

    /** Whether bit 0 (data ready) of INT_STATUS is set. */
    method IsDataReady() returns (ready: bool)
      modifies sensor`trace
      ensures ready <==> sensor.regs[REG_INT_STATUS] & 0x01 == 0x01
      ensures State() == old(State()).(trace := old(sensor.trace) + [ReadByte(REG_INT_STATUS)])
    {
      var b := sensor.Read(REG_INT_STATUS);
      ready := (b & 0x01) != 0;
    }

    method Reset()
      modifies sensor
      ensures State() == ResetSpec(old(State()))
    {
      sensor.Write(REG_PWR_MGMT_1, 0x80);
    }
  }
}
