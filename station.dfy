/** The period scheduler of src/main.cpp's `loop` over the globals that
    src/main.h declares: the three period timers, each a "last fired" time
    and a turn-around flag, the shared `now`, and the `sensorsData` record
    that the sampling tick fills and the transmit tick clears.

    `millis()` is an input: the reading at the start of the loop and the
    second reading taken after sampling. The sensor readings of one sampling
    tick are an input too. */
module Station {

  import opened MachineInts
  import opened Options
  import opened Sensors

  /** power_supply_e of include/ats_02_setup.h. */
  datatype PowerSupply = BATTERY | POWER_LINE

  /** POWER_SUPPLY of include/ats_02_setup.h: the firmware is built for mains
      power. */
  const ConfiguredPowerSupply: PowerSupply := POWER_LINE

  /** The periods in milliseconds: 1 s, ten times that, five times that. */
  const SystemPeriod: uint32 := 1000
  const SamplingPeriod: uint32 := 10 * SystemPeriod
  const TxPeriod: uint32 := 5 * SamplingPeriod

  // ---------------------------------------------------------------------
  // One period check
  // ---------------------------------------------------------------------

  /** A period's state: when it last fired and its turn-around flag. */
  datatype Timer = Timer(last: uint32, turnAround: bool)

  /** `now - last` in `unsigned long` arithmetic. */
  function Elapsed(now: uint32, last: uint32): uint32 {
    ToUint32(now - last)
  }

  /** `UINT32_MAX - last + now` in `unsigned long` arithmetic. */
  function WrapSpan(now: uint32, last: uint32): uint32 {
    ToUint32(Uint32Max - last + now)
  }

  /** The turn-around test: the flag is raised when the clock is behind
      `last` and the span across the wrap reaches the period. */
  function DetectTurnAround(t: Timer, now: uint32, period: uint32): Timer {
    if now < t.last && WrapSpan(now, t.last) >= period then t.(turnAround := true) else t
  }

  /** Whether the check fires, the flag test included. */
  function Fires(t: Timer, now: uint32, period: uint32): bool {
    var d := DetectTurnAround(t, now, period);
    Elapsed(now, d.last) >= period || d.turnAround
  }

  /** The timer after the check: on firing `last := now` and the flag is
      cleared. */
  function CheckPeriod(t: Timer, now: uint32, period: uint32): Timer {
    if Fires(t, now, period) then Timer(now, false) else DetectTurnAround(t, now, period)
  }

  /** While the clock is behind `last` the wrap span does not itself wrap,
      and the modular elapsed time is one more than it. */
  lemma WrapSpanExact(now: uint32, last: uint32)
    requires now < last
    ensures WrapSpan(now, last) == Uint32Max - last + now
    ensures Elapsed(now, last) == WrapSpan(now, last) + 1
  {
  }

  /** The flag is raised exactly when the clock is behind `last` and the span
      across the wrap reaches the period. */
  lemma TurnAroundRaised(t: Timer, now: uint32, period: uint32)
    ensures DetectTurnAround(t, now, period).last == t.last
    ensures DetectTurnAround(t, now, period).turnAround
      <==> t.turnAround || (now < t.last && Uint32Max - t.last + now >= period)
  {
    if now < t.last {
      WrapSpanExact(now, t.last);
    }
  }

  /** A check fires exactly when the modular elapsed time reaches the period
      or the flag was already set: detecting a turn-around never makes a
      check fire that the modular difference alone would not. */
  lemma {:induction false} FiresIff(t: Timer, now: uint32, period: uint32)
    ensures Fires(t, now, period) <==> Elapsed(now, t.last) >= period || t.turnAround
  {
    if now < t.last {
      WrapSpanExact(now, t.last);
    }
  }

  /** On firing the timer becomes (now, no flag); otherwise it is unchanged.
      Either way the flag is clear afterwards. */
  lemma {:induction false} CheckPeriodEffect(t: Timer, now: uint32, period: uint32)
    ensures Fires(t, now, period) ==> CheckPeriod(t, now, period) == Timer(now, false)
    ensures !Fires(t, now, period) ==> CheckPeriod(t, now, period) == t
    ensures !CheckPeriod(t, now, period).turnAround
  {
    FiresIff(t, now, period);
    TurnAroundRaised(t, now, period);
  }

  /** Across the wrap of `millis()`: 256 ms before the wrap the system tick
      last fired; 512 ms later it does not fire, 1000 ms later it does. */
  lemma WrapExample()
    ensures !Fires(Timer(0xFFFF_FF00, false), 0x100, SystemPeriod)
    ensures Fires(Timer(0xFFFF_FF00, false), 0x2E8, SystemPeriod)
    ensures !Fires(Timer(0, false), 999, SystemPeriod) && Fires(Timer(0, false), 1000, SystemPeriod)
  {
  }

  // ---------------------------------------------------------------------
  // One loop iteration
  // ---------------------------------------------------------------------

  /** The sensor readings of one sampling tick. */
  datatype Sample = Sample(temperature: DhtReading, humidity: DhtReading, lux: uint16, uvMilliVolts: int16)

  /** What the sampling tick adds: both DHT readings, then light and UV,
      which are always taken (their NaN tests are on integers). */
  function Sampled(s: StationSensor, sample: Sample): StationSensor {
    AddUv(AddLight(AddHumidity(AddTemperature(s, sample.temperature), sample.humidity), sample.lux),
          sample.uvMilliVolts)
  }

  /** The globals of the station. */
  datatype StationState = StationState(
    now: uint32, system: Timer, sampling: Timer, tx: Timer, sensors: StationSensor)

  /** One `loop` call on a mains-powered station, given the two `millis()`
      readings and the samples. */
  function LoopStep(st: StationState, now: uint32, nowTx: uint32, sample: Sample): StationState {
    if !Fires(st.system, now, SystemPeriod) then
      st.(now := now, system := CheckPeriod(st.system, now, SystemPeriod))
    else
      var sampling := Fires(st.sampling, now, SamplingPeriod);
      var sensors := if sampling then Sampled(st.sensors, sample) else st.sensors;
      var transmit := Fires(st.tx, nowTx, TxPeriod);
      StationState(
        nowTx,
        CheckPeriod(st.system, now, SystemPeriod),
        CheckPeriod(st.sampling, now, SamplingPeriod),
        CheckPeriod(st.tx, nowTx, TxPeriod),
        if transmit then EmptySensors else sensors)
  }

  /** The two shapes of `LoopStep`, by whether the system tick fires. */
  lemma LoopStepCases(st: StationState, now: uint32, nowTx: uint32, sample: Sample)
    ensures !Fires(st.system, now, SystemPeriod) ==>
      LoopStep(st, now, nowTx, sample) == st.(now := now, system := DetectTurnAround(st.system, now, SystemPeriod))
    ensures Fires(st.system, now, SystemPeriod) ==>
      LoopStep(st, now, nowTx, sample) == StationState(nowTx, Timer(now, false),
        CheckPeriod(st.sampling, now, SamplingPeriod), CheckPeriod(st.tx, nowTx, TxPeriod),
        if Fires(st.tx, nowTx, TxPeriod) then EmptySensors
        else if Fires(st.sampling, now, SamplingPeriod) then Sampled(st.sensors, sample)
        else st.sensors)
  {
  }

  /** No turn-around flag is set. */
  predicate FlagsClear(st: StationState) {
    !st.system.turnAround && !st.sampling.turnAround && !st.tx.turnAround
  }

  /** What one loop call does: when the system tick does not fire, only `now`
      moves; when it fires, it restarts at `now`, the sampling tick (checked
      against the same `now`) samples and restarts when due, and the
      transmit tick (checked against the second reading) restarts and clears
      every accumulator when due. No flag survives the call. */
  lemma {:induction false} LoopStepEffect(st: StationState, now: uint32, nowTx: uint32, sample: Sample)
    requires FlagsClear(st)
    ensures var r := LoopStep(st, now, nowTx, sample);
      && FlagsClear(r)
      && (!Fires(st.system, now, SystemPeriod) ==> r == st.(now := now))
      && (Fires(st.system, now, SystemPeriod) <==> Elapsed(now, st.system.last) >= SystemPeriod)
      && (Fires(st.system, now, SystemPeriod) ==>
          && r.now == nowTx
          && r.system == Timer(now, false)
          && (Elapsed(now, st.sampling.last) >= SamplingPeriod ==> r.sampling == Timer(now, false))
          && (Elapsed(now, st.sampling.last) < SamplingPeriod ==> r.sampling == st.sampling)
          && (Elapsed(nowTx, st.tx.last) >= TxPeriod ==> r.tx == Timer(nowTx, false) && r.sensors == EmptySensors)
          && (Elapsed(nowTx, st.tx.last) < TxPeriod ==> r.tx == st.tx)
          && (Elapsed(nowTx, st.tx.last) < TxPeriod && Elapsed(now, st.sampling.last) >= SamplingPeriod ==>
                r.sensors == Sampled(st.sensors, sample))
          && (Elapsed(nowTx, st.tx.last) < TxPeriod && Elapsed(now, st.sampling.last) < SamplingPeriod ==>
                r.sensors == st.sensors))
  {
    CheckPeriodEffect(st.system, now, SystemPeriod);
    CheckPeriodEffect(st.sampling, now, SamplingPeriod);
    CheckPeriodEffect(st.tx, nowTx, TxPeriod);
    FiresIff(st.system, now, SystemPeriod);
    FiresIff(st.sampling, now, SamplingPeriod);
    FiresIff(st.tx, nowTx, TxPeriod);
  }

  /** The globals as static storage leaves them before the first `loop`. */
  const Boot: StationState := StationState(0, Timer(0, false), Timer(0, false), Timer(0, false), EmptySensors)

  /** The firmware as configured: a station on the configured supply takes the
      mains-power branch of `loop`, so its first call is one `LoopStep` from
      the boot state, with the flags clear afterwards. */
  method FirstLoop(millisNow: uint32, millisAfterSampling: uint32, sample: Sample) returns (st: StationState)
    ensures st == LoopStep(Boot, millisNow, millisAfterSampling, sample)
    ensures FlagsClear(st)
  {
    var station := new Station(ConfiguredPowerSupply);
    station.Loop(millisNow, millisAfterSampling, sample);
    st := station.State();
    LoopStepEffect(Boot, millisNow, millisAfterSampling, sample);
  }

  // ---------------------------------------------------------------------
  // The station's globals and the functions that update them
  // ---------------------------------------------------------------------

  class Station {
    const powerSupply: PowerSupply
    var now: uint32
    var lastSystemPeriod: uint32
    var turnAroundSystemOK: bool
    var lastSamplingPeriod: uint32
    var turnAroundSamplingOK: bool
    var lastTxPeriod: uint32
    var turnAroundTxOK: bool
    var sensorsData: StationSensor

    function State(): StationState
      reads this
    {
      StationState(now, Timer(lastSystemPeriod, turnAroundSystemOK),
        Timer(lastSamplingPeriod, turnAroundSamplingOK), Timer(lastTxPeriod, turnAroundTxOK), sensorsData)
    }

    /** Every global starts at 0 or false. */
    constructor (supply: PowerSupply)
      ensures powerSupply == supply
      ensures State() == Boot
    {
      powerSupply := supply;
      now := 0;
      lastSystemPeriod := 0;
      turnAroundSystemOK := false;
      lastSamplingPeriod := 0;
      turnAroundSamplingOK := false;
      lastTxPeriod := 0;
      turnAroundTxOK := false;
      sensorsData := EmptySensors;
    }

    /** `resetSensorDataStruct`: every declared accumulator and counter to 0. */
    method ResetSensorDataStruct()
      modifies this
      ensures State() == old(State()).(sensors := EmptySensors)
    {
      sensorsData := sensorsData.(airTemp := 0.0, airTempCount := 0, airHumid := 0.0, airHumidCount := 0);
      sensorsData := sensorsData.(light := 0, lightCount := 0);
      sensorsData := sensorsData.(uvVoltage := 0, uvVoltageCount := 0);
    }

    /** `getDHTTemperature` on the reading the sensor delivered. */
    method GetDHTTemperature(reading: DhtReading) returns (status: uint8)
      modifies this
      ensures status == ReadingStatus(reading)
      ensures State() == old(State()).(sensors := AddTemperature(old(sensorsData), reading))
    {
      if reading.None? {
        return 1;
      } else {
        sensorsData := sensorsData.(airTemp := sensorsData.airTemp + reading.value);
        sensorsData := sensorsData.(airTempCount := ToUint8(sensorsData.airTempCount + 1));
        return 0;
      }
    }

    /** `getDHTHumidity` on the reading the sensor delivered. */
    method GetDHTHumidity(reading: DhtReading) returns (status: uint8)
      modifies this
      ensures status == ReadingStatus(reading)
      ensures State() == old(State()).(sensors := AddHumidity(old(sensorsData), reading))
    {
      if reading.None? {
        return 1;
      } else {
        sensorsData := sensorsData.(airHumid := sensorsData.airHumid + reading.value);
        sensorsData := sensorsData.(airHumidCount := ToUint8(sensorsData.airHumidCount + 1));
        return 0;
      }
    }

    /** The sampling tick's body: both DHT readings, then light and UV. */
    method SampleSensors(sample: Sample)
      modifies this
      ensures State() == old(State()).(sensors := Sampled(old(sensorsData), sample))
    {
      var temperatureStatus := GetDHTTemperature(sample.temperature);
      var humidityStatus := GetDHTHumidity(sample.humidity);
      sensorsData := sensorsData.(light := ToUint32(sensorsData.light + sample.lux));
      sensorsData := sensorsData.(lightCount := ToUint8(sensorsData.lightCount + 1));
      sensorsData := sensorsData.(uvVoltage := ToUint32(sensorsData.uvVoltage + sample.uvMilliVolts));
      sensorsData := sensorsData.(uvVoltageCount := ToUint8(sensorsData.uvVoltageCount + 1));
    }

    /** The sampling check inside a firing system tick, against the same `now`. */
    method SamplingCheck(sample: Sample)
      modifies this
      ensures var st := old(State());
        State() == st.(sampling := CheckPeriod(st.sampling, now, SamplingPeriod),
          sensors := if Fires(st.sampling, now, SamplingPeriod) then Sampled(st.sensors, sample) else st.sensors)
    {
      ghost var st := State();
      if now < lastSamplingPeriod {
        if ToUint32(Uint32Max - lastSamplingPeriod + now) >= SamplingPeriod {
          turnAroundSamplingOK := true;
        }
      }
      assert Timer(lastSamplingPeriod, turnAroundSamplingOK) == DetectTurnAround(st.sampling, now, SamplingPeriod);
      if ToUint32(now - lastSamplingPeriod) >= SamplingPeriod || turnAroundSamplingOK {
        lastSamplingPeriod := now;
        turnAroundSamplingOK := false;
        SampleSensors(sample);
      }
    }

    /** The transmit check inside a firing system tick, against the second
        `millis()` reading. */
    method TransmitCheck(millisAfterSampling: uint32)
      modifies this
      ensures var st := old(State());
        State() == st.(now := millisAfterSampling, tx := CheckPeriod(st.tx, millisAfterSampling, TxPeriod),
          sensors := if Fires(st.tx, millisAfterSampling, TxPeriod) then EmptySensors else st.sensors)
    {
      ghost var st := State();
      now := millisAfterSampling;
      if now < lastTxPeriod {
        if ToUint32(Uint32Max - lastTxPeriod + now) >= TxPeriod {
          turnAroundTxOK := true;
        }
      }
      assert Timer(lastTxPeriod, turnAroundTxOK) == DetectTurnAround(st.tx, now, TxPeriod);
      if ToUint32(now - lastTxPeriod) >= TxPeriod || turnAroundTxOK {
        lastTxPeriod := now;
        turnAroundTxOK := false;
        ResetSensorDataStruct();
      }
    }

    /** `loop`: on mains power the nested period checks; on battery nothing. */
    method Loop(millisNow: uint32, millisAfterSampling: uint32, sample: Sample)
      modifies this
      ensures powerSupply == POWER_LINE ==> State() == LoopStep(old(State()), millisNow, millisAfterSampling, sample)
      ensures powerSupply == BATTERY ==> State() == old(State())
    {
      if powerSupply == POWER_LINE {
        ghost var st := State();
        now := millisNow;
        if now < lastSystemPeriod {
          if ToUint32(Uint32Max - lastSystemPeriod + now) >= SystemPeriod {
            turnAroundSystemOK := true;
          }
        }
        assert Timer(lastSystemPeriod, turnAroundSystemOK) == DetectTurnAround(st.system, millisNow, SystemPeriod);
        LoopStepCases(st, millisNow, millisAfterSampling, sample);
        if ToUint32(now - lastSystemPeriod) >= SystemPeriod || turnAroundSystemOK {
          lastSystemPeriod := now;
          turnAroundSystemOK := false;
          SamplingCheck(sample);
          TransmitCheck(millisAfterSampling);
        }
      } else if powerSupply == BATTERY {
      }
    }
  }
}
