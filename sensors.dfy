/** The sample record and the pure sensor arithmetic of src/main.h: the
    `station_sensor_t` accumulators, one valid or failed reading folded into
    them, and the UV-index step function `convertVoltsToIndex`. */
module Sensors {

  import opened MachineInts
  import opened Options

  /** `station_sensor_t` with the DHT, light and UV members the configuration
      enables: running sums and `uint8_t` sample counts. The float sums are
      modelled as reals. */
  datatype StationSensor = StationSensor(
    airTemp: real,
    airTempCount: uint8,
    airHumid: real,
    airHumidCount: uint8,
    light: uint32,
    lightCount: uint8,
    uvVoltage: uint32,
    uvVoltageCount: uint8)

  /** Every declared accumulator and counter at 0: the members' initial
      values and what `resetSensorDataStruct` stores. */
  const EmptySensors: StationSensor := StationSensor(0.0, 0, 0.0, 0, 0, 0, 0, 0)

  /** `count++` on a `uint8_t`. */
  function Increment(count: uint8): (r: uint8)
    ensures count < 255 ==> r == count + 1
    ensures count == 255 ==> r == 0
  {
    ToUint8(count + 1)
  }

  /** A DHT reading: `None` is NaN. */
  type DhtReading = Option<real>

  /** What `getDHTTemperature` returns: 1 for NaN, 0 for a value. */
  function ReadingStatus(reading: DhtReading): uint8 {
    if reading.None? then 1 else 0
  }

  /** The air-temperature sample folded into the record. */
  function AddTemperature(s: StationSensor, reading: DhtReading): StationSensor {
    match reading
    case None => s
    case Some(t) => s.(airTemp := s.airTemp + t, airTempCount := Increment(s.airTempCount))
  }

  /** The air-humidity sample folded into the record. */
  function AddHumidity(s: StationSensor, reading: DhtReading): StationSensor {
    match reading
    case None => s
    case Some(h) => s.(airHumid := s.airHumid + h, airHumidCount := Increment(s.airHumidCount))
  }

  /** `light += lux; lightCount++` in `unsigned long` and `uint8_t` arithmetic. */
  function AddLight(s: StationSensor, lux: uint16): StationSensor {
    s.(light := ToUint32(s.light + lux), lightCount := Increment(s.lightCount))
  }

  /** `uvVoltage += sensorVoltage; uvVoltageCount++`: the `int` millivolts are
      converted to `unsigned long` before the addition. */
  function AddUv(s: StationSensor, milliVolts: int16): StationSensor {
    s.(uvVoltage := ToUint32(s.uvVoltage + milliVolts), uvVoltageCount := Increment(s.uvVoltageCount))
  }

  /** A NaN reading reports 1 and leaves every sum and count as it was; a
      value reports 0, is added to its own sum and counts once more (255
      wraps to 0), and no other member changes. */
  lemma DhtSamples(s: StationSensor, reading: DhtReading)
    ensures reading.None? <==> ReadingStatus(reading) == 1
    ensures reading.Some? <==> ReadingStatus(reading) == 0
    ensures reading.None? ==> AddTemperature(s, reading) == s && AddHumidity(s, reading) == s
    ensures reading.Some? ==>
      var t := AddTemperature(s, reading);
      && t.airTemp == s.airTemp + reading.value
      && (t.airTempCount as int - s.airTempCount - 1) % Two8 == 0
      && t == s.(airTemp := t.airTemp, airTempCount := t.airTempCount)
    ensures reading.Some? ==>
      var h := AddHumidity(s, reading);
      && h.airHumid == s.airHumid + reading.value
      && (h.airHumidCount as int - s.airHumidCount - 1) % Two8 == 0
      && h == s.(airHumid := h.airHumid, airHumidCount := h.airHumidCount)
  {
  }

  /** The light and UV sums add modulo 2^32 and their counts modulo 2^8. */
  lemma WrappingSums(s: StationSensor, lux: uint16, milliVolts: int16)
    ensures (AddLight(s, lux).light - s.light - lux) % Two32 == 0
    ensures (AddUv(s, milliVolts).uvVoltage - s.uvVoltage - milliVolts) % Two32 == 0
    ensures s.light + lux < Two32 ==> AddLight(s, lux).light == s.light + lux
    ensures AddLight(EmptySensors, 7) == EmptySensors.(light := 7, lightCount := 1)
    ensures AddUv(EmptySensors, -1).uvVoltage == Uint32Max
  {
  }

  // ---------------------------------------------------------------------
  // UV index
  // ---------------------------------------------------------------------

  /** The millivolt readings at which the UV index steps up, ascending. */
  const UvBoundaries: seq<int> := [227, 318, 408, 503, 606, 696, 795, 881, 976, 1079, 1170]

  /** `convertVoltsToIndex`: the if-chain over the boundaries. */
  function ConvertVoltsToIndex(milliVolts: uint16): (index: uint8)
    ensures index <= 11
    ensures index > 0 ==> UvBoundaries[index - 1] <= milliVolts
    ensures index < 11 ==> milliVolts < UvBoundaries[index]
  {
    if milliVolts < 227 then 0
    else if milliVolts >= 227 && milliVolts < 318 then 1
    else if milliVolts >= 318 && milliVolts < 408 then 2
    else if milliVolts >= 408 && milliVolts < 503 then 3
    else if milliVolts >= 503 && milliVolts < 606 then 4
    else if milliVolts >= 606 && milliVolts < 696 then 5
    else if milliVolts >= 696 && milliVolts < 795 then 6
    else if milliVolts >= 795 && milliVolts < 881 then 7
    else if milliVolts >= 881 && milliVolts < 976 then 8
    else if milliVolts >= 976 && milliVolts < 1079 then 9
    else if milliVolts >= 1079 && milliVolts < 1170 then 10
    else 11 // the chain's last test, milliVolts >= 1170, holds here
  }

  lemma UvBoundariesAscending()
    ensures |UvBoundaries| == 11
    ensures forall i, j :: 0 <= i < j < 11 ==> UvBoundaries[i] < UvBoundaries[j]
  {
  }

  /** A higher voltage never gives a lower index. */
  lemma {:induction false} ConvertVoltsToIndexMonotone(a: uint16, b: uint16)
    requires a <= b
    ensures ConvertVoltsToIndex(a) <= ConvertVoltsToIndex(b)
  {
    UvBoundariesAscending();
  }

  /** Each boundary is the first reading of the next index: boundary k gives
      index k + 1 and the reading just below it gives k. */
  lemma {:induction false} ConvertVoltsToIndexSteps(k: nat)
    requires k < 11
    ensures ConvertVoltsToIndex(UvBoundaries[k]) == k + 1
    ensures ConvertVoltsToIndex(UvBoundaries[k] - 1) == k
  {
    UvBoundariesAscending();
    var r := ConvertVoltsToIndex(UvBoundaries[k]);
    if r > 0 {
      assert UvBoundaries[r - 1] <= UvBoundaries[k];
    }
    var q := ConvertVoltsToIndex(UvBoundaries[k] - 1);
    if q > 0 {
      assert UvBoundaries[q - 1] < UvBoundaries[k];
    }
  }

  /** The index counts the boundaries at or below the reading. */
  function CountAtMost(bounds: seq<int>, v: int): nat
    decreases |bounds|
  {
    if bounds == [] then 0
    else (if bounds[0] <= v then 1 else 0) + CountAtMost(bounds[1..], v)
  }

  /** In an ascending sequence, the boundaries at or below v are a prefix. */
  lemma {:induction false} CountAtMostPrefix(bounds: seq<int>, v: int, n: nat)
    requires forall i, j :: 0 <= i < j < |bounds| ==> bounds[i] < bounds[j]
    requires n <= |bounds|
    requires forall i :: 0 <= i < n ==> bounds[i] <= v
    requires forall i :: n <= i < |bounds| ==> v < bounds[i]
    ensures CountAtMost(bounds, v) == n
    decreases |bounds|
  {
    if bounds != [] {
      CountAtMostPrefix(bounds[1..], v, if n == 0 then 0 else n - 1);
    }
  }

  /** `convertVoltsToIndex` agrees with counting the boundaries reached. */
  lemma ConvertVoltsToIndexCounts(milliVolts: uint16)
    ensures ConvertVoltsToIndex(milliVolts) == CountAtMost(UvBoundaries, milliVolts)
  {
    UvBoundariesAscending();
    var r := ConvertVoltsToIndex(milliVolts);
    forall i | 0 <= i < r
      ensures UvBoundaries[i] <= milliVolts
    {
      assert UvBoundaries[i] <= UvBoundaries[r - 1];
    }
    forall i | r <= i < 11
      ensures milliVolts < UvBoundaries[i]
    {
      assert UvBoundaries[r] <= UvBoundaries[i];
    }
    CountAtMostPrefix(UvBoundaries, milliVolts, r);
  }
}
