/** Model of `enviroplus_api.py`: the sensor accessors and the temperature
    compensation. A vendor-driver call is an outcome handed in as a value; each
    accessor maps it to a reading (or `None`) together with the effects it has,
    in order: the driver calls it makes, the lines it logs, and the i2c bus resets
    it triggers. */
module EnviroplusApi {
  import opened Basics

  /** The driver calls the accessors make (and the CPU thermal-zone file read). */
  datatype Device =
    | Bme280Temperature | Bme280Pressure | Bme280Humidity
    | GasReadAll | Ltr559Lux | Ltr559Proximity | Pms5003Read | CpuThermalZone

  datatype Level = Warning | Error

  /** One observable effect of an accessor. `ResetI2c` is one run of `reset_i2c`
      (an `i2cdetect` scan followed by a two-second sleep). */
  datatype Effect = Call(device: Device) | Log(level: Level, message: string) | ResetI2c

  /** An i2c driver call: it returns a value or raises IOError. */
  datatype BusRead<T> = Value(value: T) | BusIOError

  /** `gas.read_all()`, as far as the exporter uses it. */
  datatype GasReading = GasReading(oxidising: real, reducing: real, nh3: real)

  /** A PMS5003 frame as `pm_ug_per_m3(1.0)`, `(2.5)` and `(10)` report it. */
  datatype PmsData = PmsData(pm1: real, pm25: real, pm10: real)

  /** `pms5003.read()`: a frame, a ReadTimeoutError, or an IOError. */
  datatype PmsRead = Frame(data: PmsData) | PmsReadTimeout | PmsIOError

  /** The `{"lux": ..., "prox": ...}` dictionary `get_light` returns. */
  datatype Light = Light(lux: real, prox: real)

  /** What an accessor returns (`None` when it failed) and what it did. */
  datatype Access<T> = Access(reading: Option<T>, effects: seq<Effect>)

  /** What every driver reports during one round of reads. */
  datatype SensorInputs = SensorInputs(
    temperature: real,
    cpuFirst: int,
    cpuSecond: int,
    pressure: BusRead<real>,
    humidity: BusRead<real>,
    lux: BusRead<real>,
    prox: BusRead<real>,
    gas: BusRead<GasReading>,
    pms: PmsRead)

  // ---------------------------------------------------------------------------
  // Views of an effect trace

  /** The driver calls in a trace, in order. */
  function Devices(effects: seq<Effect>): seq<Device>
  {
    if effects == [] then []
    else (if effects[0].Call? then [effects[0].device] else []) + Devices(effects[1..])
  }

  /** The levels of the lines logged in a trace, in order. */
  function LogLevels(effects: seq<Effect>): seq<Level>
  {
    if effects == [] then []
    else (if effects[0].Log? then [effects[0].level] else []) + LogLevels(effects[1..])
  }

  /** How many times a trace resets the i2c bus. */
  function Resets(effects: seq<Effect>): nat
  {
    if effects == [] then 0
    else (if effects[0].ResetI2c? then 1 else 0) + Resets(effects[1..])
  }

  /** 1 for an operation that failed, 0 for one that succeeded. */
  function Failed(ok: bool): nat
  {
    if ok then 0 else 1
  }

  /** Traces compose: the driver calls of two traces in a row are those of each, in order. */
  lemma {:induction false} DevicesAppend(a: seq<Effect>, b: seq<Effect>)
    ensures Devices(a + b) == Devices(a) + Devices(b)
  {
    if a == [] {
      assert a + b == b;
    } else {
      assert (a + b)[0] == a[0];
      assert (a + b)[1..] == a[1..] + b;
      DevicesAppend(a[1..], b);
    }
  }

  /** Traces compose: the resets of two traces in a row add up. */
  lemma {:induction false} ResetsAppend(a: seq<Effect>, b: seq<Effect>)
    ensures Resets(a + b) == Resets(a) + Resets(b)
  {
    if a == [] {
      assert a + b == b;
    } else {
      assert (a + b)[0] == a[0];
      assert (a + b)[1..] == a[1..] + b;
      ResetsAppend(a[1..], b);
    }
  }

  /** Traces compose: the log levels of two traces in a row are those of each, in order. */
  lemma {:induction false} LogLevelsAppend(a: seq<Effect>, b: seq<Effect>)
    ensures LogLevels(a + b) == LogLevels(a) + LogLevels(b)
  {
    if a == [] {
      assert a + b == b;
    } else {
      assert (a + b)[0] == a[0];
      assert (a + b)[1..] == a[1..] + b;
      LogLevelsAppend(a[1..], b);
    }
  }

  /** All three views of a trace compose over concatenation. */
  lemma ViewsAppend(a: seq<Effect>, b: seq<Effect>)
    ensures Devices(a + b) == Devices(a) + Devices(b)
    ensures LogLevels(a + b) == LogLevels(a) + LogLevels(b)
    ensures Resets(a + b) == Resets(a) + Resets(b)
  {
    DevicesAppend(a, b);
    LogLevelsAppend(a, b);
    ResetsAppend(a, b);
  }

  /** The views of five traces in a row. */
  lemma TraceViews5(a: seq<Effect>, b: seq<Effect>, c: seq<Effect>, d: seq<Effect>, e: seq<Effect>)
    ensures Devices(a + b + c + d + e) == Devices(a) + Devices(b) + Devices(c) + Devices(d) + Devices(e)
    ensures LogLevels(a + b + c + d + e) == LogLevels(a) + LogLevels(b) + LogLevels(c) + LogLevels(d) + LogLevels(e)
    ensures Resets(a + b + c + d + e) == Resets(a) + Resets(b) + Resets(c) + Resets(d) + Resets(e)
  {
    ViewsAppend(a, b);
    ViewsAppend(a + b, c);
    ViewsAppend(a + b + c, d);
    ViewsAppend(a + b + c + d, e);
  }

  /** The views of a trace of two or three effects, effect by effect. */
  lemma Views3(x: Effect, y: Effect, z: Effect)
    ensures Devices([x, y]) == Devices([x]) + Devices([y])
    ensures LogLevels([x, y]) == LogLevels([x]) + LogLevels([y])
    ensures Devices([x, y, z]) == Devices([x]) + Devices([y]) + Devices([z])
    ensures LogLevels([x, y, z]) == LogLevels([x]) + LogLevels([y]) + LogLevels([z])
  {
    assert [x, y] == [x] + [y];
    assert [x, y, z] == [x] + [y] + [z];
    DevicesAppend([x], [y]);
    DevicesAppend([x] + [y], [z]);
    LogLevelsAppend([x], [y]);
    LogLevelsAppend([x] + [y], [z]);
  }

  // ---------------------------------------------------------------------------
  // Accessors with an IOError handler

  /** What an `except IOError` branch does: log the message at error level, then
      reset the i2c bus. */
  function Handler(message: string): seq<Effect>
  {
    [Log(Error, message), ResetI2c]
  }

  /** A handled IOError adds no driver call, one error line and one reset. */
  lemma HandlerViews(calls: seq<Effect>, message: string)
    ensures Devices(calls + Handler(message)) == Devices(calls)
    ensures LogLevels(calls + Handler(message)) == LogLevels(calls) + [Error]
    ensures Resets(calls + Handler(message)) == Resets(calls) + 1
  {
    var h := Handler(message);
    assert h[1..] == [ResetI2c] && h[1..][1..] == [];
    assert Devices(h[1..]) == [] && LogLevels(h[1..]) == [] && Resets(h[1..]) == 1;
    ViewsAppend(calls, h);
  }

  /** The try/except shared by `get_pressure`, `get_humidity` and `get_gas`: the
      driver's value unchanged, or `None` once the IOError has been handled. */
  function BusAccess<T>(device: Device, read: BusRead<T>, message: string): (a: Access<T>)
    ensures a.reading == (if read.Value? then Some(read.value) else None)
  {
    match read
    case Value(v) => Access(Some(v), [Call(device)])
    case BusIOError => Access(None, [Call(device)] + Handler(message))
  }

  /** One driver call either way; an IOError adds one error line and one bus reset. */
  lemma BusAccessViews<T>(device: Device, read: BusRead<T>, message: string)
    ensures var a := BusAccess(device, read, message);
      && Devices(a.effects) == [device]
      && LogLevels(a.effects) == (if read.Value? then [] else [Error])
      && Resets(a.effects) == Failed(read.Value?)
  {
    HandlerViews([Call(device)], message);
  }

  /** `get_pressure` */
  function GetPressure(read: BusRead<real>): (a: Access<real>)
    ensures read.Value? ==> a == Access(Some(read.value), [Call(Bme280Pressure)])
    ensures read.BusIOError? ==>
      a == Access(None, [Call(Bme280Pressure)] + Handler("Could not get pressure readings. Resetting i2c."))
  {
    BusAccess(Bme280Pressure, read, "Could not get pressure readings. Resetting i2c.")
  }

  /** `get_humidity` */
  function GetHumidity(read: BusRead<real>): (a: Access<real>)
    ensures read.Value? ==> a == Access(Some(read.value), [Call(Bme280Humidity)])
    ensures read.BusIOError? ==>
      a == Access(None, [Call(Bme280Humidity)] + Handler("Could not get humidity readings. Resetting i2c."))
  {
    BusAccess(Bme280Humidity, read, "Could not get humidity readings. Resetting i2c.")
  }

  /** `get_gas` */
  function GetGas(read: BusRead<GasReading>): (a: Access<GasReading>)
    ensures read.Value? ==> a == Access(Some(read.value), [Call(GasReadAll)])
    ensures read.BusIOError? ==>
      a == Access(None, [Call(GasReadAll)] + Handler("Could not get gas readings. Resetting i2c."))
  {
    BusAccess(GasReadAll, read, "Could not get gas readings. Resetting i2c.")
  }

  /** `get_light`: lux then proximity inside one try. A lux IOError means the
      proximity read never happens; either IOError is handled the same way. */
  function GetLight(lux: BusRead<real>, prox: BusRead<real>): (a: Access<Light>)
    ensures a.reading.Some? <==> lux.Value? && prox.Value?
    ensures a.reading.Some? ==> a.reading.value == Light(lux.value, prox.value)
  {
    var message := "Could not get lux and proximity readings. Resetting i2c.";
    match lux
    case BusIOError => Access(None, [Call(Ltr559Lux)] + Handler(message))
    case Value(x) =>
      match prox
      case BusIOError => Access(None, [Call(Ltr559Lux), Call(Ltr559Proximity)] + Handler(message))
      case Value(y) => Access(Some(Light(x, y)), [Call(Ltr559Lux), Call(Ltr559Proximity)])
  }

  /** Proximity is read only after a successful lux read; a failure of either
      logs one error and resets the bus once. */
  lemma GetLightViews(lux: BusRead<real>, prox: BusRead<real>)
    ensures Devices(GetLight(lux, prox).effects) ==
      [Ltr559Lux] + (if lux.Value? then [Ltr559Proximity] else [])
    ensures Resets(GetLight(lux, prox).effects) == Failed(lux.Value? && prox.Value?)
    ensures var e := GetLight(lux, prox).effects;
      lux.BusIOError? ==> Devices(e) == [Ltr559Lux] && LogLevels(e) == [Error] && Resets(e) == 1
    ensures var e := GetLight(lux, prox).effects;
      lux.Value? && prox.BusIOError? ==>
        Devices(e) == [Ltr559Lux, Ltr559Proximity] && LogLevels(e) == [Error] && Resets(e) == 1
    ensures var e := GetLight(lux, prox).effects;
      lux.Value? && prox.Value? ==>
        Devices(e) == [Ltr559Lux, Ltr559Proximity] && LogLevels(e) == [] && Resets(e) == 0
  {
    var message := "Could not get lux and proximity readings. Resetting i2c.";
    match lux
    case BusIOError =>
      HandlerViews([Call(Ltr559Lux)], message);
    case Value(_) =>
      match prox
      case BusIOError =>
        HandlerViews([Call(Ltr559Lux), Call(Ltr559Proximity)], message);
      case Value(_) =>
        assert GetLight(lux, prox).effects == [Call(Ltr559Lux), Call(Ltr559Proximity)];
  }

  /** `get_particulates`: a read timeout or an IOError gives `None`. */
  function GetParticulates(read: PmsRead): (a: Access<PmsData>)
    ensures a.reading == (if read.Frame? then Some(read.data) else None)
  {
    match read
    case Frame(d) => Access(Some(d), [Call(Pms5003Read)])
    case PmsReadTimeout => Access(None, [Call(Pms5003Read), Log(Warning, "Failed to read PMS5003")])
    case PmsIOError =>
      Access(None, [Call(Pms5003Read)] + Handler("Could not get particulate matter readings. Resetting i2c."))
  }

  /** One PMS5003 read either way; a timeout logs a warning and leaves the bus
      alone, an IOError logs an error and resets the bus once. */
  lemma GetParticulatesViews(read: PmsRead)
    ensures Devices(GetParticulates(read).effects) == [Pms5003Read]
    ensures Resets(GetParticulates(read).effects) == Failed(!read.PmsIOError?)
    ensures var e := GetParticulates(read).effects;
      read.Frame? ==> LogLevels(e) == [] && Resets(e) == 0
    ensures var e := GetParticulates(read).effects;
      read.PmsReadTimeout? ==> LogLevels(e) == [Warning] && Resets(e) == 0
    ensures var e := GetParticulates(read).effects;
      read.PmsIOError? ==> LogLevels(e) == [Error] && Resets(e) == 1
  {
    match read
    case Frame(_) =>
    case PmsReadTimeout =>
      assert GetParticulates(read).effects[1..] == [Log(Warning, "Failed to read PMS5003")];
    case PmsIOError =>
      HandlerViews([Call(Pms5003Read)], "Could not get particulate matter readings. Resetting i2c.");
  }

  // ---------------------------------------------------------------------------
  // Temperature compensation

  /** Python truthiness of the factor (a float, `None` or `False`): `None` stands
      for both `None` and `False`, and `0.0` is falsy too. */
  predicate Truthy(factor: Option<real>)
  {
    factor.Some? && factor.value != 0.0
  }

  /** `get_cpu_temperature`: the thermal zone's millidegree integer in degrees. */
  function GetCpuTemperature(millidegrees: int): (celsius: real)
    ensures celsius * 1000.0 == millidegrees as real
  {
    millidegrees as real / 1000.0
  }

  /** `[x] * n` */
  function Repeat(x: real, n: nat): (r: seq<real>)
    ensures |r| == n
    ensures forall i :: 0 <= i < n ==> r[i] == x
  {
    if n == 0 then [] else [x] + Repeat(x, n - 1)
  }

  /** `cpu_temps` once line 56 has run: `[first] * 5` without its head, then `second`.
      It is rebuilt from scratch on every call. */
  function CpuWindow(first: real, second: real): seq<real>
  {
    Repeat(first, 5)[1..] + [second]
  }

  /** The window holds the first reading four times, then the second. */
  lemma CpuWindowContents(first: real, second: real)
    ensures CpuWindow(first, second) == [first, first, first, first, second]
  {
  }

  function Sum(s: seq<real>): real
  {
    if s == [] then 0.0 else s[0] + Sum(s[1..])
  }

  /** `sum(s) / float(len(s))` */
  function Mean(s: seq<real>): (mean: real)
    requires s != []
    ensures mean * |s| as real == Sum(s)
  {
    Sum(s) / |s| as real
  }

  /** The window's mean weighs the first sample four times and the second once. */
  lemma WindowMean(first: real, second: real)
    ensures Mean(CpuWindow(first, second)) == (4.0 * first + second) / 5.0
  {
    var w := CpuWindow(first, second);
    CpuWindowContents(first, second);
    assert w[1..] == [first, first, first, second];
    assert w[1..][1..] == [first, first, second];
    assert w[1..][1..][1..] == [first, second];
    assert w[1..][1..][1..][1..] == [second];
    assert Sum([second]) == second;
    assert Sum([first, second]) == first + second;
    assert Sum([first, first, second]) == first + first + second;
    assert Sum([first, first, first, second]) == first + first + first + second;
    assert Sum(w) == 4.0 * first + second;
  }

  /** The mean of the window `get_temperature` builds from two CPU reads: the
      first read weighs four times, the second once. */
  function CpuAverage(first: real, second: real): (avg: real)
    ensures avg == (4.0 * first + second) / 5.0
  {
    WindowMean(first, second);
    Mean(CpuWindow(first, second))
  }

  /** The compensation step of `get_temperature`: correct the raw reading by the
      CPU's excess heat over the factor. */
  function Compensate(raw: real, avgCpu: real, factor: real): (t: real)
    requires factor != 0.0
    ensures (raw - t) * factor == avgCpu - raw
  {
    raw - (avgCpu - raw) / factor
  }

  /** `get_temperature(factor)`: the raw BME280 reading, compensated with a
      window built from two CPU reads when (and only when) the factor is truthy. */
  function GetTemperature(factor: Option<real>, raw: real, cpuFirst: int, cpuSecond: int): (a: Access<real>)
    ensures a.reading.Some?
    ensures !Truthy(factor) ==> a.reading.value == raw
    ensures Truthy(factor) ==> (a.reading.value ==
      Compensate(raw, (4.0 * GetCpuTemperature(cpuFirst) + GetCpuTemperature(cpuSecond)) / 5.0, factor.value))
  {
    if Truthy(factor) then
      Access(Some(Compensate(raw, CpuAverage(GetCpuTemperature(cpuFirst), GetCpuTemperature(cpuSecond)),
                             factor.value)),
             [Call(Bme280Temperature), Call(CpuThermalZone), Call(CpuThermalZone)])
    else
      Access(Some(raw), [Call(Bme280Temperature)])
  }

  /** The BME280 is read first; the CPU thermal zone twice more only when
      compensating. Nothing is logged and the bus is never reset. */
  lemma GetTemperatureViews(factor: Option<real>, raw: real, cpuFirst: int, cpuSecond: int)
    ensures var a := GetTemperature(factor, raw, cpuFirst, cpuSecond);
      && Devices(a.effects) ==
        [Bme280Temperature] + (if Truthy(factor) then [CpuThermalZone, CpuThermalZone] else [])
      && LogLevels(a.effects) == [] && Resets(a.effects) == 0
  {
    if Truthy(factor) {
      Views3(Call(Bme280Temperature), Call(CpuThermalZone), Call(CpuThermalZone));
    }
  }

  /** The correction vanishes exactly when the CPU is as warm as the sensor. */
  lemma CompensateFixedPoint(raw: real, avgCpu: real, factor: real)
    requires factor != 0.0
    ensures Compensate(raw, avgCpu, factor) == raw <==> avgCpu == raw
  {
    if (avgCpu - raw) / factor == 0.0 {
      assert avgCpu - raw == ((avgCpu - raw) / factor) * factor;
    }
  }

  /** With a positive factor, a hotter CPU pulls the reading down. */
  lemma CompensateLowersWhenCpuHotter(raw: real, avgCpu: real, factor: real)
    requires factor > 0.0 && avgCpu > raw
    ensures Compensate(raw, avgCpu, factor) < raw
  {
    assert (avgCpu - raw) / factor > 0.0;
  }

  /** A larger factor gives a strictly weaker correction. */
  lemma LargerFactorWeakerCorrection(raw: real, avgCpu: real, f1: real, f2: real)
    requires 0.0 < f1 < f2 && avgCpu > raw
    ensures raw - Compensate(raw, avgCpu, f2) < raw - Compensate(raw, avgCpu, f1)
  {
    var d := avgCpu - raw;
    var x, y := d / f1, d / f2;
    assert x * f1 == d && y * f2 == d;
    assert x > 0.0;
    assert y * f2 < x * f2;
    assert Compensate(raw, avgCpu, f1) == raw - x && Compensate(raw, avgCpu, f2) == raw - y;
  }
}
