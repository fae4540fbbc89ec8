/** Model of `enviroplus_api_test.py`: a probe that parses the same options as
    the exporter, then calls every accessor in a fixed order, forever, logging
    whatever each returns. Nothing is written to a registry, so a failed read
    is logged as `None` rather than ending the loop. */
module EnviroplusApiTest {
  import opened Basics
  import opened PyStr
  import opened EnviroplusApi
  import Exporter = EnviroplusExporter

  // ---------------------------------------------------------------------------
  // Options

  /** The probe's own copy of `str_to_bool`, with its own word sets. */
  function StrToBool(value: string): (r: Result<bool>)
    ensures r.Ok? <==> Lower(value) in {"false", "f", "0", "no", "n", "true", "t", "1", "yes", "y"}
    ensures r.Ok? ==> (r.value <==> Lower(value) in {"true", "t", "1", "yes", "y"})
  {
    if Lower(value) in {"false", "f", "0", "no", "n"} then Ok(false)
    else if Lower(value) in {"true", "t", "1", "yes", "y"} then Ok(true)
    else Err(value + " is not a valid boolean value")
  }

  /** The copy behaves exactly like the exporter's `str_to_bool`, error message included. */
  lemma StrToBoolAgrees(value: string)
    ensures StrToBool(value) == Exporter.StrToBool(value)
  {
  }

  /** `args.factor or ENVIROPLUS_FACTOR`, with `ENVIROPLUS_FACTOR` already
      `float(os.getenv('ENVIROPLUS_FACTOR', 0)) or False`. */
  function ProbeFactor(cli: Option<real>, env: real): (f: Option<real>)
    ensures Truthy(f) <==> Truthy(cli) || env != 0.0
    ensures Truthy(cli) ==> f == cli
    ensures !Truthy(cli) && env != 0.0 ==> f == Some(env)
    ensures !Truthy(f) ==> f == None
  {
    if Truthy(cli) then cli
    else if env != 0.0 then Some(env)
    else None
  }

  /** The probe and the exporter settle on the same factor from the same inputs. */
  lemma ProbeFactorAgrees(cli: Option<real>, env: real)
    ensures ProbeFactor(cli, env) == Exporter.ChooseFactor(cli, env)
  {
  }

  /** `if factor:` guards the start-up announcement. */
  predicate AnnouncesCompensation(factor: Option<real>)
  {
    Truthy(factor)
  }

  /** With no usable factor on the command line and a zero (or missing)
      environment variable, nothing is announced, and every temperature read is
      the raw BME280 value with no CPU thermal-zone read. */
  lemma ZeroFactorsDisableCompensation(cli: Option<real>, raw: real, cpuFirst: int, cpuSecond: int)
    requires !Truthy(cli)
    ensures var f := ProbeFactor(cli, 0.0);
      && !AnnouncesCompensation(f)
      && GetTemperature(f, raw, cpuFirst, cpuSecond).reading == Some(raw)
      && Devices(GetTemperature(f, raw, cpuFirst, cpuSecond).effects) == [Bme280Temperature]
  {
    GetTemperatureViews(ProbeFactor(cli, 0.0), raw, cpuFirst, cpuSecond);
  }

  // ---------------------------------------------------------------------------
  // The probe loop

  /** The effects of one iteration: all six accessors, in order, whatever the
      `--enviro` option says. */
  function ProbeEffects(factor: Option<real>, inputs: SensorInputs): seq<Effect>
  {
    GetTemperature(factor, inputs.temperature, inputs.cpuFirst, inputs.cpuSecond).effects
    + GetPressure(inputs.pressure).effects
    + GetHumidity(inputs.humidity).effects
    + GetLight(inputs.lux, inputs.prox).effects
    + (GetGas(inputs.gas).effects + GetParticulates(inputs.pms).effects)
  }

  /** An iteration whose reads all succeed does what the exporter's iteration
      does without the Enviro flag. */
  lemma ProbeMatchesPoll(factor: Option<real>, enviro: Option<bool>, inputs: SensorInputs)
    requires !Exporter.SkipsGasAndParticulates(enviro)
    requires Exporter.PollReadsSucceed(enviro, inputs)
    ensures ProbeEffects(factor, inputs) == Exporter.PollEffects(factor, enviro, inputs)
  {
  }

  /** Every iteration calls the drivers in the same order: temperature (and the
      CPU twice when compensating), pressure, humidity, lux (and proximity after
      a good lux read), gas, particulates. Failures change nothing in that
      order. */
  lemma ProbeCallOrder(factor: Option<real>, inputs: SensorInputs)
    ensures Devices(ProbeEffects(factor, inputs)) ==
      [Bme280Temperature] + (if Truthy(factor) then [CpuThermalZone, CpuThermalZone] else [])
      + [Bme280Pressure, Bme280Humidity, Ltr559Lux]
      + (if inputs.lux.Value? then [Ltr559Proximity] else [])
      + [GasReadAll, Pms5003Read]
  {
    var t := GetTemperature(factor, inputs.temperature, inputs.cpuFirst, inputs.cpuSecond).effects;
    var p := GetPressure(inputs.pressure).effects;
    var h := GetHumidity(inputs.humidity).effects;
    var l := GetLight(inputs.lux, inputs.prox).effects;
    var g := GetGas(inputs.gas).effects;
    var q := GetParticulates(inputs.pms).effects;
    GetTemperatureViews(factor, inputs.temperature, inputs.cpuFirst, inputs.cpuSecond);
    BusAccessViews(Bme280Pressure, inputs.pressure, "Could not get pressure readings. Resetting i2c.");
    BusAccessViews(Bme280Humidity, inputs.humidity, "Could not get humidity readings. Resetting i2c.");
    GetLightViews(inputs.lux, inputs.prox);
    BusAccessViews(GasReadAll, inputs.gas, "Could not get gas readings. Resetting i2c.");
    GetParticulatesViews(inputs.pms);
    CallOrder(t, p, h, l, g, q,
      if Truthy(factor) then [CpuThermalZone, CpuThermalZone] else [],
      if inputs.lux.Value? then [Ltr559Proximity] else []);
  }

  /** The device order of six traces laid end to end, from the order of each. */
  lemma CallOrder(t: seq<Effect>, p: seq<Effect>, h: seq<Effect>, l: seq<Effect>,
                  g: seq<Effect>, q: seq<Effect>, cpu: seq<Device>, prox: seq<Device>)
    requires Devices(t) == [Bme280Temperature] + cpu
    requires Devices(p) == [Bme280Pressure] && Devices(h) == [Bme280Humidity]
    requires Devices(l) == [Ltr559Lux] + prox
    requires Devices(g) == [GasReadAll] && Devices(q) == [Pms5003Read]
    ensures Devices(t + p + h + l + (g + q)) ==
      [Bme280Temperature] + cpu + [Bme280Pressure, Bme280Humidity, Ltr559Lux] + prox
      + [GasReadAll, Pms5003Read]
  {
    ViewsAppend(g, q);
    TraceViews5(t, p, h, l, g + q);
  }

  /** Each iteration resets the i2c bus once per handled IOError: pressure,
      humidity, light (lux or proximity), gas and a PMS5003 IOError. A PMS5003
      read timeout does not reset the bus. */
  lemma ProbeResets(factor: Option<real>, inputs: SensorInputs)
    ensures Resets(ProbeEffects(factor, inputs)) ==
      Failed(inputs.pressure.Value?) + Failed(inputs.humidity.Value?)
      + Failed(inputs.lux.Value? && inputs.prox.Value?)
      + (Failed(inputs.gas.Value?) + Failed(!inputs.pms.PmsIOError?))
  {
    var t := GetTemperature(factor, inputs.temperature, inputs.cpuFirst, inputs.cpuSecond).effects;
    var p := GetPressure(inputs.pressure).effects;
    var h := GetHumidity(inputs.humidity).effects;
    var l := GetLight(inputs.lux, inputs.prox).effects;
    var g := GetGas(inputs.gas).effects;
    var q := GetParticulates(inputs.pms).effects;
    GetTemperatureViews(factor, inputs.temperature, inputs.cpuFirst, inputs.cpuSecond);
    BusAccessViews(Bme280Pressure, inputs.pressure, "Could not get pressure readings. Resetting i2c.");
    BusAccessViews(Bme280Humidity, inputs.humidity, "Could not get humidity readings. Resetting i2c.");
    GetLightViews(inputs.lux, inputs.prox);
    BusAccessViews(GasReadAll, inputs.gas, "Could not get gas readings. Resetting i2c.");
    GetParticulatesViews(inputs.pms);
    ViewsAppend(g, q);
    TraceViews5(t, p, h, l, g + q);
  }

  /** The effects of the first `|rounds|` iterations of the `while True` loop. */
  function ProbeRun(factor: Option<real>, rounds: seq<SensorInputs>): seq<Effect>
    decreases |rounds|
  {
    if rounds == [] then []
    else ProbeRun(factor, rounds[..|rounds| - 1]) + ProbeEffects(factor, rounds[|rounds| - 1])
  }

  /** Bus resets accumulated over a run: the sum of each iteration's handled IOErrors. */
  function RunIOErrors(rounds: seq<SensorInputs>): nat
    decreases |rounds|
  {
    if rounds == [] then 0
    else
      var i := rounds[|rounds| - 1];
      RunIOErrors(rounds[..|rounds| - 1])
      + Failed(i.pressure.Value?) + Failed(i.humidity.Value?)
      + Failed(i.lux.Value? && i.prox.Value?)
      + (Failed(i.gas.Value?) + Failed(!i.pms.PmsIOError?))
  }

  /** Over any number of iterations, the bus is reset exactly once per handled IOError. */
  lemma {:induction false} ProbeRunResets(factor: Option<real>, rounds: seq<SensorInputs>)
    ensures Resets(ProbeRun(factor, rounds)) == RunIOErrors(rounds)
    decreases |rounds|
  {
    if rounds != [] {
      var before := rounds[..|rounds| - 1];
      var last := rounds[|rounds| - 1];
      ProbeRunResets(factor, before);
      ProbeResets(factor, last);
      ViewsAppend(ProbeRun(factor, before), ProbeEffects(factor, last));
    }
  }
}
