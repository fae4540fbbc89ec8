/** Model of `enviroplus_exporter.py`: the metric registry the poll loop writes,
    one iteration of that loop, the snapshot the forwarders take, the InfluxDB
    points and Luftdaten payloads built from it, and the start-up parsers
    (`str_to_bool`, the compensation factor, the Raspberry Pi serial number). */
module EnviroplusExporter {
  import opened Basics
  import opened PyStr
  import opened EnviroplusApi

  // ===========================================================================
  // Start-up: boolean options, the compensation factor, the device serial

  const FalseWords: set<string> := {"false", "f", "0", "no", "n"}
  const TrueWords: set<string> := {"true", "t", "1", "yes", "y"}

  /** `str_to_bool`: ValueError for anything outside the two word sets. */
  function StrToBool(value: string): (r: Result<bool>)
    ensures r.Ok? <==> Lower(value) in FalseWords + TrueWords
    ensures r.Ok? ==> (r.value <==> Lower(value) in TrueWords)
  {
    if Lower(value) in FalseWords then Ok(false)
    else if Lower(value) in TrueWords then Ok(true)
    else Err(value + " is not a valid boolean value")
  }

  /** `str_to_bool` accepts exactly the words of its two sets, in any case. */
  lemma StrToBoolIgnoresCase(value: string)
    ensures StrToBool(value) == Ok(false) <==> exists w :: w in FalseWords && EqualsIgnoringCase(value, w)
    ensures StrToBool(value) == Ok(true) <==> exists w :: w in TrueWords && EqualsIgnoringCase(value, w)
    ensures StrToBool(value).Err? <==>
      forall w :: w in FalseWords + TrueWords ==> !EqualsIgnoringCase(value, w)
    ensures StrToBool(value).Err? ==> StrToBool(value).message == value + " is not a valid boolean value"
  {
    forall w | w in FalseWords + TrueWords
      ensures Lower(value) == w <==> EqualsIgnoringCase(value, w)
    {
      LowerMatchesIgnoringCase(value, w);
    }
  }

  /** The two word sets share nothing, so testing the false set first hides no true word. */
  lemma TrueWordsNotShadowed(value: string)
    ensures FalseWords !! TrueWords
    ensures StrToBool(value) == Ok(true) <==> Lower(value) in TrueWords
  {
  }

  /** An argparse option declared with `type=str_to_bool`: the given text is
      converted, and so is a string default; without either the option is `None`.
      A ValueError is an argument error that stops the program at start-up. */
  function BoolOption(arg: Option<string>, default: Option<string>): (r: Result<Option<bool>>)
    ensures arg.Some? ==> (r.Ok? <==> StrToBool(arg.value).Ok?)
    ensures arg.Some? && StrToBool(arg.value).Ok? ==> r == Ok(Some(StrToBool(arg.value).value))
    ensures arg.None? && default.Some? ==> (r.Ok? <==> StrToBool(default.value).Ok?)
    ensures arg.None? && default.Some? && StrToBool(default.value).Ok? ==>
      r == Ok(Some(StrToBool(default.value).value))
    ensures arg.None? && default.None? ==> r == Ok(None)
  {
    var text := if arg.Some? then arg else default;
    match text
    case None => Ok(None)
    case Some(s) =>
      match StrToBool(s)
      case Ok(b) => Ok(Some(b))
      case Err(e) => Err(e)
  }

  /** `--influxdb` and `--luftdaten` default to the text 'false', so neither
      forwarder runs unless asked for; `--enviro` defaults to `None`. */
  lemma OptionDefaults()
    ensures BoolOption(None, Some("false")) == Ok(Some(false))
    ensures BoolOption(None, None) == Ok(None)
  {
    assert Lower("false") == "false";
  }

  /** `float(os.getenv('ENVIROPLUS_FACTOR', 0)) or False`, once the variable is
      parsed: a zero factor becomes `False` (here `None`). */
  function EnvFactor(env: real): (f: Option<real>)
    ensures Truthy(f) <==> env != 0.0
    ensures f.Some? ==> f == Some(env)
  {
    if env != 0.0 then Some(env) else None
  }

  /** `args.factor or ENVIROPLUS_FACTOR` */
  function ChooseFactor(cli: Option<real>, env: real): (f: Option<real>)
    ensures Truthy(f) <==> Truthy(cli) || env != 0.0
    ensures Truthy(cli) ==> f == cli
    ensures !Truthy(cli) ==> f == EnvFactor(env)
    ensures !Truthy(f) ==> f == None
  {
    if Truthy(cli) then cli else EnvFactor(env)
  }

  /** `line[0:6] == 'Serial'` */
  predicate IsSerialLine(line: string)
    ensures IsSerialLine(line) <==> StartsWith(line, "Serial")
  {
    PrefixEqualsIsStartsWith(line, "Serial");
    Prefix(line, 6) == "Serial"
  }

  /** The outcome of `get_serial_number`: the serial, `None` when no line starts
      with Serial, or the IndexError of `split(":")[1]` on a line without a colon. */
  datatype SerialLookup = Serial(value: string) | NoSerialLine | NoField

  /** `line.split(":")[1].strip()` for the chosen line. */
  function SerialField(line: string): (r: SerialLookup)
    ensures !r.NoSerialLine?
    ensures r.NoField? <==> ':' !in line
    ensures r.Serial? ==> ':' !in r.value && Strip(r.value) == r.value
    ensures r.Serial? ==>
      exists i, j :: SecondFieldSpan(line, ':', i, j) && r.value == Strip(line[i + 1..j])
  {
    if ':' !in line then NoField
    else
      SplitSecondPart(line, ':');
      SplitFromParts(line, ':', 0);
      var field := Split(line, ':')[1];
      assert ':' !in Strip(field) by {
        if ':' in Strip(field) { StripKeepsOnlyCharsOf(field, ':'); }
      }
      StripIdempotent(field);
      Serial(Strip(field))
  }

  /** `get_serial_number` over the lines of /proc/cpuinfo: the first line that
      starts with Serial decides, whatever follows it. */
  method GetSerialNumber(cpuinfo: seq<string>) returns (r: SerialLookup)
    ensures r.NoSerialLine? <==> forall i :: 0 <= i < |cpuinfo| ==> !IsSerialLine(cpuinfo[i])
    ensures !r.NoSerialLine? ==> exists i :: (0 <= i < |cpuinfo| && IsSerialLine(cpuinfo[i])
      && (forall j :: 0 <= j < i ==> !IsSerialLine(cpuinfo[j])) && r == SerialField(cpuinfo[i]))
  {
    var n := 0;
    while n < |cpuinfo|
      invariant 0 <= n <= |cpuinfo|
      invariant forall j :: 0 <= j < n ==> !IsSerialLine(cpuinfo[j])
    {
      if IsSerialLine(cpuinfo[n]) {
        return SerialField(cpuinfo[n]);
      }
      n := n + 1;
    }
    return NoSerialLine;
  }

  /** `'raspi-' + get_serial_number()`: a TypeError unless a serial was found. */
  function SensorUid(lookup: SerialLookup): (uid: Option<string>)
    ensures uid.Some? <==> lookup.Serial?
    ensures uid.Some? ==> StartsWith(uid.value, "raspi-") && uid.value[6..] == lookup.value
  {
    match lookup
    case Serial(s) => Some("raspi-" + s)
    case _ => None
  }

  // ===========================================================================
  // The metric registry

  /** The last value `set` on each gauge. */
  datatype Gauges = Gauges(
    temperature: real, pressure: real, humidity: real,
    oxidising: real, reducing: real, nh3: real,
    lux: real, proximity: real,
    pm1: real, pm25: real, pm10: real)

  /** Every value each histogram has observed, in order; bucket counting is
      left to the metrics library. */
  datatype Histograms = Histograms(
    oxidising: seq<real>, reducing: seq<real>, nh3: seq<real>,
    pm1: seq<real>, pm25: seq<real>, pm10: seq<real>)

  datatype Metrics = Metrics(gauges: Gauges, histograms: Histograms)

  /** The registry at start-up: every gauge reads 0 and no histogram has an observation. */
  function Initial(): Metrics
  {
    Metrics(Gauges(0.0, 0.0, 0.0, 0.0, 0.0, 0.0, 0.0, 0.0, 0.0, 0.0, 0.0),
            Histograms([], [], [], [], [], []))
  }

  /** Temperature, pressure, humidity, lux and proximity agree. */
  predicate SameEnvironment(a: Gauges, b: Gauges)
  {
    && a.temperature == b.temperature && a.pressure == b.pressure && a.humidity == b.humidity
    && a.lux == b.lux && a.proximity == b.proximity
  }

  /** The three gas gauges and their histograms agree. */
  predicate SameGas(a: Metrics, b: Metrics)
  {
    && a.gauges.oxidising == b.gauges.oxidising && a.gauges.reducing == b.gauges.reducing
    && a.gauges.nh3 == b.gauges.nh3
    && a.histograms.oxidising == b.histograms.oxidising && a.histograms.reducing == b.histograms.reducing
    && a.histograms.nh3 == b.histograms.nh3
  }

  /** The three particulate gauges and their histograms agree. */
  predicate SameParticulates(a: Metrics, b: Metrics)
  {
    && a.gauges.pm1 == b.gauges.pm1 && a.gauges.pm25 == b.gauges.pm25 && a.gauges.pm10 == b.gauges.pm10
    && a.histograms.pm1 == b.histograms.pm1 && a.histograms.pm25 == b.histograms.pm25
    && a.histograms.pm10 == b.histograms.pm10
  }

  /** `read_light` once `get_light` returned a value. */
  function AfterLight(m: Metrics, light: Light): Metrics
  {
    m.(gauges := m.gauges.(lux := light.lux, proximity := light.prox))
  }

  /** `read_gas` once `get_gas` returned a value. */
  function AfterGas(m: Metrics, gas: GasReading): Metrics
  {
    Metrics(
      m.gauges.(oxidising := gas.oxidising, reducing := gas.reducing, nh3 := gas.nh3),
      m.histograms.(oxidising := m.histograms.oxidising + [gas.oxidising],
                    reducing := m.histograms.reducing + [gas.reducing],
                    nh3 := m.histograms.nh3 + [gas.nh3]))
  }

  /** `read_particulates` once `get_particulates` returned a value. */
  function AfterParticulates(m: Metrics, d: PmsData): Metrics
  {
    Metrics(
      m.gauges.(pm1 := d.pm1, pm25 := d.pm25, pm10 := d.pm10),
      m.histograms.(pm1 := m.histograms.pm1 + [d.pm1],
                    pm25 := m.histograms.pm25 + [d.pm25 - d.pm1],
                    pm10 := m.histograms.pm10 + [d.pm10 - d.pm25]))
  }

  /** `read_light` sets lux and proximity to the reading and touches nothing else. */
  lemma LightReadSetsOnlyLight(m: Metrics, light: Light)
    ensures var m' := AfterLight(m, light);
      && m'.gauges.lux == light.lux && m'.gauges.proximity == light.prox
      && m'.gauges.temperature == m.gauges.temperature
      && m'.gauges.pressure == m.gauges.pressure
      && m'.gauges.humidity == m.gauges.humidity
      && SameGas(m', m) && SameParticulates(m', m)
  {
  }

  /** `read_gas` sets each gas gauge to its reading, and each gas histogram gains
      one observation: the value its gauge was just set to. Nothing else changes. */
  lemma GasReadObservesWhatItSets(m: Metrics, gas: GasReading)
    ensures var m' := AfterGas(m, gas);
      && m'.gauges.oxidising == gas.oxidising
      && m'.gauges.reducing == gas.reducing
      && m'.gauges.nh3 == gas.nh3
      && m'.histograms.oxidising == m.histograms.oxidising + [m'.gauges.oxidising]
      && m'.histograms.reducing == m.histograms.reducing + [m'.gauges.reducing]
      && m'.histograms.nh3 == m.histograms.nh3 + [m'.gauges.nh3]
      && SameEnvironment(m'.gauges, m.gauges) && SameParticulates(m', m)
  {
  }

  /** `read_particulates` sets the gauges to the cumulative masses; the PM1
      histogram observes PM1, and the PM2.5 and PM10 histograms observe the mass
      of their band alone, the difference from the next smaller size. Nothing
      else changes. */
  lemma ParticulateReadObservesBands(m: Metrics, d: PmsData)
    ensures var m' := AfterParticulates(m, d);
      && m'.gauges.pm1 == d.pm1 && m'.gauges.pm25 == d.pm25 && m'.gauges.pm10 == d.pm10
      && m'.histograms.pm1 == m.histograms.pm1 + [d.pm1]
      && m'.histograms.pm25 == m.histograms.pm25 + [d.pm25 - d.pm1]
      && m'.histograms.pm10 == m.histograms.pm10 + [d.pm10 - d.pm25]
      && SameEnvironment(m'.gauges, m.gauges) && SameGas(m', m)
  {
  }

  function Last(s: seq<real>): real
    requires s != []
  {
    s[|s| - 1]
  }

  /** The band observations of one particulate read add back up to the cumulative
      gauges: the PM1 and PM2.5-band observations give the PM2.5 gauge, and
      adding the PM10-band observation gives the PM10 gauge. */
  lemma ParticulateBandsAddUp(m: Metrics, d: PmsData)
    ensures var m' := AfterParticulates(m, d);
      var b1 := Last(m'.histograms.pm1);
      var b25 := Last(m'.histograms.pm25);
      var b10 := Last(m'.histograms.pm10);
      && b1 == m'.gauges.pm1
      && b1 + b25 == m'.gauges.pm25
      && b1 + b25 + b10 == m'.gauges.pm10
  {
  }

  // ===========================================================================
  // One iteration of the main loop

  /** `if not args.enviro:` is skipped only when the flag is explicitly true. */
  predicate SkipsGasAndParticulates(enviro: Option<bool>)
  {
    enviro == Some(true)
  }

  /** The reads the loop makes this iteration all return a value. A `None`
      from any of them would raise inside `read_*` and end the loop. */
  predicate PollReadsSucceed(enviro: Option<bool>, inputs: SensorInputs)
  {
    && inputs.pressure.Value? && inputs.humidity.Value?
    && inputs.lux.Value? && inputs.prox.Value?
    && (!SkipsGasAndParticulates(enviro) ==> inputs.gas.Value? && inputs.pms.Frame?)
  }

  /** The first four calls of an iteration: `read_temperature`, `read_pressure`,
      `read_humidity` and `read_light`. */
  function PollEnvironment(m: Metrics, factor: Option<real>, inputs: SensorInputs): Metrics
    requires inputs.pressure.Value? && inputs.humidity.Value? && inputs.lux.Value? && inputs.prox.Value?
  {
    var temperature := GetTemperature(factor, inputs.temperature, inputs.cpuFirst, inputs.cpuSecond);
    var m1 := m.(gauges := m.gauges.(
      temperature := temperature.reading.value,
      pressure := GetPressure(inputs.pressure).reading.value,
      humidity := GetHumidity(inputs.humidity).reading.value));
    AfterLight(m1, GetLight(inputs.lux, inputs.prox).reading.value)
  }

  /** The registry after one iteration of the main loop. */
  function Poll(m: Metrics, factor: Option<real>, enviro: Option<bool>, inputs: SensorInputs): Metrics
    requires PollReadsSucceed(enviro, inputs)
  {
    var m' := PollEnvironment(m, factor, inputs);
    if SkipsGasAndParticulates(enviro) then m'
    else AfterParticulates(AfterGas(m', GetGas(inputs.gas).reading.value),
                           GetParticulates(inputs.pms).reading.value)
  }

  /** The effects of one iteration of the main loop, accessor by accessor. */
  function PollEffects(factor: Option<real>, enviro: Option<bool>, inputs: SensorInputs): seq<Effect>
    requires PollReadsSucceed(enviro, inputs)
  {
    GetTemperature(factor, inputs.temperature, inputs.cpuFirst, inputs.cpuSecond).effects
    + GetPressure(inputs.pressure).effects
    + GetHumidity(inputs.humidity).effects
    + GetLight(inputs.lux, inputs.prox).effects
    + if SkipsGasAndParticulates(enviro) then []
      else GetGas(inputs.gas).effects + GetParticulates(inputs.pms).effects
  }

  /** What an iteration writes to the five environment gauges, accessor by accessor. */
  lemma PollEnvironmentReads(m: Metrics, factor: Option<real>, enviro: Option<bool>, inputs: SensorInputs)
    requires PollReadsSucceed(enviro, inputs)
    ensures var g := Poll(m, factor, enviro, inputs).gauges;
      && g.temperature == GetTemperature(factor, inputs.temperature, inputs.cpuFirst, inputs.cpuSecond).reading.value
      && g.pressure == GetPressure(inputs.pressure).reading.value
      && g.humidity == GetHumidity(inputs.humidity).reading.value
      && g.lux == GetLight(inputs.lux, inputs.prox).reading.value.lux
      && g.proximity == GetLight(inputs.lux, inputs.prox).reading.value.prox
  {
  }

  /** Every iteration writes the temperature gauge from this iteration's BME280
      reading, compensated exactly when the factor is truthy. */
  lemma PollSetsTemperature(m: Metrics, factor: Option<real>, enviro: Option<bool>, inputs: SensorInputs)
    requires PollReadsSucceed(enviro, inputs)
    ensures Poll(m, factor, enviro, inputs).gauges.temperature ==
      if Truthy(factor) then
        Compensate(inputs.temperature,
                   (4.0 * GetCpuTemperature(inputs.cpuFirst) + GetCpuTemperature(inputs.cpuSecond)) / 5.0,
                   factor.value)
      else inputs.temperature
  {
    PollEnvironmentReads(m, factor, enviro, inputs);
  }

  /** Every iteration writes pressure, humidity, lux and proximity from this
      iteration's readings. */
  lemma PollSetsEnvironment(m: Metrics, factor: Option<real>, enviro: Option<bool>, inputs: SensorInputs)
    requires PollReadsSucceed(enviro, inputs)
    ensures var g := Poll(m, factor, enviro, inputs).gauges;
      && g.pressure == inputs.pressure.value
      && g.humidity == inputs.humidity.value
      && g.lux == inputs.lux.value
      && g.proximity == inputs.prox.value
  {
    PollEnvironmentReads(m, factor, enviro, inputs);
  }

  /** With the Enviro flag set, an iteration leaves the gas and particulate
      gauges and all histograms alone. Without it, the gas and particulate gauges
      take this iteration's readings and each histogram gains one observation at
      the end: the gas readings, PM1, and the PM2.5 and PM10 bands. */
  lemma PollSkipRule(m: Metrics, factor: Option<real>, enviro: Option<bool>, inputs: SensorInputs)
    requires PollReadsSucceed(enviro, inputs)
    ensures var m' := Poll(m, factor, enviro, inputs);
      SkipsGasAndParticulates(enviro) ==> SameGas(m', m) && SameParticulates(m', m)
    ensures var m' := Poll(m, factor, enviro, inputs);
      !SkipsGasAndParticulates(enviro) ==>
        && m'.gauges.oxidising == inputs.gas.value.oxidising
        && m'.gauges.reducing == inputs.gas.value.reducing
        && m'.gauges.nh3 == inputs.gas.value.nh3
        && m'.gauges.pm1 == inputs.pms.data.pm1
        && m'.gauges.pm25 == inputs.pms.data.pm25
        && m'.gauges.pm10 == inputs.pms.data.pm10
        && m'.histograms.oxidising == m.histograms.oxidising + [inputs.gas.value.oxidising]
        && m'.histograms.reducing == m.histograms.reducing + [inputs.gas.value.reducing]
        && m'.histograms.nh3 == m.histograms.nh3 + [inputs.gas.value.nh3]
        && m'.histograms.pm1 == m.histograms.pm1 + [inputs.pms.data.pm1]
        && m'.histograms.pm25 == m.histograms.pm25 + [inputs.pms.data.pm25 - inputs.pms.data.pm1]
        && m'.histograms.pm10 == m.histograms.pm10 + [inputs.pms.data.pm10 - inputs.pms.data.pm25]
  {
  }

  /** The devices one iteration calls, in order: gas and particulates come last
      and only without the Enviro flag; the CPU temperature only when compensating.
      A successful iteration logs nothing and resets nothing. */
  lemma PollCallOrder(factor: Option<real>, enviro: Option<bool>, inputs: SensorInputs)
    requires PollReadsSucceed(enviro, inputs)
    ensures Devices(PollEffects(factor, enviro, inputs)) ==
      [Bme280Temperature] + (if Truthy(factor) then [CpuThermalZone, CpuThermalZone] else [])
      + [Bme280Pressure, Bme280Humidity, Ltr559Lux, Ltr559Proximity]
      + (if SkipsGasAndParticulates(enviro) then [] else [GasReadAll, Pms5003Read])
    ensures LogLevels(PollEffects(factor, enviro, inputs)) == []
    ensures Resets(PollEffects(factor, enviro, inputs)) == 0
  {
    var t := GetTemperature(factor, inputs.temperature, inputs.cpuFirst, inputs.cpuSecond).effects;
    var p := GetPressure(inputs.pressure).effects;
    var h := GetHumidity(inputs.humidity).effects;
    var l := GetLight(inputs.lux, inputs.prox).effects;
    var rest := if SkipsGasAndParticulates(enviro) then []
      else GetGas(inputs.gas).effects + GetParticulates(inputs.pms).effects;
    GetTemperatureViews(factor, inputs.temperature, inputs.cpuFirst, inputs.cpuSecond);
    EnvironmentReadViews(inputs);
    var gas := if SkipsGasAndParticulates(enviro) then [] else [GasReadAll, Pms5003Read];
    if !SkipsGasAndParticulates(enviro) {
      GasThenParticulates(inputs.gas, inputs.pms);
    }
    TraceViews5(t, p, h, l, rest);
    SeqAssoc(Devices(t), Devices(p), Devices(h), Devices(l), gas);
    assert Devices(p) + Devices(h) + Devices(l) == [Bme280Pressure, Bme280Humidity, Ltr559Lux, Ltr559Proximity];
  }



  /** Successful pressure, humidity and light reads. */
  lemma EnvironmentReadViews(inputs: SensorInputs)
    requires inputs.pressure.Value? && inputs.humidity.Value? && inputs.lux.Value? && inputs.prox.Value?
    ensures var p := GetPressure(inputs.pressure).effects;
      var h := GetHumidity(inputs.humidity).effects;
      var l := GetLight(inputs.lux, inputs.prox).effects;
      && Devices(p) + Devices(h) + Devices(l) == [Bme280Pressure, Bme280Humidity, Ltr559Lux, Ltr559Proximity]
      && LogLevels(p) == [] && LogLevels(h) == [] && LogLevels(l) == []
      && Resets(p) == 0 && Resets(h) == 0 && Resets(l) == 0
  {
    GetLightViews(inputs.lux, inputs.prox);
    BusAccessViews(Bme280Pressure, inputs.pressure, "Could not get pressure readings. Resetting i2c.");
    BusAccessViews(Bme280Humidity, inputs.humidity, "Could not get humidity readings. Resetting i2c.");
  }

  /** A successful gas read followed by a successful particulate read. */
  lemma GasThenParticulates(gas: BusRead<GasReading>, pms: PmsRead)
    requires gas.Value? && pms.Frame?
    ensures var e := GetGas(gas).effects + GetParticulates(pms).effects;
      Devices(e) == [GasReadAll, Pms5003Read] && LogLevels(e) == [] && Resets(e) == 0
  {
    BusAccessViews(GasReadAll, gas, "Could not get gas readings. Resetting i2c.");
    GetParticulatesViews(pms);
    ViewsAppend(GetGas(gas).effects, GetParticulates(pms).effects);
  }

  /** Regrouping a concatenation of five sequences. */
  lemma SeqAssoc<T>(a: seq<T>, b: seq<T>, c: seq<T>, d: seq<T>, e: seq<T>)
    ensures a + b + c + d + e == a + (b + c + d) + e
  {
  }

  /** Iterations of the main loop, one per element of `rounds`, in order. */
  function PollMany(m: Metrics, factor: Option<real>, enviro: Option<bool>, rounds: seq<SensorInputs>): Metrics
    requires forall i :: 0 <= i < |rounds| ==> PollReadsSucceed(enviro, rounds[i])
    decreases |rounds|
  {
    if rounds == [] then m
    else Poll(PollMany(m, factor, enviro, rounds[..|rounds| - 1]), factor, enviro, rounds[|rounds| - 1])
  }

  /** With the Enviro flag set, no number of iterations touches a gas or
      particulate gauge or any histogram. */
  lemma {:induction false} EnviroLeavesGasAndParticulates(
    m: Metrics, factor: Option<real>, enviro: Option<bool>, rounds: seq<SensorInputs>)
    requires SkipsGasAndParticulates(enviro)
    requires forall i :: 0 <= i < |rounds| ==> PollReadsSucceed(enviro, rounds[i])
    ensures var m' := PollMany(m, factor, enviro, rounds);
      SameGas(m', m) && SameParticulates(m', m)
    decreases |rounds|
  {
    if rounds != [] {
      var before := PollMany(m, factor, enviro, rounds[..|rounds| - 1]);
      EnviroLeavesGasAndParticulates(m, factor, enviro, rounds[..|rounds| - 1]);
      PollSkipRule(before, factor, enviro, rounds[|rounds| - 1]);
    }
  }

  /** The effects of the iterations of the main loop, one per element of `rounds`. */
  function PollManyEffects(factor: Option<real>, enviro: Option<bool>, rounds: seq<SensorInputs>): seq<Effect>
    requires forall i :: 0 <= i < |rounds| ==> PollReadsSucceed(enviro, rounds[i])
    decreases |rounds|
  {
    if rounds == [] then []
    else PollManyEffects(factor, enviro, rounds[..|rounds| - 1]) + PollEffects(factor, enviro, rounds[|rounds| - 1])
  }

  /** With the Enviro flag set, an iteration calls neither the gas sensor nor
      the PMS5003. */
  lemma EnviroIterationDevices(factor: Option<real>, enviro: Option<bool>, inputs: SensorInputs)
    requires SkipsGasAndParticulates(enviro)
    requires PollReadsSucceed(enviro, inputs)
    ensures GasReadAll !in Devices(PollEffects(factor, enviro, inputs))
    ensures Pms5003Read !in Devices(PollEffects(factor, enviro, inputs))
  {
    PollCallOrder(factor, enviro, inputs);
  }

  /** With the Enviro flag set, no number of iterations calls the gas sensor or
      the PMS5003. */
  lemma {:induction false} EnviroNeverReadsGasOrParticulates(
    factor: Option<real>, enviro: Option<bool>, rounds: seq<SensorInputs>)
    requires SkipsGasAndParticulates(enviro)
    requires forall i :: 0 <= i < |rounds| ==> PollReadsSucceed(enviro, rounds[i])
    ensures GasReadAll !in Devices(PollManyEffects(factor, enviro, rounds))
    ensures Pms5003Read !in Devices(PollManyEffects(factor, enviro, rounds))
    decreases |rounds|
  {
    if rounds != [] {
      var before := rounds[..|rounds| - 1];
      var last := rounds[|rounds| - 1];
      EnviroNeverReadsGasOrParticulates(factor, enviro, before);
      EnviroIterationDevices(factor, enviro, last);
      DevicesAppend(PollManyEffects(factor, enviro, before), PollEffects(factor, enviro, last));
    }
  }

  // ===========================================================================
  // collect_all_data and the two forwarders

  /** The keys `collect_all_data` writes, in order. */
  const SnapshotKeys: seq<string> := [
    "temperature", "humidity", "pressure", "oxidising", "reducing", "nh3",
    "lux", "proximity", "pm1", "pm25", "pm10"]

  /** The keys of a dictionary, in insertion order. */
  function Keys(data: seq<(string, real)>): (keys: seq<string>)
    ensures |keys| == |data|
    ensures forall i :: 0 <= i < |data| ==> keys[i] == data[i].0
  {
    seq(|data|, i requires 0 <= i < |data| => data[i].0)
  }

  /** What `collect_all_data` returns for a registry in state `m`, as an
      insertion-ordered dictionary. */
  function Snapshot(m: Metrics): (data: seq<(string, real)>)
    ensures Keys(data) == SnapshotKeys
  {
    var g := m.gauges;
    [("temperature", g.temperature), ("humidity", g.humidity), ("pressure", g.pressure),
     ("oxidising", g.oxidising), ("reducing", g.reducing), ("nh3", g.nh3),
     ("lux", g.lux), ("proximity", g.proximity),
     ("pm1", g.pm1), ("pm25", g.pm25), ("pm10", g.pm10)]
  }

  /** `data[key]` on the dictionary: the value stored under `key`, if any. */
  function Get(data: seq<(string, real)>, key: string): Option<real>
  {
    if data == [] then None
    else if data[0].0 == key then Some(data[0].1)
    else Get(data[1..], key)
  }

  /** A lookup succeeds exactly for the keys the dictionary holds. */
  lemma {:induction false} GetFindsKeys(data: seq<(string, real)>, key: string)
    ensures Get(data, key).Some? <==> key in Keys(data)
  {
    if data != [] {
      GetFindsKeys(data[1..], key);
      assert Keys(data) == [data[0].0] + Keys(data[1..]);
    }
  }

  /** A lookup finds the first entry with the key. */
  lemma {:induction false} GetFirst(data: seq<(string, real)>, key: string, i: nat)
    requires i < |data| && data[i].0 == key
    requires forall j :: 0 <= j < i ==> data[j].0 != key
    ensures Get(data, key) == Some(data[i].1)
  {
    if i > 0 {
      GetFirst(data[1..], key, i - 1);
    }
  }

  /** Each key of the snapshot looks up the gauge of the same name. */
  lemma SnapshotLookup(m: Metrics)
    ensures var data := Snapshot(m);
      && Get(data, "temperature") == Some(m.gauges.temperature)
      && Get(data, "humidity") == Some(m.gauges.humidity)
      && Get(data, "pressure") == Some(m.gauges.pressure)
      && Get(data, "oxidising") == Some(m.gauges.oxidising)
      && Get(data, "reducing") == Some(m.gauges.reducing)
      && Get(data, "nh3") == Some(m.gauges.nh3)
      && Get(data, "lux") == Some(m.gauges.lux)
      && Get(data, "proximity") == Some(m.gauges.proximity)
      && Get(data, "pm1") == Some(m.gauges.pm1)
      && Get(data, "pm25") == Some(m.gauges.pm25)
      && Get(data, "pm10") == Some(m.gauges.pm10)
  {
    SnapshotLookupFirst(m);
    SnapshotLookupLast(m);
  }

  /** The first six keys of the snapshot. */
  lemma SnapshotLookupFirst(m: Metrics)
    ensures var data := Snapshot(m);
      && Get(data, "temperature") == Some(m.gauges.temperature)
      && Get(data, "humidity") == Some(m.gauges.humidity)
      && Get(data, "pressure") == Some(m.gauges.pressure)
      && Get(data, "oxidising") == Some(m.gauges.oxidising)
      && Get(data, "reducing") == Some(m.gauges.reducing)
      && Get(data, "nh3") == Some(m.gauges.nh3)
  {
    var data := Snapshot(m);
    GetFirst(data, "temperature", 0);
    GetFirst(data, "humidity", 1);
    assert "pressure"[0] != "humidity"[0];
    GetFirst(data, "pressure", 2);
    GetFirst(data, "oxidising", 3);
    assert "reducing"[0] != "humidity"[0] && "reducing"[0] != "pressure"[0];
    GetFirst(data, "reducing", 4);
    GetFirst(data, "nh3", 5);
  }

  /** The last five keys of the snapshot. */
  lemma SnapshotLookupLast(m: Metrics)
    ensures var data := Snapshot(m);
      && Get(data, "lux") == Some(m.gauges.lux)
      && Get(data, "proximity") == Some(m.gauges.proximity)
      && Get(data, "pm1") == Some(m.gauges.pm1)
      && Get(data, "pm25") == Some(m.gauges.pm25)
      && Get(data, "pm10") == Some(m.gauges.pm10)
  {
    var data := Snapshot(m);
    assert "lux"[0] != "nh3"[0];
    GetFirst(data, "lux", 6);
    assert "proximity"[0] != "oxidising"[0];
    GetFirst(data, "proximity", 7);
    assert "pm1"[0] != "nh3"[0] && "pm1"[0] != "lux"[0];
    GetFirst(data, "pm1", 8);
    GetFirst(data, "pm25", 9);
    assert "pm10"[2] != "pm25"[2];
    GetFirst(data, "pm10", 10);
  }

  /** One InfluxDB point: measurement, location tag and one field. */
  datatype Point = Point(measurement: string, tag: (string, string), field: (string, real))

  /** `os.getenv('INFLUXDB_SENSOR_LOCATION', 'Adelaide')` */
  function SensorLocation(env: Option<string>): (location: string)
    ensures env.Some? ==> location == env.value
    ensures env.None? ==> location == "Adelaide"
  {
    env.GetOr("Adelaide")
  }

  /** The points one `post_to_influxdb` cycle writes: one per snapshot key, in
      key order, each in measurement `enviroplus` with the location tag. */
  method InfluxPoints(locationEnv: Option<string>, data: seq<(string, real)>) returns (points: seq<Point>)
    ensures |points| == |data|
    ensures forall i :: 0 <= i < |data| ==>
      points[i] == Point("enviroplus", ("location", SensorLocation(locationEnv)), data[i])
  {
    var location := SensorLocation(locationEnv);
    points := [];
    for i := 0 to |data|
      invariant |points| == i
      invariant forall k :: 0 <= k < i ==> points[k] == Point("enviroplus", ("location", location), data[k])
    {
      points := points + [Point("enviroplus", ("location", location), data[i])];
    }
  }

  /** A value sent to Luftdaten: a number as is, or `"{:.2f}".format(x)`, kept
      symbolic because the float formatting is not modelled. */
  datatype Value = Number(x: real) | Fixed2(x: real)

  const LuftdatenKeys: seq<string> := ["pm25", "pm10", "temperature", "pressure", "humidity"]

  predicate HasLuftdatenKeys(data: seq<(string, real)>)
  {
    forall k :: k in LuftdatenKeys ==> Get(data, k).Some?
  }

  /** The `values` dictionary of one `post_to_luftdaten` cycle, filled key by key;
      the pressure goes out in pascal (the gauge holds hectopascal). */
  function LuftdatenValues(data: seq<(string, real)>): (values: seq<(string, Value)>)
    requires HasLuftdatenKeys(data)
  {
    [("P2", Number(Get(data, "pm25").value)),
     ("P1", Number(Get(data, "pm10").value)),
     ("temperature", Fixed2(Get(data, "temperature").value)),
     ("pressure", Fixed2(Get(data, "pressure").value * 100.0)),
     ("humidity", Fixed2(Get(data, "humidity").value))]
  }

  /** `key.startswith('P')`: upper-case P only, so `pressure` is not one. */
  predicate IsParticulateKey(key: string)
  {
    StartsWith(key, "P")
  }

  /** The dict comprehensions of `post_to_luftdaten`: the entries whose key does
      (`particulate`) or does not start with P, in their original order. */
  function Select(values: seq<(string, Value)>, particulate: bool): seq<(string, Value)>
  {
    if values == [] then []
    else
      var first := if IsParticulateKey(values[0].0) == particulate then [values[0]] else [];
      first + Select(values[1..], particulate)
  }

  /** A selection holds entries of the dictionary, all on the requested side. */
  lemma {:induction false} SelectKeeps(values: seq<(string, Value)>, particulate: bool)
    ensures |Select(values, particulate)| <= |values|
    ensures forall kv :: kv in Select(values, particulate) ==>
      kv in values && IsParticulateKey(kv.0) == particulate
  {
    if values != [] {
      SelectKeeps(values[1..], particulate);
      assert forall kv :: kv in values[1..] ==> kv in values;
    }
  }

  /** Selection keeps order: it distributes over concatenation. */
  lemma {:induction false} SelectAppend(a: seq<(string, Value)>, b: seq<(string, Value)>, particulate: bool)
    ensures Select(a + b, particulate) == Select(a, particulate) + Select(b, particulate)
  {
    if a == [] {
      assert a + b == b;
    } else {
      var first := if IsParticulateKey(a[0].0) == particulate then [a[0]] else [];
      assert a == [a[0]] + a[1..];
      assert a + b == [a[0]] + (a[1..] + b);
      SelectCons(a[0], a[1..], particulate);
      SelectCons(a[0], a[1..] + b, particulate);
      SelectAppend(a[1..], b, particulate);
      assert first + (Select(a[1..], particulate) + Select(b, particulate))
          == (first + Select(a[1..], particulate)) + Select(b, particulate);
    }
  }

  /** The two selections split the entries between them: together they hold
      each entry exactly as often as the dictionary does. */
  lemma {:induction false} SelectPartitions(values: seq<(string, Value)>)
    ensures multiset(Select(values, true)) + multiset(Select(values, false)) == multiset(values)
  {
    if values != [] {
      SelectPartitions(values[1..]);
      assert values == [values[0]] + values[1..];
    }
  }

  /** Selection looks at the first entry, then at the rest. */
  lemma SelectCons(kv: (string, Value), rest: seq<(string, Value)>, particulate: bool)
    ensures Select([kv] + rest, particulate) ==
      (if IsParticulateKey(kv.0) == particulate then [kv] else []) + Select(rest, particulate)
  {
    assert ([kv] + rest)[1..] == rest;
  }

  /** For the five Luftdaten values, the split yields `P2` and `P1` for pin 1 and
      temperature, pressure and humidity for pin 11. */
  lemma LuftdatenSplit(data: seq<(string, real)>)
    requires HasLuftdatenKeys(data)
    ensures var values := LuftdatenValues(data);
      Select(values, true) == values[..2] && Select(values, false) == values[2..]
  {
    var v := LuftdatenValues(data);
    assert IsParticulateKey(v[0].0) && IsParticulateKey(v[1].0);
    assert "temperature"[0] == 't' && "pressure"[0] == 'p' && "humidity"[0] == 'h';
    assert !IsParticulateKey(v[2].0) && !IsParticulateKey(v[3].0) && !IsParticulateKey(v[4].0);
    var s4: seq<(string, Value)> := [v[4]];
    var s3 := [v[3]] + s4;
    var s2 := [v[2]] + s3;
    var s1 := [v[1]] + s2;
    assert v == [v[0]] + s1;
    assert s4 == [v[4]] + [];
    SelectCons(v[4], [], true);
    SelectCons(v[4], [], false);
    SelectCons(v[3], s4, true);
    SelectCons(v[3], s4, false);
    SelectCons(v[2], s3, true);
    SelectCons(v[2], s3, false);
    SelectCons(v[1], s2, true);
    SelectCons(v[1], s2, false);
    SelectCons(v[0], s1, true);
    SelectCons(v[0], s1, false);
  }

  const LuftdatenUrl := "https://api.luftdaten.info/v1/push-sensor-data/"
  const SoftwareVersion := "enviro-plus 0.0.1"

  datatype SensorDataValue = SensorDataValue(valueType: string, value: Value)

  /** One POST to Luftdaten: the JSON body and the headers. */
  datatype LuftdatenPost = LuftdatenPost(
    url: string,
    softwareVersion: string,
    sensorDataValues: seq<SensorDataValue>,
    headers: seq<(string, string)>)

  /** The request body and headers for one pin. */
  function PostFor(pin: string, uid: string, values: seq<(string, Value)>): (p: LuftdatenPost)
    ensures |p.sensorDataValues| == |values|
    ensures forall i :: 0 <= i < |values| ==>
      p.sensorDataValues[i] == SensorDataValue(values[i].0, values[i].1)
    ensures p.url == LuftdatenUrl && p.softwareVersion == SoftwareVersion
    ensures p.headers == [("X-PIN", pin), ("X-Sensor", uid),
                          ("Content-Type", "application/json"), ("cache-control", "no-cache")]
  {
    LuftdatenPost(LuftdatenUrl, SoftwareVersion,
      seq(|values|, i requires 0 <= i < |values| => SensorDataValue(values[i].0, values[i].1)),
      [("X-PIN", pin), ("X-Sensor", uid), ("Content-Type", "application/json"), ("cache-control", "no-cache")])
  }

  /** The two POSTs of one `post_to_luftdaten` cycle: particulates under pin 1,
      temperature, pressure and humidity under pin 11, both for the same sensor. */
  function LuftdatenPosts(uid: string, data: seq<(string, real)>): (posts: (LuftdatenPost, LuftdatenPost))
    requires HasLuftdatenKeys(data)
  {
    var values := LuftdatenValues(data);
    (PostFor("1", uid, Select(values, true)), PostFor("11", uid, Select(values, false)))
  }

  /** What the two POSTs carry for a registry in state `m`: pin 1 sends PM2.5
      and PM10 as `P2` and `P1`; pin 11 sends temperature, pressure in pascal
      and humidity, each formatted with two decimals. */
  lemma LuftdatenPayloads(m: Metrics, uid: string)
    ensures HasLuftdatenKeys(Snapshot(m))
    ensures var (pin1, pin11) := LuftdatenPosts(uid, Snapshot(m));
      && |pin1.headers| >= 2 && pin1.headers[..2] == [("X-PIN", "1"), ("X-Sensor", uid)]
      && |pin11.headers| >= 2 && pin11.headers[..2] == [("X-PIN", "11"), ("X-Sensor", uid)]
      && pin1.sensorDataValues == [SensorDataValue("P2", Number(m.gauges.pm25)),
                                   SensorDataValue("P1", Number(m.gauges.pm10))]
      && pin11.sensorDataValues == [SensorDataValue("temperature", Fixed2(m.gauges.temperature)),
                                    SensorDataValue("pressure", Fixed2(m.gauges.pressure * 100.0)),
                                    SensorDataValue("humidity", Fixed2(m.gauges.humidity))]
  {
    var data := Snapshot(m);
    SnapshotLookup(m);
    assert HasLuftdatenKeys(data);
    LuftdatenSplit(data);
  }

  // ===========================================================================
  // The registry object the poll loop writes

  /** The process-wide gauges and histograms, updated in place by `read_*`. */
  class Registry {
    var gauges: Gauges
    var histograms: Histograms

    function State(): Metrics
      reads this
    {
      Metrics(gauges, histograms)
    }

    constructor ()
      ensures State() == Initial()
    {
      gauges := Initial().gauges;
      histograms := Initial().histograms;
    }

    /** `read_temperature(factor)` */
    method ReadTemperature(factor: Option<real>, raw: real, cpuFirst: int, cpuSecond: int)
      returns (effects: seq<Effect>)
      modifies this
      ensures gauges == old(gauges).(temperature := GetTemperature(factor, raw, cpuFirst, cpuSecond).reading.value)
      ensures histograms == old(histograms)
      ensures effects == GetTemperature(factor, raw, cpuFirst, cpuSecond).effects
    {
      var temperature := GetTemperature(factor, raw, cpuFirst, cpuSecond);
      gauges := gauges.(temperature := temperature.reading.value);
      effects := temperature.effects;
    }

    /** `read_pressure()`; the read must succeed, as `PRESSURE.set(None)` raises. */
    method ReadPressure(read: BusRead<real>) returns (effects: seq<Effect>)
      requires read.Value?
      modifies this
      ensures gauges == old(gauges).(pressure := read.value)
      ensures histograms == old(histograms)
      ensures effects == [Call(Bme280Pressure)]
    {
      var pressure := GetPressure(read);
      gauges := gauges.(pressure := pressure.reading.value);
      effects := pressure.effects;
    }

    /** `read_humidity()`; the read must succeed, as `HUMIDITY.set(None)` raises. */
    method ReadHumidity(read: BusRead<real>) returns (effects: seq<Effect>)
      requires read.Value?
      modifies this
      ensures gauges == old(gauges).(humidity := read.value)
      ensures histograms == old(histograms)
      ensures effects == [Call(Bme280Humidity)]
    {
      var humidity := GetHumidity(read);
      gauges := gauges.(humidity := humidity.reading.value);
      effects := humidity.effects;
    }

    /** `read_light()`; both reads must succeed, as `None["lux"]` raises. */
    method ReadLight(lux: BusRead<real>, prox: BusRead<real>) returns (effects: seq<Effect>)
      requires lux.Value? && prox.Value?
      modifies this
      ensures State() == AfterLight(old(State()), Light(lux.value, prox.value))
      ensures effects == GetLight(lux, prox).effects
    {
      var light := GetLight(lux, prox);
      gauges := gauges.(lux := light.reading.value.lux);
      gauges := gauges.(proximity := light.reading.value.prox);
      effects := light.effects;
    }

    /** `read_gas()`; the read must succeed, as `None.oxidising` raises. */
    method ReadGas(read: BusRead<GasReading>) returns (effects: seq<Effect>)
      requires read.Value?
      modifies this
      ensures State() == AfterGas(old(State()), read.value)
      ensures effects == [Call(GasReadAll)]
    {
      var gas := GetGas(read);
      var readings := gas.reading.value;
      gauges := gauges.(oxidising := readings.oxidising);
      histograms := histograms.(oxidising := histograms.oxidising + [readings.oxidising]);
      gauges := gauges.(reducing := readings.reducing);
      histograms := histograms.(reducing := histograms.reducing + [readings.reducing]);
      gauges := gauges.(nh3 := readings.nh3);
      histograms := histograms.(nh3 := histograms.nh3 + [readings.nh3]);
      effects := gas.effects;
    }

    /** `read_particulates()`; the read must succeed, as `None.pm_ug_per_m3` raises. */
    method ReadParticulates(read: PmsRead) returns (effects: seq<Effect>)
      requires read.Frame?
      modifies this
      ensures State() == AfterParticulates(old(State()), read.data)
      ensures effects == [Call(Pms5003Read)]
    {
      var particulates := GetParticulates(read);
      var pms := particulates.reading.value;
      gauges := gauges.(pm1 := pms.pm1);
      gauges := gauges.(pm25 := pms.pm25);
      gauges := gauges.(pm10 := pms.pm10);
      histograms := histograms.(pm1 := histograms.pm1 + [pms.pm1]);
      histograms := histograms.(pm25 := histograms.pm25 + [pms.pm25 - pms.pm1]);
      histograms := histograms.(pm10 := histograms.pm10 + [pms.pm10 - pms.pm25]);
      effects := particulates.effects;
    }

    /** One iteration of the main `while True` loop. */
    method PollOnce(factor: Option<real>, enviro: Option<bool>, inputs: SensorInputs)
      returns (effects: seq<Effect>)
      requires PollReadsSucceed(enviro, inputs)
      modifies this
      ensures State() == Poll(old(State()), factor, enviro, inputs)
      ensures effects == PollEffects(factor, enviro, inputs)
    {
      var t := ReadTemperature(factor, inputs.temperature, inputs.cpuFirst, inputs.cpuSecond);
      var p := ReadPressure(inputs.pressure);
      var h := ReadHumidity(inputs.humidity);
      var l := ReadLight(inputs.lux, inputs.prox);
      effects := t + p + h + l;
      if !SkipsGasAndParticulates(enviro) {
        var g := ReadGas(inputs.gas);
        var pm := ReadParticulates(inputs.pms);
        effects := effects + (g + pm);
      }
    }

    /** The points of one `post_to_influxdb` cycle: the snapshot, then one
        point per key, each field holding the gauge of that name. */
    method InfluxCycle(locationEnv: Option<string>) returns (points: seq<Point>)
      ensures |points| == |SnapshotKeys|
      ensures forall i :: 0 <= i < |points| ==>
        && points[i].measurement == "enviroplus"
        && points[i].tag == ("location", SensorLocation(locationEnv))
        && points[i].field == Snapshot(State())[i]
    {
      var data := CollectAllData();
      points := InfluxPoints(locationEnv, data);
    }

    /** `collect_all_data()`, filling the dictionary key by key. */
    method CollectAllData() returns (data: seq<(string, real)>)
      ensures data == Snapshot(State())
    {
      data := [];
      data := data + [("temperature", gauges.temperature)];
      data := data + [("humidity", gauges.humidity)];
      data := data + [("pressure", gauges.pressure)];
      data := data + [("oxidising", gauges.oxidising)];
      data := data + [("reducing", gauges.reducing)];
      data := data + [("nh3", gauges.nh3)];
      data := data + [("lux", gauges.lux)];
      data := data + [("proximity", gauges.proximity)];
      data := data + [("pm1", gauges.pm1)];
      data := data + [("pm25", gauges.pm25)];
      data := data + [("pm10", gauges.pm10)];
    }
  }
}
