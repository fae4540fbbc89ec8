# Enviro+ exporter, modelled in Dafny

This project models the core of a Prometheus exporter for the Pimoroni Enviro+
board on a Raspberry Pi. It has three parts:

- `enviroplus_api.py` holds the six sensor accessors and the CPU-heat
  compensation of the temperature.
- `enviroplus_exporter.py` holds the following:
  - the metric registry that the main loop writes;
  - one iteration of that loop;
  - the snapshot that the InfluxDB and Luftdaten forwarders take;
  - the points and HTTP payloads the forwarders build;
  - the start-up parsers: `str_to_bool`, the compensation factor and the
    Raspberry Pi serial number.
- `enviroplus_api_test.py` is a probe. It reads every sensor in a fixed order
  and logs the results.

Files:

- `basics.dfy`: the `Option` and `Result` datatypes.
- `pystr.dfy`: the Python string operations the source uses, namely `lower`,
  `strip`, `split`, slicing and `startswith`.
- `enviroplus_api.dfy`: the accessors as pure functions.
  - Each driver call is an outcome passed in as a value: `BusRead` is a value
    or an IOError; `PmsRead` is a frame, a read timeout or an IOError.
  - Each accessor returns an `Access`: the reading (`None` on failure) and the
    ordered trace of its effects.
  - An effect is a driver call, a log line or an i2c bus reset.
  - Three views of a trace are used: `Devices`, `LogLevels` and `Resets`.
- `enviroplus_exporter.dfy`: the registry is a class, `Registry`. Its fields
  are the gauges and the histograms' observations, and its `read_*` methods
  update them in place. Each method is proved against a pure function of the
  old state (`AfterGas`, `Poll`, ...), and the lemmas state their properties.
  `collect_all_data` and the forwarders' payload construction are functions
  and a loop method over the snapshot.
- `enviroplus_api_test.dfy`: the probe's options and its loop. Its options are
  shown to agree with the exporter's.

Two behaviours of the code shape the model:

- The CPU temperatures are not smoothed across calls. The comment at
  `enviroplus_api.py:55` speaks of averaging to decrease jitter. But
  `cpu_temps` is a local list, rebuilt on every call (`enviroplus_api.py:53`):
  four copies of one CPU read, then a second read. Nothing carries over from
  one call to the next, and the average is `(4*first + second) / 5`
  (`EnviroplusApi.CpuAverage`).
- An accessor that handled an IOError returns `None`, and the `read_*`
  function that called it then raises. This happens in `PRESSURE.set(None)`,
  `readings.oxidising`, `light["lux"]` and `pms_data.pm_ug_per_m3`
  (`enviroplus_exporter.py:77`, `:88`, `:100`, `:107`), and it ends the main
  loop. The registry's read methods therefore require a successful driver
  outcome. The accessors themselves model the failure path in full.

## Model

| member | source | states |
|---|---|---|
| PyStr.LowerMatchesIgnoringCase | enviroplus_exporter.py:209-211 | `value.lower() == w`, for a lower-case word `w`, holds exactly when `value` equals `w` ignoring ASCII case |
| PyStr.Strip | enviroplus_exporter.py:206 | `strip()` returns a contiguous slice of the input with only whitespace cut from either end, and it neither starts nor ends with whitespace |
| PyStr.StripIdempotent | enviroplus_exporter.py:206 | stripping a stripped string changes nothing |
| PyStr.StripKeepsOnlyCharsOf | enviroplus_exporter.py:206 | every character of the stripped string occurs in the input |
| PyStr.Split | enviroplus_exporter.py:206 | `split(":")` yields at least one part, and the first part is the text before the first separator |
| PyStr.SplitFromJoin | enviroplus_exporter.py:206 | joining the parts of a split with the separator gives back the input |
| PyStr.SplitFromParts | enviroplus_exporter.py:206 | no part contains the separator, and there is exactly one part iff the separator does not occur |
| PyStr.SplitSecondPart | enviroplus_exporter.py:206 | when the separator occurs, `[1]` exists and is the text between the first and second separators (or the end) |
| PyStr.PrefixEqualsIsStartsWith | enviroplus_exporter.py:205 | `line[0:n] == w` with `n = len(w)` holds exactly when the line starts with `w`, short lines included |
| EnviroplusApi.GetCpuTemperature | enviroplus_api.py:40-44 | the thermal-zone value in millidegrees divided by 1000 gives degrees Celsius |
| EnviroplusApi.CpuWindow | enviroplus_api.py:53-56 | the window as the code builds it: `[first] * 5`, drop the head, append `second`; its contents are stated by `CpuWindowContents` |
| EnviroplusApi.Mean | enviroplus_api.py:57 | `sum(s) / len(s)`: the mean times the length is the sum |
| EnviroplusApi.CpuWindowContents | enviroplus_api.py:53-56 | the smoothing window is four copies of the first CPU read followed by the second read |
| EnviroplusApi.WindowMean | enviroplus_api.py:57 | the window's mean is `(4*first + second) / 5` |
| EnviroplusApi.CpuAverage | enviroplus_api.py:53-57 | the averaged CPU temperature is `(4*first + second) / 5` |
| EnviroplusApi.Compensate | enviroplus_api.py:58 | the correction `raw - t`, times the factor, is the CPU's excess heat over the raw reading |
| EnviroplusApi.GetTemperature | enviroplus_api.py:46-62 | always a reading. It is the raw BME280 value when the factor is falsy (None or 0), and otherwise that value compensated with the window average of the two CPU reads |
| EnviroplusApi.GetTemperatureViews | enviroplus_api.py:50-54 | the BME280 is read first; the thermal zone is read twice only when compensating; nothing is logged or reset |
| EnviroplusApi.CompensateFixedPoint | enviroplus_api.py:58 | compensation leaves the raw value unchanged exactly when the CPU average equals it |
| EnviroplusApi.CompensateLowersWhenCpuHotter | enviroplus_api.py:58 | with a positive factor and a CPU hotter than the sensor, the compensated value is below the raw value |
| EnviroplusApi.LargerFactorWeakerCorrection | enviroplus_api.py:48-49 | a larger positive factor gives a smaller downward correction, as the source's comment on tuning says |
| EnviroplusApi.HandlerViews | enviroplus_api.py:69-71 | an `except IOError` branch adds no driver call, one error-level log line and one bus reset |
| EnviroplusApi.BusAccess | enviroplus_api.py:64-89 | the try/except accessors return the driver's value unchanged, or `None` after an IOError |
| EnviroplusApi.BusAccessViews | enviroplus_api.py:64-89 | one driver call either way; an IOError adds exactly one error line and one reset; success adds neither |
| EnviroplusApi.GetPressure | enviroplus_api.py:64-71 | the reading and one BME280 pressure call on success; on IOError, `None`, then the pressure message at error level, then a reset |
| EnviroplusApi.GetHumidity | enviroplus_api.py:73-80 | as `get_pressure`, with the humidity call and message |
| EnviroplusApi.GetGas | enviroplus_api.py:82-89 | as `get_pressure`, with `gas.read_all()` and the gas message |
| EnviroplusApi.GetLight | enviroplus_api.py:91-99 | a reading exactly when both lux and proximity reads succeed, and it holds both values |
| EnviroplusApi.GetLightViews | enviroplus_api.py:91-99 | proximity is read only after a good lux read. A failure of either logs one error and resets once; success logs and resets nothing |
| EnviroplusApi.GetParticulates | enviroplus_api.py:101-111 | a reading exactly when the PMS5003 returns a frame, and it is that frame |
| EnviroplusApi.GetParticulatesViews | enviroplus_api.py:101-111 | one PMS5003 read either way. A timeout logs one warning and does not reset; an IOError logs one error and resets once |
| EnviroplusExporter.StrToBool | enviroplus_exporter.py:208-213 | accepted iff the lower-cased value is in one of the two word sets, and then `True` iff it is a true word |
| EnviroplusExporter.StrToBoolIgnoresCase | enviroplus_exporter.py:208-213 | `False` iff the value is a false word ignoring case; `True` iff it is a true word ignoring case; otherwise ValueError with the message `<value> is not a valid boolean value` |
| EnviroplusExporter.TrueWordsNotShadowed | enviroplus_exporter.py:209-212 | the two word sets are disjoint, so the second test decides exactly the true words |
| EnviroplusExporter.BoolOption | enviroplus_exporter.py:221-224 | a given option parses iff `str_to_bool` accepts it, to `str_to_bool`'s value; a missing option falls back to its string default the same way; with neither it stays `None` |
| EnviroplusExporter.OptionDefaults | enviroplus_exporter.py:221-224 | `--influxdb` and `--luftdaten` default to `False`; `--enviro` and `--debug` default to `None` |
| EnviroplusExporter.EnvFactor | enviroplus_exporter.py:66 | `float(ENVIROPLUS_FACTOR) or False` is truthy exactly when the variable is non-zero, and then it holds that value |
| EnviroplusExporter.ChooseFactor | enviroplus_exporter.py:234-235 | the command-line factor wins when truthy, else the environment factor; compensation is on iff either is non-zero |
| EnviroplusExporter.SerialField | enviroplus_exporter.py:205-206 | no field iff the line has no colon; otherwise the stripped text between the first and second colons, with no colon and no surrounding space |
| EnviroplusExporter.IsSerialLine | enviroplus_exporter.py:205 | `line[0:6] == 'Serial'` holds exactly when the line starts with `Serial` |
| EnviroplusExporter.GetSerialNumber | enviroplus_exporter.py:201-206 | no serial iff no line starts with `Serial`; otherwise the field of the first such line |
| EnviroplusExporter.SensorUid | enviroplus_exporter.py:152 | a UID exists iff a serial was found, and it is `raspi-` followed by the serial |
| EnviroplusExporter.LightReadSetsOnlyLight | enviroplus_exporter.py:97-101 | `read_light` sets lux and proximity to the reading and nothing else changes |
| EnviroplusExporter.GasReadObservesWhatItSets | enviroplus_exporter.py:84-95 | each gas gauge takes its reading, and each gas histogram gains exactly that value; nothing else changes |
| EnviroplusExporter.ParticulateReadObservesBands | enviroplus_exporter.py:103-113 | the PM gauges take the cumulative masses. The histograms observe PM1, PM2.5 minus PM1 and PM10 minus PM2.5; nothing else changes |
| EnviroplusExporter.ParticulateBandsAddUp | enviroplus_exporter.py:107-113 | the band observations of one read add up again to the PM2.5 and PM10 gauges |
| EnviroplusExporter.PollEnvironment | enviroplus_exporter.py:254-257 | defines the state after `read_temperature`, `read_pressure`, `read_humidity` and `read_light`; its properties are the `Poll*` lemmas below |
| EnviroplusExporter.Poll | enviroplus_exporter.py:253-260 | defines the state after one loop iteration; `PollSetsTemperature`, `PollSetsEnvironment` and `PollSkipRule` state what it writes |
| EnviroplusExporter.PollEffects | enviroplus_exporter.py:253-260 | defines the effects of one iteration, accessor by accessor; `PollCallOrder` states the order of driver calls |
| EnviroplusExporter.PollEnvironmentReads | enviroplus_exporter.py:253-257 | an iteration writes each environment gauge with what its accessor returned |
| EnviroplusExporter.PollSetsTemperature | enviroplus_exporter.py:254 | the temperature gauge is this iteration's raw value, compensated with `(4*cpu1 + cpu2) / 5` exactly when the factor is truthy |
| EnviroplusExporter.PollSetsEnvironment | enviroplus_exporter.py:255-257 | pressure, humidity, lux and proximity gauges hold this iteration's readings |
| EnviroplusExporter.PollSkipRule | enviroplus_exporter.py:258-260 | with `--enviro true`, the gas and PM gauges and all histograms are untouched. Otherwise they take this iteration's readings, and each histogram gains exactly one observation at the end: the oxidising, reducing and NH3 readings, PM1, PM2.5 minus PM1, and PM10 minus PM2.5 |
| EnviroplusExporter.PollCallOrder | enviroplus_exporter.py:253-260 | the drivers are called in this order: temperature, CPU twice only when compensating, pressure, humidity, lux, proximity, then gas and PMS5003 only without `--enviro true`. A successful iteration logs and resets nothing |
| EnviroplusExporter.EnviroLeavesGasAndParticulates | enviroplus_exporter.py:253-260 | with `--enviro true`, no number of iterations changes a gas or PM gauge or any histogram |
| EnviroplusExporter.Snapshot | enviroplus_exporter.py:115-129 | the snapshot has the eleven keys in the order `collect_all_data` writes them |
| EnviroplusExporter.PollMany | enviroplus_exporter.py:253-260 | defines the state after any number of iterations, in order |
| EnviroplusExporter.PollManyEffects | enviroplus_exporter.py:253-260 | defines the effects of any number of iterations, in order |
| EnviroplusExporter.EnviroIterationDevices | enviroplus_exporter.py:258-260 | with `--enviro true`, one iteration calls neither `gas.read_all()` nor the PMS5003 |
| EnviroplusExporter.EnviroNeverReadsGasOrParticulates | enviroplus_exporter.py:253-260 | with `--enviro true`, no number of iterations calls `gas.read_all()` or the PMS5003 |
| EnviroplusExporter.GetFindsKeys | enviroplus_exporter.py:157-161 | a lookup in the snapshot dictionary succeeds exactly for its keys |
| EnviroplusExporter.SnapshotLookup | enviroplus_exporter.py:118-128 | each of the snapshot's eleven keys holds the current value of the gauge of that name |
| EnviroplusExporter.SensorLocation | enviroplus_exporter.py:57 | the location tag is `INFLUXDB_SENSOR_LOCATION` when set, and `Adelaide` otherwise |
| EnviroplusExporter.InfluxPoints | enviroplus_exporter.py:140-141 | one point per snapshot entry, in order, in measurement `enviroplus`, tagged with `INFLUXDB_SENSOR_LOCATION` (default `Adelaide`), with that entry as the field |
| EnviroplusExporter.LuftdatenValues | enviroplus_exporter.py:156-161 | defines the `values` dictionary: `P2`, `P1`, and temperature, pressure in pascal and humidity to two decimals; `LuftdatenPayloads` states what is sent |
| EnviroplusExporter.Select | enviroplus_exporter.py:162-163 | defines the two dict comprehensions on `startswith('P')`; `SelectKeeps`, `SelectAppend` and `SelectPartitions` state their properties |
| EnviroplusExporter.SelectKeeps | enviroplus_exporter.py:162-163 | each comprehension keeps only entries of `values` on its side of `startswith('P')` |
| EnviroplusExporter.SelectAppend | enviroplus_exporter.py:162-163 | the comprehensions keep the dictionary's order |
| EnviroplusExporter.SelectPartitions | enviroplus_exporter.py:162-163 | the two comprehensions together hold each entry exactly once |
| EnviroplusExporter.LuftdatenSplit | enviroplus_exporter.py:156-163 | `P2` and `P1` go to the PM side; temperature, pressure and humidity go to the other side (`pressure` starts with lower-case p) |
| EnviroplusExporter.PostFor | enviroplus_exporter.py:164-191 | the Luftdaten URL and software version `enviro-plus 0.0.1`; one `sensordatavalues` entry per value, in order; and the four headers `X-PIN`, `X-Sensor`, `Content-Type` and `cache-control` |
| EnviroplusExporter.LuftdatenPosts | enviroplus_exporter.py:164-191 | defines the two POSTs of a cycle: the particulate side under pin 1, the rest under pin 11; `LuftdatenPayloads` states their contents |
| EnviroplusExporter.LuftdatenPayloads | enviroplus_exporter.py:155-191 | pin 1 carries PM2.5 as `P2` and PM10 as `P1`. Pin 11 carries temperature, pressure times 100 and humidity, each to two decimals. Both carry the sensor UID |
| EnviroplusExporter.Registry.constructor | enviroplus_exporter.py:31-49 | every gauge starts at 0 and every histogram starts empty |
| EnviroplusExporter.Registry.ReadTemperature | enviroplus_exporter.py:68-72 | only the temperature gauge changes, to what `get_temperature` returns |
| EnviroplusExporter.Registry.ReadPressure | enviroplus_exporter.py:74-77 | only the pressure gauge changes, to the reading |
| EnviroplusExporter.Registry.ReadHumidity | enviroplus_exporter.py:79-82 | only the humidity gauge changes, to the reading |
| EnviroplusExporter.Registry.ReadLight | enviroplus_exporter.py:97-101 | the new state is `AfterLight` of the old one |
| EnviroplusExporter.Registry.ReadGas | enviroplus_exporter.py:84-95 | the new state is `AfterGas` of the old one |
| EnviroplusExporter.Registry.ReadParticulates | enviroplus_exporter.py:103-113 | the new state is `AfterParticulates` of the old one |
| EnviroplusExporter.Registry.PollOnce | enviroplus_exporter.py:253-260 | the new state is `Poll` of the old one, and the effects are `PollEffects` |
| EnviroplusExporter.Registry.InfluxCycle | enviroplus_exporter.py:137-141 | eleven points, one per snapshot key in order, each in measurement `enviroplus`, tagged with the sensor location, whose field is that key with its gauge |
| EnviroplusExporter.Registry.CollectAllData | enviroplus_exporter.py:115-129 | the dictionary returned is the snapshot of the current gauges |
| EnviroplusApiTest.StrToBool | enviroplus_api_test.py:21-26 | accepted iff the lower-cased value is one of the ten words, and then `True` iff it is a true word |
| EnviroplusApiTest.ProbeFactor | enviroplus_api_test.py:29-37 | the command-line factor when truthy, else the non-zero environment factor, else falsy; compensation is on iff either is non-zero |
| EnviroplusApiTest.StrToBoolAgrees | enviroplus_api_test.py:21-26 | the probe's `str_to_bool` gives the same result as the exporter's on every input, error message included |
| EnviroplusApiTest.ProbeFactorAgrees | enviroplus_api_test.py:29-37 | the probe settles on the same factor as the exporter from the same inputs |
| EnviroplusApiTest.ZeroFactorsDisableCompensation | enviroplus_api_test.py:37-39 | with no usable CLI factor and a zero environment factor: no announcement, the raw temperature, and no CPU read |
| EnviroplusApiTest.ProbeEffects | enviroplus_api_test.py:41-47 | defines the effects of one probe iteration: all six accessors in order; `ProbeCallOrder` and `ProbeResets` state their properties |
| EnviroplusApiTest.ProbeRun | enviroplus_api_test.py:41-47 | defines the effects of any number of probe iterations; `ProbeRunResets` counts their resets |
| EnviroplusApiTest.ProbeMatchesPoll | enviroplus_api_test.py:41-47 | a probe iteration whose reads succeed has the effects of an exporter iteration without `--enviro true` |
| EnviroplusApiTest.ProbeCallOrder | enviroplus_api_test.py:41-47 | every probe iteration calls all six accessors in order, whatever fails; proximity is skipped only after a lux IOError |
| EnviroplusApiTest.ProbeResets | enviroplus_api_test.py:41-47 | an iteration resets the bus once per handled IOError (pressure, humidity, light, gas, PMS5003); a PMS5003 timeout does not reset |
| EnviroplusApiTest.ProbeRunResets | enviroplus_api_test.py:41-47 | over any number of iterations, the bus resets equal the handled IOErrors |

## Left out

- I/O is replaced by values passed in. This covers the driver calls, the
  thermal-zone file, `/proc/cpuinfo`, `subprocess.run(['i2cdetect', ...])` and
  the two-second sleep. A driver outcome is a parameter; a bus reset is one
  `ResetI2c` effect.
- Threads, `time.sleep` between posts, the HTTP server, and the
  `requests`/InfluxDB client calls with their responses and exception
  handling are left out. The forwarders' payload construction is modelled;
  sending it is not.
- Histogram buckets are left out. A histogram is the sequence of its
  observations, and bucket counting belongs to the metrics library.
- Logging configuration and info-level lines are left out. This includes the
  start-up banner, the "Listening" line, the DEBUG dumps of
  `collect_all_data` and the post responses, and the probe's logging of each
  reading. The trace keeps only the warning and error lines the accessors
  emit.
- Floating point is left out. Readings are `real`. `"{:.2f}".format` is kept
  symbolic as `Fixed2`.
- PyStr.Lower: lower-cases ASCII letters only. Python's `str.lower` also maps
  other Unicode letters.
- argparse itself is left out: flag spelling, `--bind`/`--port`, and
  conversion of `--factor` with `float`. Parsed values are parameters.
  `os.getenv` is a parameter with its default applied.
- The `DEBUG` flag and `--debug` only control logging, so they are left out.
- EnviroplusApi.GetParticulates: errors from the PMS5003 driver other than
  a read timeout and an IOError are left out.
- EnviroplusApi.GetTemperature: the BME280 temperature read has no handler in
  the source, so an IOError there is not modelled.
- EnviroplusExporter.Registry.PollOnce requires every read of the
  iteration to succeed. When an accessor returns `None`, `read_*` raises and
  the main loop ends. The forwarder threads are not daemons, so with
  `--influxdb` or `--luftdaten` the process keeps running. The metrics
  endpoint and the forwarders then go on serving every gauge at its last
  value. Neither the end of the loop nor those frozen gauges are modelled.
- EnviroplusExporter.SensorUid: when no serial line exists,
  `get_serial_number` returns `None` and `'raspi-' + None` raises. The model
  returns `None` for that case.
