# SeisComP plugin and QC ping examples, modelled in Dafny

This project models four small pieces of SeisComP example code and proves
properties about them.

- **amplitude-pga** (`pga.dfy`, module `Pga`) is the PGA amplitude processor.
  - The two-component combiner replaces the first horizontal trace by the L2
    norm of both horizontals.
  - `setup` checks both horizontal components. It installs the combining
    operator, pre-filtered or not, and the optional post-filter.
  - `feed` refuses records until an operator is set.
  - `computeAmplitude` takes the absolute maximum of the signal window around
    the offset, computes the signal-to-noise ratio and applies the SNR gate.
- **traveltime-infra** (`traveltime.dfy`, module `InfraTravelTime`) is the
  infrasound travel-time table.
  - The built-in IDC_2010 table is a list of nodes, each a distance and a
    celerity.
  - The celerity lookup is `lower_bound`, which falls back to the last node.
  - A travel time is distance in km divided by celerity.
  - The three `compute` entry points and `computeFirst` are modelled.
  - The configured tables are loaded once from the application configuration.
  - `setModel` switches between the built-in and the configured tables.
- **filter-simple** (`simple_filter.dfy`, module `SimpleFilterPlugin`) is the
  in-place affine filter `x * scale + offset`. It covers the parameter
  handling, `apply` and `clone`.
- **qcping** (`qcping.dfy` and `qc_text.dfy`, modules `QcPing` and `QcText`)
  is the QC ping application.
  - It builds an ordered dictionary of the inventory's current streams.
  - It marks the streams bound through `detecLocid`/`detecStream`.
  - It reads the source address file, where each line is
    `NET STA HOST PORT` and `*` stands for every station.
  - On each timer tick it probes every distinct `host:port` once, caching the
    result, and sends a `ping` and a `portstatus` waveform quality object per
    addressed stream.

`wrappers.dfy` holds the `Option`/`Result` types.

Modelling choices:
- Real numbers stand for C++ doubles.
- The square root is a parameter `sqrt` constrained to return the
  non-negative root.
- `Filter::Create` is an oracle `create: string -> bool`.
- The base-class results of `AmplitudeProcessor::setup` and `feed` are
  boolean inputs.
- `Math::Geo::deg2km` is a factor `kmPerDegree`, and `delazi` is replaced by
  its result `distDeg`.
- In qcping, the inventory, the configuration bindings and the lines of the
  address file are values.
- A probe is a function from host and port to `Option<Probe>`: the clock
  before, the ping in ms (`-1` when the port is not reachable) and the clock
  after. `None` stands for an exception the probe lets through.
- The Python dict `waveformIDs` is an insertion-ordered `Dict`: a key sequence
  plus a map. Output order follows key order.

## Model

| member | source | states |
|---|---|---|
| Pga.Combined | amplitude-pga/plugin.cpp:74-78 | the first n samples become the norm of the two components; later samples are kept |
| Pga.ComponentCombiner.Combine | amplitude-pga/plugin.cpp:74-78 | combines in place: data0 becomes `Combined` of both traces, and data1 is unchanged |
| Pga.CombinedDeterminate | amplitude-pga/plugin.cpp:76-77 | the combined trace is the same for every correct square-root routine |
| Pga.NormOnAxis | amplitude-pga/plugin.cpp:76-77 | if one component is zero, the norm is the absolute value of the other |
| Pga.ComponentCombiner.Publish | amplitude-pga/plugin.cpp:80 | only output 0 is published |
| Pga.ComponentCombiner.Reset | amplitude-pga/plugin.cpp:82 | reset changes nothing |
| Pga.PgaProcessor.constructor | amplitude-pga/plugin.cpp:99-114 | noise window [-10,-2]; signal window from -2 to "max(150, R / 3.5)"; unit m/s²; horizontal components; target the first horizontal |
| Pga.ComponentChecks | amplitude-pga/plugin.cpp:133-146 | an empty code fails with Error and a zero gain with MissingGain; the status value is the component index; the first horizontal is checked first |
| Pga.GainUnitMismatch | amplitude-pga/plugin.cpp:148-154 | horizontals with different gain units fail with ConfigurationError 1 and install nothing |
| Pga.FilterOutcomes | amplitude-pga/plugin.cpp:156-221 | a bad pre-filter gives ConfigurationError 2 and a bad filter gives ConfigurationError 3; otherwise the operator is installed (pre-filtered if configured) with the optional filter |
| Pga.SetupSuccess | amplitude-pga/plugin.cpp:121-222 | success implies the base setup succeeded and both horizontals are usable, and it always installs an operator; failure leaves no filter |
| Pga.PgaProcessor.Setup | amplitude-pga/plugin.cpp:121-222 | the result, operator, filter and status are those of `SetupResult` |
| Pga.PgaProcessor.Feed | amplitude-pga/plugin.cpp:225-232 | with no operator it refuses and forwards nothing; otherwise it forwards the record and returns the base result |
| Pga.FindAbsMax | amplitude-pga/plugin.cpp:248 | the first index in [si1, si2) with the largest distance from the offset |
| Pga.Snr | amplitude-pga/plugin.cpp:251-256 | -1 when the noise is zero; otherwise snr × noise = amplitude |
| Pga.ZeroNoiseGate | amplitude-pga/plugin.cpp:251-261 | with zero noise, a measurement passes exactly when snrMin ≤ -1 |
| Pga.GateMonotone | amplitude-pga/plugin.cpp:255-261 | with the same noise, a larger amplitude never turns acceptance into rejection |
| Pga.PgaProcessor.ComputeAmplitude | amplitude-pga/plugin.cpp:238-264 | period is -1; the index is the first absolute maximum and the value is its distance from the offset; snr comes from `Snr`; it fails exactly below snrMin, and then sets LowSNR with the snr |
| InfraTravelTime.DefaultTableSorted | traveltime-infra/plugin.cpp:67-71 | the built-in table has three nodes in ascending distance |
| InfraTravelTime.LowerBound | traveltime-infra/plugin.cpp:200 | every node before the position is below d; the node at it is at or beyond d |
| InfraTravelTime.LowerBoundSearch | traveltime-infra/plugin.cpp:200 | a binary search on a sorted table finds `LowerBound` |
| InfraTravelTime.LowerBoundSplits | traveltime-infra/plugin.cpp:200 | in a sorted table, every node from the lower bound on is at or beyond d |
| InfraTravelTime.LowerBoundUnique | traveltime-infra/plugin.cpp:200 | any split between nodes below d and nodes at or beyond d is the lower bound |
| InfraTravelTime.FindCelerity | traveltime-infra/plugin.cpp:199-205 | the celerity of the first node at or beyond d; the last node's celerity when none is |
| InfraTravelTime.Get | traveltime-infra/plugin.cpp:207-222 | phase "Is"; all derivatives -1; time × celerity = distance in km, and the time is non-finite exactly when the celerity is 0 |
| InfraTravelTime.AltitudeIgnored | traveltime-infra/plugin.cpp:214-216 | the receiver altitude does not change the travel time |
| InfraTravelTime.ComputePhase | traveltime-infra/plugin.cpp:126-138 | succeeds exactly for the phase "Is" with `Get`'s result; any other or null phase raises NoPhaseError |
| InfraTravelTime.ComputeFirst | traveltime-infra/plugin.cpp:140-144 | always the "Is" travel time |
| InfraTravelTime.ComputeAll | traveltime-infra/plugin.cpp:111-124 | a list of one "Is" entry equal to the first arrival, tagged with distance and depth |
| InfraTravelTime.Zip | traveltime-infra/plugin.cpp:185-189 | node i pairs distance i with celerity i |
| InfraTravelTime.StoredTables | traveltime-infra/plugin.cpp:160-196 | a table is stored iff it is listed, is not IDC_2010, and has non-empty, equal-length and sorted lists; its nodes are the zipped lists |
| InfraTravelTime.ConfiguredNodesValid | traveltime-infra/plugin.cpp:172-180 | a table that passes the checks is non-empty and sorted |
| InfraTravelTime.LoadedTablesValid | traveltime-infra/plugin.cpp:148-197 | every loaded table is non-empty and sorted, and IDC_2010 is never loaded |
| InfraTravelTime.AsWrittenAgreesOnDistinctNames | traveltime-infra/plugin.cpp:185-189 | if every name is listed once, appending nodes gives the same tables as storing them |
| InfraTravelTime.DuplicateNameUnsorted | traveltime-infra/plugin.cpp:162-189 | a name listed twice gets its nodes twice, and the table is unsorted |
| InfraTravelTime.IdcInfra.Current | traveltime-infra/plugin.cpp:200-204 | the active table is non-empty and sorted, as `lower_bound` and `back()` need |
| InfraTravelTime.IdcInfra.constructor | traveltime-infra/plugin.cpp:225-229 | model IDC_2010, the built-in table, no tables, not initialised |
| InfraTravelTime.IdcInfra.LoadConfig | traveltime-infra/plugin.cpp:148-197 | the first call stores `LoadedTables` and later calls change nothing; the tables stay valid (a table listed twice is stored once, the corrected behaviour; see Findings) |
| InfraTravelTime.IdcInfra.SetModel | traveltime-infra/plugin.cpp:89-105 | IDC_2010 always succeeds without loading; any other name loads the configuration and succeeds exactly when it is configured, then reads that table; failure keeps the model (IDC_2010 also reselects the built-in table, see Findings) |
| InfraTravelTime.IdcInfra.SetModelAsWritten | traveltime-infra/plugin.cpp:89-105 | the IDC_2010 branch as the source does it: the model name changes but the active table is kept; other names go through the corrected `LoadConfig`, which stores a table listed twice once |
| InfraTravelTime.SwitchBackKeepsConfiguredTable | traveltime-infra/plugin.cpp:89-104 | after selecting table T and then IDC_2010, the model reports IDC_2010 but reads T |
| SimpleFilterPlugin.SimpleFilter.constructor | filter-simple/plugin.cpp:50-51 | stores the given scale and offset (defaults 1 and 0) |
| SimpleFilterPlugin.SimpleFilter.SetSamplingFrequency | filter-simple/plugin.cpp:58-60 | changes nothing |
| SimpleFilterPlugin.SimpleFilter.SetParameters | filter-simple/plugin.cpp:62-78 | always returns 2; with exactly two parameters it takes them as scale and offset, otherwise it keeps both |
| SimpleFilterPlugin.SimpleFilter.Apply | filter-simple/plugin.cpp:80-85 | the first n samples become x × scale + offset in place; the rest are unchanged |
| SimpleFilterPlugin.DefaultIsIdentity | filter-simple/plugin.cpp:50-51 | with the default parameters the filter leaves a trace unchanged |
| SimpleFilterPlugin.AffineInverse | filter-simple/plugin.cpp:80-85 | for scale ≠ 0, the filter with 1/scale and -offset/scale undoes it |
| SimpleFilterPlugin.Compose | filter-simple/plugin.cpp:80-85 | two filters in a row are one filter with the composed scale and offset |
| SimpleFilterPlugin.SimpleFilter.Clone | filter-simple/plugin.cpp:87-89 | a new filter with the same scale and offset |
| QcText.LeadingSpaces | qcping/qcping.py:198 | the whitespace run at the start of a line ends at the first non-space |
| QcText.TrailingStart | qcping/qcping.py:198 | the whitespace run at the end of a line starts after the last non-space |
| QcText.StripLeft | qcping/qcping.py:198 | a suffix of the line, preceded only by whitespace, not starting with whitespace |
| QcText.StripRight | qcping/qcping.py:198 | a prefix of the line, followed only by whitespace, not ending with whitespace |
| QcText.Strip | qcping/qcping.py:198 | the stripped line neither starts nor ends with whitespace |
| QcText.StripUnchanged | qcping/qcping.py:198 | stripping a line without outer whitespace leaves it unchanged |
| QcText.WordLength | qcping/qcping.py:209 | the token at the start is whitespace-free and ends at whitespace or at the end |
| QcText.Split | qcping/qcping.py:209 | `split()` gives non-empty, whitespace-free tokens |
| QcText.SplitJoin | qcping/qcping.py:209 | splitting blank-joined tokens gives the tokens back |
| QcText.JoinWordsEnds | qcping/qcping.py:209 | blank-joined tokens start with the first token and end with the last |
| QcText.SplitOn | qcping/qcping.py:304 | `split(".")` gives at least one piece |
| QcText.IndexOf | qcping/qcping.py:304 | the first occurrence of the separator |
| QcText.SplitOnFirst | qcping/qcping.py:304 | text up to the first separator is the first piece |
| QcText.KeySplits | qcping/qcping.py:129-131 | splitting a stream key on dots (as generateQCObject does) recovers its four dot-free codes |
| QcText.DecimalDigits | qcping/qcping.py:285 | the decimal digits of a number, non-empty |
| QcText.ParseInt | qcping/qcping.py:285 | `int()` of a token succeeds iff, after an optional sign, it is a non-empty digit string |
| QcText.ParseDigits | qcping/qcping.py:285 | digits, and "-" followed by digits, read as their (negated) value |
| QcText.DigitsRoundTrip | qcping/qcping.py:285 | the value of the decimal digits of n is n |
| QcText.ParseIntRoundTrip | qcping/qcping.py:285 | `int()` reads back every integer written in decimal |
| QcPing.MatchEpoch | qcping/qcping.py:98-104 | a closed epoch matches iff start ≤ time ≤ end; an open epoch matches iff start ≤ time |
| QcPing.StreamKeys | qcping/qcping.py:127-131 | one key NET.STA.LOC.CHA per stream of a location, in order |
| QcPing.LocationKeysListed | qcping/qcping.py:122-131 | a key comes from a location iff the location is current and holds that stream |
| QcPing.StationKeysListed | qcping/qcping.py:117-131 | a key comes from a network iff one of its current stations lists it |
| QcPing.InventoryKeysListed | qcping/qcping.py:112-131 | a key comes from the inventory iff one of its current networks lists it |
| QcPing.InventoryKeysAreCurrentStreams | qcping/qcping.py:112-131 | a key is listed iff it names a stream whose network, station and location are all current at the time |
| QcPing.Dict.Set | qcping/qcping.py:131 | `d[k] = v`: the map is updated, a new key goes last, existing keys keep their order, and validity is preserved |
| QcPing.InsertAllStores | qcping/qcping.py:112-131 | storing keeps the dictionary valid and earlier keys in place; every inventory key holds a new unconfigured item; other items are unchanged |
| QcPing.LastValueAt | qcping/qcping.py:162-167 | the last parameter with a name decides its value |
| QcPing.LastValueAbsent | qcping/qcping.py:159-173 | there is no value iff no parameter has that name |
| QcPing.BindingKey | qcping/qcping.py:145-179 | a binding names a key iff its parameters exist and one of them is `detecStream` |
| QcPing.BindingKeyOfLastParameters | qcping/qcping.py:159-179 | the key is NET.STA.LOCID.STREAM from the last detecLocid ("" by default) and the last detecStream, with "Z" added to a two-character stream |
| QcPing.ScanParameters | qcping/qcping.py:159-167 | the loop leaves the last detecLocid ("" by default) and the last detecStream |
| QcPing.BindingsMark | qcping/qcping.py:140-184 | bindings add no key; a stream is configured afterwards iff it was before or some binding names it; nothing else changes |
| QcPing.BindingsCount | qcping/qcping.py:178-188 | the count is positive iff some binding names a stream of the dictionary |
| QcPing.App.constructor | qcping/qcping.py:41 | the dictionary starts empty |
| QcPing.App.StoreStreams | qcping/qcping.py:127-131 | the dictionary becomes `InsertAll` of the keys |
| QcPing.App.MarkBindings | qcping/qcping.py:136-184 | dictionary and count are those of `ApplyBindings` |
| QcPing.App.BuildStationDictionary | qcping/qcping.py:106-191 | the new dictionary is the current inventory's streams marked by the bindings; succeeds iff some binding marked a stream; validity is kept |
| QcPing.ParseLine | qcping/qcping.py:197-211 | a line is used only if, once stripped, it is non-empty, not a "#" comment, and splits into exactly four tokens |
| QcPing.ParseLineRoundTrip | qcping/qcping.py:197-211 | four tokens joined by blanks read back as those four fields |
| QcPing.WithPrefix | qcping/qcping.py:217-221 | exactly the dictionary keys that start with the prefix |
| QcPing.PrefixSelects | qcping/qcping.py:214-221 | the filter "NET." or "NET.STA." selects a key iff the network matches and, unless the station is "*", the station matches too |
| QcPing.Assign | qcping/qcping.py:230-236 | keys stay the same and validity is kept |
| QcPing.ReadKeepsStreams | qcping/qcping.py:207-238 | reading keeps the keys, configured flags and port statuses; a stream gains an address only if it is configured |
| QcPing.SelectedGetsAddress | qcping/qcping.py:214-236 | a configured stream a line selects gets that line's host and port |
| QcPing.ReadSelectingLine | qcping/qcping.py:207-236 | a line that selects some stream assigns and reading continues |
| QcPing.ReadLinesAppend | qcping/qcping.py:207-238 | reading a file in two parts equals reading the second part from where the first left off, unless the first part already failed |
| QcPing.UnselectedStreamKept | qcping/qcping.py:214-236 | a stream that no line of the file selects keeps its item, whether reading succeeds or fails |
| QcPing.FirstSelectingLineWins | qcping/qcping.py:214-236 | if the first line selects a configured stream and no later line does, that stream ends with the first line's host and port |
| QcPing.LastSelectingLineWins | qcping/qcping.py:207-238 | in a file of any length that reads successfully, a configured stream ends with the host and port of the last line that selects it |
| QcPing.App.SetAddresses | qcping/qcping.py:230-236 | the dictionary becomes `Assign` of the selected keys |
| QcPing.App.ReadStationInfo | qcping/qcping.py:193-238 | result and dictionary are those of `ReadLines`; it fails at the first parsed line that selects nothing; an unreadable file reads no line |
| QcPing.GenerateQcObjects | qcping/qcping.py:299-341 | objects are produced iff the key splits into four parts, and then there are two |
| QcPing.QcObjectsNameTheirStream | qcping/qcping.py:299-341 | a ping object (value ping) and a portstatus object (value portStatus) for the stream, with creator "qcmsg", type "report", the given window and its length |
| QcPing.PortStatus | qcping/qcping.py:284-287 | the port if reachable (ping ≥ 0), the negated port otherwise |
| QcPing.EmitAppends | qcping/qcping.py:293-295 | sending appends a stream's report and its objects, or nothing; the cache is untouched |
| QcPing.StepProbesOnce | qcping/qcping.py:268-291 | one stream keeps every address probed at most once, with the cache holding exactly the probed ones |
| QcPing.StepReportsFromCache | qcping/qcping.py:273-291 | one stream keeps every report equal to its address's cache entry |
| QcPing.ReuseReportsFromCache | qcping/qcping.py:273-276 | a cached address keeps every report equal to its cache entry; if sending goes on, the new report has the cached ping and status, with start = end = the cached end |
| QcPing.ProbeReportsFromCache | qcping/qcping.py:278-291 | probing a new address keeps every report equal to its address's cache entry |
| QcPing.StepReportsProbed | qcping/qcping.py:268-291 | one stream of a running pass keeps every report on its own stream's address, the first report of an address equal to its stream's probe, and every cache entry a probe of a stream with that address |
| QcPing.ReuseReportsProbed | qcping/qcping.py:273-276 | reusing a cached address keeps those ties; the new report is never the first for its address |
| QcPing.ProbeReportsProbed | qcping/qcping.py:278-291 | probing a new address caches and reports exactly what probing the stream's host on `int(port)` returned, with `PortStatus` of that port and ping |
| QcPing.StepSentInPairs | qcping/qcping.py:293-295 | one stream keeps the objects sent in ping/portstatus pairs, one pair per report |
| QcPing.StepReports | qcping/qcping.py:268-295 | a stream with a host adds one report and a stream without one adds nothing |
| QcPing.ProcessProbesOnce | qcping/qcping.py:265-297 | over a pass, each distinct address is probed once |
| QcPing.ProcessReportsFromCache | qcping/qcping.py:265-297 | over a pass, reports of one address agree; repeats have start = end |
| QcPing.ProcessSentInPairs | qcping/qcping.py:265-297 | over a pass, every report sends exactly its two objects, in order |
| QcPing.ProcessReportsProbed | qcping/qcping.py:265-297 | over a pass, every report carries its own stream's "host:port", the first report of an address holds that stream's own probe result and port status, and every cache entry is a probe of a stream with that address |
| QcPing.ProcessCovers | qcping/qcping.py:265-297 | a completed pass reports exactly the streams with a host, in dictionary order |
| QcPing.ProcessStationProperties | qcping/qcping.py:265-297 | a full pass over a valid dictionary: each address probed once, reports agreeing with the cache, each report on its own stream's address with the first one holding that stream's probe result and port status, objects in pairs, and a completed pass covering exactly the streams with a host |
| QcPing.App.ProcessStation | qcping/qcping.py:265-297 | completion and the objects sent are those of `ProcessFrom` over the dictionary in key order |

## Left out

- Logging is not modelled in any of the four parts. This includes amplitude-pga/plugin.cpp:213, which names the pre-filter in the post-filter's error message.
- The base classes are not modelled: AmplitudeProcessor, TravelTimeTableInterface, InPlaceFilter and client.Application. Their results are inputs.
- Plugin registration macros are not modelled.
- `Filter::Create` string parsing is an oracle.
- `Math::Geo::delazi` is not modelled: the distance in degrees is the input. `deg2km` is a factor.
- Floating point is not modelled: doubles are reals, with no rounding, NaN or infinity. A division by a zero celerity is a distinct non-finite value.
- Pga.ComponentCombiner.Combine: `sqrt` is a parameter that returns the non-negative root, because Dafny's reals have no square root.
- Pga.PgaProcessor.ComputeAmplitude: the signal window [si1, si2) is assumed non-empty and inside the data, as the base AmplitudeProcessor supplies it; the plugin passes it to `find_absmax` unchecked. Pga.FindAbsMax has the same precondition.
- Pga.PgaProcessor.ComputeAmplitude: `i1`, `i2` and the `AmplitudeIndex` time fields are not used; only the index is modelled.
- The `ellc` arguments and the `model()` accessor are not modelled; the accessor is the `model` field.
- In qcping, sockets, `checkAccessiblePort` and the clock are not modelled. They are the `probe` function, which returns the clock readings and the ping.
- `socket` exceptions other than timeout and gaierror are the probe's `None`; these include the OverflowError for a port outside 0-65535.
- Files are not modelled: the address file is its sequence of lines, or `None` when it cannot be opened. An IOError after opening is not modelled.
- The messaging connection is not modelled: `sendWaveformQuality` is the `sent` sequence.
- Command-line and configuration parsing are not modelled: `createCommandLineDescription`, `validateParameters`, the timer interval and `init`. So are `run` and `handleTimeout`.
- The `created` timestamp of each quality object is not modelled.
- `StreamItem.portStatus` is never assigned by the application; the model keeps it `None`.
- QcText.ParseInt: accepts ASCII digits with an optional sign only. Python's `int()` also accepts underscores between digits and Unicode digits; the model rejects them.
- QcPing.App.BuildStationDictionary: the four nested inventory loops are the `InventoryKeys` fold. The method stores keys and applies bindings as two loops, `StoreStreams` and `MarkBindings`.
- QcPing.Address: an address is "host:port" text, as in the source. Two different host/port pairs that give the same text share one cache entry, for example a host containing ':'.

## Findings

| source | as written | input that shows it | evidently intended | confidence | as-written member | corrected member |
|---|---|---|---|---|---|---|
| traveltime-infra/plugin.cpp:185-189 | `loadConfig` appends the nodes of a table to `_tables[table]`. A table named twice in `ttt.idcinfra.tables` gets its nodes twice, and the stored distances are no longer sorted, which breaks `lower_bound`'s precondition | tables = ["T", "T"], T.distances = [0, 1], T.celerities = [0.3, 0.3] give distances 0, 1, 0, 1 | each table is stored once, with the checked sorted distances | high (not executed) | InfraTravelTime.StoreTablesAsWritten, InfraTravelTime.DuplicateNameUnsorted | InfraTravelTime.StoreTables, InfraTravelTime.StoredTables, InfraTravelTime.IdcInfra.LoadConfig |
| traveltime-infra/plugin.cpp:90-93 | `setModel("IDC_2010")` only renames the model. After a configured table was selected, lookups still use that table | setModel("T") with T configured, then setModel("IDC_2010"): `model()` is IDC_2010 but the travel times come from T | selecting IDC_2010 also reselects the built-in table | high (not executed) | InfraTravelTime.IdcInfra.SetModelAsWritten, InfraTravelTime.SwitchBackKeepsConfiguredTable | InfraTravelTime.IdcInfra.SetModel |
