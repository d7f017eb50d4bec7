# LabJack thermocouple logger — Dafny model

This project models the register planning and record assembly of two Python
scripts that log thermocouple temperatures from a LabJack T-series device.
The scripts use the device's thermocouple extended feature (AIN_EF).

- `03_my_thermocouple.py` is a fixed-count logger. It configures the device,
  reads the derived registers `num_iterations` times, and keeps every row it
  got before the first exception.
- `04_read_plot_thermocouples.py` is a live-plotting logger. It uses the same
  configuration. Each animation frame then appends a row, a plot time and one
  temperature per channel.

Register writes are modelled as a write log: a sequence of batches of
`(register, value)` pairs. An `eWriteName` call is a batch of one, and an
`eWriteNames` call is one batch. The device, the clock and the interval timer
are replaced by inputs. Each sampling round receives a `Tick` holding the
formatted time, the elapsed seconds, the outcome of the read, and whether the
wait for the next interval returned.

Modules, one per file:

- `Text` (text.dfy): Python's `str.lower()` on the lookup keys and
  `"{}".format(n)` on channel numbers.
- `Registers` (registers.dfy): the device variants, values, writes, failures,
  the lookup tables and the name helpers.
- `ReadPlan` (read_plan.dfy): channel names, the flattened read list, the
  columns, and the temperature positions.
- `WritePlan` (write_plan.dfy): the negative-channel step, the
  resolution-index writes and the cumulative AIN_EF batches.
- `Configure` (configure.dfy): the configuration phase of a session.
- `Sampling` (sampling.dfy): the fixed-count sampling loop and the saved
  record.
- `LivePlot` (live_plot.dfy): the state that each animation frame extends.
- `SavePath` (save_path.dfy): the choice of the file the record is saved to.

The helper functions of the live-plotting script repeat those of the
fixed-count script line for line, so each is modelled once. The table below
cites the fixed-count script, and the duplicates are at these lines of
`src/kimlab_datalogging/04_read_plot_thermocouples.py`:

| helper | lines |
|---|---|
| `create_analog_channel` | 51-52 |
| `set_tc_index` | 54-67 |
| `get_temp_unit_index` | 69-72 |
| `get_channel_value_register` | 74-82 |
| `get_cjc_address` | 84-89 |
| `set_cjc_slope_offset` | 91-97 |
| `set_resolution_index_registers` | 99-103 |
| `configure_ain_ef_registers` | 105-130 |
| `get_read_ABC` | 132-140 |
| configuration phase | 156-190 |

The configuration phase of the live-plotting script is therefore
`Configure.Configuration` as well.

Where the scripts' own comments and docstrings promise more than the code
does, the model follows the code:

- **T8 devices.** The module docstring of both scripts (lines 3 and 30) names
  the T7 and the T8, and the comment at
  `03_my_thermocouple.py:89-90` says a T8 needs no negative-channel set-up.
  Yet `get_channel_value_register` binds its results only on a T7, so on a
  T8 the `return` at line 104 raises an unbound-local error.
- **T4 devices.** A T4 calls `exit(0)` at line 103, after nothing has been
  written but in the middle of configuration.
- **Closing the handle.** The only `ljm.close` is the last step of a
  session (`03_my_thermocouple.py:338`, `04_read_plot_thermocouples.py:254`).
  Every failure raised during configuration or saving leaves the handle
  open.
- **Empty channel list.** Nothing rejects an empty channel list. It is
  accepted, and no channel register is written.
- **A directory that does not exist.** The docstring at
  `03_my_thermocouple.py:227` says a path to a directory, "including a
  non-existing directory", gets a file named after the start time inside
  it. The code tests `save_to.is_dir()` at line 326, which is false for a
  path that does not exist, so such a path is written as a file of that
  name (lines 332-333). `SavePath.LoggerDestination` and
  `SavePath.LiveDestination` state the code's behaviour: when `isDir` is
  false the file is the path itself.

## Model

| member | source | states |
|---|---|---|
| Text.LowerIdempotent | src/kimlab_datalogging/03_my_thermocouple.py:67 | lower-casing a lowered key changes nothing, so the lookups ignore case |
| Text.NatToStringInjective | src/kimlab_datalogging/03_my_thermocouple.py:53-54 | two naturals with the same decimal digits are equal |
| Text.IntToString | src/kimlab_datalogging/03_my_thermocouple.py:53-54 | the text is non-empty, holds only digits and '-', and starts with '-' exactly for negative numbers |
| Text.IntToStringInjective | src/kimlab_datalogging/03_my_thermocouple.py:53-54 | formatting an int is injective: different ints give different texts |
| Registers.TcIndex | src/kimlab_datalogging/03_my_thermocouple.py:56-79 | succeeds exactly when the lowered type is a key of the table; otherwise KeyError on the lowered key; every index is in 20..30 and is not 26 or 29 |
| Registers.TcIndexTable | src/kimlab_datalogging/03_my_thermocouple.py:56-79 | both directions: index i comes back exactly for one-character types whose lower case is i's letter (e,j,k,r,t,s,n,b,c to 20,21,22,23,24,25,27,28,30) |
| Registers.TcIndexCaseInsensitive | src/kimlab_datalogging/03_my_thermocouple.py:67 | a type and its lower case get the same result |
| Registers.TempUnitIndex | src/kimlab_datalogging/03_my_thermocouple.py:81-86 | succeeds exactly for lowered keys of the unit table; otherwise KeyError on the lowered key; the index is 0..2 |
| Registers.TempUnitIndexTable | src/kimlab_datalogging/03_my_thermocouple.py:81-86 | both directions: k, c, f (either case) map to 0, 1, 2 and nothing else succeeds |
| Registers.CjcAddressT8 | src/kimlab_datalogging/03_my_thermocouple.py:106-118 | on a T8 the address 600 + 2·channel is even, gives its channel back, and is injective |
| Registers.CjcAddressShared | src/kimlab_datalogging/03_my_thermocouple.py:106-118 | on every other device the address is 60052 whatever the channel |
| Registers.CjcSlopeOffset | src/kimlab_datalogging/03_my_thermocouple.py:120-131 | a pair exists exactly when the type lowers to "k", and it is (1.0, 0.0) |
| Registers.CjcSlopeOffsetOnlyTypeK | src/kimlab_datalogging/03_my_thermocouple.py:120-131 | a type with a slope/offset pair has type index 22 |
| Registers.ChannelName | src/kimlab_datalogging/03_my_thermocouple.py:53-54 | the name starts with "AIN", is at least four characters long, and contains no '_' |
| Registers.ChannelNameInjective | src/kimlab_datalogging/03_my_thermocouple.py:53-54 | distinct channels get distinct names |
| Registers.RegisterNameInjective | src/kimlab_datalogging/03_my_thermocouple.py:147-168 | a channel name followed by a '_' suffix determines both the channel and the suffix |
| Registers.ReadABC | src/kimlab_datalogging/03_my_thermocouple.py:176-189 | three registers `<name>_EF_READ_A/B/C` and three labels `<stem>_<name>` in A, B, C order |
| ReadPlan.FlattenRows | src/kimlab_datalogging/03_my_thermocouple.py:268-274 | the nested append loops produce the rows concatenated in order |
| ReadPlan.FlattenTriples | src/kimlab_datalogging/04_read_plot_thermocouples.py:186-187 | flattening rows of three puts element i of row j at position 3j + i |
| ReadPlan.ChannelNamesDistinct | src/kimlab_datalogging/03_my_thermocouple.py:240 | distinct channel numbers give distinct channel names |
| ReadPlan.ReadListLayout | src/kimlab_datalogging/03_my_thermocouple.py:262-271 | the read list has 3n entries; position 3j + i is channel j's READ_A/B/C register i |
| ReadPlan.ColumnsLayout | src/kimlab_datalogging/03_my_thermocouple.py:262-276 | 3n + 2 columns: channel j's label i at 3j + i, then 'time' and 'dt' |
| ReadPlan.ThermocoupleIndexPicksTemperatures | src/kimlab_datalogging/04_read_plot_thermocouples.py:207-216 | index k points at channel k's `_EF_READ_A` register, so the picked values are one temperature per channel in channel order |
| WritePlan.GetChannelValueRegister | src/kimlab_datalogging/03_my_thermocouple.py:88-104 | succeeds exactly on a T7, writing GND to `<name>_NEGATIVE_CH` once; a T4 exits with 0; any other device fails on the unbound value; failures write nothing |
| WritePlan.SetResolutionIndexRegisters | src/kimlab_datalogging/03_my_thermocouple.py:133-140 | one write per zipped pair, in order, truncated to the shorter list: `<name>_RESOLUTION_INDEX` = channel |
| WritePlan.EfPlan | src/kimlab_datalogging/03_my_thermocouple.py:142-172 | after k channels the accumulated lists hold 5k entries |
| WritePlan.EfPlanLayout | src/kimlab_datalogging/03_my_thermocouple.py:142-172 | entry 5j + i is register INDEX/A/B/D/E i of channel j, with the type index, unit index, channel j's CJC address, slope or offset |
| WritePlan.EfPlanPrefix | src/kimlab_datalogging/03_my_thermocouple.py:146-172 | the entries after k channels are a prefix of those after any later count |
| WritePlan.ConfigureAinEfRegisters | src/kimlab_datalogging/03_my_thermocouple.py:142-174 | the loop emits batch k = the accumulated entries of the first k + 1 channels, one batch per zipped pair |
| WritePlan.EfBatchesCumulative | src/kimlab_datalogging/03_my_thermocouple.py:173 | batch k has 5(k + 1) entries, each batch extends the previous one, and the last holds all entries |
| WritePlan.EfPlanRegistersDistinct | src/kimlab_datalogging/03_my_thermocouple.py:142-174 | for distinct channels no register appears twice in a batch |
| Configure.Configuration | src/kimlab_datalogging/03_my_thermocouple.py:232-259 | configuration succeeds exactly for type K, a known unit, and a T7 (or no channels); every failure writes nothing |
| Configure.ConfigurationFailures | src/kimlab_datalogging/03_my_thermocouple.py:232-250 | which failure wins: unknown type KeyError, then non-K unpacking, then unknown unit KeyError, then T4 exit(0) or unbound value on other devices |
| Configure.AcceptedConfiguration | src/kimlab_datalogging/03_my_thermocouple.py:232-259 | an accepted session is type K (index 22, slope 1.0, offset 0.0) on a T7 or without channels, and writes negative channels, resolution indices, then AIN_EF batches |
| Configure.AcceptedConfigurationWrites | src/kimlab_datalogging/03_my_thermocouple.py:245-259 | 3n batches: GND to each NEGATIVE_CH in order, each channel to its RESOLUTION_INDEX in order, AIN_EF batch k with 5(k + 1) entries |
| Configure.AcceptedConfigurationLastBatch | src/kimlab_datalogging/03_my_thermocouple.py:258-259 | the last batch holds all 5n AIN_EF entries with index 22, the unit index, CJC address 60052, slope 1.0, offset 0.0 |
| Configure.ConfigurationExampleTwoChannels | src/kimlab_datalogging/03_my_thermocouple.py:342-344 | channels [0, 2], type k, unit C on a T7: six batches; the first is AIN0_NEGATIVE_CH = GND, the fourth AIN2_RESOLUTION_INDEX = 2 |
| Configure.ConfigurationExampleLastBatch | src/kimlab_datalogging/03_my_thermocouple.py:342-344 | the same session's last batch is the five AIN_EF entries of AIN0 followed by those of AIN2 |
| Configure.NegativeChannels | src/kimlab_datalogging/03_my_thermocouple.py:245-250 | the loop stops at the first failing channel with nothing written; otherwise GND values, NEGATIVE_CH registers and one write per channel |
| Configure.CollectCjcAddresses | src/kimlab_datalogging/03_my_thermocouple.py:252-255 | one CJC address per channel, in channel order |
| Configure.ReadListAndColumns | src/kimlab_datalogging/03_my_thermocouple.py:262-276 | the loops build exactly the flattened read list and the columns |
| Configure.ConfigureThermocouples | src/kimlab_datalogging/03_my_thermocouple.py:232-276 | the configuration steps in source order give exactly the result and write log of `Configuration` |
| Sampling.SampleStopped | src/kimlab_datalogging/03_my_thermocouple.py:315-317 | after the break, further rounds change nothing |
| Sampling.SampleLoop | src/kimlab_datalogging/03_my_thermocouple.py:288-317 | the loop over range(num_iterations), leaving at the first exception, computes `Sample` of the first max(0, num_iterations) rounds |
| Sampling.SampleTimes | src/kimlab_datalogging/03_my_thermocouple.py:289-296 | times[k] and delta_times[k] come from round k, in order, at most one per round |
| Sampling.SampleRows | src/kimlab_datalogging/03_my_thermocouple.py:300-304 | row k is round k's read values followed by its time and dt; there are no more rows than times |
| Sampling.SampleEnd | src/kimlab_datalogging/03_my_thermocouple.py:289-317 | all rounds run exactly when none raises, giving one time and one row per round; otherwise the loop breaks at the first raising round k with k + 1 times and k rows (failed read) or k + 1 rows (failed wait) |
| Sampling.SampleRowWidth | src/kimlab_datalogging/03_my_thermocouple.py:300-304 | when each read returns w values, every row has w + 2 cells |
| Sampling.LogSession | src/kimlab_datalogging/03_my_thermocouple.py:232-322 | a session fails exactly when configuration fails, with the same failure, and writes what configuration writes |
| Sampling.LogSessionRowsFitColumns | src/kimlab_datalogging/03_my_thermocouple.py:319-322 | every saved row has exactly one cell per column (3n readings, time, dt, unit) and ends with the unit |
| Sampling.ReadAndLogThermocouple | src/kimlab_datalogging/03_my_thermocouple.py:232-322 | configuration then the sampling loop then the unit column give exactly `LogSession` |
| LivePlot.PicksDistinct | src/kimlab_datalogging/04_read_plot_thermocouples.py:223-224 | with distinct channel names the series of channel j receives exactly value j |
| LivePlot.AppendedDistinct | src/kimlab_datalogging/04_read_plot_thermocouples.py:223-224 | with distinct names, each channel's series grows by its own temperature alone |
| LivePlot.AppendedInStep | src/kimlab_datalogging/04_read_plot_thermocouples.py:192 | with distinct names, series that all had t values all have t + 1 after a frame |
| LivePlot.LiveLog.constructor | src/kimlab_datalogging/04_read_plot_thermocouples.py:186-207 | names, read list and index for the channels, empty rows and times, one empty series per channel name |
| LivePlot.LiveLog.AppendTemperatures | src/kimlab_datalogging/04_read_plot_thermocouples.py:223-224 | every series grows by the temperatures of the channels with its name, in order; nothing else changes |
| LivePlot.LiveLog.Animate | src/kimlab_datalogging/04_read_plot_thermocouples.py:209-224 | a frame appends `data_in ++ [time, dt]` and one plot time, and the picked temperatures to the series; a failed read changes nothing; with distinct names each series grows by its channel's reading at 3j and stays as long as `times` |
| LivePlot.LiveLog.SavedRecord | src/kimlab_datalogging/04_read_plot_thermocouples.py:239-241 | 3n + 3 columns ending in 'T unit', one row per frame, each with one cell per column and the unit last |
| SavePath.WithSuffixNoDot | src/kimlab_datalogging/03_my_thermocouple.py:328-329 | a name without a dot just gets the suffix appended |
| SavePath.WithSuffixSuffix | src/kimlab_datalogging/03_my_thermocouple.py:329 | `with_suffix` keeps the parent and the new name's suffix is the given one; only an empty name is refused |
| SavePath.LiveDestination | src/kimlab_datalogging/04_read_plot_thermocouples.py:243-251 | False saves nothing; a directory gets `<start time>.csv` inside it; any other path is used as is after creating its parent; no index is written; True has no `is_dir` |
| SavePath.Join | src/kimlab_datalogging/03_my_thermocouple.py:328 | `path / segment` adds the segment as the new name, and an empty segment leaves the path unchanged |
| SavePath.LoggerDestination | src/kimlab_datalogging/03_my_thermocouple.py:324-333 | False saves nothing; True fails at `is_dir`; the index is written exactly for a directory; a directory is created and, for a non-empty start time, holds the file; any other path is the file and its parent is created; the only other failure is an empty start time joined to a path with an empty name |
| SavePath.LoggerDestinationEmptyStartTime | src/kimlab_datalogging/03_my_thermocouple.py:328-329 | with an empty start time, directory `data/d` gives the file `data/d.csv` beside it, and the step succeeds |
| SavePath.DestinationsAgree | src/kimlab_datalogging/03_my_thermocouple.py:324-333 | for a start time without dots both scripts choose the same file and directory and differ only in writing the index |

## Left out

- Device I/O from the LJM library is not modelled.
  - Opening the device (`get_labjack_handle`) and reading its type are not modelled. The device variant is an input.
  - `eWriteName`/`eWriteNames` are entries in the write log and are taken to succeed. Write errors are not modelled.
  - `eReadNames` is the `read` field of each tick.
  - `close` is not modelled.
  - The numeric value of the library's GND constant is not modelled.
- Interval timing is not modelled: `startInterval`, `cleanInterval`, and the microsecond truncation of the cadence. Whether `waitForNextInterval` raised is a flag on each tick.
- `datetime.now`, `strftime` and `total_seconds` are not modelled. The formatted times, elapsed seconds and plot date numbers are inputs.
- The plotting library is not modelled:
  - figures, lines and legend;
  - `FuncAnimation`'s scheduling, which decides how many frames run and when;
  - what its event loop does with an exception raised inside `animate`. The model only states that a failed read changes no state.
- pandas is not modelled. A frame is a `Record` of columns and rows. `to_csv` and the directory creation are described by a `Destination`, not performed. `is_dir` is an input.
- `print` output, the `main` entry points and the device info string are not modelled.
- The CJC slope and offset are the real constants 1.0 and 0.0. No floating-point arithmetic is modelled.
- Text.Lower: only ASCII letters and the Kelvin sign U+212A are lower-cased. Python lower-cases other non-ASCII characters too, but none of them lower-cases to a key of the two tables.
- SavePath.WithSuffix: paths are sequences of components, and only an empty path has an empty name. pathlib's parsing of separators, its roots, and its checks on the suffix argument are not modelled; the suffix here is always ".csv".
- Sampling.SampleLoop: `num_iterations` is an integer. Non-integer arguments, which `range` rejects, are not modelled.
- LivePlot.LiveLog.Animate: the series-length property `InStep` is stated for distinct channel names only. With a repeated channel number, the dictionary has one series for both, and `Appended` gives its exact growth.
