# Host and container sampler, modelled in Dafny

This project models the sampling and normalisation layer of a small telemetry agent. The agent reads disk, memory, CPU and container state from one machine and reshapes each reading into a fixed-shape record:

- `get_disk` and `get_ram` convert byte counts with `to_gb`. They return all-zero records when psutil lacks the capability.
- `get_cpu` turns the 1/5/15-minute load averages into percentages of the core count. It averages the `coretemp` sensor channels field by field. It falls back to the all-default `CPU()` when there is no core count.
- `get_docker` splits the container runtime's JSON-lines output into non-empty lines and decodes each one. It maps each record to a `Docker` value: the state fields are copied, every `/` is removed from the name, and only the keys of `NetworkSettings.Ports` are kept.

The model is functional. Every psutil capability that the source probes with `hasattr` is an `Option` field of `Samplers.Host`: absent, or present with what the call returned. `json.loads` is a parameter `decode: string -> Option<Json>`, where `None` stands for the decode error. `to_gb` is a parameter `toGb: int -> real`. A Python exception becomes the `Failure` of a `Result`, tagged with the exception's kind.

Modules:

- `Wrappers` (wrappers.dfy): `Option` and `Result`.
- `Text` (text.dfy): `str.split`, the empty-line filter, `str.replace(c, '')`, and their lemmas.
- `Json` (json.dfy): the decoded value, key lookup and key sets.
- `Records` (records.dfy): the dataclasses and their zero defaults.
- `Containers` (containers.dfy): `get_docker`.
- `Stats` (stats.dfy): sums and means.
- `Samplers` (samplers.dfy): `get_disk`, `get_ram` and `get_cpu`.

Behaviour of the code worth noting, all of it modelled as written:

- The name loses every `/`, not only a leading one (`str.replace`).
- An empty `coretemp` channel list raises `ZeroDivisionError`. It is not treated as "no sensors".
- A core count with no load average still keeps the count and the temperature. Only the load triple is zeroed.
- RAM `free` is converted from the `active` statistic. On a platform whose memory statistics lack `active`, `get_ram` raises `AttributeError`.
- A temperature read that raises aborts `get_cpu` even when there is no core count. The record would have been discarded in that case, but the exception still propagates.

The container state fields and `restart_count` hold the decoded JSON value itself. The source copies whatever value is there and checks no type. Only `Name` must be a string (for `.replace`) and `Ports` an object (for `.keys()`).

## Model

| member | source | states |
|---|---|---|
| Text.Split | project/main.py:144 | `s.split('\n')` yields one more piece than there are separators, and no piece contains the separator |
| Text.JoinSplit | project/main.py:144 | re-joining the pieces of a split with the separator gives back the original output |
| Text.SplitJoin | project/main.py:144 | splitting separator-free pieces after joining them gives back exactly those pieces |
| Text.NonEmpty | project/main.py:144 | the `if x` filter keeps every non-empty piece exactly as often as it occurs and drops every empty one |
| Text.NonEmptyAppend | project/main.py:144 | the filter works piecewise over a concatenation, so the kept pieces stay in input order |
| Text.Lines | project/main.py:144 | every line kept by the `if x` filter is non-empty and contains no newline |
| Text.LinesJoin | project/main.py:144 | non-empty, newline-free lines joined by newlines are read back as the same lines, in order |
| Text.LinesTrailingNewline | project/main.py:143-144 | a trailing newline on the runtime's output adds no line |
| Text.LinesOfNewlines | project/main.py:143-144 | empty output, or output of newlines only, has no lines |
| Text.RemoveAll | project/main.py:159 | `replace('/', '')` leaves no `/`, shortens the name by exactly its number of `/`, and leaves a name without `/` unchanged |
| Text.RemoveAllAppend | project/main.py:159 | removal works piecewise over a concatenation, so `/` is removed anywhere in the name, not only at the start |
| Json.Lookup | project/main.py:148-161 | `x[key]` has a value exactly when `x` is an object holding `key`, and that value is the object's entry |
| Json.Keys | project/main.py:161 | `.keys()` exists exactly for objects, and its set holds exactly the keys that lookup finds |
| Containers.Subscript | project/main.py:148-161 | subscripting succeeds exactly when lookup does; otherwise it raises `KeyError` on an object and `TypeError` on anything else |
| Containers.SubscriptAll | project/main.py:148-157 | reading a list of keys succeeds exactly when every key is present, and the i-th value is the i-th key's entry |
| Containers.ToState | project/main.py:147-158 | the state record exists exactly when all ten `State` keys are present, and each field is the entry of its key, unchanged |
| Containers.ToDocker | project/main.py:146-162 | a record maps exactly when it has the shape the code reads; the name is `Name` with every `/` removed, the restart count is copied, and the ports are exactly the key set of `NetworkSettings.Ports` |
| Containers.DecodeAll | project/main.py:144 | decoding succeeds exactly when every line decodes, one value per line in order; otherwise the reported line is the first that fails |
| Containers.ToDockers | project/main.py:145-163 | mapping succeeds exactly when every record has the required shape, one `Docker` per record in order; otherwise the error is the one the first failing record raises |
| Containers.GetDocker | project/main.py:142-164 | success exactly when every non-empty line decodes to a well-shaped record; then there is one `Docker` per line, in order, and no name contains `/`; any undecodable line makes the call fail with a decode error and no list |
| Containers.GetDockerNoLines | project/main.py:143-144 | empty runtime output gives an empty list, not an error |
| Containers.GetDockerPerLine | project/main.py:144-163 | newline-terminated lines of valid records give exactly one container per line, in the same order, each named after its `Name` without `/` |
| Containers.BadLineFailsAll | project/main.py:144 | a bad line fails the whole call even after a good line; the first undecodable line is reported |
| Stats.Mean | project/main.py:123-125 | `sum(xs) / len(xs)` is the value whose `len(xs)`-fold multiple is the sum |
| Stats.SumBounds | project/main.py:123-125 | a sum of readings within `[lo, hi]` lies between `len * lo` and `len * hi` |
| Stats.MeanBounds | project/main.py:123-125 | the mean lies between any lower and upper bound of the readings |
| Stats.MeanConstant | project/main.py:123-125 | readings that all agree have that reading as their mean |
| Samplers.GetDisk | project/main.py:87-95 | without the disk capability all fields are zero; with it, each field is `to_gb` of the byte count of the same name |
| Samplers.GetRam | project/main.py:98-106 | without the memory capability all fields are zero; with it, `AttributeError` exactly when the platform lacks `active`, and otherwise total and used convert their statistics and free converts `active` |
| Samplers.RamIgnoresFreeStatistic | project/main.py:104 | the reported free memory does not depend on the free or available statistics: hosts differing only there report the same record |
| Samplers.LoadPercent | project/main.py:110-113 | the load triple is zero unless both the core count and the load average exist; then each entry times the count is 100 times its load, in 1/5/15-minute order; a zero count raises `ZeroDivisionError` |
| Samplers.AllPresent | project/main.py:124-125 | a list of optional readings has values exactly when no reading is `None`, and then holds the readings in order |
| Samplers.Average | project/main.py:123-125 | `sum / len` raises `ZeroDivisionError` exactly on an empty list and is otherwise the mean |
| Samplers.GroupMeans | project/main.py:115-126 | channel averaging succeeds exactly for a non-empty list whose channels all report both thresholds; an empty list raises `ZeroDivisionError`, a missing threshold `TypeError`; each field is the mean of that field |
| Samplers.Temperature | project/main.py:114-128 | without the sensor capability the temperature is zero; a missing `coretemp` group raises `KeyError`; otherwise it is the group's channel means |
| Samplers.GetCpu | project/main.py:109-139 | `get_cpu` succeeds exactly when the load and the temperature both succeed; without a core count the result is the default record; with one, it holds the count, the load triple and the temperature; absent capabilities give zero loads or zero temperatures |
| Samplers.NoCountDiscardsReadings | project/main.py:129-139 | without a core count the result is the all-default record even when temperatures were read successfully |
| Samplers.TemperatureWithinReadings | project/main.py:115-126 | each averaged temperature field lies within the range of that field's channel readings, field by field |
| Samplers.TwoChannelMeans | project/main.py:115-126 | channels (50, 80, 90) and (60, 90, 100) average to (55, 85, 95) |

## Left out

- The shell command of project/main.py:143 and its exit status are not modelled. The model starts from the text the command printed, so an unavailable runtime looks the same as one with no containers.
- The delivery of the report is not modelled: the `__main__` block, assembling `ServerStats`, the `MASTER_SERVER` variable and the HTTP POST (project/main.py:167-173). This is network I/O. `Records.ServerStats` only records the report's shape.
- `dataclasses_json` serialisation (`to_json`) is not modelled: it is a library whose code is not part of this model.
- `json.loads` is the `decode` parameter, and its text parsing is not modelled. JSON numbers are modelled as integers only. None of the fields read here is a fractional number.
- `to_gb` is the `toGb` parameter. Its float division by 2^30 and its rounding to two decimals (project/main.py:83-84) are floating-point numerics.
- Python floats are modelled as `real`, so there is no rounding, overflow or NaN.
- The psutil calls are the fields of `Samplers.Host`. `get_cpu` calls `cpu_count()` once per load average inside the comprehension and once more for `count`, four calls in all. The model has one `cpuCount` and so assumes all four calls return the same value. It does not model `cpu_count()` returning `None`.
- The `label` of a sensor channel is not modelled, because the code never reads it.
- `Records.Docker.ports` is a set. The key order of the `dict_keys` view is not modelled.
- Exceptions are modelled by kind (and by the offending key or line), not by their message text.
