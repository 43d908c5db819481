# PV router core, modelled in Dafny

This project models the control core of a MicroPython photovoltaic
surplus router. The router drives a water-heater element (the "TUV"
boiler) with a PWM output so that solar overflow is used instead of
exported. The model covers five parts:

- **Wattmeter** (`wattmeter.dfy`, `ledger.dfy`; source `main/wattmeter.py`).
  - The 22-register read of the energy meter, decoded field by field. This
    includes the HDO (low-tariff) input, the five-sample power window and its
    truncated mean, and the word-swapped 32-bit counters.
  - The minute history `Pm` and the hour history `Es`. Each carries its own
    length in slot 0 and is capped at 61 and 97 slots.
  - The meter-reset commands 100, 101 and 102.
  - The day-boundary ledger line `MM/DD/YY:[p,n,b]`, appended to
    `daily_consumption.dat`.
  - The `FileHandler` functions: `write_data`, `read_data` (the last 31 lines
    of the ledger) and `get_monthly_energy` (monthly sums, at most 36
    summaries).
- **Regulation** (`regulation.dfy`; source `main/regulation.py`).
  - The debounced step controller for the target power: one step is a tenth
    of the element power, and the hysteresis is a quarter step.
  - The night and morning boost windows, and the HDO, boost and manual
    overrides.
  - The duty `int(target / power * 1024)`, capped at 1023.
- **Inverter drivers** (`inverter_link.dfy`, `huawei.dfy`, `solax.dfy`,
  `goodwe.dfy`, `victron.dfy`; source `main/inverters/*.py`).
  - Each vendor's register blocks and the values `process_msg` stores.
  - The device-identity string `check_msg` builds from the registers, and its
    signature test.
  - `run`'s reconnect counter and its status 2.
- **Settings** (`settings.dfy`; source `main/__config__.py`).
  - The defaults, in insertion order.
  - The `key;value` text of `setting.dat`, as `write_setting` writes it and
    `read_setting` parses it. A malformed line makes `read_setting` fall back
    to the live settings, and it rewrites the file from them.
  - `get_config`'s two merge loops and `handle_configure`.
- **Base and text helpers** (`base.dfy`, `text.dfy`).
  - Python's truncating `int()` and `/`, and the 16-bit sign correction.
  - Decimal rendering and parsing.
  - `str.split`, `str.replace`, `strip` and line iteration, so that
    round-trips through the two files can be stated and proved.

Operations that change state in place are class methods with `modifies`
frames. Each method is proved against a function of the old state:

- `Wattmeter.Wattmeter`, `Wattmeter.DataLayer`
- `Regulation.Regulation`
- `Settings.Config`
- `InverterLink.Link`, `InverterLink.InverterData`
- the four vendor classes

Loops of the source are `while`/`for` loops with invariants:

- `read_data` and `get_monthly_energy`
- `write_setting` and `read_setting`
- the merge loops of `get_config`
- `check_msg`'s identity loop
- `process_msg`'s register-table loop

Files are `Option<string>`, where `None` means the file is absent. The
clock, the serial meter response and the Modbus responses are parameters.

Points of the code that the model keeps as written:

- `regulation.py`'s `run` takes `hour`, `minute` and `power` only. There is
  no state-of-charge lockout and no load-shedding relay in the step.
- The drivers store the raw registers, taken as unsigned 16-bit words. A
  Huawei meter value is a pair of them, `hi * 65536 + lo`, and its state of
  charge is in tenths. Only the meter's power samples and `P_REGULATION`
  are sign-corrected.
- An unparseable ledger gives `[]` from `get_monthly_energy`, and it is never
  rewritten. Only `read_setting` rewrites its file.
- `sec_morning_boost` is computed from the night energy
  (`regulation.py:78`). `Regulation.Regulation.Run` states that the two
  durations are equal.

## Model

| member | source | states |
|---|---|---|
| Base.TruncDiv | main/wattmeter.py:147 | `int(a / b)` for a positive divisor truncates toward zero: the quotient brackets `a` from below for `a >= 0` and from above for `a < 0` |
| Base.Trunc | main/regulation.py:123 | `int()` of a float truncates toward zero: `n <= x < n + 1` for non-negative `x`, `n - 1 < x <= n` for negative `x` |
| Base.SignCorrect | main/regulation.py:51-52 | the corrected value is congruent to the raw one modulo 65536; for a 16-bit word it is the signed 16-bit reading, in [-32768, 32767] and negative exactly when the word exceeds 32767 |
| Text.IntToStringRoundTrip | main/wattmeter.py:281 | `int(str(i)) == i` for every integer, the parse the monthly fold applies to what it rendered |
| Text.Pad2RoundTrip | main/wattmeter.py:109 | a `{:02}` field parses back to its number |
| Text.LastTwoDigitsValue | main/wattmeter.py:109 | `str(year)[-2:]` parses back to `year % 100` |
| Text.ParseIntAccepts | main/wattmeter.py:274-292 | the model's `int()` of a string succeeds exactly for an optional sign followed by one or more digits |
| Text.SplitJoin | main/__config__.py:125 | splitting the separator-joined pieces, none of which holds the separator, gives them back |
| Text.ReplaceRemoves | main/wattmeter.py:242 | `replace(c, "")` leaves no `c` |
| Text.LinesAppend | main/__config__.py:121 | the lines of a text that ends a line, followed by more, are its lines followed by the lines of the rest |
| Text.StripLine | main/__config__.py:125 | `strip("\n")` of a line without inner newlines is its body |
| Wattmeter.WordBytes | main/wattmeter.py:129 | the register `(hi << 8) \| lo` gives back `hi` and `lo` by `/ 256` and `% 256` |
| Wattmeter.WordShiftOr | main/wattmeter.py:129 | the shift-or of two bytes is `hi * 256 + lo` |
| Wattmeter.CounterShiftOr | main/wattmeter.py:155-156 | the 32-bit counter takes bytes 2, 3, 0, 1 of its four as its high-to-low bytes |
| Wattmeter.CounterAt | main/wattmeter.py:155-158 | a counter is an unsigned 32-bit value |
| Wattmeter.RegistersOfFrame | main/wattmeter.py:125-127 | reading the big-endian byte frame of registers back as words gives the registers |
| Wattmeter.RegisterAt | main/wattmeter.py:129-164 | register `k` of the response is the word at bytes `2k`, `2k+1` |
| Wattmeter.DecodeBytes | main/wattmeter.py:127-166 | every field of the decoded readings is the word or the word-swapped counter at its byte offset, with `P1` the window mean |
| Wattmeter.Hdo | main/wattmeter.py:130-135 | the HDO flag is 0 or 1 |
| Wattmeter.HdoLevels | main/wattmeter.py:130-135 | HDO is 1 exactly when the input is 1 under active-high or 0 under active-low; any other setting or input gives 0 |
| Wattmeter.PushWindow | main/wattmeter.py:139-141 | the window ends with the new sample |
| Wattmeter.WindowStaysSmall | main/wattmeter.py:139-141 | the power window never holds more than five samples; the new sample is appended and, when five were held, the oldest is dropped |
| Wattmeter.SignedSumBounds | main/wattmeter.py:142-146 | the sum of `n` sign-corrected samples lies in [-32768n, 32767n] |
| Wattmeter.MeanInRange | main/wattmeter.py:142-147 | `P1`, the truncated mean of the window, is a signed 16-bit value |
| Wattmeter.WithHeader | main/wattmeter.py:70 | slot 0 holds the list's length and the rest is unchanged |
| Wattmeter.MinuteHistory | main/wattmeter.py:62-70 | a minute push appends the sample, drops the oldest sample once 61 slots are used, and keeps the length header |
| Wattmeter.HourHistory | main/wattmeter.py:78-96 | an hour push appends the 4-field record, drops the oldest record once 97 slots are used, and keeps the length header and a length of 1 mod 4 |
| Wattmeter.SetItem | main/wattmeter.py:100-106 | list item assignment succeeds exactly for an index in `[-len, len)`, and keeps the length |
| Wattmeter.SameHourOverwrites | main/wattmeter.py:98-106 | within the hour the last three fields of the last record are overwritten, in both branches of the source |
| Wattmeter.SameHourWithoutRecord | main/wattmeter.py:99-102 | with no hour record yet (`Es == [0]`), the same-hour overwrite raises IndexError |
| Wattmeter.MinuteKeepsShape | main/wattmeter.py:62-70 | the minute history keeps its shape: header equals length, 1 to 61 slots |
| Wattmeter.HourKeepsShape | main/wattmeter.py:84-96 | the hour history keeps its shape: header equals length, 1 to 97 slots, length 1 mod 4 |
| Wattmeter.OverwriteKeepsShape | main/wattmeter.py:98-106 | the overwrite keeps the shape, or raises IndexError only on `Es == [0]` |
| Wattmeter.HourBlock | main/wattmeter.py:77-106 | the hour step fails only with IndexError, and only within the same hour |
| Wattmeter.StartKeepsShape | main/wattmeter.py:41-49 | the start-up block keeps both histories' shapes |
| Wattmeter.BookkeepingKeepsShape | main/wattmeter.py:62-119 | a whole bookkeeping pass keeps both histories' shapes |
| Wattmeter.BookkeepingRaises | main/wattmeter.py:77-106 | the only exception bookkeeping raises is IndexError, in the same hour, before the ledger is touched |
| Wattmeter.BookkeepingResets | main/wattmeter.py:62-112 | the meter-reset commands are exactly 100 on a new minute, 101 on a new hour and 102 on a new day, each only after time sync; 102 also needs the offset and no earlier exception |
| Wattmeter.DayChangeWritesOneLine | main/wattmeter.py:108-119 | a day change appends exactly one ledger line, keyed by the previous day, and the refreshed tail ends with that line |
| Wattmeter.DataLayer.constructor | main/wattmeter.py:189-216 | every reading starts at 0, `Pm` and `Es` at `[0]`, `D` and `M` empty |
| Wattmeter.Wattmeter.constructor | main/wattmeter.py:12-37 | no time sync, no offset, empty window, the data layer's ID taken from the settings |
| Wattmeter.Wattmeter.ReadWattmeterData | main/wattmeter.py:121-172 | a full response to register 6002 pushes the power sample and decodes every field; any other response changes nothing |
| Wattmeter.Wattmeter.StartUp | main/wattmeter.py:41-49 | the first synchronized call records the start time and date and loads the ledger tail and monthly summaries |
| Wattmeter.Wattmeter.TakeDate | main/wattmeter.py:41-46 | the start time, minute, day, month and year are taken from the clock |
| Wattmeter.Wattmeter.RecordMinute | main/wattmeter.py:62-75 | the minute block: the history push, reset 100 and the new minute, and nothing else |
| Wattmeter.Wattmeter.RecordHour | main/wattmeter.py:77-106 | the hour block, or its IndexError with the recorded state unchanged |
| Wattmeter.WriteDay | main/wattmeter.py:109-119 | the ledger gains exactly the day's `MM/DD/YY:[p,n,b]` line, and `D` and `M` are the tail and the monthly summaries of the new file |
| Wattmeter.Wattmeter.CloseDay | main/wattmeter.py:108-119 | the day block: ledger line, reset 102, new date, reloaded tail and summaries |
| Wattmeter.Wattmeter.TurnDay | main/wattmeter.py:111-116 | reset 102 and the new date are recorded |
| Wattmeter.Wattmeter.Bookkeep | main/wattmeter.py:62-119 | the minute, hour and day blocks in order, stopping at the hour block's exception |
| Wattmeter.Wattmeter.Stamp | main/wattmeter.py:51-56 | the run time is the clock minus the start-up time, and the time stamp is the formatted clock |
| Wattmeter.Wattmeter.Clocking | main/wattmeter.py:41-56 | the start-up block runs exactly on the first call after time sync, then the stamps |
| Wattmeter.Wattmeter.Prepare | main/wattmeter.py:41-58 | the clocking followed by the meter read |
| Wattmeter.Wattmeter.RunRegulation | main/wattmeter.py:59-60 | the regulation step on the decoded `P_REGULATION` and HDO, with ZeroDivisionError exactly when the element power is 0 |
| Wattmeter.Wattmeter.Control | main/wattmeter.py:59-119 | the regulation step, then bookkeeping unless the regulation raised |
| Wattmeter.Wattmeter.WattmeterHandler | main/wattmeter.py:39-119 | one handler call: start-up, stamps, read, regulation and bookkeeping, each as its function of the state before it |
| Ledger.WriteData | main/wattmeter.py:308-314 | `write_data` appends one `key:value` line per entry to the file |
| Ledger.SpacesRemoved | main/wattmeter.py:311 | removing spaces turns `[p, n, b]` into `[p,n,b]` and leaves the digits alone |
| Ledger.EntryLineIsLedgerLine | main/wattmeter.py:109-110 | the day entry renders as `MM/DD/YY:[p,n,b]` plus a newline |
| Ledger.DayEntryWritten | main/wattmeter.py:308-314 | writing the one-entry day dictionary appends exactly the ledger line |
| Ledger.LedgerLineIsLine | main/wattmeter.py:308-314 | a ledger line is one line: newline-terminated, none inside |
| Ledger.ScrubPieces | main/wattmeter.py:269-271 | the replace chain turns a ledger line into its six digit fields joined by `:` |
| Ledger.CompactFields | main/wattmeter.py:269-271 | scrubbing and splitting a ledger line gives exactly its six digit fields |
| Ledger.LedgerLineFields | main/wattmeter.py:269-271 | the fields read back from a written line are its padded month and day, the year's last two digits, and the three energies |
| Ledger.Capped | main/wattmeter.py:278-279 | the kept summaries are the old ones less at most the oldest, nothing is dropped below 36, and a list within the cap leaves room for the new summary |
| Ledger.FoldFailureSticks | main/wattmeter.py:304-306 | once a line raises, the whole fold fails |
| Ledger.FoldAppend | main/wattmeter.py:268-293 | the fold over one more line is one step on the fold so far |
| Ledger.FoldAt | main/wattmeter.py:268-293 | the fold over a prefix one line longer is one step on the shorter prefix |
| Ledger.FailsAt | main/wattmeter.py:273-306 | a line whose fields do not parse makes the whole result fail |
| Ledger.GoesOn | main/wattmeter.py:268-293 | a line that parses extends the prefix fold by its step |
| Ledger.StepOnParsedFields | main/wattmeter.py:273-292 | the first line opens the month; a same-month line adds its energies; a new month closes the summary (capped) and restarts the sums |
| Ledger.StepOnLedgerLine | main/wattmeter.py:268-292 | the step on a written ledger line, with the year read back as `year % 100` |
| Ledger.FoldKeepsAtMostMaxMonths | main/wattmeter.py:278-279 | the fold never holds more than 36 summaries |
| Ledger.MonthlyEnergyBounded | main/wattmeter.py:257-302 | `get_monthly_energy` never returns more than 36 summaries |
| Ledger.EmptyLedgerSummary | main/wattmeter.py:295-298 | an empty ledger gives the one summary `0/0:[0,0,0]` |
| Ledger.ZeroSummary | main/wattmeter.py:297-298 | the zero summary renders as `0/0:[0,0,0]` |
| Ledger.MonthlyAfterLine | main/wattmeter.py:257-302 | the summaries after appending a line are the closed fold of the old lines stepped by the new one |
| Ledger.NewMonthRollsSummaries | main/wattmeter.py:277-298 | a line of a new month keeps the earlier summaries (the oldest dropped at 36) and adds a summary of the new line alone |
| Ledger.SameMonthAccumulates | main/wattmeter.py:290-298 | a line of the same month leaves the earlier summaries and adds its energies to the last one |
| Ledger.CloseAccumulated | main/wattmeter.py:295-298 | closing after accumulation appends the summary of the sums |
| Ledger.ReadLine | main/wattmeter.py:273-292 | one loop iteration computes the fold step on the split fields |
| Ledger.GetMonthlyEnergy | main/wattmeter.py:257-306 | the loop computes the monthly summaries function, `[]` on a missing file or a bad line |
| Ledger.WithoutNewlines | main/wattmeter.py:242 | stripping keeps one entry per line |
| Ledger.ReadData | main/wattmeter.py:227-248 | `read_data` returns at most the last 31 lines, without newlines, and `[]` for a missing file |
| Ledger.WindowAfterAppend | main/wattmeter.py:239-242 | the window of the longer list is the old window plus the new line, cut to 31 |
| Ledger.LineWithoutNewline | main/wattmeter.py:242 | removing the newline from a line leaves its body |
| Ledger.TailAfterAppend | main/wattmeter.py:227-245 | after appending a line, the tail is the old tail plus the line's body, keeping the last 31 |
| Ledger.LedgerLineAppended | main/wattmeter.py:117-118 | appending a ledger line adds exactly that line, and the new tail ends with its body |
| Regulation.PowerStep | main/regulation.py:66 | a step is one tenth of the element power |
| Regulation.HystIsFortieth | main/regulation.py:66-68 | the hysteresis is 1/40 of the element power, positive and below one step |
| Regulation.StepCountIsTen | main/regulation.py:67 | `power_step_count` is 10 for any non-zero element power |
| Regulation.NightBoostClosedForm | main/regulation.py:70-73 | the boost duration is `4180 * V * (T - inlet) * 3 / (4 * P)` seconds |
| Regulation.DebounceCounter | main/regulation.py:82-97 | the counter resets exactly on the third or later call whose sample is past the overflow limit or above the hysteresis; otherwise it counts up and the target is unchanged |
| Regulation.DebounceDirection | main/regulation.py:82-97 | the target rises only on an exporting sample below minus the hysteresis, and falls only on an importing sample above the hysteresis, both from the third call on |
| Regulation.QuietAfterReset | main/regulation.py:82-86 | after an adjustment the next two calls change nothing |
| Regulation.DebounceAdds | main/regulation.py:85-91 | an exporting sample on an armed counter adds exactly one step when it fits |
| Regulation.DebounceSubtracts | main/regulation.py:92-97 | an importing sample above the hysteresis on an armed counter resets it and takes exactly one step off, clamped at 0 |
| Regulation.DebounceInRange | main/regulation.py:88-97 | the debounced target stays within [0, element power] |
| Regulation.OverlayForces | main/regulation.py:99-120 | a forced mode sets the target to the element power, and otherwise the target is unchanged |
| Regulation.OffModeLeavesTarget | main/regulation.py:99-120 | with no boost mode and no manual boost, the overlay changes nothing |
| Regulation.RegulateInRange | main/regulation.py:46-120 | one whole step keeps the target within [0, element power] |
| Regulation.DutyBounds | main/regulation.py:123-125 | the duty lies in [0, 1023] for a target in range |
| Regulation.DutyEnds | main/regulation.py:123-125 | zero target gives duty 0 and full power gives 1023 (the cap) |
| Regulation.DutyMonotone | main/regulation.py:123-125 | a larger target never gives a smaller duty |
| Regulation.EmptyBoostWindows | main/regulation.py:130-138 | a non-positive duration empties its own window: with the night duration non-positive the boost is active exactly inside the morning window, and the mirror for the morning duration; with both non-positive it is never active |
| Regulation.BoostWindowsGrow | main/regulation.py:130-138 | a longer night or morning duration only widens its window, so an instant in boost stays in boost; a window's end instant is in boost exactly when the other window holds it |
| Regulation.Regulation.constructor | main/regulation.py:20-38 | all regulation state starts at 0, with inlet temperature 10 and overflow limit -30 |
| Regulation.Regulation.Run | main/regulation.py:46-128 | `run` computes step, hysteresis, boost durations (the morning one equal to the night one), the regulated pair and the duty; with element power 0 it raises ZeroDivisionError after setting the step to 0 |
| Regulation.Regulation.ComputeBoostTimes | main/regulation.py:70-78 | the two energies and the two durations, nothing else |
| Regulation.Regulation.Step | main/regulation.py:82-97 | the debounce step on the target and counter, nothing else |
| Regulation.Regulation.ApplyBoost | main/regulation.py:99-120 | the overlay on the target, nothing else |
| Regulation.Regulation.ComputeDuty | main/regulation.py:123-125 | the duty of the target, nothing else |
| InverterLink.InverterData.constructor | main/inverters/huawei.py:7-12 | a driver's data starts with its kind and status and no values, address or identity |
| InverterLink.Joined | main/inverters/huawei.py:52 | a register pair is an unsigned 32-bit value whose high and low words are the pair |
| InverterLink.WideShiftOr | main/inverters/huawei.py:52 | `(hi << 16) \| lo` is `hi * 65536 + lo` |
| InverterLink.TenthsValue | main/inverters/huawei.py:57 | `int(r / 10)` of a register is its integer tenth, at most 6553 |
| InverterLink.FillSucceeds | main/inverters/huawei.py:51-52 | the register-table loop raises exactly when some entry's register is out of the response |
| InverterLink.FillRaises | main/inverters/huawei.py:51-57 | the loop raises only the error its entries raise |
| InverterLink.FillWrites | main/inverters/huawei.py:51-57 | a loop without error stores exactly each table entry's value and keeps every other key |
| InverterLink.FillStops | main/inverters/huawei.py:51-57 | the loop stops at the first failing entry, keeping what the earlier entries stored |
| InverterLink.FillFields | main/inverters/huawei.py:51-57 | the loop over the register table computes the table fill |
| InverterLink.WordSplit | main/inverters/huawei.py:63 | `i >> 8` and `i & 0xFF` are the high and low bytes |
| InverterLink.NonZero | main/inverters/huawei.py:61-62 | none of the kept registers is zero, and there are no more of them than registers |
| InverterLink.NonZeroKeepsEvery | main/inverters/huawei.py:61-62 | every non-zero register is kept, as often as it occurs, and every zero is dropped |
| InverterLink.IdentityLength | main/inverters/huawei.py:61-63 | the identity has two characters per non-zero register |
| InverterLink.IdentityRoundTrip | main/inverters/huawei.py:60-63 | the identity's character pairs give back the non-zero registers |
| InverterLink.IdentityAt | main/inverters/huawei.py:60-63 | each identity character is the high or low byte of its register |
| InverterLink.BuildIdentity | main/inverters/huawei.py:60-63 | the loop builds the identity string |
| InverterLink.LowersTo | main/inverters/huawei.py:65 | `c.lower()` is a given lower-case letter exactly for that letter or its capital |
| InverterLink.Link.constructor | main/inverters/huawei.py:14-16 | a link starts unconnected with a clear reconnect counter and no reconnect requests |
| InverterLink.Link.Settle | main/inverters/huawei.py:23-36 | success clears the counter and records the address; failure counts up and, beyond the maximum, requests a reconnect and marks status 2 |
| InverterLink.ErrorsSinceSuccess | main/inverters/huawei.py:23-28 | the counter holds the failures since the last success |
| InverterLink.FailuresRetry | main/inverters/huawei.py:28-36 | k failures in a row from a clear counter make max(0, k - max) reconnect requests |
| Huawei.MeterFieldsInRead | main/inverters/huawei.py:70-77 | every table entry is a register pair inside the 12-register block, and the keys are distinct |
| Huawei.MeterBlock | main/inverters/huawei.py:49-52 | the block at 37101 stores `u1..u3` and `i1..i3` from their register pairs, or raises IndexError exactly when shorter than 12 |
| Huawei.MeterValues | main/inverters/huawei.py:49-52 | the table fill on a full block stores the six pairs |
| Huawei.BmsBlock | main/inverters/huawei.py:54-57 | the block at 37004 stores `soc` as the register's tenth, or raises IndexError on an empty response |
| Huawei.ExchangeSucceeds | main/inverters/huawei.py:17-24 | the try block succeeds exactly when both reads answer with full blocks |
| Huawei.SignatureOnRegisters | main/inverters/huawei.py:59-68 | the identity check raises on fewer than two non-zero registers and accepts exactly when they start with "sun" in any case |
| Huawei.Huawei.constructor | main/inverters/huawei.py:7-12 | the kind is "Huawei" |
| Huawei.Huawei.ProcessMsg | main/inverters/huawei.py:47-57 | `process_msg` stores the block's values as its function does |
| Huawei.Huawei.CheckMsg | main/inverters/huawei.py:59-68 | the answer is the signature test, and the identity is stored only when accepted |
| Huawei.Huawei.Run | main/inverters/huawei.py:14-36 | `run` sets the status, exchanges both blocks when connected, and settles the reconnect counter |
| Solax.MeterBlock | main/inverters/solax.py:49-55 | the block at 0xCA stores `u1..u3` and `i1..i3` from six registers, or raises IndexError exactly when shorter |
| Solax.MeterValues | main/inverters/solax.py:49-55 | the fill on a full block stores the six registers |
| Solax.BmsBlock | main/inverters/solax.py:57-58 | the block at 0xBE stores `soc`, or raises IndexError on an empty response |
| Solax.ExchangeSucceeds | main/inverters/solax.py:17-24 | the try block succeeds exactly when both reads answer with full blocks |
| Solax.SignatureOnRegisters | main/inverters/solax.py:60-70 | the identity check raises on fewer than two non-zero registers and accepts exactly "sol" in any case |
| Solax.Solax.constructor | main/inverters/solax.py:7-12 | the kind is "Solax" |
| Solax.Solax.ProcessMsg | main/inverters/solax.py:47-58 | `process_msg` stores the block's values as its function does |
| Solax.Solax.CheckMsg | main/inverters/solax.py:60-70 | the answer is the signature test, and the identity is stored only when accepted |
| Solax.Solax.Run | main/inverters/solax.py:14-36 | `run` sets the status, exchanges both blocks when connected, and settles the reconnect counter |
| Goodwe.Divisor | main/inverters/goodwe.py:50 | the voltage divisor is the meter's voltage, or 1 when that is 0 |
| Goodwe.CurrentValue | main/inverters/goodwe.py:51 | a phase current is `int(r * 10 / u)` with the divisor above |
| Goodwe.MeterBlock | main/inverters/goodwe.py:48-55 | the block at 36005 stores the three voltages and currents when it has three registers, and otherwise changes nothing; it never raises |
| Goodwe.BmsBlock | main/inverters/goodwe.py:56-58 | the block at 37007 stores `soc` when non-empty and never raises |
| Goodwe.ExchangeSucceeds | main/inverters/goodwe.py:17-25 | the try block succeeds exactly when both reads answer |
| Goodwe.SignatureOnRegisters | main/inverters/goodwe.py:60-69 | the identity check raises with no non-zero register and accepts exactly "gw" in any case |
| Goodwe.Goodwe.constructor | main/inverters/goodwe.py:7-12 | the kind is "Goodwe" |
| Goodwe.Goodwe.ProcessMsg | main/inverters/goodwe.py:47-58 | `process_msg` stores the block's values as its function does |
| Goodwe.Goodwe.CheckMsg | main/inverters/goodwe.py:60-69 | the identity is stored before the test, and the answer is the signature test |
| Goodwe.Goodwe.Run | main/inverters/goodwe.py:14-36 | `run` exchanges both blocks when connected and settles the counter without ever marking status 2 |
| Victron.MeterBlock | main/inverters/victron.py:49-55 | the block at 820 stores the meter's three voltages and three powers, and a short response raises IndexError after storing the values before the missing register |
| Victron.BmsBlock | main/inverters/victron.py:57-58 | the block at 843 stores `soc`, or raises IndexError on an empty response |
| Victron.ExchangeSucceeds | main/inverters/victron.py:17-24 | the try block succeeds exactly when both reads answer with full blocks |
| Victron.AcceptsSixRegisters | main/inverters/victron.py:67 | an identity of 12 characters or more means six or more non-zero registers |
| Victron.Victron.constructor | main/inverters/victron.py:7-12 | the kind is "Victron" |
| Victron.Victron.ProcessMsg | main/inverters/victron.py:47-58 | `process_msg` stores the block's values as its function does |
| Victron.Victron.CheckMsg | main/inverters/victron.py:60-70 | accepted exactly for an identity of at least 12 characters, which is then stored |
| Victron.Victron.Run | main/inverters/victron.py:14-36 | `run` sets the status, exchanges both blocks when connected, and settles the reconnect counter |
| Settings.Find | main/__config__.py:108 | a lookup finds an entry with the key, or reports that no entry has it |
| Settings.FindUnique | main/__config__.py:108 | with unique keys, each entry's key finds that entry |
| Settings.PutStores | main/__config__.py:109 | item assignment keeps keys unique, stores the value, keeps the order and every other entry, and grows only for a new key |
| Settings.PutKeys | main/__config__.py:108-109 | assigning an existing key keeps the key list |
| Settings.SettingsLines | main/__config__.py:136-140 | the file `write_setting` writes has one line per entry, in order |
| Settings.ParseSettingLine | main/__config__.py:125 | a written `key;value` line parses back to its pair |
| Settings.ParseSettingLines | main/__config__.py:124-127 | parsing the written lines gives the dictionary back |
| Settings.SettingsRoundTrip | main/__config__.py:119-140 | `read_setting` after `write_setting` returns the dictionary written |
| Settings.ParseRejects | main/__config__.py:124-132 | one line that does not split into two makes the parse fail |
| Settings.ParseAccepts | main/__config__.py:124-127 | when every line splits into two, the parse succeeds |
| Settings.ReadStep | main/__config__.py:124-126 | one line either fails the parse or extends it by its pair |
| Settings.ParseFailureSticks | main/__config__.py:129-132 | a failed prefix makes the whole parse fail |
| Settings.StripLeavesNoNewline | main/__config__.py:125 | `strip("\n")` of a line leaves no newline |
| Settings.ParseLineClean | main/__config__.py:125 | a parsed key and value hold neither newline nor separator |
| Settings.ParsedIsClean | main/__config__.py:124-127 | a parsed file has unique keys and clean values |
| Settings.FileIsClean | main/__config__.py:119-127 | whatever file parses gives unique, clean settings |
| Settings.StoredIsClean | main/__config__.py:59-64 | the settings read (or {} on OSError) have unique keys, and clean ones when the live settings are clean |
| Settings.OverrideKeeps | main/__config__.py:71-80 | the merge keeps the keys and their order, keeps them unique, and keeps them clean |
| Settings.OverrideValue | main/__config__.py:71-80 | after the merge a key holds the stored value when the file has the key, and its old value otherwise |
| Settings.OverrideSelf | main/__config__.py:77-80 | merging the settings with themselves changes nothing |
| Settings.OverrideNothing | main/__config__.py:77-80 | merging with `{}` changes nothing |
| Settings.MissingFrom | main/__config__.py:77-83 | each added entry is a live entry whose key the file lacked |
| Settings.MissingCovers | main/__config__.py:77-83 | after the second loop every live key is in the file's settings or was added |
| Settings.ExtendedFileHolds | main/__config__.py:77-83 | the file written by the second loop parses and holds every live key |
| Settings.AbsorbedFileHolds | main/__config__.py:66-83 | after `get_config`, the file parses and holds every key of the merged settings |
| Settings.RoundTripHolds | main/__config__.py:135-140 | a file written from clean unique settings parses and holds every key |
| Settings.ConfiguredValue | main/__config__.py:108-111 | after writing a changed value and running `get_config`, the live settings hold that value |
| Settings.Config.constructor | main/__config__.py:9-55 | the settings start as the defaults, in their order |
| Settings.Config.WriteSetting | main/__config__.py:135-140 | the file becomes the `key;value` lines of the settings |
| Settings.Config.ReadSetting | main/__config__.py:119-132 | the parsed file, OSError for a missing one, or the live settings (aliased) when a line is malformed, which are also written back |
| Settings.Config.Merge | main/__config__.py:71-74 | the first loop overrides every live key the file holds |
| Settings.Config.Absorb | main/__config__.py:77-83 | the second loop overrides as the first, adds every missing live entry and rewrites the file after each |
| Settings.Config.GetConfig | main/__config__.py:59-83 | the live settings become their merge with the stored ones ({} when the file is missing); the key list is unchanged; for clean, non-empty settings the file then holds every key |
| Settings.Config.HandleConfigure | main/__config__.py:96-117 | False for an empty or unknown name, None for an unchanged value, True for a change; only a change alters the live settings; keys never change; for clean settings and a known name, after a change the live setting holds the value and the file holds every key |

## Left out

- Serial (UART) and Modbus TCP transport: the meter response, the two vendor
  responses and the clock are parameters. A failed or short read is
  `None` or a short sequence.
- `Wattmeter.Wattmeter.RecordMinute`, `Wattmeter.Wattmeter.RecordHour`,
  `Wattmeter.Wattmeter.CloseDay`: the reset writes to registers 100, 101 and
  102 (`wattmeter.py:72-73`, `80-81`, `111-112`) always succeed in the model.
  In the source they are not guarded by any `except`. A failed write leaves
  `wattmeter_handler` after `Pm` was pushed and before `last_minute`
  advances, so the next cycles push `Pm` again. Likewise, a failed hour or
  day write retries its block on the next cycle. This repetition is not
  modelled.
- `machine.reset()` when `bt,RESET PV-ROUTER` is configured
  (`__config__.py:98-100`): the reboot is outside the model.
- The random `ID` block of `get_config` (`__config__.py:85-91`). It uses
  `os.urandom` and re-enters `handle_configure`.
- The constructor's `handle_configure` of the software version, and the
  bootloader that supplies it. `Settings.Config.constructor` starts from
  the defaults. The call is an ordinary `HandleConfigure` afterwards.
- The PWM output, the relay and `negotiation_relay`. These are pins.
  `Regulation.Regulation.Run` returns the duty that would be written.
- `scann` and `try_reconnect`/`scan_network` of every driver. The network
  scan is outside the model. A reconnect request is recorded as a `Probe`.
  `main/inverters/base.py` is not part of this model, so its counter logic
  is taken from the drivers' `run` methods.
- The call `regulation.run(..., soc=...)` at `wattmeter.py:60` passes a
  keyword that `regulation.py:46` does not accept. As written, every handler
  call raises TypeError there, before the regulation step and before any
  bookkeeping. The model runs the three-argument step.
- Logging, `gc.collect` and `mem_free`.
- The web server, the task handler and the Infigy driver: they are not
  part of the core.
- Floats: the divisions of `regulation.py` and `int(r / 10)` are exact
  reals, so rounding of binary floating point is not modelled.
- `int()` of configuration strings in `regulation.py`. The eight values one
  step reads arrive already converted in `RegulationConfig`.
- The meter voltages `U2`/`U3` read by the Goodwe and Victron drivers are
  parameters. The meter's data layer never sets them, so as written every
  full Goodwe meter block and every non-empty Victron meter block raises
  KeyError on `U2`.
- Register decoding of the Modbus library: every response is taken as a
  sequence of unsigned 16-bit words. The library is not part of this model.
  A library that returns registers of 0x8000 and above as negative numbers
  would change `(hi << 16) | lo`, Goodwe's truncated currents and
  `chr(i >> 8)` in `check_msg`.
- `Text.ParseInt`: Python's `int()` also strips surrounding whitespace
  (so a ledger line ending in `\r\n` still parses) and CPython accepts `_`
  between digits. The model's parse accepts only an optional sign and
  digits, so such a line makes `GetMonthlyEnergy` return `[]`.
- Dictionary order: `setting.dat` and the dictionaries are modelled in
  insertion order.
- Asynchrony: each handler call runs to completion.
- Transport exceptions of the meter read: `__read_wattmeter_data` catches
  and logs them. A `None` response stands for them, and the readings stay
  unchanged.
