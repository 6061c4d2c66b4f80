# obutils: the keyboard indicator and the status-line parsers, in Dafny

obutils is a set of small status-bar helpers for an X11 desktop. This
project models the parts of it that make decisions, and proves what they
compute:

- **The keyboard indicator** (`keyboard` binary). It finds the keyboard's
  LED device among the entries of `/sys/class/leds`. It asks Fcitx (the
  older Fcitx4 D-Bus dialect, or Fcitx5) for its input methods and builds
  a catalog of the switchable ones. Then it polls: it looks up the current
  input method, appends highlighted `[Num]`/`[Caps]` markers for the locks
  that are on, and prints the line whenever it changed.
- **The procfs and pactl parsers:**
  - RAM and swap figures from `/proc/meminfo`.
  - CPU jiffies from `/proc/stat`.
  - Bytes read and written by whole disks, from `/proc/diskstats`.
  - Mute flag and volume of the default sink, from `pactl list sinks`.
- **The brightness and volume fields** of the `light-vol-bat` status line:
  an icon chosen by range, then the value and `%`.

Every file read, directory listing, D-Bus reply and command output is an
input of the model:

- a sequence of lines;
- a string;
- a sequence of reply tuples;
- an `Option` for a read that can fail;
- a `Result` for a D-Bus call.

Every panic of the program (`expect`, `unwrap`, an index or slice out of
bounds, `panic!`) is an `Err` of the module's error datatype. The model
follows the program's control flow, so the first panic the code would hit
is the one reported.

Modules, one per file:

- `Wrappers` (`wrappers.dfy`): `Option` and `Result`.
- `Text` (`text.dfy`): the parts of Rust's `str` and integer parsing the
  parsers use, written over `seq<char>`:
  - `char::is_whitespace`, `trim` and `split_whitespace`;
  - `find` and `rfind`, with lemmas that pin down first and last
    occurrences;
  - `str::parse` for `u8`, `u64` and `usize` (an optional `+`, then
    digits, bounded by the type's maximum);
  - decimal formatting, with the round trip `parse(format(n)) == n`.
- `Fcitx` (`fcitx.dfy`): the `InputMethod` record and its two
  conversions from reply tuples.
- `KeyboardLeds` (`keyboard_leds.dfy`): `get_input_id`, `read_state`
  and `get_leds_state`.
- `Keyboard` (`keyboard.dfy`):
  - `highlight`, `leds_state` and `render`;
  - the catalog filters;
  - backend selection;
  - `do_render` and the diff loop of `main`.
- `Memory`, `Cpu`, `Disk`, `PulseAudio` (`memory.dfy`, `cpu.dfy`,
  `disk.dfy`, `pulseaudio.dfy`): one module per parser.
- `LightVolBat` (`light_vol_bat.dfy`): `show_brightness` and
  `show_volume`.

Code that works step by step (the loops of `get_mem_usage`,
`get_cpu_usage`, `get_disk_io`, `get_input_id` and `main`, the `push_str`
sequence of `leds_state`, the re-sliced variables of `get_sink_state`) is a
`method` with that loop or sequence. In each case the method is proved equal
to a specification function (`MemUsageOf`, `ScanWith`, `DiskScan`,
`InputIdOf`, `LedMarkup`, `SinkStateOf`, `Loop`/`Indicator`), and the lemmas
state the program's promises about those functions. The body of the loop of
`get_disk_io` is its own method, `AddLine`, which uses `LineStep` for the
line's fields. `DiskScan` is `Scan`, a fold of per-line results in file
order, applied to `LineIo`; the lemmas about the order of the scan are
proved once for any per-line step.

Behaviour worth knowing, where the model follows the code:

- **The prefix is stripped once.** `"Keyboard - "` is removed a single
  time, so `"Keyboard - Keyboard - X"` becomes `"Keyboard - X"`.
- **The catalog is not de-duplicated.** The lookup takes the first entry
  with the id.
- **A failed group query is fatal.** A failed Fcitx5 group query ends
  `main` even when the Fcitx4 list was obtained. A failed list query only
  means "no list".
- **An empty render is not a change.** The diff loop compares each render
  with the last *printed* line. So coming back to that line after an empty
  render prints nothing.
- **The markup can hold zero, one or two markers.** `[Num]` always comes
  first.
- **An empty current id never reads the LEDs.** A failing LED read is
  then harmless.
- **The mute test is made first.** `get_sink_state` only looks at the text
  after the first `Mute: `, and it rejects an unknown mute word before it
  looks at the volume.
- **`get_mem_usage` counts matching lines, not fields.** Two `MemTotal`
  lines end the scan with the available figure 0.

## Model

| member | source | states |
|---|---|---|
| Keyboard.Highlight | src/bin/keyboard.rs:13-15 | the result opens with the `#ff9944` span tag and closes with `</span>`, its length is the tags' plus the value's, and the value is exactly the text between the tags |
| Keyboard.LedsState | src/bin/keyboard.rs:17-27 | a failed LED read is fatal (`LedReadFailed`); otherwise the result is the markup of the state read, built by appending the Num marker, then the Caps marker |
| Keyboard.LedMarkupEmpty | src/bin/keyboard.rs:17-27 | the markup is empty if and only if both locks are off |
| Keyboard.LedMarkupOrder | src/bin/keyboard.rs:20-25 | with both locks on, the markup starts with the highlighted `[Num]` and ends with the highlighted `[Caps]` |
| Keyboard.LedMarkupInjective | src/bin/keyboard.rs:17-27 | different lock states give different markups, so the markup tells exactly which locks are on |
| Keyboard.StripKeyboardPrefix | src/bin/keyboard.rs:54-58 | a name starting with `"Keyboard - "` is that prefix followed by the result; any other name is returned unchanged |
| Keyboard.StripKeyboardPrefixOnce | src/bin/keyboard.rs:56-57 | exactly one prefix is removed: stripping `"Keyboard - " + x` gives `x` whatever `x` is, including a second prefix |
| Keyboard.BuildCatalog | src/bin/keyboard.rs:50-64 | the `filter_map(...).collect()` loop (test, prefix drain, push) builds exactly the catalog `CatalogOf` of the raw entries |
| Keyboard.CatalogAppend | src/bin/keyboard.rs:50-64 | the catalog of a concatenation is the concatenation of the catalogs: source order is kept |
| Keyboard.CatalogMembership | src/bin/keyboard.rs:52-63 | an entry is in the catalog if and only if it is the prefix-stripped form of a raw entry that passes the test |
| Keyboard.CatalogEntries | src/bin/keyboard.rs:52-63 | every catalog entry passes the test; the catalog is no longer than the raw list; when every entry passes it is the raw list with the prefix stripped from each display name, entry by entry, and when none passes it is empty |
| Keyboard.CatalogAllKept | src/bin/keyboard.rs:52-63 | when every raw entry passes the test, the catalog is the raw list with the prefix stripped from each display name, in order |
| Keyboard.Fcitx4CatalogExactly | src/bin/keyboard.rs:49-66 | the Fcitx4 catalog holds exactly the cleaned records of the `IMList` tuples whose `loaded` flag is set |
| Keyboard.Fcitx5CatalogExactly | src/bin/keyboard.rs:67-92 | the Fcitx5 catalog holds exactly the cleaned records of the available-method tuples whose internal name is a member of the current group |
| Keyboard.FindByName | src/bin/keyboard.rs:33-36 | the lookup yields the first index whose internal name is the id, or none when no entry has it |
| Keyboard.Render | src/bin/keyboard.rs:29-40 | an empty id renders as the empty string whatever the LEDs; a successful non-empty render starts with the display name of a catalog entry with that id, then a space |
| Keyboard.RenderFound | src/bin/keyboard.rs:33-39 | a present id renders as its first entry's display name, one space and the markup; with no lock on, the trailing space remains |
| Keyboard.RenderUnknown | src/bin/keyboard.rs:33-36 | a non-empty id missing from the catalog is fatal (`UnknownInputMethod`), whatever the LEDs |
| Keyboard.RenderPinyin | src/bin/keyboard.rs:29-39 | `pinyin` with only Num Lock on renders as `Pinyin <span foreground='#ff9944'>[Num]</span>` |
| Keyboard.SelectBackend | src/bin/keyboard.rs:93-99 | there is a result if and only if one of the lists exists; Fcitx4 is chosen exactly when its list exists, and the chosen backend's list is used; with neither list the result is `FcitxNotFound` |
| Keyboard.GroupQueryFailureIsFatal | src/bin/keyboard.rs:69-71 | a failing `CurrentInputMethodGroup` call ends start-up with its bus error, and otherwise a failing `InputMethodGroupInfo` call ends it with that one's, even when the Fcitx4 list was read |
| Keyboard.NoKeyboardIdIsFatal | src/bin/keyboard.rs:44 | start-up fails with `NoKeyboardId` if and only if `get_input_id` finds no usable LED entry, whatever the bus replies |
| Keyboard.Fcitx4Preferred | src/bin/keyboard.rs:93-94 | once the group is known, the Fcitx4 catalog and backend are used whenever `IMList` succeeded |
| Keyboard.Fcitx5Fallback | src/bin/keyboard.rs:95-96 | without an Fcitx4 list, the Fcitx5 catalog of the current group is used, with the Fcitx5 backend |
| Keyboard.NoBackendFound | src/bin/keyboard.rs:97-98 | when neither list query succeeds, start-up ends with `FcitxNotFound` |
| Keyboard.Start | src/bin/keyboard.rs:44-99 | the start-up statements of `main` (keyboard id, both catalogs, the group queries, the selection) compute `Startup` |
| Keyboard.DoRender | src/bin/keyboard.rs:101-108 | `do_render` asks the chosen dialect for the current id and renders it, reading the LEDs only after the id was found; it equals `RenderTick` |
| Keyboard.DiffStep | src/bin/keyboard.rs:112-115 | a render is printed if and only if it is non-empty and differs from the last printed line; the last line changes to it exactly then |
| Keyboard.EmittedIsCollapse | src/bin/keyboard.rs:109-117 | the loop prints exactly the non-empty renders with back-to-back repeats removed, where an empty render in between does not count as a change |
| Keyboard.CollapseNoRepeats | src/bin/keyboard.rs:112-115 | collapsed output never has two equal lines in a row and does not start with the previous line |
| Keyboard.ReturnAfterEmptyIsSilent | src/bin/keyboard.rs:112-115 | `x`, then an empty render, then `x` again prints `x` once; a repeated render prints once; after `x` was printed, an empty render and `x` print nothing |
| Keyboard.LoopStep | src/bin/keyboard.rs:110-115 | one iteration: a failing render ends the loop with nothing more printed; a successful one prints what `DiffStep` says and goes on from its new last line |
| Keyboard.LoopAllRendered | src/bin/keyboard.rs:109-117 | when every render succeeds, the loop is still running after the ticks and has printed `Emitted` of the renders |
| Keyboard.DiffStepShape | src/bin/keyboard.rs:110-115 | one step of the print-on-change test keeps the printed lines non-empty and free of repeats, counting from the last line shown |
| Keyboard.LoopPrintedShape | src/bin/keyboard.rs:110-115 | every printed line is non-empty, none equals the line printed just before it, and the first differs from the starting last line |
| Keyboard.StartupFailurePrintsNothing | src/bin/keyboard.rs:44-99 | when start-up fails, nothing is printed and the run ends with that error |
| Keyboard.RunLoop | src/bin/keyboard.rs:109-117 | the loop over `old`, with its print-on-change test, run over the given ticks, computes `Loop` from the empty last line |
| Keyboard.RunIndicator | src/bin/keyboard.rs:42-117 | `main`: start-up, then the loop over the given ticks; it equals `Indicator` |
| Fcitx.FromFcitx4 | src/fcitx.rs:17-26 | the record decoded from a 4-tuple gives back that tuple through `ToFcitx4` (display name, name, language, loaded) |
| Fcitx.Fcitx4RoundTrip | src/fcitx.rs:17-26 | every record is the decoding of its own 4-tuple, so the Fcitx4 decoding is a bijection |
| Fcitx.Fcitx5Discards | src/fcitx.rs:27-36 | two 7-tuples decode alike if and only if they agree at positions 0, 1, 5 and 6: positions 2, 3 and 4 are discarded |
| Fcitx.DialectsSwapNames | src/fcitx.rs:17-36 | the Fcitx5 tuple `(n, d, _, _, _, l, b)` decodes to the same record as the Fcitx4 tuple `(d, n, l, b)`: the two dialects swap name and display name |
| Fcitx.GroupMemberNames | src/fcitx.rs:57-61 | a name is a group member if and only if it is the first component of one of the group-info pairs |
| KeyboardLeds.CapslockEntryLength | src/keyboard_leds.rs:16-17 | a name that starts with `input` and ends with `::capslock` is long enough for the slice between them to be well formed |
| KeyboardLeds.EntryMiddle | src/keyboard_leds.rs:17 | the slice is the text between `input` and `::capslock`: the three put together give the name back |
| KeyboardLeds.FirstCapslockEntry | src/keyboard_leds.rs:11-16 | yields the first entry that starts with `input` and ends with `::capslock`, or none when no entry does |
| KeyboardLeds.GetInputId | src/keyboard_leds.rs:10-22 | the scan returns at the first matching entry with the `u8` parse of its middle; it equals `InputIdOf` |
| KeyboardLeds.InputIdFirstMatch | src/keyboard_leds.rs:16-18 | the first match decides, whatever follows it, even when its middle does not parse |
| KeyboardLeds.InputIdNoMatch | src/keyboard_leds.rs:21 | with no matching entry the id is absent |
| KeyboardLeds.EntryIdOfDecimal | src/keyboard_leds.rs:16-18 | `input<N>::capslock`, with `N` a `u8` in decimal, matches and names device `N` |
| KeyboardLeds.EntryIdTooLarge | src/keyboard_leds.rs:18 | `input<N>::capslock` with `N` above 255 matches but gives no id |
| KeyboardLeds.ReadState | src/keyboard_leds.rs:25-28 | a failed read gives none; otherwise the LED is on if and only if the trimmed content is exactly `1` |
| KeyboardLeds.ReadStateOfWord | src/keyboard_leds.rs:27 | a word followed by whitespace reads as on exactly when the word is `1`, so `0`, `2` and `11` are off |
| KeyboardLeds.GetLedsState | src/keyboard_leds.rs:31-36 | there is a state if and only if both reads succeed; Caps Lock comes from the `capslock` file and Num Lock from the `numlock` file |
| Memory.ExtractNumber | src/memory.rs:9-14 | a number is produced only when the line has a `:` and a `kB`, and it fits a `u64`; a line without `:` fails with `NoColon` |
| Memory.ExtractPadded | src/memory.rs:9-14 | a line `<title>:<blanks><digits> kB` gives the `u64` parse of the digits, or `BadNumber` |
| Memory.ExtractNumberOfField | src/memory.rs:9-14 | a line `<title>:<blanks><n> kB` starts with its title and gives `n` back |
| Memory.GetMemUsage | src/memory.rs:16-35 | the loop with its count and early `break` computes `MemUsageOf` |
| Memory.ScanSkips | src/memory.rs:19-33 | lines that start with neither title do not affect the scan |
| Memory.ScanStopsAtSecondMatch | src/memory.rs:22-31 | once the matches reach two, later lines, even malformed ones, are never read |
| Memory.StopsAtSecondMatch | src/memory.rs:17-33 | for whole files: the lines after the second matching line do not change the result |
| Memory.TwoTotalLines | src/memory.rs:20-25 | two total lines end the scan with the second total and an available figure of 0, whatever follows |
| Memory.TotalTestFirst | src/memory.rs:20-26 | a line that starts with both titles sets the total |
| Memory.ScanKeepsUnseen | src/memory.rs:18-34 | a field that no line sets keeps its value through the scan |
| Memory.UnseenTitleIsZero | src/memory.rs:18-34 | a field whose title never appears (as the total title, for the available figure) stays 0 |
| Memory.ScanMatch | src/memory.rs:20-32 | a matching line with a good number sets its field; the scan ends if it was the second match and goes on otherwise |
| Memory.ReadsBothFields | src/memory.rs:19-34 | one total line and a later available line, among other lines, give both figures from those lines |
| Memory.GetRamUsage | src/memory.rs:41-43 | RAM is the scan with `MemTotal` and `MemAvailable` |
| Memory.GetSwapUsage | src/memory.rs:37-39 | swap is the scan with `SwapTotal` and `SwapFree` |
| Memory.AvailableIsNotTotal | src/memory.rs:42 | a `MemAvailable` line fails the `MemTotal` test |
| Memory.RamOfMeminfo | src/memory.rs:41-43 | `/proc/meminfo` with its `MemTotal` and `MemAvailable` lines in kernel layout gives exactly those two numbers |
| Cpu.Field | src/cpu.rs:13-19 | reading field `k` succeeds if and only if it exists and parses as a `u64`; a failure says whether the field is missing or malformed |
| Cpu.Times | src/cpu.rs:13-19 | reading fields `lo` to `hi - 1` succeeds if and only if all of them parse, and gives their values in order; an error names the first field that does not |
| Cpu.AsWrittenUsage | src/cpu.rs:13-24 | the code as written: it succeeds if and only if fields 1 to 5 parse; the work is fields 1+2+3 and the total is work + field 4 + 3 × field 5; an error names the first bad field |
| Cpu.UsageOf | src/cpu.rs:13-24 | corrected: it succeeds if and only if fields 1 to 7 parse; the work is fields 1+2+3 and the total is the sum of fields 1 to 7; an error names the first bad field |
| Cpu.GetCpuUsage | src/cpu.rs:9-28 | the loop that returns at the first `cpu` line computes `ScanWith` for the given reading of that line: `AsWrittenScan` with `AsWrittenUsage`, `CpuScan` with `UsageOf` |
| Cpu.ScanSkips | src/cpu.rs:10-12 | for any reading of the `cpu` line, non-blank lines whose first token is not `cpu` do not matter |
| Cpu.FirstCpuLine | src/cpu.rs:10-25 | as written and corrected, the first line whose first token is `cpu` decides the result; later lines are never read |
| Cpu.NoCpuLine | src/cpu.rs:27 | as written and corrected, without a `cpu` line (and without blank lines) both figures are 0 |
| Cpu.BlankLineFirst | src/cpu.rs:11-12 | as written and corrected, a blank line before the first `cpu` line is fatal (`EmptyLine`) |
| Cpu.BlankSplitsToNothing | src/cpu.rs:11 | a blank line splits into no tokens |
| Cpu.ScanWorkWithinTotal | src/cpu.rs:9-28 | a scan whose line reading never reports more work than total never does either |
| Cpu.WorkWithinTotal | src/cpu.rs:20-23 | as written and corrected, whenever a result is produced, the work does not exceed the total |
| Cpu.DecimalFields | src/cpu.rs:11-19 | a line of the label and seven decimal times, separated by single spaces, splits into the label and seven fields that parse back to the times |
| Cpu.UsageOfTimes | src/cpu.rs:13-23 | seven fields with the given times give the corrected sums, and the as-written sums with iowait counted three times |
| Cpu.CpuLineRoundTrip | src/cpu.rs:11-24 | a `cpu` line written out from seven times gives work = user+nice+system and total = the sum of all seven (corrected), and total = work + idle + 3 × iowait (as written) |
| Cpu.IrqReadsIowait | src/cpu.rs:17-19 | for the fields of `cpu 0 0 0 0 1 0 0` the code as written reports a total of 3, while the corrected reading reports 1 |
| Cpu.IrqReadsIowaitScan | src/cpu.rs:9-28 | for a file whose one line has the fields `cpu 0 0 0 0 1 0 0`, the code as written returns a total of 3, the corrected program 1 |
| Cpu.FiveTimes | src/cpu.rs:13-24 | a `cpu` line with exactly five times is accepted as written, with total = work + idle + 3 × iowait, and rejected by the corrected program as missing field 6 |
| Cpu.ShortCpuFields | src/cpu.rs:13-24 | for the fields `cpu 1 2 3 4 5` the code as written gives work 6 and total 25, the corrected program `MissingField(6)` |
| Cpu.ShortCpuLineAccepted | src/cpu.rs:9-28 | for a file whose one line has the fields `cpu 1 2 3 4 5`, the code as written returns work 6 and total 25, while the corrected program panics on the missing field 6 |
| Cpu.ShortCpuLineFields | src/cpu.rs:11 | the text `cpu 1 2 3 4 5` splits into exactly those fields |
| Disk.SectorBytes | src/disk.rs:37-50 | a counter field is read if and only if it exists and parses as a `usize`, and it then gives that count times 512; otherwise the field is named as missing or malformed |
| Disk.LineIo | src/disk.rs:32-50 | a line with fewer than three tokens is fatal; a line for an unlisted device adds nothing |
| Disk.LineSectors | src/disk.rs:37-50 | anything a line adds is a whole number of 512-byte sectors |
| Disk.LineStep | src/disk.rs:32-50 | the steps of the loop body (device name, membership test, the two sector counts) compute `LineIo` |
| Disk.AddLine | src/disk.rs:31-51 | one turn of the loop adds the line's bytes to the totals so far, or ends with that line's panic |
| Disk.GetDiskIo | src/disk.rs:18-57 | the loop with its two accumulators and three panics computes `DiskScan` |
| Disk.ScanStep | src/disk.rs:31-52 | the scan of one more line is the scan so far followed by that line |
| Disk.FailureIsFinal | src/disk.rs:31-52 | a failure within the first lines is the result of the whole scan; the lines after it are never read |
| Disk.ScanInSectors | src/disk.rs:29-52 | when every line adds whole sectors, both totals are whole sectors |
| Disk.WholeSectors | src/disk.rs:37-50 | both totals are always multiples of 512 |
| Disk.ScanIsTally | src/disk.rs:31-52 | when every line is well formed, the scan succeeds with the sum of the lines' contributions |
| Disk.SumPermutation | src/disk.rs:31-52 | reordering the lines does not change the sum of their contributions |
| Disk.ScanPermutation | src/disk.rs:31-52 | when every line is well formed, reordering the lines of `/proc/diskstats` does not change the totals |
| Disk.ScanSameFrom | src/disk.rs:31-52 | two prefixes that scan alike still scan alike when the same lines follow them |
| Disk.IgnoresUnlisted | src/disk.rs:36 | a line for an unlisted device can be removed from anywhere in the file without changing the result |
| Disk.DiskLineRoundTrip | src/disk.rs:32-50 | a listed device's line, with its sector counts written in fields 5 and 9, adds 512 bytes per sector read and per sector written |
| PulseAudio.AfterMute | src/pulseaudio.rs:18-19 | the examined text is what follows the first `Mute: `: the text before it, the key and the rest give the output back |
| PulseAudio.MuteWord | src/pulseaudio.rs:21-30 | muted if and only if the text starts with `yes`; unmuted if and only if it starts with `no` (and not `yes`); anything else is `UnknownMuteValue` |
| PulseAudio.VolumeOf | src/pulseaudio.rs:31-38 | without `%` the result is `NoPercent`; without a space before it, `NoSpace`; a volume is the `u8` parse of the text between the last space before the first `%` and that `%` |
| PulseAudio.SinkStateOf | src/pulseaudio.rs:18-38 | without `Mute: ` the result is `NoMuteField` (and only then); an unknown mute word is rejected before the volume; muted if and only if the text after the key starts with `yes`; the volume is `VolumeOf` of that text |
| PulseAudio.GetSinkState | src/pulseaudio.rs:9-40 | the default state with its fields set in turn while the slice narrows computes `SinkStateOf` |
| PulseAudio.MuteWordOf | src/pulseaudio.rs:21-24 | `yes` or `no`, whatever follows it, gives the mute flag |
| PulseAudio.VolumeField | src/pulseaudio.rs:31-38 | text without `%`, a space, digits and `%` gives the parse of those digits, or `BadVolume` |
| PulseAudio.AfterFirstMute | src/pulseaudio.rs:18-19 | text after the first `Mute: ` never moves that occurrence and is exactly what is examined |
| PulseAudio.SinkAfterFirstMute | src/pulseaudio.rs:18-38 | the result depends only on the text after the first `Mute: ` |
| PulseAudio.SinkOfLine | src/pulseaudio.rs:18-39 | output whose first `Mute: ` is followed by `yes` or `no`, then text without `%`, a space, digits and `%`, gives that flag and the digits' `u8` parse, or `BadVolume` |
| PulseAudio.SinkRoundTrip | src/pulseaudio.rs:18-39 | output whose first `Mute: ` is followed by `yes` or `no` and, before any `%`, by a space and `v%` gives exactly that flag and volume `v`, whatever else the output holds |
| PulseAudio.NoMuteKey | src/pulseaudio.rs:18 | output without `Mute: ` is rejected |
| PulseAudio.UnknownMuteWord | src/pulseaudio.rs:25-29 | a mute word other than `yes` or `no` is rejected before the volume is looked at |
| PulseAudio.VolumeTooLarge | src/pulseaudio.rs:38 | a volume figure above 255 does not fit a `u8` and is rejected |
| LightVolBat.BrightnessIcon | src/bin/light-vol-bat.rs:15-22 | a brightness above 100 panics (and only that); any other value gets one of the five moon phases |
| LightVolBat.BrightnessBands | src/bin/light-vol-bat.rs:15-20 | 0–19, 20–39, 40–59, 60–79 and 80–100 get the new, waning crescent, last quarter, waning gibbous and full moon, and the five icons differ |
| LightVolBat.BrightnessMonotone | src/bin/light-vol-bat.rs:15-20 | more light never shows a darker moon |
| LightVolBat.ShownValueReadsBack | src/bin/light-vol-bat.rs:23 | `icon + " " + value + "%"` with a one-character icon starts with the icon and a space, ends with `%`, and the text between parses back to the value |
| LightVolBat.ShowBrightness | src/bin/light-vol-bat.rs:13-24 | fails if and only if the brightness is above 100; otherwise the text is the icon, a space, a number that reads back as the brightness, and `%` |
| LightVolBat.VolumeIcon | src/bin/light-vol-bat.rs:28-36 | the icon is one character, and it is the muted speaker if and only if the sink is muted |
| LightVolBat.VolumeBands | src/bin/light-vol-bat.rs:31-35 | unmuted, 0–35 gives the low speaker, 36–70 the medium one and 71–255 the high one, each if and only if |
| LightVolBat.VolumeMonotone | src/bin/light-vol-bat.rs:31-35 | an unmuted louder sink never shows fewer sound waves |
| LightVolBat.MutedIgnoresVolume | src/bin/light-vol-bat.rs:28-29 | every muted sink shows the muted speaker, whatever its volume |
| LightVolBat.ShowVolume | src/bin/light-vol-bat.rs:26-38 | the text is the icon, a space, a number that reads back as the volume (also when muted), and `%` |

## Left out

- D-Bus transport: the session `Connection` and the two proxies (`src/bin/keyboard.rs:45-47`, `src/fcitx.rs:43-62`) are not modelled. Each call's reply is a `Result` input, and a failed call whose result `main` propagates with `?` becomes `Bus(cause)`.
- The `zvariant` signature of `InputMethod` (`src/fcitx.rs:37-41`) is serialisation glue and is left out. So is display formatting, both the `FcitxNotFound` message text and the panic messages: an error is only its variant.
- `src/fcitx/dbus_interface.rs`, `src/fcitx/mod.rs` and `src/fcitx/error.rs` are not part of this model. The first is largely commented out, and the other two are thin wrappers.
- File, directory and process I/O are inputs, and their failures are not modelled:
  - `read_lines` of `/proc/meminfo`, `/proc/stat` and `/proc/diskstats`;
  - `read_dir` of `/sys/class/leds` and `/sys/block`, with their `unwrap`/`expect` on metadata and file names;
  - `read_to_string` of the LED `brightness` files, whose failure is the `None` input;
  - the `pactl` `Command` and its UTF-8 decoding.
- Text is `seq<char>`, where Rust indexes bytes, so an index the model finds (`Find`, for example) differs from Rust's once non-ASCII text precedes the match: for `é Mute: no` the model finds `Mute:` at 2 and `str::find` at 3. Every pattern the code searches for or slices at is ASCII, so each slice cuts out the same characters, and every extracted substring and every result agrees. Invalid UTF-8 is not modelled.
- `get_brightness` (`src/brightness.rs`) is not modelled. Its floating-point percentage and saturating cast are left out, and the brightness is a `u8` input to `show_brightness`.
- The battery field, the `humanize`/`format_value` helpers and the percentages of the `resources` binary are left out. They are floating-point formatting.
- `print!`/`println!` are not modelled: a shown field is the string it would print. `flush_and_sleep` and the 50 ms polling delay are left out, as is the dispatch on command-line arguments in `src/main.rs`.
- The threads, the channel and the `notify` watcher of `light-vol-bat` are concurrency and are left out.
- `src/bin/wallpaper.rs` is not modelled: it is a directory walk, a random choice and a `feh` subprocess.
- Keyboard.RunIndicator: the program's loop never ends on its own. The model runs it over a finite sequence of ticks and reports whether it was still running after them.
- Cpu.UsageOf: does not model `u64` overflow of the sums. It would panic in a debug build and wrap around in a release build; kernel counters stay far below it.
- Cpu.AsWrittenUsage: does not model `u64` overflow of the sums, for the same reason.
- Disk.GetDiskIo: does not model `usize` overflow of `sectors * 512` or of the running sums, for the same reason. The final `as u64` cast is the identity on the 64-bit targets modelled.
- Disk.ScanPermutation: is stated for files whose lines are all well formed. With a malformed line, which panic is reported depends on the order.

## Findings

| source | as written | input that shows it | evidently intended | confidence | as-written member | corrected member |
|---|---|---|---|---|---|---|
| src/cpu.rs:18-19 | `irq` and `softirq` both parse `parts[5]`, the iowait field, so the total counts iowait three times and omits irq and softirq; a `cpu` line with only five times is accepted | the line `cpu 0 0 0 0 1 0 0` gives a total of 3 jiffies, where the line holds 1 | `irq` from `parts[6]` and `softirq` from `parts[7]`, so the total is the sum of the seven times | not executed | Cpu.AsWrittenScan, Cpu.AsWrittenUsage, Cpu.IrqReadsIowaitScan, Cpu.ShortCpuLineAccepted | Cpu.CpuScan, Cpu.UsageOf |
