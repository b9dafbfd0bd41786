# baba in Dafny

baba lists the drives of a Linux machine with their S.M.A.R.T. state. It
makes one table row per block device. For each device it runs
`smartctl -a`, parses the text, and works out:

- vendor and model, serial number and firmware;
- size and runtime;
- data written, rotation rate and remaining lifetime;
- a one-word health verdict (`OK`, `DSBLD`, `UDMA`, a sector count, `USBB`,
  `TIMEOUT`, ...).

This project models the parts that decide what the row says:

- `devices.py`, the `Device` object:
  - `fetch_smart` resets its five fields and refills them from the `smartctl` text;
  - `analyse` dispatches to the six analysers `_lifetime`, `_health`, `_size`,
    `_rotation`, `_runtime` and `_written`.
- `baba.py`:
  - `grabber`, `short` and `valuechecker`, which combines a fetch with the analysers;
  - the colour bands of the lifetime column;
  - the device list: supported class prefixes, sorted by length then name, or the one device named on the command line.
- `smartvalues.py`, the older analyser:
  - a lazily filled `info` dict of regular-expression captures;
  - `smart_result`, which turns the dict into the ten display values.

Modules:

- `Text` (`text.dfy`) has the Python string operations the program uses:
  - `split`, `join`, `strip`, `lower`, `replace(c, '')`, `int()` and `str()` on
    ASCII text, each with its own round-trip or shape lemma.
- `PyValues` (`values.dfy`) has:
  - the Python values a cell can hold;
  - the exceptions that can escape, with an `Outcome` type that is either a value or a raised exception.
- `SmartctlParser` (`parser.dfy`) has the regular-expression searches of `fetch_smart`, written as functions on the text:
  - the support and health searches;
  - the multiline label scan (a label up to a colon, then its value), including the case where a blank value spills onto the next line;
  - the attribute-table rows;
  - the three section markers;
  - `Fetch`, the five fields as a function of the `smartctl` outcome.
- `Devices` (`devices.dfy`) is the `Device` class. `FetchSmart` updates its fields in place, in loops, and is proved to produce exactly `Fetch`.
- `DeviceAnalysis` (`analysis.dfy`) has the six analysers and `analyse` as functions of the captured fields.
- `Baba` (`baba.dfy`) has `grabber` as a loop proved against a reference function. It also has `short`, the report combination, the lifetime bands and the device list.
- `SmartValues` (`smartvalues.dfy`) has `smart_result` as a function of the `info` dict, and the lazily filled `Device` class.

Running `smartctl` is not modelled. Its outcome is a parameter: either the text it printed or a timeout. The directory listing of `/sys/block/` and the `-w` and `--device` options are parameters as well.

## Model

| member | source | states |
|---|---|---|
| Devices.LastComponent | devices.py:11 | the device name is the last `/`-separated component of the path |
| Devices.LastComponentIsSuffix | devices.py:11 | the name contains no `/` and ends the path; when the path has a `/`, the character just before the name is a `/` (so the name is everything after the last `/`); without a `/` the name is the whole path |
| Devices.Device.constructor | devices.py:9-19 | the path is kept, the name is its last component, and the five fields start empty, `UNKNOWN`, `UNKNOWN` and `''` |
| Devices.Device.FetchSmart | devices.py:21-85 | the fields after the call, and whether it ended in TimeoutExpired or IndexError or normally, are exactly `Fetch` of the `smartctl` outcome, and they satisfy the analysers' well-formedness |
| Devices.Device.FillSections | devices.py:50-82 | after the split, the health line replaces the verdict when present, and `smart_info`, `smart_data` and `vendor_model` are filled from the two sections; support is unchanged |
| Devices.Device.CollectInfo | devices.py:56-57 | the info loop leaves `smart_info` equal to the dict of the label matches, with later matches winning, and changes no other field |
| Devices.Device.CollectData | devices.py:59-71 | the attribute loop stores each row under its ID and changes no other field |
| Devices.Device.CollectFields | devices.py:73-75 | the NVMe loop stores each label match of the SMART section as text and changes no other field |
| Devices.Device.AppendVendorSignature | devices.py:77-82 | `vendor_model` becomes the lowercased Vendor, Model Family and Product fields, in that order |
| SmartctlParser.SearchSupport | devices.py:35-37 | a support match is `Enabled` or `Disabled` and occurs after a `SMART support is:` label |
| SmartctlParser.SearchHealth | devices.py:50-53 | a health match comes after one of the two health labels |
| SmartctlParser.SupportSearchSkips | devices.py:35 | the search is for the leftmost match: positions where the anchored pattern does not match are passed over |
| SmartctlParser.SupportFound | devices.py:35-37 | a `SMART support is:` label followed by whitespace and `Enabled` or `Disabled`, with no earlier match, gives that word; an earlier label followed by another word (smartctl first prints `SMART support is: Available`) does not stop the search |
| SmartctlParser.HealthSearchSkips | devices.py:50 | positions where the anchored health pattern does not match are passed over |
| SmartctlParser.LastNewlineBeforeTail | devices.py:50 | when the run ends with a newline and then a newline-free tail, the capture ends at that newline |
| SmartctlParser.HealthAtLabel | devices.py:50-53 | a health label, then a run of word, space, `-` and `!` characters whose last newline ends `status`, gives the stripped status |
| SmartctlParser.HealthFound | devices.py:50-53 | with no earlier match, a health label followed by such a run gives the stripped run up to its last newline, whatever newline-free words of the class follow it (smartctl puts a blank line and the next heading after the verdict) |
| SmartctlParser.LastNewline | devices.py:50 | the capture ends at the last newline of the character run, which is at index one or more, as the greedy `+` followed by `\n` requires |
| SmartctlParser.LastLabelColon | devices.py:56 | the label ends at the rightmost colon that is followed by whitespace, as the greedy `(.+)` requires |
| SmartctlParser.NextNonBlank | devices.py:56 | a blank value spills onto the next non-blank line, because `\s+` crosses newlines |
| SmartctlParser.Word | devices.py:60 | an attribute-table column is the leading run of non-space characters: it stops exactly at the first whitespace |
| SmartctlParser.WordRun | devices.py:60 | non-space characters followed by whitespace or the end are exactly the word |
| SmartctlParser.TokensCons | devices.py:60 | a word followed by whitespace is the first of the words |
| SmartctlParser.TokensOfWords | devices.py:60 | words written with single spaces between them are split back into the same words |
| SmartctlParser.AttributeRowAt | devices.py:60-71 | a matched attribute row has an all-digit ID and a non-empty all-digit raw value |
| SmartctlParser.AttributeRowAccepted | devices.py:60-71 | a line of ten words in the column classes, the tenth starting with a digit, is a row keyed by its ID, with the nine columns in order and the tenth word's leading digits as the raw value |
| SmartctlParser.AttributeRows | devices.py:60 | every row `findall` returns has an all-digit ID and raw value |
| SmartctlParser.RowsComeFromLines | devices.py:60 | every row comes from one line of the section |
| SmartctlParser.RowLineRecorded | devices.py:60-71 | the last attribute line with a given ID decides its row |
| SmartctlParser.AtaRowRecorded | devices.py:59-71 | on an `sd` disk with SMART enabled, an attribute line of the SMART section whose ID no later line repeats is the `smart_data` entry of that ID |
| SmartctlParser.CollectFields | devices.py:73-75 | storing the NVMe matches as text keeps the keys and wraps each value |
| SmartctlParser.NvmeFieldRecorded | devices.py:73-75 | on an `nvme` device, a label line of the SMART section whose label no later line repeats is stored in `smart_data` as that line's value |
| SmartctlParser.CollectKeys | devices.py:56-57 | a key is in the filled dict exactly when some match has that label |
| SmartctlParser.CollectLastWins | devices.py:56-57 | the value of the last match with a label is the one kept |
| SmartctlParser.CollectValues | devices.py:56-57 | every stored value comes from a match with that label |
| SmartctlParser.CollectConcat | devices.py:56-57 | filling from two runs of matches is the union of the two dicts, with the second winning |
| SmartctlParser.Fetch | devices.py:21-85 | a timeout leaves the reset fields, a missing section marker leaves only support and the USB-bridge verdict set, and a missing information marker raises IndexError |
| SmartctlParser.ClassPrefixesDisjoint | devices.py:42-48 | the `sd`, `sr` and `nvme` branches exclude one another |
| SmartctlParser.SmartDataWellFormed | devices.py:59-75 | NVMe entries are text, other entries are attribute rows with digit IDs and raw values, and an `sd` disk without enabled support gets no rows |
| SmartctlParser.FetchWellFormed | devices.py:21-85 | every fetch, completed or not, leaves `smart_data` in the shape the analysers read |
| SmartctlParser.AtaRowsNeedSupport | devices.py:59 | attribute rows are only read when support is `Enabled` |
| SmartctlParser.MissingMarkerKeepsDefaults | devices.py:43-48 | without the section marker, the tuple unpacking raises ValueError, which is swallowed, and info and data stay empty |
| SmartctlParser.RepeatedMarkerKeepsDefaults | devices.py:43-48 | a marker that occurs twice also makes the unpacking fail, and the fields keep their defaults |
| SmartctlParser.MissingInformationMarkerRaises | devices.py:44-45 | for `sr` devices or disabled support, a missing information marker raises IndexError |
| SmartctlParser.HealthLineOverridesUsbBridge | devices.py:39-53 | a health line replaces the `USBB` verdict, which is kept only without one |
| SmartctlParser.SignatureMentions | devices.py:77-82 | a word in a lowercased vendor field appears in `vendor_model` |
| SmartctlParser.SignatureIsLowercase | devices.py:77-82 | `vendor_model` has no upper-case letter |
| SmartctlParser.StepPlain | devices.py:56 | a line without a spilling label contributes at most its own match |
| SmartctlParser.MatchesComeFromLines | devices.py:56 | every match is the label and value of some line |
| SmartctlParser.LabelLineRecorded | devices.py:56-57 | the last line with a given label decides its value |
| SmartctlParser.InfoFieldRecorded | devices.py:56-57 | a field line of the information section ends up in `smart_info` |
| DeviceAnalysis.Raw | devices.py:123 | a raw value of a fetched row reads back with `int` as a natural number |
| DeviceAnalysis.Analyse | devices.py:87-101 | AttributeError is raised exactly for a mode that is not one of the six analyser names; each of the six names gives its analyser's value (a missing lifetime or size or written value as `None`, a missing rotation as `False`), and an analyser's ValueError is passed on |
| DeviceAnalysis.Health | devices.py:141-180 | only NVMe devices can raise, and only ValueError |
| DeviceAnalysis.DisabledSupportGivesDsbld | devices.py:145-150 | disabled support gives `DSBLD` |
| DeviceAnalysis.CountIsNotAWord | devices.py:177-178 | a sector count is never mistaken for `UDMA`, `PASSED` or `TEMP W` |
| DeviceAnalysis.AtaPassedHealth | devices.py:152-178 | from `PASSED`: `UDMA` exactly when there are 500 or more CRC errors and no sectors; a positive sector sum is shown as text that parses back to the sum; `PASSED` stays exactly when neither applies |
| DeviceAnalysis.AtaOtherVerdictKept | devices.py:148-152 | any verdict other than `PASSED` is kept, unless the info field says support is disabled |
| DeviceAnalysis.NvmeHealthPriority | devices.py:167-178 | a critical warning beats the temperature time, and `TEMP W` can only come from the fetched verdict because its branch repeats the previous test; with neither, a positive media-error count is shown as its text, a zero or negative one keeps the fetched verdict, and an unreadable one raises ValueError |
| DeviceAnalysis.Lifetime | devices.py:103-139 | only a ValueError can escape |
| DeviceAnalysis.NvmeLifetimeFromPercentage | devices.py:109-112 | an NVMe lifetime is 100 minus the number before `%` in Percentage Used |
| DeviceAnalysis.WearValue | devices.py:115-120 | the Samsung wear value is attribute 177's normalised value, else attribute 173's, else none; a value `int` cannot read raises ValueError |
| DeviceAnalysis.SamsungClamp | devices.py:115-129 | with attribute 179, a Samsung lifetime is at most its raw value; a zero or missing wear value is replaced by it |
| DeviceAnalysis.SamsungWearOnly | devices.py:115-129 | without attribute 179, a Samsung lifetime is the wear value itself |
| DeviceAnalysis.LifetimeVendorPrecedence | devices.py:114-137 | Samsung is checked first, then Crucial (attribute 202), then OCZ (attribute 209); any other `sd` drive has no lifetime |
| DeviceAnalysis.OtherClassesHaveNoReadings | devices.py:103-139 | devices that are neither `sd` nor `nvme` have no lifetime, runtime or written value |
| DeviceAnalysis.Runtime | devices.py:208-228 | only a ValueError from reading the hours can escape |
| DeviceAnalysis.RuntimeReading | devices.py:208-228 | an `sd` disk reads attribute 9's raw value and an `nvme` device `int` of its `Power On Hours` text; zero hours give `0`, other hours their runtime text; without the reading the runtime is `False`, and an unreadable NVMe reading raises ValueError |
| DeviceAnalysis.RuntimeHoursText | devices.py:217-222 | under a day the runtime is the hour count followed by ` hour` for one hour and ` hours` otherwise, and the count parses back |
| DeviceAnalysis.GroupedHoursRaise | devices.py:214-215 | an NVMe `Power On Hours` reading with a thousands separator, such as `1,234`, makes `int` raise ValueError |
| DeviceAnalysis.RuntimeLongBuckets | devices.py:223-226 | under 8760 hours it is days, and from 8760 hours it is years |
| DeviceAnalysis.NumberPrefix | devices.py:193 | the capture is the leading run of digits and dots of the text after its leading whitespace: it starts that text, holds only digits and dots, and stops at the first other character |
| DeviceAnalysis.Size | devices.py:182-196 | there is no size exactly when the capacity text is missing or empty; a size is all digits, since dots and commas are removed first |
| DeviceAnalysis.SizePrefersNvmCapacity | devices.py:186-190 | Total NVM Capacity takes precedence over User Capacity |
| DeviceAnalysis.SizeReadsGroupedNumber | devices.py:186-195 | a capacity such as `1,000,204,886,016 bytes [1.00 TB]`, from whichever field is chosen, reads as the digits of the grouped number |
| DeviceAnalysis.GroupedNumberPrefix | devices.py:193-195 | the prefix scan stops after the grouped number |
| DeviceAnalysis.GroupedDigits | devices.py:193 | a grouped number without its dots and commas is all digits |
| DeviceAnalysis.Rotation | devices.py:198-206 | `NVME` for NVMe names; otherwise `SSD` for a solid-state rate, the text before the first ` rpm` for a spinning disk, and `False` for any other rate or none |
| DeviceAnalysis.Written | devices.py:230-240 | on an `sd` disk there is a written value exactly when attribute 241 is present, and it is that row's raw digits; on an `nvme` device exactly when `Data Units Written` is present, and it is a prefix of that text after its leading whitespace; other devices have none |
| DeviceAnalysis.WrittenStopsAtSeparator | devices.py:235-240 | an NVMe `Data Units Written` of `15,112,784 [7.73 TB]` gives only `15`, because the pattern stops at the first comma |
| Baba.Present | baba.py:99-103 | a value is present exactly when some attribute name in the dict maps to it, and there are at most as many values as names |
| Baba.PresentCons | baba.py:99-103 | the values come in attribute order: the first attribute's value, when present, comes before the values of the rest |
| Baba.DropLeadingEmpty | baba.py:101-103 | empty values before the first non-empty one add no separator |
| Baba.Grabber | baba.py:97-106 | the loop returns the present values joined by spaces, with leading empties dropped, or `-` when that is empty |
| Baba.GrabDash | baba.py:104-106 | all values absent or empty gives `-`, and otherwise the first non-empty value starts the result |
| Baba.GrabStep | baba.py:101-103 | each value is appended after one space, once the text is non-empty |
| Baba.SliceIndex | baba.py:199 | Python slice bounds, including negative ones |
| Baba.ShortKeepsFittingText | baba.py:201-202 | a text that fits is unchanged |
| Baba.ShortTruncates | baba.py:196-199 | a longer text keeps its first and last `k` characters around `[..]`, and the result is `max_len` or one less long |
| Baba.ShortZeroWidthKeepsAll | baba.py:198-199 | with a width of 4 or 5 the half width is 0, `s[-0:]` is the whole text, and the result is longer than the input |
| Baba.ShortFitsWideColumns | baba.py:15-23 | every column wider than 6 characters is wide enough for `short` to fit it (the 6-wide Rpm and Life columns are not covered) |
| Baba.AnalysedDashes | baba.py:153-154 | a `False` or `0` runtime and a missing or empty rotation leave `-`; any other runtime or rotation is shown as it is |
| Baba.SmartCell | baba.py:146-147 | optical drives keep `-` as their verdict; other devices show `analyse('health')` |
| Baba.SizeCell | baba.py:149-151 | a size is shown as a byte count exactly when it is non-empty, and the count is its `int` |
| Baba.LifetimeCell | baba.py:155 | a missing or zero lifetime leaves `-` |
| Baba.WrittenCell | baba.py:157-166 | a falsy written value leaves `-`; otherwise the text before ` [` without dots is read by `int` and multiplied by the unit, and an unreadable text raises ValueError, the only exception |
| Baba.WrittenCellOf | baba.py:157-166 | a written value that is a run of digits and dots reads as its digits times the unit |
| Baba.Analysed | baba.py:132-166 | analysis raises only ValueError, and succeeds exactly when the health, runtime, lifetime and written conversions do |
| Baba.AnalysedCells | baba.py:143-166 | a successful report holds the grabbed model, serial and firmware, and each cell is its converter applied to the analyser's value |
| Baba.CheckValues | baba.py:109-166 | the report of a device path is the combination of its fetch |
| Baba.ValueChecker | baba.py:109-166 | the method builds a device, fetches once, and returns `CheckValues` |
| Baba.TimeoutSkipsAnalysis | baba.py:123-132 | a timeout gives `TIMEOUT` and `?` cells and skips every analyser |
| Baba.MissingInformationMarkerEscapes | baba.py:123-125 | the IndexError of a missing information marker is not caught |
| Baba.AtaWrittenScaling | baba.py:157-166 | a non-NVMe written count is scaled by 512, or 32000 with `-w` |
| Baba.NvmeWrittenScaling | baba.py:157-161 | an NVMe `Data Units Written` that starts with a run of digits and dots, grouped with dots or not, is shown as that run without dots times 512000 bytes |
| Baba.WrittenNumber | baba.py:159 | a run of digits and dots, with ` [` absent, reads after removing the dots as its digits |
| Baba.DotlessDigits | baba.py:159 | a run of digits and dots without its dots is all digits |
| Baba.BandThresholds | baba.py:290-297 | red exactly up to 45, yellow exactly above 45 and below 80, green exactly from 80 |
| Baba.BandMonotone | baba.py:286-297 | more remaining life never gives a worse colour |
| Baba.CellBand | baba.py:286 | `-` and `?` are not coloured, and a number gets its band |
| Baba.LexLessTransitive | baba.py:236 | Python string order is transitive |
| Baba.LexLessTotal | baba.py:236 | Python string order is total on distinct strings |
| Baba.KeyLeqTransitive | baba.py:236 | the `(len(x), x)` key order is transitive |
| Baba.KeyLeqTotal | baba.py:236 | the `(len(x), x)` key order is total |
| Baba.Insert | baba.py:236 | insertion keeps the list sorted by key and adds exactly one element |
| Baba.SortByKey | baba.py:236 | `sorted` returns a permutation of the listing ordered by `(len(x), x)` |
| Baba.KeepSupported | baba.py:236 | a name is kept exactly when it starts with a supported prefix, as often as it occurs |
| Baba.KeepSupportedSorted | baba.py:236 | filtering keeps the order |
| Baba.DeviceList | baba.py:235-236 | the list is sorted by key and holds exactly the supported names of the listing, each as often as in the listing |
| Baba.DevPathSelectsName | baba.py:230-232 | `/dev/<name>` on the command line selects `<name>` |
| SmartValues.ResultColumns | smartvalues.py:78-95 | in the result, family wins over vendor, model over product and firmware over revision, with `-` when both are missing; the serial is its capture or `-` |
| SmartValues.SplitAtFirstDot | smartvalues.py:99 | the text before the first dot is the first piece of the split |
| SmartValues.JoinedWithoutDotsRemoves | smartvalues.py:97-99 | `''.join(size.split('.'))` removes every dot |
| SmartValues.Size | smartvalues.py:97-99 | the size is the capture without dots, or `-` |
| SmartValues.Runtime | smartvalues.py:101-108 | `-` without a Power_On_Hours capture; with one, `N hours` under 24 hours, days under 8760 hours, years from 8760 hours, and ValueError when `int` cannot read it |
| SmartValues.RuntimeHours | smartvalues.py:103-104 | under a day the runtime is `N hours`, even for one hour, and `N` parses back |
| SmartValues.Rotation | smartvalues.py:110-115 | `-` without a capture, `SSD` for the solid-state text, the text before the first ` rpm` when there is one, and the capture itself otherwise |
| SmartValues.CounterReads | smartvalues.py:132-146 | a counter capture is read as `int` reads it; the `0` shortcut gives the same value |
| SmartValues.UdmaFlag | smartvalues.py:126-129 | only a CRC error capture can raise, and without one there is no flag |
| SmartValues.SectorSum | smartvalues.py:124-146 | only ValueError can escape |
| SmartValues.SmartStatus | smartvalues.py:117-158 | only ValueError can escape |
| SmartValues.SupportRules | smartvalues.py:117-158 | disabled support gives `DSBLD`, support without health gives `OK`, and without support a USB bridge gives `USBB`, else `-` |
| SmartValues.HealthOverrides | smartvalues.py:151-152 | a health verdict other than `PASSED` overrides everything |
| SmartValues.UdmaThreshold | smartvalues.py:126-129 | with no sectors counted, `UDMA` exactly when there are more than 2000 CRC errors |
| SmartValues.SectorSumShown | smartvalues.py:148-149 | a verdict that is neither `UDMA` nor `OK` under `PASSED` is the text of the positive sector sum, which parses back to it |
| SmartValues.SectorSumOverridesUdma | smartvalues.py:126-152 | under `PASSED`, a positive sector sum is shown as its text, even above 2000 CRC errors |
| SmartValues.SectorCountsShown | smartvalues.py:132-152 | under `PASSED` on a drive that is not Crucial, the reallocated and pending counts are added and a positive sum is shown |
| SmartValues.EraseFailOnlyForCrucial | smartvalues.py:132-146 | without the Crucial condition the sector sum ignores the erase capture, and with it a non-zero erase count is added |
| SmartValues.Lifetime | smartvalues.py:165-180 | only ValueError or TypeError can escape; a Samsung drive without a used-reserve capture gets its wear count, or `-` without one; a Crucial drive without a used-life capture gets its remaining-life capture, or `-`; a drive that is neither gets the OCZ bad-block capture when it is an OCZ drive that has one, and `-` otherwise |
| SmartValues.SamsungLifetimeIsMin | smartvalues.py:165-170 | a Samsung lifetime is the smaller of the wear and used-reserve values |
| SmartValues.LifetimeTypeErrors | smartvalues.py:165-177 | comparing the text `-` or a Crucial capture with a number raises TypeError |
| SmartValues.Result | smartvalues.py:67-191 | only ValueError or TypeError escape, and a runtime error is the one raised |
| SmartValues.Captured | smartvalues.py:52-56 | a pair is kept exactly when some pattern matched with that key, its value with trailing whitespace removed; at most one pair per pattern |
| SmartValues.CapturedCons | smartvalues.py:52-56 | pairs come in pattern order: the first pattern's pair, when it matched, comes before the pairs of the rest |
| SmartValues.Device.constructor | smartvalues.py:8-11 | the dict starts empty |
| SmartValues.Device.SmartAnalyse | smartvalues.py:52-56 | each capture is stored with trailing whitespace removed, over the existing dict, in pattern order |
| SmartValues.Device.SmartValues | smartvalues.py:58-61 | the text is analysed only while the dict is empty, so an existing dict is kept and returned |
| SmartValues.Device.SmartResultOf | smartvalues.py:63-65 | the same lazy fill as `smart_values`, then `Result` of the dict |

## Left out

- Running `smartctl` (`Popen`, `wait`, `read`) is left out. The outcome is a parameter: the printed text, or a timeout. The timeout value itself and `Device.info` in `devices.py` are not used by the model.
- Python regular expressions are modelled on ASCII text only. `\s`, `\w`, `\d`, `lower()` and `int()` recognise ASCII characters and no wider Unicode classes.
- Whitespace is the six characters space, `\t`, `\n`, `\v`, `\f` and `\r`. Python's `\s`, `split()` and `strip()` also treat `\x1c` to `\x1f` as whitespace; the model does not.
- `int()` is modelled as an optional sign and ASCII digits between whitespace. Python also accepts underscores between digits (`1_000`); the model rejects them.
- `Baba.ShortFitsWideColumns`: the Rpm and Life columns are 6 wide, so `short` gets a width of 5 and a half width of 0. A longer text is not fitted there: it is kept whole with `[..]` added (`Baba.ShortZeroWidthKeepsAll`).
- `SmartctlParser.AttributeRowAt` reads the attribute table one line at a time. The pattern at devices.py:60 is run with `findall` over the whole section, and its `\s*` and `\s+` cross newlines, so it can also match across lines. The self-test log line `    1        0        0  Not_testing` and the lines after it give keys such as `1` and `4`, and error-log lines give keys such as `40`. The model records none of these. None of them is an attribute ID that an analyser reads. The model also does not follow every backtracking path of the ten groups: a line whose words fit the column classes is accepted.
- The durations `'{:.1f} days'` and `'{:.1f} years'` use floating point. They are modelled as `PyDuration(unit, hours)` and are not formatted.
- `convert_bytes` uses floating point and the `--mib` option. Its result is modelled as `Bytes(count, precision)`.
- The `/sys/block` fallbacks at baba.py:168-179 are left out. They read files, so their `-` checks and `get_device_info_from_file` are not modelled.
- `Baba.ValueChecker`: its report is the one before those fallbacks.
- Left out because they are I/O or presentation: `colorize`, the header and row printing, the `value is None` substitution, argparse, the root check, `update_drivedb` and the `__main__` blocks.
- The `is {}` test at devices.py:104 is always false, so `_lifetime` never raises its `Exception`. The model has no such branch.
- `SmartValues.Device.SmartAnalyse`: the byte patterns of smartvalues.py:14-42 and their search over the `smartctl` output are not modelled. The method takes, for each pattern in order, the capture its search found or none.
- `SmartValues.SmartStatus`: its own contract only bounds the exception raised. The verdict rules are stated by the lemmas beside it.
