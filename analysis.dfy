/** The analysers of devices.py (`_health`, `_lifetime`, `_runtime`, `_size`,
    `_rotation`, `_written` and the `analyse` dispatch): each is a function of
    the device name and the five fields a fetch leaves behind. */
module DeviceAnalysis {
  import opened Text
  import opened PyValues
  import opened SmartctlParser

  // ATA attribute IDs (the keys of `smart_data` for `sd` disks)
  const ReallocatedSectorCt := "5"
  const PowerOnHoursId := "9"
  const EraseFailCount := "172"
  const WearLevelingCount173 := "173"
  const WearLevelingCount := "177"
  const UsedReserveBlockCount := "179"
  const CurrentPendingSector := "197"
  const UdmaCrcErrorCount := "199"
  const CrucialLifetime := "202"
  const OczRemainingLifetime := "209"
  const TotalLbasWritten := "241"

  // NVMe SMART / Health Information labels (the keys of `smart_data` for `nvme`)
  const CriticalWarning := "Critical Warning"
  const WarningTempTime := "Warning  Comp. Temperature Time"
  const MediaErrors := "Media and Data Integrity Errors"
  const PercentageUsed := "Percentage Used"
  const PowerOnHours := "Power On Hours"
  const DataUnitsWritten := "Data Units Written"

  // Information-section labels (the keys of `smart_info`)
  const SupportField := "SMART support is"
  const TotalNvmCapacity := "Total NVM Capacity"
  const UserCapacity := "User Capacity"
  const RotationRate := "Rotation Rate"

  const Dsbld := "DSBLD"
  const Passed := "PASSED"
  const Udma := "UDMA"

  /** `int(smart_data[id]['raw_value'])`: the raw value is a digit string,
      so Python's `int` reads it without error. */
  function Raw(data: map<string, SmartEntry>, id: string): (r: nat)
    requires AtaRows(data) && id in data
    ensures Int(data[id].row.rawValue) == Ok(r)
  {
    ParseDigits(data[id].row.rawValue);
    DigitsValue(data[id].row.rawValue)
  }

  /** The raw value of an attribute, 0 when the attribute is absent. */
  function RawOrZero(data: map<string, SmartEntry>, id: string): nat
    requires AtaRows(data)
  {
    if id in data then Raw(data, id) else 0
  }

  // ---------------------------------------------------------------------
  // _health

  /** The sum of reallocated (5) and pending (197) sectors, plus erase
      failures (172) on Crucial drives. */
  function SectorSum(c: Capture): nat
    requires AtaRows(c.data)
  {
    RawOrZero(c.data, ReallocatedSectorCt) + RawOrZero(c.data, CurrentPendingSector)
    + (if Contains(c.vendorModel, "crucial") then RawOrZero(c.data, EraseFailCount) else 0)
  }

  /** The `sd` branch: a `Disabled` support field forces `DSBLD`; a `PASSED`
      verdict turns into `UDMA` at 500 or more CRC errors, and into the
      sector sum when that is positive. */
  function AtaHealth(c: Capture): string
    requires AtaRows(c.data)
  {
    var health := if SupportField in c.info && c.info[SupportField] == "Disabled" then Dsbld else c.health;
    if health != Passed then health
    else
      var udma := if UdmaCrcErrorCount in c.data && Raw(c.data, UdmaCrcErrorCount) >= 500 then Udma else health;
      var sum := SectorSum(c);
      if sum > 0 then NatToString(sum) else udma
  }

  /** The `nvme` branch: a critical warning, then a temperature warning
      time, then a positive media-error count. The `TEMP W` test repeats the
      `TEMP E` test, so it is never reached. */
  function NvmeHealth(c: Capture): (r: Outcome<string>)
    requires NvmeFields(c.data)
    ensures r.Raises? ==> r.error == ValueError
  {
    if CriticalWarning in c.data && c.data[CriticalWarning].text != "0x00" then Ok("WARN")
    else if WarningTempTime in c.data && c.data[WarningTempTime].text != "0" then Ok("TEMP E")
    else if WarningTempTime in c.data && c.data[WarningTempTime].text != "0" then Ok("TEMP W")
    else if MediaErrors in c.data then
      var n :- Int(c.data[MediaErrors].text);
      Ok(if n > 0 then IntToString(n) else c.health)
    else Ok(c.health)
  }

  /** `_health`: the displayed SMART verdict; only `int()` of a NVMe count can raise. */
  function Health(name: string, c: Capture): (r: Outcome<string>)
    requires WellFormed(name, c)
    ensures r.Raises? ==> r.error == ValueError && StartsWith(name, "nvme")
  {
    if c.support == "Disabled" then Ok(Dsbld)
    else if StartsWith(name, "sd") then
      ClassPrefixesDisjoint(name);
      Ok(AtaHealth(c))
    else if StartsWith(name, "nvme") then NvmeHealth(c)
    else Ok(c.health)
  }

  // ---------------------------------------------------------------------
  // _lifetime

  /** `int()` of the normalised value of the wear-levelling attribute, 177
      before 173; `None` when both are absent. */
  function WearValue(data: map<string, SmartEntry>): (r: Outcome<Option<int>>)
    requires AtaRows(data)
    ensures r.Raises? ==> r.error == ValueError
    ensures "177" in data ==>
      if Int(data["177"].row.value).Ok? then r == Ok(Some(Int(data["177"].row.value).value))
      else r == Raises(ValueError)
    ensures "177" !in data && "173" in data ==>
      if Int(data["173"].row.value).Ok? then r == Ok(Some(Int(data["173"].row.value).value))
      else r == Raises(ValueError)
    ensures "177" !in data && "173" !in data ==> r == Ok(None)
  {
    if WearLevelingCount in data then
      var w :- Int(data[WearLevelingCount].row.value);
      Ok(Some(w))
    else if WearLevelingCount173 in data then
      var w :- Int(data[WearLevelingCount173].row.value);
      Ok(Some(w))
    else Ok(None)
  }

  /** Samsung: the wear value, lowered to the used-reserve raw value (179)
      when that is present; a zero or missing wear value gives 179 alone. */
  function SamsungLifetime(data: map<string, SmartEntry>): (r: Outcome<Option<int>>)
    requires AtaRows(data)
    ensures r.Raises? ==> r.error == ValueError
  {
    var wear :- WearValue(data);
    if UsedReserveBlockCount in data then
      var reserve := Raw(data, UsedReserveBlockCount);
      if wear.Some? && wear.value != 0 then
        Ok(Some(if wear.value > reserve then reserve else wear.value))
      else Ok(Some(reserve))
    else Ok(wear)
  }

  /** `_lifetime`: the remaining life in percent, or `None`. */
  function Lifetime(name: string, c: Capture): (r: Outcome<Option<int>>)
    requires WellFormed(name, c)
    ensures r.Raises? ==> r.error == ValueError
  {
    if StartsWith(name, "nvme") then
      if PercentageUsed in c.data then
        var used :- Int(Before(c.data[PercentageUsed].text, "%"));
        Ok(Some(100 - used))
      else Ok(None)
    else if StartsWith(name, "sd") then
      if Contains(c.vendorModel, "samsung") then SamsungLifetime(c.data)
      else if Contains(c.vendorModel, "crucial") then
        Ok(if CrucialLifetime in c.data then Some(Raw(c.data, CrucialLifetime)) else None)
      else if Contains(c.vendorModel, "ocz") then
        Ok(if OczRemainingLifetime in c.data then Some(Raw(c.data, OczRemainingLifetime)) else None)
      else Ok(None)
    else Ok(None)
  }

  // ---------------------------------------------------------------------
  // _runtime

  /** The text for a non-zero number of power-on hours: `1 hour` or
      `N hours` below a day, then days below a year, then years. */
  function RuntimeText(hours: int): PyValue
    requires hours != 0
  {
    if hours < 24 then PyStr(if hours == 1 then "1 hour" else IntToString(hours) + " hours")
    else if hours < 365 * 24 then PyDuration(Days, hours)
    else PyDuration(Years, hours)
  }

  /** The power-on hours: attribute 9 for `sd`, `Power On Hours` for `nvme`,
      `None` (Python's `False`) otherwise. */
  function PowerOnHoursOf(name: string, c: Capture): (r: Outcome<Option<int>>)
    requires WellFormed(name, c)
    ensures r.Raises? ==> r.error == ValueError
  {
    if StartsWith(name, "sd") && PowerOnHoursId in c.data then
      ClassPrefixesDisjoint(name);
      Ok(Some(Raw(c.data, PowerOnHoursId)))
    else if StartsWith(name, "nvme") && PowerOnHours in c.data then
      var h :- Int(c.data[PowerOnHours].text);
      Ok(Some(h))
    else Ok(None)
  }

  /** `_runtime`: `False` without a reading, `0` for zero hours, the runtime
      text otherwise. */
  function Runtime(name: string, c: Capture): (r: Outcome<PyValue>)
    requires WellFormed(name, c)
    ensures r.Raises? ==> r.error == ValueError
  {
    var hours :- PowerOnHoursOf(name, c);
    match hours
    case None => Ok(PyFalse)
    case Some(h) => Ok(if h == 0 then PyInt(0) else RuntimeText(h))
  }

  // ---------------------------------------------------------------------
  // _size, _rotation, _written

  predicate IsDigitOrDot(ch: char) { IsDigit(ch) || ch == '.' }

  /** The number at the front of `s`: after any leading whitespace, the run
      of digits and dots (possibly empty, as the search always matches). */
  function NumberPrefix(s: string): (r: string)
    ensures StartsWith(TrimLeft(s), r)
    ensures forall i :: 0 <= i < |r| ==> IsDigitOrDot(r[i])
    ensures |r| < |TrimLeft(s)| ==> !IsDigitOrDot(TrimLeft(s)[|r|])
  {
    TakeWhile(TrimLeft(s), IsDigitOrDot)
  }

  /** The capacity text `_size` reads: `Total NVM Capacity` before `User
      Capacity`, empty when neither is present. */
  function CapacityText(c: Capture): string {
    if TotalNvmCapacity in c.info then c.info[TotalNvmCapacity]
    else if UserCapacity in c.info then c.info[UserCapacity]
    else ""
  }

  /** `_size`: the capacity text without dots and commas, cut to its leading
      number; `None` exactly for a missing or empty capacity. */
  function Size(c: Capture): (r: Option<string>)
    ensures r.None? <==> CapacityText(c) == ""
    ensures r.Some? ==> IsDigits(r.value)
  {
    var raw := CapacityText(c);
    if raw == "" then None
    else
      var digits := NumberPrefix(Remove(Remove(raw, '.'), ','));
      assert '.' !in digits by {
        assert StartsWith(TrimLeft(Remove(Remove(raw, '.'), ',')), digits);
        RemoveNoDot(Remove(raw, '.'), ',');
      }
      Some(digits)
  }

  /** Removing a further character keeps a text free of dots. */
  lemma {:induction false} RemoveNoDot(s: string, c: char)
    requires '.' !in s
    ensures '.' !in Remove(s, c)
  {
    if s != [] {
      assert '.' !in s[1..];
      RemoveNoDot(s[1..], c);
    }
  }

  /** `_rotation`: `NVME` for NVMe names, `SSD` for a solid-state rotation
      rate, the text before ` rpm` for a spinning disk, `None` (Python's
      `False`) otherwise. */
  function Rotation(name: string, c: Capture): (r: Option<string>)
    ensures StartsWith(name, "nvme") ==> r == Some("NVME")
    ensures !StartsWith(name, "nvme") && r.Some? ==> RotationRate in c.info
    ensures !StartsWith(name, "nvme") && RotationRate in c.info ==>
      var rate := c.info[RotationRate];
      && (rate == "Solid State Device" ==> r == Some("SSD"))
      && (rate != "Solid State Device" && Contains(rate, " rpm") ==>
            r.Some? && StartsWith(rate, r.value + " rpm") && !Contains(r.value, " rpm"))
      && (rate != "Solid State Device" && !Contains(rate, " rpm") ==> r.None?)
  {
    if StartsWith(name, "nvme") then Some("NVME")
    else if RotationRate in c.info then
      var rate := c.info[RotationRate];
      if rate == "Solid State Device" then Some("SSD")
      else if Contains(rate, " rpm") then
        BeforeSep(rate, " rpm");
        Some(Before(rate, " rpm"))
      else None
    else None
  }

  /** `_written`: the raw Total_LBAs_Written (241) for `sd`, the leading
      number of `Data Units Written` for `nvme`, `None` otherwise. */
  function Written(name: string, c: Capture): (r: Option<string>)
    requires WellFormed(name, c)
    ensures StartsWith(name, "sd") ==>
      && (r.Some? <==> TotalLbasWritten in c.data)
      && (r.Some? ==> c.data[TotalLbasWritten].Row? && r.value == c.data[TotalLbasWritten].row.rawValue && r.value != [] && IsDigits(r.value))
    ensures StartsWith(name, "nvme") ==>
      && (r.Some? <==> DataUnitsWritten in c.data)
      && (r.Some? ==> StartsWith(TrimLeft(c.data[DataUnitsWritten].text), r.value))
    ensures !StartsWith(name, "sd") && !StartsWith(name, "nvme") ==> r.None?
  {
    if StartsWith(name, "sd") then
      ClassPrefixesDisjoint(name);
      if TotalLbasWritten in c.data then Some(c.data[TotalLbasWritten].row.rawValue) else None
    else if StartsWith(name, "nvme") then
      if DataUnitsWritten in c.data then Some(NumberPrefix(c.data[DataUnitsWritten].text)) else None
    else None
  }

  // ---------------------------------------------------------------------
  // analyse

  const Modes := ["lifetime", "runtime", "rotation", "size", "health", "written"]

  /** A text analyser's result as Python sees it: the text, or `None`. */
  function StrOrNone(v: Option<string>): PyValue {
    match v
    case None => PyNone
    case Some(s) => PyStr(s)
  }

  /** `_lifetime`'s result: the percentage, or `None`. */
  function IntOrNone(v: Option<int>): PyValue {
    match v
    case None => PyNone
    case Some(i) => PyInt(i)
  }

  /** `_rotation`'s result: the text, or `False`. */
  function StrOrFalse(v: Option<string>): PyValue {
    match v
    case None => PyFalse
    case Some(s) => PyStr(s)
  }

  /** `analyse(mode)`: one of the six analysers as a Python value; any other
      mode raises AttributeError. */
  function Analyse(name: string, c: Capture, mode: string): (r: Outcome<PyValue>)
    requires WellFormed(name, c)
    ensures r == Raises(AttributeError) <==> mode !in Modes
    ensures mode in Modes && r.Raises? ==> r.error == ValueError
    ensures mode == "lifetime" ==>
      if Lifetime(name, c).Ok? then r == Ok(IntOrNone(Lifetime(name, c).value)) else r.Raises?
    ensures mode == "runtime" ==> r == Runtime(name, c)
    ensures mode == "rotation" ==> r == Ok(StrOrFalse(Rotation(name, c)))
    ensures mode == "size" ==> r == Ok(StrOrNone(Size(c)))
    ensures mode == "health" ==>
      if Health(name, c).Ok? then r == Ok(PyStr(Health(name, c).value)) else r.Raises?
    ensures mode == "written" ==> r == Ok(StrOrNone(Written(name, c)))
  {
    if mode == "lifetime" then
      var l :- Lifetime(name, c);
      Ok(IntOrNone(l))
    else if mode == "runtime" then Runtime(name, c)
    else if mode == "rotation" then Ok(StrOrFalse(Rotation(name, c)))
    else if mode == "size" then Ok(StrOrNone(Size(c)))
    else if mode == "health" then
      var h :- Health(name, c);
      Ok(PyStr(h))
    else if mode == "written" then Ok(StrOrNone(Written(name, c)))
    else Raises(AttributeError)
  }

  // ---------------------------------------------------------------------
  // Properties

  /** Disabled SMART support yields `DSBLD`, whatever attributes are present. */
  lemma DisabledSupportGivesDsbld(name: string, c: Capture)
    requires WellFormed(name, c) && c.support == "Disabled"
    ensures Health(name, c) == Ok(Dsbld)
  {
  }

  /** A sector count rendered by `str` is never one of the verdict words. */
  lemma CountIsNotAWord(n: nat)
    ensures NatToString(n) != Udma && NatToString(n) != Passed && NatToString(n) != "TEMP W"
  {
    var s := NatToString(n);
    assert IsDigit(s[0]);
  }

  /** `sd` health when the captured verdict is `PASSED`: `UDMA` exactly when
      attribute 199 has 500 or more errors and no sectors are counted; a
      positive sector sum is shown as its decimal text, which reads back as
      the sum; otherwise `PASSED` stays. */
  lemma AtaPassedHealth(name: string, c: Capture)
    requires WellFormed(name, c) && StartsWith(name, "sd")
    requires c.support != "Disabled" && c.health == Passed
    requires !(SupportField in c.info && c.info[SupportField] == "Disabled")
    ensures !StartsWith(name, "nvme")
    ensures Health(name, c) == Ok(Udma) <==>
      UdmaCrcErrorCount in c.data && Raw(c.data, UdmaCrcErrorCount) >= 500 && SectorSum(c) == 0
    ensures SectorSum(c) > 0 ==> Health(name, c).Ok? && ParseInt(Health(name, c).value) == Some(SectorSum(c))
    ensures Health(name, c) == Ok(Passed) <==>
      SectorSum(c) == 0 && !(UdmaCrcErrorCount in c.data && Raw(c.data, UdmaCrcErrorCount) >= 500)
  {
    ClassPrefixesDisjoint(name);
    var sum := SectorSum(c);
    CountIsNotAWord(sum);
    if sum > 0 {
      NatToStringRoundTrip(sum);
      ParseDigits(NatToString(sum));
    }
  }

  /** `sd` health for any verdict other than `PASSED` (after a `Disabled`
      support field has forced `DSBLD`) is that verdict, unchanged. */
  lemma AtaOtherVerdictKept(name: string, c: Capture)
    requires WellFormed(name, c) && StartsWith(name, "sd") && c.support != "Disabled"
    requires var h := if SupportField in c.info && c.info[SupportField] == "Disabled" then Dsbld else c.health;
      h != Passed
    ensures Health(name, c) ==
      Ok(if SupportField in c.info && c.info[SupportField] == "Disabled" then Dsbld else c.health)
  {
    ClassPrefixesDisjoint(name);
  }

  /** `nvme` health: a critical warning wins, then the temperature warning
      time (`TEMP E`); `TEMP W` is only ever the captured verdict itself; a
      positive media-error count is shown as a text that reads back as it. */
  lemma NvmeHealthPriority(name: string, c: Capture)
    requires WellFormed(name, c) && StartsWith(name, "nvme") && c.support != "Disabled"
    ensures CriticalWarning in c.data && c.data[CriticalWarning].text != "0x00" ==>
      Health(name, c) == Ok("WARN")
    ensures (!(CriticalWarning in c.data && c.data[CriticalWarning].text != "0x00")
             && WarningTempTime in c.data && c.data[WarningTempTime].text != "0") ==>
      Health(name, c) == Ok("TEMP E")
    ensures Health(name, c) == Ok("TEMP W") ==> c.health == "TEMP W"
    ensures (Health(name, c).Ok? && Health(name, c).value != c.health
             && Health(name, c).value != "WARN" && Health(name, c).value != "TEMP E") ==>
      MediaErrors in c.data && ParseInt(c.data[MediaErrors].text).Some?
      && ParseInt(c.data[MediaErrors].text).value > 0
      && ParseInt(Health(name, c).value) == ParseInt(c.data[MediaErrors].text)
    ensures (!(CriticalWarning in c.data && c.data[CriticalWarning].text != "0x00")
             && !(WarningTempTime in c.data && c.data[WarningTempTime].text != "0")
             && "Media and Data Integrity Errors" in c.data) ==>
      var count := Int(c.data["Media and Data Integrity Errors"].text);
      && (count.Raises? ==> Health(name, c) == Raises(ValueError))
      && (count.Ok? && count.value > 0 ==> Health(name, c) == Ok(IntToString(count.value)))
      && (count.Ok? && count.value <= 0 ==> Health(name, c) == Ok(c.health))
  {
    ClassPrefixesDisjoint(name);
    assert Health(name, c) == NvmeHealth(c);
    if CriticalWarning in c.data && c.data[CriticalWarning].text != "0x00" {
    } else if WarningTempTime in c.data && c.data[WarningTempTime].text != "0" {
    } else if MediaErrors in c.data {
      match ParseInt(c.data[MediaErrors].text)
      case None =>
      case Some(n) =>
        assert NvmeHealth(c) == Ok(if n > 0 then IntToString(n) else c.health);
        if n > 0 {
          IntToStringRoundTrip(n);
          CountIsNotAWord(n);
        }
    }
  }

  /** NVMe lifetime: a `Percentage Used` of `N%...` gives `100 - N`. */
  lemma NvmeLifetimeFromPercentage(name: string, c: Capture, used: nat, rest: string)
    requires WellFormed(name, c) && StartsWith(name, "nvme")
    requires PercentageUsed in c.data && c.data[PercentageUsed].text == NatToString(used) + "%" + rest
    ensures Lifetime(name, c) == Ok(Some(100 - used))
  {
    var u := NatToString(used);
    assert '%' !in u;
    BeforeChar(u, '%', rest);
    assert Before(c.data[PercentageUsed].text, "%") == u by {
      assert "%" == ['%'];
    }
    assert Int(u) == Ok(used) by {
      NatToStringRoundTrip(used);
      ParseDigits(u);
    }
  }

  /** Samsung: with attribute 179 present the lifetime never exceeds its raw
      value, and equals it unless a non-zero wear value is smaller. */
  lemma SamsungClamp(name: string, c: Capture)
    requires StartsWith(name, "sd") && AtaRows(c.data) && Contains(c.vendorModel, "samsung")
    requires UsedReserveBlockCount in c.data && WearValue(c.data).Ok?
    ensures WellFormed(name, c)
    ensures Lifetime(name, c).Ok? && Lifetime(name, c).value.Some?
    ensures Lifetime(name, c).value.value <= Raw(c.data, UsedReserveBlockCount)
    ensures var w := WearValue(c.data).value;
      Lifetime(name, c).value.value ==
        if w.Some? && w.value != 0 && w.value < Raw(c.data, UsedReserveBlockCount) then w.value
        else Raw(c.data, UsedReserveBlockCount)
  {
    ClassPrefixesDisjoint(name);
    assert Lifetime(name, c) == SamsungLifetime(c.data);
    var w := WearValue(c.data).value;
    var reserve := Raw(c.data, UsedReserveBlockCount);
    assert SamsungLifetime(c.data) ==
      Ok(Some(if w.Some? && w.value != 0 then (if w.value > reserve then reserve else w.value) else reserve));
  }

  /** Samsung without attribute 179: the lifetime is the wear value itself. */
  lemma SamsungWearOnly(name: string, c: Capture)
    requires StartsWith(name, "sd") && AtaRows(c.data) && Contains(c.vendorModel, "samsung")
    requires "179" !in c.data
    ensures WellFormed(name, c)
    ensures Lifetime(name, c) == WearValue(c.data)
  {
    ClassPrefixesDisjoint(name);
  }

  /** Vendor precedence for `sd`: Samsung rules win over Crucial and OCZ,
      Crucial over OCZ. */
  lemma LifetimeVendorPrecedence(name: string, c: Capture)
    requires WellFormed(name, c) && StartsWith(name, "sd")
    ensures !StartsWith(name, "nvme")
    ensures Contains(c.vendorModel, "samsung") ==> Lifetime(name, c) == SamsungLifetime(c.data)
    ensures !Contains(c.vendorModel, "samsung") && Contains(c.vendorModel, "crucial") ==>
      Lifetime(name, c) == Ok(if CrucialLifetime in c.data then Some(Raw(c.data, CrucialLifetime)) else None)
    ensures !Contains(c.vendorModel, "samsung") && !Contains(c.vendorModel, "crucial") && Contains(c.vendorModel, "ocz") ==>
      Lifetime(name, c) == Ok(if OczRemainingLifetime in c.data then Some(Raw(c.data, OczRemainingLifetime)) else None)
    ensures !Contains(c.vendorModel, "samsung") && !Contains(c.vendorModel, "crucial") && !Contains(c.vendorModel, "ocz") ==>
      Lifetime(name, c) == Ok(None)
  {
    ClassPrefixesDisjoint(name);
  }

  /** Optical drives, virtual disks and memory cards have no lifetime,
      runtime or written count. */
  lemma OtherClassesHaveNoReadings(name: string, c: Capture)
    requires WellFormed(name, c) && !StartsWith(name, "sd") && !StartsWith(name, "nvme")
    ensures Lifetime(name, c) == Ok(None)
    ensures Runtime(name, c) == Ok(PyFalse)
    ensures Written(name, c) == None
  {
  }

  /** An NVMe `Power On Hours` reading with a thousands separator (`1,234`)
      is not an integer to `int()`: the runtime raises ValueError. */
  lemma GroupedHoursRaise(name: string, c: Capture, a: string, b: string)
    requires WellFormed(name, c) && StartsWith(name, "nvme")
    requires PowerOnHours in c.data && c.data[PowerOnHours] == Field(a + "," + b)
    requires a != [] && IsDigits(a) && b != [] && IsDigits(b)
    ensures Runtime(name, c) == Raises(ValueError)
  {
    ClassPrefixesDisjoint(name);
    ParseGrouped(a, b);
  }

  /** Below a day the runtime is `N hours` (or `1 hour`), and the number
      reads back as the hours. */
  lemma RuntimeHoursText(hours: int)
    requires 0 < hours < 24
    ensures RuntimeText(hours).PyStr?
    ensures ParseInt(Before(RuntimeText(hours).s, " ")) == Some(hours)
    ensures RuntimeText(hours).s == Before(RuntimeText(hours).s, " ") + (if hours == 1 then " hour" else " hours")
  {
    var d := NatToString(hours);
    var unit := if hours == 1 then "hour" else "hours";
    var text := d + [' '] + unit;
    assert ' ' !in d;
    assert RuntimeText(hours).s == text by {
      if hours == 1 {
        assert "1" == d;
      }
    }
    BeforeChar(d, ' ', unit);
    assert text == d + (if hours == 1 then " hour" else " hours");
    NatToStringRoundTrip(hours);
    ParseDigits(d);
  }

  /** `_runtime` reads attribute 9 on `sd` disks and `Power On Hours` on
      NVMe devices: no reading gives `False`, zero hours give `0`, and any
      other count its runtime text; an NVMe count that is no integer raises. */
  lemma RuntimeReading(name: string, c: Capture)
    requires WellFormed(name, c)
    ensures StartsWith(name, "sd") ==> !StartsWith(name, "nvme")
    ensures StartsWith(name, "sd") && "9" in c.data ==>
      var h := Raw(c.data, "9");
      Runtime(name, c) == Ok(if h == 0 then PyInt(0) else RuntimeText(h))
    ensures StartsWith(name, "sd") && "9" !in c.data ==> Runtime(name, c) == Ok(PyFalse)
    ensures StartsWith(name, "nvme") && "Power On Hours" in c.data ==>
      var h := Int(c.data["Power On Hours"].text);
      && (h.Raises? ==> Runtime(name, c) == Raises(ValueError))
      && (h.Ok? ==> Runtime(name, c) == Ok(if h.value == 0 then PyInt(0) else RuntimeText(h.value)))
    ensures StartsWith(name, "nvme") && "Power On Hours" !in c.data ==> Runtime(name, c) == Ok(PyFalse)
  {
    ClassPrefixesDisjoint(name);
  }

  /** A day or more of runtime is shown in days below a year of hours, and
      in years from there on. */
  lemma RuntimeLongBuckets(hours: int)
    requires hours >= 24
    ensures hours < 8760 ==> RuntimeText(hours) == PyDuration(Days, hours)
    ensures hours >= 8760 ==> RuntimeText(hours) == PyDuration(Years, hours)
  {
  }

  /** The size ignores `User Capacity` whenever `Total NVM Capacity` is present. */
  lemma SizePrefersNvmCapacity(c: Capture, other: string)
    requires TotalNvmCapacity in c.info
    ensures Size(c) == Size(c.(info := c.info[UserCapacity := other]))
  {
  }

  /** A capacity text written with thousands separators (`500,107,862,016
      bytes`), whichever field it comes from, reads as the full digit run. */
  lemma SizeReadsGroupedNumber(c: Capture, g: string, rest: string)
    requires CapacityText(c) == g + rest
    requires g != [] && IsDigit(g[0])
    requires forall i :: 0 <= i < |g| ==> IsDigit(g[i]) || g[i] == ',' || g[i] == '.'
    requires rest == [] || !(IsDigit(rest[0]) || rest[0] == ',' || rest[0] == '.')
    ensures Size(c) == Some(Remove(Remove(g, '.'), ','))
  {
    GroupedNumberPrefix(g, rest);
  }

  /** The number read from a grouped run followed by a non-number character. */
  lemma GroupedNumberPrefix(g: string, rest: string)
    requires g != [] && IsDigit(g[0])
    requires forall i :: 0 <= i < |g| ==> IsDigit(g[i]) || g[i] == ',' || g[i] == '.'
    requires rest == [] || !(IsDigit(rest[0]) || rest[0] == ',' || rest[0] == '.')
    ensures NumberPrefix(Remove(Remove(g + rest, '.'), ',')) == Remove(Remove(g, '.'), ',')
  {
    var gd := Remove(Remove(g, '.'), ',');
    var rd := Remove(Remove(rest, '.'), ',');
    RemoveConcat(g, rest, '.');
    RemoveConcat(Remove(g, '.'), Remove(rest, '.'), ',');
    assert Remove(Remove(g + rest, '.'), ',') == gd + rd;
    RemoveKeepsHead(g, '.');
    RemoveKeepsHead(Remove(g, '.'), ',');
    if rest != [] {
      RemoveKeepsHead(rest, '.');
      RemoveKeepsHead(Remove(rest, '.'), ',');
    }
    GroupedDigits(g);
    assert TrimLeft(gd + rd) == gd + rd;
    TakeWhileRun(gd, rd, IsDigitOrDot);
  }

  /** Without dots and commas, a run of digits, commas and dots is all digits. */
  lemma {:induction false} GroupedDigits(g: string)
    requires forall i :: 0 <= i < |g| ==> IsDigit(g[i]) || g[i] == ',' || g[i] == '.'
    ensures forall i :: 0 <= i < |Remove(Remove(g, '.'), ',')| ==> IsDigit(Remove(Remove(g, '.'), ',')[i])
  {
    if g != [] {
      GroupedDigits(g[1..]);
      assert g == [g[0]] + g[1..];
      RemoveConcat([g[0]], g[1..], '.');
      RemoveConcat(Remove([g[0]], '.'), Remove(g[1..], '.'), ',');
    }
  }

  /** NVMe `Data Units Written` is read up to the first character that is
      neither a digit nor a dot: with thousands commas
      (`15,112,784 [7.73 TB]`) only the first group (`15`) is kept. */
  lemma WrittenStopsAtSeparator(name: string, c: Capture, g: string, rest: string)
    requires WellFormed(name, c) && StartsWith(name, "nvme")
    requires DataUnitsWritten in c.data && c.data[DataUnitsWritten].text == g + rest
    requires g != [] && IsDigit(g[0]) && forall i :: 0 <= i < |g| ==> IsDigitOrDot(g[i])
    requires rest == [] || !IsDigitOrDot(rest[0])
    ensures Written(name, c) == Some(g)
  {
    ClassPrefixesDisjoint(name);
    TakeWhileRun(g, rest, IsDigitOrDot);
  }
}
