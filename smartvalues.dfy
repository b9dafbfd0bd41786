/** smartvalues.py, the earlier analyser: a flat `info` dict of regular
    expression captures, filled lazily, and `smart_result`, which turns it
    into the ten display values. */
module SmartValues {
  import opened Text
  import opened PyValues
  import opened SmartctlParser

  /** The dict `smart_result` returns. */
  datatype SmartResult = SmartResult(
    vendor: string, model: string, serial: string, firmware: string, size: string,
    runtime: PyValue, written: string, rotation: string, lifetime: PyValue, smart: string)

  /** The value of `first`, else of `second`, else `-`. */
  function Pick(info: map<string, string>, first: string, second: string): (r: string)
    ensures first in info ==> r == info[first]
    ensures first !in info && second in info ==> r == info[second]
    ensures first !in info && second !in info ==> r == "-"
  {
    if first in info then info[first] else if second in info then info[second] else "-"
  }

  /** `''.join(s.split('.'))`. */
  function JoinedWithoutDots(s: string): string {
    Join(Split(s, "."), "")
  }

  /** Text before the first dot holds none. */
  lemma NoDotBefore(s: string, i: nat)
    requires i <= |s|
    requires forall j :: 0 <= j < i ==> !OccursAt(s, ".", j)
    ensures '.' !in s[..i]
  {
    forall j | 0 <= j < i ensures s[j] != '.' {
      assert !OccursAt(s, ".", j);
      assert s[j..j + 1][0] == s[j];
    }
  }

  /** Removing the dots of `head.tail` when `head` has none. */
  lemma RemoveAfterFirstDot(head: string, tail: string)
    requires '.' !in head
    ensures Remove(head + "." + tail, '.') == head + Remove(tail, '.')
  {
    assert head + "." + tail == head + ("." + tail);
    RemoveConcat(head, "." + tail, '.');
    assert ("." + tail)[1..] == tail;
    RemoveAbsent(head, '.');
  }

  /** The dot found first splits off the first piece. */
  lemma SplitAtFirstDot(s: string, i: nat)
    requires IndexOf(s, ".") == Some(i)
    ensures JoinedWithoutDots(s) == s[..i] + JoinedWithoutDots(s[i + 1..])
  {
    var head := s[..i];
    var rest := Split(s[i + 1..], ".");
    SplitFirstPiece(s, i);
    JoinCons(head, rest, "");
    assert head + "" == head;
    calc {
      JoinedWithoutDots(s);
      Join([head] + rest, "");
      head + "" + Join(rest, "");
      head + JoinedWithoutDots(s[i + 1..]);
    }
  }

  lemma SplitFirstPiece(s: string, i: nat)
    requires IndexOf(s, ".") == Some(i)
    ensures Split(s, ".") == [s[..i]] + Split(s[i + 1..], ".")
  {
  }

  lemma DotAt(s: string, i: nat)
    requires i < |s| && OccursAt(s, ".", i)
    ensures s == s[..i] + "." + s[i + 1..]
  {
    assert s[i..i + 1] == ".";
    assert s[i] == '.';
  }

  /** Joining the pieces between dots removes every dot. */
  lemma {:induction false} JoinedWithoutDotsRemoves(s: string)
    ensures JoinedWithoutDots(s) == Remove(s, '.')
    decreases |s|
  {
    match IndexOf(s, ".")
    case None =>
      NoDotBefore(s, |s|);
      assert s[..|s|] == s;
      RemoveAbsent(s, '.');
    case Some(i) =>
      var head := s[..i];
      var tail := s[i + 1..];
      NoDotBefore(s, i);
      SplitAtFirstDot(s, i);
      JoinedWithoutDotsRemoves(tail);
      assert s == head + "." + tail by { DotAt(s, i); }
      RemoveAfterFirstDot(head, tail);
  }

  /** The size capture with its dots removed, `-` without one. */
  function Size(info: map<string, string>): (r: string)
    ensures "size" in info ==> r == Remove(info["size"], '.') && '.' !in r
    ensures "size" !in info ==> r == "-"
  {
    if "size" in info then
      JoinedWithoutDotsRemoves(info["size"]);
      JoinedWithoutDots(info["size"])
    else "-"
  }

  /** The runtime: `N hours` below a day (also for one hour), then days
      below a year of hours, then years; `-` without a capture. */
  function Runtime(info: map<string, string>): (r: Outcome<PyValue>)
    ensures r.Raises? ==> r.error == ValueError && "Power_On_Hours" in info
    ensures "Power_On_Hours" !in info ==> r == Ok(PyStr("-"))
    ensures "Power_On_Hours" in info ==>
      var hours := Int(info["Power_On_Hours"]);
      if hours.Raises? then r == Raises(ValueError)
      else if hours.value < 24 then r == Ok(PyStr(IntToString(hours.value) + " hours"))
      else if hours.value < 8760 then r == Ok(PyDuration(Days, hours.value))
      else r == Ok(PyDuration(Years, hours.value))
  {
    if "Power_On_Hours" in info then
      var hours :- Int(info["Power_On_Hours"]);
      Ok(if hours < 24 then PyStr(IntToString(hours) + " hours")
         else if hours < 365 * 24 then PyDuration(Days, hours)
         else PyDuration(Years, hours))
    else Ok(PyStr("-"))
  }

  /** The rotation: `SSD` for a solid-state device, the text before ` rpm`
      for a spinning disk, any other capture as it is, `-` without one. */
  function Rotation(info: map<string, string>): (r: string)
    ensures "rotation" !in info ==> r == "-"
    ensures "rotation" in info ==>
      var rate := info["rotation"];
      && (rate == "Solid State Device" ==> r == "SSD")
      && (rate != "Solid State Device" && Contains(rate, " rpm") ==>
            StartsWith(rate, r + " rpm") && !Contains(r, " rpm"))
      && (rate != "Solid State Device" && !Contains(rate, " rpm") ==> r == rate)
  {
    if "rotation" in info then
      var rotation := info["rotation"];
      if rotation == "Solid State Device" then "SSD"
      else if Contains(rotation, " rpm") then
        BeforeSep(rotation, " rpm");
        Before(rotation, " rpm")
      else rotation
    else "-"
  }

  /** A sector or error counter: a capture other than `0` is read with `int`,
      a missing or `0` capture counts nothing. */
  function Counter(info: map<string, string>, key: string): (r: Outcome<int>)
    ensures key !in info || info[key] == "0" ==> r == Ok(0)
    ensures key in info && info[key] != "0" ==> r == Int(info[key])
  {
    if key in info && info[key] != "0" then Int(info[key]) else Ok(0)
  }

  /** Whether the CRC error count is above 2000; no capture is no flag. */
  function UdmaFlag(info: map<string, string>): (r: Outcome<bool>)
    ensures r.Raises? ==> r.error == ValueError && "UDMA_CRC_Error_Count" in info
    ensures "UDMA_CRC_Error_Count" !in info ==> r == Ok(false)
  {
    if "UDMA_CRC_Error_Count" in info then
      var count :- Int(info["UDMA_CRC_Error_Count"]);
      Ok(count > 2000)
    else Ok(false)
  }

  /** The reallocated and pending sector counts, plus the erase failures of
      a Crucial drive. */
  function SectorSum(info: map<string, string>, crucial: bool): (r: Outcome<int>)
    ensures r.Raises? ==> r.error == ValueError
  {
    var reallocated :- Counter(info, "Reallocated_Sector_Ct");
    var pending :- Counter(info, "Current_Pending_Sector");
    var erase :- if crucial then Counter(info, "Erase_Fail_Count") else Ok(0);
    Ok(reallocated + pending + erase)
  }

  /** `'crucial' in ' '.join((vendor.lower(), model.lower()))`. */
  predicate CrucialDrive(vendor: string, model: string) {
    Contains(Lower(vendor) + " " + Lower(model), "crucial")
  }

  /** The SMART verdict: `DSBLD` for disabled support; with a health
      capture, `UDMA` above 2000 CRC errors, then a positive sector sum,
      then any verdict other than `PASSED`; `OK` with support but no health;
      without support `USBB` for a USB bridge, else `-`. */
  function SmartStatus(info: map<string, string>, vendor: string, model: string): (r: Outcome<string>)
    ensures r.Raises? ==> r.error == ValueError
  {
    if "support" in info then
      if info["support"] == "Disabled" then Ok("DSBLD")
      else if "health" in info then
        var health := info["health"];
        var udma :- UdmaFlag(info);
        var sum :- SectorSum(info, CrucialDrive(vendor, model));
        var smart := if sum > 0 then IntToString(sum) else if udma then "UDMA" else "OK";
        Ok(if health != "PASSED" then health else smart)
      else Ok("OK")
    else if "usbbridge" in info then Ok("USBB")
    else Ok("-")
  }

  /** The lifetime for the lowercased `vendor model` text: Samsung's wear
      value lowered to the used-reserve value, Crucial's remaining-life
      capture, OCZ's bad-block count, `-` otherwise. Comparing the text `-`
      or a Crucial capture with a number raises TypeError. */
  function Lifetime(info: map<string, string>, vendorModel: string): (r: Outcome<PyValue>)
    ensures r.Raises? ==> r.error == ValueError || r.error == TypeError
    ensures !Contains(vendorModel, "samsung") && !Contains(vendorModel, "crucial") ==>
      r == Ok(PyStr(if Contains(vendorModel, "ocz") && "Total_Bad_Block_Count" in info
                    then info["Total_Bad_Block_Count"] else "-"))
    ensures !Contains(vendorModel, "samsung") && Contains(vendorModel, "crucial") && "Percent_Lifetime_Used" !in info ==>
      r == Ok(PyStr(if "Remaining_lifetime_Perc" in info then info["Remaining_lifetime_Perc"] else "-"))
    ensures Contains(vendorModel, "samsung") && "Used_Reserve_Block_Count" !in info ==>
      if "Wear_Leveling_Count" !in info then r == Ok(PyStr("-"))
      else if Int(info["Wear_Leveling_Count"]).Ok? then r == Ok(PyInt(Int(info["Wear_Leveling_Count"]).value))
      else r == Raises(ValueError)
  {
    if Contains(vendorModel, "samsung") then
      var wear :- if "Wear_Leveling_Count" in info then
                    var w :- Int(info["Wear_Leveling_Count"]);
                    Ok(PyInt(w))
                  else Ok(PyStr("-"));
      if "Used_Reserve_Block_Count" in info then
        var reserve :- Int(info["Used_Reserve_Block_Count"]);
        if !wear.PyInt? then Raises(TypeError)
        else if wear.i > reserve then Ok(PyInt(reserve))
        else Ok(wear)
      else Ok(wear)
    else if Contains(vendorModel, "crucial") then
      var lifetime := if "Remaining_lifetime_Perc" in info then info["Remaining_lifetime_Perc"] else "-";
      if "Percent_Lifetime_Used" in info then
        var used :- Int(info["Percent_Lifetime_Used"]);
        Raises(TypeError)
      else Ok(PyStr(lifetime))
    else if Contains(vendorModel, "ocz") && "Total_Bad_Block_Count" in info then
      Ok(PyStr(info["Total_Bad_Block_Count"]))
    else Ok(PyStr("-"))
  }

  /** `smart_result` over a filled `info`. */
  function Result(info: map<string, string>): (r: Outcome<SmartResult>)
    ensures r.Raises? ==> r.error == ValueError || r.error == TypeError
    ensures Runtime(info).Raises? ==> r == Raises(Runtime(info).error)
  {
    var vendor := Pick(info, "family", "vendor");
    var model := Pick(info, "model", "product");
    var serial := if "serial" in info then info["serial"] else "-";
    var firmware := Pick(info, "firmware", "revision");
    var size := Size(info);
    var runtime :- Runtime(info);
    var rotation := Rotation(info);
    var smart :- SmartStatus(info, vendor, model);
    var vendorModel := Lower(vendor + " " + model);
    var written := if "Total_LBAs_Written" in info then info["Total_LBAs_Written"] else "-";
    var lifetime :- Lifetime(info, vendorModel);
    Ok(SmartResult(vendor, model, serial, firmware, size, runtime, written, rotation, lifetime, smart))
  }

  // ---------------------------------------------------------------------
  // The lazily filled dict

  /** The `(key, value)` pairs of the patterns that matched, in pattern
      order, each value with trailing whitespace removed. */
  function Captured(captures: seq<(string, Option<string>)>): (r: seq<(string, string)>)
    ensures |r| <= |captures|
    ensures forall k, v :: (k, v) in r <==>
      exists i :: 0 <= i < |captures| && captures[i].0 == k && captures[i].1.Some? && v == TrimRight(captures[i].1.value)
  {
    if captures == [] then []
    else
      var last := captures[|captures| - 1];
      Captured(captures[..|captures| - 1])
      + (match last.1 case Some(v) => [(last.0, TrimRight(v))] case None => [])
  }

  /** The first pattern's pair, when it matched, comes before the pairs of
      the patterns after it. */
  lemma {:induction false} CapturedCons(first: (string, Option<string>), captures: seq<(string, Option<string>)>)
    ensures Captured([first] + captures) ==
      (match first.1 case Some(v) => [(first.0, TrimRight(v))] case None => []) + Captured(captures)
  {
    var whole := [first] + captures;
    if captures != [] {
      var init := captures[..|captures| - 1];
      var last := captures[|captures| - 1];
      var tail := match last.1 case Some(v) => [(last.0, TrimRight(v))] case None => [];
      assert whole[..|whole| - 1] == [first] + init;
      assert whole[|whole| - 1] == last;
      assert Captured(whole) == Captured([first] + init) + tail;
      CapturedCons(first, init);
      assert Captured(captures) == Captured(init) + tail;
    } else {
      assert whole == [first];
      assert whole[..0] == [];
    }
  }

  /** Updating after a union is a union with the updated right side. */
  lemma UpdateAfterUnion(a: map<string, string>, b: map<string, string>, k: string, v: string)
    ensures (a + b)[k := v] == a + b[k := v]
  {
    var left := (a + b)[k := v];
    var right := a + b[k := v];
    assert left.Keys == right.Keys;
    assert forall x :: x in left ==> left[x] == right[x];
  }

  class Device {
    const devPath: string
    var info: map<string, string>

    constructor (devPath: string)
      ensures this.devPath == devPath && info == map[]
    {
      this.devPath := devPath;
      info := map[];
    }

    /** `_smart_analyse`, given for each pattern in order what its search of
        the `smartctl -a` output captured: each match is stored, rstripped,
        under the pattern's key. */
    method SmartAnalyse(captures: seq<(string, Option<string>)>)
      modifies this
      ensures info == old(info) + Collect(Captured(captures))
    {
      var i := 0;
      while i < |captures|
        invariant 0 <= i <= |captures|
        invariant info == old(info) + Collect(Captured(captures[..i]))
      {
        assert captures[..i + 1][..i] == captures[..i];
        assert captures[..i + 1][i] == captures[i];
        var key := captures[i].0;
        match captures[i].1 {
          case Some(v) =>
            var before := Captured(captures[..i]);
            var pair := (key, TrimRight(v));
            assert Captured(captures[..i + 1]) == before + [pair];
            assert (before + [pair])[..|before|] == before;
            assert Collect(before + [pair]) == Collect(before)[key := TrimRight(v)];
            UpdateAfterUnion(old(info), Collect(before), key, TrimRight(v));
            info := info[key := TrimRight(v)];
            assert info == old(info) + Collect(Captured(captures[..i + 1]));
          case None =>
            assert Captured(captures[..i + 1]) == Captured(captures[..i]) + [];
            assert Captured(captures[..i]) + [] == Captured(captures[..i]);
        }
        i := i + 1;
      }
      assert captures[..i] == captures;
    }

    /** `smart_values`: analyses only while `info` is empty, so a second call
        returns the first capture. */
    method SmartValues(captures: seq<(string, Option<string>)>) returns (r: map<string, string>)
      modifies this
      ensures old(info) != map[] ==> info == old(info)
      ensures old(info) == map[] ==> info == Collect(Captured(captures))
      ensures r == info
    {
      if info == map[] {
        SmartAnalyse(captures);
        assert map[] + Collect(Captured(captures)) == Collect(Captured(captures));
      }
      r := info;
    }

    /** `smart_result`: the same lazy fill, then the display values. */
    method SmartResultOf(captures: seq<(string, Option<string>)>) returns (r: Outcome<SmartResult>)
      modifies this
      ensures old(info) != map[] ==> info == old(info)
      ensures old(info) == map[] ==> info == Collect(Captured(captures))
      ensures r == Result(info)
    {
      if info == map[] {
        SmartAnalyse(captures);
        assert map[] + Collect(Captured(captures)) == Collect(Captured(captures));
      }
      r := Result(info);
    }
  }

  // ---------------------------------------------------------------------
  // Properties

  /** Disabled support gives `DSBLD`; support without a health capture
      keeps `OK`; without support a USB bridge gives `USBB`, else `-`. */
  lemma SupportRules(info: map<string, string>, vendor: string, model: string)
    ensures "support" in info && info["support"] == "Disabled" ==> SmartStatus(info, vendor, model) == Ok("DSBLD")
    ensures "support" in info && info["support"] != "Disabled" && "health" !in info ==>
      SmartStatus(info, vendor, model) == Ok("OK")
    ensures "support" !in info ==>
      SmartStatus(info, vendor, model) == Ok(if "usbbridge" in info then "USBB" else "-")
  {
  }

  /** With a health capture, a verdict other than `PASSED` overrides the
      UDMA and sector results. */
  lemma HealthOverrides(info: map<string, string>, vendor: string, model: string)
    requires "support" in info && info["support"] != "Disabled" && "health" in info
    requires info["health"] != "PASSED"
    requires SmartStatus(info, vendor, model).Ok?
    ensures SmartStatus(info, vendor, model).value == info["health"]
  {
  }

  /** With a `PASSED` verdict and no sectors counted, `UDMA` exactly when the
      CRC error count is above 2000 (not at 2000). */
  lemma UdmaThreshold(info: map<string, string>, vendor: string, model: string, count: int)
    requires "support" in info && info["support"] != "Disabled" && "health" in info
    requires info["health"] == "PASSED"
    requires "UDMA_CRC_Error_Count" in info && Int(info["UDMA_CRC_Error_Count"]) == Ok(count)
    requires "Reallocated_Sector_Ct" !in info && "Current_Pending_Sector" !in info && "Erase_Fail_Count" !in info
    ensures SmartStatus(info, vendor, model) == Ok(if count > 2000 then "UDMA" else "OK")
  {
  }

  /** With a `PASSED` verdict a positive sector sum is shown as a text that
      reads back as the sum, whatever the UDMA count. */
  lemma SectorSumShown(info: map<string, string>, vendor: string, model: string)
    requires "support" in info && info["support"] != "Disabled" && "health" in info
    requires info["health"] == "PASSED"
    requires SmartStatus(info, vendor, model).Ok?
    requires var s := SmartStatus(info, vendor, model).value; s != "UDMA" && s != "OK"
    ensures SectorSum(info, CrucialDrive(vendor, model)).Ok?
    ensures SectorSum(info, CrucialDrive(vendor, model)).value > 0
    ensures ParseInt(SmartStatus(info, vendor, model).value) == Some(SectorSum(info, CrucialDrive(vendor, model)).value)
  {
    var udma := UdmaFlag(info);
    var sum := SectorSum(info, CrucialDrive(vendor, model));
    assert udma.Ok? && sum.Ok?;
    assert sum.value > 0;
    assert SmartStatus(info, vendor, model).value == IntToString(sum.value);
    IntToStringRoundTrip(sum.value);
  }

  /** With a `PASSED` verdict a positive sector sum is shown, even above
      2000 CRC errors. */
  lemma SectorSumOverridesUdma(info: map<string, string>, vendor: string, model: string, n: int)
    requires "support" in info && info["support"] != "Disabled" && "health" in info
    requires info["health"] == "PASSED"
    requires UdmaFlag(info).Ok?
    requires SectorSum(info, CrucialDrive(vendor, model)) == Ok(n) && n > 0
    ensures SmartStatus(info, vendor, model) == Ok(IntToString(n))
  {
  }

  /** With a `PASSED` verdict on a drive that is not a Crucial one, the
      reallocated and pending counts are added and a positive sum is shown
      (a `0` capture counting nothing). */
  lemma SectorCountsShown(info: map<string, string>, vendor: string, model: string, a: int, b: int)
    requires "support" in info && info["support"] != "Disabled" && "health" in info
    requires info["health"] == "PASSED"
    requires !CrucialDrive(vendor, model) && UdmaFlag(info).Ok?
    requires "Reallocated_Sector_Ct" in info && Int(info["Reallocated_Sector_Ct"]) == Ok(a)
    requires "Current_Pending_Sector" in info && Int(info["Current_Pending_Sector"]) == Ok(b)
    requires a + b > 0
    ensures SmartStatus(info, vendor, model) == Ok(IntToString(a + b))
  {
    CounterReads(info, "Reallocated_Sector_Ct", a);
    CounterReads(info, "Current_Pending_Sector", b);
    assert SectorSum(info, false) == Ok(a + b);
    SectorSumOverridesUdma(info, vendor, model, a + b);
  }

  /** A counter reads its capture as `int` does, a `0` capture included. */
  lemma CounterReads(info: map<string, string>, key: string, n: int)
    requires key in info && Int(info[key]) == Ok(n)
    ensures Counter(info, key) == Ok(n)
  {
    if info[key] == "0" {
      ParseDigits("0");
      assert DigitsValue("0") == 0;
    }
  }

  /** Dropping the erase capture leaves every other capture as it was. */
  lemma KeptWithoutErase(info: map<string, string>, key: string)
    requires |key| != |"Erase_Fail_Count"|
    ensures key in info <==> key in info - {"Erase_Fail_Count"}
    ensures key in info ==> (info - {"Erase_Fail_Count"})[key] == info[key]
  {
    assert key != "Erase_Fail_Count";
  }

  /** Erase failures count only for Crucial drives: otherwise the sum does
      not depend on the erase capture, and for a Crucial drive a non-zero
      erase count is added. */
  lemma EraseFailOnlyForCrucial(info: map<string, string>, n: int)
    ensures SectorSum(info, false) == SectorSum(info - {"Erase_Fail_Count"}, false)
    ensures ("Reallocated_Sector_Ct" !in info && "Current_Pending_Sector" !in info
             && "Erase_Fail_Count" in info && info["Erase_Fail_Count"] != "0"
             && Int(info["Erase_Fail_Count"]) == Ok(n)) ==>
      SectorSum(info, true) == Ok(n)
  {
    var other := info - {"Erase_Fail_Count"};
    KeptWithoutErase(info, "Reallocated_Sector_Ct");
    KeptWithoutErase(info, "Current_Pending_Sector");
    assert Counter(info, "Reallocated_Sector_Ct") == Counter(other, "Reallocated_Sector_Ct");
    assert Counter(info, "Current_Pending_Sector") == Counter(other, "Current_Pending_Sector");
  }

  /** The identity columns: `family` before `vendor`, `model` before
      `product`, `firmware` before `revision`, `-` when neither is captured. */
  lemma ResultColumns(info: map<string, string>)
    requires Result(info).Ok?
    ensures var r := Result(info).value;
      && r.vendor == (if "family" in info then info["family"] else if "vendor" in info then info["vendor"] else "-")
      && r.model == (if "model" in info then info["model"] else if "product" in info then info["product"] else "-")
      && r.firmware == (if "firmware" in info then info["firmware"] else if "revision" in info then info["revision"] else "-")
      && r.serial == (if "serial" in info then info["serial"] else "-")
  {
  }

  /** Samsung: with both captures the lifetime is the smaller one. */
  lemma SamsungLifetimeIsMin(info: map<string, string>, vendorModel: string, wear: int, reserve: int)
    requires Contains(vendorModel, "samsung")
    requires "Wear_Leveling_Count" in info && Int(info["Wear_Leveling_Count"]) == Ok(wear)
    requires "Used_Reserve_Block_Count" in info && Int(info["Used_Reserve_Block_Count"]) == Ok(reserve)
    ensures Lifetime(info, vendorModel) == Ok(PyInt(if wear <= reserve then wear else reserve))
  {
  }

  /** Samsung without a wear capture but with a used-reserve capture, and
      Crucial with a used-life capture, compare a text with a number. */
  lemma LifetimeTypeErrors(info: map<string, string>, vendorModel: string)
    ensures (Contains(vendorModel, "samsung") && "Wear_Leveling_Count" !in info
      && "Used_Reserve_Block_Count" in info && Int(info["Used_Reserve_Block_Count"]).Ok?) ==>
      Lifetime(info, vendorModel) == Raises(TypeError)
    ensures (!Contains(vendorModel, "samsung") && Contains(vendorModel, "crucial")
      && "Percent_Lifetime_Used" in info && Int(info["Percent_Lifetime_Used"]).Ok?) ==>
      Lifetime(info, vendorModel) == Raises(TypeError)
  {
  }

  /** Below a day the runtime is `N hours`, even for one hour, and the
      number reads back as the hours. */
  lemma RuntimeHours(info: map<string, string>, hours: int)
    requires "Power_On_Hours" in info && Int(info["Power_On_Hours"]) == Ok(hours) && hours < 24
    ensures Runtime(info) == Ok(PyStr(IntToString(hours) + " hours"))
    ensures ParseInt(Before(IntToString(hours) + " hours", " ")) == Some(hours)
  {
    var t := IntToString(hours);
    assert ' ' !in t by {
      if hours >= 0 {
        assert IsDigits(t);
      } else {
        assert t == "-" + NatToString(-hours);
        assert IsDigits(NatToString(-hours));
      }
    }
    assert t + " hours" == t + [' '] + "hours";
    BeforeChar(t, ' ', "hours");
    IntToStringRoundTrip(hours);
  }
}
