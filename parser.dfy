/** The text-processing half of `Device.fetch_smart` (devices.py): what the
    regular expressions pick out of the text printed by `smartctl -a` for one
    device, and the five fields a fetch leaves behind, as pure functions of
    the device name and that text. The imperative fetch itself is in
    devices.dfy and is proved to compute exactly `Fetch`. */
module SmartctlParser {
  import opened Text

  const SmartDataMarker := "=== START OF SMART DATA SECTION ==="
  const InformationMarker := "=== START OF INFORMATION SECTION ==="
  const ReadSmartDataMarker := "=== START OF READ SMART DATA SECTION ==="
  const UsbBridgeText := "Unknown USB bridge"
  const SupportLabel := "SMART support is:"
  const AtaHealthLabel := "SMART overall-health self-assessment test result:"
  const NvmeHealthLabel := "SMART Health Status:"

  const Unknown := "UNKNOWN"
  const UsbBridge := "USBB"

  /** One row of the ATA attribute table, every column kept as text. */
  datatype AttributeRow = AttributeRow(
    attributeName: string, flag: string, value: string, worst: string, thresh: string,
    kind: string, updated: string, whenFailed: string, rawValue: string)

  /** A `smart_data` entry: an attribute row (ATA disks) or a text field (NVMe). */
  datatype SmartEntry = Row(row: AttributeRow) | Field(text: string)

  /** The five fields `fetch_smart` fills. */
  datatype Capture = Capture(
    data: map<string, SmartEntry>,   // smart_data
    info: map<string, string>,       // smart_info
    health: string,                  // smart_health
    support: string,                 // smart_support
    vendorModel: string)             // vendor_model

  /** The values every fetch starts from (and that the constructor sets). */
  const Reset := Capture(map[], map[], Unknown, Unknown, "")

  /** What running `smartctl -a <path>` gave: its text, or no answer in time. */
  datatype SmartctlRun = Finished(output: string) | TimedOut

  /** How `fetch_smart` ended: normally (a ValueError from the section split
      is swallowed), by `TimeoutExpired` from the wait, or by an `IndexError`
      when the information marker is missing. */
  datatype Raised = Completed | TimeoutExpired | IndexError

  datatype Fetched = Fetched(capture: Capture, raised: Raised)

  // ---------------------------------------------------------------------
  // The support search: the label `SMART support is:`, optional whitespace,
  // then `Enabled` or `Disabled`, at the leftmost place it matches.

  /** The support pattern anchored at the start of `t`. */
  function SupportAt(t: string): Option<string> {
    if !StartsWith(t, SupportLabel) then None
    else
      var rest := TrimLeft(t[|SupportLabel|..]);
      if StartsWith(rest, "Enabled") then Some("Enabled")
      else if StartsWith(rest, "Disabled") then Some("Disabled")
      else None
  }

  /** The leftmost match of the support pattern: one of the two words, taken
      after a `SMART support is:` label of the text. */
  function SearchSupport(t: string): (r: Option<string>)
    ensures r.Some? ==> r.value == "Enabled" || r.value == "Disabled"
    ensures r.Some? ==> Contains(t, SupportLabel)
    decreases |t|
  {
    if t == [] then None
    else if SupportAt(t).Some? then
      ContainsAt(t, SupportLabel, 0);
      SupportAt(t)
    else
      var r := SearchSupport(t[1..]);
      if r.Some? then ContainsTail(t, SupportLabel); r else r
  }

  /** `smart_support` after the search: the captured word or `UNKNOWN`. */
  function SupportOf(output: string): string {
    SearchSupport(output).GetOr(Unknown)
  }

  // ---------------------------------------------------------------------
  // The health search: one of the two health labels, optional whitespace,
  // then a run of word, whitespace, `-` and `!` characters ended by a newline.

  predicate IsHealthChar(c: char) {
    IsWordChar(c) || IsSpace(c) || c == '-' || c == '!'
  }

  /** The last newline of `w` at an index of at least 1 (the captured group
      must be non-empty and be followed by a newline). */
  function LastNewline(w: string): (r: Option<nat>)
    ensures r.Some? ==> 1 <= r.value < |w| && w[r.value] == '\n'
    ensures r.Some? ==> forall k :: r.value < k < |w| ==> w[k] != '\n'
    ensures r.None? ==> forall k :: 1 <= k < |w| ==> w[k] != '\n'
  {
    if |w| <= 1 then None
    else if w[|w| - 1] == '\n' then Some(|w| - 1)
    else LastNewline(w[..|w| - 1])
  }

  /** The health pattern anchored at the start of `t`, stripped as
      `group(2).strip()` does. The greedy class run is cut back to its last
      newline, which the pattern needs after the group. */
  function HealthAt(t: string): Option<string> {
    var labelLength :=
      if StartsWith(t, AtaHealthLabel) then |AtaHealthLabel|
      else if StartsWith(t, NvmeHealthLabel) then |NvmeHealthLabel|
      else 0;
    if labelLength == 0 then None
    else
      var run := TakeWhile(t[labelLength..], IsHealthChar);
      match LastNewline(run)
      case None => None
      case Some(k) => Some(Strip(run[..k]))
  }

  /** The leftmost match of the health pattern. */
  function SearchHealth(t: string): (r: Option<string>)
    ensures r.Some? ==> Contains(t, AtaHealthLabel) || Contains(t, NvmeHealthLabel)
    decreases |t|
  {
    if t == [] then None
    else if HealthAt(t).Some? then
      if StartsWith(t, AtaHealthLabel) then ContainsAt(t, AtaHealthLabel, 0); HealthAt(t)
      else ContainsAt(t, NvmeHealthLabel, 0); HealthAt(t)
    else
      var r := SearchHealth(t[1..]);
      if r.Some? then
        if Contains(t[1..], AtaHealthLabel) then ContainsTail(t, AtaHealthLabel); r
        else ContainsTail(t, NvmeHealthLabel); r
      else r
  }

  // ---------------------------------------------------------------------
  // The label search: at the start of a line, a label up to its last colon
  // that whitespace follows, and the rest as the value (possibly taken from
  // the next non-blank line when the value is blank).

  /** A colon at `p` can end the label `(.+)`: it is not the first character,
      and `\s+` can follow it, either within the line or, at the end of a line
      that is not the last, by the newline. */
  predicate LabelColon(line: string, hasNext: bool, p: int) {
    1 <= p < |line| && line[p] == ':' && (if p + 1 < |line| then IsSpace(line[p + 1]) else hasNext)
  }

  /** The rightmost label colon before index `k`: `(.+)` is greedy. */
  function LastLabelColon(line: string, hasNext: bool, k: nat): (r: Option<nat>)
    requires k <= |line|
    ensures r.Some? ==> r.value < k && LabelColon(line, hasNext, r.value)
    ensures r.Some? ==> forall q :: r.value < q < k ==> !LabelColon(line, hasNext, q)
    ensures r.None? ==> forall q :: 0 <= q < k ==> !LabelColon(line, hasNext, q)
  {
    if k == 0 then None
    else if LabelColon(line, hasNext, k - 1) then Some(k - 1)
    else LastLabelColon(line, hasNext, k - 1)
  }

  /** The first line from `i` on that holds something other than whitespace. */
  function NextNonBlank(lines: seq<string>, i: nat): (j: nat)
    requires i <= |lines|
    ensures i <= j <= |lines|
    ensures j < |lines| ==> HasNonSpace(lines[j])
    ensures forall k :: i <= k < j ==> !HasNonSpace(lines[k])
    decreases |lines| - i
  {
    if i == |lines| || HasNonSpace(lines[i]) then i else NextNonBlank(lines, i + 1)
  }

  /** The label line `line` has a blank value, so `\s+` runs on past the
      newline and `(.*)` captures the next non-blank line. */
  predicate Spills(line: string, hasNext: bool) {
    var colon := LastLabelColon(line, hasNext, |line|);
    colon.Some? && !HasNonSpace(line[colon.value + 1..])
  }

  /** The `(label, value)` pairs `findall` returns for `lines[i..]`, in order. */
  function LabelMatchesFrom(lines: seq<string>, i: nat): seq<(string, string)>
    requires i <= |lines|
    decreases |lines| - i
  {
    if i == |lines| then []
    else
      var line := lines[i];
      match LastLabelColon(line, i + 1 < |lines|, |line|)
      case None => LabelMatchesFrom(lines, i + 1)
      case Some(p) =>
        var rest := line[p + 1..];
        if HasNonSpace(rest) then [(line[..p], TrimLeft(rest))] + LabelMatchesFrom(lines, i + 1)
        else
          var j := NextNonBlank(lines, i + 1);
          if j == |lines| then [(line[..p], "")]
          else [(line[..p], TrimLeft(lines[j]))] + LabelMatchesFrom(lines, j + 1)
  }

  function LabelMatches(text: string): seq<(string, string)> {
    LabelMatchesFrom(Lines(text), 0)
  }

  /** The `(label, value)` pair of a label line whose value is not blank. */
  function PlainField(line: string, hasNext: bool): Option<(string, string)> {
    match LastLabelColon(line, hasNext, |line|)
    case None => None
    case Some(p) =>
      if HasNonSpace(line[p + 1..]) then Some((line[..p], TrimLeft(line[p + 1..]))) else None
  }

  /** No label line of `lines` has a blank value. */
  predicate NoBlankValues(lines: seq<string>) {
    forall i :: 0 <= i < |lines| ==> !Spills(lines[i], i + 1 < |lines|)
  }

  // ---------------------------------------------------------------------
  // The attribute-table search: per line, a numeric ID and nine further
  // columns, each in its character class, the last one a digit run.

  predicate NotSpace(c: char) { !IsSpace(c) }

  /** The leading run of non-whitespace characters of `t`. */
  function Word(t: string): (w: string)
    ensures |w| <= |t| && w == t[..|w|]
    ensures t != [] && !IsSpace(t[0]) ==> w != []
    ensures forall i :: 0 <= i < |w| ==> !IsSpace(w[i])
    ensures |w| < |t| ==> IsSpace(t[|w|])
  {
    if t == [] || IsSpace(t[0]) then "" else [t[0]] + Word(t[1..])
  }

  /** A run of non-whitespace followed by whitespace or the end is the word. */
  lemma {:induction false} WordRun(a: string, b: string)
    requires forall i :: 0 <= i < |a| ==> !IsSpace(a[i])
    requires b == [] || IsSpace(b[0])
    ensures Word(a + b) == a
  {
    if a != [] {
      assert (a + b)[1..] == a[1..] + b;
      WordRun(a[1..], b);
    } else {
      assert a + b == b;
    }
  }

  /** The whitespace-separated words of `s` (Python's `s.split()`). */
  function Tokens(s: string): seq<string>
    decreases |s|
  {
    var t := TrimLeft(s);
    if t == [] then []
    else
      var w := Word(t);
      [w] + Tokens(t[|w|..])
  }

  /** No word of `s.split()` is empty. */
  lemma {:induction false} TokensNonEmpty(s: string)
    ensures forall k :: 0 <= k < |Tokens(s)| ==> Tokens(s)[k] != []
    decreases |s|
  {
    var t := TrimLeft(s);
    if t != [] {
      var w := Word(t);
      var rest := t[|w|..];
      TokensNonEmpty(rest);
      assert Tokens(s) == [w] + Tokens(rest);
    }
  }

  predicate AllOf(s: string, p: char -> bool) {
    forall i :: 0 <= i < |s| ==> p(s[i])
  }

  predicate IsWordOrDash(c: char) { IsWordChar(c) || c == '-' }

  predicate IsWhenFailedChar(c: char) { IsWordChar(c) || c == '-' || c == '!' }

  /** One attribute-table line: ten or more words, the ID all digits, each
      further column in its character class and the raw value starting with a
      digit; the ID keys the row and the raw value is its leading digit run. */
  function AttributeRowAt(line: string): (r: Option<(string, SmartEntry)>)
    ensures r.Some? ==> r.value.0 != [] && IsDigits(r.value.0)
    ensures r.Some? ==> r.value.1.Row? && r.value.1.row.rawValue != [] && IsDigits(r.value.1.row.rawValue)
  {
    TokensNonEmpty(line);
    var ts := Tokens(line);
    if |ts| >= 10 && IsDigits(ts[0]) && AllOf(ts[1], IsWordOrDash)
       && AllOf(ts[2], IsWordChar) && AllOf(ts[3], IsWordChar) && AllOf(ts[4], IsWordChar)
       && AllOf(ts[5], IsWordOrDash) && AllOf(ts[6], IsWordOrDash) && AllOf(ts[7], IsWordChar)
       && AllOf(ts[8], IsWhenFailedChar) && IsDigit(ts[9][0])
    then
      var raw := TakeWhile(ts[9], IsDigit);
      Some((ts[0], Row(AttributeRow(ts[1], ts[2], ts[3], ts[4], ts[5], ts[6], ts[7], ts[8], raw))))
    else None
  }

  /** The attribute rows of `lines`, in order. */
  function AttributeRows(lines: seq<string>): (r: seq<(string, SmartEntry)>)
    ensures forall k :: 0 <= k < |r| ==> r[k].0 != [] && IsDigits(r[k].0)
    ensures forall k :: 0 <= k < |r| ==> r[k].1.Row? && r[k].1.row.rawValue != [] && IsDigits(r[k].1.row.rawValue)
  {
    if lines == [] then []
    else
      match AttributeRowAt(lines[0])
      case Some(e) => [e] + AttributeRows(lines[1..])
      case None => AttributeRows(lines[1..])
  }

  /** NVMe `smart_data` entries: the label matches of the SMART section, as text fields. */
  function FieldEntries(ms: seq<(string, string)>): (r: seq<(string, SmartEntry)>)
    ensures |r| == |ms|
    ensures forall k :: 0 <= k < |r| ==> r[k] == (ms[k].0, Field(ms[k].1))
  {
    seq(|ms|, k requires 0 <= k < |ms| => (ms[k].0, Field(ms[k].1)))
  }

  // ---------------------------------------------------------------------
  // Filling a dict from the matches in order, each match setting its key.

  function Collect<V>(ms: seq<(string, V)>): map<string, V>
  {
    if ms == [] then map[] else Collect(ms[..|ms| - 1])[ms[|ms| - 1].0 := ms[|ms| - 1].1]
  }

  /** The keys of the dict are exactly the labels of the pairs. */
  lemma {:induction false} CollectKeys<V>(ms: seq<(string, V)>, k: string)
    ensures k in Collect(ms) <==> exists j :: 0 <= j < |ms| && ms[j].0 == k
  {
    if ms != [] {
      var init := ms[..|ms| - 1];
      CollectKeys(init, k);
      if exists j :: 0 <= j < |init| && init[j].0 == k {
        var j :| 0 <= j < |init| && init[j].0 == k;
        assert ms[j].0 == k;
      }
      if exists j :: 0 <= j < |ms| && ms[j].0 == k {
        var j :| 0 <= j < |ms| && ms[j].0 == k;
        if j < |init| { assert init[j].0 == k; }
      }
    }
  }

  /** A pair whose label no later pair repeats gives the dict its value:
      a later duplicate label overwrites an earlier one. */
  lemma {:induction false} CollectLastWins<V>(ms: seq<(string, V)>, j: int)
    requires 0 <= j < |ms|
    requires forall j' :: j < j' < |ms| ==> ms[j'].0 != ms[j].0
    ensures ms[j].0 in Collect(ms) && Collect(ms)[ms[j].0] == ms[j].1
  {
    if j < |ms| - 1 {
      var init := ms[..|ms| - 1];
      assert init[j] == ms[j];
      CollectLastWins(init, j);
    }
  }

  /** Every value of the dict is the value of one of the pairs. */
  lemma {:induction false} CollectValues<V>(ms: seq<(string, V)>, k: string)
    requires k in Collect(ms)
    ensures exists j :: 0 <= j < |ms| && ms[j] == (k, Collect(ms)[k])
  {
    var last := ms[|ms| - 1];
    if last.0 != k {
      var init := ms[..|ms| - 1];
      CollectValues(init, k);
      var j :| 0 <= j < |init| && init[j] == (k, Collect(init)[k]);
      assert ms[j] == init[j];
    }
  }

  /** Filling a dict from a concatenation: the second part's keys win. */
  lemma {:induction false} CollectConcat<V>(a: seq<(string, V)>, b: seq<(string, V)>)
    ensures Collect(a + b) == Collect(a) + Collect(b)
  {
    if b != [] {
      var init := b[..|b| - 1];
      var last := b[|b| - 1];
      assert (a + b)[..|a + b| - 1] == a + init;
      assert (a + b)[|a + b| - 1] == last;
      CollectConcat(a, init);
      var left := (Collect(a) + Collect(init))[last.0 := last.1];
      var right := Collect(a) + Collect(init)[last.0 := last.1];
      assert left.Keys == right.Keys;
      assert forall k :: k in left ==> left[k] == right[k];
      assert left == right;
    } else {
      assert a + b == a;
    }
  }

  // ---------------------------------------------------------------------
  // The fetch

  /** The outcome of the class-dependent section split. */
  datatype Sections =
    | Sections(info: string, smart: Option<string>)
    | SplitFailed    // `a, b = output.split(m)` with other than two pieces: ValueError
    | InfoMissing    // `output.split(m)[1]` with one piece: IndexError

  function SectionsOf(name: string, support: string, output: string): Sections {
    if StartsWith(name, "nvme") then
      var pieces := Split(output, SmartDataMarker);
      if |pieces| == 2 then Sections(pieces[0], Some(pieces[1])) else SplitFailed
    else if StartsWith(name, "sr") || support == "Disabled" then
      var pieces := Split(output, InformationMarker);
      if |pieces| >= 2 then Sections(pieces[1], None) else InfoMissing
    else
      var pieces := Split(output, ReadSmartDataMarker);
      if |pieces| == 2 then Sections(pieces[0], Some(pieces[1])) else SplitFailed
  }

  /** `smart_data`: attribute rows for `sd` disks with SMART enabled, label
      fields for `nvme`, nothing otherwise. */
  function SmartData(name: string, support: string, smart: Option<string>): map<string, SmartEntry> {
    match smart
    case None => map[]
    case Some(text) =>
      if StartsWith(name, "sd") && support == "Enabled" then Collect(AttributeRows(Lines(text)))
      else if StartsWith(name, "nvme") then Collect(FieldEntries(LabelMatches(text)))
      else map[]
  }

  /** `vendor_model`: the lowercased `Vendor`, `Model Family` and `Product`
      fields, in that order, without separator, absent ones skipped. */
  function VendorSignature(info: map<string, string>): string {
    (if "Vendor" in info then Lower(info["Vendor"]) else "")
    + (if "Model Family" in info then Lower(info["Model Family"]) else "")
    + (if "Product" in info then Lower(info["Product"]) else "")
  }

  /** The fields as they stand when the section split fails: support and the
      USB-bridge health are already set, nothing else is. */
  function EarlyCapture(output: string): Capture {
    Capture(map[], map[], if Contains(output, UsbBridgeText) then UsbBridge else Unknown, SupportOf(output), "")
  }

  /** The five fields after `fetch_smart` on device `name`, and how it ended. */
  function Fetch(name: string, run: SmartctlRun): Fetched {
    match run
    case TimedOut => Fetched(Reset, TimeoutExpired)
    case Finished(output) =>
      var early := EarlyCapture(output);
      match SectionsOf(name, early.support, output)
      case SplitFailed => Fetched(early, Completed)
      case InfoMissing => Fetched(early, IndexError)
      case Sections(infoText, smartText) =>
        var info := Collect(LabelMatches(infoText));
        var health := SearchHealth(output).GetOr(early.health);
        Fetched(Capture(SmartData(name, early.support, smartText), info, health, early.support, VendorSignature(info)),
                Completed)
  }

  // ---------------------------------------------------------------------
  // What a fetch guarantees

  /** The shape of `smart_data` that the analysers rely on: text fields for
      NVMe devices, attribute rows with a digit raw value for the others. */
  predicate WellFormed(name: string, c: Capture) {
    if StartsWith(name, "nvme") then NvmeFields(c.data) else AtaRows(c.data)
  }

  /** Every entry is an attribute row whose raw value is a digit string. */
  predicate AtaRows(data: map<string, SmartEntry>) {
    forall k :: k in data ==> data[k].Row? && data[k].row.rawValue != [] && IsDigits(data[k].row.rawValue)
  }

  /** Every entry is a text field. */
  predicate NvmeFields(data: map<string, SmartEntry>) {
    forall k :: k in data ==> data[k].Field?
  }

  /** A device name starts with at most one of the class prefixes. */
  lemma ClassPrefixesDisjoint(name: string)
    ensures !(StartsWith(name, "sd") && StartsWith(name, "nvme"))
    ensures !(StartsWith(name, "sr") && StartsWith(name, "nvme"))
    ensures !(StartsWith(name, "sd") && StartsWith(name, "sr"))
  {
    if StartsWith(name, "nvme") { assert name[0] == "nvme"[0]; }
    if StartsWith(name, "sd") { assert name[1] == "sd"[1]; }
  }

  /** The `smart_data` of a completed split: attribute rows keyed by a
      numeric ID with a digit raw value, or (for `nvme`) text fields. */
  lemma SmartDataWellFormed(name: string, support: string, smart: Option<string>)
    ensures var d := SmartData(name, support, smart);
      forall k :: k in d ==>
        if StartsWith(name, "nvme") then d[k].Field?
        else d[k].Row? && d[k].row.rawValue != [] && IsDigits(d[k].row.rawValue) && k != [] && IsDigits(k)
    ensures StartsWith(name, "sd") && support != "Enabled" ==> SmartData(name, support, smart) == map[]
  {
    var d := SmartData(name, support, smart);
    ClassPrefixesDisjoint(name);
    if smart.Some? {
      if StartsWith(name, "sd") && support == "Enabled" {
        var ms := AttributeRows(Lines(smart.value));
        forall k | k in d ensures d[k].Row? && d[k].row.rawValue != [] && IsDigits(d[k].row.rawValue) && k != [] && IsDigits(k) {
          CollectValues(ms, k);
        }
      } else if StartsWith(name, "nvme") {
        var ms := FieldEntries(LabelMatches(smart.value));
        forall k | k in d ensures d[k].Field? {
          CollectValues(ms, k);
        }
      }
    }
  }

  /** Every fetch leaves `smart_data` well formed; attribute rows are keyed
      by their numeric ID. */
  lemma FetchWellFormed(name: string, run: SmartctlRun)
    ensures WellFormed(name, Fetch(name, run).capture)
    ensures !StartsWith(name, "nvme") ==>
      forall k :: k in Fetch(name, run).capture.data ==> k != [] && IsDigits(k)
  {
    if run.Finished? {
      var support := SupportOf(run.output);
      var sections := SectionsOf(name, support, run.output);
      if sections.Sections? {
        SmartDataWellFormed(name, support, sections.smart);
      }
    }
  }

  /** A completed fetch with an `sd` name fills `smart_data` only when SMART
      support is `Enabled`. */
  lemma AtaRowsNeedSupport(name: string, output: string)
    requires StartsWith(name, "sd")
    requires Fetch(name, Finished(output)).capture.data != map[]
    ensures SupportOf(output) == "Enabled"
  {
    var sections := SectionsOf(name, SupportOf(output), output);
    if sections.Sections? {
      SmartDataWellFormed(name, SupportOf(output), sections.smart);
    }
  }

  /** When the class marker (the SMART data marker for `nvme`, the READ SMART
      data marker for other disks with support not `Disabled`) is absent,
      the unpacking raises ValueError, which is swallowed: no fields are
      collected and the health is `UNKNOWN`, or `USBB` for a USB bridge. */
  lemma MissingMarkerKeepsDefaults(name: string, output: string)
    requires StartsWith(name, "nvme") || (!StartsWith(name, "sr") && SupportOf(output) != "Disabled")
    requires !Contains(output, if StartsWith(name, "nvme") then SmartDataMarker else ReadSmartDataMarker)
    ensures Fetch(name, Finished(output)) == Fetched(EarlyCapture(output), Completed)
    ensures EarlyCapture(output).info == map[] && EarlyCapture(output).data == map[]
    ensures EarlyCapture(output).health == if Contains(output, UsbBridgeText) then UsbBridge else Unknown
  {
    SplitSingle(output, if StartsWith(name, "nvme") then SmartDataMarker else ReadSmartDataMarker);
  }

  /** The same when the marker occurs twice or more. */
  lemma RepeatedMarkerKeepsDefaults(name: string, output: string, i: int, j: int)
    requires StartsWith(name, "nvme") || (!StartsWith(name, "sr") && SupportOf(output) != "Disabled")
    requires var m := if StartsWith(name, "nvme") then SmartDataMarker else ReadSmartDataMarker;
             OccursAt(output, m, i) && OccursAt(output, m, j) && i + |m| <= j
    ensures Fetch(name, Finished(output)) == Fetched(EarlyCapture(output), Completed)
  {
    SplitTwice(output, if StartsWith(name, "nvme") then SmartDataMarker else ReadSmartDataMarker, i, j);
  }

  /** For optical drives and disks with SMART disabled, a missing
      information marker raises IndexError out of the fetch. */
  lemma MissingInformationMarkerRaises(name: string, output: string)
    requires !StartsWith(name, "nvme") && (StartsWith(name, "sr") || SupportOf(output) == "Disabled")
    requires !Contains(output, InformationMarker)
    ensures Fetch(name, Finished(output)).raised == IndexError
  {
    SplitSingle(output, InformationMarker);
  }

  /** A health line found anywhere in the text replaces the `USBB` set for a
      USB bridge, once the section split has succeeded. */
  lemma HealthLineOverridesUsbBridge(name: string, output: string)
    requires SectionsOf(name, SupportOf(output), output).Sections?
    requires Contains(output, UsbBridgeText)
    ensures Fetch(name, Finished(output)).capture.health ==
            if SearchHealth(output).Some? then SearchHealth(output).value else UsbBridge
  {
  }

  /** A word found, lowercased, in any of the three fields is found in the
      vendor signature. */
  lemma SignatureMentions(info: map<string, string>, field: string, word: string)
    requires field == "Vendor" || field == "Model Family" || field == "Product"
    requires field in info && Contains(Lower(info[field]), word)
    ensures Contains(VendorSignature(info), word)
  {
    var v := if "Vendor" in info then Lower(info["Vendor"]) else "";
    var f := if "Model Family" in info then Lower(info["Model Family"]) else "";
    var p := if "Product" in info then Lower(info["Product"]) else "";
    assert VendorSignature(info) == v + f + p;
    if field == "Vendor" {
      ContainsLeft(v, f, word);
      ContainsLeft(v + f, p, word);
    } else if field == "Model Family" {
      ContainsRight(v, f, word);
      ContainsLeft(v + f, p, word);
    } else {
      ContainsRight(v + f, p, word);
    }
  }

  /** The vendor signature holds no upper-case ASCII letter. */
  lemma SignatureIsLowercase(info: map<string, string>)
    ensures forall i :: 0 <= i < |VendorSignature(info)| ==> !('A' <= VendorSignature(info)[i] <= 'Z')
  {
  }

  // The information section: each label line becomes an entry.

  lemma StepPlain(lines: seq<string>, i: nat)
    requires i < |lines| && !Spills(lines[i], i + 1 < |lines|)
    ensures LabelMatchesFrom(lines, i) ==
            (match PlainField(lines[i], i + 1 < |lines|) case Some(e) => [e] case None => [])
            + LabelMatchesFrom(lines, i + 1)
  {
  }

  /** Without blank values, every pair comes from one label line. */
  lemma {:induction false} MatchesComeFromLines(lines: seq<string>, i: nat, e: (string, string))
    requires i <= |lines| && NoBlankValues(lines)
    requires e in LabelMatchesFrom(lines, i)
    ensures exists k :: i <= k < |lines| && PlainField(lines[k], k + 1 < |lines|) == Some(e)
    decreases |lines| - i
  {
    StepPlain(lines, i);
    var here := match PlainField(lines[i], i + 1 < |lines|) case Some(x) => [x] case None => [];
    if e in here {
      assert PlainField(lines[i], i + 1 < |lines|) == Some(e);
    } else {
      MatchesComeFromLines(lines, i + 1, e);
    }
  }

  /** A label line no later line repeats the label of gives `smart_info` its
      entry (when no label line of the section has a blank value). */
  lemma {:induction false} LabelLineRecorded(lines: seq<string>, i: nat, j: nat, key: string, value: string)
    requires NoBlankValues(lines)
    requires i <= j < |lines|
    requires PlainField(lines[j], j + 1 < |lines|) == Some((key, value))
    requires forall k :: j < k < |lines| ==>
      PlainField(lines[k], k + 1 < |lines|).None? || PlainField(lines[k], k + 1 < |lines|).value.0 != key
    ensures key in Collect(LabelMatchesFrom(lines, i))
    ensures Collect(LabelMatchesFrom(lines, i))[key] == value
    decreases j - i
  {
    StepPlain(lines, i);
    var here := match PlainField(lines[i], i + 1 < |lines|) case Some(x) => [x] case None => [];
    var rest := LabelMatchesFrom(lines, i + 1);
    CollectConcat(here, rest);
    if i == j {
      if key in Collect(rest) {
        CollectKeys(rest, key);
        var n :| 0 <= n < |rest| && rest[n].0 == key;
        MatchesComeFromLines(lines, i + 1, rest[n]);
      }
    } else {
      LabelLineRecorded(lines, i + 1, j, key, value);
    }
  }

  /** In the information section of a completed fetch, a label line with a
      value, whose label no later line repeats, is an entry of `smart_info`. */
  lemma InfoFieldRecorded(name: string, output: string, j: nat, key: string, value: string)
    requires SectionsOf(name, SupportOf(output), output).Sections?
    requires var lines := Lines(SectionsOf(name, SupportOf(output), output).info);
      && NoBlankValues(lines) && j < |lines|
      && PlainField(lines[j], j + 1 < |lines|) == Some((key, value))
      && forall k :: j < k < |lines| ==>
           PlainField(lines[k], k + 1 < |lines|).None? || PlainField(lines[k], k + 1 < |lines|).value.0 != key
    ensures key in Fetch(name, Finished(output)).capture.info
    ensures Fetch(name, Finished(output)).capture.info[key] == value
  {
    var lines := Lines(SectionsOf(name, SupportOf(output), output).info);
    LabelLineRecorded(lines, 0, j, key, value);
  }

  // ---------------------------------------------------------------------
  // What the searches accept

  /** Positions where the anchored support pattern does not match are
      skipped. */
  lemma {:induction false} SupportSearchSkips(t: string, p: nat)
    requires p <= |t|
    requires forall j :: 0 <= j < p ==> SupportAt(t[j..]).None?
    ensures SearchSupport(t) == SearchSupport(t[p..])
    decreases p
  {
    if p > 0 {
      assert t[0..] == t;
      var tail := t[1..];
      forall j | 0 <= j < p - 1 ensures SupportAt(tail[j..]).None? {
        assert tail[j..] == t[j + 1..];
      }
      SupportSearchSkips(tail, p - 1);
      assert tail[p - 1..] == t[p..];
    }
  }

  /** The support label, whitespace and one of the two words match at the
      start of the text. */
  lemma SupportAtLabel(ws: string, word: string, rest: string)
    requires AllOf(ws, IsSpace)
    requires word == "Enabled" || word == "Disabled"
    ensures SearchSupport(SupportLabel + (ws + (word + rest))) == Some(word)
  {
    SupportAnchored(ws, word, rest);
  }

  /** The anchored support pattern reads the word after the label and the
      whitespace. */
  lemma SupportAnchored(ws: string, word: string, rest: string)
    requires AllOf(ws, IsSpace)
    requires word == "Enabled" || word == "Disabled"
    ensures SupportAt(SupportLabel + (ws + (word + rest))) == Some(word)
  {
    var u := SupportLabel + (ws + (word + rest));
    assert u[..|SupportLabel|] == SupportLabel;
    assert u[|SupportLabel|..] == ws + (word + rest);
    TrimLeftSpaces(ws, word + rest);
    assert (word + rest)[..|word|] == word;
    if word == "Disabled" {
      assert (word + rest)[0] == 'D';
    }
  }

  /** A `SMART support is:` label followed by whitespace and one of the two
      words, with no earlier place where the pattern matches (an earlier
      label followed by anything else, such as `Available`, is passed over),
      gives that word. */
  lemma SupportFound(t: string, pre: string, ws: string, word: string, rest: string)
    requires t == pre + SupportLabel + ws + word + rest
    requires forall j :: 0 <= j < |pre| ==> SupportAt(t[j..]).None?
    requires AllOf(ws, IsSpace)
    requires word == "Enabled" || word == "Disabled"
    ensures SearchSupport(t) == Some(word)
  {
    var u := SupportLabel + (ws + (word + rest));
    assert t == pre + u;
    SupportSearchSkips(pre + u, |pre|);
    assert (pre + u)[|pre|..] == u;
    SupportAtLabel(ws, word, rest);
  }

  /** Positions where the anchored health pattern does not match are
      skipped. */
  lemma {:induction false} HealthSearchSkips(t: string, p: nat)
    requires p <= |t|
    requires forall j :: 0 <= j < p ==> HealthAt(t[j..]).None?
    ensures SearchHealth(t) == SearchHealth(t[p..])
    decreases p
  {
    if p > 0 {
      assert t[0..] == t;
      var tail := t[1..];
      forall j | 0 <= j < p - 1 ensures HealthAt(tail[j..]).None? {
        assert tail[j..] == t[j + 1..];
      }
      HealthSearchSkips(tail, p - 1);
      assert tail[p - 1..] == t[p..];
    }
  }

  /** The last newline of a run that ends with a newline and then a
      newline-free tail is that newline. */
  lemma {:induction false} LastNewlineBeforeTail(w: string, tail: string)
    requires |w| >= 2 && w[|w| - 1] == '\n'
    requires '\n' !in tail
    ensures LastNewline(w + tail) == Some(|w| - 1)
    decreases |tail|
  {
    if tail == [] {
      assert w + tail == w;
    } else {
      var init := tail[..|tail| - 1];
      assert tail[|tail| - 1] in tail;
      assert (w + tail)[..|w + tail| - 1] == w + init;
      LastNewlineBeforeTail(w, init);
    }
  }

  /** A status, a newline and a tail of the health class form one run of it. */
  lemma HealthRunOfParts(status: string, tail: string)
    requires AllOf(status, IsHealthChar) && AllOf(tail, IsHealthChar)
    ensures AllOf(status + "\n" + tail, IsHealthChar)
  {
    var run := status + "\n" + tail;
    forall i | 0 <= i < |run| ensures IsHealthChar(run[i]) {
      if i < |status| {
        assert run[i] == status[i];
      } else if i > |status| {
        assert run[i] == tail[i - |status| - 1];
      }
    }
  }

  /** After either health label the anchored pattern reads the run of the
      class that follows it. */
  lemma HealthAfterLabel(heading: string, u: string)
    requires heading == AtaHealthLabel || heading == NvmeHealthLabel
    ensures HealthAt(heading + u) ==
      var run := TakeWhile(u, IsHealthChar);
      match LastNewline(run)
      case None => None
      case Some(k) => Some(Strip(run[..k]))
  {
    var t := heading + u;
    assert t[..|heading|] == heading;
    if heading == NvmeHealthLabel {
      assert t[6] == NvmeHealthLabel[6] != AtaHealthLabel[6];
      assert !StartsWith(t, AtaHealthLabel);
    }
    assert t[|heading|..] == u;
  }

  /** A health label, then a run of the pattern's class whose last newline
      ends `status`, gives the stripped status. */
  lemma HealthAtLabel(heading: string, status: string, tail: string, rest: string)
    requires heading == AtaHealthLabel || heading == NvmeHealthLabel
    requires status != [] && AllOf(status, IsHealthChar)
    requires AllOf(tail, IsHealthChar) && '\n' !in tail
    requires rest == [] || !IsHealthChar(rest[0])
    ensures HealthAt(heading + ((status + "\n" + tail) + rest)) == Some(Strip(status))
  {
    var run := status + "\n" + tail;
    HealthAfterLabel(heading, run + rest);
    HealthRunOfParts(status, tail);
    TakeWhileRun(run, rest, IsHealthChar);
    LastNewlineBeforeTail(status + "\n", tail);
    assert run[..|status|] == status;
  }

  /** A health label followed by a run of the pattern's class, with no
      earlier place where the pattern matches, gives the stripped run up to
      its last newline: `status` ends there, and `tail` is the newline-free
      rest of the run (in smartctl's output a blank line and the words of
      the next heading follow the status, and the colon after them ends the
      run). */
  lemma HealthFound(t: string, pre: string, heading: string, status: string, tail: string, rest: string)
    requires t == pre + heading + status + "\n" + tail + rest
    requires heading == AtaHealthLabel || heading == NvmeHealthLabel
    requires forall j :: 0 <= j < |pre| ==> HealthAt(t[j..]).None?
    requires status != [] && AllOf(status, IsHealthChar)
    requires AllOf(tail, IsHealthChar) && '\n' !in tail
    requires rest == [] || !IsHealthChar(rest[0])
    ensures SearchHealth(t) == Some(Strip(status))
  {
    var u := heading + ((status + "\n" + tail) + rest);
    assert t == pre + u;
    HealthSearchSkips(pre + u, |pre|);
    assert (pre + u)[|pre|..] == u;
    HealthAtLabel(heading, status, tail, rest);
  }

  /** Whitespace in front of a text does not change its words. */
  lemma TokensIndented(indent: string, s: string)
    requires AllOf(indent, IsSpace)
    ensures Tokens(indent + s) == Tokens(s)
  {
    TrimLeftIndent(indent, s);
  }

  /** A word followed by whitespace or the end is the first of the words. */
  lemma TokensCons(w: string, rest: string)
    requires w != [] && AllOf(w, NotSpace)
    requires rest == [] || IsSpace(rest[0])
    ensures Tokens(w + rest) == [w] + Tokens(rest)
  {
    TrimLeftSpaces("", w + rest);
    assert "" + (w + rest) == w + rest;
    WordRun(w, rest);
    assert (w + rest)[|w|..] == rest;
  }

  /** The first of several space-joined words is the first token. */
  lemma TokensJoinFirst(ws: seq<string>)
    requires |ws| > 1 && ws[0] != [] && AllOf(ws[0], NotSpace)
    ensures Tokens(Join(ws, " ")) == [ws[0]] + Tokens(Join(ws[1..], " "))
  {
    var more := Join(ws[1..], " ");
    assert Join(ws, " ") == ws[0] + (" " + more);
    TokensCons(ws[0], " " + more);
    TokensIndented(" ", more);
  }

  /** Space-joined words, the first followed by the tokens of the rest. */
  lemma TokensJoinStep(ws: seq<string>)
    requires |ws| > 1 && ws[0] != [] && AllOf(ws[0], NotSpace)
    requires Tokens(Join(ws[1..], " ")) == ws[1..]
    ensures Tokens(Join(ws, " ")) == ws
  {
    var tail := ws[1..];
    assert ws == [ws[0]] + tail;
    TokensJoinFirst(ws);
  }

  lemma TokensOfEmpty()
    ensures Tokens("") == []
  {
  }

  /** An empty text has no words. */
  lemma TokensOfNothing(ws: seq<string>)
    requires ws == []
    ensures Tokens(Join(ws, " ")) == ws
  {
    TokensOfEmpty();
  }

  /** A single word is its only token. */
  lemma TokensOfOneWord(w: string)
    requires w != [] && AllOf(w, NotSpace)
    ensures Tokens(w) == [w]
  {
    TokensCons(w, "");
    assert w + "" == w;
    TokensOfEmpty();
  }

  lemma TokensOfWord(ws: seq<string>)
    requires |ws| == 1 && ws[0] != [] && AllOf(ws[0], NotSpace)
    ensures Tokens(Join(ws, " ")) == ws
  {
    TokensOfOneWord(ws[0]);
  }

  /** Words as `split()` returns them: non-empty, without whitespace. */
  predicate AreWords(ws: seq<string>) {
    forall k :: 0 <= k < |ws| ==> ws[k] != [] && AllOf(ws[k], NotSpace)
  }

  lemma TailWords(ws: seq<string>)
    requires AreWords(ws) && ws != []
    ensures AreWords(ws[1..])
  {
    var tail := ws[1..];
    forall k | 0 <= k < |tail| ensures tail[k] != [] && AllOf(tail[k], NotSpace) {
      assert tail[k] == ws[k + 1];
    }
  }

  /** Words written with single spaces between them are what `split()` gives back. */
  lemma {:induction false} TokensOfWords(ws: seq<string>)
    requires AreWords(ws)
    ensures Tokens(Join(ws, " ")) == ws
    decreases |ws|
  {
    if ws == [] {
      TokensOfNothing(ws);
    } else if |ws| == 1 {
      TokensOfWord(ws);
    } else {
      TailWords(ws);
      TokensOfWords(ws[1..]);
      TokensJoinStep(ws);
    }
  }

  /** A line of ten or more words in the column classes, the tenth starting
      with a digit, is an attribute row keyed by its ID whose raw value is the
      tenth word's leading digit run. */
  lemma AttributeRowAccepted(indent: string, ws: seq<string>)
    requires AllOf(indent, IsSpace)
    requires |ws| >= 10 && AreWords(ws)
    requires IsDigits(ws[0]) && AllOf(ws[1], IsWordOrDash)
    requires AllOf(ws[2], IsWordChar) && AllOf(ws[3], IsWordChar) && AllOf(ws[4], IsWordChar)
    requires AllOf(ws[5], IsWordOrDash) && AllOf(ws[6], IsWordOrDash) && AllOf(ws[7], IsWordChar)
    requires AllOf(ws[8], IsWhenFailedChar) && IsDigit(ws[9][0])
    ensures AttributeRowAt(indent + Join(ws, " ")) ==
      Some((ws[0], Row(AttributeRow(ws[1], ws[2], ws[3], ws[4], ws[5], ws[6], ws[7], ws[8],
                                    TakeWhile(ws[9], IsDigit)))))
  {
    TokensIndented(indent, Join(ws, " "));
    TokensOfWords(ws);
  }

  /** Every attribute row comes from one line. */
  lemma {:induction false} RowsComeFromLines(lines: seq<string>, e: (string, SmartEntry))
    requires e in AttributeRows(lines)
    ensures exists k :: 0 <= k < |lines| && AttributeRowAt(lines[k]) == Some(e)
  {
    if AttributeRowAt(lines[0]) != Some(e) {
      assert e in AttributeRows(lines[1..]);
      RowsComeFromLines(lines[1..], e);
      var k :| 0 <= k < |lines[1..]| && AttributeRowAt(lines[1..][k]) == Some(e);
      assert lines[k + 1] == lines[1..][k];
    }
  }

  /** An ID no line of `lines` has is not a key of their rows. */
  lemma RowsWithout(lines: seq<string>, id: string)
    requires forall k :: 0 <= k < |lines| ==> AttributeRowAt(lines[k]).None? || AttributeRowAt(lines[k]).value.0 != id
    ensures id !in Collect(AttributeRows(lines))
  {
    var rows := AttributeRows(lines);
    if id in Collect(rows) {
      CollectKeys(rows, id);
      var n :| 0 <= n < |rows| && rows[n].0 == id;
      RowsComeFromLines(lines, rows[n]);
    }
  }

  /** A first line carrying `id`, when no other line does, puts its row in the dict. */
  lemma RowsHeadRecorded(lines: seq<string>, id: string, e: SmartEntry)
    requires lines != [] && AttributeRowAt(lines[0]) == Some((id, e))
    requires id !in Collect(AttributeRows(lines[1..]))
    ensures id in Collect(AttributeRows(lines)) && Collect(AttributeRows(lines))[id] == e
  {
    var rest := AttributeRows(lines[1..]);
    assert AttributeRows(lines) == [(id, e)] + rest;
    CollectConcat([(id, e)], rest);
    assert Collect([(id, e)]) == Collect<SmartEntry>([])[id := e];
  }

  /** A row recorded from the later lines is kept whatever the first line is. */
  lemma RowsTailRecorded(lines: seq<string>, id: string)
    requires lines != [] && id in Collect(AttributeRows(lines[1..]))
    ensures id in Collect(AttributeRows(lines))
    ensures Collect(AttributeRows(lines))[id] == Collect(AttributeRows(lines[1..]))[id]
  {
    var rest := AttributeRows(lines[1..]);
    if AttributeRowAt(lines[0]).Some? {
      var x := AttributeRowAt(lines[0]).value;
      assert AttributeRows(lines) == [x] + rest;
      CollectConcat([x], rest);
    } else {
      assert AttributeRows(lines) == rest;
    }
  }

  /** Dropping the first line keeps "no line after `j` carries `id`". */
  lemma UnrepeatedInTail(lines: seq<string>, j: nat, id: string)
    requires 0 < |lines| && j < |lines|
    requires forall k :: j < k < |lines| ==> AttributeRowAt(lines[k]).None? || AttributeRowAt(lines[k]).value.0 != id
    ensures forall k :: j - 1 < k < |lines| - 1 ==>
      AttributeRowAt(lines[1..][k]).None? || AttributeRowAt(lines[1..][k]).value.0 != id
  {
    forall k | j - 1 < k < |lines| - 1
      ensures AttributeRowAt(lines[1..][k]).None? || AttributeRowAt(lines[1..][k]).value.0 != id
    {
      assert lines[1..][k] == lines[k + 1];
    }
  }

  /** An attribute line whose ID no later attribute line repeats gives the
      dict its row. */
  lemma {:induction false} RowLineRecorded(lines: seq<string>, j: nat, id: string, e: SmartEntry)
    requires j < |lines| && AttributeRowAt(lines[j]) == Some((id, e))
    requires forall k :: j < k < |lines| ==> AttributeRowAt(lines[k]).None? || AttributeRowAt(lines[k]).value.0 != id
    ensures id in Collect(AttributeRows(lines)) && Collect(AttributeRows(lines))[id] == e
    decreases j
  {
    UnrepeatedInTail(lines, j, id);
    if j == 0 {
      RowsWithout(lines[1..], id);
      RowsHeadRecorded(lines, id, e);
    } else {
      assert lines[1..][j - 1] == lines[j];
      RowLineRecorded(lines[1..], j - 1, id, e);
      RowsTailRecorded(lines, id);
    }
  }

  /** In the SMART section of a completed fetch on an `sd` disk with SMART
      enabled, an attribute line whose ID no later line repeats is the
      `smart_data` entry of that ID. */
  lemma AtaRowRecorded(name: string, output: string, j: nat, id: string, e: SmartEntry)
    requires StartsWith(name, "sd") && SupportOf(output) == "Enabled"
    requires SectionsOf(name, SupportOf(output), output).Sections?
    requires SectionsOf(name, SupportOf(output), output).smart.Some?
    requires var lines := Lines(SectionsOf(name, SupportOf(output), output).smart.value);
      && j < |lines| && AttributeRowAt(lines[j]) == Some((id, e))
      && forall k :: j < k < |lines| ==> AttributeRowAt(lines[k]).None? || AttributeRowAt(lines[k]).value.0 != id
    ensures id in Fetch(name, Finished(output)).capture.data
    ensures Fetch(name, Finished(output)).capture.data[id] == e
  {
    RowLineRecorded(Lines(SectionsOf(name, SupportOf(output), output).smart.value), j, id, e);
  }

  /** Turning the values into text fields keeps the keys and wraps each value. */
  lemma {:induction false} CollectFields(ms: seq<(string, string)>, k: string)
    ensures k in Collect(FieldEntries(ms)) <==> k in Collect(ms)
    ensures k in Collect(ms) ==> Collect(FieldEntries(ms))[k] == Field(Collect(ms)[k])
  {
    if ms != [] {
      var init := ms[..|ms| - 1];
      assert FieldEntries(ms)[..|ms| - 1] == FieldEntries(init);
      CollectFields(init, k);
    }
  }

  /** In the SMART section of a completed fetch on an `nvme` device, a label
      line with a value, whose label no later line repeats, is the text field
      of that label in `smart_data`. */
  lemma NvmeFieldRecorded(name: string, output: string, j: nat, key: string, value: string)
    requires StartsWith(name, "nvme")
    requires SectionsOf(name, SupportOf(output), output).Sections?
    requires SectionsOf(name, SupportOf(output), output).smart.Some?
    requires var lines := Lines(SectionsOf(name, SupportOf(output), output).smart.value);
      && NoBlankValues(lines) && j < |lines|
      && PlainField(lines[j], j + 1 < |lines|) == Some((key, value))
      && forall k :: j < k < |lines| ==>
           PlainField(lines[k], k + 1 < |lines|).None? || PlainField(lines[k], k + 1 < |lines|).value.0 != key
    ensures key in Fetch(name, Finished(output)).capture.data
    ensures Fetch(name, Finished(output)).capture.data[key] == Field(value)
  {
    ClassPrefixesDisjoint(name);
    var text := SectionsOf(name, SupportOf(output), output).smart.value;
    LabelLineRecorded(Lines(text), 0, j, key, value);
    CollectFields(LabelMatches(text), key);
  }
}
