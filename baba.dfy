/** The display rules of baba.py: picking fields by priority (`grabber`),
    shortening cells (`short`), turning one device's fetch and analyses into
    a report row (`valuechecker`), the lifetime colour bands and the list of
    devices to show. */
module Baba {
  import opened Text
  import opened PyValues
  import opened SmartctlParser
  import opened DeviceAnalysis
  import Devices

  // ---------------------------------------------------------------------
  // grabber

  /** The values of the attributes present in `d`, in list order. */
  function Present(d: map<string, string>, attributes: seq<string>): (r: seq<string>)
    ensures |r| <= |attributes|
    ensures forall v :: v in r <==> exists a :: a in attributes && a in d && d[a] == v
    ensures (forall a :: a in attributes ==> a !in d) ==> r == []
  {
    if attributes == [] then []
    else
      var last := attributes[|attributes| - 1];
      var init := Present(d, attributes[..|attributes| - 1]);
      init + (if last in d then [d[last]] else [])
  }

  /** The values from the first non-empty one on. */
  function DropLeadingEmpty(vs: seq<string>): (r: seq<string>)
    ensures r != [] ==> r[0] != ""
    ensures (forall i :: 0 <= i < |vs| ==> vs[i] == "") <==> r == []
  {
    if vs == [] then []
    else if vs[0] == "" then DropLeadingEmpty(vs[1..])
    else vs
  }

  /** What `grabber(d, attributes)` returns: the present values joined by
      single spaces, leading empty values contributing nothing, or `-` when
      that leaves an empty text. */
  function Grab(d: map<string, string>, attributes: seq<string>): string {
    var joined := Join(DropLeadingEmpty(Present(d, attributes)), " ");
    if joined == "" then "-" else joined
  }

  /** `grabber`: appends each present value, after a space once the text is
      non-empty. */
  method Grabber(d: map<string, string>, attributes: seq<string>) returns (r: string)
    ensures r == Grab(d, attributes)
  {
    var rv := "";
    var i := 0;
    while i < |attributes|
      invariant 0 <= i <= |attributes|
      invariant rv == Join(DropLeadingEmpty(Present(d, attributes[..i])), " ")
    {
      var attr := attributes[i];
      PresentStep(d, attributes, i);
      if attr in d {
        GrabStep(Present(d, attributes[..i]), d[attr]);
        assert Present(d, attributes[..i + 1]) == Present(d, attributes[..i]) + [d[attr]];
        if rv != "" {
          rv := rv + " ";
        }
        rv := rv + d[attr];
      } else {
        assert Present(d, attributes[..i + 1]) == Present(d, attributes[..i]);
      }
      i := i + 1;
    }
    assert attributes[..i] == attributes;
    if rv != "" {
      return rv;
    }
    return "-";
  }

  /** The first attribute's value, when present, comes first. */
  lemma {:induction false} PresentCons(d: map<string, string>, a: string, attributes: seq<string>)
    ensures Present(d, [a] + attributes) == (if a in d then [d[a]] else []) + Present(d, attributes)
  {
    if attributes != [] {
      var init := attributes[..|attributes| - 1];
      assert ([a] + attributes)[..|attributes|] == [a] + init;
      PresentCons(d, a, init);
    } else {
      assert [a] + attributes == [a];
    }
  }

  lemma PresentStep(d: map<string, string>, attributes: seq<string>, i: nat)
    requires i < |attributes|
    ensures Present(d, attributes[..i + 1]) ==
      Present(d, attributes[..i]) + (if attributes[i] in d then [d[attributes[i]]] else [])
  {
    assert attributes[..i + 1][..i] == attributes[..i];
  }

  /** A join is empty only when it joins nothing or one empty part. */
  lemma JoinStartsWithFirst(parts: seq<string>, sep: string)
    requires parts != []
    ensures StartsWith(Join(parts, sep), parts[0])
  {
  }

  lemma {:induction false} DropSnoc(vs: seq<string>, v: string)
    ensures DropLeadingEmpty(vs + [v]) ==
      if DropLeadingEmpty(vs) == [] then (if v == "" then [] else [v]) else DropLeadingEmpty(vs) + [v]
  {
    if vs != [] {
      assert (vs + [v])[0] == vs[0];
      if vs[0] == "" {
        assert (vs + [v])[1..] == vs[1..] + [v];
        DropSnoc(vs[1..], v);
      }
    } else {
      assert vs + [v] == [v];
    }
  }

  /** One step of `grabber`: a space goes before the value once the text is
      non-empty. */
  lemma GrabStep(vs: seq<string>, v: string)
    ensures var j := Join(DropLeadingEmpty(vs), " ");
      Join(DropLeadingEmpty(vs + [v]), " ") == (if j != "" then j + " " else "") + v
  {
    var dropped := DropLeadingEmpty(vs);
    DropSnoc(vs, v);
    if dropped != [] {
      JoinStartsWithFirst(dropped, " ");
      JoinSnoc(dropped, v, " ");
    }
  }

  /** `grabber` gives `-` exactly when no present attribute has a non-empty
      value or the joined values are themselves `-`; the first present
      non-empty value starts the result. */
  lemma GrabDash(d: map<string, string>, attributes: seq<string>)
    ensures (forall i :: 0 <= i < |Present(d, attributes)| ==> Present(d, attributes)[i] == "") ==>
      Grab(d, attributes) == "-"
    ensures DropLeadingEmpty(Present(d, attributes)) != [] ==>
      StartsWith(Grab(d, attributes), DropLeadingEmpty(Present(d, attributes))[0])
  {
    var dropped := DropLeadingEmpty(Present(d, attributes));
    if dropped != [] {
      JoinStartsWithFirst(dropped, " ");
    }
  }

  // ---------------------------------------------------------------------
  // short

  /** Python's normalisation of a slice bound `i` on a text of length `n`. */
  function SliceIndex(n: nat, i: int): (r: nat)
    ensures r <= n
    ensures 0 <= i <= n ==> r == i
    ensures -(n as int) <= i < 0 ==> r == n + i
  {
    if i >= 0 then (if i <= n then i else n)
    else if n + i >= 0 then n + i else 0
  }

  /** `int(max_len / 2 - len('[..]') / 2)`: half of `max_len - 4`, truncated
      toward zero. */
  function HalfWidth(maxLen: int): int {
    var m := maxLen - 4;
    if m >= 0 then m / 2 else -((-m) / 2)
  }

  /** `short(s, max_len)`: in verbose mode the text and a bar; a text longer
      than `max_len` becomes its first and last `k` characters around `[..]`;
      anything else is kept. */
  function Short(s: string, maxLen: int, verbose: bool): string {
    if verbose then s + " | "
    else if |s| > maxLen then
      var k := HalfWidth(maxLen);
      s[..SliceIndex(|s|, k)] + "[..]" + s[SliceIndex(|s|, -k)..]
    else s
  }

  /** A text that fits is shown unchanged. */
  lemma ShortKeepsFittingText(s: string, maxLen: int)
    requires |s| <= maxLen
    ensures Short(s, maxLen, false) == s
  {
  }

  /** A too-long text with room for at least one character on each side
      keeps `k` characters of each end and fits in `max_len`. */
  lemma ShortTruncates(s: string, maxLen: int)
    requires |s| > maxLen >= 6
    ensures var k := (maxLen - 4) / 2;
      1 <= k && Short(s, maxLen, false) == s[..k] + "[..]" + s[|s| - k..]
    ensures |Short(s, maxLen, false)| <= maxLen
    ensures |Short(s, maxLen, false)| >= maxLen - 1
  {
  }

  /** With `max_len` 4 or 5 the half width is 0, and `s[-0:]` is the whole
      text: the "shortened" text is longer than the original. */
  lemma ShortZeroWidthKeepsAll(s: string, maxLen: int)
    requires |s| > maxLen && (maxLen == 4 || maxLen == 5)
    ensures Short(s, maxLen, false) == "[..]" + s
    ensures |Short(s, maxLen, false)| > |s|
  {
  }

  /** The column widths of the table (Vendor / Model, Serial, Firmware, Size,
      Runtime, Written, Rpm, Life, S.M.A.R.T.); a cell is shortened to one
      less than its column width. */
  const ColumnWidths: seq<int> := [26, 21, 10, 9, 12, 10, 6, 6, 10]

  /** In every column wider than 6 a shortened cell fits the column. */
  lemma ShortFitsWideColumns(s: string, i: nat)
    requires i < |ColumnWidths| && ColumnWidths[i] > 6
    ensures |Short(s, ColumnWidths[i] - 1, false)| < ColumnWidths[i]
  {
    if |s| > ColumnWidths[i] - 1 {
      ShortTruncates(s, ColumnWidths[i] - 1);
    }
  }

  // ---------------------------------------------------------------------
  // valuechecker

  /** A report cell: a Python value, or a byte count that `convert_bytes`
      renders with the given number of decimals. */
  datatype Cell = Shown(value: PyValue) | Bytes(count: int, precision: nat)

  const Dash := Shown(PyStr("-"))
  const Unsure := Shown(PyStr("?"))

  /** The row `valuechecker` returns, before the sysfs fallbacks. */
  datatype Report = Report(
    model: Cell, serial: Cell, firmware: Cell, size: Cell, runtime: Cell,
    written: Cell, rotation: Cell, lifetime: Cell, smart: Cell)

  const Blank := Report(Dash, Dash, Dash, Dash, Dash, Dash, Dash, Dash, Dash)

  const TimedOutReport := Blank.(smart := Shown(PyStr("TIMEOUT")), lifetime := Unsure,
                                 rotation := Unsure, runtime := Unsure, written := Unsure)

  /** `value or '-'`. */
  function OrDash(v: PyValue): (r: Cell)
    ensures Truthy(v) ==> r == Shown(v)
    ensures !Truthy(v) ==> r == Dash
  {
    if Truthy(v) then Shown(v) else Dash
  }

  /** Bytes per unit of the written count: NVMe data units are thousands of
      512-byte units; other disks count 512-byte LBAs, or 32 KB with `-w`. */
  function WrittenUnit(name: string, writtenIn32k: bool): nat {
    if StartsWith(name, "nvme") then 512 * 1000
    else if writtenIn32k then 32000
    else 512
  }

  /** The model field candidates by device class. */
  function ModelAttributes(name: string): seq<string> {
    if StartsWith(name, "nvme") then ["Model Number", "Device Model"]
    else if StartsWith(name, "sd") || StartsWith(name, "vd") then ["Model Family", "Vendor", "Device Model", "Product"]
    else ["Vendor", "Product"]
  }

  /** The SMART cell: `analyse('health')`, except for optical drives. */
  function SmartCell(name: string, c: Capture): (r: Outcome<Cell>)
    requires WellFormed(name, c)
    ensures r.Raises? ==> r.error == ValueError
    ensures StartsWith(name, "sr") ==> r == Ok(Dash)
    ensures !StartsWith(name, "sr") ==>
      if Health(name, c).Ok? then r == Ok(Shown(PyStr(Health(name, c).value))) else r.Raises?
  {
    if StartsWith(name, "sr") then Ok(Dash)
    else
      var h :- Analyse(name, c, "health");
      Ok(Shown(h))
  }

  /** The size cell: `convert_bytes(int(size))` of `analyse('size')` when that
      is a non-empty text, whose `int` cannot fail. */
  function SizeCell(name: string, c: Capture): (r: Cell)
    requires WellFormed(name, c)
    ensures r == Dash <==> Size(c).None? || Size(c).value == []
    ensures r != Dash ==> r.Bytes? && Int(Size(c).value) == Ok(r.count) && r.precision == 0
  {
    var size := Analyse(name, c, "size");
    if size.Ok? && Truthy(size.value) then
      ParseDigits(size.value.s);
      Bytes(DigitsValue(size.value.s), 0)
    else Dash
  }

  /** The written cell for the value `analyse('written')` gave: its text up
      to ` [`, without dots, read by `int` and counted in bytes; `-` for a
      falsy value. */
  function WrittenCell(name: string, written: PyValue, writtenIn32k: bool): (r: Outcome<Cell>)
    requires written.PyNone? || written.PyStr?
    ensures r.Raises? ==> r.error == ValueError
    ensures !Truthy(written) ==> r == Ok(Dash)
    ensures Truthy(written) ==>
      var n := Int(Remove(Before(written.s, " ["), '.'));
      if n.Ok? then r == Ok(Bytes(n.value * WrittenUnit(name, writtenIn32k), 1)) else r.Raises?
  {
    if Truthy(written) then
      var n :- Int(Remove(Before(written.s, " ["), '.'));
      Ok(Bytes(n * WrittenUnit(name, writtenIn32k), 1))
    else Ok(Dash)
  }

  /** The lifetime cell: `lifetime or '-'`. */
  function LifetimeCell(lifetime: Option<int>): (r: Cell)
    ensures lifetime.None? || lifetime.value == 0 ==> r == Dash
    ensures lifetime.Some? && lifetime.value != 0 ==> r == Shown(PyInt(lifetime.value))
  {
    match lifetime
    case Some(l) => OrDash(PyInt(l))
    case None => Dash
  }

  /** The analysed part of `valuechecker` for a supported device class: each
      cell from `analyse` of its mode, in the order the source asks for them;
      the row exists exactly when none of those calls raises. */
  function Analysed(name: string, c: Capture, writtenIn32k: bool): (r: Outcome<Report>)
    requires WellFormed(name, c)
    ensures r.Raises? ==> r.error == ValueError
    ensures r.Ok? <==> SmartCell(name, c).Ok? && Runtime(name, c).Ok? && Lifetime(name, c).Ok?
                       && WrittenCell(name, StrOrNone(Written(name, c)), writtenIn32k).Ok?
  {
    var model := Shown(PyStr(Grab(c.info, ModelAttributes(name))));
    var firmware := Shown(PyStr(Grab(c.info, ["Firmware Version", "Revision"])));
    var serial := Shown(PyStr(Grab(c.info, ["Serial Number", "Serial number"])));
    var smart :- SmartCell(name, c);
    var size := SizeCell(name, c);
    var runtime :- Analyse(name, c, "runtime");
    var rotation := Analyse(name, c, "rotation").value;
    var lifetime :- Analyse(name, c, "lifetime");
    var written :- WrittenCell(name, Analyse(name, c, "written").value, writtenIn32k);
    Ok(Report(model, serial, firmware, size, OrDash(runtime), written, OrDash(rotation), OrDash(lifetime), smart))
  }

  /** `valuechecker` (up to the sysfs fallbacks) for the device called
      `name`, from how its fetch ended. */
  function Combine(name: string, f: Fetched, writtenIn32k: bool): (r: Outcome<Report>)
    requires WellFormed(name, f.capture)
  {
    match f.raised
    case IndexError => Raises(PyValues.IndexError)
    case TimeoutExpired => Ok(TimedOutReport)
    case Completed =>
      if StartsWith(name, "nvme") || StartsWith(name, "sd") || StartsWith(name, "sr") || StartsWith(name, "vd")
      then Analysed(name, f.capture, writtenIn32k)
      else Ok(Blank)
  }

  /** `valuechecker(path)`, given what `smartctl -a path` gave. */
  function CheckValues(path: string, run: SmartctlRun, writtenIn32k: bool): Outcome<Report> {
    var name := Devices.LastComponent(path);
    FetchWellFormed(name, run);
    Combine(name, Fetch(name, run), writtenIn32k)
  }

  /** `valuechecker`: a new device object, one fetch, then the combination
      of its fields. */
  method ValueChecker(path: string, run: SmartctlRun, writtenIn32k: bool) returns (r: Outcome<Report>)
    ensures r == CheckValues(path, run, writtenIn32k)
  {
    var device := new Devices.Device(path);
    var raised := device.FetchSmart(run);
    r := Combine(device.name, Fetched(device.Snapshot(), raised), writtenIn32k);
  }

  /** The runtime and rotation columns: a falsy value (`False`, `0`, an empty
      text, no rotation) is shown as a dash, any other value as itself. */
  lemma AnalysedDashes(name: string, c: Capture, writtenIn32k: bool)
    requires WellFormed(name, c) && Analysed(name, c, writtenIn32k).Ok?
    ensures Runtime(name, c).Ok?
    ensures var report := Analysed(name, c, writtenIn32k).value;
      var runtime := Runtime(name, c).value;
      && (runtime == PyFalse || runtime == PyInt(0) ==> report.runtime == Dash)
      && (Truthy(runtime) ==> report.runtime == Shown(runtime))
    ensures var report := Analysed(name, c, writtenIn32k).value;
      && (Rotation(name, c).None? ==> report.rotation == Dash)
      && (Rotation(name, c) == Some("") ==> report.rotation == Dash)
      && (Rotation(name, c).Some? && Rotation(name, c).value != "" ==>
            report.rotation == Shown(PyStr(Rotation(name, c).value)))
  {
  }

  /** The other analysed columns: the lifetime cell of `_lifetime`'s value,
      the SMART, size and written cells, and the grabbed texts. */
  lemma AnalysedCells(name: string, c: Capture, writtenIn32k: bool)
    requires WellFormed(name, c) && Analysed(name, c, writtenIn32k).Ok?
    ensures Lifetime(name, c).Ok? && SmartCell(name, c).Ok?
    ensures WrittenCell(name, StrOrNone(Written(name, c)), writtenIn32k).Ok?
    ensures var report := Analysed(name, c, writtenIn32k).value;
      && report.lifetime == LifetimeCell(Lifetime(name, c).value)
      && report.smart == SmartCell(name, c).value
      && report.size == SizeCell(name, c)
      && report.written == WrittenCell(name, StrOrNone(Written(name, c)), writtenIn32k).value
      && report.model == Shown(PyStr(Grab(c.info, ModelAttributes(name))))
      && report.firmware == Shown(PyStr(Grab(c.info, ["Firmware Version", "Revision"])))
      && report.serial == Shown(PyStr(Grab(c.info, ["Serial Number", "Serial number"])))
  {
  }

  /** A timed-out `smartctl` shows `TIMEOUT` and `?` for runtime, written,
      rotation and lifetime, without any analysis. */
  lemma TimeoutSkipsAnalysis(path: string, writtenIn32k: bool)
    ensures CheckValues(path, TimedOut, writtenIn32k) == Ok(TimedOutReport)
    ensures TimedOutReport.smart == Shown(PyStr("TIMEOUT")) && TimedOutReport.lifetime == Unsure
    ensures TimedOutReport.model == Dash && TimedOutReport.size == Dash
  {
  }

  /** A missing information marker on an optical drive escapes `valuechecker`
      as IndexError. */
  lemma MissingInformationMarkerEscapes(path: string, output: string, writtenIn32k: bool)
    requires StartsWith(Devices.LastComponent(path), "sr") && !Contains(output, InformationMarker)
    ensures CheckValues(path, Finished(output), writtenIn32k) == Raises(PyValues.IndexError)
  {
    var name := Devices.LastComponent(path);
    ClassPrefixesDisjoint(name);
    MissingInformationMarkerRaises(name, output);
  }

  /** ATA written bytes: the Total_LBAs_Written raw count times 512, or times
      32000 with `-w`. */
  lemma AtaWrittenScaling(name: string, c: Capture, writtenIn32k: bool)
    requires WellFormed(name, c) && StartsWith(name, "sd") && TotalLbasWritten in c.data
    ensures !StartsWith(name, "nvme")
    ensures WrittenCell(name, StrOrNone(Written(name, c)), writtenIn32k) == Ok(
      Bytes(Raw(c.data, TotalLbasWritten) * (if writtenIn32k then 32000 else 512), 1))
  {
    ClassPrefixesDisjoint(name);
    var w := c.data[TotalLbasWritten].row.rawValue;
    assert Written(name, c) == Some(w);
    WrittenCellOf(name, c, writtenIn32k, w);
    RemoveAbsent(w, '.');
  }

  /** NVMe written bytes: the leading number of `Data Units Written`, a run
      of digits and dots such as `1.234.567`, read without its dots, times
      512000 bytes. */
  lemma NvmeWrittenScaling(name: string, c: Capture, writtenIn32k: bool, g: string, rest: string)
    requires WellFormed(name, c) && StartsWith(name, "nvme")
    requires DataUnitsWritten in c.data && c.data[DataUnitsWritten].text == g + rest
    requires g != [] && IsDigit(g[0]) && (forall i :: 0 <= i < |g| ==> IsDigitOrDot(g[i]))
    requires rest == [] || !IsDigitOrDot(rest[0])
    ensures IsDigits(Remove(g, '.'))
    ensures WrittenCell(name, StrOrNone(Written(name, c)), writtenIn32k) == Ok(Bytes(DigitsValue(Remove(g, '.')) * 512000, 1))
  {
    WrittenStopsAtSeparator(name, c, g, rest);
    WrittenCellOf(name, c, writtenIn32k, g);
  }

  /** A written text that is a run of digits and dots starting with a digit
      gives its dotless value in the device's unit. */
  lemma WrittenCellOf(name: string, c: Capture, writtenIn32k: bool, g: string)
    requires WellFormed(name, c) && Written(name, c) == Some(g)
    requires g != [] && IsDigit(g[0]) && forall i :: 0 <= i < |g| ==> IsDigitOrDot(g[i])
    ensures IsDigits(Remove(g, '.'))
    ensures WrittenCell(name, StrOrNone(Written(name, c)), writtenIn32k) ==
      Ok(Bytes(DigitsValue(Remove(g, '.')) * WrittenUnit(name, writtenIn32k), 1))
  {
    WrittenNumber(g);
  }

  /** `int(w.split(' [')[0].replace('.', ''))` of a run of digits and dots
      that starts with a digit is the value of its digits. */
  lemma WrittenNumber(w: string)
    requires w != [] && IsDigit(w[0]) && forall i :: 0 <= i < |w| ==> IsDigitOrDot(w[i])
    ensures IsDigits(Remove(w, '.'))
    ensures Int(Remove(Before(w, " ["), '.')) == Ok(DigitsValue(Remove(w, '.')))
  {
    RunHasNoBracket(w);
    DotlessDigits(w);
    RemoveKeepsHead(w, '.');
    ParseDigits(Remove(w, '.'));
  }

  /** A run of digits and dots has no ` [` to cut at. */
  lemma RunHasNoBracket(w: string)
    requires forall i :: 0 <= i < |w| ==> IsDigitOrDot(w[i])
    ensures Before(w, " [") == w
  {
    forall j | 0 <= j <= |w| ensures !OccursAt(w, " [", j) {
      if j + 2 <= |w| {
        assert w[j..j + 2][0] == w[j];
      }
    }
  }

  /** Without its dots, a run of digits and dots is all digits. */
  lemma {:induction false} DotlessDigits(w: string)
    requires forall i :: 0 <= i < |w| ==> IsDigitOrDot(w[i])
    ensures IsDigits(Remove(w, '.'))
  {
    if w != [] {
      DotlessDigits(w[1..]);
    }
  }

  // ---------------------------------------------------------------------
  // Lifetime colour bands

  datatype Band = Red | Yellow | Green

  /** The colour of a lifetime percentage: 45 or less red, below 80 yellow,
      green from 80 on. */
  function LifetimeBand(value: int): Band {
    if value <= 45 then Red
    else if value < 80 then Yellow
    else Green
  }

  function Rank(b: Band): nat {
    match b
    case Red => 0
    case Yellow => 1
    case Green => 2
  }

  /** The thresholds: red up to 45, yellow above 45 and below 80, green
      from 80 on. */
  lemma BandThresholds(v: int)
    ensures LifetimeBand(v) == Red <==> v <= 45
    ensures LifetimeBand(v) == Yellow <==> 45 < v < 80
    ensures LifetimeBand(v) == Green <==> v >= 80
  {
  }

  /** More remaining life never gives a worse colour. */
  lemma BandMonotone(v: int, w: int)
    requires v <= w
    ensures Rank(LifetimeBand(v)) <= Rank(LifetimeBand(w))
  {
  }

  /** The band of a lifetime cell: none for `-` and `?`. */
  function CellBand(cell: Cell): (r: Option<Band>)
    ensures cell == Dash || cell == Unsure ==> r == None
    ensures cell.Shown? && cell.value.PyInt? ==> r == Some(LifetimeBand(cell.value.i))
  {
    match cell
    case Shown(PyInt(v)) => Some(LifetimeBand(v))
    case _ => None
  }

  // ---------------------------------------------------------------------
  // The devices to show

  const Supported := ["sd", "mmcblk", "sr", "vd", "nvme"]

  /** `name.startswith(supported)`. */
  predicate IsSupported(name: string) {
    exists i :: 0 <= i < |Supported| && StartsWith(name, Supported[i])
  }

  /** Python's `<` on texts: the first differing character decides, and a
      proper prefix comes first. */
  predicate LexLess(a: string, b: string)
    decreases |a|
  {
    if a == [] then b != []
    else if b == [] then false
    else if a[0] != b[0] then a[0] < b[0]
    else LexLess(a[1..], b[1..])
  }

  /** The order of the sort key `(len(x), x)`, ties included. */
  predicate KeyLeq(a: string, b: string) {
    |a| < |b| || (|a| == |b| && (a == b || LexLess(a, b)))
  }

  lemma {:induction false} LexLessTransitive(a: string, b: string, c: string)
    requires LexLess(a, b) && LexLess(b, c)
    ensures LexLess(a, c)
    decreases |a|
  {
    if a != [] && b != [] && c != [] && a[0] == b[0] && b[0] == c[0] {
      LexLessTransitive(a[1..], b[1..], c[1..]);
    }
  }

  lemma {:induction false} LexLessTotal(a: string, b: string)
    requires a != b
    ensures LexLess(a, b) || LexLess(b, a)
    decreases |a|
  {
    if a != [] && b != [] && a[0] == b[0] {
      assert a == [a[0]] + a[1..] && b == [b[0]] + b[1..];
      LexLessTotal(a[1..], b[1..]);
    }
  }

  lemma KeyLeqTransitive(a: string, b: string, c: string)
    requires KeyLeq(a, b) && KeyLeq(b, c)
    ensures KeyLeq(a, c)
  {
    if |a| == |b| == |c| && a != b && b != c && a != c {
      LexLessTransitive(a, b, c);
    }
  }

  lemma KeyLeqTotal(a: string, b: string)
    ensures KeyLeq(a, b) || KeyLeq(b, a)
  {
    if |a| == |b| && a != b {
      LexLessTotal(a, b);
    }
  }

  predicate SortedByKey(s: seq<string>) {
    forall i, j :: 0 <= i < j < |s| ==> KeyLeq(s[i], s[j])
  }

  /** A name that precedes every element of a sorted list can head it. */
  lemma ConsSorted(x: string, s: seq<string>)
    requires SortedByKey(s)
    requires forall j :: 0 <= j < |s| ==> KeyLeq(x, s[j])
    ensures SortedByKey([x] + s)
  {
    var r := [x] + s;
    forall i, j | 0 <= i < j < |r| ensures KeyLeq(r[i], r[j]) {
      if i > 0 { assert r[i] == s[i - 1] && r[j] == s[j - 1]; }
      else { assert r[j] == s[j - 1]; }
    }
  }

  /** Inserts `x` before the first element it does not follow. */
  function Insert(x: string, s: seq<string>): (r: seq<string>)
    requires SortedByKey(s)
    ensures SortedByKey(r)
    ensures multiset(r) == multiset(s) + multiset{x}
  {
    if s == [] then [x]
    else if KeyLeq(x, s[0]) then
      forall j | 0 <= j < |s| ensures KeyLeq(x, s[j]) {
        if j > 0 { KeyLeqTransitive(x, s[0], s[j]); }
      }
      ConsSorted(x, s);
      [x] + s
    else
      KeyLeqTotal(x, s[0]);
      var rest := Insert(x, s[1..]);
      assert s == [s[0]] + s[1..];
      assert forall j :: 0 <= j < |rest| ==> KeyLeq(s[0], rest[j]) by {
        forall j | 0 <= j < |rest| ensures KeyLeq(s[0], rest[j]) {
          assert rest[j] in multiset(rest);
          assert rest[j] == x || rest[j] in multiset(s[1..]);
          if rest[j] != x {
            var k :| 0 <= k < |s[1..]| && s[1..][k] == rest[j];
          }
        }
      }
      ConsSorted(s[0], rest);
      [s[0]] + rest
  }

  /** `sorted(names, key=lambda x: (len(x), x))`. */
  function SortByKey(names: seq<string>): (r: seq<string>)
    ensures SortedByKey(r)
    ensures multiset(r) == multiset(names)
  {
    if names == [] then []
    else
      assert names == [names[0]] + names[1..];
      Insert(names[0], SortByKey(names[1..]))
  }

  /** The supported names of `names`, in order, each as often as it occurs. */
  function KeepSupported(names: seq<string>): (r: seq<string>)
    ensures forall i :: 0 <= i < |r| ==> IsSupported(r[i])
    ensures forall x :: x in r <==> x in names && IsSupported(x)
    ensures forall x :: multiset(r)[x] == if IsSupported(x) then multiset(names)[x] else 0
  {
    if names == [] then []
    else
      var rest := KeepSupported(names[1..]);
      assert names == [names[0]] + names[1..];
      assert forall x :: x in names <==> x == names[0] || x in names[1..];
      if IsSupported(names[0]) then [names[0]] + rest else rest
  }

  /** Keeping the supported names keeps the order. */
  lemma {:induction false} KeepSupportedSorted(names: seq<string>)
    requires SortedByKey(names)
    ensures SortedByKey(KeepSupported(names))
  {
    if names != [] {
      var rest := KeepSupported(names[1..]);
      KeepSupportedSorted(names[1..]);
      if IsSupported(names[0]) {
        forall j | 0 <= j < |rest| ensures KeyLeq(names[0], rest[j]) {
          assert rest[j] in rest;
          var k :| 0 <= k < |names[1..]| && names[1..][k] == rest[j];
          assert names[k + 1] == rest[j];
        }
        ConsSorted(names[0], rest);
      }
    }
  }

  /** The device list without an argument: the supported names of the
      block-device directory, sorted by length, then by name. */
  function DeviceList(listing: seq<string>): (r: seq<string>)
    ensures SortedByKey(r)
    ensures forall x :: x in r <==> x in listing && IsSupported(x)
    ensures forall x :: multiset(r)[x] == if IsSupported(x) then multiset(listing)[x] else 0
    ensures forall i :: 0 <= i < |r| ==> IsSupported(r[i])
  {
    var sorted := SortByKey(listing);
    KeepSupportedSorted(sorted);
    assert forall x :: x in sorted <==> x in listing by {
      forall x ensures x in sorted <==> x in listing {
        assert x in sorted <==> x in multiset(sorted);
        assert x in listing <==> x in multiset(listing);
      }
    }
    KeepSupported(sorted)
  }

  /** The devices to show: the argument (reduced to its last component when
      it is a `/dev/` path), or the sorted supported list. */
  function SelectedDevices(device: Option<string>, listing: seq<string>): seq<string> {
    match device
    case Some(arg) =>
      if arg == "" then DeviceList(listing)
      else if StartsWith(arg, "/dev/") then [Devices.LastComponent(arg)]
      else [arg]
    case None => DeviceList(listing)
  }

  /** `/dev/<name>` selects `<name>`. */
  lemma DevPathSelectsName(n: string, listing: seq<string>)
    requires '/' !in n
    ensures SelectedDevices(Some("/dev/" + n), listing) == [n]
  {
    var p := "/dev/" + n;
    assert StartsWith(p, "/dev/");
    DevPathPieces(n);
  }

  /** `/dev/<name>` splits at `/` into an empty piece, `dev` and the name. */
  lemma DevPathPieces(n: string)
    requires '/' !in n
    ensures Split("/dev/" + n, "/") == ["", "dev", n]
  {
    var p := "/dev/" + n;
    assert IndexOf(p, "/") == Some(0) by { assert StartsWith(p, "/"); }
    var t := p[1..];
    assert t == "dev/" + n;
    assert IndexOf(t, "/") == Some(3) by {
      assert t[..4] == "dev/";
      assert OccursAt(t, "/", 3) by { assert t[3..4] == "/"; }
      assert t[0..1] == "d" && t[1..2] == "e" && t[2..3] == "v";
    }
    assert t[4..] == n;
    assert IndexOf(n, "/") == None by {
      forall j | 0 <= j <= |n| ensures !OccursAt(n, "/", j) {
        if j < |n| { assert n[j..j + 1][0] == n[j]; }
      }
    }
    assert Split(n, "/") == [n];
    assert Split(t, "/") == [t[..3]] + [n];
    assert t[..3] == "dev";
  }
}
