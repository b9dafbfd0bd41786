/** The `Device` object of devices.py: a device path, its name, and the five
    fields `fetch_smart` rebuilds from the text `smartctl -a` prints. */
module Devices {
  import opened Text
  import opened SmartctlParser

  /** `path.split('/')[-1]`: the last component of a device path. */
  function LastComponent(path: string): string {
    var parts := Split(path, "/");
    parts[|parts| - 1]
  }

  /** The name holds no `/` and ends the path, right after a `/` when the
      path has one; a path without `/` is its own name. */
  lemma LastComponentIsSuffix(path: string)
    ensures !Contains(LastComponent(path), "/")
    ensures |LastComponent(path)| <= |path|
    ensures LastComponent(path) == path[|path| - |LastComponent(path)|..]
    ensures !Contains(path, "/") ==> LastComponent(path) == path
    ensures Contains(path, "/") ==>
      |LastComponent(path)| < |path| && path[|path| - |LastComponent(path)| - 1] == '/'
  {
    var parts := Split(path, "/");
    var last := parts[|parts| - 1];
    SplitPiecesFree(path, "/");
    SplitSingle(path, "/");
    if |parts| > 1 {
      var init := parts[..|parts| - 1];
      assert parts == init + [last];
      JoinSnoc(init, last, "/");
      var head := Join(init, "/");
      assert path == head + "/" + last;
      assert path[|path| - |last|..] == last;
      assert path[|path| - |last| - 1] == '/';
    }
  }

  class Device {
    const path: string
    const name: string
    var smartData: map<string, SmartEntry>
    var smartInfo: map<string, string>
    var smartHealth: string
    var smartSupport: string
    var vendorModel: string

    /** The five fields as one value. */
    function Snapshot(): Capture
      reads this
    {
      Capture(smartData, smartInfo, smartHealth, smartSupport, vendorModel)
    }

    /** `Device(path)`: the name is the last path component and the fields
        hold their reset values. */
    constructor (path: string)
      ensures this.path == path && name == LastComponent(path)
      ensures Snapshot() == Reset
    {
      this.path := path;
      name := LastComponent(path);
      smartData := map[];
      smartInfo := map[];
      smartHealth := Unknown;
      smartSupport := Unknown;
      vendorModel := "";
    }

    /** `fetch_smart`, given what running `smartctl -a` on the path gave:
        resets the five fields, then fills them from the text; `raised` says
        whether and how the call ended in an exception. The fields and the
        outcome are exactly those of `Fetch`, and they are well formed. */
    method FetchSmart(run: SmartctlRun) returns (raised: Raised)
      modifies this
      ensures Fetched(Snapshot(), raised) == Fetch(name, run)
      ensures WellFormed(name, Snapshot())
    {
      smartData := map[];
      smartInfo := map[];
      smartHealth := Unknown;
      smartSupport := Unknown;
      vendorModel := "";
      FetchWellFormed(name, run);

      if run.TimedOut? {
        return TimeoutExpired;
      }
      var output := run.output;

      var support := SearchSupport(output);
      if support.Some? {
        smartSupport := support.value;
      }
      if Contains(output, UsbBridgeText) {
        smartHealth := UsbBridge;
      }

      var sections := SectionsOf(name, smartSupport, output);
      if sections.SplitFailed? {
        return Completed;
      } else if sections.InfoMissing? {
        return IndexError;
      }

      FillSections(output, sections.info, sections.smart);
      return Completed;
    }

    /** Everything after the section split: the health line, the info
        fields, the SMART data for the device class and the vendor text. */
    method FillSections(output: string, infoText: string, smartText: Option<string>)
      modifies this
      requires smartData == map[] && smartInfo == map[] && vendorModel == ""
      ensures smartInfo == Collect(LabelMatches(infoText))
      ensures smartData == SmartData(name, smartSupport, smartText)
      ensures smartHealth == SearchHealth(output).GetOr(old(smartHealth))
      ensures smartSupport == old(smartSupport)
      ensures vendorModel == VendorSignature(smartInfo)
    {
      var health := SearchHealth(output);
      if health.Some? {
        smartHealth := health.value;
      }

      CollectInfo(LabelMatches(infoText));
      match smartText {
        case None =>
        case Some(text) =>
          if StartsWith(name, "sd") && smartSupport == "Enabled" {
            CollectData(AttributeRows(Lines(text)));
          } else if StartsWith(name, "nvme") {
            CollectFields(LabelMatches(text));
          }
      }
      AppendVendorSignature();
    }

    /** Fills `smart_info` from the label matches of the information section,
        one entry per match in order, so a repeated label keeps its last value. */
    method CollectInfo(fields: seq<(string, string)>)
      modifies this
      requires smartInfo == map[]
      ensures smartInfo == Collect(fields)
      ensures smartData == old(smartData) && smartHealth == old(smartHealth)
      ensures smartSupport == old(smartSupport) && vendorModel == old(vendorModel)
    {
      var i := 0;
      while i < |fields|
        invariant 0 <= i <= |fields|
        invariant smartInfo == Collect(fields[..i])
        invariant smartData == old(smartData) && smartHealth == old(smartHealth)
        invariant smartSupport == old(smartSupport) && vendorModel == old(vendorModel)
      {
        assert fields[..i + 1][..i] == fields[..i];
        smartInfo := smartInfo[fields[i].0 := fields[i].1];
        i := i + 1;
      }
      assert fields[..i] == fields;
    }

    /** The attribute-row loop: each row stored under its ID. */
    method CollectData(rows: seq<(string, SmartEntry)>)
      modifies this
      requires smartData == map[]
      ensures smartData == Collect(rows)
      ensures smartInfo == old(smartInfo) && smartHealth == old(smartHealth)
      ensures smartSupport == old(smartSupport) && vendorModel == old(vendorModel)
    {
      var j := 0;
      while j < |rows|
        invariant 0 <= j <= |rows|
        invariant smartData == Collect(rows[..j])
        invariant smartInfo == old(smartInfo) && smartHealth == old(smartHealth)
        invariant smartSupport == old(smartSupport) && vendorModel == old(vendorModel)
      {
        assert rows[..j + 1][..j] == rows[..j];
        smartData := smartData[rows[j].0 := rows[j].1];
        j := j + 1;
      }
      assert rows[..j] == rows;
    }

    /** The NVMe loop: each label match of the SMART section stored as text. */
    method CollectFields(ms: seq<(string, string)>)
      modifies this
      requires smartData == map[]
      ensures smartData == Collect(FieldEntries(ms))
      ensures smartInfo == old(smartInfo) && smartHealth == old(smartHealth)
      ensures smartSupport == old(smartSupport) && vendorModel == old(vendorModel)
    {
      var entries := FieldEntries(ms);
      var j := 0;
      while j < |ms|
        invariant 0 <= j <= |ms|
        invariant smartData == Collect(entries[..j])
        invariant smartInfo == old(smartInfo) && smartHealth == old(smartHealth)
        invariant smartSupport == old(smartSupport) && vendorModel == old(vendorModel)
      {
        assert entries[..j + 1][..j] == entries[..j];
        smartData := smartData[ms[j].0 := Field(ms[j].1)];
        j := j + 1;
      }
      assert entries[..j] == entries;
    }

    /** Appends the lowercased `Vendor`, `Model Family` and `Product` fields
        to the empty `vendor_model`. */
    method AppendVendorSignature()
      modifies this
      requires vendorModel == ""
      ensures vendorModel == VendorSignature(smartInfo)
      ensures smartInfo == old(smartInfo) && smartData == old(smartData)
      ensures smartHealth == old(smartHealth) && smartSupport == old(smartSupport)
    {
      if "Vendor" in smartInfo {
        vendorModel := vendorModel + Lower(smartInfo["Vendor"]);
      }
      if "Model Family" in smartInfo {
        vendorModel := vendorModel + Lower(smartInfo["Model Family"]);
      }
      if "Product" in smartInfo {
        vendorModel := vendorModel + Lower(smartInfo["Product"]);
      }
    }
  }
}
