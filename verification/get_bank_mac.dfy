/**
 * `get_bank_mac.py`: a setup helper that scans for nearby Bluetooth devices
 * and reports the first one whose name mentions the bank, or lists the named
 * devices it saw instead.
 */
module GetBankMac {
  import opened Wrappers
  import opened Text
  import opened BleService

  const BankNameMarker: string := "MeshBank"
  const UnknownName: string := "Unknown"

  /** `d.name or "Unknown"`. */
  function DisplayName(d: Device): (name: string)
    ensures name != ""
    ensures d.name.Some? && d.name.value != "" ==> name == d.name.value
  {
    if d.name.Some? && d.name.value != "" then d.name.value else UnknownName
  }

  /** `"MeshBank" in name`. */
  predicate IsBank(d: Device) {
    Contains(DisplayName(d), BankNameMarker)
  }

  /** `if d.name:` in the listing loop. */
  predicate IsNamed(d: Device) {
    d.name.Some? && d.name.value != ""
  }

  /** A line of the fallback listing: name and address. */
  datatype Listed = Listed(name: string, address: string)

  /** What the helper reports. */
  datatype Report =
    | FoundBank(name: string, address: string)
    | NotFound(listed: seq<Listed>)
    | ScanFailed   // `discover` raised: "Error: ..."

  /** The first device whose display name mentions the bank. */
  function FirstBank(devices: seq<Device>): (r: Option<Device>)
    ensures r.Some? ==> r.value in devices && IsBank(r.value)
    ensures r.None? <==> forall i :: 0 <= i < |devices| ==> !IsBank(devices[i])
  {
    if devices == [] then None
    else if IsBank(devices[0]) then Some(devices[0])
    else FirstBank(devices[1..])
  }

  /** The named devices, in scan order. */
  function Listing(devices: seq<Device>): (r: seq<Listed>)
    ensures |r| <= |devices|
    ensures forall i :: 0 <= i < |r| ==> r[i].name != ""
  {
    if devices == [] then []
    else if IsNamed(devices[0]) then [Listed(devices[0].name.value, devices[0].address)] + Listing(devices[1..])
    else Listing(devices[1..])
  }

  /** The report for a scan outcome; None when the scan raised. */
  function BankReport(scan: Option<seq<Device>>): Report {
    match scan
    case None => ScanFailed
    case Some(devices) =>
      match FirstBank(devices)
      case Some(d) => FoundBank(DisplayName(d), d.address)
      case None => NotFound(Listing(devices))
  }

  /** `main()`: the search loop that stops at the first match, then the listing loop when none matched. */
  method FindBank(scan: Option<seq<Device>>) returns (report: Report)
    ensures report == BankReport(scan)
  {
    if scan.None? {
      return ScanFailed;
    }
    var devices := scan.value;
    var found := false;
    var i := 0;
    while i < |devices|
      invariant 0 <= i <= |devices|
      invariant FirstBank(devices) == FirstBank(devices[i..])
    {
      var name := DisplayName(devices[i]);
      if Contains(name, BankNameMarker) {
        report := FoundBank(name, devices[i].address);
        found := true;
        break;
      }
      assert devices[i..][1..] == devices[i + 1..];
      i := i + 1;
    }
    if !found {
      var listed := [];
      for j := 0 to |devices|
        invariant Listing(devices) == listed + Listing(devices[j..])
      {
        assert devices[j..][1..] == devices[j + 1..];
        if IsNamed(devices[j]) {
          listed := listed + [Listed(devices[j].name.value, devices[j].address)];
        }
      }
      report := NotFound(listed);
    }
  }

  /** The device `FirstBank` picks is the first in scan order whose name mentions the bank. */
  lemma {:induction false} FirstBankIsFirst(devices: seq<Device>)
    requires FirstBank(devices).Some?
    ensures exists i :: 0 <= i < |devices| && devices[i] == FirstBank(devices).value
                        && forall j :: 0 <= j < i ==> !IsBank(devices[j])
  {
    if !IsBank(devices[0]) {
      FirstBankIsFirst(devices[1..]);
      var i :| 0 <= i < |devices[1..]| && devices[1..][i] == FirstBank(devices[1..]).value
               && forall j :: 0 <= j < i ==> !IsBank(devices[1..][j]);
      forall j | 0 <= j < i + 1 ensures !IsBank(devices[j]) {
        if j > 0 {
          assert devices[j] == devices[1..][j - 1];
        }
      }
      assert devices[i + 1] == FirstBank(devices).value;
    } else {
      assert devices[0] == FirstBank(devices).value;
    }
  }

  /** The reported device is the first in scan order whose name mentions the bank, under its display name. */
  lemma FoundIsFirstBank(devices: seq<Device>)
    requires BankReport(Some(devices)).FoundBank?
    ensures exists i :: 0 <= i < |devices| && IsBank(devices[i])
                        && BankReport(Some(devices)) == FoundBank(DisplayName(devices[i]), devices[i].address)
                        && forall j :: 0 <= j < i ==> !IsBank(devices[j])
  {
    FirstBankIsFirst(devices);
  }

  /** A device without a name is shown as "Unknown" and can never be taken for the bank. */
  lemma UnnamedIsNeverBank(d: Device)
    requires !IsNamed(d)
    ensures DisplayName(d) == UnknownName && !IsBank(d)
  {
  }

  /**
   * When no bank is found, the listing shows every named device's name and
   * address and nothing else, and none of those names mentions the bank.
   */
  lemma {:induction false} ListingIsNamedDevices(devices: seq<Device>)
    ensures forall l :: l in Listing(devices) <==>
              exists i :: 0 <= i < |devices| && IsNamed(devices[i]) && l == Listed(devices[i].name.value, devices[i].address)
    ensures FirstBank(devices).None? ==> forall l :: l in Listing(devices) ==> !Contains(l.name, BankNameMarker)
  {
    if devices != [] {
      ListingIsNamedDevices(devices[1..]);
      assert forall i :: 0 < i < |devices| ==> devices[i] == devices[1..][i - 1];
    }
  }

  /**
   * The listing is built device by device in scan order: the listing of a
   * concatenation is the concatenation of the listings, so each scanned device
   * contributes its own line (when named) at its own place.
   */
  lemma {:induction false} ListingAppend(a: seq<Device>, b: seq<Device>)
    ensures Listing(a + b) == Listing(a) + Listing(b)
    decreases |a|
  {
    if a != [] {
      assert (a + b)[1..] == a[1..] + b;
      ListingAppend(a[1..], b);
    } else {
      assert a + b == b;
    }
  }
}
