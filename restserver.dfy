/** The configuration and paired-device helpers of the REST server: how a
    loaded configuration is reconciled with the default key set, how the
    list of paired devices is updated, searched and filtered, and which
    scanned devices are offered as Nuki candidates. */
module RestServer {
  import opened Basics
  import opened Text

  // ---------------------------------------------------------------------
  // Configuration
  // ---------------------------------------------------------------------

  /** A JSON value, as the configuration file holds them. */
  datatype Json =
    | Null
    | Bool(b: bool)
    | Int(i: int)
    | Str(s: string)
    | Arr(items: seq<Json>)
    | Obj(fields: map<string, Json>)

  /** The keys of a freshly generated configuration. */
  const DefaultConfigKeys: set<string> :=
    {"appName", "appId", "privateKey", "publicKey", "pairedDevices", "apiPort", "apiBindAddress"}

  /** A freshly generated configuration. The application id is drawn at
      random and the key pair is generated by a crypto library; both arrive
      here as parameters. */
  function DefaultConfig(appId: int, privateKey: string, publicKey: string): (c: map<string, Json>)
    ensures c.Keys == DefaultConfigKeys
    ensures c["pairedDevices"] == Arr([])
    ensures c["appId"] == Int(appId)
  {
    map[
      "appName" := Str("pyNukiServer"),
      "appId" := Int(appId),
      "privateKey" := Str(privateKey),
      "publicKey" := Str(publicKey),
      "pairedDevices" := Arr([]),
      "apiPort" := Int(51001),
      "apiBindAddress" := Str("0.0.0.0")
    ]
  }

  /** The reconciled dictionary: the reference's keys, each carrying the
      target's value when the target has that key and the reference's value
      otherwise. */
  function Synced<V>(reference: map<string, V>, target: map<string, V>): (r: map<string, V>)
    ensures r.Keys == reference.Keys
    ensures forall k :: k in reference && k in target ==> r[k] == target[k]
    ensures forall k :: k in reference && k !in target ==> r[k] == reference[k]
  {
    map k | k in reference :: if k in target then target[k] else reference[k]
  }

  /** `sync_dictionaries`: drop the target's keys that the reference lacks,
      then add every reference key the target is missing, with the
      reference's value. */
  method SyncDictionaries<V>(reference: map<string, V>, target: map<string, V>) returns (r: map<string, V>)
    ensures r.Keys == reference.Keys
    ensures forall k :: k in reference && k in target ==> r[k] == target[k]
    ensures forall k :: k in reference && k !in target ==> r[k] == reference[k]
    ensures r == Synced(reference, target)
  {
    r := map k | k in target && k in reference :: target[k];
    var todo := reference.Keys;
    while todo != {}
      invariant todo <= reference.Keys
      invariant forall k :: k in r <==> k in reference && (k in target || k !in todo)
      invariant forall k :: k in r && k in target ==> r[k] == target[k]
      invariant forall k :: k in r && k !in target ==> r[k] == reference[k]
      decreases todo
    {
      var k :| k in todo;
      if k !in r {
        r := r[k := reference[k]];
      }
      todo := todo - {k};
    }
  }

  /** Reconciling an already reconciled dictionary changes nothing. */
  lemma SyncedIdempotent<V>(reference: map<string, V>, target: map<string, V>)
    ensures Synced(reference, Synced(reference, target)) == Synced(reference, target)
  {
  }

  /** A target that already has exactly the reference's keys is kept as it
      is, values included. */
  lemma SyncedKeepsConforming<V>(reference: map<string, V>, target: map<string, V>)
    requires target.Keys == reference.Keys
    ensures Synced(reference, target) == target
  {
  }

  /** Whatever configuration is loaded, once reconciled against a default
      configuration it holds exactly the default keys, and keeps the loaded
      list of paired devices when it had one. */
  lemma LoadedConfigHasDefaultKeys(loaded: map<string, Json>, appId: int, privateKey: string, publicKey: string)
    ensures Synced(DefaultConfig(appId, privateKey, publicKey), loaded).Keys == DefaultConfigKeys
    ensures "pairedDevices" in loaded ==>
      Synced(DefaultConfig(appId, privateKey, publicKey), loaded)["pairedDevices"] == loaded["pairedDevices"]
  {
  }

  // ---------------------------------------------------------------------
  // Paired devices
  // ---------------------------------------------------------------------

  /** One entry of the configuration's `pairedDevices` list: its MAC address
      and the other keys it holds (authId, devicePublicKey, name, id). */
  datatype PairedDevice = PairedDevice(address: string, attrs: map<string, Json>)

  /** The three ways the source compares two addresses. */
  datatype CaseRule =
    | IgnoreCaseByUpper   // `a.upper() == b.upper()`, in the upsert
    | IgnoreCaseByLower   // `a.lower() == b.lower()`, in the lookups
    | ExactCase           // `a == b`, in unpair

  predicate SameAddress(rule: CaseRule, a: string, b: string) {
    match rule
    case IgnoreCaseByUpper => Upper(a) == Upper(b)
    case IgnoreCaseByLower => Lower(a) == Lower(b)
    case ExactCase => a == b
  }

  /** `i` is the position of the first entry whose address matches `address`
      under `rule`. */
  ghost predicate IsFirstMatch(devices: seq<PairedDevice>, rule: CaseRule, address: string, i: int) {
    && 0 <= i < |devices|
    && SameAddress(rule, devices[i].address, address)
    && forall j :: 0 <= j < i ==> !SameAddress(rule, devices[j].address, address)
  }

  ghost predicate NoMatch(devices: seq<PairedDevice>, rule: CaseRule, address: string) {
    forall j :: 0 <= j < |devices| ==> !SameAddress(rule, devices[j].address, address)
  }

  /** The position of the first matching entry, if any: the `next(...)` over
      a generator and the `for`/`enumerate` search of the source. */
  function FirstMatch(devices: seq<PairedDevice>, rule: CaseRule, address: string): (r: Option<nat>)
    ensures r.Some? ==> IsFirstMatch(devices, rule, address, r.value)
    ensures r.None? <==> NoMatch(devices, rule, address)
  {
    if |devices| == 0 then None
    else if SameAddress(rule, devices[0].address, address) then Some(0)
    else
      match FirstMatch(devices[1..], rule, address)
      case None => None
      case Some(i) => Some(i + 1)
  }

  /** The list after `replace_or_add_entry_by_address`. */
  function Upserted(devices: seq<PairedDevice>, entry: PairedDevice): seq<PairedDevice> {
    match FirstMatch(devices, IgnoreCaseByUpper, entry.address)
    case Some(i) => devices[i := entry]
    case None => devices + [entry]
  }

  /** `replace_or_add_entry_by_address`: walk the list; at the first entry
      whose upper-cased address equals the new entry's, put the new entry
      there and stop; when none does, append the new entry. */
  method ReplaceOrAddEntryByAddress(devices: seq<PairedDevice>, entry: PairedDevice) returns (r: seq<PairedDevice>)
    ensures r == Upserted(devices, entry)
  {
    var i := 0;
    while i < |devices|
      invariant 0 <= i <= |devices|
      invariant NoMatch(devices[..i], IgnoreCaseByUpper, entry.address)
    {
      if Upper(devices[i].address) == Upper(entry.address) {
        r := devices[i := entry];
        assert IsFirstMatch(devices, IgnoreCaseByUpper, entry.address, i);
        return;
      }
      i := i + 1;
    }
    r := devices + [entry];
  }

  /** When some entry's address matches ignoring case, the first such entry is
      replaced, the length is kept and every other position is untouched. */
  lemma UpsertReplacesFirstMatch(devices: seq<PairedDevice>, entry: PairedDevice, i: int)
    requires IsFirstMatch(devices, IgnoreCaseByUpper, entry.address, i)
    ensures |Upserted(devices, entry)| == |devices|
    ensures Upserted(devices, entry)[i] == entry
    ensures forall j :: 0 <= j < |devices| && j != i ==> Upserted(devices, entry)[j] == devices[j]
  {
    var r := FirstMatch(devices, IgnoreCaseByUpper, entry.address);
    assert r.Some? && r.value == i;
  }

  /** When no entry matches, the new entry is appended after the unchanged
      old entries. */
  lemma UpsertAppendsWhenAbsent(devices: seq<PairedDevice>, entry: PairedDevice)
    requires NoMatch(devices, IgnoreCaseByUpper, entry.address)
    ensures Upserted(devices, entry) == devices + [entry]
    ensures |Upserted(devices, entry)| == |devices| + 1
  {
  }

  /** Upserting the same entry twice gives the list of upserting it once. */
  lemma UpsertIdempotent(devices: seq<PairedDevice>, entry: PairedDevice)
    ensures Upserted(Upserted(devices, entry), entry) == Upserted(devices, entry)
  {
    var once := Upserted(devices, entry);
    match FirstMatch(devices, IgnoreCaseByUpper, entry.address)
    case Some(i) =>
      assert IsFirstMatch(once, IgnoreCaseByUpper, entry.address, i);
      UpsertReplacesFirstMatch(once, entry, i);
      assert once[i := entry] == once;
    case None =>
      assert IsFirstMatch(once, IgnoreCaseByUpper, entry.address, |devices|);
      UpsertReplacesFirstMatch(once, entry, |devices|);
      assert once[|devices| := entry] == once;
  }

  /** Why a request about a paired device is refused. */
  datatype AddressError =
    | MissingAddress            // the address is absent or empty (ValueError, or HTTP 400 in unpair)
    | NotPaired(address: string) // no entry has this address (LookupError, or HTTP 400 in unpair)

  /** Python's truthiness test `not address` for an optional string. */
  predicate Missing(address: Option<string>) {
    address.None? || address.value == ""
  }

  /** The paired-device lookup of `update_and_save_device_info` and
      `async_get_paired_device`: refuse a missing address, then return the
      first entry whose lower-cased address equals the lower-cased request,
      or refuse when there is none. */
  function FindPairedDevice(devices: seq<PairedDevice>, address: Option<string>): (r: Result<PairedDevice, AddressError>)
    ensures r == Err(MissingAddress) <==> Missing(address)
    ensures r.Err? && r.error.NotPaired? <==>
      !Missing(address) && NoMatch(devices, IgnoreCaseByLower, address.value)
    ensures r.Err? && r.error.NotPaired? ==> r.error.address == address.value
    ensures r.Ok? <==> !Missing(address) && !NoMatch(devices, IgnoreCaseByLower, address.value)
    ensures r.Ok? ==> exists i :: IsFirstMatch(devices, IgnoreCaseByLower, address.value, i) && r.value == devices[i]
  {
    if Missing(address) then Err(MissingAddress)
    else
      match FirstMatch(devices, IgnoreCaseByLower, address.value)
      case None => Err(NotPaired(address.value))
      case Some(i) => Ok(devices[i])
  }

  /** The name/id update of `update_and_save_device_info`: after the lookup
      above succeeds, the matched entry gets the device's name and id; every
      other entry, and the matched entry's address and other keys, stay. */
  function UpdateDeviceInfo(devices: seq<PairedDevice>, address: Option<string>, name: Json, id: Json)
    : (r: Result<seq<PairedDevice>, AddressError>)
    ensures r.Err? <==> FindPairedDevice(devices, address).Err?
    ensures r.Err? ==> r.error == FindPairedDevice(devices, address).error
    ensures r.Ok? ==> |r.value| == |devices|
    ensures r.Ok? ==> exists i :: && IsFirstMatch(devices, IgnoreCaseByLower, address.value, i)
                                  && r.value[i].address == devices[i].address
                                  && r.value[i].attrs == devices[i].attrs["name" := name]["id" := id]
                                  && forall j :: 0 <= j < |devices| && j != i ==> r.value[j] == devices[j]
  {
    if Missing(address) then Err(MissingAddress)
    else
      match FirstMatch(devices, IgnoreCaseByLower, address.value)
      case None => Err(NotPaired(address.value))
      case Some(i) =>
        var d := devices[i];
        Ok(devices[i := d.(attrs := d.attrs["name" := name]["id" := id])])
  }

  /** The entries whose address equals `address` exactly (the first
      comprehension of `unpair`). */
  function WithAddress(devices: seq<PairedDevice>, address: string): (r: seq<PairedDevice>)
    ensures forall d :: d in r <==> d in devices && d.address == address
  {
    if devices == [] then []
    else (if devices[0].address == address then [devices[0]] else []) + WithAddress(devices[1..], address)
  }

  /** The entries whose address differs from `address` (the second
      comprehension of `unpair`), in their original order. */
  function WithoutAddress(devices: seq<PairedDevice>, address: string): (r: seq<PairedDevice>)
    ensures forall d :: d in r <==> d in devices && d.address != address
    ensures |r| + |WithAddress(devices, address)| == |devices|
  {
    if devices == [] then []
    else (if devices[0].address != address then [devices[0]] else []) + WithoutAddress(devices[1..], address)
  }

  /** Filtering keeps the order: the filter of a concatenation is the
      concatenation of the filters. */
  lemma {:induction false} WithoutAddressAppend(a: seq<PairedDevice>, b: seq<PairedDevice>, address: string)
    ensures WithoutAddress(a + b, address) == WithoutAddress(a, address) + WithoutAddress(b, address)
  {
    if a == [] {
      assert a + b == b;
    } else {
      var head := if a[0].address != address then [a[0]] else [];
      assert (a + b)[0] == a[0];
      assert (a + b)[1..] == a[1..] + b;
      calc {
        WithoutAddress(a + b, address);
        head + WithoutAddress(a[1..] + b, address);
        { WithoutAddressAppend(a[1..], b, address); }
        head + (WithoutAddress(a[1..], address) + WithoutAddress(b, address));
        (head + WithoutAddress(a[1..], address)) + WithoutAddress(b, address);
        WithoutAddress(a, address) + WithoutAddress(b, address);
      }
    }
  }

  /** An entry list with no entry of that address passes through unchanged. */
  lemma {:induction false} WithoutAbsentAddress(devices: seq<PairedDevice>, address: string)
    requires forall d :: d in devices ==> d.address != address
    ensures WithoutAddress(devices, address) == devices
  {
    if devices != [] {
      WithoutAbsentAddress(devices[1..], address);
    }
  }

  /** `unpair`: refuse a missing address and an address that no entry has
      exactly; otherwise drop every entry with exactly that address. */
  function Unpair(devices: seq<PairedDevice>, address: Option<string>): (r: Result<seq<PairedDevice>, AddressError>)
    ensures r == Err(MissingAddress) <==> Missing(address)
    ensures r.Err? && r.error.NotPaired? <==>
      !Missing(address) && forall d :: d in devices ==> d.address != address.value
    ensures r.Ok? ==> forall d :: d in r.value <==> d in devices && d.address != address.value
    ensures r.Ok? ==> r.value == WithoutAddress(devices, address.value)
    ensures r.Ok? ==> |r.value| < |devices|
  {
    if Missing(address) then Err(MissingAddress)
    else
      var matching := WithAddress(devices, address.value);
      if matching == [] then Err(NotPaired(address.value))
      else
        assert matching[0] in matching;
        Ok(WithoutAddress(devices, address.value))
  }

  /** The three comparisons really differ: an entry paired as lower case is
      found by the lookup but cannot be unpaired with the upper-case
      spelling. */
  lemma UnpairIsCaseSensitive()
    ensures var devices := [PairedDevice("52:d2:72:00:00:01", map[])];
            var request := Some("52:D2:72:00:00:01");
            FindPairedDevice(devices, request).Ok? && Unpair(devices, request) == Err(NotPaired(request.value))
  {
    var devices := [PairedDevice("52:d2:72:00:00:01", map[])];
    var a := "52:D2:72:00:00:01";
    assert Lower(devices[0].address) == Lower(a);
    assert devices[0].address != a;
  }

  // ---------------------------------------------------------------------
  // Scanning
  // ---------------------------------------------------------------------

  /** A device reported by the BLE scan. */
  datatype Discovered = Discovered(name: Option<string>, address: Option<string>, rssi: int)

  /** The test of `scan`: a non-empty name starting with "Nuki", or a
      non-empty address whose upper-cased form starts with the Nuki vendor
      prefix 52:D2:72:. */
  predicate IsNukiCandidate(d: Discovered) {
    || (d.name.Some? && d.name.value != "" && "Nuki" <= d.name.value)
    || (d.address.Some? && d.address.value != "" && "52:D2:72:" <= Upper(d.address.value))
  }

  /** The candidates among the scanned devices, in discovery order. */
  function Candidates(devices: seq<Discovered>): (r: seq<Discovered>)
    ensures forall d :: d in r <==> d in devices && IsNukiCandidate(d)
    ensures |r| <= |devices|
  {
    if devices == [] then []
    else Candidates(devices[..|devices| - 1])
         + (if IsNukiCandidate(devices[|devices| - 1]) then [devices[|devices| - 1]] else [])
  }

  /** The candidate list keeps discovery order: candidates of a concatenation
      are the concatenation of the candidates. */
  lemma {:induction false} CandidatesAppend(a: seq<Discovered>, b: seq<Discovered>)
    ensures Candidates(a + b) == Candidates(a) + Candidates(b)
  {
    if b == [] {
      assert a + b == a;
    } else {
      assert (a + b)[..|a + b| - 1] == a + b[..|b| - 1];
      CandidatesAppend(a, b[..|b| - 1]);
    }
  }

  /** A scanned device is a candidate exactly when its name starts with
      "Nuki" or its upper-cased address starts with 52:D2:72: (the
      non-emptiness tests of the source add nothing). */
  lemma CandidateIff(d: Discovered)
    ensures IsNukiCandidate(d) <==>
      (d.name.Some? && "Nuki" <= d.name.value) || (d.address.Some? && "52:D2:72:" <= Upper(d.address.value))
  {
    if d.address.Some? && "52:D2:72:" <= Upper(d.address.value) {
      assert |Upper(d.address.value)| >= 9;
    }
  }

  /** The loop of `scan` that collects candidates. */
  method ScanCandidates(devices: seq<Discovered>) returns (candidates: seq<Discovered>)
    ensures candidates == Candidates(devices)
  {
    candidates := [];
    for i := 0 to |devices|
      invariant candidates == Candidates(devices[..i])
    {
      assert devices[..i + 1][..i] == devices[..i];
      if IsNukiCandidate(devices[i]) {
        candidates := candidates + [devices[i]];
      }
    }
    assert devices[..|devices|] == devices;
  }
}
