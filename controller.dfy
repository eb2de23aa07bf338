/**
 * `Controller` (aiohomekit/controller/controller.py): the registry of
 * pairings a HomeKit controller keeps, its load/save loop over a parsed
 * pairing file, its shutdown loop and the two discovery loops. Every call
 * into a pairing, a scanner or the file system is an input: the outcome that
 * call has.
 */
module Controller {
  import opened Common
  import opened Exceptions
  import opened Support
  import opened PairingRegistry
  import opened Discovery

  /** The calls `remove_pairing` makes on the pairing object, in order. */
  datatype PairingCall = RemoteRemove(pairingId: string) | Close

  /** How opening and parsing the pairing file turned out in `load_data`. */
  datatype ReadOutcome =
    | FileNotFound
    | ReadPermissionDenied
    | ParseFailure
    /** Any other exception from `open` or `json.load`; `load_data` lets it through. */
    | ReadRaised(error: Error)
    /** The parsed JSON object: its entries in order, alias to pairing data. */
    | Parsed(doc: seq<(string, PairingData)>)

  /** How opening and writing the pairing file turned out in `save_data`. */
  datatype WriteOutcome =
    | Written
    | WritePermissionDenied
    | WriteNotFound
    /** Any other exception from `open` or `json.dump`; `save_data` lets it through. */
    | WriteRaised(error: Error)

  function NotFoundMessage(alias: string): string {
    "Alias \"" + alias + "\" is not found."
  }

  function LoadPermissionMessage(filename: string): string {
    "Could not open \"" + filename + "\" due to missing permissions"
  }

  function ParseMessage(filename: string): string {
    "Cannot parse \"" + filename + "\" as JSON file"
  }

  function SavePermissionMessage(filename: string): string {
    "Could not write \"" + filename + "\" due to missing permissions"
  }

  function SaveNotFoundMessage(filename: string): string {
    "Could not write \"" + filename + "\" because it (or the folder) does not exist"
  }

  class Controller {
    /** `self.pairings`: alias to pairing. */
    var pairings: map<string, Pairing>
    /** The iteration order of `self.pairings`. */
    var order: seq<string>
    const bleAdapter: string
    /** `IP_TRANSPORT_SUPPORTED` and `BLE_TRANSPORT_SUPPORTED`. */
    const transports: Transports

    function State(): Registry
      reads this
    {
      Registry(order, pairings)
    }

    ghost predicate Valid()
      reads this
    {
      PairingRegistry.Valid(State(), transports)
    }

    /** An empty controller. */
    constructor(transports: Transports, bleAdapter: string := "hci0")
      ensures State() == Empty && Valid()
      ensures this.bleAdapter == bleAdapter && this.transports == transports
    {
      this.pairings := map[];
      this.order := [];
      this.bleAdapter := bleAdapter;
      this.transports := transports;
    }

    /** `self.pairings[alias] = pairing`. */
    method Store(alias: string, pairing: Pairing)
      requires Valid() && IsLoadedPairing(transports, pairing)
      modifies this
      ensures State() == Put(old(State()), alias, pairing)
      ensures Valid()
    {
      PutValid(State(), transports, alias, pairing);
      if alias !in pairings {
        order := order + [alias];
      }
      pairings := pairings[alias := pairing];
    }

    /**
     * `load_pairing`: fills in `Connection` in the caller's record (returned
     * as `data`), builds the pairing and stores it under `alias`; on an
     * exception the registry is untouched.
     */
    method LoadPairing(alias: string, pairingData: PairingData) returns (r: Result<Pairing, Error>, data: PairingData)
      requires Valid()
      modifies this
      ensures Valid()
      ensures data == WithDefaultConnection(pairingData)
      ensures r == BuildPairing(transports, data)
      ensures r.Success? ==> State() == Put(old(State()), alias, r.value)
      ensures r.Failure? ==> State() == old(State())
    {
      data := pairingData;
      if ConnectionKey !in data {
        data := data[ConnectionKey := "IP"];
      }
      if data[ConnectionKey] == "IP" {
        if !transports.ip {
          return Failure(TransportNotSupported("IP")), data;
        }
        var pairing := IpPairing(data);
        Store(alias, pairing);
        return Success(pairing), data;
      }
      if data[ConnectionKey] == "BLE" {
        if !transports.ble {
          return Failure(TransportNotSupported("BLE")), data;
        }
        var pairing := BlePairing(data);
        Store(alias, pairing);
        return Success(pairing), data;
      }
      var connectionType := data[ConnectionKey];
      return Failure(NotImplemented(connectionType + " support")), data;
    }

    /** `get_pairings`: the registry's dict itself. */
    function GetPairings(): (r: map<string, Pairing>)
      reads this
      requires Valid()
      ensures forall a :: a in r <==> a in order
      ensures forall a :: a in r ==> r[a] == pairings[a] && IsLoadedPairing(transports, r[a])
    {
      pairings
    }

    /**
     * `remove_pairing`: an unknown alias raises AccessoryNotFoundError; else
     * the accessory is asked to remove the record's `iOSPairingId`, the
     * pairing is closed, and only then is the alias deleted. An exception
     * from either call ends the method with the entry still present.
     */
    method RemovePairing(alias: string, remoteRemove: Outcome<Error>, close: Outcome<Error>)
      returns (r: Outcome<Error>, calls: seq<PairingCall>)
      requires Valid()
      modifies this
      ensures Valid()
      ensures alias !in old(pairings) ==>
        r == Fail(AccessoryNotFound(NotFoundMessage(alias))) && calls == [] && State() == old(State())
      ensures alias in old(pairings) && PairingIdKey !in old(pairings)[alias].pairingData ==>
        r == Fail(KeyError(PairingIdKey)) && calls == [] && State() == old(State())
      ensures alias in old(pairings) && PairingIdKey in old(pairings)[alias].pairingData ==>
        var id := old(pairings)[alias].pairingData[PairingIdKey];
        && (remoteRemove.Fail? ==> r == remoteRemove && calls == [RemoteRemove(id)] && State() == old(State()))
        && (remoteRemove.Pass? ==> r == close && calls == [RemoteRemove(id), Close])
        && (remoteRemove.Pass? && close.Fail? ==> State() == old(State()))
        && (remoteRemove.Pass? && close.Pass? ==> State() == Remove(old(State()), alias))
    {
      if alias !in pairings {
        return Fail(AccessoryNotFound(NotFoundMessage(alias))), [];
      }
      var pairing := pairings[alias];
      if PairingIdKey !in pairing.pairingData {
        return Fail(KeyError(PairingIdKey)), [];
      }
      var primaryPairingId := pairing.pairingData[PairingIdKey];
      calls := [RemoteRemove(primaryPairingId)];
      if remoteRemove.Fail? {
        return remoteRemove, calls;
      }
      calls := calls + [Close];
      if close.Fail? {
        return close, calls;
      }
      RemoveValid(State(), transports, alias);
      order := Without(order, alias);
      pairings := pairings - {alias};
      r := Pass;
    }

    /**
     * `shutdown`: closes the pairings in registry order; the first `close`
     * that raises ends the loop with its exception. The registry itself is
     * not changed.
     */
    method Shutdown(closeFailures: map<string, Error>) returns (closed: seq<string>, r: Outcome<Error>)
      requires Valid()
      ensures r.Pass? <==> forall a :: a in order ==> a !in closeFailures
      ensures r.Pass? ==> closed == order
      ensures r.Fail? ==>
        && 0 < |closed| <= |order| && closed == order[..|closed|]
        && closed[|closed| - 1] in closeFailures
        && r.error == closeFailures[closed[|closed| - 1]]
        && forall j :: 0 <= j < |closed| - 1 ==> closed[j] !in closeFailures
    {
      closed := [];
      var i := 0;
      while i < |order|
        invariant 0 <= i <= |order|
        invariant closed == order[..i]
        invariant forall j :: 0 <= j < i ==> order[j] !in closeFailures
      {
        var alias := order[i];
        closed := closed + [alias];
        if alias in closeFailures {
          return closed, Fail(closeFailures[alias]);
        }
        i := i + 1;
      }
      r := Pass;
    }

    /**
     * `load_data`: a missing file loads nothing and is not an error; a
     * permission or parse failure raises ConfigLoadingError; otherwise each
     * entry goes through `load_pairing` in order, and an exception from one
     * propagates with the entries before it loaded.
     */
    method LoadData(filename: string, read: ReadOutcome) returns (r: Outcome<Error>)
      requires Valid()
      modifies this
      ensures Valid()
      ensures read.FileNotFound? ==> r == Pass && State() == old(State())
      ensures read.ReadPermissionDenied? ==>
        r == Fail(ConfigLoading(LoadPermissionMessage(filename))) && State() == old(State())
      ensures read.ParseFailure? ==>
        r == Fail(ConfigLoading(ParseMessage(filename))) && State() == old(State())
      ensures read.ReadRaised? ==> r == Fail(read.error) && State() == old(State())
      ensures read.Parsed? ==>
        var loaded := LoadAll(old(State()), transports, read.doc);
        && State() == loaded.registry
        && (loaded.error.None? ==> r == Pass)
        && (loaded.error.Some? ==> r == Fail(loaded.error.value))
    {
      match read
      case FileNotFound =>
        r := Pass;
      case ReadPermissionDenied =>
        r := Fail(ConfigLoading(LoadPermissionMessage(filename)));
      case ParseFailure =>
        r := Fail(ConfigLoading(ParseMessage(filename)));
      case ReadRaised(e) =>
        r := Fail(e);
      case Parsed(doc) =>
        var i := 0;
        while i < |doc|
          invariant 0 <= i <= |doc|
          invariant Valid()
          invariant LoadAll(old(State()), transports, doc) == LoadAll(State(), transports, doc[i..])
        {
          assert doc[i..][0] == doc[i] && doc[i..][1..] == doc[i + 1..];
          var result, _ := LoadPairing(doc[i].0, doc[i].1);
          if result.Failure? {
            return Fail(result.error);
          }
          i := i + 1;
        }
        r := Pass;
    }

    /**
     * `save_data`: the document written maps every alias, in registry order,
     * to its pairing's `pairing_data`; permission and missing-path failures
     * raise ConfigSavingError.
     */
    method SaveData(filename: string, write: WriteOutcome) returns (doc: seq<(string, PairingData)>, r: Outcome<Error>)
      requires Valid()
      ensures doc == SaveDocument(State())
      ensures write.Written? ==> r == Pass
      ensures write.WritePermissionDenied? ==> r == Fail(ConfigSaving(SavePermissionMessage(filename)))
      ensures write.WriteNotFound? ==> r == Fail(ConfigSaving(SaveNotFoundMessage(filename)))
      ensures write.WriteRaised? ==> r == Fail(write.error)
    {
      doc := [];
      var i := 0;
      while i < |order|
        invariant 0 <= i <= |order|
        invariant doc == SaveDocument(State())[..i]
      {
        var alias := order[i];
        doc := doc + [(alias, pairings[alias].pairingData)];
        i := i + 1;
      }
      assert SaveDocument(State())[..|order|] == SaveDocument(State());
      match write
      case Written => r := Pass;
      case WritePermissionDenied => r := Fail(ConfigSaving(SavePermissionMessage(filename)));
      case WriteNotFound => r := Fail(ConfigSaving(SaveNotFoundMessage(filename)));
      case WriteRaised(e) => r := Fail(e);
    }

    /**
     * `discover_ble` over the devices the scanner returned: what the
     * generator yields a `BleDiscovery` for, and the exception that ends it.
     */
    method DiscoverBle(devices: seq<BleDevice>) returns (yielded: seq<BleDevice>, r: Outcome<Error>)
      ensures !transports.ble ==> yielded == [] && r == Fail(TransportNotSupported("BLE"))
      ensures transports.ble ==> yielded == Scan(devices).found
      ensures transports.ble ==> (r.Pass? <==> Scan(devices).error.None?)
      ensures transports.ble && r.Fail? ==> Scan(devices).error == Some(r.error)
    {
      if !transports.ble {
        return [], Fail(TransportNotSupported("BLE"));
      }
      yielded := [];
      var i := 0;
      while i < |devices|
        invariant 0 <= i <= |devices|
        invariant Scan(devices[..i]) == ScanResult(yielded, None)
      {
        var d := devices[i];
        assert devices[..i + 1] == devices[..i] + [d];
        ScanAppend(devices[..i], [d]);
        ScanSingle(d);
        assert devices == devices[..i + 1] + devices[i + 1..];
        ScanAppend(devices[..i + 1], devices[i + 1..]);
        if IsEmptyMetadata(d.metadata) {
          i := i + 1;
          continue;
        }
        if d.metadata.manufacturerData.None? {
          return yielded, Fail(KeyError("manufacturer_data"));
        }
        var manufacturerData := d.metadata.manufacturerData.value;
        if AppleCompanyId !in manufacturerData {
          i := i + 1;
          continue;
        }
        var payload := manufacturerData[AppleCompanyId];
        if !(|payload| > 0 && payload[0] == HomeKitAdvertisementType) {
          i := i + 1;
          continue;
        }
        yielded := yielded + [d];
        i := i + 1;
      }
      assert devices[..i] == devices;
      r := Pass;
    }

    /** `discover_ip`: one `IpDiscovery` per device zeroconf reported, in order. */
    method DiscoverIp(devices: seq<IpDevice>) returns (found: seq<Discovered>, r: Outcome<Error>)
      ensures !transports.ip ==> found == [] && r == Fail(TransportNotSupported("IP"))
      ensures transports.ip ==> r == Pass && |found| == |devices|
      ensures transports.ip ==> forall i :: 0 <= i < |devices| ==> found[i] == IpDiscovery(devices[i])
    {
      if !transports.ip {
        return [], Fail(TransportNotSupported("IP"));
      }
      found := [];
      for i := 0 to |devices|
        invariant |found| == i
        invariant forall j :: 0 <= j < i ==> found[j] == IpDiscovery(devices[j])
      {
        found := found + [IpDiscovery(devices[i])];
      }
      r := Pass;
    }
  }
}
