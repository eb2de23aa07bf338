/**
 * The pure parts of the controller's discovery entry points: the filter that
 * `discover_ble` applies to scanned BLE advertisements, and the dispatch of a
 * device id (`hap+ip://<id>` or `hap+ble://<address>`) in
 * `find_ip_by_device_id`. The scanners and the zeroconf lookup are inputs.
 */
module Discovery {
  import opened Common
  import opened Exceptions
  import opened Support
  import opened Text

  // ---------------------------------------------------------------------
  // BLE advertisements
  // ---------------------------------------------------------------------

  /** Apple's Bluetooth SIG company identifier (0x004C). */
  const AppleCompanyId: int := 76

  /** The first byte of the manufacturer data of a HomeKit advertisement. */
  const HomeKitAdvertisementType: Byte := 0x06

  /**
   * The `metadata` dict of a scanned device: the manufacturer data under
   * `manufacturer_data` when that key is present, and the names of the
   * other keys present (their values play no part here).
   */
  datatype Metadata = Metadata(otherKeys: OtherKeys, manufacturerData: Option<map<int, seq<Byte>>>)

  /** The keys of a metadata dict other than `manufacturer_data`. */
  type OtherKeys = keys: set<string> | "manufacturer_data" !in keys witness {}

  datatype BleDevice = BleDevice(address: string, metadata: Metadata)

  /** The TXT-record properties zeroconf reports for an IP accessory. */
  datatype IpDevice = IpDevice(properties: map<string, string>)

  /** What the controller hands back: `IpDiscovery(self, device)` or `BleDiscovery(self, device)`. */
  datatype Discovered = IpDiscovery(ip: IpDevice) | BleDiscovery(ble: BleDevice)

  predicate IsEmptyMetadata(m: Metadata) {
    m.otherKeys == {} && m.manufacturerData.None?
  }

  /** A non-empty metadata dict without `manufacturer_data`: indexing it raises KeyError. */
  predicate IsMalformed(d: BleDevice) {
    !IsEmptyMetadata(d.metadata) && d.metadata.manufacturerData.None?
  }

  /** Kept by the filter: manufacturer data under key 76 that starts with byte 0x06. */
  predicate IsHomeKitAdvertisement(d: BleDevice) {
    && d.metadata.manufacturerData.Some?
    && AppleCompanyId in d.metadata.manufacturerData.value
    && var payload := d.metadata.manufacturerData.value[AppleCompanyId];
       |payload| > 0 && payload[0] == HomeKitAdvertisementType
  }

  /** What the `discover_ble` generator yields before it ends, and the error it ends with, if any. */
  datatype ScanResult = ScanResult(found: seq<BleDevice>, error: Option<Error>)

  /** One round of the filter loop: what device `d` adds in front of what the rest of the scan yields. */
  function Step(d: BleDevice, rest: ScanResult): ScanResult {
    if IsEmptyMetadata(d.metadata) then rest
    else if d.metadata.manufacturerData.None? then ScanResult([], Some(KeyError("manufacturer_data")))
    else if IsHomeKitAdvertisement(d) then ScanResult([d] + rest.found, rest.error)
    else rest
  }

  /**
   * The filter loop of `discover_ble` over the scanned devices: devices with
   * empty metadata are skipped, a malformed one ends the generator with
   * KeyError, and HomeKit advertisements are yielded in scan order.
   */
  function Scan(devices: seq<BleDevice>): (r: ScanResult)
    ensures forall d :: d in r.found ==> d in devices && IsHomeKitAdvertisement(d)
    ensures r.error.Some? <==> exists d :: d in devices && IsMalformed(d)
    ensures r.error.Some? ==> r.error.value == KeyError("manufacturer_data")
  {
    if devices == [] then ScanResult([], None)
    else
      var d := devices[0];
      assert forall x :: x in devices <==> x == d || x in devices[1..];
      assert (exists x :: x in devices && IsMalformed(x)) <==>
        IsMalformed(d) || exists x :: x in devices[1..] && IsMalformed(x);
      Step(d, Scan(devices[1..]))
  }

  /** What scanning `a` and then `b` yields, given what each yields alone. */
  function Concat(x: ScanResult, y: ScanResult): ScanResult {
    if x.error.Some? then x else ScanResult(x.found + y.found, y.error)
  }

  lemma StepConcat(d: BleDevice, x: ScanResult, y: ScanResult)
    ensures Step(d, Concat(x, y)) == Concat(Step(d, x), y)
  {
    if !IsEmptyMetadata(d.metadata) && d.metadata.manufacturerData.Some? && IsHomeKitAdvertisement(d) && x.error.None? {
      assert [d] + (x.found + y.found) == ([d] + x.found) + y.found;
    }
  }

  /** The filter on one device. */
  lemma ScanSingle(d: BleDevice)
    ensures Scan([d]) ==
      if IsMalformed(d) then ScanResult([], Some(KeyError("manufacturer_data")))
      else if IsHomeKitAdvertisement(d) then ScanResult([d], None)
      else ScanResult([], None)
  {
    assert [d][1..] == [];
  }

  /**
   * Scanning `a + b` yields what `a` yields and, unless `a` ended with an
   * error, what `b` yields after it: the filter keeps scan order and stops at
   * the first malformed device.
   */
  lemma {:induction false} ScanAppend(a: seq<BleDevice>, b: seq<BleDevice>)
    ensures Scan(a + b) == Concat(Scan(a), Scan(b))
  {
    if a != [] {
      assert (a + b)[1..] == a[1..] + b;
      ScanAppend(a[1..], b);
      StepConcat(a[0], Scan(a[1..]), Scan(b));
    } else {
      assert a + b == b;
    }
  }

  /** Without malformed devices the filter keeps exactly the HomeKit advertisements. */
  lemma {:induction false} ScanKeepsHomeKit(devices: seq<BleDevice>)
    requires forall d :: d in devices ==> !IsMalformed(d)
    ensures Scan(devices).error.None?
    ensures forall d :: d in Scan(devices).found <==> d in devices && IsHomeKitAdvertisement(d)
  {
    if devices != [] {
      assert forall d :: d in devices[1..] ==> d in devices;
      ScanKeepsHomeKit(devices[1..]);
      assert forall d :: d in devices <==> d == devices[0] || d in devices[1..];
    }
  }

  // ---------------------------------------------------------------------
  // Device ids
  // ---------------------------------------------------------------------

  /** What an id without the `hap+` prefix is replaced by (ids from before BLE support). */
  const LegacyDeviceId: string := "hap+ip://"

  /** `urllib.parse.scheme_chars`. */
  predicate IsSchemeChar(c: char) {
    IsAsciiLetter(c) || IsDecimalDigit(c) || c == '+' || c == '-' || c == '.'
  }

  predicate IsNetlocDelimiter(c: char) {
    c == '/' || c == '?' || c == '#'
  }

  /** The text before the first `/`, `?` or `#`. */
  function UntilNetlocDelimiter(s: string): (r: string)
    ensures |r| <= |s| && r == s[..|r|]
    ensures forall i :: 0 <= i < |r| ==> !IsNetlocDelimiter(r[i])
    ensures |r| < |s| ==> IsNetlocDelimiter(s[|r|])
  {
    if s == [] || IsNetlocDelimiter(s[0]) then [] else [s[0]] + UntilNetlocDelimiter(s[1..])
  }

  /** The two components of `urlparse` the dispatch reads. */
  datatype UrlParts = UrlParts(scheme: string, netloc: string)

  /** A scheme `urlsplit` accepts: a letter, then scheme characters. */
  predicate IsScheme(s: string) {
    |s| > 0 && IsAsciiLetter(s[0]) && forall i :: 0 <= i < |s| ==> IsSchemeChar(s[i])
  }

  /**
   * `urlparse(url)`, scheme and network location only: the text before the
   * first `:` is the scheme, lower-cased, when it is a valid scheme; a
   * following `//` starts the network location, which runs to the first
   * `/`, `?` or `#`. A `[` without `]` in it, or the reverse, raises ValueError.
   */
  function UrlParse(url: string): (r: Result<UrlParts, Error>)
    ensures r.Failure? ==> r.error == InvalidValue("Invalid IPv6 URL")
    ensures r.Success? ==> ('[' in r.value.netloc) == (']' in r.value.netloc)
    ensures r.Success? ==> forall i :: 0 <= i < |r.value.netloc| ==> !IsNetlocDelimiter(r.value.netloc[i])
    ensures r.Success? && r.value.scheme != [] ==>
      && |r.value.scheme| < |url| && url[|r.value.scheme|] == ':' && ':' !in url[..|r.value.scheme|]
      && IsScheme(url[..|r.value.scheme|]) && r.value.scheme == Lower(url[..|r.value.scheme|])
  {
    var beforeColon := BeforeFirst(url, ':');
    var hasScheme := |beforeColon| < |url| && IsScheme(beforeColon);
    var scheme := if hasScheme then Lower(beforeColon) else "";
    var rest := if hasScheme then url[|beforeColon| + 1..] else url;
    var netloc := if StartsWith(rest, "//") then UntilNetlocDelimiter(rest[2..]) else "";
    if ('[' in netloc) != (']' in netloc) then Failure(InvalidValue("Invalid IPv6 URL"))
    else Success(UrlParts(scheme, netloc))
  }

  /** A network location the composition below can carry unchanged. */
  predicate IsPlainNetloc(n: string) {
    && (forall i :: 0 <= i < |n| ==> !IsNetlocDelimiter(n[i]))
    && '[' !in n && ']' !in n
  }

  /** Parsing `scheme://netloc/path` gives back its scheme and network location. */
  lemma UrlParseOfComposed(scheme: string, netloc: string, path: string)
    requires IsScheme(scheme) && IsLower(scheme)
    requires IsPlainNetloc(netloc)
    requires path == [] || path[0] == '/'
    ensures UrlParse(scheme + "://" + netloc + path) == Success(UrlParts(scheme, netloc))
  {
    var rest := "//" + netloc + path;
    var url := scheme + "://" + netloc + path;
    assert url == scheme + [':'] + rest;
    assert BeforeFirst(url, ':') == scheme by {
      SchemeHasNoColon(scheme);
      BeforeFirstPrefix(scheme, ':', rest);
    }
    assert url[|scheme| + 1..] == rest;
    assert Lower(scheme) == scheme by {
      LowerOfLower(scheme);
    }
    assert StartsWith(rest, "//") && rest[2..] == netloc + path;
    assert UntilNetlocDelimiter(rest[2..]) == netloc by {
      UntilDelimiterOfComposed(netloc, path);
    }
  }

  lemma SchemeHasNoColon(scheme: string)
    requires IsScheme(scheme)
    ensures ':' !in scheme
  {
    forall i | 0 <= i < |scheme| ensures scheme[i] != ':' {
      assert IsSchemeChar(scheme[i]);
    }
  }

  lemma {:induction false} UntilDelimiterOfComposed(netloc: string, path: string)
    requires forall i :: 0 <= i < |netloc| ==> !IsNetlocDelimiter(netloc[i])
    requires path == [] || path[0] == '/'
    ensures UntilNetlocDelimiter(netloc + path) == netloc
  {
    if netloc != [] {
      assert (netloc + path)[1..] == netloc[1..] + path;
      UntilDelimiterOfComposed(netloc[1..], path);
    } else {
      assert netloc + path == path;
    }
  }

  /** The lookup `find_ip_by_device_id` performs for an id. */
  datatype Lookup =
    | IpLookup(deviceId: string)
    | BleLookup(address: string)
    | NoLookup

  /**
   * The scheme dispatch of `find_ip_by_device_id`: an id not starting with
   * `hap+` becomes `hap+ip://`; scheme `hap+ip` asks zeroconf for the network
   * location, scheme `hap+ble` asks the BLE scanner for it, each failing with
   * TransportNotSupportedError when its transport is unavailable; any other
   * scheme looks nothing up.
   */
  function Dispatch(t: Transports, deviceId: string): (r: Result<Lookup, Error>)
    ensures r.Success? && r.value.IpLookup? ==> t.ip
    ensures r.Success? && r.value.BleLookup? ==> t.ble
    ensures r.Failure? ==>
      r.error in {TransportNotSupported("IP"), TransportNotSupported("BLE"), InvalidValue("Invalid IPv6 URL")}
  {
    var id := if StartsWith(deviceId, "hap+") then deviceId else LegacyDeviceId;
    match UrlParse(id)
    case Failure(e) => Failure(e)
    case Success(parts) =>
      if parts.scheme == "hap+ip" then
        if !t.ip then Failure(TransportNotSupported("IP")) else Success(IpLookup(parts.netloc))
      else if parts.scheme == "hap+ble" then
        if !t.ble then Failure(TransportNotSupported("BLE")) else Success(BleLookup(parts.netloc))
      else Success(NoLookup)
  }

  /** The dispatch of a `hap+` id, given what `urlparse` makes of it. */
  lemma DispatchOfParsed(t: Transports, id: string, parts: UrlParts)
    requires StartsWith(id, "hap+") && UrlParse(id) == Success(parts)
    ensures Dispatch(t, id) ==
      if parts.scheme == "hap+ip" then
        (if t.ip then Success(IpLookup(parts.netloc)) else Failure(TransportNotSupported("IP")))
      else if parts.scheme == "hap+ble" then
        (if t.ble then Success(BleLookup(parts.netloc)) else Failure(TransportNotSupported("BLE")))
      else Success(NoLookup)
  {
  }

  /** An id without the `hap+` prefix is looked up over IP with an empty device id. */
  lemma LegacyIdIsIpLookup(t: Transports, deviceId: string)
    requires !StartsWith(deviceId, "hap+")
    ensures Dispatch(t, deviceId) ==
      if t.ip then Success(IpLookup("")) else Failure(TransportNotSupported("IP"))
  {
    assert UrlParse(LegacyDeviceId) == Success(UrlParts("hap+ip", "")) by {
      UrlParseOfComposed("hap+ip", "", "");
      assert "hap+ip" + "://" + "" + "" == LegacyDeviceId;
    }
  }

  /** `hap+ip://<id>` is looked up over IP with exactly `<id>`. */
  lemma IpIdDispatch(t: Transports, netloc: string)
    requires IsPlainNetloc(netloc)
    ensures Dispatch(t, "hap+ip://" + netloc) ==
      if t.ip then Success(IpLookup(netloc)) else Failure(TransportNotSupported("IP"))
  {
    assert "hap+ip" + "://" + netloc == "hap+ip://" + netloc;
    HapIdParses("hap+ip", netloc);
    DispatchOfParsed(t, "hap+ip://" + netloc, UrlParts("hap+ip", netloc));
  }

  /** `hap+ble://<address>` is looked up over BLE with exactly `<address>`. */
  lemma BleIdDispatch(t: Transports, address: string)
    requires IsPlainNetloc(address)
    ensures Dispatch(t, "hap+ble://" + address) ==
      if t.ble then Success(BleLookup(address)) else Failure(TransportNotSupported("BLE"))
  {
    assert "hap+ble" + "://" + address == "hap+ble://" + address;
    HapIdParses("hap+ble", address);
    DispatchOfParsed(t, "hap+ble://" + address, UrlParts("hap+ble", address));
  }

  /** Any other `hap+` scheme looks nothing up, so `find_ip_by_device_id` returns None. */
  lemma OtherSchemeIsNoLookup(t: Transports, scheme: string, netloc: string)
    requires IsScheme(scheme) && IsLower(scheme) && StartsWith(scheme, "hap+")
    requires scheme != "hap+ip" && scheme != "hap+ble"
    requires IsPlainNetloc(netloc)
    ensures Dispatch(t, scheme + "://" + netloc) == Success(NoLookup)
  {
    HapIdParses(scheme, netloc);
    DispatchOfParsed(t, scheme + "://" + netloc, UrlParts(scheme, netloc));
  }

  /** `scheme://netloc` with a `hap+` scheme keeps the `hap+` prefix and parses back to its parts. */
  lemma HapIdParses(scheme: string, netloc: string)
    requires IsScheme(scheme) && IsLower(scheme) && StartsWith(scheme, "hap+")
    requires IsPlainNetloc(netloc)
    ensures StartsWith(scheme + "://" + netloc, "hap+")
    ensures UrlParse(scheme + "://" + netloc) == Success(UrlParts(scheme, netloc))
  {
    assert (scheme + "://" + netloc)[..4] == scheme[..4];
    UrlParseOfComposed(scheme, netloc, "");
    assert scheme + "://" + netloc + "" == scheme + "://" + netloc;
  }

  /** The message of the AccessoryNotFoundError raised when the BLE scanner finds nothing. */
  function BleNotFoundMessage(maxSeconds: nat): string {
    "Device not found via BLE discovery within " + DecimalString(maxSeconds) + "s"
  }

  /**
   * `find_ip_by_device_id` with the zeroconf lookup and the BLE scanner's
   * `find_device_by_address` as parameters; `None` when the scheme is
   * neither `hap+ip` nor `hap+ble`.
   */
  function FindByDeviceId(
    t: Transports, deviceId: string,
    zeroconf: string -> Result<IpDevice, Error>, scanner: string -> Option<BleDevice>,
    maxSeconds: nat := 30
  ): (r: Result<Option<Discovered>, Error>)
    ensures r == Success(None) <==> Dispatch(t, deviceId) == Success(NoLookup)
    ensures Dispatch(t, deviceId).Failure? ==> r == Failure(Dispatch(t, deviceId).error)
    ensures r.Success? && r.value.Some? && r.value.value.IpDiscovery? ==>
      t.ip && exists d :: Dispatch(t, deviceId) == Success(IpLookup(d)) && zeroconf(d) == Success(r.value.value.ip)
    ensures r.Success? && r.value.Some? && r.value.value.BleDiscovery? ==>
      t.ble && exists a :: Dispatch(t, deviceId) == Success(BleLookup(a)) && scanner(a) == Some(r.value.value.ble)
    ensures r.Failure? && Dispatch(t, deviceId).Success? ==>
      || (&& Dispatch(t, deviceId).value.BleLookup?
          && scanner(Dispatch(t, deviceId).value.address).None?
          && r.error == AccessoryNotFound(BleNotFoundMessage(maxSeconds)))
      || (&& Dispatch(t, deviceId).value.IpLookup?
          && zeroconf(Dispatch(t, deviceId).value.deviceId) == Failure(r.error))
  {
    match Dispatch(t, deviceId)
    case Failure(e) => Failure(e)
    case Success(IpLookup(d)) =>
      (match zeroconf(d)
       case Failure(e) => Failure(e)
       case Success(device) => Success(Some(IpDiscovery(device))))
    case Success(BleLookup(a)) =>
      (match scanner(a)
       case None => Failure(AccessoryNotFound(BleNotFoundMessage(maxSeconds)))
       case Some(device) => Success(Some(BleDiscovery(device))))
    case Success(NoLookup) => Success(None)
  }
}
