# aiohomekit controller core, in Dafny

This project models the core of aiohomekit's HomeKit `Controller`.

- **Pairing registry.** The controller keeps a registry that maps an alias to a pairing. It loads pairings from a parsed JSON document and saves them back, with the error taxonomy of `load_pairing`, `load_data` and `save_data`. It also models pairing removal, shutdown, and the two discovery entry points.
- **Device-id dispatch.** An id of the form `hap+ip://<id>` or `hap+ble://<address>` selects the transport, and ids without the `hap+` prefix are handled too.
- **BLE advertisement filter.** `discover_ble` keeps the advertisements whose manufacturer data under company id 76 starts with byte 0x06.
- **Service type UUIDs.** The module covers the table of HomeKit service type UUIDs and the `get_uuid` / `get_short_uuid` conversions between the full form and the short form.
- **HAP-BLE constants.** These are the additional-parameter type tags and the PDU opcodes.

## Modules

- **`Common`**: `Option`, `Result`, `Outcome` (a call that returns nothing or raises), and `Byte`.
- **`Exceptions`**: the exceptions the core raises, including Python's `KeyError` and `ValueError` where the code lets them escape.
- **`Support`**: the flags `IP_TRANSPORT_SUPPORTED` and `BLE_TRANSPORT_SUPPORTED`. They are a parameter of the controller, not import-time constants.
- **`Text`**: ASCII string helpers. These are `upper`, `lower`, `startswith`, `endswith`, `split(sep, 1)[0]` and `lstrip`, plus the decimal rendering that f-strings use for integers.
- **`BleConst`**: the `AdditionalParameterTypes` and `OpCodes` enums, each with its byte encoding and decoding.
- **`ServicesTypes`**:
  - the service constants, each typed as a canonical HomeKit UUID;
  - `get_uuid`;
  - `get_short_uuid`;
  - their round trips.
- **`PinFormat`**: `check_pin_format`, with the regular expression modelled atom by atom.
- **`Discovery`**:
  - the `discover_ble` filter as a function on the scanned devices;
  - the subset of `urlparse` the dispatch reads;
  - the dispatch itself;
  - `find_ip_by_device_id`, with the zeroconf lookup and the BLE scanner as function parameters.
- **`PairingRegistry`**: the registry as a value. It holds the insertion order of the Python dict and the alias-to-pairing map. Alongside it are the specification functions for loading, storing, removing and saving, and the save/load round trip.
- **`Controller`**: the `Controller` class. Its `pairings` map and its `order` sequence are updated in place by its methods. `Store`, `LoadPairing`, `RemovePairing`, `LoadData` and `SaveData` are proved against the `PairingRegistry` functions and `DiscoverBle` against `Discovery.Scan`; the other methods state their results directly. Every call the source makes into a pairing, a scanner or the file system is an input to the method: the outcome of that call.

## Model

| member | source | states |
|---|---|---|
| BleConst.ParamCode | aiohomekit/controller/ble/const.py:22-39 | every additional parameter type's value fits in one byte and lies in 0x01..0x12 |
| BleConst.ParamFromCode | aiohomekit/controller/ble/const.py:20-39 | decoding a byte gives a type exactly for the tags 0x01..0x12, and the type decoded has that tag |
| BleConst.ParamRoundTrip | aiohomekit/controller/ble/const.py:20-39 | decoding the tag of every additional parameter type gives that type back |
| BleConst.ParamCodeInjective | aiohomekit/controller/ble/const.py:20-39 | no two additional parameter types share a tag |
| BleConst.ParamCodesCoverRange | aiohomekit/controller/ble/const.py:20-39 | the tags in use are exactly 0x01..0x12 |
| BleConst.TransportTags | aiohomekit/controller/ble/const.py:22-29 | Value, CharacteristicInstanceId, ServiceInstanceId and TTL have the tags 0x01, 0x05, 0x07 and 0x08 |
| BleConst.OpCodeByte | aiohomekit/controller/ble/const.py:43-48 | every opcode's value fits in one byte and lies in 0x01..0x06 |
| BleConst.OpCodeFromByte | aiohomekit/controller/ble/const.py:42-48 | decoding a byte gives an opcode exactly for 0x01..0x06, and the opcode decoded has that byte |
| BleConst.OpCodeRoundTrip | aiohomekit/controller/ble/const.py:42-48 | decoding the byte of every opcode gives that opcode back |
| BleConst.OpCodeInjective | aiohomekit/controller/ble/const.py:42-48 | no two opcodes share a byte |
| BleConst.OpCodesCoverRange | aiohomekit/controller/ble/const.py:42-48 | the opcode bytes are exactly 0x01..0x06 |
| ServicesTypes.ServiceUuid | aiohomekit/model/services/service_types.py:29-104 | a first segment of eight upper-case hex digits followed by BASE_UUID is a canonical HomeKit UUID with that first segment; every service constant is built this way |
| ServicesTypes.GetUuid | aiohomekit/model/services/service_types.py:118-125 | a 36-character name is upper-cased; a name of at most 8 characters is zero-padded on the left to 8, its case kept, and followed by BASE_UUID; any other length raises KeyError with the message "<name> not a valid UUID or short UUID" |
| ServicesTypes.FirstSegment | aiohomekit/model/services/service_types.py:140-141 | the first `-`-separated segment of the upper-cased name: an upper-case prefix of it with no `-` |
| ServicesTypes.StripZeros | aiohomekit/model/services/service_types.py:142 | `lstrip("0")`: a suffix of the segment with no leading zero, and everything dropped is `0` |
| ServicesTypes.GetShortUuid | aiohomekit/model/services/service_types.py:139-144 | a name whose upper case ends with BASE_UUID gives its first segment without leading zeros: upper case, no `-`, and the zeros put back in front give the segment; any other name is only upper-cased |
| ServicesTypes.NoDashNotHomeKit | aiohomekit/model/services/service_types.py:139 | a string without `-` never ends with BASE_UUID |
| ServicesTypes.GetShortUuidIdempotent | aiohomekit/model/services/service_types.py:139-144 | shortening a short UUID again leaves it unchanged |
| ServicesTypes.ShortOfPadded | aiohomekit/model/services/service_types.py:139-144 | a zero-padded id without `-`, followed by BASE_UUID, shortens to the id upper-cased without leading zeros |
| ServicesTypes.ShortOfFullRoundTrip | aiohomekit/model/services/service_types.py:118-144 | for an id of at most 8 characters without `-`, `get_short_uuid(get_uuid(id))` is the id upper-cased without leading zeros |
| ServicesTypes.HomeKitUuidShape | aiohomekit/model/services/service_types.py:29-104 | a canonical HomeKit UUID is upper case and splits into its first 8 characters and BASE_UUID |
| ServicesTypes.FullOfShortRoundTrip | aiohomekit/model/services/service_types.py:118-144 | for a canonical HomeKit UUID, `get_uuid(get_short_uuid(u))` gives `u` back |
| ServicesTypes.ServiceTypesRoundTrip | aiohomekit/model/services/service_types.py:29-144 | every service constant passes through `get_uuid` unchanged, and expanding its short form reproduces it |
| Text.DecimalRoundTrip | aiohomekit/controller/controller.py:139 | the decimal rendering of `max_seconds` in the message is a digit string that reads back as the same number |
| PinFormat.MatchesAnchored | aiohomekit/controller/controller.py:257 | `re.match` of `^pattern$`: each atom matches its character, and what is left is empty or one newline |
| PinFormat.CheckPinFormat | aiohomekit/controller/controller.py:250-260 | the pin passes exactly when it is three digits, `-`, two digits, `-`, three digits, with at most one trailing newline; otherwise it raises MalformedPinError with the fixed message |
| PinFormat.TrailingNewline | aiohomekit/controller/controller.py:257 | one trailing newline does not change the verdict, and two always fail |
| PinFormat.NewlinePinAccepted | aiohomekit/controller/controller.py:257 | "123-45-678\n" passes the check |
| PinFormat.MatchesExactly | aiohomekit/controller/controller.py:257 | full match: exactly one character per atom, each matching |
| PinFormat.CheckPinFormatStrict | aiohomekit/controller/controller.py:250-260 | passes exactly the 10-character pins of shape XXX-XX-XXX, and fails with the same MalformedPinError otherwise |
| PinFormat.StrictDiffersOnlyOnNewline | aiohomekit/controller/controller.py:257 | the strict check accepts only what `check_pin_format` accepts, and differs from it only on a valid pin followed by one newline |
| Discovery.Scan | aiohomekit/controller/controller.py:151-158 | only HomeKit advertisements from the scan are yielded; the generator ends with KeyError("manufacturer_data") exactly when some device has non-empty metadata without that key |
| Discovery.ScanSingle | aiohomekit/controller/controller.py:151-158 | on one device the filter skips empty metadata, raises KeyError for missing manufacturer data, and yields exactly the advertisements under key 76 starting with 0x06 |
| Discovery.ScanAppend | aiohomekit/controller/controller.py:151-158 | scanning `a + b` yields what `a` yields, then, unless `a` raised, what `b` yields: scan order is kept and the first malformed device stops the generator |
| Discovery.ScanKeepsHomeKit | aiohomekit/controller/controller.py:151-158 | with no malformed device, the generator ends normally and yields exactly the HomeKit advertisements |
| Discovery.UrlParse | aiohomekit/controller/controller.py:117 | `urlparse(device_id)`: a non-empty scheme is the lower case of a valid scheme that ends right before the first `:`; the network location contains no `/`, `?` or `#`, and its brackets balance; the only failure is ValueError("Invalid IPv6 URL") |
| Discovery.UntilNetlocDelimiter | aiohomekit/controller/controller.py:117 | the network location runs to the first `/`, `?` or `#` |
| Discovery.UrlParseOfComposed | aiohomekit/controller/controller.py:117 | `urlparse("scheme://netloc/path")` gives back the lower-case scheme and the plain network location |
| Discovery.Dispatch | aiohomekit/controller/controller.py:114-132 | an IP lookup happens only with IP support, a BLE lookup only with BLE support; the only errors are TransportNotSupportedError("IP"/"BLE") and urlparse's ValueError |
| Discovery.LegacyIdIsIpLookup | aiohomekit/controller/controller.py:114-121 | an id without the `hap+` prefix becomes an IP lookup of the empty device id, or TransportNotSupportedError("IP") |
| Discovery.IpIdDispatch | aiohomekit/controller/controller.py:117-127 | `hap+ip://<id>` is looked up through zeroconf with exactly `<id>` |
| Discovery.BleIdDispatch | aiohomekit/controller/controller.py:117-136 | `hap+ble://<address>` is looked up through the BLE scanner with exactly `<address>` |
| Discovery.OtherSchemeIsNoLookup | aiohomekit/controller/controller.py:119-142 | an id `hap+<other>://<netloc>` whose scheme is neither `hap+ip` nor `hap+ble` looks nothing up, so the method falls through and returns None |
| Discovery.FindByDeviceId | aiohomekit/controller/controller.py:112-142 | the result is None exactly when the scheme is neither `hap+ip` nor `hap+ble`; a found device comes from the lookup the dispatch chose; a BLE lookup that finds nothing raises AccessoryNotFoundError "Device not found via BLE discovery within <n>s"; dispatch and zeroconf errors propagate |
| PairingRegistry.WithDefaultConnection | aiohomekit/controller/controller.py:171-172 | a record without `Connection` gets `"IP"`; every other entry is kept |
| PairingRegistry.BuildPairing | aiohomekit/controller/controller.py:174-188 | `"IP"` builds an IP pairing and `"BLE"` a BLE pairing, each only when its transport is supported (TransportNotSupportedError otherwise); any other value raises NotImplementedError("<value> support") |
| PairingRegistry.RebuildLoadedPairing | aiohomekit/controller/controller.py:167-188 | loading the saved data of a loaded pairing rebuilds the same pairing |
| PairingRegistry.Put | aiohomekit/controller/controller.py:177-184 | `self.pairings[alias] = pairing`: the alias maps to the pairing, every other entry is unchanged, and a new alias goes last in iteration order |
| PairingRegistry.PutValid | aiohomekit/controller/controller.py:177-184 | storing a loaded pairing keeps the registry well-formed |
| PairingRegistry.Without | aiohomekit/controller/controller.py:285 | the iteration order without the deleted alias: every other alias is kept, and an order without the alias is unchanged |
| PairingRegistry.WithoutDropsOne | aiohomekit/controller/controller.py:285 | deleting the single occurrence of an alias at index `k` leaves the elements before and after it in their order |
| PairingRegistry.WithoutKeepsDistinct | aiohomekit/controller/controller.py:285 | deleting an alias keeps the aliases distinct |
| PairingRegistry.RemoveValid | aiohomekit/controller/controller.py:285 | deleting an alias keeps the registry well-formed |
| PairingRegistry.Remove | aiohomekit/controller/controller.py:285 | `del self.pairings[alias]`: the alias is gone, every other entry is unchanged, and the remaining aliases keep their iteration order (an absent alias changes nothing) |
| PairingRegistry.RemoveUndoesPut | aiohomekit/controller/controller.py:285 | deleting a freshly stored alias gives the registry back |
| PairingRegistry.LoadAll | aiohomekit/controller/controller.py:208-209 | `load_pairing` over the document's entries in order: aliases already present stay, a well-formed registry stays well-formed, the only exceptions are TransportNotSupportedError and NotImplementedError, and on success every alias of the document is in the registry |
| PairingRegistry.LoadAllAppend | aiohomekit/controller/controller.py:208-209 | loading `a + b` is loading `a`, then `b` into the result unless `a` raised |
| PairingRegistry.LoadAllStopsAtFirstFailure | aiohomekit/controller/controller.py:208-209 | the first entry that fails to build ends the load with its error and the entries before it stored |
| PairingRegistry.SaveDocument | aiohomekit/controller/controller.py:226-229 | one entry per alias, in iteration order, holding that pairing's `pairing_data` |
| PairingRegistry.LoadSavedSuffix | aiohomekit/controller/controller.py:208-229 | loading the saved entries after the first `k` into the registry's first `k` entries completes it |
| PairingRegistry.SaveLoadRoundTrip | aiohomekit/controller/controller.py:198-238 | saving a registry and loading the document into an empty controller with the same transports reproduces it: the same aliases, in the same order, with the same pairings |
| Controller.Controller.constructor | aiohomekit/controller/controller.py:59-74 | a new controller has no pairings and keeps its BLE adapter, `"hci0"` by default |
| Controller.Controller.Store | aiohomekit/controller/controller.py:177-184 | the new state is `Put` of the old one, and the registry stays well-formed |
| Controller.Controller.LoadPairing | aiohomekit/controller/controller.py:167-188 | fills in the default `Connection` in the caller's record; the result is `BuildPairing` of that record; on success the pairing is stored under the alias, on an exception the registry is unchanged |
| Controller.Controller.GetPairings | aiohomekit/controller/controller.py:190-196 | the dict's keys are exactly the aliases in the registry, each value is the pairing stored under that alias, and it is a pairing of a supported transport |
| Controller.Controller.RemovePairing | aiohomekit/controller/controller.py:262-285 | an unknown alias raises AccessoryNotFoundError and a record without `iOSPairingId` raises KeyError, both before any call; otherwise the accessory is asked to remove that id and then the pairing is closed; the alias is deleted only when both calls succeed, and the first exception propagates |
| Controller.Controller.Shutdown | aiohomekit/controller/controller.py:160-165 | the pairings are closed in iteration order; the first `close` that raises ends the loop with its exception; the pairings after it are not closed |
| Controller.Controller.LoadData | aiohomekit/controller/controller.py:198-217 | a missing file is not an error and loads nothing; a permission or JSON failure raises ConfigLoadingError with its message; any other exception from `open` or `json.load` propagates with the registry unchanged; otherwise the new state and the outcome are those of `LoadAll` from the old state |
| Controller.Controller.SaveData | aiohomekit/controller/controller.py:219-248 | the document written is `SaveDocument` of the registry; permission and missing-path failures raise ConfigSavingError with their messages, and any other exception from `open` or `json.dump` propagates |
| Controller.Controller.DiscoverBle | aiohomekit/controller/controller.py:144-158 | without BLE support it raises TransportNotSupportedError("BLE") and yields nothing; otherwise it yields what `Scan` finds, and it ends with the exception `Scan` reports |
| Controller.Controller.DiscoverIp | aiohomekit/controller/controller.py:76-110 | without IP support it raises TransportNotSupportedError("IP"); otherwise it returns one IpDiscovery per device zeroconf reported, in order |

## Left out

- File I/O, JSON parsing and `async`/`await` are not modelled. The outcome of opening, parsing and writing the file is an input to `LoadData` and `SaveData`. The outcome of each pairing's `remove_pairing` and `close` is an input to `RemovePairing` and `Shutdown`.
- Zeroconf browsing, `async_find_data_for_device_id` and `BleakScanner` are inputs. Each is either the list of devices it reported or a function from the id looked up to the device found.
- The parsed JSON document is assumed to be an object whose values are objects of strings. Other JSON shapes (a top-level list, non-string values) are not modelled.
- `save_data` creates the parent directory with `mkdir`. That step is not modelled, nor is the PermissionError it can raise uncaught.
- Controller.Controller.LoadData and Controller.Controller.SaveData: an exception the source does not catch is passed through as `Uncaught(<class name>)`. Examples are IsADirectoryError, NotADirectoryError and a UnicodeDecodeError from `json.load`. Which file-system states raise which class is not modelled.
- `IpDiscovery`, `BleDiscovery`, `IpPairing` and `BlePairing` are values holding what they were built from. Object identity and the controller back-reference are not modelled.
- Controller.Controller.GetPairings: the source returns the live dict, so later changes by the caller alias the controller's state. The model returns a copy of the map.
- The characteristic cache and the zeroconf instance that the constructor stores are not modelled, and neither is logging.
- Controller.Controller.constructor: the transport flags are a constructor parameter rather than module constants. The constructor takes them first, so the adapter is the parameter with the default `"hci0"`.
- Controller.Controller.DiscoverBle and Controller.Controller.DiscoverIp: `max_seconds` (default 10) only bounds how long the scanner or zeroconf browses. The scan result is an input here, so these methods take no `max_seconds`. `FindByDeviceId` keeps its `max_seconds`, with default 30, because the not-found message shows it.
- Discovery.FindByDeviceId: `max_seconds` is modelled as a natural number. Python accepts any number there; the message for a float timeout (`2.5` renders as `2.5s`, `30.0` as `30.0s`) or a negative one is not modelled.
- A `dict changed size during iteration` error is not modelled. It arises when a `close` or `remove_pairing` call re-enters the controller and mutates `pairings` mid-loop.
- Controller.Controller.Shutdown: the source is fail-fast (the first exception from `close` escapes the loop). The model follows the code, not a best-effort reading of its docstring.
- Discovery.UrlParse covers only the scheme and network location that `find_ip_by_device_id` reads. It does not model:
  - ports, parameters, queries or fragments;
  - the removal of tab and newline characters;
  - IPv6 validation beyond the balance of `[` and `]`;
  - the rule of older Python versions about schemes followed by digits only.
- Text.Upper and Text.Lower: Python's `str.upper` and `str.lower` are Unicode-aware. The model changes ASCII letters only.
- PinFormat.CheckPinFormat: Python's `\d` matches every Unicode decimal digit. The model's digit is `Text.IsDecimalDigit`, which accepts `0`-`9` only.
- ServicesTypes.GetUuid: the docstring also mentions textual type names such as `public.hap.characteristic.position.current`, but the code does not resolve them. The model follows the code.
- ServicesTypes.GetShortUuid: the docstring mentions textual type names and says it raises KeyError, but the code never raises; a name that does not end with BASE_UUID is only upper-cased. The model follows the code.
- A JSON object with a repeated key is not modelled. `json.load` keeps one entry for such a key (the last value, at the first position), while the parsed document here is a sequence of entries, and `LoadAll` loads every entry.

## Findings

| source | as written | input that shows it | evidently intended | confidence | as-written member | corrected member |
|---|---|---|---|---|---|---|
| aiohomekit/controller/controller.py:257 | `re.match(r"^\d\d\d-\d\d-\d\d\d$", pin)`. In Python, `$` also matches just before one trailing newline, so a pin followed by `\n` is accepted. | `"123-45-678\n"` passes the check | accept exactly `XXX-XX-XXX`, as the error message says (`re.fullmatch`) | medium, not executed | PinFormat.NewlinePinAccepted | PinFormat.CheckPinFormatStrict |
