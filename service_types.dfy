/**
 * HomeKit service type UUIDs and the conversions between the full form
 * (`XXXXXXXX-0000-1000-8000-0026BB765291`) and the short form (the first
 * segment without leading zeros).
 */
module ServicesTypes {
  import opened Common
  import opened Exceptions
  import opened Text

  /** The part every HomeKit-defined UUID shares after its first segment. */
  const BaseUuid: string := "-0000-1000-8000-0026BB765291"

  predicate IsUpperHexDigit(c: char) {
    '0' <= c <= '9' || 'A' <= c <= 'F'
  }

  /** A full HomeKit UUID in canonical form: eight upper-case hex digits, then `BaseUuid`. */
  predicate IsHomeKitUuid(u: string) {
    |u| == 36 && u[8..] == BaseUuid && forall i :: 0 <= i < 8 ==> IsUpperHexDigit(u[i])
  }

  /** The first segment of a HomeKit UUID: eight upper-case hex digits. */
  type ServicePrefix = p: string | |p| == 8 && forall i :: 0 <= i < 8 ==> IsUpperHexDigit(p[i])
    witness "0000003E"

  /** The full UUID whose first segment is `p`. */
  function ServiceUuid(p: ServicePrefix): (u: string)
    ensures IsHomeKitUuid(u)
    ensures u[..8] == p
  {
    p + BaseUuid
  }

  /**
   * The type of the service constants. Each constant is written as its first
   * segment; the value is the same 36-character string the table lists.
   */
  type HomeKitUuid = u: string | IsHomeKitUuid(u) witness ServiceUuid("0000003E")

  const AccessoryInformation: HomeKitUuid := ServiceUuid("0000003E")
  const AccessoryMetrics: HomeKitUuid := ServiceUuid("00000270")
  const AccessoryRuntimeInformation: HomeKitUuid := ServiceUuid("00000239")
  const AccessCode: HomeKitUuid := ServiceUuid("00000260")
  const AccessControl: HomeKitUuid := ServiceUuid("000000DA")
  const AirPurifier: HomeKitUuid := ServiceUuid("000000BB")
  const AirQualitySensor: HomeKitUuid := ServiceUuid("0000008D")
  const AssetUpdate: HomeKitUuid := ServiceUuid("00000267")
  const Assistant: HomeKitUuid := ServiceUuid("0000026A")
  const AudioStreamManagement: HomeKitUuid := ServiceUuid("00000127")
  const BatteryService: HomeKitUuid := ServiceUuid("00000096")
  const BridgeConfiguration: HomeKitUuid := ServiceUuid("000000A1")
  const BridgingState: HomeKitUuid := ServiceUuid("00000062")
  const CameraControl: HomeKitUuid := ServiceUuid("00000111")
  const CameraOperatingMode: HomeKitUuid := ServiceUuid("0000021A")
  const CameraRecordingManagement: HomeKitUuid := ServiceUuid("00000204")
  const CameraRtpStreamManagement: HomeKitUuid := ServiceUuid("00000110")
  const CarbonDioxideSensor: HomeKitUuid := ServiceUuid("00000097")
  const CarbonMonoxideSensor: HomeKitUuid := ServiceUuid("0000007F")
  const CloudRelay: HomeKitUuid := ServiceUuid("0000005A")
  const ContactSensor: HomeKitUuid := ServiceUuid("00000080")
  const DataStreamTransportManagement: HomeKitUuid := ServiceUuid("00000129")
  const Diagnostics: HomeKitUuid := ServiceUuid("00000237")
  const Door: HomeKitUuid := ServiceUuid("00000081")
  const Doorbell: HomeKitUuid := ServiceUuid("00000121")
  const Fan: HomeKitUuid := ServiceUuid("00000040")
  const FanV2: HomeKitUuid := ServiceUuid("000000B7")
  const Faucet: HomeKitUuid := ServiceUuid("000000D7")
  const FilterMaintenance: HomeKitUuid := ServiceUuid("000000BA")
  const GarageDoorOpener: HomeKitUuid := ServiceUuid("00000041")
  const HeaterCooler: HomeKitUuid := ServiceUuid("000000BC")
  const HumidifierDehumidifier: HomeKitUuid := ServiceUuid("000000BD")
  const HumiditySensor: HomeKitUuid := ServiceUuid("00000082")
  const InputSource: HomeKitUuid := ServiceUuid("000000D9")
  const IrrigationSystem: HomeKitUuid := ServiceUuid("000000CF")
  const LeakSensor: HomeKitUuid := ServiceUuid("00000083")
  const Lightbulb: HomeKitUuid := ServiceUuid("00000043")
  const LightSensor: HomeKitUuid := ServiceUuid("00000084")
  const LockManagement: HomeKitUuid := ServiceUuid("00000044")
  const LockMechanism: HomeKitUuid := ServiceUuid("00000045")
  const Microphone: HomeKitUuid := ServiceUuid("00000112")
  const MotionSensor: HomeKitUuid := ServiceUuid("00000085")
  const Nfcaccess: HomeKitUuid := ServiceUuid("00000266")
  const OccupancySensor: HomeKitUuid := ServiceUuid("00000086")
  const Outlet: HomeKitUuid := ServiceUuid("00000047")
  const Pairing: HomeKitUuid := ServiceUuid("00000055")
  const PowerManagement: HomeKitUuid := ServiceUuid("00000221")
  const ProtocolInformation: HomeKitUuid := ServiceUuid("000000A2")
  const SecuritySystem: HomeKitUuid := ServiceUuid("0000007E")
  const ServiceLabel: HomeKitUuid := ServiceUuid("000000CC")
  const Siri: HomeKitUuid := ServiceUuid("00000133")
  const SiriEndpoint: HomeKitUuid := ServiceUuid("00000253")
  const Slat: HomeKitUuid := ServiceUuid("000000B9")
  const SmartSpeaker: HomeKitUuid := ServiceUuid("00000228")
  const SmokeSensor: HomeKitUuid := ServiceUuid("00000087")
  const Speaker: HomeKitUuid := ServiceUuid("00000113")
  const StatefulProgrammableSwitch: HomeKitUuid := ServiceUuid("00000088")
  const StatelessProgrammableSwitch: HomeKitUuid := ServiceUuid("00000089")
  const Switch: HomeKitUuid := ServiceUuid("00000049")
  const TargetControl: HomeKitUuid := ServiceUuid("00000125")
  const TargetControlManagement: HomeKitUuid := ServiceUuid("00000122")
  const Television: HomeKitUuid := ServiceUuid("000000D8")
  const TemperatureSensor: HomeKitUuid := ServiceUuid("0000008A")
  const Thermostat: HomeKitUuid := ServiceUuid("0000004A")
  const ThhreadTransport: HomeKitUuid := ServiceUuid("00000701")
  const TimeInformation: HomeKitUuid := ServiceUuid("00000099")
  const TransferTransportManagement: HomeKitUuid := ServiceUuid("00000203")
  const Tunnel: HomeKitUuid := ServiceUuid("00000056")
  const Valve: HomeKitUuid := ServiceUuid("000000D0")
  const Window: HomeKitUuid := ServiceUuid("0000008B")
  const WindowCovering: HomeKitUuid := ServiceUuid("0000008C")
  const WiFiRouter: HomeKitUuid := ServiceUuid("0000020A")
  const WiFiSatellite: HomeKitUuid := ServiceUuid("0000020F")
  const WiFiTransport: HomeKitUuid := ServiceUuid("0000022A")

  /**
   * `get_uuid`: a 36-character name is taken as a full UUID and upper-cased;
   * a name of at most 8 characters is a short UUID, padded with zeros on the
   * left (its case kept) and completed with `BaseUuid`; any other length fails.
   */
  function GetUuid(itemName: string): (r: Result<string, Error>)
    ensures r.Failure? <==> 8 < |itemName| != 36
    ensures r.Failure? ==> r.error == KeyError(itemName + " not a valid UUID or short UUID")
    ensures |itemName| == 36 ==> r.value == Upper(itemName)
    ensures |itemName| <= 8 ==>
      var pad := 8 - |itemName|;
      && |r.value| == 36
      && (forall i :: 0 <= i < pad ==> r.value[i] == '0')
      && r.value[pad..8] == itemName
      && r.value[8..] == BaseUuid
  {
    if |itemName| == 36 then
      Success(Upper(itemName))
    else if |itemName| <= 8 then
      var prefix := Repeat('0', 8 - |itemName|);
      Success(prefix + itemName + BaseUuid)
    else
      Failure(KeyError(itemName + " not a valid UUID or short UUID"))
  }

  /** The upper-cased name up to its first `-`: `item_name.upper().split("-", 1)[0]`. */
  function FirstSegment(itemName: string): (first: string)
    ensures IsUpper(first) && '-' !in first
    ensures |first| <= |itemName| && first == Upper(itemName)[..|first|]
    ensures |first| < |itemName| ==> Upper(itemName)[|first|] == '-'
  {
    var upper := Upper(itemName);
    UpperIsUpper(itemName);
    var first := BeforeFirst(upper, '-');
    assert forall i :: 0 <= i < |first| ==> first[i] == upper[i];
    first
  }

  /**
   * `get_short_uuid`: a name whose upper case ends with `BaseUuid` is cut at
   * its first `-` and stripped of leading zeros; any other name is only
   * upper-cased.
   */
  function GetShortUuid(itemName: string): (r: string)
    ensures IsUpper(r)
    ensures |r| <= |itemName|
    ensures EndsWith(Upper(itemName), BaseUuid) ==>
      && '-' !in r
      && (r == [] || r[0] != '0')
      && |r| <= |FirstSegment(itemName)|
      && (forall i :: 0 <= i < |FirstSegment(itemName)| - |r| ==> FirstSegment(itemName)[i] == '0')
      && r == FirstSegment(itemName)[|FirstSegment(itemName)| - |r|..]
    ensures !EndsWith(Upper(itemName), BaseUuid) ==> r == Upper(itemName)
  {
    var upper := Upper(itemName);
    if EndsWith(upper, BaseUuid) then StripZeros(FirstSegment(itemName)) else upper
  }

  /** `first.lstrip("0")` on the first segment of an upper-case UUID. */
  function StripZeros(first: string): (r: string)
    ensures IsUpper(first) ==> IsUpper(r)
    ensures '-' !in first ==> '-' !in r
    ensures r == [] || r[0] != '0'
    ensures |r| <= |first| && r == first[|first| - |r|..]
    ensures forall i :: 0 <= i < |first| - |r| ==> first[i] == '0'
  {
    LStrip(first, '0')
  }

  /** A short UUID has no `-`, so it cannot end with `BaseUuid`. */
  lemma NoDashNotHomeKit(s: string)
    requires '-' !in s
    ensures !EndsWith(s, BaseUuid)
  {
    if |BaseUuid| <= |s| {
      var k := |s| - |BaseUuid|;
      assert s[k..][0] == s[k];
    }
  }

  /** Shortening is idempotent. */
  lemma GetShortUuidIdempotent(s: string)
    ensures GetShortUuid(GetShortUuid(s)) == GetShortUuid(s)
  {
    var r := GetShortUuid(s);
    UpperOfUpper(r);
    if EndsWith(Upper(s), BaseUuid) {
      NoDashNotHomeKit(r);
    }
  }

  lemma BaseUuidIsUpper()
    ensures IsUpper(BaseUuid)
    ensures Upper(BaseUuid) == BaseUuid
  {
    UpperOfUpper(BaseUuid);
  }

  /** Upper-casing a zero-padded id followed by `BaseUuid` changes only the id. */
  lemma UpperOfPadded(s: string, pad: nat)
    ensures Upper(Repeat('0', pad) + s + BaseUuid) == Repeat('0', pad) + Upper(s) + BaseUuid
  {
    var zeros := Repeat('0', pad);
    UpperConcat(zeros + s, BaseUuid);
    UpperConcat(zeros, s);
    UpperOfUpper(zeros);
    BaseUuidIsUpper();
  }

  /** Shortening a UUID that splits into `head` and `BaseUuid` strips `head`. */
  lemma ShortOfSplit(full: string, head: string)
    requires EndsWith(Upper(full), BaseUuid)
    requires FirstSegment(full) == head
    ensures GetShortUuid(full) == LStrip(head, '0')
  {
  }

  /** A zero-padded id without `-`, followed by `BaseUuid`, splits right before `BaseUuid`. */
  lemma PaddedSplits(s: string, pad: nat)
    requires '-' !in s
    ensures EndsWith(Upper(Repeat('0', pad) + s + BaseUuid), BaseUuid)
    ensures FirstSegment(Repeat('0', pad) + s + BaseUuid) == Repeat('0', pad) + Upper(s)
  {
    var full := Repeat('0', pad) + s + BaseUuid;
    var head := Repeat('0', pad) + Upper(s);
    var upper := Upper(full);
    assert upper == head + BaseUuid by {
      UpperOfPadded(s, pad);
    }
    assert EndsWith(upper, BaseUuid) by {
      assert upper[|head|..] == BaseUuid;
    }
    assert '-' !in head by {
      UpperKeepsNonLetters(s, '-');
      assert '-' !in Repeat('0', pad);
    }
    assert BeforeFirst(upper, '-') == head by {
      assert BaseUuid == ['-'] + BaseUuid[1..];
      assert upper == head + ['-'] + BaseUuid[1..];
      BeforeFirstPrefix(head, '-', BaseUuid[1..]);
    }
    assert FirstSegment(full) == BeforeFirst(upper, '-');
  }

  /**
   * A zero-padded id without `-`, followed by `BaseUuid`, shortens to the id
   * upper-cased and without leading zeros.
   */
  lemma ShortOfPadded(s: string, pad: nat)
    requires '-' !in s
    ensures GetShortUuid(Repeat('0', pad) + s + BaseUuid) == LStrip(Upper(s), '0')
  {
    PaddedSplits(s, pad);
    ShortOfSplit(Repeat('0', pad) + s + BaseUuid, Repeat('0', pad) + Upper(s));
    LStripRepeat('0', pad, Upper(s));
  }

  /**
   * Expanding a short id without `-` and shortening the result gives the id
   * upper-cased and without leading zeros.
   */
  lemma ShortOfFullRoundTrip(s: string)
    requires |s| <= 8 && '-' !in s
    ensures GetUuid(s).Success?
    ensures GetShortUuid(GetUuid(s).value) == LStrip(Upper(s), '0')
  {
    var pad := 8 - |s|;
    var full := Repeat('0', pad) + s + BaseUuid;
    assert GetUuid(s) == Success(full);
    ShortOfPadded(s, pad);
  }

  /** A canonical HomeKit UUID is upper case and splits at index 8. */
  lemma HomeKitUuidShape(u: string)
    requires IsHomeKitUuid(u)
    ensures IsUpper(u)
    ensures '-' !in u[..8]
    ensures u == u[..8] + BaseUuid
    ensures u == u[..8] + ['-'] + BaseUuid[1..]
  {
    assert u == u[..8] + u[8..];
    assert BaseUuid == ['-'] + BaseUuid[1..];
    BaseUuidIsUpper();
    assert IsUpper(u[..8]) && '-' !in u[..8] by {
      forall i | 0 <= i < 8 ensures !IsLowerAscii(u[i]) && u[i] != '-' {
        assert IsUpperHexDigit(u[i]);
      }
    }
    UpperConcat(u[..8], BaseUuid);
    UpperOfUpper(u[..8]);
    assert Upper(u) == u;
  }

  /** Shortening a canonical HomeKit UUID and expanding it again gives it back. */
  lemma FullOfShortRoundTrip(u: string)
    requires IsHomeKitUuid(u)
    ensures GetUuid(GetShortUuid(u)) == Success(u)
  {
    HomeKitUuidShape(u);
    UpperOfUpper(u);
    var head := u[..8];
    BeforeFirstPrefix(head, '-', BaseUuid[1..]);
    assert EndsWith(Upper(u), BaseUuid);
    assert FirstSegment(u) == head;
    var short := GetShortUuid(u);
    assert |short| <= 8;
    var full := GetUuid(short).value;
    var pad := 8 - |short|;
    assert short == head[pad..];
    forall i | 0 <= i < 36 ensures full[i] == u[i] {
      if i < pad {
        assert head[i] == '0';
      } else if i < 8 {
        assert full[i] == full[pad..8][i - pad];
      } else {
        assert full[i] == full[8..][i - 8];
      }
    }
    assert |full| == |u|;
    assert full == u;
  }

  /**
   * Every constant of the service table (each has type `HomeKitUuid`) passes
   * through `get_uuid` unchanged, shortens to its first segment without
   * leading zeros, and expanding that short form reproduces it.
   */
  lemma ServiceTypesRoundTrip(u: string)
    requires IsHomeKitUuid(u)
    ensures GetUuid(u) == Success(u)
    ensures GetUuid(GetShortUuid(u)) == Success(u)
    ensures GetShortUuid(u) == LStrip(u[..8], '0')
  {
    HomeKitUuidShape(u);
    UpperOfUpper(u);
    FullOfShortRoundTrip(u);
    BeforeFirstPrefix(u[..8], '-', BaseUuid[1..]);
    assert EndsWith(Upper(u), BaseUuid);
    assert FirstSegment(u) == u[..8];
    ShortOfSplit(u, u[..8]);
  }
}
