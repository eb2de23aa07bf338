/**
 * Wire codes of the HomeKit Accessory Protocol over Bluetooth LE:
 * the Additional Parameter Types (the protocol's Table 6-9) and the HAP-BLE
 * PDU opcodes. Each enum is a datatype with a total encoding into one byte
 * and a partial decoding, as Python's `AdditionalParameterTypes(code)` and
 * `OpCodes(code)` raise on an unknown code.
 */
module BleConst {
  import opened Common

  datatype AdditionalParameterType =
    | Value
    | AdditionalAuthorizationData
    | Origin
    | CharacteristicType
    | CharacteristicInstanceId
    | ServiceType
    | ServiceInstanceId
    | TTL
    | ParamReturnResponse
    | HAPCharacteristicPropertiesDescriptor
    | GATTUserDescriptionDescriptor
    | GATTPresentationFormatDescriptor
    | GATTValidRange
    | HAPStepValueDescriptor
    | HAPServiceProperties
    | HAPLinkedServices
    | HAPValidValuesDescriptor
    | HAPValidValuesRangeDescriptor

  /** The tag byte of a parameter type; every tag is non-zero and at most 0x12. */
  function ParamCode(t: AdditionalParameterType): (c: Byte)
    ensures 0x01 <= c <= 0x12
  {
    match t
    case Value => 0x01
    case AdditionalAuthorizationData => 0x02
    case Origin => 0x03
    case CharacteristicType => 0x04
    case CharacteristicInstanceId => 0x05
    case ServiceType => 0x06
    case ServiceInstanceId => 0x07
    case TTL => 0x08
    case ParamReturnResponse => 0x09
    case HAPCharacteristicPropertiesDescriptor => 0x0A
    case GATTUserDescriptionDescriptor => 0x0B
    case GATTPresentationFormatDescriptor => 0x0C
    case GATTValidRange => 0x0D
    case HAPStepValueDescriptor => 0x0E
    case HAPServiceProperties => 0x0F
    case HAPLinkedServices => 0x10
    case HAPValidValuesDescriptor => 0x11
    case HAPValidValuesRangeDescriptor => 0x12
  }

  /** The parameter type a tag byte names, if any. */
  function ParamFromCode(c: int): (r: Option<AdditionalParameterType>)
    ensures r.Some? <==> 0x01 <= c <= 0x12
    ensures r.Some? ==> ParamCode(r.value) == c
  {
    match c
    case 0x01 => Some(Value)
    case 0x02 => Some(AdditionalAuthorizationData)
    case 0x03 => Some(Origin)
    case 0x04 => Some(CharacteristicType)
    case 0x05 => Some(CharacteristicInstanceId)
    case 0x06 => Some(ServiceType)
    case 0x07 => Some(ServiceInstanceId)
    case 0x08 => Some(TTL)
    case 0x09 => Some(ParamReturnResponse)
    case 0x0A => Some(HAPCharacteristicPropertiesDescriptor)
    case 0x0B => Some(GATTUserDescriptionDescriptor)
    case 0x0C => Some(GATTPresentationFormatDescriptor)
    case 0x0D => Some(GATTValidRange)
    case 0x0E => Some(HAPStepValueDescriptor)
    case 0x0F => Some(HAPServiceProperties)
    case 0x10 => Some(HAPLinkedServices)
    case 0x11 => Some(HAPValidValuesDescriptor)
    case 0x12 => Some(HAPValidValuesRangeDescriptor)
    case _ => None
  }

  /** Encoding a parameter type and decoding the tag gives the type back. */
  lemma ParamRoundTrip(t: AdditionalParameterType)
    ensures ParamFromCode(ParamCode(t)) == Some(t)
  {
  }

  /** No two parameter types share a tag. */
  lemma ParamCodeInjective(a: AdditionalParameterType, b: AdditionalParameterType)
    ensures ParamCode(a) == ParamCode(b) ==> a == b
  {
    ParamRoundTrip(a);
    ParamRoundTrip(b);
  }

  /** The tags are exactly the bytes 0x01..0x12: each of them names a type. */
  lemma ParamCodesCoverRange(c: int)
    ensures (exists t :: ParamCode(t) == c) <==> 0x01 <= c <= 0x12
  {
    if 0x01 <= c <= 0x12 {
      var t := ParamFromCode(c).value;
      assert ParamCode(t) == c;
    }
  }

  /** The tags the HAP-BLE transport layer builds its requests with. */
  lemma TransportTags()
    ensures ParamCode(Value) == 0x01
    ensures ParamCode(CharacteristicInstanceId) == 0x05
    ensures ParamCode(ServiceInstanceId) == 0x07
    ensures ParamCode(TTL) == 0x08
  {
  }

  /** HAP-BLE PDU opcodes. */
  datatype OpCode =
    | CharSigRead
    | CharWrite
    | CharRead
    | CharTimedWrite
    | CharExecWrite
    | ServSigRead

  function OpCodeByte(op: OpCode): (c: Byte)
    ensures 0x01 <= c <= 0x06
  {
    match op
    case CharSigRead => 0x01
    case CharWrite => 0x02
    case CharRead => 0x03
    case CharTimedWrite => 0x04
    case CharExecWrite => 0x05
    case ServSigRead => 0x06
  }

  function OpCodeFromByte(c: int): (r: Option<OpCode>)
    ensures r.Some? <==> 0x01 <= c <= 0x06
    ensures r.Some? ==> OpCodeByte(r.value) == c
  {
    match c
    case 0x01 => Some(CharSigRead)
    case 0x02 => Some(CharWrite)
    case 0x03 => Some(CharRead)
    case 0x04 => Some(CharTimedWrite)
    case 0x05 => Some(CharExecWrite)
    case 0x06 => Some(ServSigRead)
    case _ => None
  }

  lemma OpCodeRoundTrip(op: OpCode)
    ensures OpCodeFromByte(OpCodeByte(op)) == Some(op)
  {
  }

  lemma OpCodeInjective(a: OpCode, b: OpCode)
    ensures OpCodeByte(a) == OpCodeByte(b) ==> a == b
  {
    OpCodeRoundTrip(a);
    OpCodeRoundTrip(b);
  }

  lemma OpCodesCoverRange(c: int)
    ensures (exists op :: OpCodeByte(op) == c) <==> 0x01 <= c <= 0x06
  {
    if 0x01 <= c <= 0x06 {
      var op := OpCodeFromByte(c).value;
      assert OpCodeByte(op) == c;
    }
  }
}
