/**
 * The leak-detection message vocabulary: the supported point types with their
 * probe ids and alert texts, the binary fault value and its integer wire form,
 * and the point-type classifiers on metadata.
 */
module Messages {
  import opened Wrappers

  /** An unsigned 64-bit integer, the argument of serde's `visit_u64`. */
  type U64 = n: nat | n < 0x1_0000_0000_0000_0000

  /** The supported leak point types; the variant names are the point-type strings. */
  datatype LeakPointType = LeakDetectRack | LeakSensorFaultRack | LeakDetectRackTray

  /** The name of a variant, as serde writes it and as it appears in `pointType`. */
  function VariantName(t: LeakPointType): string {
    match t
    case LeakDetectRack => "LeakDetectRack"
    case LeakSensorFaultRack => "LeakSensorFaultRack"
    case LeakDetectRackTray => "LeakDetectRackTray"
  }

  /** The health probe id raised for a point type. */
  function ProbeId(t: LeakPointType): (id: string)
    ensures |id| > 3 && id[..3] == "Bms" && id[3..] == VariantName(t)
  {
    match t
    case LeakDetectRack => "BmsLeakDetectRack"
    case LeakSensorFaultRack => "BmsLeakSensorFaultRack"
    case LeakDetectRackTray => "BmsLeakDetectRackTray"
  }

  /** The human-readable text that opens an alert message. */
  function Description(t: LeakPointType): (text: string)
    ensures |text| > 0
  {
    match t
    case LeakDetectRack => "Leak detected"
    case LeakSensorFaultRack => "Leak sensor fault"
    case LeakDetectRackTray => "Rack tray leak detected"
  }

  /** The value of a binary BMS point. */
  datatype FaultValue = Clear | Faulting

  /** Decoding fails with the offending integer. */
  datatype DecodeError = InvalidBinaryValue(got: U64)

  /** `Serialize for FaultValue`: the value as an unsigned integer. */
  function Encode(v: FaultValue): (n: nat)
    ensures n <= 1
    ensures (n == 0) <==> v == Clear
  {
    match v
    case Clear => 0
    case Faulting => 1
  }

  /** `visit_u64`: 0 is Clear, 1 is Faulting, any other integer is an error. */
  function DecodeU64(n: U64): (r: Result<FaultValue, DecodeError>)
    ensures r.Success? <==> n <= 1
    ensures r.Failure? ==> r.error == InvalidBinaryValue(n)
    ensures r.Success? ==> (r.value == Faulting <==> n == 1)
  {
    if n == 0 then Success(Clear)
    else if n == 1 then Success(Faulting)
    else Failure(InvalidBinaryValue(n))
  }

  /** Point metadata as published for a sensor path. */
  datatype LeakMetadata = LeakMetadata(pointType: string, objectType: string, rackName: string, rackId: string)

  /** `is_supported_leak_type`: the point type is one of the three leak point types. */
  predicate IsSupportedLeakType(m: LeakMetadata) {
    m.pointType == "LeakDetectRack" || m.pointType == "LeakSensorFaultRack" || m.pointType == "LeakDetectRackTray"
  }

  /** `leak_point_type`: the variant whose name is the point type, if any. */
  function LeakPointTypeOf(m: LeakMetadata): (r: Option<LeakPointType>)
    ensures r.Some? <==> IsSupportedLeakType(m)
    ensures r.Some? ==> VariantName(r.value) == m.pointType
  {
    match m.pointType
    case "LeakDetectRack" => Some(LeakDetectRack)
    case "LeakSensorFaultRack" => Some(LeakSensorFaultRack)
    case "LeakDetectRackTray" => Some(LeakDetectRackTray)
    case _ => None
  }

  /** Decoding an encoded value gives it back. */
  lemma DecodeEncode(v: FaultValue)
    ensures DecodeU64(Encode(v)) == Success(v)
  {
  }

  /** Encoding a successfully decoded integer gives that integer back. */
  lemma EncodeDecode(n: U64)
    requires DecodeU64(n).Success?
    ensures Encode(DecodeU64(n).value) == n
  {
  }

  /** Every leak point type is recognised from its own name, and only from it. */
  lemma LeakPointTypeOfName(t: LeakPointType, m: LeakMetadata)
    ensures LeakPointTypeOf(m) == Some(t) <==> m.pointType == VariantName(t)
  {
  }

  /** Distinct point types raise distinct probes with distinct texts. */
  lemma TablesInjective(a: LeakPointType, b: LeakPointType)
    requires a != b
    ensures ProbeId(a) != ProbeId(b)
    ensures Description(a) != Description(b)
    ensures VariantName(a) != VariantName(b)
  {
  }

  /** The liquid-isolation status point is not a leak point type. */
  lemma LiquidIsolationUnsupported(objectType: string, rackName: string, rackId: string)
    ensures !IsSupportedLeakType(LeakMetadata("LeakResponseRackLiquidIsolationStatus", objectType, rackName, rackId))
    ensures LeakPointTypeOf(LeakMetadata("LeakResponseRackLiquidIsolationStatus", objectType, rackName, rackId)) == None
  {
  }
}
