/** The integer-coded values of the plugin protocol: the open `DeviceType` and the closed
    display `Target`. */
module Codes {
  import opened Wrappers
  import opened Ints
  import opened Json

  /** A hardware device kind; codes the 6.0 SDK does not document are kept as `Unknown`. */
  datatype DeviceType =
    | StreamDeck        // 0
    | StreamDeckMini    // 1
    | StreamDeckXl      // 2
    | StreamDeckMobile  // 3
    | CorsairGKeys      // 4
    | StreamDeckPedal   // 5
    | CorsairVoyager    // 6
    | StreamDeckPlus    // 7
    | Unknown(code: uint64)

  /** The documented devices in code order: `Named[i]` has code `i`. */
  const Named: seq<DeviceType> := [
    StreamDeck, StreamDeckMini, StreamDeckXl, StreamDeckMobile,
    CorsairGKeys, StreamDeckPedal, CorsairVoyager, StreamDeckPlus
  ]

  function EncodeDeviceType(d: DeviceType): uint64 {
    match d
    case StreamDeck => 0
    case StreamDeckMini => 1
    case StreamDeckXl => 2
    case StreamDeckMobile => 3
    case CorsairGKeys => 4
    case StreamDeckPedal => 5
    case CorsairVoyager => 6
    case StreamDeckPlus => 7
    case Unknown(code) => code
  }

  function DecodeDeviceType(n: uint64): DeviceType {
    match n
    case 0 => StreamDeck
    case 1 => StreamDeckMini
    case 2 => StreamDeckXl
    case 3 => StreamDeckMobile
    case 4 => CorsairGKeys
    case 5 => StreamDeckPedal
    case 6 => CorsairVoyager
    case 7 => StreamDeckPlus
    case _ => Unknown(n)
  }

  /** A device type in JSON: any unsigned 64-bit integer. */
  function DeviceTypeFromJson(j: Json, name: string): (r: Decoded<DeviceType>)
    ensures r.Success? <==> j.JInt? && 0 <= j.n < 0x1_0000_0000_0000_0000
    ensures r.Success? ==> r.value == DecodeDeviceType(j.n)
  {
    var n :- AsIntIn(j, name, 0, 0x1_0000_0000_0000_0000);
    Success(DecodeDeviceType(n))
  }

  function DeviceTypeToJson(d: DeviceType): Json {
    JInt(EncodeDeviceType(d))
  }

  /** Codes 0 to 7 are the documented devices in order, and every other code is kept open. */
  lemma DecodeDeviceTypeTable(n: uint64)
    ensures n < 8 ==> DecodeDeviceType(n) == Named[n]
    ensures n >= 8 ==> DecodeDeviceType(n) == Unknown(n)
  {
  }

  /** Every code survives decoding and re-encoding. */
  lemma EncodeDecodeDeviceType(n: uint64)
    ensures EncodeDeviceType(DecodeDeviceType(n)) == n
  {
  }

  /** A device type survives encoding and decoding exactly unless it is an `Unknown` that
      carries a documented code. */
  lemma DecodeEncodeDeviceType(d: DeviceType)
    ensures DecodeDeviceType(EncodeDeviceType(d)) == d <==> !(d.Unknown? && d.code < 8)
  {
  }

  /** The code is not injective: `Unknown(3)` comes back as the mobile app. */
  lemma UnknownDocumentedCode()
    ensures EncodeDeviceType(Unknown(3)) == EncodeDeviceType(StreamDeckMobile)
    ensures DecodeDeviceType(EncodeDeviceType(Unknown(3))) == StreamDeckMobile
  {
  }

  /** Where a visual command applies. */
  datatype Target = Both | Hardware | Software

  function TargetCode(t: Target): uint8 {
    match t
    case Both => 0
    case Hardware => 1
    case Software => 2
  }

  function TargetFromCode(n: int): Option<Target> {
    if n == 0 then Some(Both)
    else if n == 1 then Some(Hardware)
    else if n == 2 then Some(Software)
    else None
  }

  function TargetToJson(t: Target): Json {
    JInt(TargetCode(t))
  }

  /** A target in JSON: an integer that must be a `u8` and then one of the three codes. */
  function TargetFromJson(j: Json, name: string): (r: Decoded<Target>)
    ensures r.Success? <==> j.JInt? && TargetFromCode(j.n).Some?
    ensures r.Success? ==> Some(r.value) == TargetFromCode(j.n)
  {
    var n :- AsU8(j, name);
    match TargetFromCode(n)
    case Some(t) => Success(t)
    case None => Failure(InvalidValue(name))
  }

  /** The three codes, and only they, are targets; the codec is a bijection with {0, 1, 2}. */
  lemma TargetCodes(t: Target, n: int)
    ensures TargetCode(Both) == 0 && TargetCode(Hardware) == 1 && TargetCode(Software) == 2
    ensures TargetFromCode(TargetCode(t)) == Some(t)
    ensures TargetFromCode(n).Some? <==> 0 <= n <= 2
    ensures TargetFromCode(n).Some? ==> TargetCode(TargetFromCode(n).value) == n
  {
  }

  lemma TargetJsonRoundTrip(t: Target, name: string)
    ensures TargetFromJson(TargetToJson(t), name) == Success(t)
  {
  }

  lemma DeviceTypeJsonRoundTrip(d: DeviceType, name: string)
    requires !(d.Unknown? && d.code < 8)
    ensures DeviceTypeFromJson(DeviceTypeToJson(d), name) == Success(d)
  {
    DecodeEncodeDeviceType(d);
  }
}
