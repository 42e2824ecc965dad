/** The payload records carried by the plugin messages, each with its derived JSON encoding
    (field names in lowerCamelCase, `None` written as `null` unless the field is skipped) and
    decoding (required fields must be present, `Option` fields may be absent or `null`,
    unnamed keys are ignored). Settings `S` and global settings `G` are opaque and go through
    their own codec. */
module Payloads {
  import opened Wrappers
  import opened Ints
  import opened Json
  import opened Codes

  // ---------------------------------------------------------------------------------------
  // Shared records

  /** The location of a key, zero-based from the top left. */
  datatype Coordinates = Coordinates(column: uint8, row: uint8)

  function CoordinatesToJson(c: Coordinates): Json {
    JObject(map["column" := JInt(c.column), "row" := JInt(c.row)])
  }

  function CoordinatesFromJson(j: Json): Decoded<Coordinates> {
    var o :- AsObject(j);
    var column :- U8Field(o, "column");
    var row :- U8Field(o, "row");
    Success(Coordinates(column, row))
  }

  function OptCoordinatesToJson(c: Option<Coordinates>): Json {
    match c
    case None => JNull
    case Some(c) => CoordinatesToJson(c)
  }

  function OptCoordinatesField(obj: Object, name: string): Decoded<Option<Coordinates>> {
    match Present(obj, name)
    case None => Success(None)
    case Some(j) => var c :- CoordinatesFromJson(j); Success(Some(c))
  }

  function CoordinatesField(obj: Object, name: string): Decoded<Coordinates> {
    var j :- Required(obj, name);
    CoordinatesFromJson(j)
  }

  function OptU8ToJson(o: Option<uint8>): Json {
    match o
    case None => JNull
    case Some(n) => JInt(n)
  }

  // ---------------------------------------------------------------------------------------
  // Payloads of received messages

  /** Additional information about a key press or release, or about delivered settings. */
  datatype KeyPayload<S> = KeyPayload(
    settings: S,
    coordinates: Option<Coordinates>,
    state: Option<uint8>,
    userDesiredState: Option<uint8>)

  function KeyPayloadToJson<S>(cs: Codec<S>, p: KeyPayload<S>): Json {
    JObject(map[
      "settings" := cs.encode(p.settings),
      "coordinates" := OptCoordinatesToJson(p.coordinates),
      "state" := OptU8ToJson(p.state),
      "userDesiredState" := OptU8ToJson(p.userDesiredState)])
  }

  function KeyPayloadFromJson<S>(cs: Codec<S>, j: Json): Decoded<KeyPayload<S>> {
    var o :- AsObject(j);
    var settings :- OpaqueField(cs, o, "settings");
    var coordinates :- OptCoordinatesField(o, "coordinates");
    var state :- OptU8Field(o, "state");
    var desired :- OptU8Field(o, "userDesiredState");
    Success(KeyPayload(settings, coordinates, state, desired))
  }

  /** Additional information about an action's appearance or disappearance. */
  datatype VisibilityPayload<S> = VisibilityPayload(
    settings: S,
    coordinates: Option<Coordinates>,
    state: Option<uint8>)

  function VisibilityPayloadToJson<S>(cs: Codec<S>, p: VisibilityPayload<S>): Json {
    JObject(map[
      "settings" := cs.encode(p.settings),
      "coordinates" := OptCoordinatesToJson(p.coordinates),
      "state" := OptU8ToJson(p.state)])
  }

  function VisibilityPayloadFromJson<S>(cs: Codec<S>, j: Json): Decoded<VisibilityPayload<S>> {
    var o :- AsObject(j);
    var settings :- OpaqueField(cs, o, "settings");
    var coordinates :- OptCoordinatesField(o, "coordinates");
    var state :- OptU8Field(o, "state");
    Success(VisibilityPayload(settings, coordinates, state))
  }

  /** The vertical alignment of a title, written as a lowercase string. */
  datatype Alignment = Top | Middle | Bottom

  function AlignmentToJson(a: Alignment): Json {
    match a
    case Top => JString("top")
    case Middle => JString("middle")
    case Bottom => JString("bottom")
  }

  function AlignmentFromJson(j: Json, name: string): Decoded<Alignment> {
    var s :- AsString(j, name);
    if s == "top" then Success(Top)
    else if s == "middle" then Success(Middle)
    else if s == "bottom" then Success(Bottom)
    else Failure(UnknownVariant(s))
  }

  /** Style information for a title. */
  datatype TitleParameters = TitleParameters(
    fontFamily: string,
    fontSize: uint8,
    fontStyle: string,
    fontUnderline: bool,
    showTitle: bool,
    titleAlignment: Alignment,
    titleColor: string)

  function TitleParametersToJson(t: TitleParameters): Json {
    JObject(map[
      "fontFamily" := JString(t.fontFamily),
      "fontSize" := JInt(t.fontSize),
      "fontStyle" := JString(t.fontStyle),
      "fontUnderline" := JBool(t.fontUnderline),
      "showTitle" := JBool(t.showTitle),
      "titleAlignment" := AlignmentToJson(t.titleAlignment),
      "titleColor" := JString(t.titleColor)])
  }

  function TitleParametersFromJson(j: Json): Decoded<TitleParameters> {
    var o :- AsObject(j);
    var family :- StringField(o, "fontFamily");
    var size :- U8Field(o, "fontSize");
    var style :- StringField(o, "fontStyle");
    var underline :- BoolField(o, "fontUnderline");
    var show :- BoolField(o, "showTitle");
    var alignmentJson :- Required(o, "titleAlignment");
    var alignment :- AlignmentFromJson(alignmentJson, "titleAlignment");
    var color :- StringField(o, "titleColor");
    Success(TitleParameters(family, size, style, underline, show, alignment, color))
  }

  /** The new title of an action instance. Here the coordinates are mandatory. */
  datatype TitleParametersPayload<S> = TitleParametersPayload(
    settings: S,
    coordinates: Coordinates,
    state: Option<uint8>,
    title: string,
    titleParameters: TitleParameters)

  function TitleParametersPayloadToJson<S>(cs: Codec<S>, p: TitleParametersPayload<S>): Json {
    JObject(map[
      "settings" := cs.encode(p.settings),
      "coordinates" := CoordinatesToJson(p.coordinates),
      "state" := OptU8ToJson(p.state),
      "title" := JString(p.title),
      "titleParameters" := TitleParametersToJson(p.titleParameters)])
  }

  function TitleParametersPayloadFromJson<S>(cs: Codec<S>, j: Json): Decoded<TitleParametersPayload<S>> {
    var o :- AsObject(j);
    var settings :- OpaqueField(cs, o, "settings");
    var coordinates :- CoordinatesField(o, "coordinates");
    var state :- OptU8Field(o, "state");
    var title :- StringField(o, "title");
    var parametersJson :- Required(o, "titleParameters");
    var parameters :- TitleParametersFromJson(parametersJson);
    Success(TitleParametersPayload(settings, coordinates, state, title, parameters))
  }

  /** The size of a device in keys. */
  datatype DeviceSize = DeviceSize(columns: uint8, rows: uint8)

  function DeviceSizeToJson(d: DeviceSize): Json {
    JObject(map["columns" := JInt(d.columns), "rows" := JInt(d.rows)])
  }

  function DeviceSizeFromJson(j: Json): Decoded<DeviceSize> {
    var o :- AsObject(j);
    var columns :- U8Field(o, "columns");
    var rows :- U8Field(o, "rows");
    Success(DeviceSize(columns, rows))
  }

  /** Information about a hardware device; its kind travels under the key `type`. */
  datatype DeviceInfo = DeviceInfo(name: Option<string>, size: DeviceSize, deviceType: Option<DeviceType>)

  function DeviceInfoToJson(d: DeviceInfo): Json {
    JObject(map[
      "name" := OptStringJson(d.name),
      "size" := DeviceSizeToJson(d.size),
      "type" := match d.deviceType case None => JNull case Some(t) => DeviceTypeToJson(t)])
  }

  function DeviceInfoFromJson(j: Json): Decoded<DeviceInfo> {
    var o :- AsObject(j);
    var name :- OptStringField(o, "name");
    var sizeJson :- Required(o, "size");
    var size :- DeviceSizeFromJson(sizeJson);
    var deviceType :- match Present(o, "type")
      case None => Success(None)
      case Some(t) => var d :- DeviceTypeFromJson(t, "type"); Success(Some(d));
    Success(DeviceInfo(name, size, deviceType))
  }

  /** A monitored application that has launched or terminated. */
  datatype ApplicationPayload = ApplicationPayload(application: string)

  function ApplicationPayloadToJson(p: ApplicationPayload): Json {
    JObject(map["application" := JString(p.application)])
  }

  function ApplicationPayloadFromJson(j: Json): Decoded<ApplicationPayload> {
    var o :- AsObject(j);
    var application :- StringField(o, "application");
    Success(ApplicationPayload(application))
  }

  /** The plugin's global settings. */
  datatype GlobalSettingsPayload<G> = GlobalSettingsPayload(settings: G)

  function GlobalSettingsPayloadToJson<G>(cg: Codec<G>, p: GlobalSettingsPayload<G>): Json {
    JObject(map["settings" := cg.encode(p.settings)])
  }

  function GlobalSettingsPayloadFromJson<G>(cg: Codec<G>, j: Json): Decoded<GlobalSettingsPayload<G>> {
    var o :- AsObject(j);
    var settings :- OpaqueField(cg, o, "settings");
    Success(GlobalSettingsPayload(settings))
  }

  /** A touch-screen tap; the tap position is a JSON array of exactly two `u8`. */
  datatype TouchTapPayload<S> = TouchTapPayload(
    settings: S,
    coordinates: Option<Coordinates>,
    tapPos: (uint8, uint8),
    hold: bool)

  function TouchTapPayloadToJson<S>(cs: Codec<S>, p: TouchTapPayload<S>): Json {
    JObject(map[
      "settings" := cs.encode(p.settings),
      "coordinates" := OptCoordinatesToJson(p.coordinates),
      "tapPos" := JArray([JInt(p.tapPos.0), JInt(p.tapPos.1)]),
      "hold" := JBool(p.hold)])
  }

  function PairFromJson(j: Json, name: string): Decoded<(uint8, uint8)> {
    if !j.JArray? then Failure(InvalidType(name))
    else if |j.items| != 2 then Failure(InvalidValue(name))
    else
      var x :- AsU8(j.items[0], name);
      var y :- AsU8(j.items[1], name);
      Success((x, y))
  }

  function TouchTapPayloadFromJson<S>(cs: Codec<S>, j: Json): Decoded<TouchTapPayload<S>> {
    var o :- AsObject(j);
    var settings :- OpaqueField(cs, o, "settings");
    var coordinates :- OptCoordinatesField(o, "coordinates");
    var posJson :- Required(o, "tapPos");
    var pos :- PairFromJson(posJson, "tapPos");
    var hold :- BoolField(o, "hold");
    Success(TouchTapPayload(settings, coordinates, pos, hold))
  }

  /** An encoder press or release (the dial-down and dial-up payloads have the same shape). */
  datatype DialPayload<S> = DialPayload(settings: S, coordinates: Option<Coordinates>)

  function DialPayloadToJson<S>(cs: Codec<S>, p: DialPayload<S>): Json {
    JObject(map[
      "settings" := cs.encode(p.settings),
      "coordinates" := OptCoordinatesToJson(p.coordinates)])
  }

  function DialPayloadFromJson<S>(cs: Codec<S>, j: Json): Decoded<DialPayload<S>> {
    var o :- AsObject(j);
    var settings :- OpaqueField(cs, o, "settings");
    var coordinates :- OptCoordinatesField(o, "coordinates");
    Success(DialPayload(settings, coordinates))
  }

  /** An encoder rotation by a signed number of ticks (positive is clockwise). */
  datatype DialRotatePayload<S> = DialRotatePayload(
    settings: S,
    coordinates: Option<Coordinates>,
    ticks: int64,
    pressed: bool)

  function DialRotatePayloadToJson<S>(cs: Codec<S>, p: DialRotatePayload<S>): Json {
    JObject(map[
      "settings" := cs.encode(p.settings),
      "coordinates" := OptCoordinatesToJson(p.coordinates),
      "ticks" := JInt(p.ticks),
      "pressed" := JBool(p.pressed)])
  }

  function DialRotatePayloadFromJson<S>(cs: Codec<S>, j: Json): Decoded<DialRotatePayload<S>> {
    var o :- AsObject(j);
    var settings :- OpaqueField(cs, o, "settings");
    var coordinates :- OptCoordinatesField(o, "coordinates");
    var ticksJson :- Required(o, "ticks");
    var ticks :- AsI64(ticksJson, "ticks");
    var pressed :- BoolField(o, "pressed");
    Success(DialRotatePayload(settings, coordinates, ticks, pressed))
  }

  // ---------------------------------------------------------------------------------------
  // Payloads of sent messages

  /** A new title, or `None` to restore the default. The `state` key is left out when it is
      `None` (the title is then set for all states). */
  datatype TitlePayload = TitlePayload(title: Option<string>, target: Target, state: Option<uint8>)

  function TitlePayloadToJson(p: TitlePayload): (j: Json)
    ensures j.JObject?
    ensures "title" in j.fields && j.fields["title"] == OptStringJson(p.title)
    ensures "target" in j.fields && j.fields["target"] == JInt(TargetCode(p.target))
    ensures "state" in j.fields <==> p.state.Some?
    ensures p.state.Some? ==> j.fields["state"] == JInt(p.state.value)
    ensures j.fields.Keys <= {"title", "target", "state"}
  {
    var base := map["title" := OptStringJson(p.title), "target" := TargetToJson(p.target)];
    JObject(match p.state case None => base case Some(s) => base["state" := JInt(s)])
  }

  function TitlePayloadFromJson(j: Json): Decoded<TitlePayload> {
    var o :- AsObject(j);
    var title :- OptStringField(o, "title");
    var targetJson :- Required(o, "target");
    var target :- TargetFromJson(targetJson, "target");
    var state :- OptU8Field(o, "state");
    Success(TitlePayload(title, target, state))
  }

  /** A new image as a data URI, or `None` to restore the default; `state` as for titles. */
  datatype ImagePayload = ImagePayload(image: Option<string>, target: Target, state: Option<uint8>)

  function ImagePayloadToJson(p: ImagePayload): (j: Json)
    ensures j.JObject?
    ensures "image" in j.fields && j.fields["image"] == OptStringJson(p.image)
    ensures "target" in j.fields && j.fields["target"] == JInt(TargetCode(p.target))
    ensures "state" in j.fields <==> p.state.Some?
    ensures p.state.Some? ==> j.fields["state"] == JInt(p.state.value)
    ensures j.fields.Keys <= {"image", "target", "state"}
  {
    var base := map["image" := OptStringJson(p.image), "target" := TargetToJson(p.target)];
    JObject(match p.state case None => base case Some(s) => base["state" := JInt(s)])
  }

  function ImagePayloadFromJson(j: Json): Decoded<ImagePayload> {
    var o :- AsObject(j);
    var image :- OptStringField(o, "image");
    var targetJson :- Required(o, "target");
    var target :- TargetFromJson(targetJson, "target");
    var state :- OptU8Field(o, "state");
    Success(ImagePayload(image, target, state))
  }

  datatype StatePayload = StatePayload(state: uint8)

  function StatePayloadToJson(p: StatePayload): Json {
    JObject(map["state" := JInt(p.state)])
  }

  function StatePayloadFromJson(j: Json): Decoded<StatePayload> {
    var o :- AsObject(j);
    var state :- U8Field(o, "state");
    Success(StatePayload(state))
  }

  /** A record with a single string field, used for several payloads: `profile`
      (ProfilePayload), `url` (UrlPayload), `message` (LogMessagePayload) and `layout`
      (SetFeedbackLayoutPayload). */
  function StringRecordToJson(key: string, v: string): Json {
    JObject(map[key := JString(v)])
  }

  function StringRecordFromJson(key: string, j: Json): Decoded<string> {
    var o :- AsObject(j);
    StringField(o, key)
  }

  datatype ProfilePayload = ProfilePayload(profile: string)
  datatype UrlPayload = UrlPayload(url: string)
  datatype LogMessagePayload = LogMessagePayload(message: string)
  datatype SetFeedbackLayoutPayload = SetFeedbackLayoutPayload(layout: string)

  /** Descriptions of the dial and touch interactions; absent ones are written as `null`. */
  datatype SetTriggerDescriptionPayload = SetTriggerDescriptionPayload(
    longTouch: Option<string>,
    push: Option<string>,
    rotate: Option<string>,
    touch: Option<string>)

  function TriggerDescriptionToJson(p: SetTriggerDescriptionPayload): Json {
    JObject(map[
      "longTouch" := OptStringJson(p.longTouch),
      "push" := OptStringJson(p.push),
      "rotate" := OptStringJson(p.rotate),
      "touch" := OptStringJson(p.touch)])
  }

  function TriggerDescriptionFromJson(j: Json): Decoded<SetTriggerDescriptionPayload> {
    var o :- AsObject(j);
    var longTouch :- OptStringField(o, "longTouch");
    var push :- OptStringField(o, "push");
    var rotate :- OptStringField(o, "rotate");
    var touch :- OptStringField(o, "touch");
    Success(SetTriggerDescriptionPayload(longTouch, push, rotate, touch))
  }

  // ---------------------------------------------------------------------------------------
  // Round trips: every payload decodes back from its own encoding.

  lemma CoordinatesRoundTrip(c: Coordinates)
    ensures CoordinatesFromJson(CoordinatesToJson(c)) == Success(c)
  {
  }

  lemma OptCoordinatesRoundTrip(obj: Object, name: string, c: Option<Coordinates>)
    requires name in obj && obj[name] == OptCoordinatesToJson(c)
    ensures OptCoordinatesField(obj, name) == Success(c)
  {
  }

  lemma KeyPayloadRoundTrip<S(!new)>(cs: Codec<S>, p: KeyPayload<S>)
    requires Lawful(cs)
    ensures KeyPayloadFromJson(cs, KeyPayloadToJson(cs, p)) == Success(p)
  {
    var o := KeyPayloadToJson(cs, p).fields;
    OpaqueRoundTrip(cs, o, "settings", p.settings);
    OptCoordinatesRoundTrip(o, "coordinates", p.coordinates);
  }

  lemma VisibilityPayloadRoundTrip<S(!new)>(cs: Codec<S>, p: VisibilityPayload<S>)
    requires Lawful(cs)
    ensures VisibilityPayloadFromJson(cs, VisibilityPayloadToJson(cs, p)) == Success(p)
  {
    var o := VisibilityPayloadToJson(cs, p).fields;
    OpaqueRoundTrip(cs, o, "settings", p.settings);
    OptCoordinatesRoundTrip(o, "coordinates", p.coordinates);
  }

  lemma TitleParametersRoundTrip(t: TitleParameters)
    ensures TitleParametersFromJson(TitleParametersToJson(t)) == Success(t)
  {
    var o := TitleParametersToJson(t).fields;
    assert AlignmentFromJson(o["titleAlignment"], "titleAlignment") == Success(t.titleAlignment);
  }

  lemma TitleParametersPayloadRoundTrip<S(!new)>(cs: Codec<S>, p: TitleParametersPayload<S>)
    requires Lawful(cs)
    ensures TitleParametersPayloadFromJson(cs, TitleParametersPayloadToJson(cs, p)) == Success(p)
  {
    var o := TitleParametersPayloadToJson(cs, p).fields;
    OpaqueRoundTrip(cs, o, "settings", p.settings);
    CoordinatesRoundTrip(p.coordinates);
    assert CoordinatesField(o, "coordinates") == Success(p.coordinates);
    assert OptU8Field(o, "state") == Success(p.state);
    assert StringField(o, "title") == Success(p.title);
    TitleParametersRoundTrip(p.titleParameters);
    assert o["titleParameters"] == TitleParametersToJson(p.titleParameters);
  }

  lemma DeviceInfoRoundTrip(d: DeviceInfo)
    requires d.deviceType.Some? ==> !(d.deviceType.value.Unknown? && d.deviceType.value.code < 8)
    ensures DeviceInfoFromJson(DeviceInfoToJson(d)) == Success(d)
  {
    if d.deviceType.Some? {
      DeviceTypeJsonRoundTrip(d.deviceType.value, "type");
    }
  }

  lemma ApplicationPayloadRoundTrip(p: ApplicationPayload)
    ensures ApplicationPayloadFromJson(ApplicationPayloadToJson(p)) == Success(p)
  {
  }

  lemma GlobalSettingsPayloadRoundTrip<G(!new)>(cg: Codec<G>, p: GlobalSettingsPayload<G>)
    requires Lawful(cg)
    ensures GlobalSettingsPayloadFromJson(cg, GlobalSettingsPayloadToJson(cg, p)) == Success(p)
  {
    OpaqueRoundTrip(cg, GlobalSettingsPayloadToJson(cg, p).fields, "settings", p.settings);
  }

  lemma TouchTapPayloadRoundTrip<S(!new)>(cs: Codec<S>, p: TouchTapPayload<S>)
    requires Lawful(cs)
    ensures TouchTapPayloadFromJson(cs, TouchTapPayloadToJson(cs, p)) == Success(p)
  {
    var o := TouchTapPayloadToJson(cs, p).fields;
    OpaqueRoundTrip(cs, o, "settings", p.settings);
    OptCoordinatesRoundTrip(o, "coordinates", p.coordinates);
  }

  lemma DialPayloadRoundTrip<S(!new)>(cs: Codec<S>, p: DialPayload<S>)
    requires Lawful(cs)
    ensures DialPayloadFromJson(cs, DialPayloadToJson(cs, p)) == Success(p)
  {
    var o := DialPayloadToJson(cs, p).fields;
    OpaqueRoundTrip(cs, o, "settings", p.settings);
    OptCoordinatesRoundTrip(o, "coordinates", p.coordinates);
  }

  lemma DialRotatePayloadRoundTrip<S(!new)>(cs: Codec<S>, p: DialRotatePayload<S>)
    requires Lawful(cs)
    ensures DialRotatePayloadFromJson(cs, DialRotatePayloadToJson(cs, p)) == Success(p)
  {
    var o := DialRotatePayloadToJson(cs, p).fields;
    OpaqueRoundTrip(cs, o, "settings", p.settings);
    OptCoordinatesRoundTrip(o, "coordinates", p.coordinates);
  }

  lemma TitlePayloadRoundTrip(p: TitlePayload)
    ensures TitlePayloadFromJson(TitlePayloadToJson(p)) == Success(p)
  {
    TargetJsonRoundTrip(p.target, "target");
  }

  lemma ImagePayloadRoundTrip(p: ImagePayload)
    ensures ImagePayloadFromJson(ImagePayloadToJson(p)) == Success(p)
  {
    TargetJsonRoundTrip(p.target, "target");
  }

  lemma TriggerDescriptionRoundTrip(p: SetTriggerDescriptionPayload)
    ensures TriggerDescriptionFromJson(TriggerDescriptionToJson(p)) == Success(p)
  {
  }

  lemma StatePayloadRoundTrip(p: StatePayload)
    ensures StatePayloadFromJson(StatePayloadToJson(p)) == Success(p)
  {
  }

  /** The one-string records read back under the key they were written with, and under no
      other. */
  lemma StringRecordRoundTrip(key: string, other: string, v: string)
    ensures StringRecordFromJson(key, StringRecordToJson(key, v)) == Success(v)
    ensures other != key ==> StringRecordFromJson(other, StringRecordToJson(key, v)) == Failure(MissingField(other))
  {
  }
}
