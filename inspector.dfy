/** The property inspector's side of the protocol: the description of the action it edits,
    and its two message catalogues. Unlike the plugin's inbound catalogue, both catalogues
    here are closed: a tag they do not list is a decoding error. */
module Inspector {
  import opened Wrappers
  import opened Json
  import opened Payloads
  import Messages

  // ---------------------------------------------------------------------------------------
  // The action being edited

  /** The settings and position of the action being edited; the coordinates are required. */
  datatype ActionInfoPayload<S> = ActionInfoPayload(settings: S, coordinates: Coordinates)

  /** The action instance the inspector was opened for. */
  datatype ActionInfo<S> = ActionInfo(action: string, context: string, device: string,
                                      payload: ActionInfoPayload<S>)

  /** Both records are tagged with their type name under `event`; the reader ignores the tag
      like any other key it does not name. */
  const PAYLOAD_TAG := "RegistrationActionInfoPayload"
  const INFO_TAG := "RegistrationActionInfo"

  function ActionInfoPayloadToJson<S>(cs: Codec<S>, p: ActionInfoPayload<S>): Json {
    JObject(map[
      "event" := JString(PAYLOAD_TAG),
      "settings" := cs.encode(p.settings),
      "coordinates" := CoordinatesToJson(p.coordinates)])
  }

  function ActionInfoPayloadFromJson<S>(cs: Codec<S>, j: Json): (r: Decoded<ActionInfoPayload<S>>)
    ensures r.Success? ==> j.JObject? && "coordinates" in j.fields
  {
    var o :- AsObject(j);
    var settings :- OpaqueField(cs, o, "settings");
    var coordinates :- CoordinatesField(o, "coordinates");
    Success(ActionInfoPayload(settings, coordinates))
  }

  function ActionInfoToJson<S>(cs: Codec<S>, i: ActionInfo<S>): Json {
    JObject(map[
      "event" := JString(INFO_TAG),
      "action" := JString(i.action),
      "context" := JString(i.context),
      "device" := JString(i.device),
      "payload" := ActionInfoPayloadToJson(cs, i.payload)])
  }

  function ActionInfoFromJson<S>(cs: Codec<S>, j: Json): (r: Decoded<ActionInfo<S>>)
    ensures r.Success? ==> j.JObject? && forall k <- ["action", "context", "device", "payload"] :: k in j.fields
  {
    var o :- AsObject(j);
    var action :- StringField(o, "action");
    var context :- StringField(o, "context");
    var device :- StringField(o, "device");
    var pj :- Required(o, "payload");
    var payload :- ActionInfoPayloadFromJson(cs, pj);
    Success(ActionInfo(action, context, device, payload))
  }

  lemma ActionInfoRoundTrip<S(!new)>(cs: Codec<S>, i: ActionInfo<S>)
    requires Lawful(cs)
    ensures ActionInfoFromJson(cs, ActionInfoToJson(cs, i)) == Success(i)
  {
    var po := ActionInfoPayloadToJson(cs, i.payload).fields;
    OpaqueRoundTrip(cs, po, "settings", i.payload.settings);
    CoordinatesRoundTrip(i.payload.coordinates);
  }

  /** Coordinates are mandatory: a payload without them is rejected, whatever the settings. */
  lemma ActionInfoNeedsCoordinates<S>(cs: Codec<S>, o: Object)
    requires "coordinates" !in o
    requires OpaqueField(cs, o, "settings").Success?
    ensures ActionInfoPayloadFromJson(cs, JObject(o)) == Failure(MissingField("coordinates"))
  {
  }

  // ---------------------------------------------------------------------------------------
  // Received by the inspector

  /** A message the property inspector receives. */
  datatype Message<G, S, M> =
    | DidReceiveSettings(action: string, context: string, device: string, key: KeyPayload<S>)
    | DidReceiveGlobalSettings(global: GlobalSettingsPayload<G>)
    | SendToPropertyInspector(action: string, context: string, fromPlugin: M)

  datatype InboundKind = DidReceiveSettingsKind | DidReceiveGlobalSettingsKind | SendToPropertyInspectorKind

  function InboundTag(k: InboundKind): string {
    match k
    case DidReceiveSettingsKind => "didReceiveSettings"
    case DidReceiveGlobalSettingsKind => "didReceiveGlobalSettings"
    case SendToPropertyInspectorKind => "sendToPropertyInspector"
  }

  const InboundTable: map<string, InboundKind> := map[
    "didReceiveSettings" := DidReceiveSettingsKind,
    "didReceiveGlobalSettings" := DidReceiveGlobalSettingsKind,
    "sendToPropertyInspector" := SendToPropertyInspectorKind
  ]

  function InboundKindOf(tag: string): Option<InboundKind> {
    if tag in InboundTable then Some(InboundTable[tag]) else None
  }

  function KindOf<G, S, M>(m: Message<G, S, M>): InboundKind {
    match m
    case DidReceiveSettings(_, _, _, _) => DidReceiveSettingsKind
    case DidReceiveGlobalSettings(_) => DidReceiveGlobalSettingsKind
    case SendToPropertyInspector(_, _, _) => SendToPropertyInspectorKind
  }

  function EncodeMessage<G, S, M>(c: Messages.Codecs<G, S, M>, m: Message<G, S, M>): Json {
    var tag := JString(InboundTag(KindOf(m)));
    match m
    case DidReceiveSettings(a, ctx, d, p) =>
      JObject(map["event" := tag, "action" := JString(a), "context" := JString(ctx),
                  "device" := JString(d), "payload" := KeyPayloadToJson(c.s, p)])
    case DidReceiveGlobalSettings(p) =>
      JObject(map["event" := tag, "payload" := GlobalSettingsPayloadToJson(c.g, p)])
    case SendToPropertyInspector(a, ctx, p) =>
      JObject(map["event" := tag, "action" := JString(a), "context" := JString(ctx),
                  "payload" := c.m.encode(p)])
  }

  function DecodeKnownMessage<G, S, M>(c: Messages.Codecs<G, S, M>, k: InboundKind, o: Object): Decoded<Message<G, S, M>> {
    match k
    case DidReceiveSettingsKind =>
      var a :- StringField(o, "action");
      var ctx :- StringField(o, "context");
      var d :- StringField(o, "device");
      var pj :- Required(o, "payload");
      var p :- KeyPayloadFromJson(c.s, pj);
      Success(DidReceiveSettings(a, ctx, d, p))
    case DidReceiveGlobalSettingsKind =>
      var pj :- Required(o, "payload");
      var p :- GlobalSettingsPayloadFromJson(c.g, pj);
      Success(DidReceiveGlobalSettings(p))
    case SendToPropertyInspectorKind =>
      var a :- StringField(o, "action");
      var ctx :- StringField(o, "context");
      var p :- OpaqueField(c.m, o, "payload");
      Success(SendToPropertyInspector(a, ctx, p))
  }

  /** A received message deserialised; the catalogue is closed. */
  function DecodeMessage<G, S, M>(c: Messages.Codecs<G, S, M>, j: Json): Decoded<Message<G, S, M>> {
    var tag :- Messages.EventTag(j);
    match InboundKindOf(tag)
    case Some(k) => DecodeKnownMessage(c, k, j.fields)
    case None => Failure(UnknownVariant(tag))
  }

  /** The catalogue has exactly three tags, one per variant. */
  lemma InboundCatalogue(tag: string)
    ensures InboundKindOf(tag).Some? <==>
      tag in {"didReceiveSettings", "didReceiveGlobalSettings", "sendToPropertyInspector"}
    ensures InboundKindOf(tag).Some? ==> InboundTag(InboundKindOf(tag).value) == tag
  {
  }

  /** Every variant's tag names that variant. */
  lemma InboundKindOfTag(k: InboundKind)
    ensures InboundKindOf(InboundTag(k)) == Some(k)
  {
  }

  /** Any tag outside the catalogue is an error naming that tag. */
  lemma DecodeUnknownTag<G, S, M>(c: Messages.Codecs<G, S, M>, j: Json)
    requires Messages.EventTag(j).Success?
    requires Messages.EventTag(j).value !in {"didReceiveSettings", "didReceiveGlobalSettings", "sendToPropertyInspector"}
    ensures DecodeMessage(c, j) == Failure(UnknownVariant(Messages.EventTag(j).value))
  {
    InboundCatalogue(Messages.EventTag(j).value);
  }

  /** A decoded message carries the tag it was read from. */
  lemma DecodedTag<G, S, M>(c: Messages.Codecs<G, S, M>, j: Json)
    requires DecodeMessage(c, j).Success?
    ensures Messages.EventTag(j).Success?
    ensures InboundTag(KindOf(DecodeMessage(c, j).value)) == Messages.EventTag(j).value
  {
    var tag := Messages.EventTag(j).value;
    InboundCatalogue(tag);
  }

  /** Settings arrive only with the action instance, all three strings, and a key payload. */
  lemma DidReceiveSettingsFields<G, S, M>(c: Messages.Codecs<G, S, M>, o: Object)
    ensures DecodeKnownMessage(c, DidReceiveSettingsKind, o).Success? <==>
      StringField(o, "action").Success? && StringField(o, "context").Success? &&
      StringField(o, "device").Success? && "payload" in o &&
      KeyPayloadFromJson(c.s, o["payload"]).Success?
  {
  }

  /** Data from the plugin arrives with the action and context, and an opaque payload. */
  lemma SendToPropertyInspectorFields<G, S, M>(c: Messages.Codecs<G, S, M>, o: Object)
    ensures DecodeKnownMessage(c, SendToPropertyInspectorKind, o).Success? <==>
      StringField(o, "action").Success? && StringField(o, "context").Success? &&
      OpaqueField(c.m, o, "payload").Success?
  {
  }

  lemma MessageRoundTrip<G(!new), S(!new), M(!new)>(c: Messages.Codecs<G, S, M>, m: Message<G, S, M>)
    requires Messages.LawfulCodecs(c)
    ensures DecodeMessage(c, EncodeMessage(c, m)) == Success(m)
  {
    var o := EncodeMessage(c, m).fields;
    InboundKindOfTag(KindOf(m));
    match m
    case DidReceiveSettings(_, _, _, p) => KeyPayloadRoundTrip(c.s, p);
    case DidReceiveGlobalSettings(p) => GlobalSettingsPayloadRoundTrip(c.g, p);
    case SendToPropertyInspector(_, _, p) => OpaqueRoundTrip(c.m, o, "payload", p);
  }

  /** A plugin-side event such as a key press is not part of the inspector's catalogue. */
  lemma PluginEventRejected<G, S, M>(c: Messages.Codecs<G, S, M>)
    ensures DecodeMessage(c, JObject(map["event" := JString("keyDown")])) == Failure(UnknownVariant("keyDown"))
  {
  }

  /** The two catalogues differ on an unlisted tag: the plugin reads `Unknown`, the inspector
      reports an error. */
  lemma ClosedUnlikePlugin<G, S, M>(c: Messages.Codecs<G, S, M>)
    ensures var j := JObject(map["event" := JString("futureEvent")]);
      DecodeMessage(c, j) == Failure(UnknownVariant("futureEvent")) &&
      Messages.DecodeMessage(c, j) == Success(Messages.Message.Unknown)
  {
    Messages.InboundCatalogue("futureEvent");
    Messages.DecodeUnknownIff(c, JObject(map["event" := JString("futureEvent")]));
  }

  // ---------------------------------------------------------------------------------------
  // Sent by the inspector

  /** A message the property inspector sends. */
  datatype MessageOut<G, S, M> =
    | GetSettings(context: string)
    | SetSettings(context: string, settings: S)
    | OpenUrl(url: UrlPayload)
    | GetGlobalSettings(context: string)
    | SetGlobalSettings(context: string, globalSettings: G)
    | LogMessage(log: LogMessagePayload)
    | SendToPlugin(action: string, context: string, toPlugin: M)

  datatype OutboundKind =
    | GetSettingsKind | SetSettingsKind | OpenUrlKind | GetGlobalSettingsKind
    | SetGlobalSettingsKind | LogMessageKind | SendToPluginKind

  function OutboundTag(k: OutboundKind): string {
    match k
    case GetSettingsKind => "getSettings"
    case SetSettingsKind => "setSettings"
    case OpenUrlKind => "openUrl"
    case GetGlobalSettingsKind => "getGlobalSettings"
    case SetGlobalSettingsKind => "setGlobalSettings"
    case LogMessageKind => "logMessage"
    case SendToPluginKind => "sendToPlugin"
  }

  const OutboundTable: map<string, OutboundKind> := map[
    "getSettings" := GetSettingsKind,
    "setSettings" := SetSettingsKind,
    "openUrl" := OpenUrlKind,
    "getGlobalSettings" := GetGlobalSettingsKind,
    "setGlobalSettings" := SetGlobalSettingsKind,
    "logMessage" := LogMessageKind,
    "sendToPlugin" := SendToPluginKind
  ]

  function OutboundKindOf(tag: string): Option<OutboundKind> {
    if tag in OutboundTable then Some(OutboundTable[tag]) else None
  }

  function OutKindOf<G, S, M>(m: MessageOut<G, S, M>): OutboundKind {
    match m
    case GetSettings(_) => GetSettingsKind
    case SetSettings(_, _) => SetSettingsKind
    case OpenUrl(_) => OpenUrlKind
    case GetGlobalSettings(_) => GetGlobalSettingsKind
    case SetGlobalSettings(_, _) => SetGlobalSettingsKind
    case LogMessage(_) => LogMessageKind
    case SendToPlugin(_, _, _) => SendToPluginKind
  }

  function MessageOutFields<G, S, M>(c: Messages.Codecs<G, S, M>, m: MessageOut<G, S, M>): Object {
    match m
    case GetSettings(ctx) => map["context" := JString(ctx)]
    case SetSettings(ctx, p) => map["context" := JString(ctx), "payload" := c.s.encode(p)]
    case OpenUrl(p) => map["payload" := StringRecordToJson("url", p.url)]
    case GetGlobalSettings(ctx) => map["context" := JString(ctx)]
    case SetGlobalSettings(ctx, p) => map["context" := JString(ctx), "payload" := c.g.encode(p)]
    case LogMessage(p) => map["payload" := StringRecordToJson("message", p.message)]
    case SendToPlugin(a, ctx, p) =>
      map["action" := JString(a), "context" := JString(ctx), "payload" := c.m.encode(p)]
  }

  function EncodeMessageOut<G, S, M>(c: Messages.Codecs<G, S, M>, m: MessageOut<G, S, M>): (j: Json)
    ensures j.JObject? && "event" in j.fields && j.fields["event"] == JString(OutboundTag(OutKindOf(m)))
  {
    JObject(MessageOutFields(c, m)["event" := JString(OutboundTag(OutKindOf(m)))])
  }

  function DecodeKnownMessageOut<G, S, M>(c: Messages.Codecs<G, S, M>, k: OutboundKind, o: Object): Decoded<MessageOut<G, S, M>> {
    match k
    case GetSettingsKind =>
      var ctx :- StringField(o, "context");
      Success(GetSettings(ctx))
    case SetSettingsKind =>
      var ctx :- StringField(o, "context");
      var p :- OpaqueField(c.s, o, "payload");
      Success(SetSettings(ctx, p))
    case OpenUrlKind =>
      var pj :- Required(o, "payload");
      var url :- StringRecordFromJson("url", pj);
      Success(OpenUrl(UrlPayload(url)))
    case GetGlobalSettingsKind =>
      var ctx :- StringField(o, "context");
      Success(GetGlobalSettings(ctx))
    case SetGlobalSettingsKind =>
      var ctx :- StringField(o, "context");
      var p :- OpaqueField(c.g, o, "payload");
      Success(SetGlobalSettings(ctx, p))
    case LogMessageKind =>
      var pj :- Required(o, "payload");
      var message :- StringRecordFromJson("message", pj);
      Success(LogMessage(LogMessagePayload(message)))
    case SendToPluginKind =>
      var a :- StringField(o, "action");
      var ctx :- StringField(o, "context");
      var p :- OpaqueField(c.m, o, "payload");
      Success(SendToPlugin(a, ctx, p))
  }

  /** A sent message deserialised; the catalogue is closed. */
  function DecodeMessageOut<G, S, M>(c: Messages.Codecs<G, S, M>, j: Json): Decoded<MessageOut<G, S, M>> {
    var tag :- Messages.EventTag(j);
    match OutboundKindOf(tag)
    case Some(k) => DecodeKnownMessageOut(c, k, j.fields)
    case None => Failure(UnknownVariant(tag))
  }

  /** The catalogue has exactly seven tags, one per variant. */
  lemma OutboundCatalogue(tag: string)
    ensures OutboundKindOf(tag).Some? <==>
      tag in {"getSettings", "setSettings", "openUrl", "getGlobalSettings", "setGlobalSettings",
              "logMessage", "sendToPlugin"}
    ensures OutboundKindOf(tag).Some? ==> OutboundTag(OutboundKindOf(tag).value) == tag
  {
  }

  /** Every outbound variant's tag names that variant. */
  lemma OutboundKindOfTag(k: OutboundKind)
    ensures OutboundKindOf(OutboundTag(k)) == Some(k)
  {
  }

  lemma DecodeUnknownOutTag<G, S, M>(c: Messages.Codecs<G, S, M>, j: Json)
    requires Messages.EventTag(j).Success?
    requires Messages.EventTag(j).value !in
      {"getSettings", "setSettings", "openUrl", "getGlobalSettings", "setGlobalSettings",
       "logMessage", "sendToPlugin"}
    ensures DecodeMessageOut(c, j) == Failure(UnknownVariant(Messages.EventTag(j).value))
  {
    OutboundCatalogue(Messages.EventTag(j).value);
  }

  lemma MessageOutRoundTrip<G(!new), S(!new), M(!new)>(c: Messages.Codecs<G, S, M>, m: MessageOut<G, S, M>)
    requires Messages.LawfulCodecs(c)
    ensures DecodeMessageOut(c, EncodeMessageOut(c, m)) == Success(m)
  {
    var o := EncodeMessageOut(c, m).fields;
    OutboundKindOfTag(OutKindOf(m));
    match m
    case GetSettings(_) =>
    case SetSettings(_, p) => OpaqueRoundTrip(c.s, o, "payload", p);
    case OpenUrl(p) =>
    case GetGlobalSettings(_) =>
    case SetGlobalSettings(_, p) => OpaqueRoundTrip(c.g, o, "payload", p);
    case LogMessage(p) =>
    case SendToPlugin(_, _, p) => OpaqueRoundTrip(c.m, o, "payload", p);
  }
}
