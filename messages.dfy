/** The plugin message catalogues: the messages the Stream Deck software sends to a plugin and
    the messages a plugin sends back. Both are unions tagged internally by an `event` key whose
    value is the lowerCamelCase variant name; the fields of a variant sit beside the tag. The
    inbound catalogue is open: a tag it does not know decodes to `Unknown`. The outbound one is
    closed: an unknown tag is an error. */
module Messages {
  import opened Wrappers
  import opened Json
  import opened Codes
  import opened Payloads

  /** The codecs of the three opaque parameters: global settings, action settings and the
      messages exchanged with the property inspector. */
  datatype Codecs<!G, !S, !M> = Codecs(g: Codec<G>, s: Codec<S>, m: Codec<M>)

  ghost predicate LawfulCodecs<G(!new), S(!new), M(!new)>(c: Codecs<G, S, M>) {
    Lawful(c.g) && Lawful(c.s) && Lawful(c.m)
  }

  // ---------------------------------------------------------------------------------------
  // Inbound catalogue

  /** A message received from the Stream Deck software. */
  datatype Message<G, S, M> =
    | KeyDown(action: string, context: string, device: string, key: KeyPayload<S>)
    | KeyUp(action: string, context: string, device: string, key: KeyPayload<S>)
    | WillAppear(action: string, context: string, optDevice: Option<string>, visibility: VisibilityPayload<S>)
    | WillDisappear(action: string, context: string, optDevice: Option<string>, visibility: VisibilityPayload<S>)
    | TitleParametersDidChange(action: string, context: string, optDevice: Option<string>,
                               title: TitleParametersPayload<S>)
    | DeviceDidConnect(device: string, deviceInfo: DeviceInfo)
    | DeviceDidDisconnect(device: string)
    | ApplicationDidLaunch(application: ApplicationPayload)
    | ApplicationDidTerminate(application: ApplicationPayload)
    | SendToPlugin(action: string, context: string, fromInspector: M)
    | DidReceiveSettings(action: string, context: string, device: string, key: KeyPayload<S>)
    | PropertyInspectorDidAppear(action: string, context: string, device: string)
    | PropertyInspectorDidDisappear(action: string, context: string, device: string)
    | DidReceiveGlobalSettings(global: GlobalSettingsPayload<G>)
    | SystemDidWakeUp
    | TouchTap(action: string, context: string, device: string, tap: TouchTapPayload<S>)
    | DialDown(action: string, context: string, device: string, dial: DialPayload<S>)
    | DialUp(action: string, context: string, device: string, dial: DialPayload<S>)
    | DialRotate(action: string, context: string, device: string, rotate: DialRotatePayload<S>)
    | Unknown

  /** The variant identifiers of the inbound catalogue, as the derived deserialiser reads them
      from the tag; the catch-all has none. */
  datatype InboundKind =
    | KeyDownKind | KeyUpKind | WillAppearKind | WillDisappearKind
    | TitleParametersDidChangeKind | DeviceDidConnectKind | DeviceDidDisconnectKind
    | ApplicationDidLaunchKind | ApplicationDidTerminateKind | SendToPluginKind
    | DidReceiveSettingsKind | PropertyInspectorDidAppearKind
    | PropertyInspectorDidDisappearKind | DidReceiveGlobalSettingsKind | SystemDidWakeUpKind
    | TouchTapKind | DialDownKind | DialUpKind | DialRotateKind

  /** The tag of each variant: its name in lowerCamelCase. */
  function InboundTag(k: InboundKind): string {
    match k
    case KeyDownKind => "keyDown"
    case KeyUpKind => "keyUp"
    case WillAppearKind => "willAppear"
    case WillDisappearKind => "willDisappear"
    case TitleParametersDidChangeKind => "titleParametersDidChange"
    case DeviceDidConnectKind => "deviceDidConnect"
    case DeviceDidDisconnectKind => "deviceDidDisconnect"
    case ApplicationDidLaunchKind => "applicationDidLaunch"
    case ApplicationDidTerminateKind => "applicationDidTerminate"
    case SendToPluginKind => "sendToPlugin"
    case DidReceiveSettingsKind => "didReceiveSettings"
    case PropertyInspectorDidAppearKind => "propertyInspectorDidAppear"
    case PropertyInspectorDidDisappearKind => "propertyInspectorDidDisappear"
    case DidReceiveGlobalSettingsKind => "didReceiveGlobalSettings"
    case SystemDidWakeUpKind => "systemDidWakeUp"
    case TouchTapKind => "touchTap"
    case DialDownKind => "dialDown"
    case DialUpKind => "dialUp"
    case DialRotateKind => "dialRotate"
  }

  /** The derived deserialiser's table from tags to variants. */
  const InboundTable: map<string, InboundKind> := map[
    "keyDown" := KeyDownKind,
    "keyUp" := KeyUpKind,
    "willAppear" := WillAppearKind,
    "willDisappear" := WillDisappearKind,
    "titleParametersDidChange" := TitleParametersDidChangeKind,
    "deviceDidConnect" := DeviceDidConnectKind,
    "deviceDidDisconnect" := DeviceDidDisconnectKind,
    "applicationDidLaunch" := ApplicationDidLaunchKind,
    "applicationDidTerminate" := ApplicationDidTerminateKind,
    "sendToPlugin" := SendToPluginKind,
    "didReceiveSettings" := DidReceiveSettingsKind,
    "propertyInspectorDidAppear" := PropertyInspectorDidAppearKind,
    "propertyInspectorDidDisappear" := PropertyInspectorDidDisappearKind,
    "didReceiveGlobalSettings" := DidReceiveGlobalSettingsKind,
    "systemDidWakeUp" := SystemDidWakeUpKind,
    "touchTap" := TouchTapKind,
    "dialDown" := DialDownKind,
    "dialUp" := DialUpKind,
    "dialRotate" := DialRotateKind
  ]

  /** The variant a tag names, if the catalogue has one. */
  function InboundKindOf(tag: string): (r: Option<InboundKind>)
    ensures r.Some? ==> InboundTag(r.value) == tag
  {
    if tag in InboundTable then Some(InboundTable[tag]) else None
  }

  /** The variant identifier of a message; `None` for the catch-all. */
  function KindOf<G, S, M>(m: Message<G, S, M>): Option<InboundKind> {
    match m
    case KeyDown(_, _, _, _) => Some(KeyDownKind)
    case KeyUp(_, _, _, _) => Some(KeyUpKind)
    case WillAppear(_, _, _, _) => Some(WillAppearKind)
    case WillDisappear(_, _, _, _) => Some(WillDisappearKind)
    case TitleParametersDidChange(_, _, _, _) => Some(TitleParametersDidChangeKind)
    case DeviceDidConnect(_, _) => Some(DeviceDidConnectKind)
    case DeviceDidDisconnect(_) => Some(DeviceDidDisconnectKind)
    case ApplicationDidLaunch(_) => Some(ApplicationDidLaunchKind)
    case ApplicationDidTerminate(_) => Some(ApplicationDidTerminateKind)
    case SendToPlugin(_, _, _) => Some(SendToPluginKind)
    case DidReceiveSettings(_, _, _, _) => Some(DidReceiveSettingsKind)
    case PropertyInspectorDidAppear(_, _, _) => Some(PropertyInspectorDidAppearKind)
    case PropertyInspectorDidDisappear(_, _, _) => Some(PropertyInspectorDidDisappearKind)
    case DidReceiveGlobalSettings(_) => Some(DidReceiveGlobalSettingsKind)
    case SystemDidWakeUp => Some(SystemDidWakeUpKind)
    case TouchTap(_, _, _, _) => Some(TouchTapKind)
    case DialDown(_, _, _, _) => Some(DialDownKind)
    case DialUp(_, _, _, _) => Some(DialUpKind)
    case DialRotate(_, _, _, _) => Some(DialRotateKind)
    case Unknown => None
  }

  /** The tag a message is written with; the catch-all is written under its own name. */
  function MessageTag<G, S, M>(m: Message<G, S, M>): string {
    match KindOf(m)
    case Some(k) => InboundTag(k)
    case None => "unknown"
  }

  /** The `action`, `context` and `device` keys of an action event. */
  function ActionInstance(a: string, ctx: string, device: Json): Object {
    map["action" := JString(a), "context" := JString(ctx), "device" := device]
  }

  /** An action event's instance keys together with its `payload`. */
  function ActionFields(a: string, ctx: string, device: Json, payload: Json): Object {
    ActionInstance(a, ctx, device)["payload" := payload]
  }

  /** The fields of a message beside its tag. */
  function MessageFields<G, S, M>(c: Codecs<G, S, M>, m: Message<G, S, M>): Object {
    match m
    case KeyDown(a, ctx, d, p) =>
      ActionFields(a, ctx, JString(d), KeyPayloadToJson(c.s, p))
    case KeyUp(a, ctx, d, p) =>
      ActionFields(a, ctx, JString(d), KeyPayloadToJson(c.s, p))
    case WillAppear(a, ctx, d, p) =>
      ActionFields(a, ctx, OptStringJson(d), VisibilityPayloadToJson(c.s, p))
    case WillDisappear(a, ctx, d, p) =>
      ActionFields(a, ctx, OptStringJson(d), VisibilityPayloadToJson(c.s, p))
    case TitleParametersDidChange(a, ctx, d, p) =>
      ActionFields(a, ctx, OptStringJson(d), TitleParametersPayloadToJson(c.s, p))
    case DeviceDidConnect(d, info) =>
      map["device" := JString(d), "deviceInfo" := DeviceInfoToJson(info)]
    case DeviceDidDisconnect(d) =>
      map["device" := JString(d)]
    case ApplicationDidLaunch(p) =>
      map["payload" := ApplicationPayloadToJson(p)]
    case ApplicationDidTerminate(p) =>
      map["payload" := ApplicationPayloadToJson(p)]
    case SendToPlugin(a, ctx, p) =>
      map["action" := JString(a), "context" := JString(ctx), "payload" := c.m.encode(p)]
    case DidReceiveSettings(a, ctx, d, p) =>
      ActionFields(a, ctx, JString(d), KeyPayloadToJson(c.s, p))
    case PropertyInspectorDidAppear(a, ctx, d) =>
      ActionInstance(a, ctx, JString(d))
    case PropertyInspectorDidDisappear(a, ctx, d) =>
      ActionInstance(a, ctx, JString(d))
    case DidReceiveGlobalSettings(p) =>
      map["payload" := GlobalSettingsPayloadToJson(c.g, p)]
    case SystemDidWakeUp => map[]
    case TouchTap(a, ctx, d, p) =>
      ActionFields(a, ctx, JString(d), TouchTapPayloadToJson(c.s, p))
    case DialDown(a, ctx, d, p) =>
      ActionFields(a, ctx, JString(d), DialPayloadToJson(c.s, p))
    case DialUp(a, ctx, d, p) =>
      ActionFields(a, ctx, JString(d), DialPayloadToJson(c.s, p))
    case DialRotate(a, ctx, d, p) =>
      ActionFields(a, ctx, JString(d), DialRotatePayloadToJson(c.s, p))
    case Unknown => map[]
  }

  /** A message serialised: its fields together with the `event` tag. */
  function EncodeMessage<G, S, M>(c: Codecs<G, S, M>, m: Message<G, S, M>): (j: Json)
    ensures j.JObject? && "event" in j.fields && j.fields["event"] == JString(MessageTag(m))
  {
    JObject(MessageFields(c, m)["event" := JString(MessageTag(m))])
  }

  /** The `event` tag of an object: a required string. */
  function EventTag(j: Json): (r: Decoded<string>)
    ensures r.Success? <==> j.JObject? && "event" in j.fields && j.fields["event"].JString?
    ensures r.Success? ==> r.value == j.fields["event"].s
  {
    var o :- AsObject(j);
    var t :- Required(o, "event");
    AsString(t, "event")
  }

  /** The `action`, `context` and `device` strings an action event carries, read in that
      order. */
  function Instance(o: Object): (r: Decoded<(string, string, string)>)
    ensures r.Success? <==>
      StringField(o, "action").Success? && StringField(o, "context").Success? &&
      StringField(o, "device").Success?
    ensures r.Success? ==> r.value == (o["action"].s, o["context"].s, o["device"].s)
  {
    var a :- StringField(o, "action");
    var ctx :- StringField(o, "context");
    var d :- StringField(o, "device");
    Success((a, ctx, d))
  }

  /** As `Instance`, for the events whose device may be absent or `null`. */
  function InstanceOnDevice(o: Object): (r: Decoded<(string, string, Option<string>)>)
    ensures r.Success? <==>
      StringField(o, "action").Success? && StringField(o, "context").Success? &&
      OptStringField(o, "device").Success?
    ensures r.Success? ==>
      r.value == (o["action"].s, o["context"].s, OptStringField(o, "device").value)
  {
    var a :- StringField(o, "action");
    var ctx :- StringField(o, "context");
    var d :- OptStringField(o, "device");
    Success((a, ctx, d))
  }

  /** The fields of a key event: the action instance and a key payload. */
  function KeyEvent<S>(cs: Codec<S>, o: Object): Decoded<(string, string, string, KeyPayload<S>)> {
    var i :- Instance(o);
    var pj :- Required(o, "payload");
    var p :- KeyPayloadFromJson(cs, pj);
    Success((i.0, i.1, i.2, p))
  }

  /** The fields of an appearance event: the action instance, maybe on a device. */
  function VisibilityEvent<S>(cs: Codec<S>, o: Object): Decoded<(string, string, Option<string>, VisibilityPayload<S>)> {
    var i :- InstanceOnDevice(o);
    var pj :- Required(o, "payload");
    var p :- VisibilityPayloadFromJson(cs, pj);
    Success((i.0, i.1, i.2, p))
  }

  function TitleEvent<S>(cs: Codec<S>, o: Object): Decoded<(string, string, Option<string>, TitleParametersPayload<S>)> {
    var i :- InstanceOnDevice(o);
    var pj :- Required(o, "payload");
    var p :- TitleParametersPayloadFromJson(cs, pj);
    Success((i.0, i.1, i.2, p))
  }

  function TouchTapEvent<S>(cs: Codec<S>, o: Object): Decoded<(string, string, string, TouchTapPayload<S>)> {
    var i :- Instance(o);
    var pj :- Required(o, "payload");
    var p :- TouchTapPayloadFromJson(cs, pj);
    Success((i.0, i.1, i.2, p))
  }

  function DialEvent<S>(cs: Codec<S>, o: Object): Decoded<(string, string, string, DialPayload<S>)> {
    var i :- Instance(o);
    var pj :- Required(o, "payload");
    var p :- DialPayloadFromJson(cs, pj);
    Success((i.0, i.1, i.2, p))
  }

  function DialRotateEvent<S>(cs: Codec<S>, o: Object): Decoded<(string, string, string, DialRotatePayload<S>)> {
    var i :- Instance(o);
    var pj :- Required(o, "payload");
    var p :- DialRotatePayloadFromJson(cs, pj);
    Success((i.0, i.1, i.2, p))
  }

  function DeviceEvent(o: Object): Decoded<(string, DeviceInfo)> {
    var d :- StringField(o, "device");
    var ij :- Required(o, "deviceInfo");
    var info :- DeviceInfoFromJson(ij);
    Success((d, info))
  }

  function ApplicationEvent(o: Object): Decoded<ApplicationPayload> {
    var pj :- Required(o, "payload");
    ApplicationPayloadFromJson(pj)
  }

  function FromInspectorEvent<M>(cm: Codec<M>, o: Object): Decoded<(string, string, M)> {
    var a :- StringField(o, "action");
    var ctx :- StringField(o, "context");
    var p :- OpaqueField(cm, o, "payload");
    Success((a, ctx, p))
  }

  function GlobalSettingsEvent<G>(cg: Codec<G>, o: Object): Decoded<GlobalSettingsPayload<G>> {
    var pj :- Required(o, "payload");
    GlobalSettingsPayloadFromJson(cg, pj)
  }

  function DecodeKeyDown<G, S, M>(c: Codecs<G, S, M>, o: Object): (r: Decoded<Message<G, S, M>>)
    ensures r.Success? ==> r.value.KeyDown?
  {
    var e :- KeyEvent(c.s, o);
    Success(KeyDown(e.0, e.1, e.2, e.3))
  }

  function DecodeKeyUp<G, S, M>(c: Codecs<G, S, M>, o: Object): (r: Decoded<Message<G, S, M>>)
    ensures r.Success? ==> r.value.KeyUp?
  {
    var e :- KeyEvent(c.s, o);
    Success(KeyUp(e.0, e.1, e.2, e.3))
  }

  function DecodeWillAppear<G, S, M>(c: Codecs<G, S, M>, o: Object): (r: Decoded<Message<G, S, M>>)
    ensures r.Success? ==> r.value.WillAppear?
  {
    var e :- VisibilityEvent(c.s, o);
    Success(WillAppear(e.0, e.1, e.2, e.3))
  }

  function DecodeWillDisappear<G, S, M>(c: Codecs<G, S, M>, o: Object): (r: Decoded<Message<G, S, M>>)
    ensures r.Success? ==> r.value.WillDisappear?
  {
    var e :- VisibilityEvent(c.s, o);
    Success(WillDisappear(e.0, e.1, e.2, e.3))
  }

  function DecodeTitleParametersDidChange<G, S, M>(c: Codecs<G, S, M>, o: Object): (r: Decoded<Message<G, S, M>>)
    ensures r.Success? ==> r.value.TitleParametersDidChange?
  {
    var e :- TitleEvent(c.s, o);
    Success(TitleParametersDidChange(e.0, e.1, e.2, e.3))
  }

  function DecodeDeviceDidConnect<G, S, M>(c: Codecs<G, S, M>, o: Object): (r: Decoded<Message<G, S, M>>)
    ensures r.Success? ==> r.value.DeviceDidConnect?
  {
    var e :- DeviceEvent(o);
    Success(DeviceDidConnect(e.0, e.1))
  }

  function DecodeDeviceDidDisconnect<G, S, M>(c: Codecs<G, S, M>, o: Object): (r: Decoded<Message<G, S, M>>)
    ensures r.Success? ==> r.value.DeviceDidDisconnect?
  {
    var d :- StringField(o, "device");
    Success(DeviceDidDisconnect(d))
  }

  function DecodeApplicationDidLaunch<G, S, M>(c: Codecs<G, S, M>, o: Object): (r: Decoded<Message<G, S, M>>)
    ensures r.Success? ==> r.value.ApplicationDidLaunch?
  {
    var p :- ApplicationEvent(o);
    Success(ApplicationDidLaunch(p))
  }

  function DecodeApplicationDidTerminate<G, S, M>(c: Codecs<G, S, M>, o: Object): (r: Decoded<Message<G, S, M>>)
    ensures r.Success? ==> r.value.ApplicationDidTerminate?
  {
    var p :- ApplicationEvent(o);
    Success(ApplicationDidTerminate(p))
  }

  function DecodeSendToPlugin<G, S, M>(c: Codecs<G, S, M>, o: Object): (r: Decoded<Message<G, S, M>>)
    ensures r.Success? ==> r.value.SendToPlugin?
  {
    var e :- FromInspectorEvent(c.m, o);
    Success(SendToPlugin(e.0, e.1, e.2))
  }

  function DecodeDidReceiveSettings<G, S, M>(c: Codecs<G, S, M>, o: Object): (r: Decoded<Message<G, S, M>>)
    ensures r.Success? ==> r.value.DidReceiveSettings?
  {
    var e :- KeyEvent(c.s, o);
    Success(DidReceiveSettings(e.0, e.1, e.2, e.3))
  }

  function DecodePropertyInspectorDidAppear<G, S, M>(c: Codecs<G, S, M>, o: Object): (r: Decoded<Message<G, S, M>>)
    ensures r.Success? ==> r.value.PropertyInspectorDidAppear?
  {
    var i :- Instance(o);
    Success(PropertyInspectorDidAppear(i.0, i.1, i.2))
  }

  function DecodePropertyInspectorDidDisappear<G, S, M>(c: Codecs<G, S, M>, o: Object): (r: Decoded<Message<G, S, M>>)
    ensures r.Success? ==> r.value.PropertyInspectorDidDisappear?
  {
    var i :- Instance(o);
    Success(PropertyInspectorDidDisappear(i.0, i.1, i.2))
  }

  function DecodeDidReceiveGlobalSettings<G, S, M>(c: Codecs<G, S, M>, o: Object): (r: Decoded<Message<G, S, M>>)
    ensures r.Success? ==> r.value.DidReceiveGlobalSettings?
  {
    var p :- GlobalSettingsEvent(c.g, o);
    Success(DidReceiveGlobalSettings(p))
  }

  function DecodeTouchTap<G, S, M>(c: Codecs<G, S, M>, o: Object): (r: Decoded<Message<G, S, M>>)
    ensures r.Success? ==> r.value.TouchTap?
  {
    var e :- TouchTapEvent(c.s, o);
    Success(TouchTap(e.0, e.1, e.2, e.3))
  }

  function DecodeDialDown<G, S, M>(c: Codecs<G, S, M>, o: Object): (r: Decoded<Message<G, S, M>>)
    ensures r.Success? ==> r.value.DialDown?
  {
    var e :- DialEvent(c.s, o);
    Success(DialDown(e.0, e.1, e.2, e.3))
  }

  function DecodeDialUp<G, S, M>(c: Codecs<G, S, M>, o: Object): (r: Decoded<Message<G, S, M>>)
    ensures r.Success? ==> r.value.DialUp?
  {
    var e :- DialEvent(c.s, o);
    Success(DialUp(e.0, e.1, e.2, e.3))
  }

  function DecodeDialRotate<G, S, M>(c: Codecs<G, S, M>, o: Object): (r: Decoded<Message<G, S, M>>)
    ensures r.Success? ==> r.value.DialRotate?
  {
    var e :- DialRotateEvent(c.s, o);
    Success(DialRotate(e.0, e.1, e.2, e.3))
  }

  /** The variant a known inbound tag selects, decoded from the fields beside the tag. */
  function DecodeKnownMessage<G, S, M>(c: Codecs<G, S, M>, k: InboundKind, o: Object): Decoded<Message<G, S, M>>
  {
    match k
    case KeyDownKind => DecodeKeyDown(c, o)
    case KeyUpKind => DecodeKeyUp(c, o)
    case WillAppearKind => DecodeWillAppear(c, o)
    case WillDisappearKind => DecodeWillDisappear(c, o)
    case TitleParametersDidChangeKind => DecodeTitleParametersDidChange(c, o)
    case DeviceDidConnectKind => DecodeDeviceDidConnect(c, o)
    case DeviceDidDisconnectKind => DecodeDeviceDidDisconnect(c, o)
    case ApplicationDidLaunchKind => DecodeApplicationDidLaunch(c, o)
    case ApplicationDidTerminateKind => DecodeApplicationDidTerminate(c, o)
    case SendToPluginKind => DecodeSendToPlugin(c, o)
    case DidReceiveSettingsKind => DecodeDidReceiveSettings(c, o)
    case PropertyInspectorDidAppearKind => DecodePropertyInspectorDidAppear(c, o)
    case PropertyInspectorDidDisappearKind => DecodePropertyInspectorDidDisappear(c, o)
    case DidReceiveGlobalSettingsKind => DecodeDidReceiveGlobalSettings(c, o)
    case SystemDidWakeUpKind => Success(SystemDidWakeUp)
    case TouchTapKind => DecodeTouchTap(c, o)
    case DialDownKind => DecodeDialDown(c, o)
    case DialUpKind => DecodeDialUp(c, o)
    case DialRotateKind => DecodeDialRotate(c, o)
  }

  /** A received message deserialised. Any tag outside the catalogue is the catch-all
      `Unknown`, whatever the other fields hold. */
  function DecodeMessage<G, S, M>(c: Codecs<G, S, M>, j: Json): Decoded<Message<G, S, M>> {
    var tag :- EventTag(j);
    match InboundKindOf(tag)
    case Some(k) => DecodeKnownMessage(c, k, j.fields)
    case None => Success(Message.Unknown)
  }

  /** Messages whose device type would come back as another device (an `Unknown` device type
      carrying a documented code) cannot survive a round trip. */
  predicate CanRoundTrip<G, S, M>(m: Message<G, S, M>) {
    m.DeviceDidConnect? && m.deviceInfo.deviceType.Some? ==>
      !(m.deviceInfo.deviceType.value.Unknown? && m.deviceInfo.deviceType.value.code < 8)
  }

  // ---------------------------------------------------------------------------------------
  // Outbound catalogue

  /** A message sent to the Stream Deck software. */
  datatype MessageOut<G, S, M> =
    | SetTitle(context: string, titlePayload: TitlePayload)
    | SetImage(context: string, imagePayload: ImagePayload)
    | ShowAlert(context: string)
    | ShowOk(context: string)
    | GetSettings(context: string)
    | SetSettings(context: string, settings: S)
    | SetState(context: string, statePayload: StatePayload)
    | SendToPropertyInspector(action: string, context: string, toInspector: M)
    | SwitchToProfile(context: string, device: string, profile: ProfilePayload)
    | OpenUrl(url: UrlPayload)
    | GetGlobalSettings(context: string)
    | SetGlobalSettings(context: string, globalSettings: G)
    | LogMessage(log: LogMessagePayload)
    | SetFeedback(context: string, feedback: Json)
    | SetFeedbackLayout(context: string, layout: SetFeedbackLayoutPayload)
    | SetTriggerDescription(context: string, trigger: SetTriggerDescriptionPayload)

  /** The variant identifiers of the outbound catalogue. */
  datatype OutboundKind =
    | SetTitleKind
    | SetImageKind
    | ShowAlertKind
    | ShowOkKind
    | GetSettingsKind
    | SetSettingsKind
    | SetStateKind
    | SendToPropertyInspectorKind
    | SwitchToProfileKind
    | OpenUrlKind
    | GetGlobalSettingsKind
    | SetGlobalSettingsKind
    | LogMessageKind
    | SetFeedbackKind
    | SetFeedbackLayoutKind
    | SetTriggerDescriptionKind

  /** The tag of each variant: its name in lowerCamelCase. */
  function OutboundTag(k: OutboundKind): string {
    match k
    case SetTitleKind => "setTitle"
    case SetImageKind => "setImage"
    case ShowAlertKind => "showAlert"
    case ShowOkKind => "showOk"
    case GetSettingsKind => "getSettings"
    case SetSettingsKind => "setSettings"
    case SetStateKind => "setState"
    case SendToPropertyInspectorKind => "sendToPropertyInspector"
    case SwitchToProfileKind => "switchToProfile"
    case OpenUrlKind => "openUrl"
    case GetGlobalSettingsKind => "getGlobalSettings"
    case SetGlobalSettingsKind => "setGlobalSettings"
    case LogMessageKind => "logMessage"
    case SetFeedbackKind => "setFeedback"
    case SetFeedbackLayoutKind => "setFeedbackLayout"
    case SetTriggerDescriptionKind => "setTriggerDescription"
  }

  /** The derived deserialiser's table from tags to variants. */
  const OutboundTable: map<string, OutboundKind> := map[
    "setTitle" := SetTitleKind,
    "setImage" := SetImageKind,
    "showAlert" := ShowAlertKind,
    "showOk" := ShowOkKind,
    "getSettings" := GetSettingsKind,
    "setSettings" := SetSettingsKind,
    "setState" := SetStateKind,
    "sendToPropertyInspector" := SendToPropertyInspectorKind,
    "switchToProfile" := SwitchToProfileKind,
    "openUrl" := OpenUrlKind,
    "getGlobalSettings" := GetGlobalSettingsKind,
    "setGlobalSettings" := SetGlobalSettingsKind,
    "logMessage" := LogMessageKind,
    "setFeedback" := SetFeedbackKind,
    "setFeedbackLayout" := SetFeedbackLayoutKind,
    "setTriggerDescription" := SetTriggerDescriptionKind
  ]

  /** The variant a tag names, if the catalogue has one. */
  function OutboundKindOf(tag: string): (r: Option<OutboundKind>)
    ensures r.Some? ==> OutboundTag(r.value) == tag
  {
    if tag in OutboundTable then Some(OutboundTable[tag]) else None
  }

  function OutKindOf<G, S, M>(m: MessageOut<G, S, M>): OutboundKind {
    match m
    case SetTitle(_, _) => SetTitleKind
    case SetImage(_, _) => SetImageKind
    case ShowAlert(_) => ShowAlertKind
    case ShowOk(_) => ShowOkKind
    case GetSettings(_) => GetSettingsKind
    case SetSettings(_, _) => SetSettingsKind
    case SetState(_, _) => SetStateKind
    case SendToPropertyInspector(_, _, _) => SendToPropertyInspectorKind
    case SwitchToProfile(_, _, _) => SwitchToProfileKind
    case OpenUrl(_) => OpenUrlKind
    case GetGlobalSettings(_) => GetGlobalSettingsKind
    case SetGlobalSettings(_, _) => SetGlobalSettingsKind
    case LogMessage(_) => LogMessageKind
    case SetFeedback(_, _) => SetFeedbackKind
    case SetFeedbackLayout(_, _) => SetFeedbackLayoutKind
    case SetTriggerDescription(_, _) => SetTriggerDescriptionKind
  }

  function MessageOutTag<G, S, M>(m: MessageOut<G, S, M>): string {
    OutboundTag(OutKindOf(m))
  }

  function MessageOutFields<G, S, M>(c: Codecs<G, S, M>, m: MessageOut<G, S, M>): Object {
    match m
    case SetTitle(ctx, p) => map["context" := JString(ctx), "payload" := TitlePayloadToJson(p)]
    case SetImage(ctx, p) => map["context" := JString(ctx), "payload" := ImagePayloadToJson(p)]
    case ShowAlert(ctx) => map["context" := JString(ctx)]
    case ShowOk(ctx) => map["context" := JString(ctx)]
    case GetSettings(ctx) => map["context" := JString(ctx)]
    case SetSettings(ctx, p) => map["context" := JString(ctx), "payload" := c.s.encode(p)]
    case SetState(ctx, p) => map["context" := JString(ctx), "payload" := StatePayloadToJson(p)]
    case SendToPropertyInspector(a, ctx, p) =>
      map["action" := JString(a), "context" := JString(ctx), "payload" := c.m.encode(p)]
    case SwitchToProfile(ctx, d, p) =>
      map["context" := JString(ctx), "device" := JString(d),
          "payload" := StringRecordToJson("profile", p.profile)]
    case OpenUrl(p) => map["payload" := StringRecordToJson("url", p.url)]
    case GetGlobalSettings(ctx) => map["context" := JString(ctx)]
    case SetGlobalSettings(ctx, p) => map["context" := JString(ctx), "payload" := c.g.encode(p)]
    case LogMessage(p) => map["payload" := StringRecordToJson("message", p.message)]
    case SetFeedback(ctx, p) => map["context" := JString(ctx), "payload" := p]
    case SetFeedbackLayout(ctx, p) =>
      map["context" := JString(ctx), "payload" := StringRecordToJson("layout", p.layout)]
    case SetTriggerDescription(ctx, p) =>
      map["context" := JString(ctx), "payload" := TriggerDescriptionToJson(p)]
  }

  function EncodeMessageOut<G, S, M>(c: Codecs<G, S, M>, m: MessageOut<G, S, M>): (j: Json)
    ensures j.JObject? && "event" in j.fields && j.fields["event"] == JString(MessageOutTag(m))
  {
    JObject(MessageOutFields(c, m)["event" := JString(MessageOutTag(m))])
  }

  function DecodeKnownMessageOut<G, S, M>(c: Codecs<G, S, M>, k: OutboundKind, o: Object): (r: Decoded<MessageOut<G, S, M>>)
    ensures r.Success? ==> OutKindOf(r.value) == k
  {
    match k
    case SetTitleKind =>
      var ctx :- StringField(o, "context");
      var pj :- Required(o, "payload"); var p :- TitlePayloadFromJson(pj);
      Success(SetTitle(ctx, p))
    case SetImageKind =>
      var ctx :- StringField(o, "context");
      var pj :- Required(o, "payload"); var p :- ImagePayloadFromJson(pj);
      Success(SetImage(ctx, p))
    case ShowAlertKind =>
      var ctx :- StringField(o, "context");
      Success(ShowAlert(ctx))
    case ShowOkKind =>
      var ctx :- StringField(o, "context");
      Success(ShowOk(ctx))
    case GetSettingsKind =>
      var ctx :- StringField(o, "context");
      Success(GetSettings(ctx))
    case SetSettingsKind =>
      var ctx :- StringField(o, "context");
      var p :- OpaqueField(c.s, o, "payload");
      Success(SetSettings(ctx, p))
    case SetStateKind =>
      var ctx :- StringField(o, "context");
      var pj :- Required(o, "payload"); var p :- StatePayloadFromJson(pj);
      Success(SetState(ctx, p))
    case SendToPropertyInspectorKind =>
      var a :- StringField(o, "action"); var ctx :- StringField(o, "context");
      var p :- OpaqueField(c.m, o, "payload");
      Success(SendToPropertyInspector(a, ctx, p))
    case SwitchToProfileKind =>
      var ctx :- StringField(o, "context"); var d :- StringField(o, "device");
      var pj :- Required(o, "payload"); var p :- StringRecordFromJson("profile", pj);
      Success(SwitchToProfile(ctx, d, ProfilePayload(p)))
    case OpenUrlKind =>
      var pj :- Required(o, "payload"); var p :- StringRecordFromJson("url", pj);
      Success(OpenUrl(UrlPayload(p)))
    case GetGlobalSettingsKind =>
      var ctx :- StringField(o, "context");
      Success(GetGlobalSettings(ctx))
    case SetGlobalSettingsKind =>
      var ctx :- StringField(o, "context");
      var p :- OpaqueField(c.g, o, "payload");
      Success(SetGlobalSettings(ctx, p))
    case LogMessageKind =>
      var pj :- Required(o, "payload"); var p :- StringRecordFromJson("message", pj);
      Success(LogMessage(LogMessagePayload(p)))
    case SetFeedbackKind =>
      var ctx :- StringField(o, "context");
      var p :- Required(o, "payload");
      Success(SetFeedback(ctx, p))
    case SetFeedbackLayoutKind =>
      var ctx :- StringField(o, "context");
      var pj :- Required(o, "payload"); var p :- StringRecordFromJson("layout", pj);
      Success(SetFeedbackLayout(ctx, SetFeedbackLayoutPayload(p)))
    case SetTriggerDescriptionKind =>
      var ctx :- StringField(o, "context");
      var pj :- Required(o, "payload"); var p :- TriggerDescriptionFromJson(pj);
      Success(SetTriggerDescription(ctx, p))
  }

  /** A sent message deserialised; the catalogue is closed. */
  function DecodeMessageOut<G, S, M>(c: Codecs<G, S, M>, j: Json): Decoded<MessageOut<G, S, M>> {
    var tag :- EventTag(j);
    match OutboundKindOf(tag)
    case Some(k) => DecodeKnownMessageOut(c, k, j.fields)
    case None => Failure(UnknownVariant(tag))
  }

  // ---------------------------------------------------------------------------------------
  // Properties of the catalogues

  /** Each variant's tag reads back as that variant, so distinct variants have distinct tags. */
  lemma InboundKindOfTag(k: InboundKind)
    ensures InboundKindOf(InboundTag(k)) == Some(k)
  {
    if k in {KeyDownKind, KeyUpKind, WillAppearKind, WillDisappearKind, TitleParametersDidChangeKind} {
      TagsOfKeys(k);
    } else if k in {DeviceDidConnectKind, DeviceDidDisconnectKind, ApplicationDidLaunchKind, ApplicationDidTerminateKind, SendToPluginKind} {
      TagsOfDevices(k);
    } else if k in {DidReceiveSettingsKind, PropertyInspectorDidAppearKind, PropertyInspectorDidDisappearKind, DidReceiveGlobalSettingsKind, SystemDidWakeUpKind} {
      TagsOfInspector(k);
    } else {
      TagsOfDials(k);
    }
  }

  lemma TagsOfKeys(k: InboundKind)
    requires k in {KeyDownKind, KeyUpKind, WillAppearKind, WillDisappearKind, TitleParametersDidChangeKind}
    ensures InboundKindOf(InboundTag(k)) == Some(k)
  {
  }

  lemma TagsOfDevices(k: InboundKind)
    requires k in {DeviceDidConnectKind, DeviceDidDisconnectKind, ApplicationDidLaunchKind, ApplicationDidTerminateKind, SendToPluginKind}
    ensures InboundKindOf(InboundTag(k)) == Some(k)
  {
  }

  lemma TagsOfInspector(k: InboundKind)
    requires k in {DidReceiveSettingsKind, PropertyInspectorDidAppearKind, PropertyInspectorDidDisappearKind, DidReceiveGlobalSettingsKind, SystemDidWakeUpKind}
    ensures InboundKindOf(InboundTag(k)) == Some(k)
  {
  }

  lemma TagsOfDials(k: InboundKind)
    requires k in {TouchTapKind, DialDownKind, DialUpKind, DialRotateKind}
    ensures InboundKindOf(InboundTag(k)) == Some(k)
  {
  }

  /** A tag is in the catalogue exactly when it names one of the variants; the catch-all's own
      name does not. */
  lemma InboundCatalogue(tag: string)
    ensures InboundKindOf(tag).Some? <==> exists k :: InboundTag(k) == tag
    ensures InboundKindOf("unknown") == None
  {
    if k :| InboundTag(k) == tag {
      InboundKindOfTag(k);
    }
  }

  lemma OutboundKindOfTag(k: OutboundKind)
    ensures OutboundKindOf(OutboundTag(k)) == Some(k)
  {
  }

  lemma OutboundCatalogue(tag: string)
    ensures OutboundKindOf(tag).Some? <==> exists k :: OutboundTag(k) == tag
  {
    if k :| OutboundTag(k) == tag {
      OutboundKindOfTag(k);
    }
  }

  /** A catalogued tag decodes, when it decodes at all, to the variant it names. */
  lemma DecodedKnownKind<G, S, M>(c: Codecs<G, S, M>, k: InboundKind, o: Object)
    ensures DecodeKnownMessage(c, k, o).Success? ==> KindOf(DecodeKnownMessage(c, k, o).value) == Some(k)
  {
    if k in {KeyDownKind, KeyUpKind, WillAppearKind, WillDisappearKind, TitleParametersDidChangeKind} {
      DecodedKindKeys(c, k, o);
    } else if k in {DeviceDidConnectKind, DeviceDidDisconnectKind, ApplicationDidLaunchKind, ApplicationDidTerminateKind, SendToPluginKind} {
      DecodedKindDevices(c, k, o);
    } else if k in {DidReceiveSettingsKind, PropertyInspectorDidAppearKind, PropertyInspectorDidDisappearKind, DidReceiveGlobalSettingsKind, SystemDidWakeUpKind} {
      DecodedKindInspector(c, k, o);
    } else if k in {TouchTapKind, DialDownKind} {
      DecodedKindTouch(c, k, o);
    } else {
      DecodedKindDials(c, k, o);
    }
  }

  lemma DecodedKindKeys<G, S, M>(c: Codecs<G, S, M>, k: InboundKind, o: Object)
    requires k in {KeyDownKind, KeyUpKind, WillAppearKind, WillDisappearKind, TitleParametersDidChangeKind}
    ensures DecodeKnownMessage(c, k, o).Success? ==> KindOf(DecodeKnownMessage(c, k, o).value) == Some(k)
  {
  }

  lemma DecodedKindDevices<G, S, M>(c: Codecs<G, S, M>, k: InboundKind, o: Object)
    requires k in {DeviceDidConnectKind, DeviceDidDisconnectKind, ApplicationDidLaunchKind, ApplicationDidTerminateKind, SendToPluginKind}
    ensures DecodeKnownMessage(c, k, o).Success? ==> KindOf(DecodeKnownMessage(c, k, o).value) == Some(k)
  {
  }

  lemma DecodedKindInspector<G, S, M>(c: Codecs<G, S, M>, k: InboundKind, o: Object)
    requires k in {DidReceiveSettingsKind, PropertyInspectorDidAppearKind, PropertyInspectorDidDisappearKind, DidReceiveGlobalSettingsKind, SystemDidWakeUpKind}
    ensures DecodeKnownMessage(c, k, o).Success? ==> KindOf(DecodeKnownMessage(c, k, o).value) == Some(k)
  {
  }

  lemma DecodedKindTouch<G, S, M>(c: Codecs<G, S, M>, k: InboundKind, o: Object)
    requires k in {TouchTapKind, DialDownKind}
    ensures DecodeKnownMessage(c, k, o).Success? ==> KindOf(DecodeKnownMessage(c, k, o).value) == Some(k)
  {
  }

  lemma DecodedKindDials<G, S, M>(c: Codecs<G, S, M>, k: InboundKind, o: Object)
    requires k in {DialUpKind, DialRotateKind}
    ensures DecodeKnownMessage(c, k, o).Success? ==> KindOf(DecodeKnownMessage(c, k, o).value) == Some(k)
  {
  }

  /** The inbound decoder yields `Unknown` exactly for objects whose string tag is outside the
      catalogue. */
  lemma DecodeUnknownIff<G, S, M>(c: Codecs<G, S, M>, j: Json)
    ensures DecodeMessage(c, j) == Success(Message.Unknown) <==>
      EventTag(j).Success? && forall k :: InboundTag(k) != EventTag(j).value
  {
    if EventTag(j).Success? {
      var tag := EventTag(j).value;
      InboundCatalogue(tag);
      match InboundKindOf(tag)
      case None =>
      case Some(k) =>
        assert DecodeMessage(c, j) == DecodeKnownMessage(c, k, j.fields);
        DecodedKnownKind(c, k, j.fields);
    }
  }

  /** A catalogued tag yields the variant it names or an error, never `Unknown`. */
  lemma DecodeKnownTag<G, S, M>(c: Codecs<G, S, M>, j: Json)
    requires EventTag(j).Success? && exists k :: InboundTag(k) == EventTag(j).value
    ensures DecodeMessage(c, j).Success? ==> MessageTag(DecodeMessage(c, j).value) == EventTag(j).value
  {
    var tag := EventTag(j).value;
    InboundCatalogue(tag);
    DecodedKnownKind(c, InboundKindOf(tag).value, j.fields);
  }

  /** The outbound decoder rejects every tag outside its catalogue, and a known tag yields the
      variant it names or an error. */
  lemma DecodeOutTag<G, S, M>(c: Codecs<G, S, M>, j: Json)
    requires EventTag(j).Success?
    ensures (forall k :: OutboundTag(k) != EventTag(j).value) ==>
      DecodeMessageOut(c, j) == Failure(UnknownVariant(EventTag(j).value))
    ensures DecodeMessageOut(c, j).Success? ==> MessageOutTag(DecodeMessageOut(c, j).value) == EventTag(j).value
  {
    OutboundCatalogue(EventTag(j).value);
  }

  /** A wake-up notice is the bare tag, and any object with that tag is one, whatever else it
      holds. */
  lemma SystemDidWakeUpHasNoFields<G, S, M>(c: Codecs<G, S, M>, o: Object)
    ensures EncodeMessage(c, SystemDidWakeUp) == JObject(map["event" := JString("systemDidWakeUp")])
    ensures "event" in o && o["event"] == JString("systemDidWakeUp") ==>
      DecodeMessage(c, JObject(o)) == Success(SystemDidWakeUp)
  {
    InboundKindOfTag(SystemDidWakeUpKind);
  }

  /** An alert for context `ctx1` is written as the tag plus the context. */
  lemma ShowAlertExample<G, S, M>(c: Codecs<G, S, M>)
    ensures EncodeMessageOut(c, ShowAlert("ctx1")) ==
      JObject(map["event" := JString("showAlert"), "context" := JString("ctx1")])
  {
  }

  /** Every message the plugin can receive decodes back from its own encoding. */
  lemma MessageRoundTrip<G(!new), S(!new), M(!new)>(c: Codecs<G, S, M>, m: Message<G, S, M>)
    requires LawfulCodecs(c) && CanRoundTrip(m)
    ensures DecodeMessage(c, EncodeMessage(c, m)) == Success(m)
  {
    assert EventTag(EncodeMessage(c, m)) == Success(MessageTag(m));
    match KindOf(m)
    case None => InboundCatalogue("unknown");
    case Some(k) =>
      InboundKindOfTag(k);
      KnownMessageRoundTrip(c, m);
  }

  /** The fields of a catalogued message decode back as that message. */
  lemma KnownMessageRoundTrip<G(!new), S(!new), M(!new)>(c: Codecs<G, S, M>, m: Message<G, S, M>)
    requires LawfulCodecs(c) && CanRoundTrip(m) && KindOf(m).Some?
    ensures DecodeKnownMessage(c, KindOf(m).value, EncodeMessage(c, m).fields) == Success(m)
  {
    match m
    case KeyDown(_, _, _, _) => KeyDownRoundTrip(c, m);
    case KeyUp(_, _, _, _) => KeyUpRoundTrip(c, m);
    case WillAppear(_, _, _, _) => WillAppearRoundTrip(c, m);
    case WillDisappear(_, _, _, _) => WillDisappearRoundTrip(c, m);
    case TitleParametersDidChange(_, _, _, _) => TitleParametersDidChangeRoundTrip(c, m);
    case DeviceDidConnect(_, _) => DeviceDidConnectRoundTrip(c, m);
    case DeviceDidDisconnect(_) => DeviceDidDisconnectRoundTrip(c, m);
    case ApplicationDidLaunch(_) => ApplicationDidLaunchRoundTrip(c, m);
    case ApplicationDidTerminate(_) => ApplicationDidTerminateRoundTrip(c, m);
    case SendToPlugin(_, _, _) => SendToPluginRoundTrip(c, m);
    case DidReceiveSettings(_, _, _, _) => DidReceiveSettingsRoundTrip(c, m);
    case PropertyInspectorDidAppear(_, _, _) => PropertyInspectorDidAppearRoundTrip(c, m);
    case PropertyInspectorDidDisappear(_, _, _) => PropertyInspectorDidDisappearRoundTrip(c, m);
    case DidReceiveGlobalSettings(_) => DidReceiveGlobalSettingsRoundTrip(c, m);
    case SystemDidWakeUp => SystemDidWakeUpRoundTrip(c, m);
    case TouchTap(_, _, _, _) => TouchTapRoundTrip(c, m);
    case DialDown(_, _, _, _) => DialDownRoundTrip(c, m);
    case DialUp(_, _, _, _) => DialUpRoundTrip(c, m);
    case DialRotate(_, _, _, _) => DialRotateRoundTrip(c, m);
  }

  lemma KeyDownRoundTrip<G(!new), S(!new), M(!new)>(c: Codecs<G, S, M>, m: Message<G, S, M>)
    requires LawfulCodecs(c) && m.KeyDown?
    ensures DecodeKnownMessage(c, KeyDownKind, EncodeMessage(c, m).fields) == Success(m)
  {
    KeyDownFieldsRoundTrip(c, m.action, m.context, m.device, m.key, "keyDown");
  }

  lemma KeyDownFieldsRoundTrip<G, S(!new), M>(c: Codecs<G, S, M>, a: string, ctx: string, d: string, p: KeyPayload<S>, tag: string)
    requires Lawful(c.s)
    ensures DecodeKeyDown(c, ActionFields(a, ctx, JString(d), KeyPayloadToJson(c.s, p))["event" := JString(tag)]) ==
      Success(KeyDown(a, ctx, d, p))
  {
    KeyPayloadRoundTrip(c.s, p);
  }

  lemma KeyUpRoundTrip<G(!new), S(!new), M(!new)>(c: Codecs<G, S, M>, m: Message<G, S, M>)
    requires LawfulCodecs(c) && m.KeyUp?
    ensures DecodeKnownMessage(c, KeyUpKind, EncodeMessage(c, m).fields) == Success(m)
  {
    KeyUpFieldsRoundTrip(c, m.action, m.context, m.device, m.key, "keyUp");
  }

  lemma KeyUpFieldsRoundTrip<G, S(!new), M>(c: Codecs<G, S, M>, a: string, ctx: string, d: string, p: KeyPayload<S>, tag: string)
    requires Lawful(c.s)
    ensures DecodeKeyUp(c, ActionFields(a, ctx, JString(d), KeyPayloadToJson(c.s, p))["event" := JString(tag)]) ==
      Success(KeyUp(a, ctx, d, p))
  {
    KeyPayloadRoundTrip(c.s, p);
  }

  lemma WillAppearRoundTrip<G(!new), S(!new), M(!new)>(c: Codecs<G, S, M>, m: Message<G, S, M>)
    requires LawfulCodecs(c) && m.WillAppear?
    ensures DecodeKnownMessage(c, WillAppearKind, EncodeMessage(c, m).fields) == Success(m)
  {
    WillAppearFieldsRoundTrip(c, m.action, m.context, m.optDevice, m.visibility, "willAppear");
  }

  lemma WillAppearFieldsRoundTrip<G, S(!new), M>(c: Codecs<G, S, M>, a: string, ctx: string, d: Option<string>, p: VisibilityPayload<S>, tag: string)
    requires Lawful(c.s)
    ensures DecodeWillAppear(c, ActionFields(a, ctx, OptStringJson(d), VisibilityPayloadToJson(c.s, p))["event" := JString(tag)]) ==
      Success(WillAppear(a, ctx, d, p))
  {
    VisibilityPayloadRoundTrip(c.s, p);
  }

  lemma WillDisappearRoundTrip<G(!new), S(!new), M(!new)>(c: Codecs<G, S, M>, m: Message<G, S, M>)
    requires LawfulCodecs(c) && m.WillDisappear?
    ensures DecodeKnownMessage(c, WillDisappearKind, EncodeMessage(c, m).fields) == Success(m)
  {
    WillDisappearFieldsRoundTrip(c, m.action, m.context, m.optDevice, m.visibility, "willDisappear");
  }

  lemma WillDisappearFieldsRoundTrip<G, S(!new), M>(c: Codecs<G, S, M>, a: string, ctx: string, d: Option<string>, p: VisibilityPayload<S>, tag: string)
    requires Lawful(c.s)
    ensures DecodeWillDisappear(c, ActionFields(a, ctx, OptStringJson(d), VisibilityPayloadToJson(c.s, p))["event" := JString(tag)]) ==
      Success(WillDisappear(a, ctx, d, p))
  {
    VisibilityPayloadRoundTrip(c.s, p);
  }

  lemma TitleParametersDidChangeRoundTrip<G(!new), S(!new), M(!new)>(c: Codecs<G, S, M>, m: Message<G, S, M>)
    requires LawfulCodecs(c) && m.TitleParametersDidChange?
    ensures DecodeKnownMessage(c, TitleParametersDidChangeKind, EncodeMessage(c, m).fields) == Success(m)
  {
    TitleParametersDidChangeDecodes(c, m);
  }

  lemma TitleParametersDidChangeDecodes<G(!new), S(!new), M(!new)>(c: Codecs<G, S, M>, m: Message<G, S, M>)
    requires LawfulCodecs(c) && m.TitleParametersDidChange?
    ensures DecodeTitleParametersDidChange(c, EncodeMessage(c, m).fields) == Success(m)
  {
    TitleParametersDidChangeFieldsRoundTrip(c, m.action, m.context, m.optDevice, m.title, "titleParametersDidChange");
  }

  lemma TitleParametersDidChangeFieldsRoundTrip<G, S(!new), M>(c: Codecs<G, S, M>, a: string, ctx: string, d: Option<string>, p: TitleParametersPayload<S>, tag: string)
    requires Lawful(c.s)
    ensures DecodeTitleParametersDidChange(c, ActionFields(a, ctx, OptStringJson(d), TitleParametersPayloadToJson(c.s, p))["event" := JString(tag)]) ==
      Success(TitleParametersDidChange(a, ctx, d, p))
  {
    TitleParametersPayloadRoundTrip(c.s, p);
  }

  lemma DeviceDidConnectRoundTrip<G(!new), S(!new), M(!new)>(c: Codecs<G, S, M>, m: Message<G, S, M>)
    requires LawfulCodecs(c) && m.DeviceDidConnect? && CanRoundTrip(m)
    ensures DecodeKnownMessage(c, DeviceDidConnectKind, EncodeMessage(c, m).fields) == Success(m)
  {
    DeviceInfoRoundTrip(m.deviceInfo);
  }

  lemma DeviceDidDisconnectRoundTrip<G(!new), S(!new), M(!new)>(c: Codecs<G, S, M>, m: Message<G, S, M>)
    requires LawfulCodecs(c) && m.DeviceDidDisconnect?
    ensures DecodeKnownMessage(c, DeviceDidDisconnectKind, EncodeMessage(c, m).fields) == Success(m)
  {
  }

  lemma ApplicationDidLaunchRoundTrip<G(!new), S(!new), M(!new)>(c: Codecs<G, S, M>, m: Message<G, S, M>)
    requires LawfulCodecs(c) && m.ApplicationDidLaunch?
    ensures DecodeKnownMessage(c, ApplicationDidLaunchKind, EncodeMessage(c, m).fields) == Success(m)
  {
    ApplicationPayloadRoundTrip(m.application);
  }

  lemma ApplicationDidTerminateRoundTrip<G(!new), S(!new), M(!new)>(c: Codecs<G, S, M>, m: Message<G, S, M>)
    requires LawfulCodecs(c) && m.ApplicationDidTerminate?
    ensures DecodeKnownMessage(c, ApplicationDidTerminateKind, EncodeMessage(c, m).fields) == Success(m)
  {
    ApplicationPayloadRoundTrip(m.application);
  }

  lemma SendToPluginRoundTrip<G(!new), S(!new), M(!new)>(c: Codecs<G, S, M>, m: Message<G, S, M>)
    requires LawfulCodecs(c) && m.SendToPlugin?
    ensures DecodeKnownMessage(c, SendToPluginKind, EncodeMessage(c, m).fields) == Success(m)
  {
    OpaqueRoundTrip(c.m, EncodeMessage(c, m).fields, "payload", m.fromInspector);
  }

  lemma DidReceiveSettingsRoundTrip<G(!new), S(!new), M(!new)>(c: Codecs<G, S, M>, m: Message<G, S, M>)
    requires LawfulCodecs(c) && m.DidReceiveSettings?
    ensures DecodeKnownMessage(c, DidReceiveSettingsKind, EncodeMessage(c, m).fields) == Success(m)
  {
    DidReceiveSettingsFieldsRoundTrip(c, m.action, m.context, m.device, m.key, "didReceiveSettings");
  }

  lemma DidReceiveSettingsFieldsRoundTrip<G, S(!new), M>(c: Codecs<G, S, M>, a: string, ctx: string, d: string, p: KeyPayload<S>, tag: string)
    requires Lawful(c.s)
    ensures DecodeDidReceiveSettings(c, ActionFields(a, ctx, JString(d), KeyPayloadToJson(c.s, p))["event" := JString(tag)]) ==
      Success(DidReceiveSettings(a, ctx, d, p))
  {
    KeyPayloadRoundTrip(c.s, p);
  }

  lemma PropertyInspectorDidAppearRoundTrip<G(!new), S(!new), M(!new)>(c: Codecs<G, S, M>, m: Message<G, S, M>)
    requires LawfulCodecs(c) && m.PropertyInspectorDidAppear?
    ensures DecodeKnownMessage(c, PropertyInspectorDidAppearKind, EncodeMessage(c, m).fields) == Success(m)
  {
  }

  lemma PropertyInspectorDidDisappearRoundTrip<G(!new), S(!new), M(!new)>(c: Codecs<G, S, M>, m: Message<G, S, M>)
    requires LawfulCodecs(c) && m.PropertyInspectorDidDisappear?
    ensures DecodeKnownMessage(c, PropertyInspectorDidDisappearKind, EncodeMessage(c, m).fields) == Success(m)
  {
  }

  lemma DidReceiveGlobalSettingsRoundTrip<G(!new), S(!new), M(!new)>(c: Codecs<G, S, M>, m: Message<G, S, M>)
    requires LawfulCodecs(c) && m.DidReceiveGlobalSettings?
    ensures DecodeKnownMessage(c, DidReceiveGlobalSettingsKind, EncodeMessage(c, m).fields) == Success(m)
  {
    GlobalSettingsPayloadRoundTrip(c.g, m.global);
  }

  lemma SystemDidWakeUpRoundTrip<G(!new), S(!new), M(!new)>(c: Codecs<G, S, M>, m: Message<G, S, M>)
    requires LawfulCodecs(c) && m.SystemDidWakeUp?
    ensures DecodeKnownMessage(c, SystemDidWakeUpKind, EncodeMessage(c, m).fields) == Success(m)
  {
  }

  lemma TouchTapRoundTrip<G(!new), S(!new), M(!new)>(c: Codecs<G, S, M>, m: Message<G, S, M>)
    requires LawfulCodecs(c) && m.TouchTap?
    ensures DecodeKnownMessage(c, TouchTapKind, EncodeMessage(c, m).fields) == Success(m)
  {
    TouchTapDecodes(c, m);
  }

  lemma TouchTapDecodes<G(!new), S(!new), M(!new)>(c: Codecs<G, S, M>, m: Message<G, S, M>)
    requires LawfulCodecs(c) && m.TouchTap?
    ensures DecodeTouchTap(c, EncodeMessage(c, m).fields) == Success(m)
  {
    TouchTapFieldsRoundTrip(c, m.action, m.context, m.device, m.tap, "touchTap");
  }

  lemma TouchTapFieldsRoundTrip<G, S(!new), M>(c: Codecs<G, S, M>, a: string, ctx: string, d: string, p: TouchTapPayload<S>, tag: string)
    requires Lawful(c.s)
    ensures DecodeTouchTap(c, ActionFields(a, ctx, JString(d), TouchTapPayloadToJson(c.s, p))["event" := JString(tag)]) ==
      Success(TouchTap(a, ctx, d, p))
  {
    TouchTapPayloadRoundTrip(c.s, p);
  }

  lemma DialDownRoundTrip<G(!new), S(!new), M(!new)>(c: Codecs<G, S, M>, m: Message<G, S, M>)
    requires LawfulCodecs(c) && m.DialDown?
    ensures DecodeKnownMessage(c, DialDownKind, EncodeMessage(c, m).fields) == Success(m)
  {
    DialDownDecodes(c, m);
  }

  lemma DialDownDecodes<G(!new), S(!new), M(!new)>(c: Codecs<G, S, M>, m: Message<G, S, M>)
    requires LawfulCodecs(c) && m.DialDown?
    ensures DecodeDialDown(c, EncodeMessage(c, m).fields) == Success(m)
  {
    DialDownFieldsRoundTrip(c, m.action, m.context, m.device, m.dial, "dialDown");
  }

  lemma DialDownFieldsRoundTrip<G, S(!new), M>(c: Codecs<G, S, M>, a: string, ctx: string, d: string, p: DialPayload<S>, tag: string)
    requires Lawful(c.s)
    ensures DecodeDialDown(c, ActionFields(a, ctx, JString(d), DialPayloadToJson(c.s, p))["event" := JString(tag)]) ==
      Success(DialDown(a, ctx, d, p))
  {
    DialPayloadRoundTrip(c.s, p);
  }

  lemma DialUpRoundTrip<G(!new), S(!new), M(!new)>(c: Codecs<G, S, M>, m: Message<G, S, M>)
    requires LawfulCodecs(c) && m.DialUp?
    ensures DecodeKnownMessage(c, DialUpKind, EncodeMessage(c, m).fields) == Success(m)
  {
    DialUpDecodes(c, m);
  }

  lemma DialUpDecodes<G(!new), S(!new), M(!new)>(c: Codecs<G, S, M>, m: Message<G, S, M>)
    requires LawfulCodecs(c) && m.DialUp?
    ensures DecodeDialUp(c, EncodeMessage(c, m).fields) == Success(m)
  {
    DialUpFieldsRoundTrip(c, m.action, m.context, m.device, m.dial, "dialUp");
  }

  lemma DialUpFieldsRoundTrip<G, S(!new), M>(c: Codecs<G, S, M>, a: string, ctx: string, d: string, p: DialPayload<S>, tag: string)
    requires Lawful(c.s)
    ensures DecodeDialUp(c, ActionFields(a, ctx, JString(d), DialPayloadToJson(c.s, p))["event" := JString(tag)]) ==
      Success(DialUp(a, ctx, d, p))
  {
    DialPayloadRoundTrip(c.s, p);
  }

  lemma DialRotateRoundTrip<G(!new), S(!new), M(!new)>(c: Codecs<G, S, M>, m: Message<G, S, M>)
    requires LawfulCodecs(c) && m.DialRotate?
    ensures DecodeKnownMessage(c, DialRotateKind, EncodeMessage(c, m).fields) == Success(m)
  {
    DialRotateDecodes(c, m);
  }

  lemma DialRotateDecodes<G(!new), S(!new), M(!new)>(c: Codecs<G, S, M>, m: Message<G, S, M>)
    requires LawfulCodecs(c) && m.DialRotate?
    ensures DecodeDialRotate(c, EncodeMessage(c, m).fields) == Success(m)
  {
    DialRotateFieldsRoundTrip(c, m.action, m.context, m.device, m.rotate, "dialRotate");
  }

  lemma DialRotateFieldsRoundTrip<G, S(!new), M>(c: Codecs<G, S, M>, a: string, ctx: string, d: string, p: DialRotatePayload<S>, tag: string)
    requires Lawful(c.s)
    ensures DecodeDialRotate(c, ActionFields(a, ctx, JString(d), DialRotatePayloadToJson(c.s, p))["event" := JString(tag)]) ==
      Success(DialRotate(a, ctx, d, p))
  {
    DialRotatePayloadRoundTrip(c.s, p);
  }

  /** Every message the plugin can send decodes back from its own encoding. */
  lemma MessageOutRoundTrip<G(!new), S(!new), M(!new)>(c: Codecs<G, S, M>, m: MessageOut<G, S, M>)
    requires LawfulCodecs(c)
    ensures DecodeMessageOut(c, EncodeMessageOut(c, m)) == Success(m)
  {
    assert EventTag(EncodeMessageOut(c, m)) == Success(MessageOutTag(m));
    OutboundKindOfTag(OutKindOf(m));
    KnownMessageOutRoundTrip(c, m);
  }

  lemma KnownMessageOutRoundTrip<G(!new), S(!new), M(!new)>(c: Codecs<G, S, M>, m: MessageOut<G, S, M>)
    requires LawfulCodecs(c)
    ensures DecodeKnownMessageOut(c, OutKindOf(m), EncodeMessageOut(c, m).fields) == Success(m)
  {
    match m
    case SetTitle(_, _) => SetTitleOutRoundTrip(c, m);
    case SetImage(_, _) => SetImageOutRoundTrip(c, m);
    case ShowAlert(_) => ShowAlertOutRoundTrip(c, m);
    case ShowOk(_) => ShowOkOutRoundTrip(c, m);
    case GetSettings(_) => GetSettingsOutRoundTrip(c, m);
    case SetSettings(_, _) => SetSettingsOutRoundTrip(c, m);
    case SetState(_, _) => SetStateOutRoundTrip(c, m);
    case SendToPropertyInspector(_, _, _) => SendToPropertyInspectorOutRoundTrip(c, m);
    case SwitchToProfile(_, _, _) => SwitchToProfileOutRoundTrip(c, m);
    case OpenUrl(_) => OpenUrlOutRoundTrip(c, m);
    case GetGlobalSettings(_) => GetGlobalSettingsOutRoundTrip(c, m);
    case SetGlobalSettings(_, _) => SetGlobalSettingsOutRoundTrip(c, m);
    case LogMessage(_) => LogMessageOutRoundTrip(c, m);
    case SetFeedback(_, _) => SetFeedbackOutRoundTrip(c, m);
    case SetFeedbackLayout(_, _) => SetFeedbackLayoutOutRoundTrip(c, m);
    case SetTriggerDescription(_, _) => SetTriggerDescriptionOutRoundTrip(c, m);
  }

  lemma SetTitleOutRoundTrip<G(!new), S(!new), M(!new)>(c: Codecs<G, S, M>, m: MessageOut<G, S, M>)
    requires LawfulCodecs(c) && m.SetTitle?
    ensures DecodeKnownMessageOut(c, OutKindOf(m), EncodeMessageOut(c, m).fields) == Success(m)
  {
    TitlePayloadRoundTrip(m.titlePayload);
  }

  lemma SetImageOutRoundTrip<G(!new), S(!new), M(!new)>(c: Codecs<G, S, M>, m: MessageOut<G, S, M>)
    requires LawfulCodecs(c) && m.SetImage?
    ensures DecodeKnownMessageOut(c, OutKindOf(m), EncodeMessageOut(c, m).fields) == Success(m)
  {
    ImagePayloadRoundTrip(m.imagePayload);
  }

  lemma ShowAlertOutRoundTrip<G(!new), S(!new), M(!new)>(c: Codecs<G, S, M>, m: MessageOut<G, S, M>)
    requires LawfulCodecs(c) && m.ShowAlert?
    ensures DecodeKnownMessageOut(c, OutKindOf(m), EncodeMessageOut(c, m).fields) == Success(m)
  {
  }

  lemma ShowOkOutRoundTrip<G(!new), S(!new), M(!new)>(c: Codecs<G, S, M>, m: MessageOut<G, S, M>)
    requires LawfulCodecs(c) && m.ShowOk?
    ensures DecodeKnownMessageOut(c, OutKindOf(m), EncodeMessageOut(c, m).fields) == Success(m)
  {
  }

  lemma GetSettingsOutRoundTrip<G(!new), S(!new), M(!new)>(c: Codecs<G, S, M>, m: MessageOut<G, S, M>)
    requires LawfulCodecs(c) && m.GetSettings?
    ensures DecodeKnownMessageOut(c, OutKindOf(m), EncodeMessageOut(c, m).fields) == Success(m)
  {
  }

  lemma SetSettingsOutRoundTrip<G(!new), S(!new), M(!new)>(c: Codecs<G, S, M>, m: MessageOut<G, S, M>)
    requires LawfulCodecs(c) && m.SetSettings?
    ensures DecodeKnownMessageOut(c, OutKindOf(m), EncodeMessageOut(c, m).fields) == Success(m)
  {
    OpaqueRoundTrip(c.s, EncodeMessageOut(c, m).fields, "payload", m.settings);
  }

  lemma SetStateOutRoundTrip<G(!new), S(!new), M(!new)>(c: Codecs<G, S, M>, m: MessageOut<G, S, M>)
    requires LawfulCodecs(c) && m.SetState?
    ensures DecodeKnownMessageOut(c, OutKindOf(m), EncodeMessageOut(c, m).fields) == Success(m)
  {
  }

  lemma SendToPropertyInspectorOutRoundTrip<G(!new), S(!new), M(!new)>(c: Codecs<G, S, M>, m: MessageOut<G, S, M>)
    requires LawfulCodecs(c) && m.SendToPropertyInspector?
    ensures DecodeKnownMessageOut(c, OutKindOf(m), EncodeMessageOut(c, m).fields) == Success(m)
  {
    OpaqueRoundTrip(c.m, EncodeMessageOut(c, m).fields, "payload", m.toInspector);
  }

  lemma SwitchToProfileOutRoundTrip<G(!new), S(!new), M(!new)>(c: Codecs<G, S, M>, m: MessageOut<G, S, M>)
    requires LawfulCodecs(c) && m.SwitchToProfile?
    ensures DecodeKnownMessageOut(c, OutKindOf(m), EncodeMessageOut(c, m).fields) == Success(m)
  {
  }

  lemma OpenUrlOutRoundTrip<G(!new), S(!new), M(!new)>(c: Codecs<G, S, M>, m: MessageOut<G, S, M>)
    requires LawfulCodecs(c) && m.OpenUrl?
    ensures DecodeKnownMessageOut(c, OutKindOf(m), EncodeMessageOut(c, m).fields) == Success(m)
  {
  }

  lemma GetGlobalSettingsOutRoundTrip<G(!new), S(!new), M(!new)>(c: Codecs<G, S, M>, m: MessageOut<G, S, M>)
    requires LawfulCodecs(c) && m.GetGlobalSettings?
    ensures DecodeKnownMessageOut(c, OutKindOf(m), EncodeMessageOut(c, m).fields) == Success(m)
  {
  }

  lemma SetGlobalSettingsOutRoundTrip<G(!new), S(!new), M(!new)>(c: Codecs<G, S, M>, m: MessageOut<G, S, M>)
    requires LawfulCodecs(c) && m.SetGlobalSettings?
    ensures DecodeKnownMessageOut(c, OutKindOf(m), EncodeMessageOut(c, m).fields) == Success(m)
  {
    OpaqueRoundTrip(c.g, EncodeMessageOut(c, m).fields, "payload", m.globalSettings);
  }

  lemma LogMessageOutRoundTrip<G(!new), S(!new), M(!new)>(c: Codecs<G, S, M>, m: MessageOut<G, S, M>)
    requires LawfulCodecs(c) && m.LogMessage?
    ensures DecodeKnownMessageOut(c, OutKindOf(m), EncodeMessageOut(c, m).fields) == Success(m)
  {
  }

  lemma SetFeedbackOutRoundTrip<G(!new), S(!new), M(!new)>(c: Codecs<G, S, M>, m: MessageOut<G, S, M>)
    requires LawfulCodecs(c) && m.SetFeedback?
    ensures DecodeKnownMessageOut(c, OutKindOf(m), EncodeMessageOut(c, m).fields) == Success(m)
  {
  }

  lemma SetFeedbackLayoutOutRoundTrip<G(!new), S(!new), M(!new)>(c: Codecs<G, S, M>, m: MessageOut<G, S, M>)
    requires LawfulCodecs(c) && m.SetFeedbackLayout?
    ensures DecodeKnownMessageOut(c, OutKindOf(m), EncodeMessageOut(c, m).fields) == Success(m)
  {
  }

  lemma SetTriggerDescriptionOutRoundTrip<G(!new), S(!new), M(!new)>(c: Codecs<G, S, M>, m: MessageOut<G, S, M>)
    requires LawfulCodecs(c) && m.SetTriggerDescription?
    ensures DecodeKnownMessageOut(c, OutKindOf(m), EncodeMessageOut(c, m).fields) == Success(m)
  {
    TriggerDescriptionRoundTrip(m.trigger);
  }
}
