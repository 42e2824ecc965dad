# streamdeck-rs in Dafny

A model of the Rust SDK for writing Elgato Stream Deck plugins. The model covers five parts:

- **Messages.** These are the JSON messages the Stream Deck software sends a plugin (`Message`) and the ones a plugin sends back (`MessageOut`). Each is a serde enum tagged by its `"event"` field, carrying payload structs and the integer-coded `DeviceType` and `Target` values. `src/lib.rs` also defines `Color`, a colour written as `#rrggbb` or `#rrggbbaa`, with its own serde codec. No message carries it (a title colour is a plain string), and its one user, the `UserColors` part of the registration info, is opaque here. So the colour codec is modelled and proved on its own.
- **Property inspector messages.** These are the same two kinds of message as seen from an action's property inspector.
- **The command line.** The software starts a plugin with `-port`, `-pluginUUID`, `-registerEvent` and `-info` arguments, and the model reads them into registration parameters.
- **The socket.** This covers connecting, the WebSocket handshake, registering, and then receiving and sending messages.
- **The log drain.** It turns each log record into one `logMessage`.

Plugin-specific types stay generic, as they do in the source: global settings `G`, action settings `S` and inspector messages `M`. Each one comes with a codec, `Json.Codec<T>`. The round-trip theorems assume only that each codec reads back what it writes (`Json.Lawful`).

Modules:

| module | what it holds |
|---|---|
| `Wrappers` | `Option` and `Result` |
| `Ints` | the integer widths |
| `Json` | JSON values, decoding errors, and field readers that follow serde's rules (absent or `null` is `None` for an `Option`) |
| `Decimal` | decimal digit strings |
| `Colors` | the `Color` type and its hex text codec |
| `Codes` | the `DeviceType` and `Target` types |
| `Payloads` | the payload structs and their codecs |
| `Messages` | both message enums of `src/lib.rs` |
| `Inspector` | `src/property_inspector.rs` |
| `Registration` | `src/registration.rs` |
| `JsonText` | JSON string escaping, which the registration frame needs |
| `Socket` | `src/socket.rs` |
| `Logging` | `src/logging.rs` |

`Registration.FromArgs`, `Socket.Connect.Poll`, `Socket.StreamDeckSocket.Poll` and `StartSend`, and the `Logging.Serializer` and `Logging.StreamDeckDrain` methods are imperative. The source changes state in these places. Each of these methods is proved against a specification function, and the properties are proved about those functions.

## Model

| member | source | states |
|---|---|---|
| Json.OpaqueRoundTrip | src/lib.rs:511-521 | A field written by a lawful codec reads back as the same value. |
| Decimal.NatToString | src/logging.rs:66-109 | An integer key-value is displayed as a nonempty string of decimal digits. |
| Decimal.ValueOfNatToString | src/logging.rs:66-109 | The displayed digits denote the number. |
| Decimal.NatToStringCanonical | src/logging.rs:66-109 | The display has a leading `0` only for zero. |
| Decimal.IntToStringSign | src/logging.rs:66-109 | A `-` is shown exactly for negative numbers, and the digits after it denote the absolute value. |
| Decimal.IntToString | src/logging.rs:66-109 | `{}` on an integer. Specified by `IntToStringSign`, `ValueOfNatToString` and `NatToStringCanonical`: a sign exactly for negatives, then the canonical digits of the absolute value. |
| Colors.HexDigit | src/lib.rs:831-842 | `{:x}` writes a lowercase hex digit of the given value. |
| Colors.ParseComponent | src/lib.rs:858-890 | A failed two-byte component reports exactly the slice that failed. |
| Colors.Encode | src/lib.rs:831-842 | The text is `#` followed by two lowercase hex digits per component (3 for `Rgb`, 4 for `Rgba`). Component k's digits are at positions 2k+1 and 2k+2. |
| Colors.Decode | src/lib.rs:844-896 | A length other than 7 or 9 gives `InvalidLength`. A missing `#` gives `MissingHash`. Length 7 decodes to `Rgb` and length 9 to `Rgba`. |
| Colors.HexAllValues | src/lib.rs:831-842 | Every written digit is lowercase, and each component's two digits denote it. |
| Colors.ParseHex2 | src/lib.rs:862-874 | A component's two written digits parse back to it. |
| Colors.RoundTrip | src/lib.rs:831-896 | Decoding an encoded colour gives the colour back, with or without alpha. |
| Colors.ComponentAtOk | src/lib.rs:862-890 | A component parses exactly when its bytes are two hex digits in either case, or a `+` followed by one digit. |
| Colors.DecodeSucceedsIff | src/lib.rs:844-896 | Decoding succeeds exactly for text of length 7 or 9 that starts with `#` and has every component acceptable. |
| Colors.CanonicalIsEncoding | src/lib.rs:831-896 | Decoded text whose digits are all lowercase is exactly the encoding of the decoded colour. On canonical text the encoder is the inverse of the decoder. |
| Colors.DecodedComponent | src/lib.rs:862-890 | Component k of a decoded colour is what its two bytes parse to. |
| Colors.LibraryColorTest | src/lib.rs:903-925 | The library's test: `#123456` and `#12121212` decode to the expected colours and re-encode to the same text. |
| Colors.PlusSignAccepted | src/lib.rs:862-874 | `#+1+2+3` is accepted as `Rgb(1, 2, 3)`, because `u8::from_str_radix` allows a leading `+`. |
| Codes.DecodeDeviceTypeTable | src/lib.rs:803-818 | Codes 0 to 7 are the documented devices in order. Every other code is kept as `Unknown(code)`. |
| Codes.EncodeDecodeDeviceType | src/lib.rs:770-823 | Every code survives decoding and re-encoding. |
| Codes.DecodeEncodeDeviceType | src/lib.rs:770-823 | A device type survives encoding and decoding exactly when it is not an `Unknown` holding a documented code. |
| Codes.UnknownDocumentedCode | src/lib.rs:767-787 | `Unknown(3)` encodes like the mobile app and comes back as it, so the encoding is not injective. |
| Codes.TargetFromJson | src/lib.rs:437-446 | A target decodes exactly from an integer that is one of its codes, to that target. |
| Codes.TargetCodes | src/lib.rs:437-446 | The codes are 0, 1 and 2, exactly those codes are targets, and code and target are mutually inverse. |
| Codes.TargetJsonRoundTrip | src/lib.rs:437-446 | Every target reads back from its JSON. |
| Codes.DeviceTypeJsonRoundTrip | src/lib.rs:770-823 | A device type that is not an `Unknown` with a documented code reads back from its JSON. |
| Codes.EncodeDeviceType | src/lib.rs:770-787 | The `Serialize` impl. Specified by `EncodeDecodeDeviceType`, `DecodeEncodeDeviceType` and `UnknownDocumentedCode`. |
| Codes.DecodeDeviceType | src/lib.rs:803-818 | `visit_u64`. Specified by `DecodeDeviceTypeTable` (codes 0 to 7 in order, others open) and by the two round-trip lemmas. |
| Codes.DeviceTypeToJson | src/lib.rs:770-787 | A device type as a JSON integer. Specified by `DeviceTypeJsonRoundTrip` together with `Codes.DeviceTypeFromJson`. |
| Codes.TargetCode | src/lib.rs:437-446 | The `repr(u8)` code of a target. Specified by `TargetCodes`. |
| Codes.TargetFromCode | src/lib.rs:437-446 | The `Deserialize_repr` lookup. Specified by `TargetCodes` (exactly 0, 1 and 2 are accepted, and it inverts `TargetCode`). |
| Codes.TargetToJson | src/lib.rs:437-446 | A target as its JSON code. Specified by `TargetJsonRoundTrip`. |
| Payloads.TitlePayloadToJson | src/lib.rs:453-461 | `title` is always written, `null` when absent. `target` is written as its code. `state` is written exactly when set. No other key is written. |
| Payloads.ImagePayloadToJson | src/lib.rs:468-476 | The same as the title payload: `image` is always written, and `state` only when set. |
| Payloads.CoordinatesRoundTrip | src/lib.rs:680-685 | Coordinates read back from their JSON. |
| Payloads.OptCoordinatesRoundTrip | src/lib.rs:511-521 | Optional coordinates read back from their JSON, including `None` written as `null`. |
| Payloads.KeyPayloadRoundTrip | src/lib.rs:511-521 | A key payload reads back from its JSON for lawful settings. |
| Payloads.VisibilityPayloadRoundTrip | src/lib.rs:526-534 | A visibility payload reads back from its JSON. |
| Payloads.TitleParametersRoundTrip | src/lib.rs:692-721 | Title parameters, with their alignment name, read back from their JSON. |
| Payloads.TitleParametersPayloadRoundTrip | src/lib.rs:539-550 | A title-parameters payload reads back from its JSON. |
| Payloads.DeviceInfoRoundTrip | src/lib.rs:655-665 | Device information, with `type` renamed and size, reads back from its JSON when its device type is round-trippable. |
| Payloads.ApplicationPayloadRoundTrip | src/lib.rs:670-673 | An application payload reads back from its JSON. |
| Payloads.GlobalSettingsPayloadRoundTrip | src/lib.rs:555-558 | A global-settings payload reads back from its JSON. |
| Payloads.TouchTapPayloadRoundTrip | src/lib.rs:599-608 | A touch-tap payload, with its `[x, y]` position and `hold`, reads back from its JSON. |
| Payloads.DialPayloadRoundTrip | src/lib.rs:615-632 | A dial-down or dial-up payload reads back from its JSON. |
| Payloads.DialRotatePayloadRoundTrip | src/lib.rs:639-648 | A dial-rotate payload reads back from its JSON, with signed ticks and `pressed`. |
| Payloads.TitlePayloadRoundTrip | src/lib.rs:453-461 | A title payload reads back from its JSON. An omitted `state` comes back as `None`. |
| Payloads.ImagePayloadRoundTrip | src/lib.rs:468-476 | An image payload reads back from its JSON. |
| Payloads.TriggerDescriptionRoundTrip | src/lib.rs:583-592 | A trigger-description payload reads back from its JSON. |
| Payloads.StatePayloadRoundTrip | src/lib.rs:483-486 | A state payload reads back from its JSON. |
| Payloads.StringRecordRoundTrip | src/lib.rs:493-506 | A one-string payload (`profile`, `url`, `message`, `layout`) reads back under its own key, and any other key reports `MissingField`. |
| Payloads.CoordinatesToJson | src/lib.rs:680-685 | Specified by `CoordinatesRoundTrip`. |
| Payloads.CoordinatesFromJson | src/lib.rs:680-685 | Specified by `CoordinatesRoundTrip`. |
| Payloads.OptCoordinatesToJson | src/lib.rs:511-521 | `Option<Coordinates>`, with `None` as `null`. Specified by `OptCoordinatesRoundTrip`. |
| Payloads.OptCoordinatesField | src/lib.rs:511-521 | Specified by `OptCoordinatesRoundTrip`. |
| Payloads.KeyPayloadToJson | src/lib.rs:511-521 | Specified by `KeyPayloadRoundTrip`. |
| Payloads.KeyPayloadFromJson | src/lib.rs:511-521 | Specified by `KeyPayloadRoundTrip`. |
| Payloads.VisibilityPayloadToJson | src/lib.rs:526-534 | Specified by `VisibilityPayloadRoundTrip`. |
| Payloads.VisibilityPayloadFromJson | src/lib.rs:526-534 | Specified by `VisibilityPayloadRoundTrip`. |
| Payloads.AlignmentToJson | src/lib.rs:692-699 | The camelCase name of an alignment. Specified through `TitleParametersRoundTrip`. |
| Payloads.AlignmentFromJson | src/lib.rs:692-699 | Specified through `TitleParametersRoundTrip`. |
| Payloads.TitleParametersToJson | src/lib.rs:706-721 | Specified by `TitleParametersRoundTrip`. |
| Payloads.TitleParametersFromJson | src/lib.rs:706-721 | Specified by `TitleParametersRoundTrip`. |
| Payloads.TitleParametersPayloadToJson | src/lib.rs:539-550 | Specified by `TitleParametersPayloadRoundTrip`. |
| Payloads.TitleParametersPayloadFromJson | src/lib.rs:539-550 | Specified by `TitleParametersPayloadRoundTrip`. |
| Payloads.DeviceSizeToJson | src/lib.rs:726-731 | Specified through `DeviceInfoRoundTrip`. |
| Payloads.DeviceSizeFromJson | src/lib.rs:726-731 | Specified through `DeviceInfoRoundTrip`. |
| Payloads.DeviceInfoToJson | src/lib.rs:655-665 | Specified by `DeviceInfoRoundTrip`. |
| Payloads.DeviceInfoFromJson | src/lib.rs:655-665 | Specified by `DeviceInfoRoundTrip`. |
| Payloads.ApplicationPayloadToJson | src/lib.rs:670-673 | Specified by `ApplicationPayloadRoundTrip`. |
| Payloads.ApplicationPayloadFromJson | src/lib.rs:670-673 | Specified by `ApplicationPayloadRoundTrip`. |
| Payloads.GlobalSettingsPayloadToJson | src/lib.rs:555-558 | Specified by `GlobalSettingsPayloadRoundTrip`. |
| Payloads.GlobalSettingsPayloadFromJson | src/lib.rs:555-558 | Specified by `GlobalSettingsPayloadRoundTrip`. |
| Payloads.TouchTapPayloadToJson | src/lib.rs:599-608 | Specified by `TouchTapPayloadRoundTrip`. |
| Payloads.PairFromJson | src/lib.rs:599-608 | The `[x, y]` tap position as a two-element array. Specified through `TouchTapPayloadRoundTrip`. |
| Payloads.TouchTapPayloadFromJson | src/lib.rs:599-608 | Specified by `TouchTapPayloadRoundTrip`. |
| Payloads.DialPayloadToJson | src/lib.rs:615-632 | Specified by `DialPayloadRoundTrip`. |
| Payloads.DialPayloadFromJson | src/lib.rs:615-632 | Specified by `DialPayloadRoundTrip`. |
| Payloads.DialRotatePayloadToJson | src/lib.rs:639-648 | Specified by `DialRotatePayloadRoundTrip`. |
| Payloads.DialRotatePayloadFromJson | src/lib.rs:639-648 | Specified by `DialRotatePayloadRoundTrip`. |
| Payloads.TitlePayloadFromJson | src/lib.rs:453-461 | Specified by `TitlePayloadRoundTrip` together with `Payloads.TitlePayloadToJson`. |
| Payloads.ImagePayloadFromJson | src/lib.rs:468-476 | Specified by `ImagePayloadRoundTrip` together with `Payloads.ImagePayloadToJson`. |
| Payloads.StatePayloadToJson | src/lib.rs:483-486 | Specified by `StatePayloadRoundTrip`. |
| Payloads.StatePayloadFromJson | src/lib.rs:483-486 | Specified by `StatePayloadRoundTrip`. |
| Payloads.StringRecordToJson | src/lib.rs:493-506 | `ProfilePayload`, `UrlPayload`, `LogMessagePayload` and `SetFeedbackLayoutPayload`: one string under one key. Specified by `StringRecordRoundTrip`. |
| Payloads.StringRecordFromJson | src/lib.rs:493-506 | Specified by `StringRecordRoundTrip`, which also covers a different key (`MissingField`). |
| Payloads.TriggerDescriptionToJson | src/lib.rs:583-592 | Specified by `TriggerDescriptionRoundTrip`. |
| Payloads.TriggerDescriptionFromJson | src/lib.rs:583-592 | Specified by `TriggerDescriptionRoundTrip`. |
| Messages.InboundKindOf | src/lib.rs:24-268 | A tag is recognised only as the tag of the kind it yields. |
| Messages.EncodeMessage | src/lib.rs:24-268 | Every encoded message is an object whose `"event"` is the variant's camelCase tag. |
| Messages.DecodeKeyDown | src/lib.rs:30-39 | A `keyDown` object decodes only to a `KeyDown`. |
| Messages.DecodeKeyUp | src/lib.rs:44-53 | A `keyUp` object decodes only to a `KeyUp`. |
| Messages.DecodeWillAppear | src/lib.rs:58-67 | A `willAppear` object decodes only to a `WillAppear`. |
| Messages.DecodeWillDisappear | src/lib.rs:72-81 | A `willDisappear` object decodes only to a `WillDisappear`. |
| Messages.DecodeTitleParametersDidChange | src/lib.rs:86-95 | A `titleParametersDidChange` object decodes only to a `TitleParametersDidChange`. |
| Messages.DecodeDeviceDidConnect | src/lib.rs:100-105 | A `deviceDidConnect` object decodes only to a `DeviceDidConnect`. |
| Messages.DecodeDeviceDidDisconnect | src/lib.rs:110-113 | A `deviceDidDisconnect` object decodes only to a `DeviceDidDisconnect`. |
| Messages.DecodeApplicationDidLaunch | src/lib.rs:118-121 | An `applicationDidLaunch` object decodes only to an `ApplicationDidLaunch`. |
| Messages.DecodeApplicationDidTerminate | src/lib.rs:126-129 | An `applicationDidTerminate` object decodes only to an `ApplicationDidTerminate`. |
| Messages.DecodeSendToPlugin | src/lib.rs:134-141 | A `sendToPlugin` object decodes only to a `SendToPlugin`. |
| Messages.DecodeDidReceiveSettings | src/lib.rs:149-158 | A `didReceiveSettings` object decodes only to a `DidReceiveSettings`. |
| Messages.DecodePropertyInspectorDidAppear | src/lib.rs:163-170 | A `propertyInspectorDidAppear` object decodes only to that variant. |
| Messages.DecodePropertyInspectorDidDisappear | src/lib.rs:175-182 | A `propertyInspectorDidDisappear` object decodes only to that variant. |
| Messages.DecodeDidReceiveGlobalSettings | src/lib.rs:190-193 | A `didReceiveGlobalSettings` object decodes only to that variant. |
| Messages.DecodeTouchTap | src/lib.rs:205-214 | A `touchTap` object decodes only to a `TouchTap`. |
| Messages.DecodeDialDown | src/lib.rs:220-229 | A `dialDown` object decodes only to a `DialDown`. |
| Messages.DecodeDialUp | src/lib.rs:235-244 | A `dialUp` object decodes only to a `DialUp`. |
| Messages.DecodeDialRotate | src/lib.rs:250-259 | A `dialRotate` object decodes only to a `DialRotate`. |
| Messages.OutboundKindOf | src/lib.rs:278-434 | An outbound tag is recognised only as the tag of the kind it yields. |
| Messages.EncodeMessageOut | src/lib.rs:278-434 | Every encoded outbound message is an object whose `"event"` is its tag. |
| Messages.DecodeKnownMessageOut | src/lib.rs:278-434 | Decoding under an outbound kind yields only a message of that kind. |
| Messages.InboundKindOfTag | src/lib.rs:24-268 | Every inbound variant's tag is recognised as that variant. |
| Messages.InboundCatalogue | src/lib.rs:24-268 | A tag is recognised exactly when it is one of the 19 variant tags. The literal `unknown` is not one. |
| Messages.OutboundKindOfTag | src/lib.rs:278-434 | Every outbound variant's tag is recognised as that variant. |
| Messages.OutboundCatalogue | src/lib.rs:278-434 | An outbound tag is recognised exactly when it is one of the 16 variant tags. |
| Messages.DecodedKnownKind | src/lib.rs:24-268 | A message decoded under a known kind is of that kind. |
| Messages.DecodeKnownMessage | src/lib.rs:24-265 | Decoding under a catalogued kind. Specified by `KnownMessageRoundTrip` and `DecodedKnownKind`. |
| Messages.DecodeMessage | src/lib.rs:23-268 | The derived `Deserialize` of `Message`. Specified by `MessageRoundTrip` (every encoding reads back), `DecodeUnknownIff` (`Unknown` exactly outside the catalogue), `DecodeKnownTag` and `SystemDidWakeUpHasNoFields`. |
| Messages.DecodeMessageOut | src/lib.rs:277-434 | The derived `Deserialize` of `MessageOut`. Specified by `MessageOutRoundTrip` and `DecodeOutTag` (no catch-all). |
| Messages.DecodeUnknownIff | src/lib.rs:266-267 | The inbound decoder yields `Unknown` exactly for objects whose string tag is outside the catalogue (`#[serde(other)]`). |
| Messages.DecodeKnownTag | src/lib.rs:24-268 | A catalogued tag yields the variant it names or an error, never `Unknown`. |
| Messages.DecodeOutTag | src/lib.rs:278-434 | `MessageOut` has no catch-all: an uncatalogued tag is `UnknownVariant`, and a decoded message carries the tag it was read from. |
| Messages.SystemDidWakeUpHasNoFields | src/lib.rs:199 | The wake-up notice is the bare tag, and any object with that tag decodes to it, whatever else it holds. |
| Messages.ShowAlertExample | src/lib.rs:304-307 | `ShowAlert` for a context is written as the tag plus the context. |
| Messages.MessageRoundTrip | src/lib.rs:24-268 | Every inbound message decodes back from its own encoding under lawful codecs. That includes `Unknown`, which is written as the bare tag `unknown` and read back through the catch-all. The only exception is a device type that would come back as another device. |
| Messages.KnownMessageRoundTrip | src/lib.rs:24-268 | The fields of every such message decode back under its kind. |
| Messages.KeyDownRoundTrip | src/lib.rs:30-39 | `KeyDown` round-trips. |
| Messages.KeyUpRoundTrip | src/lib.rs:44-53 | `KeyUp` round-trips. |
| Messages.WillAppearRoundTrip | src/lib.rs:58-67 | `WillAppear` round-trips, including the optional device. |
| Messages.WillDisappearRoundTrip | src/lib.rs:72-81 | `WillDisappear` round-trips. |
| Messages.TitleParametersDidChangeRoundTrip | src/lib.rs:86-95 | `TitleParametersDidChange` round-trips. |
| Messages.DeviceDidConnectRoundTrip | src/lib.rs:100-105 | `DeviceDidConnect` round-trips with its device information. |
| Messages.DeviceDidDisconnectRoundTrip | src/lib.rs:110-113 | `DeviceDidDisconnect` round-trips. |
| Messages.ApplicationDidLaunchRoundTrip | src/lib.rs:118-121 | `ApplicationDidLaunch` round-trips. |
| Messages.ApplicationDidTerminateRoundTrip | src/lib.rs:126-129 | `ApplicationDidTerminate` round-trips. |
| Messages.SendToPluginRoundTrip | src/lib.rs:134-141 | `SendToPlugin` round-trips with its inspector payload `M`. |
| Messages.DidReceiveSettingsRoundTrip | src/lib.rs:149-158 | `DidReceiveSettings` round-trips. |
| Messages.PropertyInspectorDidAppearRoundTrip | src/lib.rs:163-170 | `PropertyInspectorDidAppear` round-trips. |
| Messages.PropertyInspectorDidDisappearRoundTrip | src/lib.rs:175-182 | `PropertyInspectorDidDisappear` round-trips. |
| Messages.DidReceiveGlobalSettingsRoundTrip | src/lib.rs:190-193 | `DidReceiveGlobalSettings` round-trips. |
| Messages.SystemDidWakeUpRoundTrip | src/lib.rs:199 | `SystemDidWakeUp` round-trips. |
| Messages.TouchTapRoundTrip | src/lib.rs:205-214 | `TouchTap` round-trips. |
| Messages.DialDownRoundTrip | src/lib.rs:220-229 | `DialDown` round-trips. |
| Messages.DialUpRoundTrip | src/lib.rs:235-244 | `DialUp` round-trips. |
| Messages.DialRotateRoundTrip | src/lib.rs:250-259 | `DialRotate` round-trips. |
| Messages.MessageOutRoundTrip | src/lib.rs:278-434 | Every outbound message decodes back from its own encoding under lawful codecs. |
| Messages.KnownMessageOutRoundTrip | src/lib.rs:278-434 | The fields of every outbound message decode back under its kind. |
| Messages.SetTitleOutRoundTrip | src/lib.rs:284-289 | `SetTitle` round-trips. |
| Messages.SetImageOutRoundTrip | src/lib.rs:294-299 | `SetImage` round-trips. |
| Messages.ShowAlertOutRoundTrip | src/lib.rs:304-307 | `ShowAlert` round-trips. |
| Messages.ShowOkOutRoundTrip | src/lib.rs:312-315 | `ShowOk` round-trips. |
| Messages.GetSettingsOutRoundTrip | src/lib.rs:320-323 | `GetSettings` round-trips. |
| Messages.SetSettingsOutRoundTrip | src/lib.rs:328-333 | `SetSettings` round-trips. |
| Messages.SetStateOutRoundTrip | src/lib.rs:340-345 | `SetState` round-trips. |
| Messages.SendToPropertyInspectorOutRoundTrip | src/lib.rs:350-357 | `SendToPropertyInspector` round-trips. |
| Messages.SwitchToProfileOutRoundTrip | src/lib.rs:362-369 | `SwitchToProfile` round-trips. |
| Messages.OpenUrlOutRoundTrip | src/lib.rs:374-377 | `OpenUrl` round-trips. |
| Messages.GetGlobalSettingsOutRoundTrip | src/lib.rs:382-385 | `GetGlobalSettings` round-trips. |
| Messages.SetGlobalSettingsOutRoundTrip | src/lib.rs:390-395 | `SetGlobalSettings` round-trips. |
| Messages.LogMessageOutRoundTrip | src/lib.rs:400-403 | `LogMessage` round-trips. |
| Messages.SetFeedbackOutRoundTrip | src/lib.rs:408-413 | `SetFeedback` round-trips with its arbitrary JSON payload. |
| Messages.SetFeedbackLayoutOutRoundTrip | src/lib.rs:418-423 | `SetFeedbackLayout` round-trips. |
| Messages.SetTriggerDescriptionOutRoundTrip | src/lib.rs:428-433 | `SetTriggerDescription` round-trips. |
| Inspector.ActionInfoPayloadFromJson | src/property_inspector.rs:12-19 | The action-info payload decodes only from an object holding `coordinates`. |
| Inspector.ActionInfoFromJson | src/property_inspector.rs:26-37 | Action info decodes only from an object holding `action`, `context`, `device` and `payload`. |
| Inspector.ActionInfoRoundTrip | src/property_inspector.rs:12-37 | Action info reads back from its JSON. |
| Inspector.ActionInfoNeedsCoordinates | src/property_inspector.rs:12-19 | Without `coordinates` the payload is `MissingField("coordinates")`, because the field is not optional. |
| Inspector.InboundCatalogue | src/property_inspector.rs:46-89 | The inspector recognises exactly its three tags, and a recognised tag is the tag of the kind it names. |
| Inspector.InboundKindOfTag | src/property_inspector.rs:46-89 | Every inspector variant's own tag is recognised as that variant. |
| Inspector.DecodeUnknownTag | src/property_inspector.rs:46-89 | Any other tag is `UnknownVariant`, because this enum has no catch-all. |
| Inspector.DecodedTag | src/property_inspector.rs:46-89 | A decoded inspector message carries the tag it was read from. |
| Inspector.DidReceiveSettingsFields | src/property_inspector.rs:56-65 | A `didReceiveSettings` object decodes exactly when its action, context, device and key payload decode. |
| Inspector.SendToPropertyInspectorFields | src/property_inspector.rs:81-88 | A `sendToPropertyInspector` object decodes exactly when its action, context and payload decode. |
| Inspector.MessageRoundTrip | src/property_inspector.rs:46-89 | Every inspector message decodes back from its own encoding. |
| Inspector.PluginEventRejected | src/property_inspector.rs:46-89 | A plugin event such as `keyDown` is an error for the inspector. |
| Inspector.ClosedUnlikePlugin | src/property_inspector.rs:46-89 | An uncatalogued tag is an error for the inspector but `Unknown` for the plugin. |
| Inspector.EncodeMessageOut | src/property_inspector.rs:98-162 | Every encoded inspector message is an object tagged with its kind. |
| Inspector.OutboundCatalogue | src/property_inspector.rs:98-162 | The inspector sends exactly its seven tags, and a recognised tag is the tag of the kind it names. |
| Inspector.OutboundKindOfTag | src/property_inspector.rs:98-162 | Every outbound inspector variant's own tag is recognised as that variant. |
| Inspector.DecodeUnknownOutTag | src/property_inspector.rs:98-162 | Any other outbound tag is `UnknownVariant`. |
| Inspector.MessageOutRoundTrip | src/property_inspector.rs:98-162 | Every message an inspector sends decodes back from its own encoding. |
| Inspector.ActionInfoPayloadToJson | src/property_inspector.rs:12-19 | Specified by `ActionInfoRoundTrip`. |
| Inspector.ActionInfoToJson | src/property_inspector.rs:26-37 | Specified by `ActionInfoRoundTrip`. |
| Inspector.EncodeMessage | src/property_inspector.rs:46-89 | Specified by `Inspector.MessageRoundTrip`. |
| Inspector.DecodeKnownMessage | src/property_inspector.rs:46-89 | Specified by `DidReceiveSettingsFields`, `SendToPropertyInspectorFields` and `Inspector.MessageRoundTrip`. |
| Inspector.DecodeMessage | src/property_inspector.rs:46-89 | Specified by `Inspector.MessageRoundTrip`, `DecodeUnknownTag` (closed catalogue), `DecodedTag`, `PluginEventRejected` and `ClosedUnlikePlugin`. |
| Inspector.DecodeKnownMessageOut | src/property_inspector.rs:98-162 | Specified by `Inspector.MessageOutRoundTrip`. |
| Inspector.DecodeMessageOut | src/property_inspector.rs:98-162 | Specified by `Inspector.MessageOutRoundTrip` and `DecodeUnknownOutTag`. |
| Registration.LanguageNames | src/registration.rs:42-93 | A language name is `Unknown` exactly when it is not one of the six known ones, and every name is written back as it was read. |
| Registration.LanguageRoundTrip | src/registration.rs:42-93 | A language survives writing and reading exactly when it is not an `Unknown` holding a known name. |
| Registration.LanguageFromJson | src/registration.rs:42-74 | A language decodes exactly from a JSON string, to a value that writes back as that string. |
| Registration.LanguageJsonRoundTrip | src/registration.rs:42-93 | A language that is not an `Unknown` holding a known name reads back from its JSON. |
| Registration.PlatformNames | src/registration.rs:106-149 | A platform name is unknown exactly when it is neither `mac` nor `windows`, and every name is written back as read. |
| Registration.PlatformRoundTrip | src/registration.rs:106-149 | A platform survives writing and reading exactly when it is not an `UnknownPlatform` holding a known name. |
| Registration.PlatformFromJson | src/registration.rs:121-149 | A platform decodes exactly from a JSON string. |
| Registration.PlatformJsonRoundTrip | src/registration.rs:106-149 | A non-aliasing platform reads back from its JSON. |
| Registration.LanguageFromString | src/registration.rs:60-68 | The language deserialiser's match. Specified by `LanguageNames` and `LanguageRoundTrip`. |
| Registration.LanguageToString | src/registration.rs:81-91 | The language serialiser. Specified by `LanguageNames` and `LanguageRoundTrip`. |
| Registration.LanguageToJson | src/registration.rs:76-93 | Specified by `LanguageJsonRoundTrip`. |
| Registration.PlatformFromString | src/registration.rs:139-143 | Specified by `PlatformNames` and `PlatformRoundTrip`. |
| Registration.PlatformToString | src/registration.rs:111-117 | Specified by `PlatformNames` and `PlatformRoundTrip`. |
| Registration.PlatformToJson | src/registration.rs:106-119 | Specified by `PlatformJsonRoundTrip`. |
| Registration.ReadDigits | src/registration.rs:255 | Once the sign has been handled, reading digits never reports `Empty`. |
| Registration.ReadValueIsValue | src/registration.rs:255 | The left-to-right digit fold computes the number the digits denote. |
| Registration.ReadDigitsValue | src/registration.rs:255 | Reading digits succeeds exactly when all are digits and the value stays below 65536, and it yields that value. |
| Registration.ParsePortSpec | src/registration.rs:255 | `u16::from_str` succeeds exactly when the text after an optional `+` is a nonempty digit string below 65536, and yields its value. `Empty` is reported exactly for the empty string. |
| Registration.ParsePortAccepts | src/registration.rs:255 | `28196` and `+80` parse. |
| Registration.ParsePortRejects | src/registration.rs:255 | `-1` and `7000x` give `InvalidDigit`, `65536` gives `PosOverflow`, and the empty string gives `Empty`. |
| Registration.ParsePort | src/registration.rs:255 | `u16::from_str`. Specified by `ParsePortSpec`, `ParsePortAccepts` and `ParsePortRejects`. |
| Registration.FromArgs | src/registration.rs:244-279 | The argument loop and the checks after it compute exactly `ParamsOf(args)`. |
| Registration.ScanConcat | src/registration.rs:253-262 | Scanning is compositional over wholly consumed prefixes. |
| Registration.LastOccurrenceWins | src/registration.rs:253-262 | A repeated flag takes the value of its last occurrence. |
| Registration.TrailingFlagResets | src/registration.rs:253-262 | A flag at the end with no value resets its parameter to absent. For `-pluginUUID` that then gives `NoUuid`. |
| Registration.NonFlagsSkipped | src/registration.rs:253-262 | Arguments that are not flags change nothing. |
| Registration.UnrecognisedSkipped | src/registration.rs:253-262 | Unrecognised trailing arguments do not affect the result. |
| Registration.ValueLooksLikeFlag | src/registration.rs:253-262 | The argument after a flag is always taken as its value, even when it looks like a flag. |
| Registration.FinishReportsFirstProblem | src/registration.rs:263-277 | The checks fail exactly when some problem exists, and they report the first in the order port, port value, uuid, event, info, info value. |
| Registration.ParamsOfSuccess | src/registration.rs:244-279 | Parsing succeeds exactly when all four parameters were given and both the port and the info parsed, and it returns those values. |
| Registration.BadPortBeforeNoUuid | src/registration.rs:263-266 | A bad port is reported before a missing uuid. |
| Registration.FullCommandLine | src/registration.rs:244-279 | A full command line in any flag order yields its parameters. |
| Registration.Record | src/registration.rs:255-258 | What one recognised flag does to the parameters seen so far. Specified by `LastOccurrenceWins`, `TrailingFlagResets` and `ValueLooksLikeFlag`. |
| Registration.Scan | src/registration.rs:253-262 | The argument loop as a function. Specified by `ScanConcat`, `NonFlagsSkipped` and `UnrecognisedSkipped`. |
| Registration.Finish | src/registration.rs:263-277 | The checks after the loop. Specified by `FinishReportsFirstProblem` and `BadPortBeforeNoUuid`. |
| Registration.ParamsOf | src/registration.rs:244-279 | `from_args` as a function. `FromArgs` computes it, and `ParamsOfSuccess` and `FullCommandLine` specify it. |
| JsonText.ReadEscapedChar | src/socket.rs:214-219 | One character's escape reads back as that character (short escapes, `\u00XX`, plain characters). |
| JsonText.ReadEscape | src/socket.rs:214-219 | Reading an escaped string up to its closing quote gives back the string and leaves the following text untouched. |
| JsonText.EscapePlain | src/socket.rs:214-219 | Text without quotes, backslashes or control characters is written verbatim. |
| JsonText.EscapeExamples | src/socket.rs:214-219 | A quote is written as `\"` and a newline as `\n`. |
| JsonText.EscapeChar | src/socket.rs:214-219 | serde_json's escaping of one character. Specified by `ReadEscapedChar`. |
| JsonText.Escape | src/socket.rs:214-219 | serde_json's escaping of a string. Specified by `ReadEscape` (the reader inverts it) and `EscapePlain`. |
| Socket.SetPort | src/socket.rs:139-145 | Setting a port keeps the scheme and host, and the effective port becomes the one asked for. |
| Socket.AddressFromPortSpec | src/socket.rs:139-145 | The address of a port is `ws://localhost` with that effective port. Port 80, being the default, is stored as absent. |
| Socket.AddressFromPortInjective | src/socket.rs:139-145 | Distinct ports give distinct addresses. |
| Socket.AddressFromPort | src/socket.rs:139-145 | Specified by `AddressFromPortSpec` and `AddressFromPortInjective`. |
| Socket.InitialState | src/socket.rs:40-64 | The state `connect` builds. Specified by `SchemeChecked` (any other scheme is unsupported) and `WsConnects`. |
| Socket.WsConnects | src/socket.rs:47-57 | A `ws` address starts by connecting to that address. When every stage is ready, one poll connects, having sent only the registration frame. |
| Socket.RegistrationFrame | src/socket.rs:214-219 | The `Registration` struct as serde_json writes it. Specified by `RegistrationFrameRoundTrip`. |
| Socket.Advance | src/socket.rs:190-240 | One poll of `Connect`. Specified by `AdvanceConsistent`, `AdvanceShape` and `AdvanceErrors`, and computed by `Connect.Poll`. |
| Socket.RegistrationFrameRoundTrip | src/socket.rs:214-219 | The registration frame parses back to the event and uuid it was built from, however they are escaped. |
| Socket.AdvanceConsistent | src/socket.rs:190-240 | A poll keeps the connection consistent. It connects only once exactly one registration frame, for the given event and uuid, has been sent. |
| Socket.AdvanceShape | src/socket.rs:190-240 | A poll ends the future exactly when it is not `Pending`. Stages only move forward, and a pending poll stays in the first stage that was not ready. |
| Socket.AdvanceErrors | src/socket.rs:190-240 | Each stage fails with its own error and cause. An unsupported scheme fails with `UnsupportedScheme`. Connecting needs every remaining stage ready. |
| Socket.SchemeChecked | src/socket.rs:48-58 | Any scheme but `ws` fails on the first poll, sending nothing. |
| Socket.Connect.Poll | src/socket.rs:190-240 | One poll loops through the ready stages and returns the result and new state of `Advance`. It keeps the connection invariant, and when connected the only frame sent is the registration. |
| Socket.FirstSignificant | src/socket.rs:86-101 | It finds the first frame that is not skipped, and everything before it is a non-text frame. |
| Socket.NextItemSignificant | src/socket.rs:86-101 | The next item depends only on the first significant frame: a text frame is decoded, and `BadMessage` is returned when decoding fails. A closed socket ends the stream, a transport error is `WebSocketError`, and no frame yet is not ready. |
| Socket.OtherFramesSkipped | src/socket.rs:86-101 | Binary, ping and pong frames before the next frame do not change the result. |
| Socket.StartSendSpecProperties | src/socket.rs:112-119 | An unencodable item is `BadMessage` and nothing is sent. A full sink hands the item back. At most one frame goes out, and it goes out exactly when the item was sent, as its encoding. |
| Socket.NextItem | src/socket.rs:86-101 | One poll of the stream. Specified by `NextItemSignificant` and `OtherFramesSkipped`, and computed by `StreamDeckSocket.Poll`. |
| Socket.StartSendSpec | src/socket.rs:112-119 | `start_send`. Specified by `StartSendSpecProperties`, and computed by `StreamDeckSocket.StartSend`. |
| Socket.StreamDeckSocket.Poll | src/socket.rs:86-101 | Polling the stream returns `NextItem` and consumes exactly the frames it read. The outgoing side is unchanged. |
| Socket.StreamDeckSocket.StartSend | src/socket.rs:112-119 | Sending returns the result of `StartSendSpec` and appends exactly its frames to the outgoing side. The incoming side is unchanged. |
| Logging.ShortNamesDistinct | src/logging.rs:24 | Each level has its own four-letter short name. |
| Logging.ShortName | src/logging.rs:24 | `as_short_str`. Specified by `ShortNamesDistinct`. |
| Logging.Display | src/logging.rs:50-121 | How each emitter shows its value. Specified by `DisplayForms`. |
| Logging.DisplayForms | src/logging.rs:50-109 | `None` is shown as `None` and unit as `()`, and integers are shown in decimal with a sign when negative. |
| Logging.Serializer.EmitNone | src/logging.rs:50-53 | An absent value pushes `key: None`. |
| Logging.Serializer.EmitUnit | src/logging.rs:54-57 | A unit pushes `key: ()`. |
| Logging.Serializer.EmitBool | src/logging.rs:58-61 | A boolean pushes `key: true` or `key: false`. |
| Logging.Serializer.EmitChar | src/logging.rs:62-65 | A character pushes `key:` followed by a space and the character. |
| Logging.Serializer.EmitInt | src/logging.rs:66-97 | An integer of any width pushes `key:` followed by a space and its decimal display. |
| Logging.Serializer.EmitStr | src/logging.rs:114-117 | A string pushes `key:` followed by a space and the string. |
| Logging.Serializer.EmitArguments | src/logging.rs:118-121 | Formatted arguments push `key:` followed by a space and their text. |
| Logging.Serializer.Emit | src/logging.rs:50-121 | Each emitter pushes exactly one `key: value` string onto the stack. |
| Logging.Serializer.EmitAll | src/logging.rs:26-28 | Serialising a list of pairs pushes their strings in order. |
| Logging.Serializer.ReservedLength | src/logging.rs:30-31 | The fold computes the reserved room, which equals the length of what is appended (see `TrailerLength`). |
| Logging.Serializer.PopInto | src/logging.rs:32-34 | Popping appends the pairs last-pushed first, each after `, `, and empties the stack. |
| Logging.TrailerLength | src/logging.rs:30-34 | The reserved room is exactly the length the popped pairs add. |
| Logging.TrailerConcat | src/logging.rs:26-34 | The pairs pushed later come out first. |
| Logging.FormatLogShape | src/logging.rs:24-34 | The message starts with the short level name, a space and the record's message, and its length is that prefix plus the reserved room. |
| Logging.LoggerValuesFirst | src/logging.rs:26-34 | The logger's values appear before the record's own values in the message. |
| Logging.Trailer | src/logging.rs:32-34 | What popping writes. Specified by `TrailerLength` and `TrailerConcat`, and computed by `Serializer.PopInto`. |
| Logging.KvLen | src/logging.rs:30-31 | The reserved room. Specified by `TrailerLength`, and computed by `Serializer.ReservedLength`. |
| Logging.FormatLog | src/logging.rs:24-34 | The formatted message. Specified by `FormatLogShape`, `LoggerValuesFirst` and `FormatLogExample`. |
| Logging.FormatLogExample | src/logging.rs:24-34 | An info record `started` with `port = "28196"` becomes `INFO started, port: 28196`. |
| Logging.StreamDeckDrain.Log | src/logging.rs:23-42 | Each record sends exactly one `logMessage`, holding the formatted text. When the channel is closed it hands that message back as the error. |

## Left out

- JSON as text. The model works on JSON values, where objects are maps. Key order, duplicate keys, whitespace and number formatting are not modelled. serde_json's parsing of incoming frames is an abstract `decode` parameter of `StreamDeckSocket.Poll`, and its printing of outgoing messages is an abstract `encode` parameter of `StartSend`. The one frame whose text is modelled is the registration frame.
- Floating point. JSON numbers are integers only, so floats inside plugin settings are up to the plugin's codec. The `emit_f32` and `emit_f64` emitters are not modelled.
- serde details. serde also accepts a tagged struct written as a JSON array, and that form is not modelled. When several fields are bad, the derived deserialiser reports the first bad value in the order the keys appear in the input, and reports a missing field only after the whole object is read, checking fields in declaration order. The model has no key order, so it may report a different error than serde does. Unknown extra keys are ignored, as in the source.
- Generic settings. The plugin's `G`, `S` and `M` types are opaque codecs, and the round-trip lemmas assume each one is lawful.
- Messages.MessageRoundTrip: excludes a `DeviceDidConnect` whose `DeviceType` is an `Unknown` holding a documented code (0 to 7). Such a device type comes back as the documented device (`Codes.UnknownDocumentedCode`).
- Inspector: the `"event"` tag of the `RegistrationActionInfo` structs is written by the encoder and ignored by the decoder. The derived deserialiser does the same.
- The `RegistrationInfo` structs (`src/registration.rs:12-24`, `155-211`) are not modelled as records. Besides strings and integers they hold nested application and plugin records, a list of devices, each with a `DeviceSize` and an optional `DeviceType`, and six optional `Color` fields in `UserColors`. `FromArgs` reads the whole `-info` value through an abstract `parseInfo` parameter, which stands for all of them. The codecs of their parts are modelled on their own: `Language` and `Platform` in `Registration`, `Color` in `Colors`, `DeviceType` in `Codes`, and `DeviceSize` in `Payloads.DeviceSizeToJson` and `Payloads.DeviceSizeFromJson`.
- Registration: `ParseIntError` is modelled only by its kind (`IntErrorKind`).
- Colors: the source slices colour text at byte positions 1, 3, 5 and 7, and panics when a slice boundary falls inside a multi-byte character. The model works on the UTF-8 bytes and does not panic, so it reports an error instead. If the first character is multi-byte, `&value[0..1]` (`src/lib.rs:868`) panics, and the model reports `MissingHash` because byte 0 is not `#`. If a later boundary falls inside a character, the model reports `InvalidComponent` for that two-byte slice.
- Logging: the ten integer emitters (`emit_usize` to `emit_i64`) become one `EmitInt` over unbounded integers, because they differ only in the range of their argument.
- Logging: `emit_arguments` receives the already formatted text of its `fmt::Arguments`. The `Record`/`OwnedKVList` traversal by slog is modelled as two sequences of pairs.
- Logging: `KvLen`, `Serializer.ReservedLength` and `TrailerLength` count characters, whereas `b.len()` (`src/logging.rs:30`) counts UTF-8 bytes. For keys or values outside ASCII, the model's reserved room is therefore not the number Rust computes. The proved fact, that the reserved room equals the length of the appended pairs, holds in either unit. The reservation affects only capacity, never the message.
- Logging: the mutex around the channel, and its poisoning, are not modelled. Sending is modelled as appending to `sent` while the receiver is connected.
- Socket: the network is not modelled. This covers DNS, TCP, `set_nodelay`, the tokio and tungstenite futures and the WebSocket framing. Each poll is given the readiness of each stage (`Steps`). The queue of sent frames (`outbox`) and the frame sequences `incoming` and `outgoing` stand in for the transport.
- Socket: `Url::parse` and the URL crate's host handling are not modelled. A URL is its scheme, host and optional port. `From<Url>` for `Address` is the identity and needs no model.
- Socket: polling a `Connect` after it has finished panics in the source. This is a precondition of `Connect.Poll`.
- Socket: the web socket's upcoming poll outcomes are a finite sequence, `incoming`. Once it is used up, `NextItem` and `StreamDeckSocket.Poll` answer `NotYet`, as `Async::NotReady` would while nothing has arrived. A stream that ends does so only through an explicit `Closed` outcome.
- Socket: `poll_complete` only forwards to the WebSocket sink's flush, so it is not modelled.
- Socket: `src/socket.rs` writes `Message<S, MI>` and `MessageOut<S, MO>` with two type arguments, while `src/lib.rs` declares both enums with three (`G`, `S`, `M`). The model's stream and sink are generic in the item type and take its codec as a parameter, so the model does not depend on this mismatch.
- JsonText: the reader refuses `\u` escapes of UTF-16 surrogates rather than joining surrogate pairs. The writer never produces them.
