# Rapid's MLS client and Android media-session bridge, modelled in Dafny

This project models three stateful pieces of the Rapid client:

- **`MlsClient`** (Rust, compiled to WebAssembly). It is a session registry over an MLS (RFC 9420) engine. It holds one identity and a map from a local group id to a group session. Each operation does the following in order:
  - looks the group up;
  - decodes its base64/TLS inputs;
  - calls the engine;
  - updates the map or the group's epoch;
  - answers JavaScript with a `JsResult` envelope.

  The engine is abstract. A group is a record: the wire-level group id, the epoch, and whether a self-issued commit awaits merging. Engine steps that depend on secrets or randomness are passed to each operation as possibly failing results or functions. The deterministic engine parts form the client's `Codec`: TLS decoding and encoding, key-package validation and ratchet-tree export. A merge advancing the epoch by one is built into `Merged`. A failed merge is reported by the engine as a `MergeOutcome` that also carries the epoch and pending flag it leaves the group with, since the client code does not determine that state. UTF-8 is modelled exactly as Rust applies it: `as_bytes`, `String::from_utf8` with its error, and `String::from_utf8_lossy`. The lossy decoder turns each maximal ill-formed subpart into one U+FFFD.
- **`MediaSessionController`** (Android). It is a state machine over a nullable platform session. The session has metadata, a published playback state and an active flag. Alongside it sit the `currentPlaybackState` constant (NONE, PAUSED or PLAYING), the browse catalog, and a transport-action listener. Listener calls are recorded in order.
- **`MediaSessionBridgePlugin`** (Capacitor). It reads call arguments with defaults and forwards them to the controller. It filters untrusted catalog entries, and turns transport actions into "transportControl" notifications.

Files:
- `wrappers.dfy`: Option, Result and Outcome.
- `utf8.dfy`: UTF-8.
- `mls_types.dfy`: the envelope, the records, base64 text and the abstract engine.
- `mls_client.dfy`: the client.
- `media_session.dfy`: the controller.
- `media_bridge.dfy`: the plugin.

Where the code and the documented design differ, the model follows the code:
- Every failure of an `MlsClient` method is a thrown JavaScript error (`Err(JsValue)`), not an envelope with `ok = false`. `JsResult::err` is never used. A call's outcome is therefore `JsReturn<T>`: a thrown message, or an envelope.
- `add_members` is not atomic:
  - It merges its commit before serialising the commit and the welcome. A serialisation failure is reported after the epoch has advanced.
  - A failed merge is reported as "Failed to merge commit: …". The group keeps its wire-level id, and its epoch and pending flag are whatever the engine leaves.
  - Only failures up to and including the engine's `add_members` call leave the registry as it was.
- `join_group` overwrites an existing entry that has the same local id, so that entry's epoch can go down.
- `encrypt` takes text and encrypts its UTF-8 bytes. It does not take arbitrary bytes.
- `decrypt` always reports sender index 0.
- There is no import operation.

## Model

| member | source | states |
|---|---|---|
| MlsTypes.JsOk | packages/mls-wasm/src/lib.rs:35-41 | the envelope is `ok`, carries the value and no error, and is consistent: `ok` holds exactly when a value is present |
| MlsTypes.JsErr | packages/mls-wasm/src/lib.rs:43-49 | the envelope is not `ok`, carries the error and no value, and `ok` holds exactly when a value is present |
| MlsTypes.Base64Decode | packages/mls-wasm/src/lib.rs:333-334 | base64 decoding succeeds exactly on the encoding of some bytes and then yields those bytes |
| MlsTypes.Merged | packages/mls-wasm/src/lib.rs:276-278 | merging a commit keeps the wire-level group id, advances the epoch by exactly one and leaves no commit pending |
| MlsTypes.AfterMerge | packages/mls-wasm/src/lib.rs:276-278 | after any merge the group keeps its wire-level id; a successful merge is `Merged`, a failed one leaves the epoch and pending flag the engine reports |
| MlsTypes.AsProtocolMessage | packages/mls-wasm/src/lib.rs:339-340 | only public and private messages are protocol messages, each becoming the protocol message of the same kind and content; welcomes, group infos and key packages are refused with "WrongWireFormat" |
| MlsWasm.NewClient | packages/mls-wasm/src/lib.rs:122-146 | a client exists exactly when key generation and key storage both succeed; the first failure gives its message; a new client has an empty registry and the user id's UTF-8 bytes as credential |
| MlsWasm.MlsClient.constructor | packages/mls-wasm/src/lib.rs:140-145 | the client starts with the given identity and no groups, and satisfies the registry invariant |
| MlsWasm.MlsClient.GenerateKeyPackages | packages/mls-wasm/src/lib.rs:150-181 | success exactly when every one of the `count` iterations builds; then exactly `count` entries, entry i carrying iteration i's hash reference and bytes; otherwise the message of the first failing iteration; the registry is not touched |
| MlsWasm.MlsClient.CreateGroup | packages/mls-wasm/src/lib.rs:185-210 | on success the registry gains the fresh id, mapped to a group at epoch 0 whose wire id is that id's UTF-8 bytes; all other entries are unchanged; the size grows by one for a fresh id; on engine failure nothing changes |
| MlsWasm.WelcomeOf | packages/mls-wasm/src/lib.rs:215-224 | a welcome input is accepted exactly when it is base64 of a TLS message whose body is a Welcome, and yields that Welcome; otherwise the first failing step is reported: "Invalid base64 welcome: …", then "Failed to deserialize welcome: …", then "Message is not a Welcome" |
| MlsWasm.MlsClient.JoinGroup | packages/mls-wasm/src/lib.rs:214-250 | bad base64, bad TLS, a non-Welcome message or an engine failure leave the registry unchanged with the step's message; success stores the group under the lossy UTF-8 text of its wire id, overwriting any entry there, and the invariant is kept |
| MlsWasm.JoinerSeesCreatorId | packages/mls-wasm/src/lib.rs:239 | the local id a joiner derives from a group made by `create_group` equals the creator's local id |
| MlsWasm.LossyLocalIdsCanCollide | packages/mls-wasm/src/lib.rs:239-242 | two different non-UTF-8 wire ids map to the same local id, so a second join overwrites the first |
| MlsWasm.ValidatedAllOrNothing | packages/mls-wasm/src/lib.rs:258-267 | a key-package list validates exactly when every element does, and then yields one validated package per input, in order |
| MlsWasm.ValidatedFirstFailure | packages/mls-wasm/src/lib.rs:259-266 | when validation fails, the reported error is that of the first failing key package |
| MlsWasm.MlsClient.DecodeKeyPackages | packages/mls-wasm/src/lib.rs:258-267 | the decoding loop produces exactly the all-or-nothing validated list, or the first element's error |
| MlsWasm.MlsClient.AddMembers | packages/mls-wasm/src/lib.rs:254-299 | an unknown group gives "Group not found" with nothing changed. Invalid key packages or an engine failure leave the registry unchanged. A failed merge answers "Failed to merge commit: …" and leaves that group, with its wire-level id, in the state the engine reports. After a successful merge the group is exactly one epoch on and the reply is decided by serialisation. On success only that group changes, and it advances exactly once |
| MlsWasm.AddMembersReply | packages/mls-wasm/src/lib.rs:280-296 | the reply exists exactly when the commit and the welcome both serialise; a failing commit is reported first as "Failed to serialize commit: …", and a failing welcome after a serialised commit as "Failed to serialize welcome: …"; the reply's commit decodes to the serialised commit, and it has exactly one welcome, tagged "all", which decodes to the serialised welcome |
| MlsWasm.MlsClient.Encrypt | packages/mls-wasm/src/lib.rs:303-325 | an unknown group fails with "Group not found"; the engine is given the plaintext's UTF-8 bytes; the reply's ciphertext decodes to the serialised frame, and its epoch is the group's current epoch |
| MlsWasm.InboundMessage | packages/mls-wasm/src/lib.rs:333-340 | an inbound text is accepted exactly when it is base64 of a TLS message that is a public or private protocol message, and yields that protocol message; otherwise the first failing step is reported: "Invalid base64 ciphertext: …", then "Failed to deserialize message: …", then "Not a protocol message: …" |
| MlsWasm.MlsClient.Decrypt | packages/mls-wasm/src/lib.rs:329-378 | an unknown group is rejected before any decoding. An application message gives its text with sender 0, or the UTF-8 error. A proposal and an external-join proposal each give their own error. A staged commit is merged: a successful merge moves the group exactly one epoch on and answers `ok` with neither value nor error, a failed one answers "Failed to merge commit: …" and leaves the group in the state the engine reports. Only a staged commit changes the registry |
| MlsWasm.ApplicationReply | packages/mls-wasm/src/lib.rs:346-355 | the reply exists exactly when the bytes are UTF-8; its text re-encodes to exactly those bytes and its sender index is 0; otherwise Rust's UTF-8 error text is reported |
| MlsWasm.MlsClient.GetEpoch | packages/mls-wasm/src/lib.rs:382-386 | succeeds exactly for a registered id, and then gives that group's epoch; otherwise "Group not found" |
| MlsWasm.MlsClient.ExportState | packages/mls-wasm/src/lib.rs:393-419 | success exactly when every group's tree exports; then the identity's credential and key, and one entry per registry entry with the map key as id, no id twice, each carrying that group's wire id and exported tree; otherwise some group's export error; the registry is not touched |
| MlsWasm.CreateThenAddScenario | packages/mls-wasm/src/lib.rs:276-278 | a new group reads epoch 0; after a successful addition it reads 1, also when the call then fails to serialise; after a rejected key package it still reads 0 |
| Utf8.DecodeEncode | packages/mls-wasm/src/lib.rs:347-348 | strict decoding of a string's UTF-8 encoding gives the string back |
| Utf8.EncodeDecode | packages/mls-wasm/src/lib.rs:347-348 | any bytes that decode strictly are exactly the encoding of the decoded text |
| Utf8.ErrorIsFirstFault | packages/mls-wasm/src/lib.rs:347-348 | a strict decoding error points inside the input, its invalid sequence fits in the input, and everything before it decodes |
| Utf8.DecodeLossyEncode | packages/mls-wasm/src/lib.rs:239 | lossy decoding of a string's UTF-8 encoding gives the string back |
| Utf8.DecodeLossyAgrees | packages/mls-wasm/src/lib.rs:239 | on well-formed input, lossy decoding agrees with strict decoding |
| MediaSession.Published | packages/client/android/app/src/main/java/com/tearleads/rapid/MediaSessionController.java:264-285 | the published state is PLAYING exactly when playing and PAUSED otherwise; the position is `max(positionMs, 0)`; the transport actions are advertised; the position advances exactly when playing |
| MediaSession.BuildMetadata | packages/client/android/app/src/main/java/com/tearleads/rapid/MediaSessionController.java:129-143 | the title is always set; artist and album are set exactly when not blank, duration exactly when positive, and each set value is the given one |
| MediaSession.TrackItem | packages/client/android/app/src/main/java/com/tearleads/rapid/MediaSessionController.java:172-184 | a track's item is playable, copies id and title, and has a subtitle (description) exactly when the artist (album) is not blank, equal to it |
| MediaSession.EventFor | packages/client/android/app/src/main/java/com/tearleads/rapid/MediaSessionController.java:213-246 | play gives "play", pause "pause", skip-to-next "next", skip-to-previous "previous", stop "stop", each without arguments; seek gives "seekTo" with its position, play-from-media-id "play" with its media id; "play" comes from exactly those two callbacks, a position only from seek and a media id only from play-from-media-id |
| MediaSession.EventForDistinguishes | packages/client/android/app/src/main/java/com/tearleads/rapid/MediaSessionController.java:213-236 | the five argument-less callbacks emit pairwise different events |
| MediaSession.MediaSessionController.constructor | packages/client/android/app/src/main/java/com/tearleads/rapid/MediaSessionController.java:61-68 | no session, state NONE, no listener, empty catalog |
| MediaSession.MediaSessionController.Initialize | packages/client/android/app/src/main/java/com/tearleads/rapid/MediaSessionController.java:77-102 | with a session, nothing changes; otherwise an active session with PAUSED published at position 0 and no metadata; listener and catalog untouched |
| MediaSession.MediaSessionController.SetTransportActionListener | packages/client/android/app/src/main/java/com/tearleads/rapid/MediaSessionController.java:104-108 | the listener becomes the given one (possibly none); nothing else changes |
| MediaSession.MediaSessionController.PublishPlaybackState | packages/client/android/app/src/main/java/com/tearleads/rapid/MediaSessionController.java:264-286 | without a session nothing changes; otherwise the state constant and the published state both become PLAYING/PAUSED at the clamped position, and the session is active with metadata kept; the invariant holds |
| MediaSession.MediaSessionController.UpdatePlaybackState | packages/client/android/app/src/main/java/com/tearleads/rapid/MediaSessionController.java:115-117 | the same effect as publishing the given state |
| MediaSession.MediaSessionController.UpdateMetadata | packages/client/android/app/src/main/java/com/tearleads/rapid/MediaSessionController.java:119-146 | without a session nothing changes; otherwise the built metadata replaces the old, the session is active, and the playback state is kept |
| MediaSession.MediaSessionController.UpdateCatalogTracks | packages/client/android/app/src/main/java/com/tearleads/rapid/MediaSessionController.java:148-151 | the catalog equals the given list, element for element and in order; nothing else changes |
| MediaSession.MediaSessionController.LoadChildren | packages/client/android/app/src/main/java/com/tearleads/rapid/MediaSessionController.java:153-188 | the root gives exactly the browsable "Tracks" folder; the folder gives one item per catalog track, in catalog order; any other id gives nothing; nothing is modified |
| MediaSession.MediaSessionController.ClearMetadata | packages/client/android/app/src/main/java/com/tearleads/rapid/MediaSessionController.java:190-209 | without a session nothing changes; otherwise no metadata, NONE published at position 0 with the transport actions, session inactive; catalog and listener untouched |
| MediaSession.MediaSessionController.EmitTransportAction | packages/client/android/app/src/main/java/com/tearleads/rapid/MediaSessionController.java:288-296 | without a listener nothing is delivered; with one, exactly one delivery of the event is appended |
| MediaSession.MediaSessionController.OnTransportControl | packages/client/android/app/src/main/java/com/tearleads/rapid/MediaSessionController.java:213-246 | each transport callback delivers its mapped event to the listener, if any |
| MediaSession.MediaSessionController.OnMediaButtonEvent | packages/client/android/app/src/main/java/com/tearleads/rapid/MediaSessionController.java:248-260 | a play/pause key-down is handled and emits "togglePlayPause"; any other event (including none) gets the platform default's answer and dispatch |
| MediaSession.TransportControlsScenario | packages/client/android/app/src/androidTest/java/com/tearleads/app/MediaSessionControllerInstrumentedTest.java:47-84 | the seven transport controls reach the listener as the seven expected events, in order |
| MediaSession.CatalogAndPlaybackScenario | packages/client/android/app/src/androidTest/java/com/tearleads/app/MediaSessionControllerInstrumentedTest.java:86-162 | browsing gives the folder and the two tracks as asserted; metadata and PLAYING at 4567 are published; clearing removes metadata and publishes NONE |
| MediaBridge.TrackOf | packages/client/android/app/src/main/java/com/tearleads/rapid/MediaSessionBridgePlugin.java:78-95 | a kept entry's fields are copied; missing artist and album become "", a missing duration 0 |
| MediaBridge.KeptTracksAppend | packages/client/android/app/src/main/java/com/tearleads/rapid/MediaSessionBridgePlugin.java:72-97 | filtering distributes over concatenation, so kept entries keep their relative order |
| MediaBridge.KeptTracksMembers | packages/client/android/app/src/main/java/com/tearleads/rapid/MediaSessionBridgePlugin.java:72-97 | a track is in the catalog exactly when some kept entry (an object with non-blank id and title) stands for it |
| MediaBridge.KeptTracksWellFormed | packages/client/android/app/src/main/java/com/tearleads/rapid/MediaSessionBridgePlugin.java:78-82 | every catalog track has a non-blank id and title, and there are no more tracks than entries |
| MediaBridge.TransportPayload | packages/client/android/app/src/main/java/com/tearleads/rapid/MediaSessionBridgePlugin.java:107-114 | the payload always has "action", has "positionMs" and "mediaId" exactly when given, and has no other key |
| MediaBridge.PayloadDetermined | packages/client/android/app/src/main/java/com/tearleads/rapid/MediaSessionBridgePlugin.java:107-114 | that description fixes the payload: two payloads for the same arguments are equal |
| MediaBridge.MediaSessionBridgePlugin.constructor | packages/client/android/app/src/main/java/com/tearleads/rapid/MediaSessionBridgePlugin.java:15-16 | a new plugin has no controller and has sent nothing |
| MediaBridge.MediaSessionBridgePlugin.Load | packages/client/android/app/src/main/java/com/tearleads/rapid/MediaSessionBridgePlugin.java:19-26 | the plugin holds the controller, which is initialized and has this plugin's listener |
| MediaBridge.MediaSessionBridgePlugin.UpdatePlaybackState | packages/client/android/app/src/main/java/com/tearleads/rapid/MediaSessionBridgePlugin.java:29-37 | with a controller, its state is what publishing gives for `isPlaying` (default false) and `positionMs` (default 0) |
| MediaBridge.MediaSessionBridgePlugin.UpdateMetadata | packages/client/android/app/src/main/java/com/tearleads/rapid/MediaSessionBridgePlugin.java:40-51 | with a controller, its metadata is built from the arguments with "" and 0 as defaults |
| MediaBridge.MediaSessionBridgePlugin.ClearMetadata | packages/client/android/app/src/main/java/com/tearleads/rapid/MediaSessionBridgePlugin.java:54-60 | with a controller, its metadata is cleared as `clearMetadata` does |
| MediaBridge.MediaSessionBridgePlugin.UpdateCatalog | packages/client/android/app/src/main/java/com/tearleads/rapid/MediaSessionBridgePlugin.java:63-100 | without a controller nothing changes; otherwise the catalog becomes exactly the kept entries, or empty when `tracks` is missing, and nothing else in the controller changes |
| MediaBridge.MediaSessionBridgePlugin.EmitTransportAction | packages/client/android/app/src/main/java/com/tearleads/rapid/MediaSessionBridgePlugin.java:102-116 | exactly one retained "transportControl" notification is appended, whose payload matches the arguments |
| MediaBridge.MediaSessionBridgePlugin.RelayTransportControl | packages/client/android/app/src/main/java/com/tearleads/rapid/MediaSessionBridgePlugin.java:23-25 | a transport callback reaches the plugin as one notification exactly while the plugin's listener is registered |
| MediaBridge.MediaSessionBridgePlugin.HandleOnDestroy | packages/client/android/app/src/main/java/com/tearleads/rapid/MediaSessionBridgePlugin.java:119-123 | with a controller, its listener is cleared and nothing else changes |
| MediaBridge.MediaSessionBridgePlugin.RelayMediaButton | packages/client/android/app/src/main/java/com/tearleads/rapid/MediaSessionController.java:249-259 | a play/pause key-down is handled and, while the plugin's listener is registered, reaches JavaScript as one "togglePlayPause" notification; any other key event gets the platform default's answer, and the callback it dispatches (if any) is relayed as its event |
| MediaBridge.DestroyedPluginHearsNothing | packages/client/android/app/src/main/java/com/tearleads/rapid/MediaSessionBridgePlugin.java:119-123 | before destruction a transport action is relayed once; after it, actions are dropped and nothing is delivered |
| MediaBridge.MediaButtonReachesPlugin | packages/client/android/app/src/main/java/com/tearleads/rapid/MediaSessionController.java:251-257 | on a loaded plugin a play/pause key-down is handled, delivered once to the listener as "togglePlayPause", and notified to JavaScript once with that action |

## Left out

- Cryptography and randomness are not modelled. This covers signature key generation, key-package building, group creation, staging a welcome, adding members, message creation and processing, and merges. Each such step is a possibly failing parameter of the operation that makes it.
- TLS encoding and decoding, key-package validation, hashing and ratchet-tree export are the opaque, possibly failing functions of `Codec`.
- Base64 (RFC 4648) is not modelled: a text is either the encoding of some bytes or malformed, with the decoder's reason.
- `serde_wasm_bindgen::to_value` is assumed to succeed, so its "Serialization error" path is not modelled. It is marshalling plumbing.
- The engine's error texts are opaque strings, including the `{:?}` renderings used for invalid key packages and wrong wire formats.
- `uuid::Uuid::new_v4` is not modelled: `create_group` takes the fresh id as a parameter, and its text format is not modelled.
- The `init` panic hook is not modelled.
- MlsWasm.MlsClient.Encrypt: the engine's per-message ratchet step inside the group is not modelled. The group record (wire id, epoch, pending commit) is unchanged by encryption, and so is the registry.
- MlsWasm.MlsClient.Decrypt: the engine's ratchet and proposal-store updates during `process_message` are not modelled. Only the merge of a staged commit changes the group record.
- Epochs and the sender index are unbounded naturals. Rust's `u64` and `u32` cannot overflow here in practice.
- The `HashMap` visiting order in `export_state` is left unspecified: any order may be chosen, and when several groups fail to export, any one of their errors may be reported.
- The platform calls `MediaSessionCompat` makes on creation (flags, local playback stream, media-button `PendingIntent`, callback registration) are not modelled, and neither is `getSessionToken`. They are framework plumbing.
- `SystemClock.elapsedRealtime` timestamps are dropped. The float playback speed becomes the boolean `advancing`.
- `synchronized` locking and the `getInstance` singleton are not modelled: the plugin is handed the controller instance.
- MediaSession.MediaSessionController.OnMediaButtonEvent: `super.onMediaButtonEvent` is the platform's default handling. It is given as parameters: the callback it dispatches (if any) and its answer.
- `PluginCall.resolve` and the Capacitor argument accessors are not modelled. Each argument arrives as the value the accessor extracts, or none where it falls back to its default.
- JSON access is not modelled: each `tracks` element arrives as an object with its fields as `optString`/`optLong` read them, or as "not an object". `optString`'s coercion of non-strings (JSON null reads as "null") is assumed already applied.
- `TearleadsMediaBrowserService.java` and `MainActivity.java` are not part of this model. They only forward calls and set up the UI.
- The instrumented test's timing (latches, polling with a deadline) is not modelled. Its two scenarios appear as the two scenario methods.
- Java strings are UTF-16. Here they are sequences of Unicode scalar values, and `isBlank` is checked per character with `Character.isWhitespace`.
