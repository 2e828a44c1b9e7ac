# MultiPeer session controller, modelled in Dafny

This project models the networking core of the MultiPlayer ARKit sandbox. The core has three parts:

- **The session controller `MultiPeerHandler`.** It keeps the list of known players (`peers`) and gates and sends game actions or raw data to the connected peers. It classifies incoming bytes as an `ARWorldMap`, a `GameAction` or a `PositionGameAction`, and it fans peer state changes out to its delegate and closures.
- **The message model.** This covers the `GameAction` and `PositionGameAction` structs, the `Action` enum with its `description`, and `Player`, whose equality and hash come from the peer ID alone.
- **The bit-stream codec.** These are the `BitStreamCodable` conformances of `float3`, `float4`, `float4x4` and `String`.

Modules, one for each source file or collaborator:

| module | file | models |
|---|---|---|
| `Wrappers`, `FoundationData` | wrappers.dfy | Option and Result, `Data` as bytes, `Float` as a 32-bit pattern, `Error` |
| `Utf8` | utf8.dfy | UTF-8 as defined by RFC 3629, for `String`'s conversion to and from `Data`, with a round trip in both directions (but see the byte-order mark under "Left out") |
| `Players` | players.dfy | Player.swift |
| `GameActions`, `Actions` | game_actions.dfy, actions.dfy | the action structs of GameCommand.swift; Action.swift |
| `BitStreams` | bitstreams.dfy | the primitive readable and writable streams, as sequences of items |
| `GameCommand` | game_command.dfy | the `BitStreamCodable` encoders and decoders, as methods on stream objects, and their round trips |
| `JsonCoding` | json_coding.dfy | the synthesized `Codable` keyed containers of the two action structs over an abstract JSON text layer |
| `MultiPeer` | multipeer.dfy | the `MultiPeerHandler` class, plus the pure functions that specify its methods |
| `MultiPeerProperties` | multipeer_properties.dfy | properties across operations: the peer list over a run of events, and send followed by receive |

The handler is a class with these parts:
- **Fields.** It has the source's fields that the modelled methods read or write. MultipeerConnectivity's session is represented by `connectedPeers` and by the log `sent` of payloads it accepted. Every delegate call, closure call and `send` result callback is appended to `notifications`.
- **Methods.** Each method's postcondition gives its whole new state in terms of the old state and a pure function: `Upsert`, `ReceiveNotifications`, `StateNotifications` or `PlanSend`. The properties are proved about those functions.

Inputs that come from outside the program are parameters:
- the device name, through the local peer ID;
- the error a session send throws;
- the JSON text layer and `NSKeyedUnarchiver`, as partial functions in `Codecs`.

Where the JSON text layer's correctness is needed, it is a stated hypothesis (`JsonCoding.Lawful`: text the encoder wrote parses back).

Four behaviours of the code are easy to misread; the model follows the code:
- **Peer state changes.** Every state change appends the peer; it is not an upsert on connect.
- **Sending with no connected peers.** This silently does nothing and never calls the callback; it does not report a transport error.
- **Classification order.** A world map is tried first, then `GameAction`, then `PositionGameAction`.
- **Unrecognized data.** Data that matches nothing still registers its sender, because `receive` updates `peers` before it classifies.

## Model

| member | source | states |
|---|---|---|
| `Players.FromPeer` | MultiPlayersandbox/MultipeerComponnent/Models/Player.swift:19-26 | `init(peerID:)` keeps the peer ID and copies its hash; `username` is the peer ID's display name |
| `Players.FromUsername` | MultiPlayersandbox/MultipeerComponnent/Models/Player.swift:28-31 | `init(username:)` gives a player whose `username` is the given name, for a name of 1 to 63 UTF-8 bytes (what `MCPeerID` accepts) |
| `Players.Player.Username` | MultiPlayersandbox/MultipeerComponnent/Models/Player.swift:21 | `username` is read from the peer ID each time and is not stored, so it cannot differ from the peer ID's display name |
| `Players.Same` | MultiPlayersandbox/MultipeerComponnent/Models/Player.swift:15-17 | `==` compares peer IDs only. Players that are `==` have the same `username`, and two `==` players built by an initialiser are the same value |
| `Players.SameIsEquivalence` | MultiPlayersandbox/MultipeerComponnent/Models/Player.swift:15-17 | `==` on players is reflexive, symmetric and transitive |
| `Players.SameImpliesEqualHash` | MultiPlayersandbox/MultipeerComponnent/Models/Player.swift:19-31 | players that are `==` have equal `hashValue`s |
| `Players.FromPeerSame` | MultiPlayersandbox/MultipeerComponnent/Models/Player.swift:15-26 | players built from peer IDs are `==` exactly when the peer IDs are equal |
| `Actions.Action.Description` | MultiPlayersandbox/MultipeerComponnent/Models/Action.swift:26-31 | `description` ends with the wrapped action's identifier, after a non-empty prefix |
| `Actions.DescriptionShape` | MultiPlayersandbox/MultipeerComponnent/Models/Action.swift:26-31 | `description` is "game action " or "position action " followed by the identifier, for each of the two cases |
| `Actions.DescriptionIgnoresCoordinates` | MultiPlayersandbox/MultipeerComponnent/Models/Action.swift:29 | a position action's description depends only on its identifier, not on x, y or z |
| `Actions.DescriptionsOfCasesDiffer` | MultiPlayersandbox/MultipeerComponnent/Models/Action.swift:28-29 | a game action and a position action never share a description, whatever their identifiers |
| `Actions.DescriptionDetermines` | MultiPlayersandbox/MultipeerComponnent/Models/Action.swift:26-31 | equal descriptions mean the same case and the same identifier |
| `Utf8.Encode` | MultiPlayersandbox/MultipeerComponnent/Models/GameCommand.swift:96 | `data(using: .utf8)` gives between one and four bytes per character of the string |
| `Utf8.Decode` | MultiPlayersandbox/MultipeerComponnent/Models/GameCommand.swift:88 | `String(data:encoding: .utf8)` yields at least one character for every four bytes and never more characters than bytes |
| `Utf8.DecodeEncode` | MultiPlayersandbox/MultipeerComponnent/Models/GameCommand.swift:86-101 | every string survives UTF-8 encoding then decoding |
| `Utf8.EncodeDecode` | MultiPlayersandbox/MultipeerComponnent/Models/GameCommand.swift:88 | bytes that decode are exactly the encoding of the decoded string |
| `Utf8.DecodeSucceedsExactlyOnEncodings` | MultiPlayersandbox/MultipeerComponnent/Models/GameCommand.swift:88-92 | `String(data:encoding: .utf8)` accepts exactly the byte strings that are UTF-8 encodings of some string |
| `BitStreams.ReadFloatAt` | MultiPlayersandbox/MultipeerComponnent/Models/GameCommand.swift:38 | `readFloat` succeeds exactly on a float item, returns the float written there and consumes exactly that item; a failed read consumes nothing and reports `Underflow` at the end of the stream, `KindMismatch` otherwise |
| `BitStreams.ReadDataAt` | MultiPlayersandbox/MultipeerComponnent/Models/GameCommand.swift:87 | `readData` succeeds exactly on a data block, returns the bytes written there and consumes exactly that block; a failed read consumes nothing and reports `Underflow` or `KindMismatch` |
| `BitStreams.WritableBitStream.AppendFloat` | MultiPlayersandbox/MultipeerComponnent/Models/GameCommand.swift:45 | `appendFloat` adds one float item at the end of the stream |
| `BitStreams.WritableBitStream.Append` | MultiPlayersandbox/MultipeerComponnent/Models/GameCommand.swift:97 | `append(data)` adds one data block at the end of the stream |
| `BitStreams.ReadableBitStream.ReadFloat` | MultiPlayersandbox/MultipeerComponnent/Models/GameCommand.swift:38 | the stream method returns what `ReadFloatAt` says and advances the position accordingly |
| `BitStreams.ReadableBitStream.ReadData` | MultiPlayersandbox/MultipeerComponnent/Models/GameCommand.swift:87 | the stream method returns what `ReadDataAt` says and advances the position accordingly |
| `GameCommand.Float4x4Layout` | MultiPlayersandbox/MultipeerComponnent/Models/GameCommand.swift:77-82 | a matrix is written as 16 floats in column-major order: item 4i+j is component j of column i |
| `GameCommand.EncodeFloat3` | MultiPlayersandbox/MultipeerComponnent/Models/GameCommand.swift:44-48 | appends x, y, z in that order and nothing else |
| `GameCommand.EncodeFloat4` | MultiPlayersandbox/MultipeerComponnent/Models/GameCommand.swift:60-65 | appends x, y, z, w in that order and nothing else |
| `GameCommand.EncodeFloat4x4` | MultiPlayersandbox/MultipeerComponnent/Models/GameCommand.swift:77-82 | appends columns 0 to 3, each as a `float4` |
| `GameCommand.EncodeString` | MultiPlayersandbox/MultipeerComponnent/Models/GameCommand.swift:95-101 | appends the string's UTF-8 bytes as one data block |
| `GameCommand.DecodeFloat3` | MultiPlayersandbox/MultipeerComponnent/Models/GameCommand.swift:37-42 | reads x, y, z in order; the first failing read ends the decode with its error |
| `GameCommand.DecodeFloat4` | MultiPlayersandbox/MultipeerComponnent/Models/GameCommand.swift:52-58 | reads x, y, z, w in order; the first failing read ends the decode with its error |
| `GameCommand.DecodeFloat4x4` | MultiPlayersandbox/MultipeerComponnent/Models/GameCommand.swift:69-75 | reads columns 0 to 3 as `float4`s; the first failing column ends the decode |
| `GameCommand.DecodeString` | MultiPlayersandbox/MultipeerComponnent/Models/GameCommand.swift:86-93 | reads one data block; bytes that are not UTF-8 give `encodingError` |
| `GameCommand.ReadFloat3Exact` | MultiPlayersandbox/MultipeerComponnent/Models/GameCommand.swift:37-42 | decoding a `float3` succeeds exactly when three floats follow, and yields them in order |
| `GameCommand.ReadFloat4Exact` | MultiPlayersandbox/MultipeerComponnent/Models/GameCommand.swift:52-58 | decoding a `float4` succeeds exactly when four floats follow, and yields them in order |
| `GameCommand.ReadFloat4x4Exact` | MultiPlayersandbox/MultipeerComponnent/Models/GameCommand.swift:69-75 | decoding a matrix succeeds exactly when 16 floats follow, so a failing column fails the whole decode and no partial matrix exists; on success the columns are the floats in column-major order |
| `GameCommand.ReadStringExact` | MultiPlayersandbox/MultipeerComponnent/Models/GameCommand.swift:86-93 | decoding text fails with `encodingError` exactly when the next data block is not UTF-8, and succeeds exactly when it is |
| `GameCommand.Float3RoundTrip` | MultiPlayersandbox/MultipeerComponnent/Models/GameCommand.swift:37-48 | a `float3` written anywhere in a stream reads back equal and consumes three items |
| `GameCommand.Float4RoundTrip` | MultiPlayersandbox/MultipeerComponnent/Models/GameCommand.swift:52-65 | a `float4` written anywhere in a stream reads back equal and consumes four items |
| `GameCommand.Float4x4RoundTrip` | MultiPlayersandbox/MultipeerComponnent/Models/GameCommand.swift:69-82 | a matrix written anywhere in a stream reads back equal, column by column |
| `GameCommand.StringRoundTrip` | MultiPlayersandbox/MultipeerComponnent/Models/GameCommand.swift:86-101 | a string written anywhere in a stream reads back equal |
| `GameCommand.Float4x4ThroughStreams` | MultiPlayersandbox/MultipeerComponnent/Models/GameCommand.swift:69-82 | encoding a matrix into a fresh stream and decoding it gives the matrix back |
| `GameCommand.StringThroughStreams` | MultiPlayersandbox/MultipeerComponnent/Models/GameCommand.swift:86-101 | encoding a string into a fresh stream and decoding it gives the string back |
| `JsonCoding.EncodeGameAction` | MultiPlayersandbox/MultipeerComponnent/Networking/MultiPeerHandler.swift:155 | `JSONEncoder().encode` of a `GameAction` writes text holding exactly the key `identifier` with its value |
| `JsonCoding.EncodePosition` | MultiPlayersandbox/MultipeerComponnent/Networking/MultiPeerHandler.swift:163 | `JSONEncoder().encode` of a `PositionGameAction` writes text holding exactly the keys `identifier`, `x`, `y` and `z` with their values |
| `JsonCoding.DecodeGameAction` | MultiPlayersandbox/MultipeerComponnent/Networking/MultiPeerHandler.swift:316 | `JSONDecoder().decode(GameAction.self, ...)` succeeds exactly when the text parses to an object with a string under `identifier`, whatever other keys it holds, and yields that string |
| `JsonCoding.DecodePosition` | MultiPlayersandbox/MultipeerComponnent/Networking/MultiPeerHandler.swift:318 | `JSONDecoder().decode(PositionGameAction.self, ...)` succeeds exactly when the object has a string `identifier` and numbers `x`, `y` and `z`, and yields those fields |
| `JsonCoding.GameActionRoundTrip` | MultiPlayersandbox/MultipeerComponnent/Models/GameCommand.swift:16-18 | the JSON of a `GameAction` decodes to it |
| `JsonCoding.PositionRoundTrip` | MultiPlayersandbox/MultipeerComponnent/Models/GameCommand.swift:20-25 | the JSON of a `PositionGameAction` decodes to it |
| `JsonCoding.GameActionIsNoPosition` | MultiPlayersandbox/MultipeerComponnent/Models/GameCommand.swift:16-25 | the JSON of a `GameAction` never decodes as a `PositionGameAction` |
| `JsonCoding.PositionIsAlsoGameAction` | MultiPlayersandbox/MultipeerComponnent/Models/GameCommand.swift:16-25 | the JSON of a `PositionGameAction` also decodes as the `GameAction` with the same identifier |
| `MultiPeer.Upsert` | MultiPlayersandbox/MultipeerComponnent/Networking/MultiPeerHandler.swift:291-292 | after `receive` the sender is in `peers`; a known sender leaves `peers` unchanged, and a new one is appended once at the end |
| `MultiPeer.UpsertKeepsNoDuplicates` | MultiPlayersandbox/MultipeerComponnent/Networking/MultiPeerHandler.swift:292 | if `peers` had no duplicates before a `receive`, it has none after |
| `MultiPeer.LoadWorldMap` | MultiPlayersandbox/MultipeerComponnent/Networking/MultiPeerHandler.swift:274-285 | reports `.success` with the unarchived map exactly when the data unarchives as a world map, and `.error` otherwise |
| `MultiPeer.TransformDataToGameAction` | MultiPlayersandbox/MultipeerComponnent/Networking/MultiPeerHandler.swift:313-323 | `GameAction` is tried before `PositionGameAction` and the first successful decode wins: a successful `GameAction` decode is returned; otherwise a successful position decode is returned; a position is returned only when the `GameAction` decode failed; the result is nil exactly when both decodes fail |
| `MultiPeer.ReceiveNotifications` | MultiPlayersandbox/MultipeerComponnent/Networking/MultiPeerHandler.swift:294-309 | at most one delegate call: `onWorldMapReceived` if the data is a world map; otherwise `onDidReceive` if it is a game action; otherwise none; and none at all without a delegate |
| `MultiPeer.WorldMapStopsClassification` | MultiPlayersandbox/MultipeerComponnent/Networking/MultiPeerHandler.swift:296-303 | once the data is a world map, the game-action decoders play no part in what is reported |
| `MultiPeer.StateNotifications` | MultiPlayersandbox/MultipeerComponnent/Networking/MultiPeerHandler.swift:354-366 | `.connected` calls only `onPlayerJoined`; `.connecting` calls the delegate's and the closure's connecting hooks; `.notConnected` calls the not-connected hooks. Each hook fires exactly once when its listener is set and not at all otherwise, and the delegate's hook comes before the closure |
| `MultiPeer.PlanSend` | MultiPlayersandbox/MultipeerComponnent/Networking/MultiPeerHandler.swift:143-182 | nothing is sent exactly when no peer is connected; the send is abandoned exactly when encoding the given action fails; otherwise the payload is the encoded action, or the raw data when no action is given |
| `MultiPeer.MultiPeerHandler.constructor` | MultiPlayersandbox/MultipeerComponnent/Networking/MultiPeerHandler.swift:114-123 | a host starts as server and not networked, a participant as networked; no peers, no advertiser |
| `MultiPeer.MultiPeerHandler.Host` | MultiPlayersandbox/MultipeerComponnent/Networking/MultiPeerHandler.swift:191-198 | becomes the server, installs an advertiser for this peer under the service ID, then calls `onDidStartAdvertising` if set |
| `MultiPeer.MultiPeerHandler.StopAdvertising` | MultiPlayersandbox/MultipeerComponnent/Networking/MultiPeerHandler.swift:201-204 | drops the advertiser and changes nothing else |
| `MultiPeer.MultiPeerHandler.Send` | MultiPlayersandbox/MultipeerComponnent/Networking/MultiPeerHandler.swift:143-182 | follows `PlanSend`. With no connected peers, or a failed encoding, nothing is sent and the callback is not called. Otherwise the payload goes to all connected peers whatever `toEveryone` says, and the callback gets `.success`, or `.failure` with the error thrown |
| `MultiPeer.MultiPeerHandler.Receive` | MultiPlayersandbox/MultipeerComponnent/Networking/MultiPeerHandler.swift:290-311 | `peers` becomes `Upsert` of the sender, and the delegate calls are those of `ReceiveNotifications` |
| `MultiPeer.MultiPeerHandler.SessionDidChange` | MultiPlayersandbox/MultipeerComponnent/Networking/MultiPeerHandler.swift:346-367 | appends the player whether or not it is known (so `peers` grows by exactly one), then makes the calls of `StateNotifications` |
| `MultiPeerProperties.RegistryAfterGrows` | MultiPlayersandbox/MultipeerComponnent/Networking/MultiPeerHandler.swift:348-352 | over any run of data and state events, old entries stay in place, every state change adds an entry, and every event's peer is registered |
| `MultiPeerProperties.ReplayEvents` | MultiPlayersandbox/MultipeerComponnent/Networking/MultiPeerHandler.swift:290-352 | feeding a run of session events to the handler's own `Receive` and `SessionDidChange`, one at a time, leaves `peers` equal to `RegistryAfter` of the run |
| `MultiPeerProperties.DataKeepsNoDuplicates` | MultiPlayersandbox/MultipeerComponnent/Networking/MultiPeerHandler.swift:292 | while only data arrives, `peers` never holds a player twice |
| `MultiPeerProperties.StateChangeOfKnownPeerDuplicates` | MultiPlayersandbox/MultipeerComponnent/Networking/MultiPeerHandler.swift:348-352 | a state change for a peer already listed makes `peers` hold it twice |
| `MultiPeerProperties.ConnectionListsPeerTwice` | MultiPlayersandbox/MultipeerComponnent/Networking/MultiPeerHandler.swift:348-352 | connecting then connected, from an empty list, lists the peer twice |
| `MultiPeerProperties.RegistryAfterIntended` | MultiPlayersandbox/MultipeerComponnent/Networking/MultiPeerHandler.swift:348-352 | with state changes registering only new players, `peers` never gains a duplicate over any run of events |
| `MultiPeerProperties.RegistryAfterIntendedRegisters` | MultiPlayersandbox/MultipeerComponnent/Networking/MultiPeerHandler.swift:348-352 | with that correction every event's peer is still registered, and old entries stay |
| `MultiPeerProperties.ConnectionListsPeerOnceWhenIntended` | MultiPlayersandbox/MultipeerComponnent/Networking/MultiPeerHandler.swift:348-352 | with that correction connecting then connected lists the peer once |
| `MultiPeerProperties.GameActionArrivesIntact` | MultiPlayersandbox/MultipeerComponnent/Networking/MultiPeerHandler.swift:313-317 | a `GameAction` sent by one handler reaches the receiver's delegate as that same action |
| `MultiPeerProperties.PositionArrivesAsGameAction` | MultiPlayersandbox/MultipeerComponnent/Networking/MultiPeerHandler.swift:316-319 | a `PositionGameAction` that is sent reaches the receiver's delegate as a `GameAction` with its identifier: the identifier survives but the kind does not, and the coordinates are lost |
| `MultiPeerProperties.WorldMapArrivesAsWorldMap` | MultiPlayersandbox/MultipeerComponnent/Networking/MultiPeerHandler.swift:296-301 | raw data that is a world-map archive is sent as is and reaches the delegate as that map |
| `MultiPeerProperties.TransformDataToGameActionIntended` | MultiPlayersandbox/MultipeerComponnent/Networking/MultiPeerHandler.swift:313-323 | the corrected order tries `PositionGameAction` first: a successful position decode is returned; otherwise a successful `GameAction` decode is returned; it is nil exactly when both decodes fail |
| `MultiPeerProperties.IntendedClassificationRoundTrip` | MultiPlayersandbox/MultipeerComponnent/Networking/MultiPeerHandler.swift:313-323 | with the corrected order, any action a handler sends is classified as exactly that action |

## Left out

- The MultipeerConnectivity delegate plumbing (MultiPeerHandler.swift:327-418) is left out because it is foreign networking API. This covers invitation auto-accept, certificate accept, stream and resource-progress callbacks, and the two callbacks that pass received data or a received resource file to `receive`. It also covers the `onDidReceiveData` closure, which only the in-memory data callback calls (MultiPeerHandler.swift:343). The resource-file path calls `receive` alone (MultiPeerHandler.swift:394). `MultiPeer.MultiPeerHandler.Receive` models what the two paths share.
- Reading a received resource file (`Data(contentsOf:)`) is left out: it is file I/O.
- `sendWorldMap` (MultiPeerHandler.swift:125-141) is left out. It waits on ARKit's asynchronous world-map capture and then calls `send(nil, or: data)`, which is modelled; `WorldMapArrivesAsWorldMap` covers that data path.
- `joinSessionAndRtrnBrowser` is left out: it only builds a view controller. `syncPhysics` is left out: its body is empty. The commented-out block at MultiPeerHandler.swift:212-270 is left out: it is dead code.
- JSONEncoder, JSONDecoder and NSKeyedUnarchiver are abstract partial functions; their internals are not modelled. Foundation's JSON text is correct only by hypothesis (`JsonCoding.Lawful`). That JSON text never unarchives as a world map is a hypothesis as well (`MultiPeerProperties.FormatsDisjoint`).
- The bit-level layout of `WritableBitStream` and `ReadableBitStream` is not modelled. A stream is the sequence of floats and data blocks written to it. The primitive round trip therefore holds by construction. `KindMismatch` (reading a float where a block was written, or the reverse) exists only in this model: the real stream would reinterpret the bits.
- The `GameCommand` struct (GameCommand.swift:31-34) is not modelled: no operation of the handler or the codecs uses it.
- GameCommand.EncodeString: the `encodingError` branch of `String.encode` (GameCommand.swift:98-99) is not modelled, because converting a string of Unicode scalars to UTF-8 cannot fail.
- Utf8.DecodeEncode, Utf8.EncodeDecode and GameCommand.StringRoundTrip: decoding keeps a leading byte-order mark (bytes EF BB BF) as the character U+FEFF. Foundation's `String(data:encoding: .utf8)` on Apple platforms may strip it. If it does, a string that starts with U+FEFF does not survive the real round trip, and these three lemmas do not hold for it.
- Strings are compared scalar by scalar. Swift's `String ==` uses canonical equivalence, which is weaker, so the round trips shown here imply Swift's.
- Floats are opaque 32-bit patterns; no float arithmetic is modelled.
- Two things are inputs rather than behaviour: `mcSession.connectedPeers` is kept up to date by MultipeerConnectivity and is not changed by any handler method, and the error a session send may throw is a parameter of `Send`.
- Players.FromUsername: requires a name of 1 to 63 UTF-8 bytes. `MCPeerID` raises on any other name, and the crash is not modelled.
- MultiPeer.MultiPeerHandler.Send: requires an action or data whenever a peer is connected. The source force-unwraps `data!` when neither is given and would trap; the trap is not modelled. `MultiPeer.PlanSend` has the same precondition.
- `onStateChangedToConnected`, `onConnectedToANewPlayer`, `onDidReceiveWorldMap` and the delegate's `onSentMessageStatus` are declared but never called by the handler, so the model has no counterpart for them. The unused property-list encoder and decoder have none either.
- The weak, optional delegate and the optional closures are modelled only as "set or not" (`Listeners`). `print` and `log` output are left out.
- Concurrent mutation of `peers` from network threads is not modelled; the model is sequential.
- ViewController.swift, PeerBrowserViewController.swift and WorldMapExtractor.swift are not part of this model. They are UI, rendering and ARKit glue.

## Findings

| source | as written | input that shows it | evidently intended | confidence | as-written member | corrected member |
|---|---|---|---|---|---|---|
| MultiPlayersandbox/MultipeerComponnent/Networking/MultiPeerHandler.swift:316-319 | `GameAction` is decoded first. Its synthesized decoder ignores unknown keys, so it accepts a position's JSON | any `PositionGameAction` p whose JSON encodes: the receiver reports `GameAction(p.identifier)` and x, y, z are dropped | each action arrives as the kind that was sent | medium, not executed | `MultiPeerProperties.PositionArrivesAsGameAction` | `MultiPeerProperties.IntendedClassificationRoundTrip` |
| MultiPlayersandbox/MultipeerComponnent/Networking/MultiPeerHandler.swift:348-352 | `peers.append(player)` runs on every state change. `isNewPlayer` is computed but never used | `.connecting` then `.connected` for the same peer, from an empty list, gives `[p, p]` | append only when `isNewPlayer`, so `peers` stays free of duplicates | medium, not executed | `MultiPeerProperties.ConnectionListsPeerTwice` | `MultiPeerProperties.RegistryAfterIntended` |
