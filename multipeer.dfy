/** MultiPeerHandler.swift: the session controller. It keeps the list of known players,
    classifies what arrives from the network, fans peer state changes out to its delegate and
    closures, and gates and sends outgoing messages. The MultipeerConnectivity session is
    represented by the peers it reports as connected and by a log of what was handed to it;
    every delegate call and closure call the handler makes is appended to a notification log. */
module MultiPeer {
  import opened Wrappers
  import opened FoundationData
  import opened Players
  import opened GameActions
  import opened JsonCoding

  /** An `ARWorldMap`; the handler never looks inside one. */
  type WorldMap(==)

  /** The Foundation decoders and encoders the handler calls: the JSON text layer, and
      `NSKeyedUnarchiver` restricted to `ARWorldMap`. */
  datatype Codecs = Codecs(json: JsonCoder, unarchiveWorldMap: Bytes -> Option<WorldMap>)

  /** `WorldMapResult`. */
  datatype WorldMapResult = Loaded(worldMap: WorldMap) | NotAWorldMap

  /** `MessageStatus`. */
  datatype MessageStatus = Sent | SendFailed(error: Error)

  /** `MCSessionState`. */
  datatype SessionState = NotConnected | Connecting | Connected

  /** An `MCNearbyServiceAdvertiser` that was created and started. */
  datatype Advertiser = Advertiser(peer: PeerId, discoveryInfo: Option<map<string, string>>, serviceType: string)

  /** One reliable `mcSession.send`: the payload and the peers it was addressed to. */
  datatype Transmission = Transmission(payload: Bytes, toPeers: seq<PeerId>)

  /** Which listeners are set: the (weak, optional) delegate and the optional closures the
      handler calls. */
  datatype Listeners = Listeners(delegate: bool, onStateChangedToConnecting: bool,
                                 onStateChangedToNotConnected: bool, onDidStartAdvertising: bool)

  /** One call the handler makes to the outside: the delegate's methods, the closures, and
      the `result` callback passed to `send`. */
  datatype Notification =
    | OnDidReceive(action: GameActionType, from: Player)
    | OnWorldMapReceived(worldMap: WorldMap, from: Player)
    | OnPlayerJoined(player: Player)
    | OnStateChangedToConnecting
    | OnStateChangedToNotConnected
    | ConnectingCallback(displayName: string)
    | NotConnectedCallback(displayName: string)
    | DidStartAdvertisingCallback
    | ResultCallback(status: MessageStatus)

  // ---- Peer registry ----

  /** `peers.contains(player)`, with Player's `==`. */
  predicate Contains(peers: seq<Player>, p: Player) {
    exists i :: 0 <= i < |peers| && Same(peers[i], p)
  }

  /** No two entries are the same player. */
  predicate NoDuplicates(peers: seq<Player>) {
    forall i, j :: 0 <= i < j < |peers| ==> !Same(peers[i], peers[j])
  }

  /** What `receive` does to the list: append the player unless it is already there. */
  function Upsert(peers: seq<Player>, p: Player): (r: seq<Player>)
    ensures Contains(r, p)
    ensures Contains(peers, p) ==> r == peers
    ensures !Contains(peers, p) ==> r == peers + [p]
  {
    if Contains(peers, p) then peers
    else
      assert (peers + [p])[|peers|] == p;
      peers + [p]
  }

  /** `receive` never introduces a duplicate into a list that had none. */
  lemma UpsertKeepsNoDuplicates(peers: seq<Player>, p: Player)
    ensures NoDuplicates(peers) ==> NoDuplicates(Upsert(peers, p))
  {
    if NoDuplicates(peers) && !Contains(peers, p) {
      var r := peers + [p];
      forall i, j | 0 <= i < j < |r|
        ensures !Same(r[i], r[j])
      {
        if j == |peers| {
          assert r[j] == p;
          assert !Same(peers[i], p);
        }
      }
    }
  }

  // ---- Inbound classification ----

  /** `loadWorldMap(from:with:)`, as the result it hands its callback. */
  function LoadWorldMap(data: Bytes, codecs: Codecs): (r: WorldMapResult)
    ensures r.Loaded? <==> codecs.unarchiveWorldMap(data).Some?
    ensures r.Loaded? ==> Some(r.worldMap) == codecs.unarchiveWorldMap(data)
  {
    match codecs.unarchiveWorldMap(data)
    case Some(m) => Loaded(m)
    case None => NotAWorldMap
  }

  /** `transformDataToGameAction`: the first of the two JSON decodes that succeeds, GameAction
      before PositionGameAction. */
  function TransformDataToGameAction(data: Bytes, json: JsonCoder): (r: Option<GameActionType>)
    ensures r.None? <==> DecodeGameAction(json, data).None? && DecodePosition(json, data).None?
    ensures DecodeGameAction(json, data).Some? ==> r == Some(Generic(DecodeGameAction(json, data).value))
    ensures DecodeGameAction(json, data).None? && DecodePosition(json, data).Some? ==>
              r == Some(Positional(DecodePosition(json, data).value))
    ensures r.Some? && r.value.Positional? ==>
              DecodeGameAction(json, data).None? && Some(r.value.positional) == DecodePosition(json, data)
  {
    match DecodeGameAction(json, data)
    case Some(g) => Some(Generic(g))
    case None =>
      match DecodePosition(json, data)
      case Some(p) => Some(Positional(p))
      case None => None
  }

  /** The delegate calls `receive` makes after the registry update: a world map wins and
      stops classification; otherwise a game action is reported; otherwise nothing. Without a
      delegate nothing is reported. */
  function ReceiveNotifications(data: Bytes, codecs: Codecs, player: Player, delegate: bool): (r: seq<Notification>)
    ensures |r| <= 1
    ensures !delegate ==> r == []
    ensures delegate && codecs.unarchiveWorldMap(data).Some? ==>
              r == [OnWorldMapReceived(codecs.unarchiveWorldMap(data).value, player)]
    ensures delegate && codecs.unarchiveWorldMap(data).None? ==>
              r == if TransformDataToGameAction(data, codecs.json).Some?
                   then [OnDidReceive(TransformDataToGameAction(data, codecs.json).value, player)]
                   else []
  {
    if !delegate then []
    else match LoadWorldMap(data, codecs)
      case Loaded(m) => [OnWorldMapReceived(m, player)]
      case NotAWorldMap =>
        match TransformDataToGameAction(data, codecs.json)
        case Some(action) => [OnDidReceive(action, player)]
        case None => []
  }

  /** Once the data is a world map, the JSON decoders play no part: two codec sets that
      unarchive alike report alike, whatever their JSON layers do. */
  lemma WorldMapStopsClassification(data: Bytes, c1: Codecs, c2: Codecs, player: Player, delegate: bool)
    requires c1.unarchiveWorldMap(data).Some? && c1.unarchiveWorldMap(data) == c2.unarchiveWorldMap(data)
    ensures ReceiveNotifications(data, c1, player, delegate) == ReceiveNotifications(data, c2, player, delegate)
  {
  }

  // ---- State change fan-out ----

  /** The calls `session(_:peer:didChange:)` makes for each state. */
  function StateNotifications(state: SessionState, player: Player, listeners: Listeners): (r: seq<Notification>)
    ensures |r| == (if listeners.delegate then 1 else 0)
                   + (match state
                      case Connected => 0
                      case Connecting => if listeners.onStateChangedToConnecting then 1 else 0
                      case NotConnected => if listeners.onStateChangedToNotConnected then 1 else 0)
    ensures state == Connecting && listeners.delegate ==> r[0] == OnStateChangedToConnecting
    ensures state == NotConnected && listeners.delegate ==> r[0] == OnStateChangedToNotConnected
    ensures state == Connected ==> forall n :: n in r ==> n == OnPlayerJoined(player)
    ensures state == Connecting ==> forall n :: n in r ==> n == OnStateChangedToConnecting || n == ConnectingCallback(player.Username())
    ensures state == NotConnected ==> forall n :: n in r ==> n == OnStateChangedToNotConnected || n == NotConnectedCallback(player.Username())
    ensures OnPlayerJoined(player) in r <==> state == Connected && listeners.delegate
    ensures OnStateChangedToConnecting in r <==> state == Connecting && listeners.delegate
    ensures ConnectingCallback(player.Username()) in r <==> state == Connecting && listeners.onStateChangedToConnecting
    ensures OnStateChangedToNotConnected in r <==> state == NotConnected && listeners.delegate
    ensures NotConnectedCallback(player.Username()) in r <==> state == NotConnected && listeners.onStateChangedToNotConnected
  {
    match state
    case Connected => if listeners.delegate then [OnPlayerJoined(player)] else []
    case Connecting =>
      (if listeners.delegate then [OnStateChangedToConnecting] else [])
      + (if listeners.onStateChangedToConnecting then [ConnectingCallback(player.Username())] else [])
    case NotConnected =>
      (if listeners.delegate then [OnStateChangedToNotConnected] else [])
      + (if listeners.onStateChangedToNotConnected then [NotConnectedCallback(player.Username())] else [])
  }

  // ---- Send gating ----

  /** What `send` decides to do. */
  datatype SendPlan = NothingToSend | EncodingFailed | Transmit(payload: Bytes)

  /** The decision `send` takes before touching the session: nothing without connected peers;
      otherwise the JSON of a game action, or the raw data when no action is given. A failed
      action encoding abandons the send. The raw data is force-unwrapped, so it must be there
      when peers are connected and no action is given. */
  function PlanSend(connectedCount: nat, gameAction: Option<GameActionType>, data: Option<Bytes>, json: JsonCoder): (plan: SendPlan)
    requires connectedCount == 0 || gameAction.Some? || data.Some?
    ensures plan == NothingToSend <==> connectedCount == 0
    ensures plan == EncodingFailed <==>
              connectedCount > 0 && gameAction.Some? &&
              (match gameAction.value
               case Generic(g) => EncodeGameAction(json, g).None?
               case Positional(p) => EncodePosition(json, p).None?)
    ensures plan.Transmit? && gameAction.None? ==> plan.payload == data.value
    ensures plan.Transmit? && gameAction.Some? && gameAction.value.Generic? ==>
              Some(plan.payload) == EncodeGameAction(json, gameAction.value.generic)
    ensures plan.Transmit? && gameAction.Some? && gameAction.value.Positional? ==>
              Some(plan.payload) == EncodePosition(json, gameAction.value.positional)
  {
    if connectedCount == 0 then NothingToSend
    else match gameAction
      case Some(Generic(g)) =>
        (match EncodeGameAction(json, g) case Some(b) => Transmit(b) case None => EncodingFailed)
      case Some(Positional(p)) =>
        (match EncodePosition(json, p) case Some(b) => Transmit(b) case None => EncodingFailed)
      case None => Transmit(data.value)
  }

  // ---- The handler ----

  class MultiPeerHandler {
    /** This device's peer ID (made from the device name, which is an input here). */
    const peerID: PeerId
    const serviceID: string
    const isNetworked: bool
    const codecs: Codecs
    var isServer: bool
    var mcAdvertiserAssistant: Option<Advertiser>
    var peers: seq<Player>
    var listeners: Listeners
    /** `mcSession.connectedPeers`, kept up to date by MultipeerConnectivity. */
    var connectedPeers: seq<PeerId>
    /** Everything handed to `mcSession.send` that it accepted. */
    var sent: seq<Transmission>
    /** Every call made to the delegate, the closures and `send`'s callbacks, oldest first. */
    var notifications: seq<Notification>

    /** `init(serviceID:isHost:)`: a host is not networked, a participant is. */
    constructor (serviceID: string, isHost: bool, devicePeer: PeerId, codecs: Codecs)
      ensures this.serviceID == serviceID && peerID == devicePeer && this.codecs == codecs
      ensures isServer == isHost && isNetworked == !isHost
      ensures mcAdvertiserAssistant == None && peers == [] && connectedPeers == []
      ensures listeners == Listeners(false, false, false, false)
      ensures sent == [] && notifications == []
    {
      this.serviceID := serviceID;
      this.peerID := devicePeer;
      this.codecs := codecs;
      isServer := isHost;
      isNetworked := !isHost;
      mcAdvertiserAssistant := None;
      peers := [];
      listeners := Listeners(false, false, false, false);
      connectedPeers := [];
      sent := [];
      notifications := [];
    }

    /** `host(with:)`: become the server and advertise this peer under the service ID, then
        tell `onDidStartAdvertising`. A previous advertiser is replaced, not stopped. */
    method Host(discoveryInfo: Option<map<string, string>>)
      modifies this
      ensures isServer
      ensures mcAdvertiserAssistant == Some(Advertiser(peerID, discoveryInfo, serviceID))
      ensures notifications == old(notifications) + (if listeners.onDidStartAdvertising then [DidStartAdvertisingCallback] else [])
      ensures peers == old(peers) && listeners == old(listeners) && connectedPeers == old(connectedPeers) && sent == old(sent)
    {
      isServer := true;
      mcAdvertiserAssistant := Some(Advertiser(peerID, discoveryInfo, serviceID));
      if listeners.onDidStartAdvertising {
        notifications := notifications + [DidStartAdvertisingCallback];
      }
    }

    /** `stopAdvertising()`: stop and drop the advertiser, if any. */
    method StopAdvertising()
      modifies this
      ensures mcAdvertiserAssistant == None
      ensures isServer == old(isServer) && peers == old(peers) && listeners == old(listeners)
      ensures connectedPeers == old(connectedPeers) && sent == old(sent) && notifications == old(notifications)
    {
      mcAdvertiserAssistant := None;
    }

    /** `send(_:or:toEveryone:with:)`. With no connected peers nothing happens, not even the
        callback. Otherwise the planned payload goes to every connected peer (`toEveryone` is
        ignored); the callback hears `.success`, or `.failure` with the error the session threw
        (`sessionError`, an input). A failed action encoding returns without a callback. */
    method Send(gameAction: Option<GameActionType>, data: Option<Bytes>, toEveryone: bool, sessionError: Option<Error>)
      requires |connectedPeers| == 0 || gameAction.Some? || data.Some?
      modifies this
      ensures var plan := PlanSend(|old(connectedPeers)|, gameAction, data, codecs.json);
              if plan.Transmit? then
                && sent == old(sent) + (if sessionError.None? then [Transmission(plan.payload, connectedPeers)] else [])
                && notifications == old(notifications) + [ResultCallback(if sessionError.None? then Sent else SendFailed(sessionError.value))]
              else
                sent == old(sent) && notifications == old(notifications)
      ensures isServer == old(isServer) && mcAdvertiserAssistant == old(mcAdvertiserAssistant)
      ensures peers == old(peers) && listeners == old(listeners) && connectedPeers == old(connectedPeers)
    {
      if |connectedPeers| > 0 {
        var gameActionData: Option<Bytes> := None;
        match gameAction {
          case Some(Generic(g)) =>
            var encoded := EncodeGameAction(codecs.json, g);
            if encoded.None? {
              return;
            }
            gameActionData := encoded;
          case Some(Positional(p)) =>
            var encoded := EncodePosition(codecs.json, p);
            if encoded.None? {
              return;
            }
            gameActionData := encoded;
          case None =>
        }
        var payload := if gameActionData.Some? then gameActionData.value else data.value;
        if sessionError.None? {
          sent := sent + [Transmission(payload, connectedPeers)];
          notifications := notifications + [ResultCallback(Sent)];
        } else {
          notifications := notifications + [ResultCallback(SendFailed(sessionError.value))];
        }
      }
    }

    /** `receive(data:from:)`: register the sender if it is new, then report what the data
        is. Both the in-memory and the resource path of the session end here. */
    method Receive(data: Bytes, from: PeerId)
      modifies this
      ensures peers == Upsert(old(peers), FromPeer(from))
      ensures notifications == old(notifications) + ReceiveNotifications(data, codecs, FromPeer(from), listeners.delegate)
      ensures isServer == old(isServer) && mcAdvertiserAssistant == old(mcAdvertiserAssistant)
      ensures listeners == old(listeners) && connectedPeers == old(connectedPeers) && sent == old(sent)
    {
      var player := FromPeer(from);
      if !Contains(peers, player) {
        peers := peers + [player];
      }
      var result := LoadWorldMap(data, codecs);
      match result {
        case Loaded(worldMap) =>
          if listeners.delegate {
            notifications := notifications + [OnWorldMapReceived(worldMap, player)];
          }
        case NotAWorldMap =>
          var potentialGameAction := TransformDataToGameAction(data, codecs.json);
          if potentialGameAction.Some? && listeners.delegate {
            notifications := notifications + [OnDidReceive(potentialGameAction.value, player)];
          }
      }
    }

    /** `session(_:peer:didChange:)`: append the player, known or not, then fan the state out. */
    method SessionDidChange(peer: PeerId, state: SessionState)
      modifies this
      ensures peers == old(peers) + [FromPeer(peer)]
      ensures notifications == old(notifications) + StateNotifications(state, FromPeer(peer), listeners)
      ensures isServer == old(isServer) && mcAdvertiserAssistant == old(mcAdvertiserAssistant)
      ensures listeners == old(listeners) && connectedPeers == old(connectedPeers) && sent == old(sent)
    {
      var player := FromPeer(peer);
      var isNewPlayer := !Contains(peers, player);
      peers := peers + [player];
      match state {
        case Connected =>
          if listeners.delegate {
            notifications := notifications + [OnPlayerJoined(player)];
          }
        case Connecting =>
          if listeners.delegate {
            notifications := notifications + [OnStateChangedToConnecting];
          }
          if listeners.onStateChangedToConnecting {
            notifications := notifications + [ConnectingCallback(peer.displayName)];
          }
        case NotConnected =>
          if listeners.delegate {
            notifications := notifications + [OnStateChangedToNotConnected];
          }
          if listeners.onStateChangedToNotConnected {
            notifications := notifications + [NotConnectedCallback(peer.displayName)];
          }
      }
    }
  }
}
