/** Properties of the session controller that span several operations: the peer list over a
    run of session events, and what a message sent by one handler becomes when another
    handler receives it. */
module MultiPeerProperties {
  import opened Wrappers
  import opened FoundationData
  import opened Players
  import opened GameActions
  import opened JsonCoding
  import opened MultiPeer

  // ---- The peer list over a run of events ----

  /** What the session reports to the handler: data from a peer, or a peer's new state. */
  datatype PeerEvent = DataFrom(peer: PeerId, data: Bytes) | StateChanged(peer: PeerId, state: SessionState)

  /** The peer list after `Receive` and `SessionDidChange` have handled `events` in order:
      data upserts its sender, a state change appends its peer. */
  function RegistryAfter(peers: seq<Player>, events: seq<PeerEvent>): seq<Player>
    decreases |events|
  {
    if events == [] then peers else RegistryAfter(Step(peers, events[0]), events[1..])
  }

  /** One event: the postcondition of `Receive` or of `SessionDidChange` on the list. */
  function Step(peers: seq<Player>, e: PeerEvent): seq<Player> {
    match e
    case DataFrom(p, _) => Upsert(peers, FromPeer(p))
    case StateChanged(p, _) => peers + [FromPeer(p)]
  }

  /** The handler itself, fed the session's events one at a time, ends with the peer list
      `RegistryAfter` describes. */
  method ReplayEvents(h: MultiPeerHandler, events: seq<PeerEvent>)
    modifies h
    ensures h.peers == RegistryAfter(old(h.peers), events)
  {
    var i := 0;
    while i < |events|
      invariant 0 <= i <= |events|
      invariant RegistryAfter(h.peers, events[i..]) == RegistryAfter(old(h.peers), events)
    {
      assert events[i..][1..] == events[i + 1..];
      match events[i] {
        case DataFrom(p, data) => h.Receive(data, p);
        case StateChanged(p, state) => h.SessionDidChange(p, state);
      }
      i := i + 1;
    }
    assert events[i..] == [];
  }

  function StateChangeCount(events: seq<PeerEvent>): nat {
    if events == [] then 0 else (if events[0].StateChanged? then 1 else 0) + StateChangeCount(events[1..])
  }

  /** The list only grows: old entries stay where they were, every state change adds an
      entry, and every event's peer ends up in the list. */
  lemma {:induction false} RegistryAfterGrows(peers: seq<Player>, events: seq<PeerEvent>)
    ensures peers <= RegistryAfter(peers, events)
    ensures |peers| + StateChangeCount(events) <= |RegistryAfter(peers, events)| <= |peers| + |events|
    ensures forall e :: e in events ==> Contains(RegistryAfter(peers, events), FromPeer(e.peer))
    decreases |events|
  {
    if events != [] {
      var e := events[0];
      var next := Step(peers, e);
      assert Contains(next, FromPeer(e.peer)) by {
        if e.StateChanged? {
          assert next[|peers|] == FromPeer(e.peer);
        }
      }
      RegistryAfterGrows(next, events[1..]);
      var r := RegistryAfter(next, events[1..]);
      assert r == RegistryAfter(peers, events);
      ContainsInExtension(next, r, FromPeer(e.peer));
      forall e' | e' in events
        ensures Contains(r, FromPeer(e'.peer))
      {
        if e' != e {
          assert e' in events[1..];
        }
      }
    }
  }

  lemma ContainsInExtension(peers: seq<Player>, longer: seq<Player>, p: Player)
    requires peers <= longer && Contains(peers, p)
    ensures Contains(longer, p)
  {
    var i :| 0 <= i < |peers| && Same(peers[i], p);
    assert longer[i] == peers[i];
  }

  /** While only data arrives, the list never holds the same player twice. */
  lemma {:induction false} DataKeepsNoDuplicates(peers: seq<Player>, events: seq<PeerEvent>)
    requires NoDuplicates(peers)
    requires forall e :: e in events ==> e.DataFrom?
    ensures NoDuplicates(RegistryAfter(peers, events))
    decreases |events|
  {
    if events != [] {
      UpsertKeepsNoDuplicates(peers, FromPeer(events[0].peer));
      DataKeepsNoDuplicates(Upsert(peers, FromPeer(events[0].peer)), events[1..]);
    }
  }

  /** As written, a state change for a peer already in the list lists it twice. */
  lemma StateChangeOfKnownPeerDuplicates(peers: seq<Player>, peer: PeerId, state: SessionState)
    requires Contains(peers, FromPeer(peer))
    ensures !NoDuplicates(RegistryAfter(peers, [StateChanged(peer, state)]))
  {
    var events := [StateChanged(peer, state)];
    assert events[1..] == [];
    var r := RegistryAfter(peers, events);
    assert r == RegistryAfter(Step(peers, events[0]), []);
    assert r == peers + [FromPeer(peer)];
    var i :| 0 <= i < |peers| && Same(peers[i], FromPeer(peer));
    assert Same(r[i], r[|peers|]);
  }

  /** The counterexample: an ordinary connection (connecting, then connected) leaves the
      peer in the list twice. */
  lemma ConnectionListsPeerTwice(peer: PeerId)
    ensures RegistryAfter([], [StateChanged(peer, Connecting), StateChanged(peer, Connected)])
            == [FromPeer(peer), FromPeer(peer)]
    ensures !NoDuplicates(RegistryAfter([], [StateChanged(peer, Connecting), StateChanged(peer, Connected)]))
  {
    var events := [StateChanged(peer, Connecting), StateChanged(peer, Connected)];
    assert events[1..] == [StateChanged(peer, Connected)];
    assert events[1..][1..] == [];
    assert Step([], events[0]) == [FromPeer(peer)];
    assert RegistryAfter([], events) == RegistryAfter([FromPeer(peer)], events[1..]);
    assert RegistryAfter([FromPeer(peer)], events[1..]) == RegistryAfter([FromPeer(peer), FromPeer(peer)], []);
    var r := RegistryAfter([], events);
    assert r == [FromPeer(peer), FromPeer(peer)];
    assert Same(r[0], r[1]);
  }

  /** The peer list as the handler evidently means to keep it: a state change registers its
      peer the way `receive` does, only when it is new (the `isNewPlayer` test). */
  function RegistryAfterIntended(peers: seq<Player>, events: seq<PeerEvent>): (r: seq<Player>)
    ensures NoDuplicates(peers) ==> NoDuplicates(r)
    decreases |events|
  {
    if events == [] then peers
    else
      var next := Upsert(peers, FromPeer(events[0].peer));
      UpsertKeepsNoDuplicates(peers, FromPeer(events[0].peer));
      RegistryAfterIntended(next, events[1..])
  }

  /** With the correction every event's peer is still registered, and old entries stay. */
  lemma {:induction false} RegistryAfterIntendedRegisters(peers: seq<Player>, events: seq<PeerEvent>)
    ensures peers <= RegistryAfterIntended(peers, events)
    ensures forall e :: e in events ==> Contains(RegistryAfterIntended(peers, events), FromPeer(e.peer))
    decreases |events|
  {
    if events != [] {
      var e := events[0];
      var next := Upsert(peers, FromPeer(e.peer));
      RegistryAfterIntendedRegisters(next, events[1..]);
      var r := RegistryAfterIntended(next, events[1..]);
      assert r == RegistryAfterIntended(peers, events);
      ContainsInExtension(next, r, FromPeer(e.peer));
      forall e' | e' in events
        ensures Contains(r, FromPeer(e'.peer))
      {
        if e' != e {
          assert e' in events[1..];
        }
      }
    }
  }

  /** With the correction an ordinary connection lists the peer once. */
  lemma ConnectionListsPeerOnceWhenIntended(peer: PeerId)
    ensures RegistryAfterIntended([], [StateChanged(peer, Connecting), StateChanged(peer, Connected)])
            == [FromPeer(peer)]
  {
    var events := [StateChanged(peer, Connecting), StateChanged(peer, Connected)];
    assert events[1..] == [StateChanged(peer, Connected)];
    assert events[1..][1..] == [];
    assert Upsert([], FromPeer(peer)) == [FromPeer(peer)];
    assert Contains([FromPeer(peer)], FromPeer(peer)) by {
      assert [FromPeer(peer)][0] == FromPeer(peer);
    }
    assert RegistryAfterIntended([], events) == RegistryAfterIntended([FromPeer(peer)], events[1..]);
  }

  // ---- From one handler's send to another's receive ----

  /** JSON text is never an `ARWorldMap` archive (a keyed archive is a binary property list). */
  ghost predicate FormatsDisjoint(codecs: Codecs) {
    forall b :: codecs.json.parse(b).Some? ==> codecs.unarchiveWorldMap(b).None?
  }

  /** A trigger sent by one handler reaches the other's delegate intact. */
  lemma GameActionArrivesIntact(codecs: Codecs, n: nat, g: GameAction, data: Option<Bytes>, sender: Player)
    requires Lawful(codecs.json) && FormatsDisjoint(codecs) && n > 0
    requires PlanSend(n, Some(Generic(g)), data, codecs.json).Transmit?
    ensures ReceiveNotifications(PlanSend(n, Some(Generic(g)), data, codecs.json).payload, codecs, sender, true)
            == [OnDidReceive(Generic(g), sender)]
  {
    var b := PlanSend(n, Some(Generic(g)), data, codecs.json).payload;
    GameActionRoundTrip(codecs.json, g);
    assert codecs.json.parse(b).Some?;
  }

  /** As written, a position sent by one handler reaches the other's delegate as a trigger of
      the same name, and its coordinates are lost: the GameAction decode is tried first and
      accepts it. */
  lemma PositionArrivesAsGameAction(codecs: Codecs, n: nat, p: PositionGameAction, data: Option<Bytes>, sender: Player)
    requires Lawful(codecs.json) && FormatsDisjoint(codecs) && n > 0
    requires PlanSend(n, Some(Positional(p)), data, codecs.json).Transmit?
    ensures ReceiveNotifications(PlanSend(n, Some(Positional(p)), data, codecs.json).payload, codecs, sender, true)
            == [OnDidReceive(Generic(GameAction(p.identifier)), sender)]
    ensures var r := TransformDataToGameAction(PlanSend(n, Some(Positional(p)), data, codecs.json).payload, codecs.json);
            r.Some? && r.value.Identifier() == Positional(p).Identifier() && r.value != Positional(p)
  {
    var b := PlanSend(n, Some(Positional(p)), data, codecs.json).payload;
    PositionIsAlsoGameAction(codecs.json, p);
    assert codecs.json.parse(b).Some?;
  }

  /** Raw data that is a world-map archive reaches the other side's delegate as that map. */
  lemma WorldMapArrivesAsWorldMap(codecs: Codecs, n: nat, data: Bytes, sender: Player)
    requires n > 0 && codecs.unarchiveWorldMap(data).Some?
    ensures PlanSend(n, None, Some(data), codecs.json) == Transmit(data)
    ensures ReceiveNotifications(data, codecs, sender, true)
            == [OnWorldMapReceived(codecs.unarchiveWorldMap(data).value, sender)]
  {
  }

  /** The classification evidently intended: try the more specific PositionGameAction
      first, so that each kind of action decodes as itself. */
  function TransformDataToGameActionIntended(data: Bytes, json: JsonCoder): (r: Option<GameActionType>)
    ensures r.None? <==> DecodeGameAction(json, data).None? && DecodePosition(json, data).None?
    ensures DecodePosition(json, data).Some? ==> r == Some(Positional(DecodePosition(json, data).value))
    ensures DecodePosition(json, data).None? && DecodeGameAction(json, data).Some? ==>
              r == Some(Generic(DecodeGameAction(json, data).value))
  {
    match DecodePosition(json, data)
    case Some(p) => Some(Positional(p))
    case None =>
      match DecodeGameAction(json, data)
      case Some(g) => Some(Generic(g))
      case None => None
  }

  /** With the intended order, classification is exhaustive and exclusive: whatever action a
      handler sends is classified as exactly that action. */
  lemma IntendedClassificationRoundTrip(json: JsonCoder, n: nat, a: GameActionType, data: Option<Bytes>)
    requires Lawful(json) && n > 0
    requires PlanSend(n, Some(a), data, json).Transmit?
    ensures TransformDataToGameActionIntended(PlanSend(n, Some(a), data, json).payload, json) == Some(a)
  {
    match a
    case Generic(g) =>
      GameActionRoundTrip(json, g);
      GameActionIsNoPosition(json, g);
    case Positional(p) =>
      PositionRoundTrip(json, p);
  }
}
