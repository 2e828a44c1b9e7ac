/** Player.swift: a remote participant, identified by the MultipeerConnectivity peer ID it
    wraps. A Player never changes after it is built. */
module Players {
  import Utf8

  /** An `MCPeerID`: the opaque identity MultipeerConnectivity gives a participant, the display
      name it was created with, and the hash it reports. Two peer IDs are the same peer exactly
      when they are equal values. */
  datatype PeerId = PeerId(identity: nat, displayName: string, hashValue: int)

  /** A Player stores its peer ID and, separately, the hash it copied from it at creation. */
  datatype Player = Player(peerID: PeerId, hashValue: int) {

    /** `username` is computed from the peer ID, not stored. */
    function Username(): (r: string)
      ensures r == peerID.displayName
    {
      peerID.displayName
    }

    /** What both initialisers establish: the stored hash is the peer ID's. */
    predicate WellFormed() { hashValue == peerID.hashValue }
  }

  /** Player's `==`: two players are equal when their peer IDs are, whatever else they hold. */
  predicate Same(a: Player, b: Player)
    ensures Same(a, b) ==> a.Username() == b.Username()
    ensures Same(a, b) && a.WellFormed() && b.WellFormed() ==> a == b
  {
    a.peerID == b.peerID
  }

  /** `init(peerID:)`. */
  function FromPeer(peer: PeerId): (r: Player)
    ensures r.peerID == peer && r.WellFormed()
    ensures r.Username() == peer.displayName
  {
    Player(peer, peer.hashValue)
  }

  /** `init(username:)`: MCPeerID's initialiser mints a new identity (`identity`, with the hash
      `hash`) for the display name. It refuses an empty name or one longer than 63 UTF-8 bytes,
      which is what MultipeerConnectivity demands of the caller. */
  function FromUsername(username: string, identity: nat, hash: int): (r: Player)
    requires 0 < |Utf8.Encode(username)| <= 63
    ensures r.WellFormed() && r.Username() == username
  {
    FromPeer(PeerId(identity, username, hash))
  }

  /** `==` is an equivalence relation, because it is equality of peer IDs. */
  lemma SameIsEquivalence(a: Player, b: Player, c: Player)
    ensures Same(a, a)
    ensures Same(a, b) ==> Same(b, a)
    ensures Same(a, b) && Same(b, c) ==> Same(a, c)
  {
  }

  /** Hashable's contract: players that are `==` have equal hashes. */
  lemma SameImpliesEqualHash(a: Player, b: Player)
    requires a.WellFormed() && b.WellFormed()
    ensures Same(a, b) ==> a.hashValue == b.hashValue
  {
  }

  /** Players built from peer IDs are `==` exactly when the peer IDs are equal, and then
      they are identical values. */
  lemma FromPeerSame(p: PeerId, q: PeerId)
    ensures Same(FromPeer(p), FromPeer(q)) <==> p == q
    ensures Same(FromPeer(p), FromPeer(q)) <==> FromPeer(p) == FromPeer(q)
  {
  }
}
