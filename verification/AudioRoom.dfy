// The audio side of a room: framing, the cached init segments, and every section that runs under
// the room's mutex, as functions on the room's maps and as methods that update them in place.

/** The binary framing: one length byte, the sender's ID, the unit. */
module Framing {
  import opened ByteStrings

  function Frame(id: Bytes, unit: Bytes): Bytes {
    [|id| % 256] + id + unit
  }

  /** The receiver's side: the length byte, that many ID bytes (or all there are), the rest. */
  function Parse(data: Bytes): (Bytes, Bytes)
    requires data != []
  {
    var n := if 1 + data[0] <= |data| then 1 + data[0] else |data|;
    (data[1..n], data[n..])
  }

  /** Parsing undoes framing exactly for IDs of at most 255 bytes. */
  lemma FramingRoundTrip(id: Bytes, unit: Bytes)
    ensures Parse(Frame(id, unit)) == (id, unit) <==> |id| <= 255
  {
    var f := Frame(id, unit);
    if |id| <= 255 {
      assert f[1..1 + |id|] == id && f[1 + |id|..] == unit;
    } else {
      assert |Parse(f).0| <= 255;
    }
  }

  /** So a frame says who sent what; beyond 255 bytes another ID and unit make the same frame. */
  lemma FramesDecodeUniquely(id: Bytes, unit: Bytes, id': Bytes, unit': Bytes)
    requires |id| <= 255 && |id'| <= 255 && Frame(id, unit) == Frame(id', unit')
    ensures id == id' && unit == unit'
  {
    FramingRoundTrip(id, unit);
    FramingRoundTrip(id', unit');
  }

  lemma LongIdsCollide(id: Bytes, unit: Bytes)
    requires |id| > 255
    ensures exists id', unit' :: |id'| <= 255 && Frame(id', unit') == Frame(id, unit)
  {
    var f := Frame(id, unit);
    var n := |id| % 256;
    var id', unit' := f[1..1 + n], f[1 + n..];
    assert f == [n] + id' + unit';
    assert Frame(id', unit') == f;
  }

  function FrameAll(id: Bytes, units: seq<Bytes>): (r: seq<Bytes>)
    ensures |r| == |units|
  {
    if units == [] then [] else [Frame(id, units[0])] + FrameAll(id, units[1..])
  }

  lemma {:induction false} FrameAllAppend(id: Bytes, a: seq<Bytes>, b: seq<Bytes>)
    ensures FrameAll(id, a + b) == FrameAll(id, a) + FrameAll(id, b)
  {
    if a == [] {
      assert a + b == b;
    } else {
      assert (a + b)[1..] == a[1..] + b;
      FrameAllAppend(id, a[1..], b);
    }
  }
}

module AudioSpec {
  import opened Common
  import opened ByteStrings
  import opened ClusterScan
  import opened RelaySpec
  import opened Framing


  /** The ID bytes of each client, each sender's relay, and each sender's cached init. */
  datatype Room = Room(clients: map<Conn, Bytes>, relays: map<Conn, Relay>, inits: map<Conn, Bytes>)

  /** The sender's ID; a sender that is not registered counts as having the empty one. */
  function IdOf(clients: map<Conn, Bytes>, c: Conn): Bytes {
    if c in clients then clients[c] else []
  }

  function RegisterClient(r: Room, c: Conn, id: Bytes): Room {
    r.(clients := r.clients[c := id])
  }

  /** What LeaveRoom and a failed broadcast write both delete. */
  function Forget(r: Room, c: Conn): Room {
    Room(r.clients - {c}, r.relays - {c}, r.inits - {c})
  }

  predicate Accepts(r: Room, c: Conn, msg: Bytes) {
    c !in r.relays || !IsEbmlHeader(msg)
  }

  /** A sender's relay, new on its first message. */
  function RelayFor(relays: map<Conn, Relay>, c: Conn): Relay {
    if c in relays then relays[c] else NewRelay(MAX_AUDIO_PENDING)
  }

  function Fed(r: Room, c: Conn, msg: Bytes): FeedResult {
    FeedStep(RelayFor(r.relays, c), msg)
  }

  /** The frames one message of c makes. */
  function FramesOf(r: Room, c: Conn, msg: Bytes): seq<Bytes> {
    if Accepts(r, c, msg) then FrameAll(IdOf(r.clients, c), Fed(r, c, msg).units) else []
  }

  /** The locked part of Broadcast. */
  function Broadcast(r: Room, c: Conn, msg: Bytes): Room {
    if !Accepts(r, c, msg) then r else
    var f := Fed(r, c, msg);
    r.(relays := r.relays[c := f.relay],
       inits := if f.finalized && f.relay.keyframe != [] then r.inits[c := Frame(IdOf(r.clients, c), f.relay.keyframe)]
                else r.inits)
  }

  predicate CoherentAt(r: Room, c: Conn) {
    && (c in r.inits <==> c in r.relays && r.relays[c].ready)
    && (c in r.inits ==> r.inits[c] == Frame(IdOf(r.clients, c), r.relays[c].keyframe))
  }

  /** A sender has a cached init exactly when its relay is ready, and the cache is the relay's
      keyframe framed with the sender's ID. */
  ghost predicate Coherent(r: Room) {
    forall c :: CoherentAt(r, c)
  }

  /** A relay is ready exactly when it has a keyframe. */
  predicate RelayRuns(r: Room, c: Conn) {
    c in r.relays ==> (r.relays[c].ready <==> r.relays[c].keyframe != [])
  }

  ghost predicate RelaysRun(r: Room) {
    forall c :: RelayRuns(r, c)
  }

  /** What one call of feed does to readiness and keyframe. */
  lemma FedKeyframe(r: Relay, msg: Bytes)
    requires r.ready <==> r.keyframe != []
    ensures var f := FeedStep(r, msg);
            && (f.relay.ready <==> f.relay.keyframe != [])
            && (f.relay.ready <==> r.ready || f.finalized)
            && (r.ready ==> f.relay.keyframe == r.keyframe && !f.finalized)
  {
  }

  lemma BroadcastIsCoherentAt(r: Room, c: Conn, msg: Bytes, x: Conn)
    requires CoherentAt(r, x) && RelayRuns(r, x)
    ensures CoherentAt(Broadcast(r, c, msg), x) && RelayRuns(Broadcast(r, c, msg), x)
  {
    FedKeyframe(if c in r.relays && x == c then r.relays[c] else NewRelay(MAX_AUDIO_PENDING), msg);
  }

  lemma BroadcastIsCoherent(r: Room, c: Conn, msg: Bytes)
    requires Coherent(r) && RelaysRun(r)
    ensures Coherent(Broadcast(r, c, msg)) && RelaysRun(Broadcast(r, c, msg))
  {
    forall x ensures CoherentAt(Broadcast(r, c, msg), x) && RelayRuns(Broadcast(r, c, msg), x) {
      BroadcastIsCoherentAt(r, c, msg, x);
    }
  }

  /** Registering keeps coherence only for a connection without a relay, which every new one is. */
  lemma RoomStaysCoherent(r: Room, c: Conn, id: Bytes)
    requires Coherent(r) && RelaysRun(r)
    ensures Coherent(Forget(r, c)) && RelaysRun(Forget(r, c))
    ensures c !in r.relays ==> Coherent(RegisterClient(r, c, id))
    ensures RelaysRun(RegisterClient(r, c, id))
  {
    var q, g := Forget(r, c), RegisterClient(r, c, id);
    forall x ensures CoherentAt(q, x) && RelayRuns(q, x) && RelayRuns(g, x) && (c !in r.relays ==> CoherentAt(g, x)) {
      assert CoherentAt(r, x) && RelayRuns(r, x) && CoherentAt(r, c);
    }
  }
}

module AudioRoomImpl {
  import opened Common
  import opened ByteStrings
  import opened ClusterScan
  import opened IdleTimer
  import opened RelaySpec
  import opened Framing
  import opened AudioSpec
  import opened WebmRelayImpl

  class AudioRoom {
    const idleTimer: Timer
    var clients: map<Conn, Bytes>
    var audioRelays: map<Conn, WebmRelay>
    var initSegments: map<Conn, Bytes>
    ghost var Contents: map<Conn, Relay>
    ghost var Repr: set<object>

    constructor (idleTimer: Timer)
      ensures this.idleTimer == idleTimer && Valid() && View() == Room(map[], map[], map[]) && Repr == {}
    {
      this.idleTimer := idleTimer;
      clients, audioRelays, initSegments := map[], map[], map[];
      Contents, Repr := map[], {};
    }

    /** Every sender has a relay of its own, and every relay a buffer of its own; Repr holds them. */
    ghost predicate Separate()
      reads this`audioRelays, this`Repr, Repr
    {
      && this !in Repr && idleTimer !in Repr
      && (forall a :: a in audioRelays ==>
                        audioRelays[a] in Repr && audioRelays[a].buf in Repr && audioRelays[a].Valid())
      && (forall a, b :: a in audioRelays && b in audioRelays && a != b ==>
                           audioRelays[a] != audioRelays[b] && audioRelays[a].buf != audioRelays[b].buf)
    }

    /** Contents says what the relays hold. */
    ghost predicate Valid()
      reads this`audioRelays, this`Contents, this`Repr, Repr
    {
      && Separate() && audioRelays.Keys == Contents.Keys
      && forall a :: a in audioRelays ==> audioRelays[a].View() == Contents[a]
    }

    ghost function View(): Room
      reads this
    {
      Room(clients, Contents, initSegments)
    }

    /** The last section of JoinRoom. */
    method Register(c: Conn, id: Bytes)
      requires Valid()
      modifies this`clients, idleTimer
      ensures Valid() && View() == RegisterClient(old(View()), c, id) && !idleTimer.armed
    {
      idleTimer.Stop();
      clients := clients[c := id];
      assert Valid();
    }

    /** The deletions of LeaveRoom and of a failed write. */
    method Remove(c: Conn)
      requires Valid()
      modifies this`clients, this`initSegments, this`audioRelays, this`Contents
      ensures Valid() && View() == Forget(old(View()), c)
    {
      clients := clients - {c};
      initSegments := initSegments - {c};
      assert Valid();
      RemoveRelay(c);
    }

    method RemoveRelay(c: Conn)
      requires Valid()
      modifies this`audioRelays, this`Contents
      ensures Valid() && Contents == old(Contents) - {c}
    {
      audioRelays := audioRelays - {c};
      assert Separate();
      Contents := Contents - {c};
    }

    /** The sender's relay, created on its first message. */
    method RelayOf(sender: Conn) returns (relay: WebmRelay)
      requires Valid()
      modifies this`audioRelays, this`Contents, this`Repr
      ensures Valid() && sender in audioRelays && audioRelays[sender] == relay && fresh(Repr - old(Repr))
      ensures Contents == old(Contents)[sender := RelayFor(old(Contents), sender)]
    {
      if sender in audioRelays {
        relay := audioRelays[sender];
        assert Contents == Contents[sender := Contents[sender]];
      } else {
        relay := AddRelay(sender);
      }
    }

    method AddRelay(sender: Conn) returns (relay: WebmRelay)
      requires Valid() && sender !in audioRelays
      modifies this`audioRelays, this`Contents, this`Repr
      ensures Valid() && sender in audioRelays && audioRelays[sender] == relay && fresh(Repr - old(Repr))
      ensures Contents == old(Contents)[sender := NewRelay(MAX_AUDIO_PENDING)]
    {
      relay := MapRelay(sender);
      Contents := Contents[sender := NewRelay(MAX_AUDIO_PENDING)];
    }

    method MapRelay(sender: Conn) returns (relay: WebmRelay)
      requires Separate() && sender !in audioRelays
      modifies this`audioRelays, this`Repr
      ensures Separate() && audioRelays == old(audioRelays)[sender := relay] && fresh(Repr - old(Repr))
      ensures relay.Valid() && relay.View() == NewRelay(MAX_AUDIO_PENDING)
    {
      relay := new WebmRelay(MAX_AUDIO_PENDING);
      audioRelays := audioRelays[sender := relay];
      Repr := Repr + {relay, relay.buf};
    }

    /** One relay is fed; no other changes. */
    method FeedOne(sender: Conn, message: Bytes) returns (units: seq<Bytes>, finalized: bool)
      requires Separate() && sender in audioRelays
      modifies this`Repr, Repr
      ensures Separate() && fresh(Repr - old(Repr))
      ensures var f := FeedStep(old(audioRelays[sender].View()), message);
              audioRelays[sender].View() == f.relay && units == f.units && finalized == f.finalized
      ensures forall c :: c in audioRelays && c != sender ==> audioRelays[c].View() == old(audioRelays[c].View())
    {
      var relay := audioRelays[sender];
      units, finalized := relay.Feed(message);
      Repr := Repr + {relay.buf};
    }

    method FeedExisting(sender: Conn, message: Bytes) returns (units: seq<Bytes>, finalized: bool)
      requires Valid() && sender in audioRelays
      modifies this`Contents, this`Repr, Repr
      ensures Valid() && fresh(Repr - old(Repr))
      ensures var f := FeedStep(old(Contents)[sender], message);
              && Contents == old(Contents)[sender := f.relay] && units == f.units && finalized == f.finalized
    {
      units, finalized := FeedOne(sender, message);
      Tie(sender);
    }

    /** Contents catches up with one relay. */
    ghost method Tie(sender: Conn)
      requires Separate() && sender in audioRelays && audioRelays.Keys == Contents.Keys
      requires forall a :: a in audioRelays && a != sender ==> audioRelays[a].View() == Contents[a]
      modifies this`Contents
      ensures Valid() && Contents == old(Contents)[sender := old(audioRelays[sender].View())]
    {
      Contents := Contents[sender := audioRelays[sender].View()];
    }

    /** Feeds the sender's relay, made on its first message; keyframe is the relay's. */
    method FeedRelay(sender: Conn, message: Bytes) returns (keyframe: Bytes, units: seq<Bytes>, finalized: bool)
      requires Valid()
      modifies this`audioRelays, this`Contents, this`Repr, Repr
      ensures Valid() && fresh(Repr - old(Repr))
      ensures var f := FeedStep(RelayFor(old(Contents), sender), message);
              && Contents == old(Contents)[sender := f.relay] && keyframe == f.relay.keyframe
              && units == f.units && finalized == f.finalized
    {
      ghost var r := RelayFor(Contents, sender);
      UpdateTwice(Contents, sender, r, FeedStep(r, message).relay);
      var relay := RelayOf(sender);
      assert Contents[sender] == r;
      units, finalized := FeedExisting(sender, message);
      assert relay.View() == Contents[sender];
      keyframe := relay.keyframe;
    }

    /** Caches a keyframe that was just finalised, framed with the sender's ID. */
    method CacheInit(sender: Conn, id: Bytes, keyframe: Bytes, finalized: bool)
      modifies this`initSegments
      ensures initSegments == if finalized && keyframe != [] then old(initSegments)[sender := Frame(id, keyframe)]
                              else old(initSegments)
    {
      if finalized && keyframe != [] {
        initSegments := initSegments[sender := Frame(id, keyframe)];
      }
    }

    /** Feeds an accepted message and caches the keyframe it may finalise. */
    method Absorb(sender: Conn, id: Bytes, message: Bytes) returns (units: seq<Bytes>)
      requires Valid() && id == IdOf(clients, sender) && Accepts(View(), sender, message)
      modifies this`audioRelays, this`Contents, this`Repr, this`initSegments, Repr
      ensures Valid() && fresh(Repr - old(Repr)) && View() == AudioSpec.Broadcast(old(View()), sender, message)
      ensures units == Fed(old(View()), sender, message).units
    {
      ghost var f := FeedStep(RelayFor(Contents, sender), message);
      var keyframe, fedUnits, keyframeFinalized := FeedRelay(sender, message);
      assert Contents == old(Contents)[sender := f.relay] && keyframe == f.relay.keyframe;
      label Fed:
      CacheInit(sender, id, keyframe, keyframeFinalized);
      assert Repr == old@Fed(Repr) && Contents == old@Fed(Contents);
      assert Valid();
      units := fedUnits;
    }

    /** The locked part of Broadcast; the frames are then written to every target, in order. */
    method Broadcast(sender: Conn, message: Bytes) returns (frames: seq<Bytes>, targets: set<Conn>)
      requires Valid()
      modifies this`audioRelays, this`Contents, this`Repr, this`initSegments, Repr
      ensures Valid() && fresh(Repr - old(Repr)) && View() == AudioSpec.Broadcast(old(View()), sender, message)
      ensures frames == FramesOf(old(View()), sender, message)
      ensures targets == (if Accepts(old(View()), sender, message) then old(clients).Keys - {sender} else {})
    {
      var id := if sender in clients then clients[sender] else [];
      if sender in audioRelays && IsEbmlHeader(message) {
        return [], {};
      }
      var units := Absorb(sender, id, message);
      frames := FrameUnits(id, units);
      targets := clients.Keys - {sender};
    }
  }

  /** The framing loop of Broadcast. */
  method FrameUnits(id: Bytes, units: seq<Bytes>) returns (frames: seq<Bytes>)
    ensures frames == FrameAll(id, units)
  {
    frames := [];
    for i := 0 to |units|
      invariant frames == FrameAll(id, units[..i])
    {
      assert units[..i + 1] == units[..i] + [units[i]];
      FrameAllAppend(id, units[..i], [units[i]]);
      frames := frames + [Frame(id, units[i])];
    }
    assert units[..|units|] == units;
  }
}
