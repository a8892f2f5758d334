// The voice SFU's bookkeeping: each section that runs under its mutex, as a function on its maps,
// and the class whose methods update the maps in place. Peer connections are opaque.

module VoiceSpec {
  import opened Common

  type User = string

  // A local fan-out track is an opaque handle; every track that arrives makes a new one.
  type Track = nat

  /** publishers says of each publisher which track it has, if one has arrived; subs maps every
      (connection, publisher) pair that has a downstream connection to the track that carries. */
  datatype Voice = Voice(publishers: map<User, Option<Track>>, participants: map<Conn, User>,
                         subs: map<(Conn, User), Track>, closed: bool)

  datatype Claim = ClaimClosed | ClaimTaken | Claimed

  function Empty(closed: bool): Voice {
    Voice(map[], map[], map[], closed)
  }

  function RegisterParticipant(v: Voice, c: Conn, u: User): Voice {
    if v.closed then v else v.(participants := v.participants[c := u])
  }

  function ClaimOf(v: Voice, u: User): Claim {
    if v.closed then ClaimClosed else if u in v.publishers then ClaimTaken else Claimed
  }

  /** The first connection of a user becomes its publisher. */
  function ClaimPublisher(v: Voice, u: User): Voice {
    if ClaimOf(v, u).Claimed? then v.(publishers := v.publishers[u := None]) else v
  }

  /** current tells whether the publisher object the track arrived on is still the mapped one. */
  function TrackArrived(v: Voice, u: User, t: Track, current: bool): Voice {
    if current && u in v.publishers then v.(publishers := v.publishers[u := Some(t)]) else v
  }

  /** The participants a track is offered to: everyone but the publisher's own user. */
  function Targets(v: Voice, u: User): set<Conn> {
    set c | c in v.participants && v.participants[c] != u
  }

  /** The publishers a newcomer is offered, and their tracks: everyone else's. */
  function Known(v: Voice, u: User): map<User, Track> {
    map p | p in v.publishers && p != u && v.publishers[p].Some? :: v.publishers[p].value
  }

  predicate Insertable(v: Voice, c: Conn, p: User) {
    !v.closed && (c, p) !in v.subs
  }

  function InsertSub(v: Voice, c: Conn, p: User, t: Track): Voice {
    if Insertable(v, c, p) then v.(subs := v.subs[(c, p) := t]) else v
  }

  function RemoveSub(v: Voice, c: Conn, p: User): Voice {
    v.(subs := v.subs - {(c, p)})
  }

  function RemovePub(v: Voice, u: User): Voice {
    v.(publishers := v.publishers - {u})
  }

  function UserAt(v: Voice, c: Conn): User {
    if c in v.participants then v.participants[c] else ""
  }

  /** Everything of a connection, and everyone's downstream connection to its user. */
  function RemoveConn(v: Voice, c: Conn): Voice {
    var u := UserAt(v, c);
    v.(participants := v.participants - {c},
       publishers := if u == "" then v.publishers else v.publishers - {u},
       subs := map e | e in v.subs && e.0 != c && (u == "" || e.1 != u) :: v.subs[e])
  }
}

module VoiceSfuImpl {
  import opened Common
  import opened VoiceSpec
  import IceGate

  class VoicePublisher {
    const userID: User
    const conn: Conn
    const gate: IceGate.Gate
    var local: Option<Track>

    constructor (userID: User, conn: Conn, gate: IceGate.Gate)
      ensures this.userID == userID && this.conn == conn && local == None
    {
      this.userID, this.conn, this.gate, local := userID, conn, gate, None;
    }
  }

  /** One downstream connection and the track it carries. */
  class VoiceSubscriber {
    const publisherID: User
    const conn: Conn
    const local: Track
    const gate: IceGate.Gate

    constructor (publisherID: User, conn: Conn, local: Track, gate: IceGate.Gate)
      ensures this.publisherID == publisherID && this.conn == conn && this.local == local
    {
      this.publisherID, this.conn, this.local, this.gate := publisherID, conn, local, gate;
    }
  }

  class VoiceSFU {
    var publishers: map<User, VoicePublisher>
    var participants: map<Conn, User>
    var subscribers: map<Conn, map<User, VoiceSubscriber>>
    var closed: bool
    ghost var subs: map<(Conn, User), Track>

    constructor ()
      ensures Valid() && View() == Empty(false)
    {
      publishers, participants, subscribers, closed := map[], map[], map[], false;
      subs := map[];
    }

    /** subs flattens the nested map of downstream connections. */
    ghost predicate Valid()
      reads this
    {
      && (forall u :: u in publishers ==> publishers[u].userID == u)
      && (forall e :: e in subs <==> e.0 in subscribers && e.1 in subscribers[e.0])
      && (forall e :: e in subs ==> subs[e] == subscribers[e.0][e.1].local)
    }

    ghost function View(): Voice
      reads this, publishers.Values
    {
      Voice(map u | u in publishers :: publishers[u].local, participants, subs, closed)
    }

    method Register(c: Conn, u: User)
      requires Valid()
      modifies this`participants, this`subscribers
      ensures Valid() && View() == RegisterParticipant(old(View()), c, u)
      ensures participants == if closed then old(participants) else old(participants)[c := u]
    {
      if closed {
        return;
      }
      participants := participants[c := u];
      AddRow(c);
    }

    /** Makes the inner map of a connection that has none. */
    method AddRow(c: Conn)
      requires Valid()
      modifies this`subscribers
      ensures Valid() && c in subscribers
    {
      if c !in subscribers {
        subscribers := subscribers[c := map[]];
      }
    }

    /** HandleOffer's section: pub is the new publisher, or null when there is none to negotiate. */
    method Claim(c: Conn, u: User, gate: IceGate.Gate) returns (claim: VoiceSpec.Claim, pub: VoicePublisher?)
      requires Valid()
      modifies this`publishers
      ensures Valid() && View() == ClaimPublisher(old(View()), u) && claim == ClaimOf(old(View()), u)
      ensures pub != null <==> claim.Claimed?
      ensures pub != null ==> fresh(pub) && u in publishers && publishers[u] == pub
    {
      if closed {
        return ClaimClosed, null;
      }
      if u in publishers {
        return ClaimTaken, null;
      }
      var p := new VoicePublisher(u, c, gate);
      publishers := publishers[u := p];
      return Claimed, p;
    }

    /** onPublisherTrack's section. */
    method OnPublisherTrack(pub: VoicePublisher, t: Track) returns (targets: set<Conn>)
      requires Valid()
      modifies pub`local
      ensures Valid()
      ensures View() == TrackArrived(old(View()), pub.userID, t,
                                     pub.userID in publishers && publishers[pub.userID] == pub)
      ensures targets == Targets(old(View()), pub.userID)
    {
      pub.local := Some(t);
      targets := {};
      var todo := participants.Keys;
      while todo != {}
        invariant todo <= participants.Keys
        invariant targets == set c | c in participants.Keys - todo && participants[c] != pub.userID
      {
        var c :| c in todo;
        todo := todo - {c};
        if participants[c] != pub.userID {
          targets := targets + {c};
        }
      }
    }

    /** fanOutExistingTo's section. */
    method KnownPublishers(u: User) returns (pubs: map<User, Track>)
      requires Valid()
      ensures pubs == Known(View(), u)
    {
      pubs := map[];
      var todo := publishers.Keys;
      while todo != {}
        invariant todo <= publishers.Keys
        invariant pubs == map p | p in publishers.Keys - todo && p != u && publishers[p].local.Some? ::
                            publishers[p].local.value
      {
        var p :| p in todo;
        todo := todo - {p};
        if p != u && publishers[p].local.Some? {
          pubs := pubs[p := publishers[p].local.value];
        }
      }
    }

    /** sendOfferTo's section: only the call that inserts goes on to create an offer. */
    method Insert(c: Conn, p: User, sub: VoiceSubscriber) returns (inserted: bool)
      requires Valid()
      modifies this`subscribers, this`subs
      ensures Valid() && View() == InsertSub(old(View()), c, p, sub.local) && inserted == Insertable(old(View()), c, p)
    {
      if closed {
        return false;
      }
      AddRow(c);
      if p in subscribers[c] {
        return false;
      }
      subscribers := subscribers[c := subscribers[c][p := sub]];
      subs := subs[(c, p) := sub.local];
      return true;
    }

    /** Returns the downstream connection to close, if there is one. */
    method RemoveSubscriber(c: Conn, p: User) returns (sub: VoiceSubscriber?)
      requires Valid()
      modifies this`subscribers, this`subs
      ensures Valid() && View() == RemoveSub(old(View()), c, p)
      ensures subscribers == if c in old(subscribers) then old(subscribers)[c := old(subscribers)[c] - {p}]
                             else old(subscribers)
      ensures sub == if c in old(subscribers) && p in old(subscribers)[c] then old(subscribers)[c][p] else null
    {
      sub := null;
      if c in subscribers {
        if p in subscribers[c] {
          sub := subscribers[c][p];
        }
        subscribers := subscribers[c := subscribers[c] - {p}];
      }
      subs := subs - {(c, p)};
    }

    /** Returns the publisher to close, if there is one. */
    method RemovePublisher(u: User) returns (pub: VoicePublisher?)
      requires Valid()
      modifies this`publishers
      ensures Valid() && View() == RemovePub(old(View()), u)
      ensures publishers == old(publishers) - {u}
      ensures pub == if u in old(publishers) then old(publishers)[u] else null
    {
      pub := if u in publishers then publishers[u] else null;
      publishers := publishers - {u};
    }

    /** The loop of RemoveParticipant over everyone's downstream connection to user u: deletes them
        and collects them. */
    method DeleteStale(u: User) returns (stale: set<VoiceSubscriber>)
      modifies this`subscribers
      ensures subscribers == map c | c in old(subscribers) :: old(subscribers)[c] - {u}
      ensures stale == Downstream(old(subscribers), u)
    {
      stale := {};
      ghost var before := subscribers;
      var todo := subscribers.Keys;
      while todo != {}
        invariant todo <= subscribers.Keys == before.Keys
        invariant forall c :: c in before ==> subscribers[c] == if c in todo then before[c] else before[c] - {u}
        invariant stale == set c | c in before.Keys - todo && u in before[c] :: before[c][u]
      {
        var c :| c in todo;
        todo := todo - {c};
        if u in subscribers[c] {
          stale := stale + {subscribers[c][u]};
        }
        subscribers := subscribers[c := subscribers[c] - {u}];
      }
    }

    method RemoveStale(u: User) returns (stale: set<VoiceSubscriber>)
      requires Valid()
      modifies this`subscribers, this`subs
      ensures Valid()
      ensures subs == map e | e in old(subs) && e.1 != u :: old(subs)[e]
      ensures stale == Downstream(old(subscribers), u)
    {
      stale := DeleteStale(u);
      subs := map e | e in subs && e.1 != u :: subs[e];
    }

    ghost function Downstream(m: map<Conn, map<User, VoiceSubscriber>>, u: User): set<VoiceSubscriber> {
      set c | c in m && u in m[c] :: m[c][u]
    }

    method RemoveOwn(c: Conn) returns (own: set<VoiceSubscriber>)
      requires Valid()
      modifies this`subscribers, this`subs
      ensures Valid()
      ensures subs == map e | e in old(subs) && e.0 != c :: old(subs)[e]
      ensures subscribers == old(subscribers) - {c}
      ensures own == if c in old(subscribers) then old(subscribers)[c].Values else {}
    {
      own := if c in subscribers then subscribers[c].Values else {};
      subscribers := subscribers - {c};
      subs := map e | e in subs && e.0 != c :: subs[e];
    }

    /** A connection's own downstream connections and everyone's to its user. */
    method RemoveSubs(c: Conn, u: User) returns (own: set<VoiceSubscriber>, stale: set<VoiceSubscriber>)
      requires Valid()
      modifies this`subscribers, this`subs
      ensures Valid() && subs == map e | e in old(subs) && e.0 != c && (u == "" || e.1 != u) :: old(subs)[e]
      ensures own == if c in old(subscribers) then old(subscribers)[c].Values else {}
      ensures stale == if u == "" then {} else Downstream(old(subscribers) - {c}, u)
    {
      own := RemoveOwn(c);
      stale := {};
      if u != "" {
        stale := RemoveStale(u);
      }
    }

    /** Returns what is to be closed afterwards, the upstream and the downstream connections, and the
        participants to notify. */
    method RemoveParticipant(c: Conn)
      returns (pub: VoicePublisher?, own: set<VoiceSubscriber>, stale: set<VoiceSubscriber>, remaining: set<Conn>)
      requires Valid()
      modifies this`publishers, this`participants, this`subscribers, this`subs
      ensures Valid() && View() == RemoveConn(old(View()), c)
      ensures var u := UserAt(old(View()), c);
              && pub == (if u != "" && u in old(publishers) then old(publishers)[u] else null)
              && own == (if c in old(subscribers) then old(subscribers)[c].Values else {})
              && stale == (if u == "" then {} else Downstream(old(subscribers) - {c}, u))
      ensures remaining == old(participants).Keys - {c}
    {
      var u := if c in participants then participants[c] else "";
      participants := participants - {c};
      pub := null;
      if u != "" {
        pub := RemovePublisher(u);
      }
      assert subs == old(subs) && subscribers == old(subscribers);
      own, stale := RemoveSubs(c, u);
      remaining := participants.Keys;
    }

    /** Returns every upstream and downstream connection, to be closed; nothing the second time. */
    method Close() returns (pubs: set<VoicePublisher>, downstream: set<VoiceSubscriber>)
      requires Valid()
      modifies this
      ensures Valid() && View() == if old(closed) then old(View()) else Empty(true)
      ensures closed && (!old(closed) ==> publishers == map[] && participants == map[] && subscribers == map[])
      ensures pubs == if old(closed) then {} else old(publishers).Values
      ensures downstream == set c, p | !old(closed) && c in old(subscribers) && p in old(subscribers)[c] ::
                              old(subscribers)[c][p]
    {
      if closed {
        return {}, {};
      }
      closed := true;
      pubs := publishers.Values;
      downstream := AllSubscribers();
      publishers, participants, subscribers := map[], map[], map[];
      subs := map[];
    }

    /** The two loops of Close over the downstream connections. */
    method AllSubscribers() returns (all: set<VoiceSubscriber>)
      ensures all == set c, p | c in subscribers && p in subscribers[c] :: subscribers[c][p]
    {
      all := {};
      var todo := subscribers.Keys;
      while todo != {}
        invariant todo <= subscribers.Keys
        invariant all == set c, p | c in subscribers.Keys - todo && p in subscribers[c] :: subscribers[c][p]
      {
        var c :| c in todo;
        todo := todo - {c};
        assert subscribers[c].Values == set p | p in subscribers[c] :: subscribers[c][p];
        all := all + subscribers[c].Values;
      }
    }
  }
}
