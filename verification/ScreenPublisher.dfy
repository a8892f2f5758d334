// One screen publisher and its viewers: each section that runs under the room's mutex, as a
// function on the publisher's fields, and the class whose methods do them in place.

module ScreenSpec {
  import opened Common
  import opened ByteStrings
  import opened ClusterScan
  import opened RelaySpec

  type UserId = string

  /** The fields of a publisher. relay is None, and sfu is None, while the pointer is nil. */
  datatype Publisher = Publisher(
    mode: string, relay: Option<Relay>, initSegment: Bytes, initHeader: Bytes, lastCluster: Bytes,
    sfu: Option<nat>, viewers: map<Conn, UserId>, initPending: set<Conn>)

  function NewPublisher(): Publisher {
    Publisher("", None, [], [], [], None, map[], {})
  }

  /** The init handed to a viewer: the keyframe's own init with the latest Cluster when both are
      cached, else the keyframe, else nothing. */
  function Handed(p: Publisher): Bytes {
    if p.initSegment == [] then []
    else if p.initHeader != [] && p.lastCluster != [] then p.initHeader + p.lastCluster
    else p.initSegment
  }

  /** What a keyframe request re-sends; nothing is sent when it is []. */
  function Cached(p: Publisher): Bytes {
    if p.initHeader != [] && p.lastCluster != [] then p.initHeader + p.lastCluster else p.initSegment
  }

  function RegisterViewer(p: Publisher, c: Conn, user: UserId): Publisher {
    p.(viewers := p.viewers[c := user], initPending := p.initPending + {c})
  }

  function MarkDelivered(p: Publisher, c: Conn): Publisher {
    p.(initPending := p.initPending - {c})
  }

  function RemoveViewer(p: Publisher, c: Conn): Publisher {
    p.(viewers := p.viewers - {c}, initPending := p.initPending - {c})
  }

  function ClearPublisher(p: Publisher): Publisher {
    p.(viewers := map[], initPending := {}, sfu := None)
  }

  /** A later message that starts with the EBML magic is dropped. */
  predicate Accepts(p: Publisher, msg: Bytes) {
    p.relay.None? || !IsEbmlHeader(msg)
  }

  /** What feed does with an accepted message. */
  function Fed(p: Publisher, msg: Bytes): FeedResult {
    FeedStep(if p.relay.Some? then p.relay.value else NewRelay(MAX_SCREEN_PENDING), msg)
  }

  /** The units a message makes; none when it is dropped. */
  function UnitsOf(p: Publisher, msg: Bytes): seq<Bytes> {
    if Accepts(p, msg) then Fed(p, msg).units else []
  }

  /** The locked part of BroadcastScreen: caches refreshed, gates opened by the keyframe. */
  function Broadcast(p: Publisher, self: Conn, msg: Bytes): Publisher {
    if !Accepts(p, msg) then p else
    var f := Fed(p, msg);
    p.(relay := Some(f.relay),
       initSegment := if f.finalized && f.relay.keyframe != [] then f.relay.keyframe else p.initSegment,
       initHeader := if f.finalized && f.relay.keyframe != [] && f.relay.initHeader != [] then f.relay.initHeader
                     else p.initHeader,
       lastCluster := if f.relay.lastCluster != [] then f.relay.lastCluster else p.lastCluster,
       initPending := if f.finalized then p.initPending - (p.viewers.Keys - {self}) else p.initPending)
  }

  /** Viewer c gets the units of this message. */
  predicate Receives(p: Publisher, self: Conn, msg: Bytes, c: Conn) {
    && Accepts(p, msg) && c in p.viewers && c != self
    && (Fed(p, msg).finalized || c !in p.initPending)
  }
}

module ScreenPublisherImpl {
  import opened Common
  import opened ByteStrings
  import opened ClusterScan
  import opened RelaySpec
  import opened ScreenSpec
  import opened WebmRelayImpl

  /** The data decided for connection c, in order. */
  function WritesTo(writes: seq<(Conn, Bytes)>, c: Conn): seq<Bytes> {
    if writes == [] then []
    else WritesTo(writes[..|writes| - 1], c) + (if writes[|writes| - 1].0 == c then [writes[|writes| - 1].1] else [])
  }

  lemma WritesToSnoc(writes: seq<(Conn, Bytes)>, w: (Conn, Bytes), c: Conn)
    ensures WritesTo(writes + [w], c) == WritesTo(writes, c) + (if w.0 == c then [w.1] else [])
  {
    assert (writes + [w])[..|writes|] == writes;
  }

  lemma WritesToAllSnoc(writes: seq<(Conn, Bytes)>, to: Conn, unit: Bytes)
    ensures forall c :: WritesTo(writes + [(to, unit)], c) == WritesTo(writes, c) + (if to == c then [unit] else [])
  {
    forall c { WritesToSnoc(writes, (to, unit), c); }
  }

  class ScreenPublisher {
    const conn: Conn
    const userID: UserId
    var mode: string
    var relay: WebmRelay?
    var initSegment: Bytes
    var initHeader: Bytes
    var lastCluster: Bytes
    var sfu: Option<nat>
    var viewers: map<Conn, UserId>
    var initPending: set<Conn>

    constructor (conn: Conn, userID: UserId)
      ensures this.conn == conn && this.userID == userID && relay == null && Valid() && View() == NewPublisher()
    {
      this.conn, this.userID := conn, userID;
      mode, relay, sfu := "", null, None;
      initSegment, initHeader, lastCluster := [], [], [];
      viewers, initPending := map[], {};
    }

    /** The buffer of the relay, once there is one. */
    ghost function Buffer(): set<object>
      reads this, relay
    {
      if relay == null then {} else {relay.buf}
    }

    ghost predicate Valid()
      reads this, relay
    {
      relay != null ==> relay.Valid()
    }

    ghost function View(): Publisher
      requires Valid()
      reads this, relay, Buffer()
    {
      Publisher(mode, if relay == null then None else Some(relay.View()),
                initSegment, initHeader, lastCluster, sfu, viewers, initPending)
    }

    /** RegisterScreenViewer's section, but for the room's idle timer. */
    method AddViewer(c: Conn, user: UserId) returns (initSeg: Bytes)
      requires Valid()
      modifies this`viewers, this`initPending
      ensures Valid() && View() == RegisterViewer(old(View()), c, user)
      ensures viewers == old(viewers)[c := user] && initPending == old(initPending) + {c}
      ensures initSeg == Handed(old(View()))
    {
      viewers := viewers[c := user];
      initPending := initPending + {c};
      if initSegment == [] {
        return [];
      }
      if initHeader != [] && lastCluster != [] {
        return initHeader + lastCluster;
      }
      return initSegment;
    }

    method MarkScreenInitDelivered(c: Conn)
      requires Valid()
      modifies this`initPending
      ensures Valid() && View() == MarkDelivered(old(View()), c)
    {
      initPending := initPending - {c};
    }

    /** Returns whom to tell the publisher about, the mode, and the SFU to remove the viewer from. */
    method RemoveScreenViewer(c: Conn) returns (user: UserId, mode: string, sfu: Option<nat>)
      requires Valid()
      modifies this`viewers, this`initPending
      ensures Valid() && View() == RemoveViewer(old(View()), c)
      ensures viewers == old(viewers) - {c} && initPending == old(initPending) - {c}
      ensures user == (if c in old(viewers) then old(viewers)[c] else "") && mode == this.mode && sfu == this.sfu
    {
      user := if c in viewers then viewers[c] else "";
      viewers := viewers - {c};
      initPending := initPending - {c};
      mode, sfu := this.mode, this.sfu;
    }

    /** Returns the viewers to close and the SFU to close. */
    method Clear() returns (closing: set<Conn>, closed: Option<nat>)
      requires Valid()
      modifies this`viewers, this`initPending, this`sfu
      ensures Valid() && View() == ClearPublisher(old(View()))
      ensures closing == old(viewers.Keys) && closed == old(sfu)
    {
      closing, closed := viewers.Keys, sfu;
      viewers, initPending, sfu := map[], {}, None;
    }

    /** The inner loop of BroadcastScreen: one unit to every viewer whose gate is open. */
    method DecideUnit(unit: Bytes, isKeyframe: bool, decided: seq<(Conn, Bytes)>) returns (writes: seq<(Conn, Bytes)>)
      modifies this`initPending
      ensures initPending == if isKeyframe then old(initPending) - (viewers.Keys - {conn}) else old(initPending)
      ensures forall c :: WritesTo(writes, c) ==
                          WritesTo(decided, c) +
                          if c in Open(viewers, old(initPending), isKeyframe) then [unit] else []
    {
      writes := decided;
      ghost var pending0 := initPending;
      var todo := viewers.Keys;
      while todo != {}
        invariant todo <= viewers.Keys
        invariant initPending == if isKeyframe then pending0 - (viewers.Keys - todo - {conn}) else pending0
        invariant forall c :: WritesTo(writes, c) ==
                              WritesTo(decided, c) +
                              if c in Open(viewers, pending0, isKeyframe) - todo then [unit] else []
      {
        var client :| client in todo;
        todo := todo - {client};
        ghost var before := writes;
        if client == conn {
        } else if isKeyframe {
          writes := writes + [(client, unit)];
          initPending := initPending - {client};
        } else if client !in initPending {
          writes := writes + [(client, unit)];
        }
        if writes != before { WritesToAllSnoc(before, client, unit); }
      }
    }

    /** The viewers whose gate is open for a unit. */
    ghost function Open(viewers: map<Conn, UserId>, initPending: set<Conn>, isKeyframe: bool): set<Conn> {
      set c | c in viewers && c != conn && (isKeyframe || c !in initPending)
    }

    /** BroadcastScreen's two loops, units outside and viewers inside. */
    method DecideWrites(units: seq<Bytes>, finalized: bool) returns (writes: seq<(Conn, Bytes)>)
      modifies this`initPending
      ensures initPending == if finalized && units != [] then old(initPending) - (viewers.Keys - {conn})
                             else old(initPending)
      ensures forall c :: WritesTo(writes, c) == (if c in Open(viewers, old(initPending), finalized) then units else [])
    {
      writes := [];
      ghost var open := Open(viewers, initPending, finalized);
      for i := 0 to |units|
        invariant initPending == if finalized && i > 0 then old(initPending) - (viewers.Keys - {conn})
                                 else old(initPending)
        invariant forall c :: WritesTo(writes, c) == (if c in open then units[..i] else [])
      {
        writes := DecideUnit(units[i], finalized && i == 0, writes);
        assert units[..i] + [units[i]] == units[..i + 1];
      }
      assert units[..|units|] == units;
    }

    /** Copies the relay's keyframe, init and latest Cluster into the publisher's caches. */
    method RefreshCaches(keyframeFinalized: bool)
      requires relay != null
      modifies this`initSegment, this`initHeader, this`lastCluster
      ensures var r, fin := relay, keyframeFinalized && relay.keyframe != [];
              && initSegment == (if fin then r.keyframe else old(initSegment))
              && initHeader == (if fin && r.initHeader != [] then r.initHeader else old(initHeader))
              && lastCluster == (if r.lastCluster != [] then r.lastCluster else old(lastCluster))
    {
      if keyframeFinalized && relay.keyframe != [] {
        initSegment := relay.keyframe;
        if relay.initHeader != [] {
          initHeader := relay.initHeader;
        }
      }
      if relay.lastCluster != [] {
        lastCluster := relay.lastCluster;
      }
    }

    /** Feeds an accepted message to the relay, which the first message creates. */
    method FeedRelay(message: Bytes) returns (units: seq<Bytes>, finalized: bool)
      requires Valid() && Accepts(View(), message)
      modifies this`relay, this`initSegment, this`initHeader, this`lastCluster, relay, Buffer()
      ensures Valid()
      ensures var f := Fed(old(View()), message);
              && units == f.units && finalized == f.finalized
              && View() == Broadcast(old(View()), conn, message).(initPending := old(initPending))
      ensures relay != null && (relay == old(relay) || fresh(relay)) && fresh(Buffer() - old(Buffer()))
    {
      if relay == null {
        relay := new WebmRelay(MAX_SCREEN_PENDING);
      }
      units, finalized := relay.Feed(message);
      RefreshCaches(finalized);
    }

    /** The locked part of BroadcastScreen; the writes are performed later, in order. */
    method BroadcastScreen(message: Bytes) returns (writes: seq<(Conn, Bytes)>)
      requires Valid()
      modifies this, relay, Buffer()
      ensures Valid() && View() == Broadcast(old(View()), conn, message)
      ensures relay != null && (relay == old(relay) || fresh(relay)) && fresh(Buffer() - old(Buffer()))
      ensures forall c :: WritesTo(writes, c) ==
                          if Receives(old(View()), conn, message, c) then UnitsOf(old(View()), message) else []
      ensures WritesTo(writes, conn) == []
    {
      if relay != null && IsEbmlHeader(message) {
        return [];
      }
      FinalizedHasUnit(View(), message);
      var units, keyframeFinalized := FeedRelay(message);
      writes := DecideWrites(units, keyframeFinalized);
    }

    /** The hello, without interference: announces a mode, and for "sfu" makes sure of an SFU, whose creation
        may fail, and finds the viewers to add to it. */
    method Hello(announced: string, created: Option<nat>) returns (toAdd: set<Conn>)
      requires Valid()
      modifies this`mode, this`sfu
      ensures Valid()
      ensures announced != "sfu" ==> View() == old(View()).(mode := if announced == "" then old(mode) else announced)
      ensures announced == "sfu" ==>
                View() == old(View()).(mode := "sfu", sfu := if old(sfu).Some? then old(sfu) else created)
      ensures toAdd == if announced == "sfu" && sfu.Some? then viewers.Keys else {}
    {
      toAdd := {};
      if announced != "" {
        mode := announced;
        if announced == "sfu" {
          if sfu.None? {
            sfu := created;
          }
          if sfu.Some? {
            toAdd := viewers.Keys;
          }
        }
      }
    }
  }

  lemma FinalizedHasUnit(p: Publisher, msg: Bytes)
    ensures Fed(p, msg).finalized ==> Fed(p, msg).units != []
  {
  }
}
