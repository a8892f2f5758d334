// The Cluster-aligned relay: what one call of feed does, as a function on the relay's
// fields, and the class whose Feed method does it in place.

module RelaySpec {
  import opened ByteStrings
  import opened ClusterScan

  const MAX_AUDIO_PENDING: int := 0x10_0000
  const MAX_SCREEN_PENDING: int := 0x40_0000

  /** The relay's fields. keyframe, initHeader and lastCluster are [] while nil. */
  datatype Relay = Relay(maxPending: int, pending: Bytes, ready: bool,
                         keyframe: Bytes, initHeader: Bytes, lastCluster: Bytes)

  /** units and finalized are what feed returns; fired records that a safety valve fired. */
  datatype FeedResult = FeedResult(relay: Relay, units: seq<Bytes>, finalized: bool, fired: bool)

  /** Units cut off a buffer and the bytes left in it. */
  datatype Split = Split(units: seq<Bytes>, rest: Bytes)

  function NewRelay(maxPending: int): Relay {
    Relay(maxPending, [], false, [], [], [])
  }

  /** A non-positive budget falls back to the audio budget. */
  function Budget(maxPending: int): (m: int)
    ensures m > 0
  {
    if maxPending <= 0 then MAX_AUDIO_PENDING else maxPending
  }

  /** What the emit loop cuts off a buffer: everything before the last ID it finds. */
  function Emit(p: Bytes): Split
    decreases |p|
  {
    var c := FirstId(p, 4);
    if c < 0 then Split([], p)
    else var e := Emit(p[c..]); Split([p[..c]] + e.units, e.rest)
  }

  /** The loop has cut units off whole, and pending is left. */
  ghost predicate Emitting(whole: Bytes, units: seq<Bytes>, pending: Bytes) {
    && Emit(whole).units == units + Emit(pending).units
    && Emit(whole).rest == Emit(pending).rest
  }

  lemma EmittingNext(whole: Bytes, units: seq<Bytes>, pending: Bytes)
    requires Emitting(whole, units, pending) && FirstId(pending, 4) >= 0
    ensures var c := FirstId(pending, 4); Emitting(whole, units + [pending[..c]], pending[c..])
  {
  }

  /** The offset of the second ID of a buffer, or -1: where a keyframe ends. */
  function KeyframeEnd(p: Bytes): (r: int)
    ensures r == -1 || 4 <= r <= |p| - 4
  {
    var c1 := FirstId(p, 0);
    if c1 < 0 then -1 else FirstId(p, c1 + 4)
  }

  /** The part of feed that tries to finalise the keyframe. */
  function KeyframePhase(r: Relay): FeedResult {
    var p := r.pending;
    var c2 := KeyframeEnd(p);
    if c2 >= 0 then
      FeedResult(r.(ready := true, initHeader := p[..FirstId(p, 0)], keyframe := p[..c2], pending := p[c2..]),
                 [p[..c2]], true, false)
    else if |p| > r.maxPending then
      FeedResult(r.(ready := true, keyframe := p, pending := []), [p], true, true)
    else FeedResult(r, [], false, false)
  }

  /** The part of feed that runs once the keyframe is out, k being what came before. */
  function EmitPhase(k: FeedResult): FeedResult {
    var e := Emit(k.relay.pending);
    var last := if e.units == [] then k.relay.lastCluster else e.units[|e.units| - 1];
    if |e.rest| > k.relay.maxPending then
      FeedResult(k.relay.(pending := [], lastCluster := e.rest), k.units + e.units + [e.rest], k.finalized, true)
    else
      k.(relay := k.relay.(pending := e.rest, lastCluster := last), units := k.units + e.units)
  }

  /** One call of feed. */
  function FeedStep(r: Relay, data: Bytes): FeedResult {
    var r1 := r.(maxPending := Budget(r.maxPending), pending := r.pending + data);
    var k := if r1.ready then FeedResult(r1, [], false, false) else KeyframePhase(r1);
    if k.relay.ready then EmitPhase(k) else k
  }

  /** What a relay has emitted over all calls so far. */
  datatype History = History(relay: Relay, units: seq<Bytes>, finals: nat, firings: nat)

  function Start(maxPending: int): History {
    History(NewRelay(maxPending), [], 0, 0)
  }

  /** The calls of feed, one for every message. */
  function RunFrom(h: History, msgs: seq<Bytes>): History {
    if msgs == [] then h else Extend(RunFrom(h, msgs[..|msgs| - 1]), msgs[|msgs| - 1])
  }

  function Run(maxPending: int, msgs: seq<Bytes>): History {
    RunFrom(Start(maxPending), msgs)
  }

  function Extend(h: History, msg: Bytes): History {
    var f := FeedStep(h.relay, msg);
    History(f.relay, h.units + f.units, h.finals + (if f.finalized then 1 else 0),
            h.firings + (if f.fired then 1 else 0))
  }
}

module WebmRelayImpl {
  import opened ByteStrings
  import opened ClusterScan
  import opened RelaySpec

  class WebmRelay {
    var maxPending: int
    // The pending bytes are the first len bytes of buf, whose length is the slice's capacity.
    var buf: array<Byte>
    var len: nat
    var ready: bool
    var keyframe: Bytes
    var initHeader: Bytes
    var lastCluster: Bytes

    constructor (maxPending: int)
      ensures Valid() && View() == NewRelay(maxPending) && fresh(buf)
    {
      this.maxPending, len, ready := maxPending, 0, false;
      buf := new Byte[0];
      keyframe, initHeader, lastCluster := [], [], [];
    }

    ghost predicate Valid()
      reads this
    {
      len <= buf.Length
    }

    function Pending(): Bytes
      requires Valid()
      reads this, buf
    {
      buf[..len]
    }

    ghost function View(): Relay
      requires Valid()
      reads this, buf
    {
      Relay(maxPending, Pending(), ready, keyframe, initHeader, lastCluster)
    }

    /** Makes room for n more bytes, in a new array if there is none left. */
    method Reserve(n: nat)
      requires Valid()
      modifies this`buf
      ensures Valid() && Pending() == old(Pending()) && len + n <= buf.Length
      ensures buf == old(buf) || fresh(buf)
    {
      if len + n > buf.Length {
        var bigger := new Byte[len + n];
        for i := 0 to len
          modifies bigger
          invariant bigger[..i] == buf[..i]
        {
          bigger[i] := buf[i];
        }
        buf := bigger;
      }
    }

    method Append(data: Bytes)
      requires Valid()
      modifies this`buf, this`len, buf
      ensures Valid() && Pending() == old(Pending()) + data
      ensures buf == old(buf) || fresh(buf)
    {
      Reserve(|data|);
      ghost var before := Pending();
      for i := 0 to |data|
        modifies buf
        invariant len + |data| <= buf.Length
        invariant buf[..len + i] == before + data[..i]
      {
        buf[len + i] := data[i];
      }
      len := len + |data|;
    }

    /** Copies the first n pending bytes into a fresh array. */
    method CopyOut(n: nat) returns (unit: array<Byte>)
      requires Valid() && n <= len
      ensures fresh(unit) && unit[..] == Pending()[..n]
    {
      unit := new Byte[n];
      for i := 0 to n
        invariant forall k :: 0 <= k < i ==> unit[k] == buf[k]
      {
        unit[i] := buf[i];
      }
    }

    /** Moves the bytes behind the first n down, in place. */
    method MoveDown(n: nat)
      requires Valid() && n <= len
      modifies buf
      ensures buf[..len - n] == old(buf[n..len])
    {
      for i := 0 to len - n
        invariant forall k :: 0 <= k < i ==> buf[k] == old(buf[k + n])
        invariant forall k :: i <= k < buf.Length ==> buf[k] == old(buf[k])
      {
        buf[i] := buf[i + n];
      }
    }

    /** Copies the first n pending bytes into a fresh array, and moves the others down in place. */
    method Flush(n: nat) returns (unit: array<Byte>)
      requires Valid() && n <= len
      modifies this`len, buf
      ensures Valid() && fresh(unit)
      ensures unit[..] == old(Pending())[..n] && Pending() == old(Pending())[n..]
    {
      unit := CopyOut(n);
      MoveDown(n);
      len := len - n;
      assert Pending() == old(buf[n..len]);
    }

    /** The emit loop: complete Clusters, in order. Every flush removes at least four bytes. */
    method EmitClusters() returns (units: seq<Bytes>)
      requires Valid()
      modifies this`len, this`lastCluster, buf
      ensures Valid()
      ensures units == Emit(old(Pending())).units && Pending() == Emit(old(Pending())).rest
      ensures lastCluster == if units == [] then old(lastCluster) else units[|units| - 1]
    {
      units := [];
      ghost var whole := Pending();
      while true
        invariant Valid()
        invariant Emitting(whole, units, Pending())
        invariant lastCluster == if units == [] then old(lastCluster) else units[|units| - 1]
        decreases len
      {
        var c := FindClusterOffset(Pending(), 4);
        if c < 0 {
          break;
        }
        EmittingNext(whole, units, Pending());
        var unit := Flush(c);
        units := units + [unit[..]];
        lastCluster := unit[..];
      }
    }

    /** Finalises the keyframe if a second ID has arrived, or if the buffer is over budget. */
    method TryKeyframe() returns (units: seq<Bytes>, finalized: bool)
      requires Valid()
      modifies this`len, this`ready, this`keyframe, this`initHeader, buf
      ensures Valid()
      ensures var k := KeyframePhase(old(View()));
              View() == k.relay && units == k.units && finalized == k.finalized
    {
      units, finalized := [], false;
      var c1 := FindClusterOffset(Pending(), 0);
      if c1 >= 0 {
        var c2 := FindClusterOffset(Pending(), c1 + 4);
        if c2 >= 0 {
          initHeader := Pending()[..c1];
          FinalizeKeyframe(c2);
          return [keyframe], true;
        }
      }
      if len > maxPending {
        FinalizeKeyframe(len);
        return [keyframe], true;
      }
    }

    method FinalizeKeyframe(n: nat)
      requires Valid() && n <= len
      modifies this`len, this`ready, this`keyframe, buf
      ensures Valid() && ready
      ensures keyframe == old(Pending())[..n] && Pending() == old(Pending())[n..]
    {
      var unit := Flush(n);
      keyframe := unit[..];
      ready := true;
    }

    /** Complete Clusters, and what is left raw if it is over budget. */
    method EmitUnits() returns (units: seq<Bytes>)
      requires Valid()
      modifies this`len, this`lastCluster, buf
      ensures Valid()
      ensures var f := EmitPhase(FeedResult(old(View()), [], false, false));
              View() == f.relay && units == f.units
    {
      units := EmitClusters();
      if len > maxPending {
        var unit := Flush(len);
        units := units + [unit[..]];
        lastCluster := unit[..];
      }
    }

    method Feed(data: Bytes) returns (units: seq<Bytes>, keyframeFinalized: bool)
      requires Valid()
      modifies this, buf
      ensures Valid() && (buf == old(buf) || fresh(buf))
      ensures var f := FeedStep(old(View()), data);
              View() == f.relay && units == f.units && keyframeFinalized == f.finalized
    {
      units, keyframeFinalized := [], false;
      if maxPending <= 0 {
        maxPending := MAX_AUDIO_PENDING;
      }
      Append(data);
      if !ready {
        units, keyframeFinalized := TryKeyframe();
      }
      if ready {
        ghost var k := FeedResult(View(), units, keyframeFinalized, false);
        EmitPhaseUnits(k);
        var more := EmitUnits();
        units := units + more;
      }
    }
  }

  /** The units of the second phase do not depend on those of the first. */
  lemma EmitPhaseUnits(k: FeedResult)
    ensures forall fired: bool ::
      var f, g := EmitPhase(k.(fired := fired)), EmitPhase(FeedResult(k.relay, [], false, false));
      f.relay == g.relay && f.units == k.units + g.units && f.finalized == k.finalized
  {
    var e := Emit(k.relay.pending);
    Assoc(k.units, e.units, [e.rest]);
    assert [] + e.units == e.units;
  }
}
