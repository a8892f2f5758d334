// What the relay guarantees over any sequence of calls.

/** Conservation, the pending bound, and what the relay's fields hold. */
module RelayConservation {
  import opened ByteStrings
  import opened ClusterScan
  import opened RelaySpec

  /** No unit is empty. */
  predicate Solid(units: seq<Bytes>) {
    forall k :: 0 <= k < |units| ==> units[k] != []
  }

  lemma {:induction false} EmitConserves(p: Bytes)
    ensures Concat(Emit(p).units) + Emit(p).rest == p
    decreases |p|
  {
    var c := FirstId(p, 4);
    if c >= 0 {
      var e := Emit(p[c..]);
      EmitConserves(p[c..]);
      ConcatCons(p[..c], e.units);
      Assoc(p[..c], Concat(e.units), e.rest);
      TakeDrop(p, c);
    }
  }

  lemma {:induction false} EmitSolid(p: Bytes)
    ensures Solid(Emit(p).units)
    decreases |p|
  {
    var c := FirstId(p, 4);
    if c >= 0 { EmitSolid(p[c..]); }
  }

  lemma EmitPhaseConserves(k: FeedResult)
    requires k.relay.maxPending > 0
    ensures var f := EmitPhase(k);
            && Concat(f.units) + f.relay.pending == Concat(k.units) + k.relay.pending
            && |f.relay.pending| <= k.relay.maxPending
            && |f.relay.pending| + (if f.fired && !k.fired then k.relay.maxPending + 1 else 0) <= |k.relay.pending|
  {
    var f, e := EmitPhase(k), Emit(k.relay.pending);
    EmitConserves(k.relay.pending);
    ConcatAppend(k.units, e.units);
    ConcatSnoc(k.units + e.units, e.rest);
    Assoc(Concat(k.units), Concat(e.units), e.rest);
    assert Concat(f.units) + f.relay.pending == Concat(f.units + [f.relay.pending]) by {
      ConcatSnoc(f.units, f.relay.pending);
    }
  }

  /** No call loses, repeats or reorders a byte, and pending stays within the budget. */
  lemma FeedConserves(r: Relay, data: Bytes)
    ensures var f := FeedStep(r, data); var max := Budget(r.maxPending);
            && Concat(f.units) + f.relay.pending == r.pending + data
            && |f.relay.pending| <= max == f.relay.maxPending
            && |f.relay.pending| + (if f.fired then max + 1 else 0) <= |r.pending| + |data|
  {
    var r1 := r.(maxPending := Budget(r.maxPending), pending := r.pending + data);
    var k := if r1.ready then FeedResult(r1, [], false, false) else KeyframePhase(r1);
    assert Concat(k.units) + k.relay.pending == r1.pending by {
      if k.units != [] { assert Concat(k.units) == k.units[0]; }
    }
    if k.relay.ready { EmitPhaseConserves(k); }
  }

  /** The relay's fields after a run that has emitted units. */
  predicate FieldsFollow(r: Relay, units: seq<Bytes>) {
    && (r.ready <==> units != [])
    && r.keyframe == (if units == [] then [] else units[0])
    && r.lastCluster == (if |units| < 2 then [] else units[|units| - 1])
    && r.initHeader <= r.keyframe
    && Solid(units)
  }

  lemma SolidAppend(a: seq<Bytes>, b: seq<Bytes>)
    requires Solid(a) && Solid(b)
    ensures Solid(a + b)
  {
  }

  /** Emitting more units after the keyframe keeps the fields in step. */
  lemma FieldsAppend(r: Relay, r': Relay, units: seq<Bytes>, more: seq<Bytes>)
    requires FieldsFollow(r, units) && r.ready && Solid(more)
    requires r'.(pending := r.pending, lastCluster := r.lastCluster, maxPending := r.maxPending) == r
    requires r'.lastCluster == if more == [] then r.lastCluster else more[|more| - 1]
    ensures FieldsFollow(r', units + more)
  {
    SolidAppend(units, more);
    if more != [] { assert (units + more)[|units| + |more| - 1] == more[|more| - 1]; }
  }

  lemma EmitPhaseFields(k: FeedResult, units: seq<Bytes>)
    requires FieldsFollow(k.relay, units + k.units) && k.relay.ready && k.relay.maxPending > 0
    ensures FieldsFollow(EmitPhase(k).relay, units + EmitPhase(k).units)
  {
    var e, f := Emit(k.relay.pending), EmitPhase(k);
    var more := if |e.rest| > k.relay.maxPending then e.units + [e.rest] else e.units;
    EmitSolid(k.relay.pending);
    FieldsAppend(k.relay, f.relay, units + k.units, more);
    Assoc(units, k.units, more);
    Assoc(k.units, e.units, [e.rest]);
  }

  lemma FeedFields(r: Relay, units: seq<Bytes>, data: Bytes)
    requires FieldsFollow(r, units)
    ensures var f := FeedStep(r, data);
            && FieldsFollow(f.relay, units + f.units)
            && (f.finalized <==> units == [] && f.units != [])
            && (r.ready ==> f.relay.keyframe == r.keyframe && f.relay.initHeader == r.initHeader)
  {
    var r1 := r.(maxPending := Budget(r.maxPending), pending := r.pending + data);
    var k := if r1.ready then FeedResult(r1, [], false, false) else KeyframePhase(r1);
    assert FieldsFollow(k.relay, units + k.units) by {
      if r1.ready { assert units + k.units == units; } else { assert units + k.units == k.units; }
    }
    if k.relay.ready { EmitPhaseFields(k, units); }
  }

  ghost predicate Conserved(h: History, total: Bytes, max: int) {
    && Concat(h.units) + h.relay.pending == total
    && |h.relay.pending| <= max
    && h.firings * (max + 1) + |h.relay.pending| <= |total|
    && h.finals == (if h.units == [] then 0 else 1)
    && Budget(h.relay.maxPending) == max
    && FieldsFollow(h.relay, h.units)
  }

  /** Whatever the messages: the units and the pending bytes are the input, in order; the
      pending bytes stay within the budget; every valve firing has cost more than a budget of
      input; the keyframe is finalised in at most one call and is the first unit of all. */
  lemma {:induction false} RelayConserves(maxPending: int, msgs: seq<Bytes>)
    ensures Conserved(Run(maxPending, msgs), Concat(msgs), Budget(maxPending))
    ensures maxPending > 0 ==> |Run(maxPending, msgs).relay.pending| <= maxPending
    decreases |msgs|
  {
    if msgs != [] {
      var before, msg := msgs[..|msgs| - 1], msgs[|msgs| - 1];
      RelayConserves(maxPending, before);
      var h := Run(maxPending, before);
      ConcatSnoc(before, msg);
      assert before + [msg] == msgs;
      ConservedNext(h, Concat(before), msg, Budget(maxPending));
    }
  }

  /** A relay made with a budget that is not positive runs like one with the audio budget of 1 MiB. */
  lemma {:induction false} DefaultBudget(maxPending: int, msgs: seq<Bytes>)
    requires maxPending <= 0
    ensures var h := Run(0x10_0000, msgs);
            Run(maxPending, msgs) == if msgs == [] then Start(maxPending) else h
    decreases |msgs|
  {
    if msgs != [] {
      var before := msgs[..|msgs| - 1];
      DefaultBudget(maxPending, before);
      FeedConserves(Run(0x10_0000, before).relay, msgs[|msgs| - 1]);
    }
  }

  lemma ConservedNext(h: History, total: Bytes, msg: Bytes, max: int)
    requires Conserved(h, total, max)
    ensures Conserved(Extend(h, msg), total + msg, max)
  {
    var f := FeedStep(h.relay, msg);
    FeedConserves(h.relay, msg);
    FeedFields(h.relay, h.units, msg);
    BytesNext(h, total, msg);
    FiringCost(h.firings, f.fired, max, |h.relay.pending| + |msg|, |f.relay.pending|, |total| + |msg|);
  }

  lemma BytesNext(h: History, total: Bytes, msg: Bytes)
    requires Concat(h.units) + h.relay.pending == total
    ensures Concat(Extend(h, msg).units) + Extend(h, msg).relay.pending == total + msg
  {
    var f := FeedStep(h.relay, msg);
    FeedConserves(h.relay, msg);
    ConcatAppend(h.units, f.units);
    Assoc(Concat(h.units), Concat(f.units), f.relay.pending);
    Assoc(Concat(h.units), h.relay.pending, msg);
  }

  /** A firing more costs a budget more. */
  lemma FiringCost(n: nat, fired: bool, max: int, held: nat, left: nat, total: nat)
    requires n * (max + 1) + held <= total && left + (if fired then max + 1 else 0) <= held
    ensures (n + if fired then 1 else 0) * (max + 1) + left <= total
  {
  }
}

/** The pure split of a stream at its Cluster IDs, and when the relay computes it. */
module PureSplit {
  import opened ByteStrings
  import opened ClusterScan
  import opened RelaySpec
  import opened RelayConservation

  /** A buffer that starts with an ID and holds no other. */
  ghost predicate IsCluster(u: Bytes) {
    OnlyIdAt(u, 0)
  }

  ghost predicate AreClusters(units: seq<Bytes>) {
    forall k :: 0 <= k < |units| ==> IsCluster(units[k])
  }

  /** The stream cut at every ID but the first: with fewer than two IDs nothing is cut; otherwise
      the first unit holds exactly one ID, every later unit and the rest start with their only ID. */
  ghost predicate IsPureSplit(s: Bytes, sp: Split) {
    && Concat(sp.units) + sp.rest == s
    && if sp.units == [] then forall i, j :: IdAt(s, i) && IdAt(s, j) ==> i == j
       else && (exists i :: OnlyIdAt(sp.units[0], i))
            && AreClusters(sp.units[1..])
            && IsCluster(sp.rest)
  }

  /** The split in one pass over the whole stream. */
  function SplitStream(s: Bytes): Split {
    var c2 := KeyframeEnd(s);
    if c2 < 0 then Split([], s)
    else var e := Emit(s[c2..]); Split([s[..c2]] + e.units, e.rest)
  }

  /** Where the IDs of a + b are, when b starts with one: none straddles the join. */
  lemma IdsOfJoin(a: Bytes, b: Bytes, i: int)
    requires IdAt(b, 0)
    ensures IdAt(a + b, i) <==> IdAt(a, i) || (i >= |a| && IdAt(b, i - |a|))
  {
    IdInAppend(a, b, i);
    IdInAppend(a, b, |a|);
    if IdAt(a + b, i) && i < |a| { NoOverlap(a + b, i, |a|); }
  }

  /** Cut a buffer that starts with an ID where Emit cuts it. */
  lemma FirstCut(p: Bytes)
    requires IdAt(p, 0)
    ensures var c := FirstId(p, 4);
            && (c < 0 ==> IsCluster(p))
            && (c >= 0 ==> IsCluster(p[..c]) && IdAt(p[c..], 0))
  {
    var c := FirstId(p, 4);
    FirstIdIsFirst(p, 4);
    forall j | IdAt(p, j) && (c < 0 || j < c) ensures j == 0 {
      if j > 0 { NoOverlap(p, 0, j); }
    }
    if c >= 0 {
      assert p == p[..c] + p[c..];
      forall j ensures IdAt(p[..c], j) ==> IdAt(p, j) { IdInAppend(p[..c], p[c..], j); }
    }
  }

  /** From a buffer that starts with an ID, everything emitted and left is a single Cluster;
      otherwise the first unit alone may not be. */
  lemma {:induction false} EmittedAreClusters(p: Bytes)
    ensures var e := Emit(p);
            && (IdAt(p, 0) ==> AreClusters(e.units) && IsCluster(e.rest))
            && (e.units != [] ==> AreClusters(e.units[1..]) && IsCluster(e.rest))
    decreases |p|
  {
    var c := FirstId(p, 4);
    if IdAt(p, 0) { FirstCut(p); }
    if c >= 0 {
      FirstIdIsFirst(p, 4);
      EmittedAreClusters(p[c..]);
      assert Emit(p).units[1..] == Emit(p[c..]).units;
    }
  }

  /** A list of Clusters that joins to p is what Emit makes of p. */
  lemma {:induction false} ClustersAreEmitted(units: seq<Bytes>, rest: Bytes)
    requires AreClusters(units) && IsCluster(rest)
    ensures IdAt(Concat(units) + rest, 0)
    ensures Emit(Concat(units) + rest) == Split(units, rest)
  {
    var p := Concat(units) + rest;
    FirstIdIsFirst(p, 4);
    if units == [] {
      assert p == rest;
    } else {
      var q := Concat(units[1..]) + rest;
      ClustersAreEmitted(units[1..], rest);
      assert p == units[0] + q;
      var n := |units[0]|;
      assert IdAt(units[0], 0);
      IdsOfJoin(units[0], q, n);
      IdsOfJoin(units[0], q, 0);
      IdsOfJoin(units[0], q, FirstId(p, 4));
      assert FirstId(p, 4) == n;
      assert p[..n] == units[0] && p[n..] == q;
    }
  }

  /** The one-pass split is the pure split, and the only one. */
  lemma SplitStreamIsPureSplit(s: Bytes, sp: Split)
    ensures IsPureSplit(s, sp) <==> sp == SplitStream(s)
  {
    if sp == SplitStream(s) { SplitStreamIsPure(s); }
    if IsPureSplit(s, sp) { PureSplitIsUnique(s, sp); }
  }

  lemma SplitStreamIsPure(s: Bytes)
    ensures IsPureSplit(s, SplitStream(s))
  {
    var c2 := KeyframeEnd(s);
    OneIdBeforeKeyframeEnd(s);
    if c2 >= 0 {
      var head, tail := s[..c2], s[c2..];
      var e := Emit(tail);
      EmittedAreClusters(tail);
      EmitConserves(tail);
      ConcatCons(head, e.units);
      Assoc(head, Concat(e.units), e.rest);
      TakeDrop(s, c2);
      assert ([head] + e.units)[1..] == e.units;
    }
  }

  /** A keyframe holds one ID and is followed by another; without a keyframe there is at most one. */
  lemma OneIdBeforeKeyframeEnd(s: Bytes)
    ensures var c1, c2 := FirstId(s, 0), KeyframeEnd(s);
            if c2 < 0 then forall i, j :: IdAt(s, i) && IdAt(s, j) ==> i == j
            else OnlyIdAt(s[..c2], c1) && IdAt(s[c2..], 0)
  {
    var c1, c2 := FirstId(s, 0), KeyframeEnd(s);
    FirstIdIsFirst(s, 0);
    if c1 >= 0 { FirstIdIsFirst(s, c1 + 4); }
    forall j | IdAt(s, j) && (c2 < 0 || j < c2) ensures j == c1 {
      if j > c1 { NoOverlap(s, c1, j); }
    }
    if c2 >= 0 {
      assert s == s[..c2] + s[c2..];
      forall j ensures IdAt(s[..c2], j) <==> j == c1 { IdInAppend(s[..c2], s[c2..], j); }
    }
  }


  /** A head with one ID, followed by a tail that starts with one, is the keyframe of the whole. */
  lemma KeyframeOfJoin(head: Bytes, tail: Bytes, i: int)
    requires OnlyIdAt(head, i) && IdAt(tail, 0)
    ensures KeyframeEnd(head + tail) == |head|
  {
    var s := head + tail;
    var c1 := FirstId(s, 0);
    IdsOfJoin(head, tail, i);
    IdsOfJoin(head, tail, c1);
    FirstIdIsFirst(s, 0);
    assert c1 == i;
    var c2 := FirstId(s, c1 + 4);
    IdsOfJoin(head, tail, |head|);
    IdsOfJoin(head, tail, c2);
    FirstIdIsFirst(s, c1 + 4);
  }

  lemma PureSplitIsUnique(s: Bytes, sp: Split)
    requires IsPureSplit(s, sp)
    ensures sp == SplitStream(s)
  {
    if sp.units == [] {
      var c1 := FirstId(s, 0);
      FirstIdIsFirst(s, 0);
      if c1 >= 0 { FirstIdIsFirst(s, c1 + 4); }
    } else {
      var head, others := sp.units[0], sp.units[1..];
      var tail := Concat(others) + sp.rest;
      var i :| OnlyIdAt(head, i);
      ClustersAreEmitted(others, sp.rest);
      Assoc(head, Concat(others), sp.rest);
      KeyframeOfJoin(head, tail, i);
      assert (head + tail)[..|head|] == head && (head + tail)[|head|..] == tail;
    }
  }
}

/** The relay against the pure split: any cutting into messages, and when the valves stay shut. */
module ChunkingIndependence {
  import opened ByteStrings
  import opened ClusterScan
  import opened RelaySpec
  import opened RelayConservation
  import opened PureSplit

  /** Emitting after more bytes arrive continues where emitting stopped. */
  lemma {:induction false} EmitAppend(p: Bytes, d: Bytes)
    ensures var e := Emit(p); var more := Emit(e.rest + d);
            Emit(p + d) == Split(e.units + more.units, more.rest)
    decreases |p|
  {
    var c := FirstId(p, 4);
    if c >= 0 {
      FirstIdAppend(p, d, 4);
      EmitAppend(p[c..], d);
      assert (p + d)[c..] == p[c..] + d && (p + d)[..c] == p[..c];
      Assoc([p[..c]], Emit(p[c..]).units, Emit(Emit(p[c..]).rest + d).units);
    } else {
      assert [] + Emit(p + d).units == Emit(p + d).units;
    }
  }

  lemma KeyframeEndAppend(p: Bytes, d: Bytes)
    requires KeyframeEnd(p) >= 0
    ensures KeyframeEnd(p + d) == KeyframeEnd(p)
  {
    FirstIdAppend(p, d, 0);
    FirstIdAppend(p, d, FirstId(p, 0) + 4);
  }

  lemma SplitStreamAppend(s: Bytes, d: Bytes)
    requires SplitStream(s).units != []
    ensures var sp := SplitStream(s); var more := Emit(sp.rest + d);
            SplitStream(s + d) == Split(sp.units + more.units, more.rest)
  {
    var c2 := KeyframeEnd(s);
    KeyframeEndAppend(s, d);
    EmitAppend(s[c2..], d);
    assert (s + d)[c2..] == s[c2..] + d && (s + d)[..c2] == s[..c2];
    Assoc([s[..c2]], Emit(s[c2..]).units, Emit(Emit(s[c2..]).rest + d).units);
  }

  /** The relay has emitted the pure split of stream s. */
  predicate InStep(h: History, s: Bytes) {
    && h.units == SplitStream(s).units
    && h.relay.pending == SplitStream(s).rest
    && (h.relay.ready <==> h.units != [])
  }

  /** One call on a relay in step: a valve fires exactly when the new rest is over budget,
      and otherwise the relay stays in step. */
  lemma StaysInStep(h: History, s: Bytes, d: Bytes)
    requires InStep(h, s)
    ensures var f := FeedStep(h.relay, d);
            && (f.fired <==> |SplitStream(s + d).rest| > Budget(h.relay.maxPending))
            && (!f.fired ==> InStep(Extend(h, d), s + d))
  {
    if h.relay.ready { StaysInStepReady(h, s, d); } else { StaysInStepWaiting(h, s, d); }
  }

  lemma StaysInStepReady(h: History, s: Bytes, d: Bytes)
    requires InStep(h, s) && h.relay.ready
    ensures var f := FeedStep(h.relay, d);
            && (f.fired <==> |SplitStream(s + d).rest| > Budget(h.relay.maxPending))
            && (!f.fired ==> InStep(Extend(h, d), s + d))
  {
    SplitStreamAppend(s, d);
    var e := Emit(h.relay.pending + d);
    assert [] + e.units == e.units;
  }

  lemma StaysInStepWaiting(h: History, s: Bytes, d: Bytes)
    requires InStep(h, s) && !h.relay.ready
    ensures var f := FeedStep(h.relay, d);
            && (f.fired <==> |SplitStream(s + d).rest| > Budget(h.relay.maxPending))
            && (!f.fired ==> InStep(Extend(h, d), s + d))
  {
    var f := FeedStep(h.relay, d);
    assert h.units + f.units == f.units;
  }

  /** At every message end, the rest of the pure split of the stream so far is within max. */
  predicate RestsFit(msgs: seq<Bytes>, max: int) {
    msgs == [] || (RestsFit(msgs[..|msgs| - 1], max) && |SplitStream(Concat(msgs)).rest| <= max)
  }

  /** With no firing, the units and the pending bytes are the pure split of the whole stream,
      whatever the cutting; and no valve fires exactly when the rest of the pure split is
      within budget at every message end. */
  lemma {:induction false} RelaySplitsStream(maxPending: int, msgs: seq<Bytes>)
    ensures var h := Run(maxPending, msgs);
            && (h.firings == 0 ==> InStep(h, Concat(msgs)))
            && (h.firings == 0 <==> RestsFit(msgs, Budget(maxPending)))
    decreases |msgs|
  {
    if msgs != [] {
      var before, msg := msgs[..|msgs| - 1], msgs[|msgs| - 1];
      var h := Run(maxPending, before);
      RelaySplitsStream(maxPending, before);
      RelayConserves(maxPending, before);
      ConcatSnoc(before, msg);
      assert before + [msg] == msgs;
      if h.firings == 0 { StaysInStep(h, Concat(before), msg); }
    }
  }

  /** Two cuttings of one stream that fire no valve give the same units and the same rest. */
  lemma CuttingDoesNotMatter(maxPending: int, maxPending': int, a: seq<Bytes>, b: seq<Bytes>)
    requires Concat(a) == Concat(b)
    requires Run(maxPending, a).firings == 0 && Run(maxPending', b).firings == 0
    ensures Run(maxPending, a).units == Run(maxPending', b).units
    ensures Run(maxPending, a).relay.pending == Run(maxPending', b).relay.pending
    ensures IsPureSplit(Concat(a), Split(Run(maxPending, a).units, Run(maxPending, a).relay.pending))
  {
    RelaySplitsStream(maxPending, a);
    RelaySplitsStream(maxPending', b);
    SplitStreamIsPure(Concat(a));
  }

  /** Every unit leaves room for three bytes of the next ID, and the rest is within budget. */
  ghost predicate Fits(sp: Split, max: int) {
    && (forall k :: 0 <= k < |sp.units| ==> |sp.units[k]| + 3 <= max)
    && |sp.rest| <= max
  }

  /** In a buffer whose units fit, every prefix leaves a rest that fits. */
  lemma {:induction false} PrefixRestFits(p: Bytes, n: nat, max: int)
    requires n <= |p| && Fits(Emit(p), max)
    ensures |Emit(p[..n]).rest| <= max
    decreases |p|
  {
    var c := FirstId(p, 4);
    FirstIdCut(p, n, 4);
    if c >= 0 {
      assert Emit(p).units[0] == p[..c];
      if c + 4 <= n {
        var q := p[c..];
        forall k | 0 <= k < |Emit(q).units| ensures |Emit(q).units[k]| + 3 <= max {
          assert Emit(p).units[k + 1] == Emit(q).units[k];
        }
        PrefixRestFits(q, n - c, max);
        assert p[..n][c..] == q[..n - c];
      }
    }
  }

  lemma KeyframeEndCut(s: Bytes, n: nat)
    requires n <= |s|
    ensures var c2 := KeyframeEnd(s); KeyframeEnd(s[..n]) == if c2 >= 0 && c2 + 4 <= n then c2 else -1
  {
    FirstIdCut(s, n, 0);
    if FirstId(s, 0) >= 0 { FirstIdCut(s, n, FirstId(s, 0) + 4); }
  }

  lemma StreamPrefixRestFits(s: Bytes, n: nat, max: int)
    requires n <= |s| && Fits(SplitStream(s), max)
    ensures |SplitStream(s[..n]).rest| <= max
  {
    var c2 := KeyframeEnd(s);
    KeyframeEndCut(s, n);
    if c2 >= 0 {
      assert SplitStream(s).units[0] == s[..c2];
      if c2 + 4 <= n {
        var q := s[c2..];
        forall k | 0 <= k < |Emit(q).units| ensures |Emit(q).units[k]| + 3 <= max {
          assert SplitStream(s).units[k + 1] == Emit(q).units[k];
        }
        PrefixRestFits(q, n - c2, max);
        assert s[..n][c2..] == q[..n - c2];
      }
    }
  }

  /** Every unit can be cut off together with three bytes of the ID behind it. */
  lemma {:induction false} UnitShowsInPrefix(p: Bytes, k: nat) returns (n: nat)
    requires k < |Emit(p).units|
    ensures 4 <= n <= |p| && |Emit(p[..n]).rest| == |Emit(p).units[k]| + 3
    decreases |p|
  {
    var c := FirstId(p, 4);
    if k == 0 {
      n := c + 3;
      FirstIdCut(p, n, 4);
    } else {
      var m := UnitShowsInPrefix(p[c..], k - 1);
      n := c + m;
      FirstIdCut(p, n, 4);
      assert p[..n][c..] == p[c..][..m];
      assert Emit(p).units[k] == Emit(p[c..]).units[k - 1];
    }
  }

  lemma StreamUnitShowsInPrefix(s: Bytes, k: nat) returns (n: nat)
    requires k < |SplitStream(s).units|
    ensures n <= |s| && |SplitStream(s[..n]).rest| == |SplitStream(s).units[k]| + 3
  {
    var c2 := KeyframeEnd(s);
    if k == 0 {
      n := c2 + 3;
      KeyframeEndCut(s, n);
    } else {
      var m := UnitShowsInPrefix(s[c2..], k - 1);
      n := c2 + m;
      KeyframeEndCut(s, n);
      assert s[..n][c2..] == s[c2..][..m];
      assert SplitStream(s).units[k] == Emit(s[c2..]).units[k - 1];
    }
  }

  /** Cut at n, the relay sees the prefix of length n at the end of its first message. */
  lemma TwoMessages(maxPending: int, s: Bytes, n: nat)
    requires n <= |s| && |SplitStream(s[..n]).rest| > Budget(maxPending)
    ensures Concat([s[..n]] + [s[n..]]) == s && Run(maxPending, [s[..n]] + [s[n..]]).firings > 0
  {
    var msgs := [s[..n]] + [s[n..]];
    ConcatSnoc([s[..n]], s[n..]);
    ConcatOne(s[..n]);
    TakeDrop(s, n);
    assert msgs[..1] == [s[..n]];
    RelaySplitsStream(maxPending, msgs);
  }

  lemma {:induction false} PrefixesFit(msgs: seq<Bytes>, s: Bytes, max: int)
    requires Concat(msgs) <= s && Fits(SplitStream(s), max)
    ensures RestsFit(msgs, max)
    decreases |msgs|
  {
    if msgs != [] {
      var t, before := Concat(msgs), msgs[..|msgs| - 1];
      assert s[..|t|] == t;
      StreamPrefixRestFits(s, |t|, max);
      ConcatPrefix(before, msgs);
      PrefixesFit(before, s, max);
    }
  }

  /** The exact condition on a stream: no cutting of it fires a valve exactly when every unit of
      its pure split is at most budget - 3 bytes and its rest at most the budget. */
  lemma NoCuttingFiresIff(maxPending: int, s: Bytes)
    ensures (forall msgs :: Concat(msgs) == s ==> Run(maxPending, msgs).firings == 0)
        <==> Fits(SplitStream(s), Budget(maxPending))
  {
    var max, sp := Budget(maxPending), SplitStream(s);
    if Fits(sp, max) {
      forall msgs | Concat(msgs) == s ensures Run(maxPending, msgs).firings == 0 {
        PrefixesFit(msgs, s, max);
        RelaySplitsStream(maxPending, msgs);
      }
    } else if |sp.rest| > max {
      assert s[..|s|] == s;
      TwoMessages(maxPending, s, |s|);
    } else {
      var k :| 0 <= k < |sp.units| && |sp.units[k]| + 3 > max;
      var n := StreamUnitShowsInPrefix(s, k);
      TwoMessages(maxPending, s, n);
    }
  }
}

/** When the keyframe is finalised, and what it and the init are from then on, with or without a firing. */
module KeyframeCut {
  import opened ByteStrings
  import opened ClusterScan
  import opened RelaySpec
  import opened RelayConservation
  import opened PureSplit

  /** Past the keyframe, keyframe and init stay as they are. */
  lemma {:induction false} KeyframeStays(g: History, more: seq<Bytes>)
    requires FieldsFollow(g.relay, g.units) && g.relay.ready
    ensures var h := RunFrom(g, more);
            && FieldsFollow(h.relay, h.units) && h.relay.ready
            && h.relay.keyframe == g.relay.keyframe && h.relay.initHeader == g.relay.initHeader
    decreases |more|
  {
    if more != [] {
      var before, msg := more[..|more| - 1], more[|more| - 1];
      KeyframeStays(g, before);
      FeedFields(RunFrom(g, before).relay, RunFrom(g, before).units, msg);
    }
  }

  /** While nothing is out, the relay holds the whole stream and no init. */
  lemma NothingOut(maxPending: int, msgs: seq<Bytes>)
    requires Run(maxPending, msgs).units == []
    ensures var r := Run(maxPending, msgs).relay;
            !r.ready && r.pending == Concat(msgs) && r.initHeader == [] && Budget(r.maxPending) == Budget(maxPending)
  {
    RelayConserves(maxPending, msgs);
    var h := Run(maxPending, msgs);
    assert Concat(h.units) == [] && [] + h.relay.pending == h.relay.pending;
  }

  /** Over any run: a message finalises the keyframe exactly if the stream so far holds two IDs or is over
      budget. If it holds two, the keyframe is what precedes the second and the init what precedes the first;
      if not, the keyframe is all of the stream so far and there is no init. Both stay so whatever follows. */
  lemma KeyframeIsCut(maxPending: int, before: seq<Bytes>, msg: Bytes, more: seq<Bytes>)
    requires Run(maxPending, before).units == []
    ensures var s, g := Concat(before) + msg, Extend(Run(maxPending, before), msg);
            var h, c := RunFrom(g, more), KeyframeEnd(s);
            && (g.units != [] <==> c >= 0 || |s| > Budget(maxPending))
            && (g.units != [] ==>
                  && h.units != [] && h.units[0] == (if c >= 0 then s[..c] else s)
                  && h.relay.initHeader == (if c >= 0 then s[..FirstId(s, 0)] else []))
  {
    NothingOut(maxPending, before);
    var h := Run(maxPending, before);
    RelayConserves(maxPending, before);
    FeedFields(h.relay, h.units, msg);
    assert h.units + FeedStep(h.relay, msg).units == FeedStep(h.relay, msg).units;
    if Extend(h, msg).units != [] { KeyframeStays(Extend(h, msg), more); }
  }

  /** A keyframe cut at a second ID holds one ID, right behind the init, whatever fires afterwards. */
  lemma CutKeyframeHasOneId(maxPending: int, before: seq<Bytes>, msg: Bytes, more: seq<Bytes>)
    requires Run(maxPending, before).units == [] && KeyframeEnd(Concat(before) + msg) >= 0
    ensures var h := RunFrom(Extend(Run(maxPending, before), msg), more);
            h.units != [] && h.relay.initHeader <= h.units[0] && OnlyIdAt(h.units[0], |h.relay.initHeader|)
  {
    KeyframeIsCut(maxPending, before, msg, more);
    OneIdBeforeKeyframeEnd(Concat(before) + msg);
  }
}

/** What a valve firing damages, and how the relay recovers. */
module ValveDamage {
  import opened Common
  import opened ByteStrings
  import opened ClusterScan
  import opened RelaySpec
  import opened RelayConservation
  import opened PureSplit
  import opened ChunkingIndependence

  /** The number of units that are not a single Cluster. */
  ghost function Damaged(units: seq<Bytes>): nat {
    if units == [] then 0 else (if IsCluster(units[0]) then 0 else 1) + Damaged(units[1..])
  }

  lemma {:induction false} DamagedAppend(a: seq<Bytes>, b: seq<Bytes>)
    ensures Damaged(a + b) == Damaged(a) + Damaged(b)
  {
    if a == [] {
      assert a + b == b;
    } else {
      assert (a + b)[1..] == a[1..] + b;
      DamagedAppend(a[1..], b);
    }
  }

  lemma {:induction false} ClustersAreSound(units: seq<Bytes>)
    requires AreClusters(units)
    ensures Damaged(units) == 0
  {
    if units != [] { ClustersAreSound(units[1..]); }
  }

  /** 1 while the buffer does not start at a Cluster boundary. */
  function Astray(p: Bytes): nat {
    if IdAt(p, 0) then 0 else 1
  }

  /** Of what the loop cuts off a buffer only the first unit can be damaged, and then the rest is sound;
      a rest that starts with an ID is a single Cluster. */
  lemma EmitDamage(p: Bytes)
    ensures Damaged(Emit(p).units) + Astray(Emit(p).rest) <= Astray(p)
    ensures IdAt(Emit(p).rest, 0) ==> IsCluster(Emit(p).rest)
  {
    var e := Emit(p);
    EmittedAreClusters(p);
    if IdAt(p, 0) {
      ClustersAreSound(e.units);
    } else if e.units != [] {
      ClustersAreSound(e.units[1..]);
    }
  }

  /** The damage after the keyframe, plus one while the buffer is astray, never exceeds the firings. */
  ghost predicate DamageBounded(h: History) {
    h.units != [] ==> Damaged(h.units[1..]) + Astray(h.relay.pending) <= h.firings
  }

  lemma EmitPhaseDamage(k: FeedResult) returns (more: seq<Bytes>)
    requires k.relay.maxPending > 0 && (k.fired ==> k.relay.pending == [])
    ensures var f := EmitPhase(k);
            && f.units == k.units + more
            && Damaged(more) + Astray(f.relay.pending) <=
               Astray(k.relay.pending) + (if f.fired && !k.fired then 1 else 0)
  {
    var e := Emit(k.relay.pending);
    EmitDamage(k.relay.pending);
    if |e.rest| > k.relay.maxPending {
      more := e.units + [e.rest];
      DamagedAppend(e.units, [e.rest]);
      assert Damaged([e.rest]) <= Astray(e.rest);
      Assoc(k.units, e.units, [e.rest]);
    } else {
      more := e.units;
    }
  }

  lemma DamageStep(h: History, msg: Bytes)
    requires DamageBounded(h) && (h.relay.ready <==> h.units != [])
    ensures DamageBounded(Extend(h, msg))
  {
    var r := h.relay.(maxPending := Budget(h.relay.maxPending), pending := h.relay.pending + msg);
    var f := FeedStep(h.relay, msg);
    var k := if r.ready then FeedResult(r, [], false, false) else KeyframePhase(r);
    if k.relay.ready {
      var more := EmitPhaseDamage(k);
      if r.ready {
        IdInAppend(h.relay.pending, msg, 0);
        assert (h.units + f.units)[1..] == h.units[1..] + more;
        DamagedAppend(h.units[1..], more);
      } else {
        OneIdBeforeKeyframeEnd(r.pending);
        assert (h.units + f.units)[1..] == more;
      }
    }
  }

  /** Over any run, the units after the keyframe that are not a single Cluster are at most the
      valve firings, and the firings are at most one for every (budget + 1) bytes of input. */
  lemma {:induction false} DamageAtMostFirings(maxPending: int, msgs: seq<Bytes>)
    ensures var h := Run(maxPending, msgs);
            && (h.units != [] ==> Damaged(h.units[1..]) <= h.firings)
            && h.firings * (Budget(maxPending) + 1) <= |Concat(msgs)|
            && DamageBounded(h)
    decreases |msgs|
  {
    RelayConserves(maxPending, msgs);
    if msgs != [] {
      var before := msgs[..|msgs| - 1];
      DamageAtMostFirings(maxPending, before);
      RelayConserves(maxPending, before);
      DamageStep(Run(maxPending, before), msgs[|msgs| - 1]);
    }
  }

  lemma {:induction false} FiringsGrow(h: History, msgs: seq<Bytes>)
    ensures RunFrom(h, msgs).firings >= h.firings
    decreases |msgs|
  {
    if msgs != [] { FiringsGrow(h, msgs[..|msgs| - 1]); }
  }

  /** While no valve fires, a relay that is past its keyframe emits exactly what one pass over its
      buffer and the new bytes would. */
  lemma {:induction false} QuietStretch(h: History, msgs: seq<Bytes>)
    requires h.relay.ready && msgs != [] && RunFrom(h, msgs).firings == h.firings
    ensures var g := RunFrom(h, msgs); var e := Emit(h.relay.pending + Concat(msgs));
            g.relay.ready && g.units == h.units + e.units && g.relay.pending == e.rest
    decreases |msgs|
  {
    var before, msg := msgs[..|msgs| - 1], msgs[|msgs| - 1];
    assert before + [msg] == msgs;
    if before == [] {
      ConcatOne(msg);
    } else {
      FiringsGrow(h, before);
      QuietStretch(h, before);
      ConcatSnoc(before, msg);
      Assoc(h.relay.pending, Concat(before), msg);
      var e := Emit(h.relay.pending + Concat(before));
      EmitAppend(h.relay.pending + Concat(before), msg);
      Assoc(h.units, e.units, Emit(e.rest + msg).units);
    }
    QuietFeed(RunFrom(h, before), msg);
  }

  /** One call past the keyframe that fires no valve. */
  lemma QuietFeed(h: History, msg: Bytes)
    requires h.relay.ready && !FeedStep(h.relay, msg).fired
    ensures var g := Extend(h, msg); var e := Emit(h.relay.pending + msg);
            g.relay.ready && g.units == h.units + e.units && g.relay.pending == e.rest
  {
    assert [] + Emit(h.relay.pending + msg).units == Emit(h.relay.pending + msg).units;
  }

  /** Resynchronisation: from any state past the keyframe, and while no further valve fires, every
      unit emitted but the first is a single Cluster; so is the first when the buffer starts at a
      boundary; and once one unit is out the buffer is a single Cluster too. */
  lemma Resynchronises(h: History, msgs: seq<Bytes>)
    requires h.relay.ready && msgs != [] && RunFrom(h, msgs).firings == h.firings
    ensures var g := RunFrom(h, msgs);
            && h.units <= g.units
            && (forall k :: |h.units| < k < |g.units| ==> IsCluster(g.units[k]))
            && (|h.units| < |g.units| ==> IsCluster(g.relay.pending))
            && (IdAt(h.relay.pending, 0) ==>
                  IsCluster(g.relay.pending) && forall k :: |h.units| <= k < |g.units| ==> IsCluster(g.units[k]))
  {
    var p := h.relay.pending + Concat(msgs);
    var g, e := RunFrom(h, msgs), Emit(p);
    QuietStretch(h, msgs);
    EmittedAreClusters(p);
    IdInAppend(h.relay.pending, Concat(msgs), 0);
    forall k | |h.units| < k < |g.units| ensures IsCluster(g.units[k]) {
      assert g.units[k] == e.units[1..][k - |h.units| - 1];
    }
    if IdAt(h.relay.pending, 0) {
      forall k | |h.units| <= k < |g.units| ensures IsCluster(g.units[k]) {
        assert g.units[k] == e.units[k - |h.units|];
      }
    }
  }

  /** The bytes fed since a valve last fired. */
  function SinceFiring(maxPending: int, msgs: seq<Bytes>): Bytes {
    if msgs == [] then []
    else
      var before, msg := msgs[..|msgs| - 1], msgs[|msgs| - 1];
      if FeedStep(Run(maxPending, before).relay, msg).fired then [] else SinceFiring(maxPending, before) + msg
  }

  /** A firing empties the buffer and leaves the relay past its keyframe. */
  lemma FiredEmpties(r: Relay, msg: Bytes)
    requires FeedStep(r, msg).fired
    ensures FeedStep(r, msg).relay.ready && FeedStep(r, msg).relay.pending == []
  {
  }

  lemma AfterFiringNext(h: History, t: Bytes, msg: Bytes)
    requires h.relay.ready && h.relay.pending == Emit(t).rest && !FeedStep(h.relay, msg).fired
    ensures Extend(h, msg).relay.ready && Extend(h, msg).relay.pending == Emit(t + msg).rest
  {
    QuietFeed(h, msg);
    EmitAppend(t, msg);
  }

  /** After a firing, the buffer is what one pass over the bytes fed since then leaves. */
  lemma {:induction false} AfterFiring(maxPending: int, msgs: seq<Bytes>)
    requires Run(maxPending, msgs).firings > 0
    ensures var h := Run(maxPending, msgs); h.relay.ready && h.relay.pending == Emit(SinceFiring(maxPending, msgs)).rest
    decreases |msgs|
  {
    var before, msg := msgs[..|msgs| - 1], msgs[|msgs| - 1];
    var h := Run(maxPending, before);
    if FeedStep(h.relay, msg).fired {
      FiredEmpties(h.relay, msg);
    } else {
      AfterFiring(maxPending, before);
      AfterFiringNext(h, SinceFiring(maxPending, before), msg);
    }
  }

  lemma RestAtBoundaryIff(t: Bytes)
    ensures IdAt(Emit(t).rest, 0) <==> IdAt(t, 0) || FirstId(t, 4) >= 0
  {
    EmittedAreClusters(t);
  }

  /** Over any run: past the keyframe the buffer is at a Cluster boundary exactly if no valve has fired, or
      the bytes fed since then hold an ID the loop sees: at their start, or from offset 4 on. */
  lemma AtBoundaryIff(maxPending: int, msgs: seq<Bytes>)
    requires Run(maxPending, msgs).relay.ready
    ensures var h, t := Run(maxPending, msgs), SinceFiring(maxPending, msgs);
            IdAt(h.relay.pending, 0) <==> h.firings == 0 || IdAt(t, 0) || FirstId(t, 4) >= 0
  {
    if Run(maxPending, msgs).firings == 0 {
      RelaySplitsStream(maxPending, msgs);
      SplitStreamIsPure(Concat(msgs));
    } else {
      AfterFiring(maxPending, msgs);
      RestAtBoundaryIff(SinceFiring(maxPending, msgs));
    }
  }

  /** n messages of one byte each, none of which is part of an ID. */
  function Bytewise(n: nat): seq<Bytes> {
    if n == 0 then [] else Bytewise(n - 1) + [[7]]
  }

  /** A buffer of such bytes holds no ID. */
  ghost predicate NoId(p: Bytes) {
    forall i :: 0 <= i < |p| ==> p[i] == 7
  }

  lemma NoIdInside(p: Bytes, start: nat)
    requires NoId(p)
    ensures FirstId(p, start) == -1
  {
    FirstIdIsFirst(p, start);
  }

  lemma BuffersOne(h: History)
    requires !h.relay.ready && NoId(h.relay.pending) && |h.relay.pending| < Budget(h.relay.maxPending)
    ensures var g := Extend(h, [7]);
            && !g.relay.ready && g.firings == h.firings && g.relay.pending == h.relay.pending + [7]
            && Budget(g.relay.maxPending) == Budget(h.relay.maxPending)
  {
    NoIdInside(h.relay.pending + [7], 0);
  }

  /** Within the budget they are just buffered. */
  lemma {:induction false} BytewiseBuffers(maxPending: int, n: nat)
    requires n <= Budget(maxPending)
    ensures var h := Run(maxPending, Bytewise(n));
            && !h.relay.ready && h.firings == 0 && |h.relay.pending| == n && NoId(h.relay.pending)
            && Budget(h.relay.maxPending) == Budget(maxPending)
  {
    if n == 0 {
      assert Run(maxPending, []) == Start(maxPending);
    } else {
      BytewiseBuffers(maxPending, n - 1);
      Snoc(Bytewise(n - 1), [7]);
      var h := Run(maxPending, Bytewise(n - 1));
      assert Run(maxPending, Bytewise(n)) == Extend(h, [7]);
      BuffersOne(h);
    }
  }

  /** One more fires the valve. */
  lemma OverBudget(h: History)
    requires !h.relay.ready && NoId(h.relay.pending) && |h.relay.pending| == Budget(h.relay.maxPending)
    ensures var g := Extend(h, [7]);
            g.firings > 0 && g.relay.ready && g.relay.pending == [] && g.relay.maxPending == Budget(h.relay.maxPending)
  {
    NoIdInside(h.relay.pending + [7], 0);
  }

  /** Whatever the budget, and however short the messages, the buffer can be off a boundary: budget + 1 bytes
      that hold no ID, one by one, and then another byte. */
  lemma BufferCanBeAstray(maxPending: int)
    ensures exists msgs :: var h := Run(maxPending, msgs);
              && (forall i :: 0 <= i < |msgs| ==> |msgs[i]| == 1)
              && h.firings > 0 && h.relay.ready && h.relay.pending != [] && !IdAt(h.relay.pending, 0)
  {
    var m := Budget(maxPending);
    var before := Bytewise(m);
    BytewiseBuffers(maxPending, m);
    OverBudget(Run(maxPending, before));
    Snoc(before, [7]);
    var fired := before + [[7]];
    assert Run(maxPending, fired) == Extend(Run(maxPending, before), [7]);
    Snoc(fired, [9]);
    var msgs := fired + [[9]];
    assert Run(maxPending, msgs) == Extend(Run(maxPending, fired), [9]);
    assert FirstId([9], 4) == -1;
    BytewiseOnes(m);
    assert forall i :: 0 <= i < |msgs| ==> |msgs[i]| == 1;
  }

  lemma {:induction false} BytewiseOnes(n: nat)
    ensures forall i :: 0 <= i < |Bytewise(n)| ==> |Bytewise(n)[i]| == 1
  {
    if n > 0 { BytewiseOnes(n - 1); }
  }
}
