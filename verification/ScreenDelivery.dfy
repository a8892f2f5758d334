// Delivery to screen viewers, over every interleaving of the publisher thread, the viewer
// threads and connection failures. Every section under the room mutex, and every write under
// the screen write mutex, is one step.

module ScreenDelivery {
  import opened Common
  import opened ByteStrings
  import opened ClusterScan
  import opened RelaySpec
  import opened RelayConservation
  import opened ScreenSpec

  /** Where a viewer's handler is. Registered and Writing hold the init it was handed. */
  datatype ViewerPc =
    | Outside | Registered(initSeg: Bytes) | Writing(initSeg: Bytes) | Written | Serving | Failed | Gone

  /** One viewer connection. queue holds writes decided but not yet performed; log what the
      connection received. The rest is history: the init written, the number of units emitted when
      the viewer registered, and the range of units decided for it. */
  datatype Viewer = Viewer(pc: ViewerPc, alive: bool, queue: seq<Bytes>, log: seq<Bytes>,
                           initSeg: Bytes, regAt: nat, first: nat, next: nat)

  datatype PublisherPc = Reading | Decided | Locked | Stopped

  /** mapped says whether the room still maps the publisher; fed lists the messages the relay accepted, units
      everything it emitted. */
  datatype State = State(self: Conn, pub: Publisher, mapped: bool, pubPc: PublisherPc, viewer: Conn -> Viewer,
                         fed: seq<Bytes>, units: seq<Bytes>)

  datatype Action =
    | Hello(mode: string)                // the publisher announces a mode
    | Publish(msg: Bytes)                // the locked part of BroadcastScreen
    | Lock | Deliver(c: Conn) | Unlock   // its writes, under the screen write mutex
    | Stop                               // the publisher's cleanup
    | RemoveRoom                         // forgets the room's publishers
    | Register(c: Conn, user: UserId) | ReadMode(c: Conn) | WriteInit(c: Conn) | Mark(c: Conn)
    | Leave(c: Conn)                     // the viewer's cleanup
    | Break(c: Conn)                     // the connection fails and stays failed

  function Newcomer(): Viewer {
    Viewer(Outside, true, [], [], [], 0, 0, 0)
  }

  function Init(self: Conn): State {
    State(self, NewPublisher(), true, Reading, (c: Conn) => Newcomer(), [], [])
  }

  function With(s: State, c: Conn, v: Viewer): State {
    s.(viewer := (x: Conn) => if x == c then v else s.viewer(x))
  }

  function Receive(s: State, msg: Bytes, c: Conn): Viewer {
    var v := s.viewer(c);
    if Receives(s.pub, s.self, msg, c) then
      v.(queue := v.queue + UnitsOf(s.pub, msg), next := |s.units| + |UnitsOf(s.pub, msg)|)
    else v
  }

  /** One step; an action that is not enabled changes nothing. */
  ghost function Step(s: State, a: Action): State {
    match a
    case Hello(mode) =>
      if s.pubPc == Reading then s.(pub := s.pub.(mode := mode)) else s
    case Publish(msg) =>
      if s.pubPc == Reading then
        s.(pub := Broadcast(s.pub, s.self, msg), pubPc := Decided, viewer := (c: Conn) => Receive(s, msg, c),
           fed := if Accepts(s.pub, msg) then s.fed + [msg] else s.fed,
           units := s.units + UnitsOf(s.pub, msg))
      else s
    case Lock => if s.pubPc == Decided then s.(pubPc := Locked) else s
    case Deliver(c) =>
      var v := s.viewer(c);
      if s.pubPc == Locked && v.queue != [] then
        With(s, c, v.(queue := v.queue[1..], log := if v.alive then v.log + [v.queue[0]] else v.log))
      else s
    case Unlock =>
      if s.pubPc == Locked && forall c :: s.viewer(c).queue == [] then s.(pubPc := Reading) else s
    case Stop =>
      if s.pubPc == Reading then
        s.(pub := if s.mapped then ClearPublisher(s.pub) else s.pub, pubPc := Stopped, mapped := false)
      else s
    case RemoveRoom => s.(mapped := false)
    case Register(c, user) =>
      var v := s.viewer(c);
      if v.pc == Outside && c != s.self then
        With(s, c, v.(pc := Registered(Handed(s.pub)), regAt := |s.units|)).(pub := RegisterViewer(s.pub, c, user))
      else s
    case ReadMode(c) =>
      var v := s.viewer(c);
      if v.pc.Registered? then
        With(s, c, v.(pc := if s.pub.mode != "sfu" && s.pub.mode != "webrtc" && v.pc.initSeg != []
                            then Writing(v.pc.initSeg)
                            else Serving))
      else s
    case WriteInit(c) =>
      var v := s.viewer(c);
      if v.pc.Writing? && s.pubPc != Locked then
        With(s, c, if v.alive then v.(pc := Written, log := v.log + [v.pc.initSeg], initSeg := v.pc.initSeg)
                   else v.(pc := Failed))
      else s
    case Mark(c) =>
      var v := s.viewer(c);
      if v.pc == Written then
        With(s, c, v.(pc := Serving, first := |s.units|, next := |s.units|)).(pub := MarkDelivered(s.pub, c))
      else s
    case Leave(c) =>
      var v := s.viewer(c);
      if v.pc == Serving || v.pc == Failed then With(s, c, v.(pc := Gone)).(pub := RemoveViewer(s.pub, c)) else s
    case Break(c) => With(s, c, s.viewer(c).(alive := false))
  }

  ghost function Trace(self: Conn, acts: seq<Action>): State {
    if acts == [] then Init(self) else Step(Trace(self, acts[..|acts| - 1]), acts[|acts| - 1])
  }

  /** The init for a viewer that registers when units are out, header being the keyframe's init. */
  function HandedFor(header: Bytes, units: seq<Bytes>): Bytes {
    if units == [] then []
    else if header != [] && |units| >= 2 then header + units[|units| - 1]
    else units[0]
  }

  /** What the viewer is to receive: the init, if it was written, then the units decided for it. */
  ghost function Expected(s: State, v: Viewer): seq<Bytes>
    requires v.first <= v.next <= |s.units|
  {
    (if v.initSeg == [] then [] else [v.initSeg]) + s.units[v.first..v.next]
  }

  /** The relay has run over the accepted messages, and the publisher's caches equal its fields. */
  ghost predicate RelayInv(s: State) {
    var h := Run(MAX_SCREEN_PENDING, s.fed);
    && s.units == h.units
    && s.pub.relay == (if s.fed == [] then None else Some(h.relay))
    && s.pub.initSegment == h.relay.keyframe
    && s.pub.initHeader == h.relay.initHeader
    && s.pub.lastCluster == h.relay.lastCluster
  }

  /** The gate: whether the next unit will be decided for connection c. */
  predicate GateOpen(s: State, c: Conn) {
    c in s.pub.viewers && c !in s.pub.initPending
  }

  ghost predicate ViewerInv(s: State, c: Conn) {
    var v := s.viewer(c);
    && v.first <= v.next <= |s.units| && v.regAt <= |s.units|
    && v.log <= Expected(s, v)
    && (v.alive ==> v.log + v.queue == Expected(s, v))
    && (GateOpen(s, c) ==> v.next == |s.units|)
    && (c in s.pub.viewers ==> !v.pc.Outside? && !v.pc.Gone? && c != s.self)
    && (v.pc.Outside? ==> v == Newcomer().(alive := v.alive))
    // the handed init
    && (v.pc.Registered? || v.pc.Writing? ==>
          v.pc.initSeg == HandedFor(s.pub.initHeader, s.units[..v.regAt]) && v.initSeg == [])
    && (v.pc.Writing? ==> v.pc.initSeg != [])
    && (v.initSeg != [] ==> v.regAt > 0 && v.initSeg == HandedFor(s.pub.initHeader, s.units[..v.regAt]))
    // without an init on its log, the viewer starts at unit 0 or never starts
    && (v.initSeg == [] ==> v.first == 0 && (v.regAt > 0 ==> v.next == 0 && !GateOpen(s, c)))
    && (v.pc.Written? ==> v.initSeg != [] && v.next == 0 && !GateOpen(s, c))
    && (v.initSeg != [] && !v.pc.Written? ==> v.regAt <= v.first)
    // the gate opens: with the keyframe for early viewers, with the mark for late ones
    && (c in s.pub.viewers && v.regAt == 0 && s.units != [] ==> GateOpen(s, c))
    && (c in s.pub.viewers && v.initSeg != [] && !v.pc.Written? ==> GateOpen(s, c))
  }

  ghost predicate Inv(s: State) {
    RelayInv(s) && forall c :: ViewerInv(s, c)
  }

  lemma HandedIs(s: State)
    requires RelayInv(s)
    ensures Handed(s.pub) == HandedFor(s.pub.initHeader, s.units)
  {
    RelayConserves(MAX_SCREEN_PENDING, s.fed);
  }

  /** The caches follow the relay's fields over one accepted message. */
  lemma CachesFollow(p: Publisher, self: Conn, h: History, msg: Bytes)
    requires Accepts(p, msg) && FieldsFollow(h.relay, h.units)
    requires p.relay == Some(h.relay) || (p.relay.None? && h == Start(MAX_SCREEN_PENDING))
    requires p.initSegment == h.relay.keyframe && p.initHeader == h.relay.initHeader
    requires p.lastCluster == h.relay.lastCluster
    ensures var b, g := Broadcast(p, self, msg), Extend(h, msg);
            && b.relay == Some(g.relay) && b.initSegment == g.relay.keyframe && b.initHeader == g.relay.initHeader
            && b.lastCluster == g.relay.lastCluster && g.units == h.units + Fed(p, msg).units
            && (h.units != [] ==> b.initHeader == p.initHeader)
            && (Fed(p, msg).finalized <==> h.units == [] && g.units != [])
  {
    FeedFields(h.relay, h.units, msg);
  }

  /** The relay's side of a message. */
  lemma PublishRelay(s: State, msg: Bytes)
    requires RelayInv(s) && s.pubPc == Reading
    ensures var t := Step(s, Publish(msg));
            && RelayInv(t) && s.units <= t.units
            && (s.units != [] ==> t.pub.initHeader == s.pub.initHeader)
            && (Accepts(s.pub, msg) ==> (Fed(s.pub, msg).finalized <==> s.units == [] && t.units != []))
  {
    var h := Run(MAX_SCREEN_PENDING, s.fed);
    if Accepts(s.pub, msg) {
      RelayConserves(MAX_SCREEN_PENDING, s.fed);
      CachesFollow(s.pub, s.self, h, msg);
      Snoc(s.fed, msg);
      assert Run(MAX_SCREEN_PENDING, s.fed + [msg]) == Extend(h, msg);
    }
  }

  /** What is expected, when units are emitted and perhaps decided for the viewer. */
  lemma ExpectedAfterPublish(s: State, t: State, v: Viewer, w: Viewer, more: seq<Bytes>)
    requires v.first <= v.next <= |s.units| && t.units == s.units + more && w.initSeg == v.initSeg && w.first == v.first
    requires w.next == v.next || (v.next == |s.units| && w.next == |t.units|)
    ensures w.first <= w.next <= |t.units|
    ensures Expected(t, w) == Expected(s, v) + (if w.next == v.next then [] else more)
  {
    if w.next == v.next {
      assert t.units[v.first..v.next] == s.units[v.first..v.next];
    } else {
      assert t.units[v.first..w.next] == s.units[v.first..v.next] + more;
      Assoc(if v.initSeg == [] then [] else [v.initSeg], s.units[v.first..v.next], more);
    }
  }

  /** A viewer that receives the units of a message. */
  lemma PublishReceived(s: State, msg: Bytes, c: Conn)
    requires RelayInv(s) && ViewerInv(s, c) && s.pubPc == Reading && Receives(s.pub, s.self, msg, c)
    ensures ViewerInv(Step(s, Publish(msg)), c)
  {
    var t, v, w, more := Step(s, Publish(msg)), s.viewer(c), Step(s, Publish(msg)).viewer(c), UnitsOf(s.pub, msg);
    PublishRelay(s, msg);
    assert t.units[..v.regAt] == s.units[..v.regAt];
    ExpectedAfterPublish(s, t, v, w, more);
    Assoc(v.log, v.queue, more);
  }

  lemma PublishViewer(s: State, msg: Bytes, c: Conn)
    requires RelayInv(s) && ViewerInv(s, c) && s.pubPc == Reading
    ensures ViewerInv(Step(s, Publish(msg)), c)
  {
    if Receives(s.pub, s.self, msg, c) {
      PublishReceived(s, msg, c);
    } else {
      var t, v := Step(s, Publish(msg)), s.viewer(c);
      PublishRelay(s, msg);
      assert t.units[..v.regAt] == s.units[..v.regAt];
      ExpectedAfterPublish(s, t, v, v, UnitsOf(s.pub, msg));
    }
  }

  lemma DeliverViewer(s: State, c: Conn)
    requires ViewerInv(s, c) && s.pubPc == Locked && s.viewer(c).queue != []
    ensures ViewerInv(Step(s, Deliver(c)), c)
  {
    var v := s.viewer(c);
    if v.alive {
      Assoc(v.log, [v.queue[0]], v.queue[1..]);
      assert [v.queue[0]] + v.queue[1..] == v.queue;
    }
  }

  lemma WriteInitViewer(s: State, c: Conn)
    requires ViewerInv(s, c) && s.viewer(c).pc.Writing?
    ensures ViewerInv(Step(s, WriteInit(c)), c)
  {
    var v := s.viewer(c);
    assert Expected(s, v) == [];
    assert v.log == [];
    assert v.alive ==> v.queue == [];
  }

  lemma MarkViewer(s: State, c: Conn)
    requires ViewerInv(s, c) && s.viewer(c).pc.Written?
    ensures ViewerInv(Step(s, Mark(c)), c)
  {
    var v := s.viewer(c);
    assert s.units[v.first..v.next] == s.units[|s.units|..|s.units|] == [];
  }

  /** Connection c is neither acted on nor does the publisher end. */
  lemma OtherViewer(s: State, a: Action, c: Conn)
    requires ViewerInv(s, c) && !a.Publish? && !a.Stop?
    requires a.Deliver? || a.Register? || a.ReadMode? || a.WriteInit? || a.Mark? || a.Leave? || a.Break? ==> a.c != c
    ensures ViewerInv(Step(s, a), c)
  {
    var t := Step(s, a);
    assert t.viewer(c) == s.viewer(c) && t.units == s.units && t.pub.initHeader == s.pub.initHeader && t.self == s.self;
    assert c in t.pub.viewers <==> c in s.pub.viewers;
    assert c in t.pub.initPending <==> c in s.pub.initPending;
  }

  lemma RegisterViewerStep(s: State, c: Conn, user: UserId)
    requires RelayInv(s) && ViewerInv(s, c) && s.viewer(c).pc.Outside?
    ensures ViewerInv(Step(s, Register(c, user)), c)
  {
    HandedIs(s);
    assert s.units[..|s.units|] == s.units;
    var t := Step(s, Register(c, user));
    assert t.units == s.units && t.pub.initHeader == s.pub.initHeader;
  }

  lemma ViewerStep(s: State, a: Action, c: Conn)
    requires RelayInv(s) && ViewerInv(s, c) && !a.Publish?
    ensures ViewerInv(Step(s, a), c)
  {
    if (a.Deliver? || a.Register? || a.ReadMode? || a.WriteInit? || a.Mark? || a.Leave? || a.Break?) && a.c == c {
      match a {
        case Deliver(_) => if s.pubPc == Locked && s.viewer(c).queue != [] { DeliverViewer(s, c); }
        case Register(_, user) => if s.viewer(c).pc.Outside? { RegisterViewerStep(s, c, user); }
        case WriteInit(_) => if s.viewer(c).pc.Writing? { WriteInitViewer(s, c); }
        case Mark(_) => if s.viewer(c).pc.Written? { MarkViewer(s, c); }
        case ReadMode(_) => if s.viewer(c).pc.Registered? { ReadModeViewer(s, c); }
        case Leave(_) => LeaveViewer(s, c);
        case Break(_) => BreakViewer(s, c);
        case _ =>
      }
    } else if a.Stop? {
      StopViewer(s, c);
    } else {
      OtherViewer(s, a, c);
    }
  }

  lemma StopViewer(s: State, c: Conn)
    requires ViewerInv(s, c)
    ensures ViewerInv(Step(s, Stop), c)
  {
  }

  lemma ReadModeViewer(s: State, c: Conn)
    requires ViewerInv(s, c) && s.viewer(c).pc.Registered?
    ensures ViewerInv(Step(s, ReadMode(c)), c)
  {
  }

  lemma LeaveViewer(s: State, c: Conn)
    requires ViewerInv(s, c)
    ensures ViewerInv(Step(s, Leave(c)), c)
  {
    var t, v, w := Step(s, Leave(c)), s.viewer(c), Step(s, Leave(c)).viewer(c);
    assert w == v.(pc := w.pc) && t.units == s.units && t.pub.initHeader == s.pub.initHeader;
    assert Expected(t, w) == Expected(s, v);
  }

  lemma BreakViewer(s: State, c: Conn)
    requires ViewerInv(s, c)
    ensures ViewerInv(Step(s, Break(c)), c)
  {
    var t, v, w := Step(s, Break(c)), s.viewer(c), Step(s, Break(c)).viewer(c);
    assert w == v.(alive := false) && t.units == s.units && t.pub == s.pub;
    assert Expected(t, w) == Expected(s, v);
  }

  lemma InvStep(s: State, a: Action)
    requires Inv(s)
    ensures Inv(Step(s, a))
  {
    forall c ensures ViewerInv(Step(s, a), c) {
      if a.Publish? && s.pubPc == Reading { PublishViewer(s, a.msg, c); }
      else if !a.Publish? { ViewerStep(s, a, c); }
      else { assert ViewerInv(s, c); }
    }
    if a.Publish? && s.pubPc == Reading { PublishRelay(s, a.msg); }
  }

  lemma {:induction false} InvHolds(self: Conn, acts: seq<Action>)
    ensures Inv(Trace(self, acts))
    decreases |acts|
  {
    if acts != [] {
      InvHolds(self, acts[..|acts| - 1]);
      InvStep(Trace(self, acts[..|acts| - 1]), acts[|acts| - 1]);
    }
  }

  /** Every run, every viewer: the log is a prefix of one init followed by a contiguous run of units,
      or, without an init, of the units from the keyframe on. The init is made of the units out at
      registration and the run starts at or after that point, so nothing is repeated; what is
      missing in between is exactly what was emitted between the registration and the mark. */
  lemma {:induction false} LogIsInitThenRun(self: Conn, acts: seq<Action>, c: Conn)
    ensures var s := Trace(self, acts); var v := s.viewer(c);
            && v.first <= v.next <= |s.units|
            && v.log <= (if v.initSeg == [] then [] else [v.initSeg]) + s.units[v.first..v.next]
            && (v.log != [] && v.initSeg == [] ==> v.regAt == 0 && v.first == 0)
            && (v.initSeg != [] ==>
                  0 < v.regAt <= |s.units| && v.initSeg == HandedFor(s.pub.initHeader, s.units[..v.regAt]))
            && (v.initSeg != [] && v.next > 0 ==> v.regAt <= v.first)
  {
    InvHolds(self, acts);
    assert ViewerInv(Trace(self, acts), c);
  }

  /** The same, with nothing lost: a live viewer with no write outstanding that is still registered,
      and whose init is marked as delivered or which came before the keyframe, has all of it. */
  lemma {:induction false} LiveLogIsComplete(self: Conn, acts: seq<Action>, c: Conn)
    requires var s := Trace(self, acts); var v := s.viewer(c);
             && v.alive && v.queue == [] && c in s.pub.viewers
             && (v.regAt == 0 || (v.initSeg != [] && !v.pc.Written?))
    ensures var s := Trace(self, acts); var v := s.viewer(c);
            v.first <= |s.units| && v.log == if v.regAt == 0 then s.units else [v.initSeg] + s.units[v.first..]
  {
    InvHolds(self, acts);
    var s := Trace(self, acts);
    assert ViewerInv(s, c);
    var v := s.viewer(c);
    assert v.log + v.queue == v.log;
    if s.units != [] { assert s.units[v.first..v.next] == s.units[v.first..]; }
  }

  /** A viewer that registered before the keyframe has received a prefix of the accepted bytes,
      whether or not the relay's valves have fired. */
  lemma {:induction false} ByteFaithful(self: Conn, acts: seq<Action>, c: Conn)
    requires Trace(self, acts).viewer(c).regAt == 0
    ensures Concat(Trace(self, acts).viewer(c).log) <= Concat(Trace(self, acts).fed)
  {
    InvHolds(self, acts);
    var s := Trace(self, acts);
    var v := s.viewer(c);
    assert ViewerInv(s, c);
    assert v.log <= s.units[v.first..v.next] by { assert [] + s.units[v.first..v.next] == s.units[v.first..v.next]; }
    assert s.units[v.first..v.next] <= s.units;
    ConcatPrefix(v.log, s.units);
    RelayConserves(MAX_SCREEN_PENDING, s.fed);
  }

  /** The messages the publisher's thread passed to BroadcastScreen. */
  ghost function Heard(self: Conn, acts: seq<Action>): seq<Bytes> {
    if acts == [] then []
    else
      var before, a := acts[..|acts| - 1], acts[|acts| - 1];
      Heard(self, before) + if a.Publish? && Trace(self, before).pubPc == Reading then [a.msg] else []
  }

  lemma HeardOne(s: State, heard: seq<Bytes>, msg: Bytes)
    requires RelayInv(s) && s.pubPc == Reading && s.fed == WithoutRepeats(heard) && (s.fed == [] <==> heard == [])
    ensures Step(s, Publish(msg)).fed == WithoutRepeats(heard + [msg]) != []
  {
    Snoc(heard, msg);
    assert [0x1A, 0x45, 0xDF, 0xA3] <= msg <==> IsEbmlHeader(msg);
  }

  lemma OthersFeedNothing(s: State, a: Action)
    requires !(a.Publish? && s.pubPc == Reading)
    ensures Step(s, a).fed == s.fed
  {
  }

  lemma NextHeard(s: State, a: Action, heard: seq<Bytes>)
    requires RelayInv(s) && s.fed == WithoutRepeats(heard) && (s.fed == [] <==> heard == [])
    ensures var next := heard + if a.Publish? && s.pubPc == Reading then [a.msg] else [];
            Step(s, a).fed == WithoutRepeats(next) && (Step(s, a).fed == [] <==> next == [])
  {
    if a.Publish? && s.pubPc == Reading {
      HeardOne(s, heard, a.msg);
    } else {
      OthersFeedNothing(s, a);
      assert heard + [] == heard;
    }
  }

  lemma RelayHolds(self: Conn, acts: seq<Action>)
    ensures RelayInv(Trace(self, acts))
  {
    InvHolds(self, acts);
  }

  /** Over any run the relay is fed every message of the publisher but the repeated EBML headers. */
  lemma {:induction false} FedIsHeard(self: Conn, acts: seq<Action>)
    ensures Trace(self, acts).fed == WithoutRepeats(Heard(self, acts))
    ensures Trace(self, acts).fed == [] <==> Heard(self, acts) == []
    decreases |acts|
  {
    if acts != [] {
      var before, a := acts[..|acts| - 1], acts[|acts| - 1];
      FedIsHeard(self, before);
      RelayHolds(self, before);
      NextHeard(Trace(self, before), a, Heard(self, before));
    }
  }

  /** The relay behind the fan-out is the relay: every theorem about Run holds of the units emitted. */
  lemma {:induction false} UnitsAreARun(self: Conn, acts: seq<Action>)
    ensures var s := Trace(self, acts); var h := Run(MAX_SCREEN_PENDING, s.fed);
            && s.units == h.units && s.pub.initHeader == h.relay.initHeader
            && s.pub.lastCluster == h.relay.lastCluster && s.pub.initSegment == h.relay.keyframe
            && Handed(s.pub) == HandedFor(h.relay.initHeader, h.units)
  {
    InvHolds(self, acts);
    HandedIs(Trace(self, acts));
  }

  lemma GateStep(s: State, a: Action)
    requires s.pub.initPending <= s.pub.viewers.Keys
    ensures Step(s, a).pub.initPending <= Step(s, a).pub.viewers.Keys
  {
  }

  /** In every run only registered viewers have a gate: whoever leaves or is cleared leaves none behind. */
  lemma {:induction false} GatesAreViewers(self: Conn, acts: seq<Action>)
    ensures Trace(self, acts).pub.initPending <= Trace(self, acts).pub.viewers.Keys
    decreases |acts|
  {
    if acts != [] {
      GatesAreViewers(self, acts[..|acts| - 1]);
      GateStep(Trace(self, acts[..|acts| - 1]), acts[|acts| - 1]);
    }
  }

  /** In every run, what a keyframe request re-sends is what a viewer that registers now is handed. */
  lemma {:induction false} CachedIsHanded(self: Conn, acts: seq<Action>)
    ensures Cached(Trace(self, acts).pub) == Handed(Trace(self, acts).pub)
  {
    InvHolds(self, acts);
    RelayConserves(MAX_SCREEN_PENDING, Trace(self, acts).fed);
  }
}

/** The shape of the init handed to a late joiner. */
module LateJoiner {
  import opened Common
  import opened KeyframeCut
  import opened ByteStrings
  import opened ClusterScan
  import opened RelaySpec
  import opened RelayConservation
  import opened PureSplit
  import opened ChunkingIndependence
  import opened ScreenSpec
  import opened ScreenDelivery

  /** initHeader is the stream up to its first ID, once there is a keyframe. */
  predicate HeaderFollows(h: History, s: Bytes) {
    h.units != [] ==> KeyframeEnd(s) >= 0 && h.relay.initHeader == s[..FirstId(s, 0)]
  }

  /** The call that finalises the keyframe without a valve. */
  lemma HeaderAtFinal(r: Relay, msg: Bytes)
    requires !r.ready && FeedStep(r, msg).units != [] && !FeedStep(r, msg).fired
    ensures var p := r.pending + msg; var f := FeedStep(r, msg);
            KeyframeEnd(p) >= 0 && f.relay.initHeader == p[..FirstId(p, 0)]
  {
  }

  lemma HeaderNext(g: History, t: Bytes, msg: Bytes)
    requires InStep(g, t) && FieldsFollow(g.relay, g.units) && HeaderFollows(g, t) && !FeedStep(g.relay, msg).fired
    ensures HeaderFollows(Extend(g, msg), t + msg)
  {
    if g.units == [] {
      if FeedStep(g.relay, msg).units != [] { HeaderAtFinal(g.relay, msg); }
    } else {
      FeedFields(g.relay, g.units, msg);
      KeyframeEndAppend(t, msg);
      FirstIdAppend(t, msg, 0);
    }
  }

  lemma {:induction false} HeaderOfStream(maxPending: int, msgs: seq<Bytes>)
    requires Run(maxPending, msgs).firings == 0
    ensures HeaderFollows(Run(maxPending, msgs), Concat(msgs))
    decreases |msgs|
  {
    if msgs != [] {
      var before, msg := msgs[..|msgs| - 1], msgs[|msgs| - 1];
      assert before + [msg] == msgs;
      HeaderOfStream(maxPending, before);
      HeaderNextRun(maxPending, before, msg);
    }
  }

  lemma HeaderNextRun(maxPending: int, before: seq<Bytes>, msg: Bytes)
    requires HeaderFollows(Run(maxPending, before), Concat(before))
    requires Run(maxPending, before).firings == 0 && !FeedStep(Run(maxPending, before).relay, msg).fired
    ensures HeaderFollows(Run(maxPending, before + [msg]), Concat(before + [msg]))
  {
    var g, t := Run(maxPending, before), Concat(before);
    assert (before + [msg])[..|before|] == before;
    assert Run(maxPending, before + [msg]) == Extend(g, msg);
    ConcatSnoc(before, msg);
    assert InStep(g, t) by { RelaySplitsStream(maxPending, before); }
    assert FieldsFollow(g.relay, g.units) by { RelayConserves(maxPending, before); }
    HeaderNext(g, t, msg);
  }

  /** The keyframe's only ID stands right behind that header. */
  lemma HeaderOfKeyframe(maxPending: int, msgs: seq<Bytes>)
    requires Run(maxPending, msgs).firings == 0 && Run(maxPending, msgs).units != []
    ensures var h := Run(maxPending, msgs);
            h.relay.initHeader <= h.units[0] && OnlyIdAt(h.units[0], |h.relay.initHeader|)
  {
    HeaderOfStream(maxPending, msgs);
    RelaySplitsStream(maxPending, msgs);
    RelayConserves(maxPending, msgs);
    OneIdBeforeKeyframeEnd(Concat(msgs));
  }

  /** After a keyframe that a valve let out there is no init to go with a later Cluster: whatever follows, a
      late joiner is handed that keyframe, which is all of the stream up to the firing. */
  lemma ValveKeyframeIsHanded(maxPending: int, before: seq<Bytes>, msg: Bytes, more: seq<Bytes>)
    requires Run(maxPending, before).units == []
    requires KeyframeEnd(Concat(before) + msg) < 0 && |Concat(before) + msg| > Budget(maxPending)
    ensures var h := RunFrom(Extend(Run(maxPending, before), msg), more);
            HandedFor(h.relay.initHeader, h.units) == Concat(before) + msg
  {
    KeyframeIsCut(maxPending, before, msg, more);
  }

  lemma CutAtOnlyId(header: Bytes, k: Bytes)
    requires header <= k && OnlyIdAt(k, |header|)
    ensures IsCluster(k[|header|..])
    ensures forall j :: !IdAt(header, j)
  {
    var tail := k[|header|..];
    assert header + tail == k;
    forall j ensures IdAt(tail, j) ==> j == 0 { IdInAppend(header, tail, j + |header|); }
    forall j ensures !IdAt(header, j) { IdInAppend(header, tail, j); }
    IdInAppend(header, tail, |header|);
  }

  /** While no valve has fired, what a late joiner is handed is the keyframe's own init followed by
      one complete Cluster: one ID in all, right behind the init, none across the join. */
  lemma HandedInitIsWellFormed(maxPending: int, msgs: seq<Bytes>)
    requires Run(maxPending, msgs).firings == 0 && Run(maxPending, msgs).units != []
    ensures var h := Run(maxPending, msgs); var header := h.relay.initHeader; var i := HandedFor(header, h.units);
            && header <= i && OnlyIdAt(i, |header|) && IsCluster(i[|header|..])
            && (|h.units| >= 2 && header != [] ==> i[|header|..] == h.units[|h.units| - 1])
  {
    var h := Run(maxPending, msgs);
    var header, last := h.relay.initHeader, h.units[|h.units| - 1];
    var i := HandedFor(header, h.units);
    HeaderOfKeyframe(maxPending, msgs);
    RelaySplitsStream(maxPending, msgs);
    SplitStreamIsPure(Concat(msgs));
    RelayConserves(maxPending, msgs);
    CutAtOnlyId(header, h.units[0]);
    if |h.units| >= 2 && header != [] {
      assert h.units[1..][|h.units| - 2] == last;
      forall j ensures IdAt(header + last, j) <==> j == |header| { IdsOfJoin(header, last, j); }
      assert i[|header|..] == last;
    }
  }

  /** So it is in every reachable state of the fan-out: what RegisterScreenViewer would return there,
      and what SendScreenKeyframe would re-send. */
  lemma {:induction false} ScreenHandsOutWellFormedInit(self: Conn, acts: seq<Action>)
    requires var s := Trace(self, acts); s.units != [] && Run(MAX_SCREEN_PENDING, s.fed).firings == 0
    ensures var p := Trace(self, acts).pub; var i := Handed(p);
            && i == Cached(p) && p.initHeader <= i && OnlyIdAt(i, |p.initHeader|) && IsCluster(i[|p.initHeader|..])
            && (p.initHeader != [] && p.lastCluster != [] ==> i[|p.initHeader|..] == p.lastCluster)
  {
    var s := Trace(self, acts);
    UnitsAreARun(self, acts);
    CachedIsHanded(self, acts);
    HandedInitIsWellFormed(MAX_SCREEN_PENDING, s.fed);
    RelayConserves(MAX_SCREEN_PENDING, s.fed);
  }

  /** While no valve fires, the first unit holds one ID, right behind the header, and every later one
      is a single Cluster. */
  lemma UnitShapes(maxPending: int, msgs: seq<Bytes>, k: nat)
    requires Run(maxPending, msgs).firings == 0 && k < |Run(maxPending, msgs).units|
    ensures var h := Run(maxPending, msgs);
            && (k == 0 ==> h.relay.initHeader <= h.units[0] && OnlyIdAt(h.units[0], |h.relay.initHeader|))
            && (k > 0 ==> IsCluster(h.units[k]))
  {
    var h := Run(maxPending, msgs);
    HeaderOfKeyframe(maxPending, msgs);
    RelaySplitsStream(maxPending, msgs);
    SplitStreamIsPure(Concat(msgs));
    if k > 0 { assert h.units[k] == h.units[1..][k - 1]; }
  }

  /** An init made of any number of the units has its one ID right behind the header. */
  lemma HandedShape(maxPending: int, msgs: seq<Bytes>, n: nat)
    requires Run(maxPending, msgs).firings == 0 && 0 < n <= |Run(maxPending, msgs).units|
    ensures var h := Run(maxPending, msgs); var i := HandedFor(h.relay.initHeader, h.units[..n]);
            h.relay.initHeader <= i && OnlyIdAt(i, |h.relay.initHeader|)
  {
    var h := Run(maxPending, msgs);
    var header := h.relay.initHeader;
    UnitShapes(maxPending, msgs, 0);
    if header != [] && n >= 2 {
      var last := h.units[n - 1];
      UnitShapes(maxPending, msgs, n - 1);
      CutAtOnlyId(header, h.units[0]);
      forall j ensures IdAt(header + last, j) <==> j == |header| { IdsOfJoin(header, last, j); }
    }
  }

  /** The promise of the relay and the gate together: over every run in which no valve has fired, the
      first thing a viewer receives is the stream's init with one Cluster, one ID in all and right behind
      the init, and everything after it is a single complete Cluster. */
  lemma {:induction false} ReceiversStayAligned(self: Conn, acts: seq<Action>, c: Conn)
    requires Run(MAX_SCREEN_PENDING, Trace(self, acts).fed).firings == 0
    ensures var s := Trace(self, acts); var log := s.viewer(c).log;
            && (log != [] ==> s.pub.initHeader <= log[0] && OnlyIdAt(log[0], |s.pub.initHeader|))
            && forall k :: 0 < k < |log| ==> IsCluster(log[k])
  {
    LogIsInitThenRun(self, acts, c);
    UnitsAreARun(self, acts);
    var s := Trace(self, acts);
    LogShape(s.fed, s.viewer(c));
  }

  lemma LogShape(fed: seq<Bytes>, v: Viewer)
    requires var h := Run(MAX_SCREEN_PENDING, fed);
             && h.firings == 0 && v.first <= v.next <= |h.units|
             && v.log <= (if v.initSeg == [] then [] else [v.initSeg]) + h.units[v.first..v.next]
             && (v.log != [] && v.initSeg == [] ==> v.first == 0)
             && (v.initSeg != [] ==>
                   0 < v.regAt <= |h.units| && v.initSeg == HandedFor(h.relay.initHeader, h.units[..v.regAt]))
             && (v.initSeg != [] && v.next > 0 ==> v.regAt <= v.first)
    ensures var header := Run(MAX_SCREEN_PENDING, fed).relay.initHeader;
            && (v.log != [] ==> header <= v.log[0] && OnlyIdAt(v.log[0], |header|))
            && forall k :: 0 < k < |v.log| ==> IsCluster(v.log[k])
  {
    var h := Run(MAX_SCREEN_PENDING, fed);
    if v.log != [] {
      if v.initSeg == [] {
        assert v.log[0] == h.units[0];
        UnitShapes(MAX_SCREEN_PENDING, fed, 0);
      } else {
        HandedShape(MAX_SCREEN_PENDING, fed, v.regAt);
      }
    }
    forall k | 0 < k < |v.log| ensures IsCluster(v.log[k]) {
      var j := if v.initSeg == [] then k else v.first + k - 1;
      assert v.log[k] == h.units[j];
      UnitShapes(MAX_SCREEN_PENDING, fed, j);
    }
  }

  /** The Cluster handed out is the latest one exactly when the stream has an init before its first
      Cluster, or the latest Cluster equals the first: an empty init is nil to the caching code. */
  lemma LatestClusterIff(maxPending: int, msgs: seq<Bytes>)
    requires Run(maxPending, msgs).firings == 0 && |Run(maxPending, msgs).units| >= 2
    ensures var h := Run(maxPending, msgs); var header := h.relay.initHeader; var last := h.units[|h.units| - 1];
            && (HandedFor(header, h.units) == header + last <==> !IdAt(Concat(msgs), 0) || h.units[0] == last)
            && (header == [] <==> IdAt(Concat(msgs), 0))
  {
    var h, s := Run(maxPending, msgs), Concat(msgs);
    HeaderOfStream(maxPending, msgs);
    FirstIdIsFirst(s, 0);
    assert [] + h.units[|h.units| - 1] == h.units[|h.units| - 1];
  }

  /** A stream of three different Clusters without an init: the second is the latest out, yet a
      late joiner is handed the first. */
  lemma BareClustersHandOutTheFirst()
    ensures var a, b, c := [0x1F, 0x43, 0xB6, 0x75, 1], [0x1F, 0x43, 0xB6, 0x75, 2], [0x1F, 0x43, 0xB6, 0x75, 3];
            var h := Run(MAX_SCREEN_PENDING, [a + b + c]);
            h.firings == 0 && h.units == [a, b] && HandedFor(h.relay.initHeader, h.units) == a
  {
    var a, b, c: Bytes := [0x1F, 0x43, 0xB6, 0x75, 1], [0x1F, 0x43, 0xB6, 0x75, 2], [0x1F, 0x43, 0xB6, 0x75, 3];
    var s: Bytes := a + b + c;
    var msgs: seq<Bytes> := [s];
    assert msgs[..0] == [];
    ConcatOne(s);
    var sp := Split([a, b], c);
    ConcatOne(b);
    ConcatCons(a, [b]);
    assert [a] + [b] == [a, b];
    assert OnlyIdAt(a, 0) && OnlyIdAt(b, 0) && OnlyIdAt(c, 0);
    assert sp.units[1..] == [b];
    PureSplitIsUnique(s, sp);
    assert RestsFit(msgs, MAX_SCREEN_PENDING);
    RelaySplitsStream(MAX_SCREEN_PENDING, msgs);
    LatestClusterIff(MAX_SCREEN_PENDING, msgs);
  }
}
