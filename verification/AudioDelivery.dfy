// Delivery between audio clients, over every interleaving of joiners, senders, failures, leaves
// and the forced removal of the room. Every section under the room mutex is one step, and every
// write is one step.

module AudioDelivery {
  import opened Common
  import opened ByteStrings
  import opened ClusterScan
  import opened RelaySpec
  import opened RelayConservation
  import opened PureSplit
  import opened ChunkingIndependence
  import opened Framing
  import opened AudioSpec

  /** Snapped holds the cached inits a joiner still has to send itself before it registers. A connection that
      is leaving has found the room mapped and has yet to delete itself. */
  datatype Pc = Outside | Snapped(todo: map<Conn, Bytes>) | Joined | Leaving | Failed | Gone

  datatype Batch = Idle | Queued | Writing

  /** What joiner j has to do with sender s. queue holds frames of s decided for j but not yet
      written, log what j received from s. The rest is history: whether s had a cached init at j's
      snapshot, and how many units s had out at the snapshot, at the registration, and when the
      last frame was decided for j. */
  datatype Link = Link(queue: seq<Bytes>, log: seq<Bytes>, cached: bool, snapAt: nat, regAt: nat, next: nat)

  /** mapped says whether the manager's map still has the room. fed(s) lists the messages accepted from s.
      stray(s) records that s was deleted from the clients while its handler went on: by a failed write to
      it, or by the removal of the room. */
  datatype State = State(room: Room, mapped: bool, pc: Conn -> Pc, alive: Conn -> bool, batch: Conn -> Batch,
                         link: (Conn, Conn) -> Link, id: Conn -> Bytes, fed: Conn -> seq<Bytes>, stray: Conn -> bool)

  datatype Action =
    | Snapshot(j: Conn) | SendInit(j: Conn, s: Conn) | Register(j: Conn, id: Bytes)   // JoinRoom
    | Broadcast(s: Conn, msg: Bytes) | Lock(s: Conn) | Deliver(s: Conn, j: Conn) | Unlock(s: Conn)
    | Leave(c: Conn) | DeleteSelf(c: Conn)                                            // LeaveRoom
    | Break(c: Conn)
    | Unmap | ClearRoom                                                               // RemoveRoom, destroyRoom

  function Init(): State {
    State(Room(map[], map[], map[]), true, (c: Conn) => Outside, (c: Conn) => true, (c: Conn) => Idle,
          (j: Conn, s: Conn) => Link([], [], false, 0, 0, 0), (c: Conn) => [], (c: Conn) => [], (c: Conn) => false)
  }

  /** The units of sender s so far. */
  function Units(s: State, c: Conn): seq<Bytes> {
    Run(MAX_AUDIO_PENDING, s.fed(c)).units
  }

  function SetPc(s: State, c: Conn, pc: Pc): State {
    s.(pc := (x: Conn) => if x == c then pc else s.pc(x))
  }

  function SetBatch(s: State, c: Conn, b: Batch): State {
    s.(batch := (x: Conn) => if x == c then b else s.batch(x))
  }

  function SetLink(s: State, j: Conn, c: Conn, l: Link): State {
    s.(link := (x: Conn, y: Conn) => if x == j && y == c then l else s.link(x, y))
  }

  function Snap(s: State, j: Conn): State {
    SetPc(s, j, Snapped(s.room.inits)).(
      link := (x: Conn, c: Conn) =>
        if x == j then s.link(x, c).(cached := c in s.room.inits, snapAt := |Units(s, c)|) else s.link(x, c))
  }

  function Join(s: State, j: Conn, id: Bytes): State {
    SetPc(s, j, Joined).(
      room := RegisterClient(s.room, j, id),
      id := (x: Conn) => if x == j then id else s.id(x),
      link := (x: Conn, c: Conn) =>
        if x == j then s.link(x, c).(regAt := |Units(s, c)|, next := |Units(s, c)|) else s.link(x, c))
  }

  function Publish(s: State, c: Conn, msg: Bytes): State {
    var frames := FramesOf(s.room, c, msg);
    SetBatch(s, c, if frames == [] then Idle else Queued).(
      room := AudioSpec.Broadcast(s.room, c, msg),
      fed := (x: Conn) => if x == c && Accepts(s.room, c, msg) then s.fed(x) + [msg] else s.fed(x),
      link := (j: Conn, x: Conn) =>
        if x == c && j in s.room.clients && j != c then
          s.link(j, x).(queue := s.link(j, x).queue + frames, next := s.link(j, x).next + |frames|)
        else s.link(j, x))
  }

  /** A failed write: the receiver is deleted from the room's maps and the rest of its frames is skipped. */
  function Drop(s: State, c: Conn, j: Conn): State {
    SetLink(s, j, c, s.link(j, c).(queue := [])).(
      room := Forget(s.room, j),
      stray := (x: Conn) => x == j || s.stray(x))
  }

  /** One step; an action that is not enabled changes nothing. */
  ghost function Step(s: State, a: Action): State {
    match a
    case Snapshot(j) => if s.pc(j).Outside? then Snap(s, j) else s
    case SendInit(j, c) =>
      if s.pc(j).Snapped? && c in s.pc(j).todo then
        if s.alive(j) then
          var l := s.link(j, c);
          SetPc(SetLink(s, j, c, l.(log := l.log + [s.pc(j).todo[c]])), j, Snapped(s.pc(j).todo - {c}))
        else SetPc(s, j, Failed)
      else s
    case Register(j, id) => if s.pc(j) == Snapped(map[]) then Join(s, j, id) else s
    case Broadcast(c, msg) => if s.pc(c).Joined? && s.batch(c).Idle? then Publish(s, c, msg) else s
    case Lock(c) =>
      if s.batch(c).Queued? && forall x :: !s.batch(x).Writing? then SetBatch(s, c, Writing) else s
    case Deliver(c, j) =>
      var l := s.link(j, c);
      if s.batch(c).Writing? && l.queue != [] then
        if s.alive(j) then SetLink(s, j, c, l.(queue := l.queue[1..], log := l.log + [l.queue[0]]))
        else Drop(s, c, j)
      else s
    case Unlock(c) =>
      if s.batch(c).Writing? && forall j :: s.link(j, c).queue == [] then SetBatch(s, c, Idle) else s
    case Leave(c) =>
      if s.pc(c).Joined? && s.batch(c).Idle? then SetPc(s, c, if s.mapped then Leaving else Gone) else s
    case DeleteSelf(c) => if s.pc(c).Leaving? then SetPc(s, c, Gone).(room := Forget(s.room, c)) else s
    case Break(c) => s.(alive := (x: Conn) => x != c && s.alive(x))
    case Unmap => s.(mapped := false)
    case ClearRoom =>
      if s.mapped then s
      else s.(room := Room(map[], map[], map[]), stray := (x: Conn) => x in s.room.clients || s.stray(x))
  }

  ghost function Trace(acts: seq<Action>): State {
    if acts == [] then Init() else Step(Trace(acts[..|acts| - 1]), acts[|acts| - 1])
  }

  /** The cached init, if there was one, then the units from the registration on. */
  function Expected(l: Link, id: Bytes, units: seq<Bytes>): seq<Bytes>
    requires l.regAt <= l.next <= |units| && (l.cached ==> units != [])
  {
    (if l.cached then [Frame(id, units[0])] else []) + FrameAll(id, units[l.regAt..l.next])
  }

  /** The connection's handler has registered it, and has not ended. */
  predicate Here(s: State, c: Conn) {
    s.pc(c).Joined? || s.pc(c).Leaving?
  }

  predicate Entered(s: State, c: Conn) {
    Here(s, c) || s.pc(c).Gone?
  }

  predicate Known(r: Room, c: Conn) {
    c in r.clients || c in r.relays || c in r.inits
  }

  /** The room's maps, for connection c; one that leaves an unmapped room stays in them. */
  ghost predicate ConnInv(s: State, c: Conn) {
    var h := Run(MAX_AUDIO_PENDING, s.fed(c));
    && (Known(s.room, c) ==> Here(s, c) || (s.pc(c).Gone? && !s.mapped))
    && (s.stray(c) ==> Entered(s, c))
    && (!s.pc(c).Joined? ==> s.batch(c).Idle?)
    && (s.fed(c) != [] ==> Entered(s, c))
    && ((Here(s, c) || Known(s.room, c)) && !s.stray(c) ==>
          && c in s.room.clients && s.room.clients[c] == s.id(c)
          && (c in s.room.relays <==> s.fed(c) != [])
          && (c in s.room.relays ==> s.room.relays[c] == h.relay)
          && (c in s.room.inits <==> h.units != [])
          && (c in s.room.inits ==> s.room.inits[c] == Frame(s.id(c), h.units[0])))
  }

  ghost predicate LinkInv(s: State, j: Conn, c: Conn) {
    var l, u := s.link(j, c), Units(s, c);
    (l.queue != [] ==> Entered(s, j)) &&
    if j == c then l.queue == [] && l.log == [] && (s.pc(j).Snapped? ==> c !in s.pc(j).todo)
    else if s.stray(c) then true
    else
      && l.regAt <= l.next <= |u| && l.snapAt <= |u|
      && (l.cached ==> l.snapAt > 0)
      && (l.snapAt > 0 && !l.cached ==>
            s.pc(c).Gone? && (Entered(s, j) ==> l.regAt == l.next == |u|))
      && (s.pc(j).Outside? ==> l == Link([], [], false, 0, 0, 0))
      && (s.pc(j).Snapped? || s.pc(j).Failed? ==> l.queue == [] && l.next == 0)
      && (s.pc(j).Snapped? ==>
            && (c in s.pc(j).todo ==> l.cached && s.pc(j).todo[c] == Frame(s.id(c), u[0]))
            && l.log == if l.cached && c !in s.pc(j).todo then [Frame(s.id(c), u[0])] else [])
      && l.log <= Expected(l, s.id(c), u)
      && (Entered(s, j) ==>
            && l.snapAt <= l.regAt
            && (s.alive(j) ==> l.log + l.queue == Expected(l, s.id(c), u)))
      && (j in s.room.clients ==> l.next == |u|)
  }

  ghost predicate Inv(s: State) {
    && Coherent(s.room) && RelaysRun(s.room)
    && (forall c :: ConnInv(s, c))
    && (forall j, c :: LinkInv(s, j, c))
  }

  /** The sender's side of a message. */
  lemma PublishConn(s: State, c: Conn, msg: Bytes)
    requires ConnInv(s, c) && s.pc(c).Joined? && !s.stray(c)
    ensures var t := Publish(s, c, msg);
            && ConnInv(t, c) && Units(s, c) <= Units(t, c)
            && FrameAll(s.id(c), Units(t, c)[|Units(s, c)|..]) == FramesOf(s.room, c, msg)
  {
    var t, h := Publish(s, c, msg), Run(MAX_AUDIO_PENDING, s.fed(c));
    RelayConserves(MAX_AUDIO_PENDING, s.fed(c));
    RelayConserves(MAX_AUDIO_PENDING, t.fed(c));
    if Accepts(s.room, c, msg) {
      assert (s.fed(c) + [msg])[..|s.fed(c)|] == s.fed(c);
      assert Run(MAX_AUDIO_PENDING, t.fed(c)) == Extend(h, msg);
      FeedFields(h.relay, h.units, msg);
      assert (h.units + FeedStep(h.relay, msg).units)[|h.units|..] == FeedStep(h.relay, msg).units;
    }
  }

  /** Frames decided later extend what is expected and what is queued alike. */
  lemma ExpectedGrows(l: Link, id: Bytes, u: seq<Bytes>, w: seq<Bytes>)
    requires u <= w && l.regAt <= l.next <= |u| && (l.cached ==> u != [])
    ensures Expected(l, id, w) == Expected(l, id, u)
    ensures l.next == |u| ==>
      var more := FrameAll(id, w[|u|..]); var m := l.(queue := l.queue + more, next := |w|);
      && Expected(m, id, w) == Expected(l, id, u) + more
      && (l.log + l.queue == Expected(l, id, u) ==> m.log + m.queue == Expected(m, id, w))
  {
    assert w[l.regAt..l.next] == u[l.regAt..l.next];
    if l.next == |u| {
      var sent, more := if l.cached then [Frame(id, u[0])] else [], w[|u|..];
      assert w[l.regAt..|w|] == u[l.regAt..|u|] + more;
      FrameAllAppend(id, u[l.regAt..|u|], more);
      Assoc(sent, FrameAll(id, u[l.regAt..|u|]), FrameAll(id, more));
      Assoc(l.log, l.queue, FrameAll(id, more));
    }
  }

  /** A message of a sender that was not deleted, for a registered receiver. */
  lemma PublishedTo(s: State, c: Conn, msg: Bytes, j: Conn)
    requires ConnInv(s, c) && ConnInv(s, j) && LinkInv(s, j, c) && s.pc(c).Joined? && j != c && !s.stray(c)
    requires j in s.room.clients
    ensures LinkInv(Publish(s, c, msg), j, c)
  {
    var t, l, u, w := Publish(s, c, msg), s.link(j, c), Units(s, c), Units(Publish(s, c, msg), c);
    PublishConn(s, c, msg);
    ExpectedGrows(l, s.id(c), u, w);
    assert u != [] ==> w[0] == u[0];
    assert |w[|u|..]| == |FramesOf(s.room, c, msg)|;
    assert t.link(j, c) == l.(queue := l.queue + FramesOf(s.room, c, msg), next := |w|);
  }

  /** And for one that is not. */
  lemma PublishedPast(s: State, c: Conn, msg: Bytes, j: Conn)
    requires ConnInv(s, c) && ConnInv(s, j) && LinkInv(s, j, c) && s.pc(c).Joined? && j != c && !s.stray(c)
    requires j !in s.room.clients
    ensures LinkInv(Publish(s, c, msg), j, c)
  {
    var l, u, w := s.link(j, c), Units(s, c), Units(Publish(s, c, msg), c);
    PublishConn(s, c, msg);
    ExpectedGrows(l, s.id(c), u, w);
    assert u != [] ==> w[0] == u[0];
    assert Publish(s, c, msg).link(j, c) == l;
  }

  lemma PublishLink(s: State, c: Conn, msg: Bytes, j: Conn)
    requires ConnInv(s, c) && ConnInv(s, j) && LinkInv(s, j, c) && s.pc(c).Joined?
    ensures LinkInv(Publish(s, c, msg), j, c)
  {
    if j != c && !s.stray(c) {
      if j in s.room.clients { PublishedTo(s, c, msg, j); } else { PublishedPast(s, c, msg, j); }
    }
  }

  lemma SnapLink(s: State, j: Conn, c: Conn)
    requires ConnInv(s, c) && ConnInv(s, j) && LinkInv(s, j, c) && s.pc(j).Outside?
    ensures LinkInv(Snap(s, j), j, c)
  {
    RelayConserves(MAX_AUDIO_PENDING, s.fed(c));
  }

  lemma JoinLink(s: State, j: Conn, id: Bytes, c: Conn)
    requires ConnInv(s, c) && ConnInv(s, j) && LinkInv(s, j, c) && s.pc(j) == Snapped(map[])
    ensures LinkInv(Join(s, j, id), j, c)
  {
    var l, u := s.link(j, c), Units(s, c);
    assert u[|u|..|u|] == [];
    assert l.log + [] == l.log;
  }

  lemma DeliverLink(s: State, c: Conn, j: Conn)
    requires LinkInv(s, j, c) && s.batch(c).Writing? && s.link(j, c).queue != [] && s.alive(j)
    ensures LinkInv(Step(s, Deliver(c, j)), j, c)
  {
    var l := s.link(j, c);
    assert [l.queue[0]] + l.queue[1..] == l.queue;
    Assoc(l.log, [l.queue[0]], l.queue[1..]);
  }

  /** The cached init of sender c itself is sent. */
  lemma SendOwnInit(s: State, j: Conn, c: Conn)
    requires ConnInv(s, j) && LinkInv(s, j, c) && s.pc(j).Snapped? && c in s.pc(j).todo && s.alive(j)
    ensures LinkInv(Step(s, SendInit(j, c)), j, c)
  {
    var u := Units(s, c);
    if j != c && !s.stray(c) { assert u[s.link(j, c).regAt..s.link(j, c).next] <= u; }
  }

  lemma SendInitLink(s: State, j: Conn, y: Conn, c: Conn)
    requires ConnInv(s, c) && ConnInv(s, j) && LinkInv(s, j, c)
    ensures LinkInv(Step(s, SendInit(j, y)), j, c)
  {
    if s.pc(j).Snapped? && y in s.pc(j).todo {
      if !s.alive(j) {
        OtherLink(s, Step(s, SendInit(j, y)), j, c);
      } else if y == c {
        SendOwnInit(s, j, c);
      } else {
        SendOtherInit(s, j, y, c);
      }
    }
  }

  lemma SendOtherInit(s: State, j: Conn, y: Conn, c: Conn)
    requires ConnInv(s, j) && LinkInv(s, j, c) && s.pc(j).Snapped? && y in s.pc(j).todo && s.alive(j) && y != c
    ensures LinkInv(Step(s, SendInit(j, y)), j, c)
  {
    var t := Step(s, SendInit(j, y));
    assert t.link(j, c) == s.link(j, c) && t.pc(j) == Snapped(s.pc(j).todo - {y});
  }

  lemma DropLink(s: State, c: Conn, j: Conn)
    requires ConnInv(s, j) && LinkInv(s, j, c) && !s.alive(j)
    ensures LinkInv(Drop(s, c, j), j, c)
  {
  }

  /** A sender that registers has no units yet. */
  lemma SenderJoins(s: State, c: Conn, id: Bytes, j: Conn)
    requires ConnInv(s, c) && LinkInv(s, j, c) && s.pc(c) == Snapped(map[]) && j != c
    ensures LinkInv(Join(s, c, id), j, c)
  {
    assert Units(s, c) == [];
  }

  /** Nothing about the link (j, c) changes but what s.alive, the clients and other handlers are. */
  lemma OtherLink(s: State, t: State, j: Conn, c: Conn)
    requires ConnInv(s, j) && LinkInv(s, j, c)
    requires t.link(j, c) == s.link(j, c) && t.fed(c) == s.fed(c) && t.id(c) == s.id(c)
    requires t.pc(j) == s.pc(j) || (s.pc(j).Snapped? && t.pc(j).Failed?) || (Here(s, j) && Entered(t, j))
    requires s.pc(c).Gone? ==> t.pc(c).Gone?
    requires s.stray(c) ==> t.stray(c)
    requires t.alive(j) ==> s.alive(j)
    requires j in t.room.clients ==> j in s.room.clients
    ensures LinkInv(t, j, c)
  {
  }

  lemma LinkStep(s: State, a: Action, j: Conn, c: Conn)
    requires LinkInv(s, j, c) && ConnInv(s, j) && ConnInv(s, c)
    ensures LinkInv(Step(s, a), j, c)
  {
    if a == Snapshot(j) {
      if s.pc(j).Outside? { SnapLink(s, j, c); }
    } else if a.Register? && s.pc(a.j) == Snapped(map[]) && a.j == j {
      JoinLink(s, j, a.id, c);
    } else if a.Register? && s.pc(a.j) == Snapped(map[]) && a.j == c {
      SenderJoins(s, c, a.id, j);
    } else if a.Broadcast? && a.s == c {
      if s.pc(c).Joined? && s.batch(c).Idle? { PublishLink(s, c, a.msg, j); }
    } else if a.SendInit? && a.j == j {
      SendInitLink(s, j, a.s, c);
    } else if a == Deliver(c, j) && s.batch(c).Writing? && s.link(j, c).queue != [] {
      if s.alive(j) { DeliverLink(s, c, j); } else { DropLink(s, c, j); }
    } else {
      UntouchedLink(s, a, j, c);
    }
  }

  lemma UntouchedLink(s: State, a: Action, j: Conn, c: Conn)
    requires LinkInv(s, j, c) && ConnInv(s, j)
    requires a != Snapshot(j) && !(a.Broadcast? && a.s == c) && !(a.SendInit? && a.j == j)
    requires a.Register? && s.pc(a.j) == Snapped(map[]) ==> a.j != j && a.j != c
    requires a == Deliver(c, j) ==> !s.batch(c).Writing? || s.link(j, c).queue == []
    ensures LinkInv(Step(s, a), j, c)
  {
    var t := Step(s, a);
    UntouchedParts(s, a, j, c);
    OtherLink(s, t, j, c);
  }

  lemma UntouchedParts(s: State, a: Action, j: Conn, c: Conn)
    requires a != Snapshot(j) && !(a.Broadcast? && a.s == c) && !(a.SendInit? && a.j == j)
    requires a.Register? && s.pc(a.j) == Snapped(map[]) ==> a.j != j && a.j != c
    requires a == Deliver(c, j) ==> !s.batch(c).Writing? || s.link(j, c).queue == []
    ensures var t := Step(s, a);
            && t.link(j, c) == s.link(j, c) && t.fed(c) == s.fed(c) && t.id(c) == s.id(c)
            && (t.pc(j) == s.pc(j) || (Here(s, j) && Entered(t, j)))
            && (s.pc(c).Gone? ==> t.pc(c).Gone?) && (s.stray(c) ==> t.stray(c)) && (t.alive(j) ==> s.alive(j))
            && (j in t.room.clients ==> j in s.room.clients)
  {
  }

  lemma DropConn(s: State, c: Conn, j: Conn, x: Conn)
    requires ConnInv(s, x) && LinkInv(s, j, c) && s.link(j, c).queue != []
    ensures ConnInv(Drop(s, c, j), x)
  {
  }

  lemma JoinConn(s: State, j: Conn, id: Bytes, x: Conn)
    requires ConnInv(s, x) && s.pc(j).Snapped?
    ensures ConnInv(Join(s, j, id), x)
  {
  }

  /** The parts of the state that speak of connection x stay the same. */
  lemma SameConn(s: State, t: State, x: Conn)
    requires ConnInv(s, x)
    requires t.pc(x) == s.pc(x) && t.batch(x) == s.batch(x) && t.fed(x) == s.fed(x) && t.id(x) == s.id(x)
    requires (s.stray(x) ==> t.stray(x)) && (t.stray(x) ==> s.stray(x) || Entered(s, x))
    requires t.mapped ==> s.mapped
    requires x in t.room.clients ==> x in s.room.clients
    requires x in t.room.relays ==> x in s.room.relays || s.pc(x).Joined?
    requires x in t.room.inits ==> x in s.room.inits || s.pc(x).Joined?
    requires !t.stray(x) ==>
      && (x in s.room.clients ==> x in t.room.clients && t.room.clients[x] == s.room.clients[x])
      && (x in s.room.relays <==> x in t.room.relays) && (x in s.room.relays ==> t.room.relays[x] == s.room.relays[x])
      && (x in s.room.inits <==> x in t.room.inits) && (x in s.room.inits ==> t.room.inits[x] == s.room.inits[x])
    ensures ConnInv(t, x)
  {
  }

  /** A step of x's own handler that enters, leaves, or moves its batch. */
  predicate Own(a: Action, x: Conn) {
    || a == Leave(x) || a == DeleteSelf(x) || a == Lock(x) || a == Unlock(x)
    || a == Snapshot(x) || (a.SendInit? && a.j == x)
  }

  lemma OwnConn(s: State, a: Action, x: Conn)
    requires ConnInv(s, x)
    requires Own(a, x)
    ensures ConnInv(Step(s, a), x)
  {
  }

  /** What is said of x in one room is said of it in the other. */
  predicate SameEntries(q: Room, r: Room, x: Conn) {
    && (x in q.clients <==> x in r.clients) && (x in q.clients ==> q.clients[x] == r.clients[x])
    && (x in q.relays <==> x in r.relays) && (x in q.relays ==> q.relays[x] == r.relays[x])
    && (x in q.inits <==> x in r.inits) && (x in q.inits ==> q.inits[x] == r.inits[x])
  }

  lemma OtherParts(s: State, a: Action, x: Conn)
    requires !a.Deliver? && !a.Register? && !a.ClearRoom?
    requires a.Broadcast? ==> a.s != x || !s.pc(x).Joined? || !s.batch(x).Idle?
    requires !Own(a, x)
    ensures var t := Step(s, a);
            && t.pc(x) == s.pc(x) && t.batch(x) == s.batch(x) && t.fed(x) == s.fed(x) && t.id(x) == s.id(x)
            && t.stray(x) == s.stray(x) && SameEntries(s.room, t.room, x)
  {
  }

  /** Connection x is neither the sender of a message nor a joiner nor deleted. */
  lemma OtherConn(s: State, a: Action, x: Conn)
    requires ConnInv(s, x) && !a.Deliver? && !a.Register?
    requires a.Broadcast? ==> a.s != x || !s.pc(x).Joined? || !s.batch(x).Idle?
    ensures ConnInv(Step(s, a), x)
  {
    if Own(a, x) {
      OwnConn(s, a, x);
    } else if a.ClearRoom? {
      SameConn(s, Step(s, ClearRoom), x);
    } else {
      OtherParts(s, a, x);
      SameConn(s, Step(s, a), x);
    }
  }

  lemma PublishStray(s: State, c: Conn, msg: Bytes)
    requires ConnInv(s, c) && s.pc(c).Joined? && s.stray(c)
    ensures ConnInv(Publish(s, c, msg), c)
  {
  }

  lemma ConnStep(s: State, a: Action, c: Conn)
    requires ConnInv(s, c) && (a.Deliver? ==> LinkInv(s, a.j, a.s))
    ensures ConnInv(Step(s, a), c)
  {
    if a.Broadcast? && a.s == c && s.pc(c).Joined? && s.batch(c).Idle? {
      if s.stray(c) { PublishStray(s, c, a.msg); } else { PublishConn(s, c, a.msg); }
    } else if a.Deliver? {
      if s.batch(a.s).Writing? && s.link(a.j, a.s).queue != [] && !s.alive(a.j) { DropConn(s, a.s, a.j, c); }
    } else if a.Register? {
      if s.pc(a.j) == Snapped(map[]) { JoinConn(s, a.j, a.id, c); }
    } else {
      OtherConn(s, a, c);
    }
  }

  lemma RoomStep(s: State, a: Action)
    requires Inv(s)
    ensures Coherent(Step(s, a).room) && RelaysRun(Step(s, a).room)
  {
    match a {
      case Broadcast(c, msg) => BroadcastIsCoherent(s.room, c, msg);
      case Register(c, id) => assert ConnInv(s, c); RoomStaysCoherent(s.room, c, id);
      case DeleteSelf(c) => RoomStaysCoherent(s.room, c, []);
      case Deliver(_, j) => RoomStaysCoherent(s.room, j, []);
      case _ =>
    }
  }

  lemma {:induction false} InvHolds(acts: seq<Action>)
    ensures Inv(Trace(acts))
    decreases |acts|
  {
    if acts != [] {
      var s, a := Trace(acts[..|acts| - 1]), acts[|acts| - 1];
      InvHolds(acts[..|acts| - 1]);
      RoomStep(s, a);
      forall c ensures ConnInv(Step(s, a), c) { assert a.Deliver? ==> LinkInv(s, a.j, a.s); ConnStep(s, a, c); }
      forall j, c ensures LinkInv(Step(s, a), j, c) { assert ConnInv(s, j) && ConnInv(s, c); LinkStep(s, a, j, c); }
    }
  }

  /** Over every run, a sender has a cached init exactly when its relay is ready, and the cache is
      its framed keyframe; for a sender that was never deleted that is its first unit. */
  lemma {:induction false} CacheCoherence(acts: seq<Action>, c: Conn)
    ensures var s := Trace(acts);
            && Coherent(s.room)
            && (Here(s, c) && !s.stray(c) ==>
                  && (c in s.room.inits <==> Units(s, c) != [])
                  && (c in s.room.inits ==> s.room.inits[c] == Frame(s.id(c), Units(s, c)[0])))
  {
    InvHolds(acts);
    assert ConnInv(Trace(acts), c);
  }

  /** The action is a message of c that its handler passes to Broadcast. */
  predicate Speaks(s: State, a: Action, c: Conn) {
    a.Broadcast? && a.s == c && s.pc(c).Joined? && s.batch(c).Idle?
  }

  /** The action deletes c from the room's maps: it leaves, a write to it fails, or the room is cleared. */
  predicate Deletes(s: State, a: Action, c: Conn) {
    || (a == DeleteSelf(c) && s.pc(c).Leaving?)
    || (a.Deliver? && a.j == c && s.batch(a.s).Writing? && s.link(c, a.s).queue != [] && !s.alive(c))
    || (a.ClearRoom? && !s.mapped)
  }

  /** c has sent nothing yet, or nothing since it was deleted. */
  ghost predicate Fresh(acts: seq<Action>, c: Conn) {
    acts == [] ||
    var before, a := acts[..|acts| - 1], acts[|acts| - 1];
    !Speaks(Trace(before), a, c) && (Deletes(Trace(before), a, c) || Fresh(before, c))
  }

  /** The messages of c but those that start with 1A 45 DF A3, unless c is fresh. */
  ghost function Heard(acts: seq<Action>, c: Conn): seq<Bytes> {
    if acts == [] then []
    else
      var before, a := acts[..|acts| - 1], acts[|acts| - 1];
      Heard(before, c) +
      if Speaks(Trace(before), a, c) && (Fresh(before, c) || !([0x1A, 0x45, 0xDF, 0xA3] <= a.msg)) then [a.msg] else []
  }

  /** What an action does to a sender's messages and relay. */
  lemma FedStep(s: State, a: Action, c: Conn)
    ensures var t, speaks := Step(s, a), Speaks(s, a, c);
            && t.fed(c) == s.fed(c) +
                 (if speaks && (c !in s.room.relays || !([0x1A, 0x45, 0xDF, 0xA3] <= a.msg)) then [a.msg] else [])
            && (c in t.room.relays <==> speaks || (c in s.room.relays && !Deletes(s, a, c)))
  {
    if a.Broadcast? { assert [0x1A, 0x45, 0xDF, 0xA3] <= a.msg <==> IsEbmlHeader(a.msg); }
  }

  /** Over any run, a sender's relay is fed the sender's first message, since the start or since the sender was
      deleted, and every later one but the repeated EBML headers. */
  lemma {:induction false} FedIsHeard(acts: seq<Action>, c: Conn)
    ensures Trace(acts).fed(c) == Heard(acts, c)
    ensures c in Trace(acts).room.relays <==> !Fresh(acts, c)
    decreases |acts|
  {
    if acts != [] {
      var before, a := acts[..|acts| - 1], acts[|acts| - 1];
      FedIsHeard(before, c);
      FedStep(Trace(before), a, c);
    }
  }

  lemma FrameAllPrefix(id: Bytes, u: seq<Bytes>, a: nat, b: nat)
    requires a <= b <= |u|
    ensures FrameAll(id, u[a..b]) <= FrameAll(id, u[a..])
  {
    assert u[a..] == u[a..b] + u[b..];
    FrameAllAppend(id, u[a..b], u[b..]);
  }

  /** The framed keyframe and then the units from m on, the keyframe not among them. */
  function KeyframeThen(id: Bytes, u: seq<Bytes>, m: nat): seq<Bytes>
    requires u != [] && m <= |u|
  {
    [Frame(id, u[0])] + FrameAll(id, u[if m == 0 then 1 else m..])
  }

  lemma ExpectedShape(l: Link, id: Bytes, u: seq<Bytes>)
    requires l.regAt <= l.next <= |u| && u != []
    requires l.cached ==> l.regAt > 0 || l.next == 0
    ensures (!l.cached && l.regAt > 0 ==> Expected(l, id, u) <= FrameAll(id, u[l.regAt..]))
    ensures (l.cached || l.regAt == 0 ==> Expected(l, id, u) <= KeyframeThen(id, u, l.regAt))
    ensures l.next == |u| && (l.cached || l.regAt == 0) ==> Expected(l, id, u) == KeyframeThen(id, u, l.regAt)
  {
    FrameAllPrefix(id, u, l.regAt, l.next);
    if l.cached {
    } else if l.regAt == 0 && l.next > 0 {
      assert u[0..l.next][1..] == u[1..l.next];
      FrameAllPrefix(id, u, 1, l.next);
      if l.next == |u| { assert u[1..l.next] == u[1..]; }
    }
    if l.next == |u| { assert u[l.regAt..l.next] == u[l.regAt..]; }
  }

  /** Init before media: unless the sender's keyframe was finalised between the joiner's snapshot and
      its registration, what the joiner has from that sender is a prefix of the framed keyframe, once,
      followed by later units in order without gaps. In the excluded case it never gets the keyframe. */
  lemma {:induction false} InitBeforeMedia(acts: seq<Action>, j: Conn, c: Conn)
    requires j != c && !Trace(acts).stray(c)
    ensures var s := Trace(acts); var l, u := s.link(j, c), Units(s, c);
            && l.regAt <= |u|
            && (u == [] ==> l.log == [])
            && (u != [] ==> l.log <= if l.snapAt == 0 && l.regAt > 0 then FrameAll(s.id(c), u[l.regAt..])
                                     else KeyframeThen(s.id(c), u, l.regAt))
  {
    InvHolds(acts);
    var s := Trace(acts);
    assert LinkInv(s, j, c);
    var l, u := s.link(j, c), Units(s, c);
    if u != [] {
      ExpectedShape(l, s.id(c), u);
      if l.snapAt > 0 && !l.cached && l.regAt > 0 { assert u[|u|..] == []; }
    }
  }

  /** And nothing is lost: a live, registered joiner with nothing queued from a sender still present. */
  lemma {:induction false} AudioDeliveryComplete(acts: seq<Action>, j: Conn, c: Conn)
    requires var s := Trace(acts);
             && j != c && !s.stray(c) && Here(s, c) && Units(s, c) != []
             && s.alive(j) && j in s.room.clients && s.link(j, c).queue == []
    ensures var s := Trace(acts); var l, u := s.link(j, c), Units(s, c);
            l.regAt <= |u| &&
            l.log == if l.snapAt == 0 && l.regAt > 0 then FrameAll(s.id(c), u[l.regAt..])
                     else KeyframeThen(s.id(c), u, l.regAt)
  {
    InvHolds(acts);
    var s := Trace(acts);
    assert LinkInv(s, j, c) && ConnInv(s, j);
    var l, u := s.link(j, c), Units(s, c);
    assert l.log + [] == l.log;
    ExpectedShape(l, s.id(c), u);
    assert u[l.regAt..l.next] == u[l.regAt..];
  }

  lemma {:induction false} FrameAllAt(id: Bytes, units: seq<Bytes>, k: nat)
    requires k < |units|
    ensures FrameAll(id, units)[k] == Frame(id, units[k])
  {
    if k > 0 { FrameAllAt(id, units[1..], k - 1); }
  }

  /** The same in the receiver's terms: while the sender's valves stay shut, and outside the excluded
      case, the first frame carries an init and one Cluster, and every later one a single Cluster. */
  lemma {:induction false} AudioReceiversStayAligned(acts: seq<Action>, j: Conn, c: Conn)
    requires var s := Trace(acts); var l := s.link(j, c);
             && j != c && !s.stray(c) && !(l.snapAt == 0 && l.regAt > 0)
             && Run(MAX_AUDIO_PENDING, s.fed(c)).firings == 0
    ensures var s := Trace(acts); var log := s.link(j, c).log;
            && (log != [] ==> exists u, i :: OnlyIdAt(u, i) && log[0] == Frame(s.id(c), u))
            && forall k :: 0 < k < |log| ==> exists u :: IsCluster(u) && log[k] == Frame(s.id(c), u)
  {
    InitBeforeMedia(acts, j, c);
    var s := Trace(acts);
    var l, id := s.link(j, c), s.id(c);
    var u: seq<Bytes> := Units(s, c);
    RelaySplitsStream(MAX_AUDIO_PENDING, s.fed(c));
    SplitStreamIsPure(Concat(s.fed(c)));
    if u != [] {
      var m := if l.regAt == 0 then 1 else l.regAt;
      var i :| OnlyIdAt(u[0], i);
      if l.log != [] { assert OnlyIdAt(u[0], i) && l.log[0] == Frame(id, u[0]); }
      forall k | 0 < k < |l.log| ensures exists x :: IsCluster(x) && l.log[k] == Frame(id, x) {
        FrameAllAt(id, u[m..], k - 1);
        var x := u[m + k - 1];
        assert x == u[1..][m + k - 2];
        assert IsCluster(x) && l.log[k] == Frame(id, x);
      }
    }
  }

  /** Nobody hears their own connection. */
  lemma {:induction false} NoEcho(acts: seq<Action>, j: Conn)
    ensures Trace(acts).link(j, j).log == []
  {
    InvHolds(acts);
    assert LinkInv(Trace(acts), j, j);
  }

  /** A stream of two Clusters and the ID of a third, fed in two messages. */
  lemma TwoClusters(m1: Bytes, m2: Bytes)
    requires m1 == [0x1F, 0x43, 0xB6, 0x75, 1, 0x1F, 0x43, 0xB6, 0x75] && m2 == [2, 0x1F, 0x43, 0xB6, 0x75]
    ensures Run(MAX_AUDIO_PENDING, [m1]).units == [m1[..5]]
    ensures Run(MAX_AUDIO_PENDING, [m1, m2]).units == [m1[..5], m1[5..] + [2]]
  {
    var k, b, r := m1[..5], m1[5..] + [2], m2[1..];
    assert [m1][..0] == [] && [m1, m2][..1] == [m1];
    ConcatOne(m1);
    ConcatCons(m1, [m2]);
    ConcatOne(m2);
    assert [m1] + [m2] == [m1, m2];
    ConcatOne(k);
    ConcatCons(k, [b]);
    ConcatOne(b);
    assert [k] + [b] == [k, b];
    assert OnlyIdAt(k, 0) && IsCluster(m1[5..]) && IsCluster(b) && IsCluster(r);
    var two: seq<Bytes> := [k, b];
    assert two[1..] == [b];
    assert m1 == k + m1[5..];
    PureSplitIsUnique(m1, Split([k], m1[5..]));
    assert m1 + m2 == (k + b) + r;
    PureSplitIsUnique(m1 + m2, Split([k, b], r));
    assert RestsFit([m1], MAX_AUDIO_PENDING);
    RelaySplitsStream(MAX_AUDIO_PENDING, [m1]);
    RelaySplitsStream(MAX_AUDIO_PENDING, [m1, m2]);
  }

  /** Sender 1 is registered and idle, joiner 2 is between its snapshot and its registration (or past
      it), nothing is queued for it, and fed holds what sender 1 has sent. */
  ghost predicate Race(s: State, id: Bytes, fed: seq<Bytes>, pc2: Pc, clients: map<Conn, Bytes>, regAt: nat) {
    && s.pc(1).Joined? && s.pc(2) == pc2 && s.room.clients == clients && s.id(1) == id
    && (forall c :: s.batch(c).Idle? && s.alive(c) && !s.stray(c))
    && (forall j, c :: s.link(j, c).queue == [])
    && s.link(2, 1) == Link([], [], false, 0, regAt, regAt)
    && s.fed(1) == fed
  }

  lemma RaceBegins(id: Bytes) returns (acts: seq<Action>)
    ensures Race(Trace(acts), id, [], Snapped(map[]), map[1 := id], 0)
  {
    assert Run(MAX_AUDIO_PENDING, []).units == [];
    acts := [] + [Snapshot(1)];
    Snoc([], Snapshot(1));
    assert Trace(acts) == Snap(Init(), 1);
    Snoc(acts, Register(1, id));
    acts := acts + [Register(1, id)];
    var s := Join(Snap(Init(), 1), 1, id);
    assert Trace(acts) == s && s.fed(1) == [] && Units(s, 1) == [] && s.link(2, 1) == Init().link(2, 1);
    Snoc(acts, Snapshot(2));
    acts := acts + [Snapshot(2)];
    assert Trace(acts) == Snap(s, 2);
    assert Trace(acts).link(2, 1) == Link([], [], false, 0, 0, 0);
  }

  /** A batch that writes nothing. */
  lemma EmptyBatch(acts0: seq<Action>, id: Bytes, fed: seq<Bytes>, pc2: Pc, clients: map<Conn, Bytes>, n: nat)
    returns (acts: seq<Action>)
    requires Race(SetBatch(Trace(acts0), 1, Idle), id, fed, pc2, clients, n) && !Trace(acts0).batch(1).Writing?
    ensures Race(Trace(acts), id, fed, pc2, clients, n)
  {
    var s, t := Trace(acts0), SetBatch(Trace(acts0), 1, Idle);
    forall c ensures c != 1 ==> s.batch(c).Idle? { assert t.batch(c).Idle?; }
    forall j, c ensures s.link(j, c).queue == [] { assert t.link(j, c).queue == []; }
    acts := acts0 + [Lock(1)];
    Snoc(acts0, Lock(1));
    Snoc(acts, Unlock(1));
    acts := acts + [Unlock(1)];
  }

  /** The keyframe goes out while joiner 2 is not yet registered. */
  lemma RaceKeyframe(acts0: seq<Action>, id: Bytes, m: Bytes) returns (acts: seq<Action>)
    requires Race(Trace(acts0), id, [], Snapped(map[]), map[1 := id], 0)
    ensures Race(Trace(acts), id, [m], Snapped(map[]), map[1 := id], 0)
  {
    InvHolds(acts0);
    var s := Trace(acts0);
    assert ConnInv(s, 1);
    assert [] + [m] == [m];
    acts := acts0 + [Broadcast(1, m)];
    Snoc(acts0, Broadcast(1, m));
    assert Trace(acts) == Publish(s, 1, m);
    forall j, c ensures Trace(acts).link(j, c) == s.link(j, c) {}
    acts := EmptyBatch(acts, id, [m], Snapped(map[]), map[1 := id], 0);
  }

  lemma RaceRegister(acts0: seq<Action>, id: Bytes, m: Bytes) returns (acts: seq<Action>)
    requires Race(Trace(acts0), id, [m], Snapped(map[]), map[1 := id], 0)
    ensures Race(Trace(acts), id, [m], Joined, map[1 := id, 2 := id], |Run(MAX_AUDIO_PENDING, [m]).units|)
  {
    acts := acts0 + [Register(2, id)];
    Snoc(acts0, Register(2, id));
    assert map[1 := id][2 := id] == map[1 := id, 2 := id];
  }

  /** A message that completes one more unit makes its frame. */
  lemma NextFrame(s: State, c: Conn, msg: Bytes)
    requires ConnInv(s, c) && s.pc(c).Joined? && !s.stray(c)
    requires |Units(Publish(s, c, msg), c)| == |Units(s, c)| + 1
    ensures FramesOf(s.room, c, msg) == [Frame(s.id(c), Units(Publish(s, c, msg), c)[|Units(s, c)|])]
  {
    PublishConn(s, c, msg);
    var u, n := Units(Publish(s, c, msg), c), |Units(s, c)|;
    assert u[n..] == [u[n]];
  }

  /** Sender c's batch is written to joiner j, its only frame. */
  lemma LockAndDeliver(acts0: seq<Action>, c: Conn, j: Conn, frame: Bytes) returns (acts: seq<Action>)
    requires var s := Trace(acts0);
             && s.batch(c).Queued? && (forall x :: !s.batch(x).Writing?) && s.alive(j)
             && s.link(j, c).queue == [frame] && s.link(j, c).log == []
    ensures Trace(acts).link(j, c).log == [frame]
    ensures Trace(acts).fed == Trace(acts0).fed && Trace(acts).stray == Trace(acts0).stray
  {
    acts := acts0 + [Lock(c)];
    Snoc(acts0, Lock(c));
    Snoc(acts, Deliver(c, j));
    acts := acts + [Deliver(c, j)];
  }

  lemma RacePublish(s: State, id: Bytes, m1: Bytes, m2: Bytes, n: nat, frame: Bytes)
    requires Race(s, id, [m1], Joined, map[1 := id, 2 := id], n) && !IsEbmlHeader(m2)
    requires FramesOf(s.room, 1, m2) == [frame]
    ensures var t := Publish(s, 1, m2);
            && t.batch(1).Queued? && (forall x :: !t.batch(x).Writing?) && t.alive(2) && !t.stray(1)
            && t.link(2, 1).queue == [frame] && t.link(2, 1).log == [] && t.fed(1) == [m1, m2]
  {
    var t := Publish(s, 1, m2);
    assert [] + [frame] == [frame] && [m1] + [m2] == [m1, m2];
    forall x ensures !t.batch(x).Writing? { assert s.batch(x).Idle?; }
  }

  lemma RaceFrame(acts0: seq<Action>, id: Bytes, m1: Bytes, m2: Bytes)
    requires Race(Trace(acts0), id, [m1], Joined, map[1 := id, 2 := id], |Run(MAX_AUDIO_PENDING, [m1]).units|)
    requires |Run(MAX_AUDIO_PENDING, [m1, m2]).units| == |Run(MAX_AUDIO_PENDING, [m1]).units| + 1
    requires !IsEbmlHeader(m2)
    ensures var u := Run(MAX_AUDIO_PENDING, [m1, m2]).units;
            FramesOf(Trace(acts0).room, 1, m2) == [Frame(id, u[|u| - 1])]
  {
    InvHolds(acts0);
    assert ConnInv(Trace(acts0), 1);
    assert [m1] + [m2] == [m1, m2];
    assert Publish(Trace(acts0), 1, m2).fed(1) == [m1, m2];
    NextFrame(Trace(acts0), 1, m2);
  }

  lemma RaceDeliver(acts0: seq<Action>, id: Bytes, m1: Bytes, m2: Bytes) returns (acts: seq<Action>)
    requires Race(Trace(acts0), id, [m1], Joined, map[1 := id, 2 := id], |Run(MAX_AUDIO_PENDING, [m1]).units|)
    requires |Run(MAX_AUDIO_PENDING, [m1, m2]).units| == |Run(MAX_AUDIO_PENDING, [m1]).units| + 1
    requires !IsEbmlHeader(m2)
    ensures var s, u := Trace(acts), Run(MAX_AUDIO_PENDING, [m1, m2]).units;
            !s.stray(1) && s.fed(1) == [m1, m2] && s.link(2, 1).log == [Frame(id, u[|u| - 1])]
  {
    var s, u := Trace(acts0), Run(MAX_AUDIO_PENDING, [m1, m2]).units;
    var frame := Frame(id, u[|u| - 1]);
    RaceFrame(acts0, id, m1, m2);
    RacePublish(s, id, m1, m2, |Run(MAX_AUDIO_PENDING, [m1]).units|, frame);
    acts := acts0 + [Broadcast(1, m2)];
    Snoc(acts0, Broadcast(1, m2));
    assert s.pc(1).Joined? && s.batch(1).Idle?;
    acts := LockAndDeliver(acts, 1, 2, frame);
  }

  /** The side condition is needed: sender 1's keyframe is finalised between joiner 2's snapshot and
      its registration, and all that joiner 2 has of sender 1's two units is the second. */
  lemma KeyframeInBetweenIsMissed(m1: Bytes, m2: Bytes, id: Bytes)
    requires m1 == [0x1F, 0x43, 0xB6, 0x75, 1, 0x1F, 0x43, 0xB6, 0x75] && m2 == [2, 0x1F, 0x43, 0xB6, 0x75]
    ensures exists acts :: var s := Trace(acts);
              !s.stray(1) && Units(s, 1) == [m1[..5], m1[5..] + [2]] && s.link(2, 1).log == [Frame(id, Units(s, 1)[1])]
  {
    TwoClusters(m1, m2);
    var acts := RaceBegins(id);
    acts := RaceKeyframe(acts, id, m1);
    acts := RaceRegister(acts, id, m1);
    acts := RaceDeliver(acts, id, m1, m2);
    assert Units(Trace(acts), 1) == Run(MAX_AUDIO_PENDING, [m1, m2]).units;
  }
}
