// The life of a room: its idle timer, the handlers that keep it busy, and the ways it is deleted.

module RoomSpec {
  import opened Common
  type RoomId = string

  /** What decides whether a room is idle. armed is false once the timer has been stopped or has fired. */
  datatype RoomState = RoomState(clients: set<Conn>, publishers: set<Conn>, armed: bool)

  function NewRoom(): RoomState {
    RoomState({}, {}, true)
  }

  /** No participant of any kind; viewers do not count. */
  predicate IsEmpty(r: RoomState) {
    r.clients == {} && r.publishers == {}
  }

  function AddClient(r: RoomState, c: Conn): RoomState {
    r.(clients := r.clients + {c}, armed := false)
  }

  /** A publisher beyond the cap is rejected and leaves the timer alone. */
  function AddPublisher(r: RoomState, c: Conn, cap: nat): RoomState {
    if |r.publishers| >= cap then r else r.(publishers := r.publishers + {c}, armed := false)
  }

  function AddViewer(r: RoomState): RoomState {
    r.(armed := false)
  }

  function DeleteClient(r: RoomState, c: Conn): RoomState {
    r.(clients := r.clients - {c})
  }

  function DeletePublisher(r: RoomState, c: Conn): RoomState {
    r.(publishers := r.publishers - {c})
  }

  function Rearm(r: RoomState): RoomState {
    r.(armed := true)
  }

  function ResetIfEmpty(r: RoomState): RoomState {
    if IsEmpty(r) then Rearm(r) else r
  }
}

/** Every interleaving of handlers, timers, destroy callbacks and forced removals, for any number of
    rooms and for rooms created again under an old ID. */
module RoomLifecycle {
  import opened Common
  import opened RoomSpec

  datatype Kind = Audio | Publisher | Viewer

  /** Where a connection's handler is with room r: looked it up, registered, past its own deletion
      (publishers and viewers), past the second lookup, or having found the room empty. */
  datatype Pc =
    | Outside | Entering(kind: Kind, r: nat) | Inside(kind: Kind, r: nat) | Deleted(kind: Kind, r: nat)
    | Found(kind: Kind, r: nat) | OwesReset(r: nat) | Gone

  /** Rooms are numbered as they are created; id and room tell each room's ID and state. callbacks are
      fired timers that have not run yet, removing the rooms a forced removal still has to clear. */
  datatype State = State(cap: nat, rooms: map<RoomId, nat>, id: nat -> RoomId, room: nat -> RoomState, created: nat,
                         pc: Conn -> Pc, callbacks: multiset<RoomId>, removing: set<nat>)

  datatype Action =
    | Create(id: RoomId)
    | Enter(c: Conn, kind: Kind, id: RoomId) | Abort(c: Conn) | Register(c: Conn)
    | FailedWrite(c: Conn, r: nat)                                  // a broadcast deletes a dead client
    | Exit(c: Conn) | Lookup(c: Conn) | Check(c: Conn) | Reset(c: Conn)
    | Fire(r: nat) | Destroy(id: RoomId)
    | Remove(id: RoomId) | StopTimer(r: nat) | Clear(r: nat)

  function Init(cap: nat): State {
    State(cap, map[], (r: nat) => "", (r: nat) => NewRoom(), 0, (c: Conn) => Outside, multiset{}, {})
  }

  function SetPc(s: State, c: Conn, pc: Pc): State {
    s.(pc := (x: Conn) => if x == c then pc else s.pc(x))
  }

  function SetRoom(s: State, r: nat, v: RoomState): State {
    s.(room := (x: nat) => if x == r then v else s.room(x))
  }

  /** The second lookup is by ID: it may miss, or find a later room of that ID. */
  function Second(s: State, c: Conn, kind: Kind, r: nat): State {
    SetPc(s, c, if s.id(r) in s.rooms then Found(kind, s.rooms[s.id(r)]) else Gone)
  }

  /** One step; an action that is not enabled changes nothing. */
  function Step(s: State, a: Action): State {
    match a
    case Create(id) =>
      if id in s.rooms then s else
        SetRoom(s, s.created, NewRoom()).(
          rooms := s.rooms[id := s.created], created := s.created + 1,
          id := (r: nat) => if r == s.created then id else s.id(r))
    case Enter(c, kind, id) =>
      if s.pc(c).Outside? && id in s.rooms then SetPc(s, c, Entering(kind, s.rooms[id])) else s
    case Abort(c) => if s.pc(c).Entering? then SetPc(s, c, Gone) else s
    case Register(c) =>
      if !s.pc(c).Entering? then s else
        var r := s.pc(c).r;
        var v := s.room(r);
        (match s.pc(c).kind
         case Audio => SetPc(SetRoom(s, r, AddClient(v, c)), c, Inside(Audio, r))
         case Publisher =>
           SetPc(SetRoom(s, r, AddPublisher(v, c, s.cap)), c,
                 if |v.publishers| >= s.cap then Gone else Inside(Publisher, r))
         case Viewer => SetPc(SetRoom(s, r, AddViewer(v)), c, Inside(Viewer, r)))
    case FailedWrite(c, r) => SetRoom(s, r, DeleteClient(s.room(r), c))
    case Exit(c) =>
      if !s.pc(c).Inside? then s else
        (match s.pc(c).kind
         case Audio => Second(s, c, Audio, s.pc(c).r)
         case Publisher =>
           SetPc(SetRoom(s, s.pc(c).r, DeletePublisher(s.room(s.pc(c).r), c)), c, Deleted(Publisher, s.pc(c).r))
         case Viewer => SetPc(s, c, Deleted(Viewer, s.pc(c).r)))
    case Lookup(c) => if s.pc(c).Deleted? then Second(s, c, s.pc(c).kind, s.pc(c).r) else s
    case Check(c) =>
      if !s.pc(c).Found? then s else
        var r := s.pc(c).r;
        if s.pc(c).kind.Audio? then
          var v := DeleteClient(s.room(r), c);
          SetPc(SetRoom(s, r, v), c, if IsEmpty(v) then OwesReset(r) else Gone)
        else SetPc(SetRoom(s, r, ResetIfEmpty(s.room(r))), c, Gone)
    case Reset(c) =>
      if s.pc(c).OwesReset? then SetPc(SetRoom(s, s.pc(c).r, Rearm(s.room(s.pc(c).r))), c, Gone) else s
    case Fire(r) =>
      if r < s.created && s.room(r).armed then
        SetRoom(s, r, s.room(r).(armed := false)).(callbacks := s.callbacks + multiset{s.id(r)})
      else s
    case Destroy(id) =>
      if id !in s.callbacks then s else
        var t := s.(callbacks := s.callbacks - multiset{id});
        if id in s.rooms && IsEmpty(s.room(s.rooms[id])) then t.(rooms := s.rooms - {id}) else t
    case Remove(id) =>
      if id in s.rooms then s.(rooms := s.rooms - {id}, removing := s.removing + {s.rooms[id]}) else s
    case StopTimer(r) => if r in s.removing then SetRoom(s, r, s.room(r).(armed := false)) else s
    case Clear(r) =>
      if r in s.removing then SetRoom(s, r, RoomState({}, {}, s.room(r).armed)).(removing := s.removing - {r}) else s
  }

  function Trace(cap: nat, acts: seq<Action>): State {
    if acts == [] then Init(cap) else Step(Trace(cap, acts[..|acts| - 1]), acts[|acts| - 1])
  }

  /** Room r is the one mapped to an ID. */
  predicate IsMapped(s: State, id: RoomId, r: nat) {
    id in s.rooms && s.rooms[id] == r
  }

  /** Room r is the one mapped to its own ID. */
  predicate Mapped(s: State, r: nat) {
    r < s.created && IsMapped(s, s.id(r), r)
  }

  /** The handler of c will check room r for emptiness or reset its timer before it ends. */
  predicate Owes(s: State, c: Conn, r: nat) {
    (s.pc(c).Inside? || s.pc(c).Deleted? || s.pc(c).Found? || s.pc(c).OwesReset?) && s.pc(c).r == r
  }

  ghost predicate NotLeaked(s: State, r: nat) {
    Mapped(s, r) && IsEmpty(s.room(r)) ==>
      s.room(r).armed || s.id(r) in s.callbacks || exists c :: Owes(s, c, r)
  }

  /** Every client and publisher entry of a mapped room belongs to a live handler of that kind. */
  ghost predicate Backed(s: State, r: nat) {
    Mapped(s, r) ==>
      && (forall c :: c in s.room(r).clients ==> s.pc(c) == Inside(Audio, r) || s.pc(c) == Found(Audio, r))
      && (forall c :: c in s.room(r).publishers ==> s.pc(c) == Inside(Publisher, r))
  }

  predicate IdNumbered(s: State, id: RoomId) {
    id in s.rooms ==> s.rooms[id] < s.created && s.id(s.rooms[id]) == id
  }

  predicate RemovalNumbered(s: State, r: nat) {
    r in s.removing ==> r < s.created && !Mapped(s, r)
  }

  predicate PcNumbered(s: State, c: Conn) {
    s.pc(c).Outside? || s.pc(c).Gone? || s.pc(c).r < s.created
  }

  ghost predicate Numbered(s: State) {
    && (forall id :: IdNumbered(s, id))
    && (forall r :: RemovalNumbered(s, r))
    && (forall c :: PcNumbered(s, c))
  }

  ghost predicate Inv(s: State) {
    && Numbered(s)
    && (forall r :: NotLeaked(s, r) && Backed(s, r))
    && (forall r :: |s.room(r).publishers| <= s.cap)
  }

  lemma IdNumberedStep(s: State, a: Action, id: RoomId)
    requires IdNumbered(s, id)
    ensures IdNumbered(Step(s, a), id)
  {
  }

  lemma RemovalNumberedStep(s: State, a: Action, r: nat)
    requires RemovalNumbered(s, r) && (a.Remove? ==> IdNumbered(s, a.id))
    ensures RemovalNumbered(Step(s, a), r)
  {
  }

  lemma PcNumberedStep(s: State, a: Action, c: Conn)
    requires PcNumbered(s, c) && forall id :: IdNumbered(s, id)
    ensures PcNumbered(Step(s, a), c)
  {
    if a.Enter? { assert IdNumbered(s, a.id); }
    if s.pc(c).Inside? || s.pc(c).Deleted? { assert IdNumbered(s, s.id(s.pc(c).r)); }
  }

  lemma NumberedStep(s: State, a: Action)
    requires Numbered(s)
    ensures Numbered(Step(s, a))
  {
    var t := Step(s, a);
    forall id ensures IdNumbered(t, id) { IdNumberedStep(s, a, id); }
    forall r: nat ensures RemovalNumbered(t, r) {
      assert a.Remove? ==> IdNumbered(s, a.id);
      RemovalNumberedStep(s, a, r);
    }
    forall c: Conn ensures PcNumbered(t, c) { PcNumberedStep(s, a, c); }
  }

  lemma BackedExit(s: State, c: Conn, r: nat)
    requires Numbered(s) && Backed(s, r)
    ensures Backed(Step(s, Exit(c)), r)
  {
  }

  lemma BackedCheck(s: State, c: Conn, r: nat)
    requires Numbered(s) && Backed(s, r)
    ensures Backed(Step(s, Check(c)), r)
  {
  }

  lemma BackedRegister(s: State, c: Conn, r: nat)
    requires Numbered(s) && Backed(s, r)
    ensures Backed(Step(s, Register(c)), r)
  {
  }

  lemma BackedStep(s: State, a: Action, r: nat)
    requires Numbered(s) && Backed(s, r)
    ensures Backed(Step(s, a), r)
  {
    match a {
      case Exit(c) => BackedExit(s, c, r);
      case Check(c) => BackedCheck(s, c, r);
      case Register(c) => BackedRegister(s, c, r);
      case _ =>
    }
  }

  /** The connection whose handler an action advances. */
  predicate Advances(a: Action, c: Conn) {
    (a.Enter? || a.Abort? || a.Register? || a.Exit? || a.Lookup? || a.Check? || a.Reset?) && a.c == c
  }

  lemma StillOwes(s: State, a: Action, c: Conn, r: nat)
    requires Owes(s, c, r) && !Advances(a, c)
    ensures Owes(Step(s, a), c, r)
  {
  }

  /** A handler that advances still owes, or has rearmed the timer, or found the room busy. */
  lemma AdvancedOwes(s: State, a: Action, r: nat)
    requires Numbered(s) && Mapped(s, r)
    requires (a.Register? || a.Exit? || a.Lookup? || a.Check? || a.Reset?) && Owes(s, a.c, r)
    ensures Owes(Step(s, a), a.c, r) || Step(s, a).room(r).armed || !IsEmpty(Step(s, a).room(r))
  {
  }

  lemma RegisterOwes(s: State, c: Conn, r: nat)
    requires s.pc(c) == Entering(Audio, r) || s.pc(c) == Entering(Publisher, r) || s.pc(c) == Entering(Viewer, r)
    ensures Owes(Step(s, Register(c)), c, r) || Step(s, Register(c)).room(r) == s.room(r)
  {
  }

  /** A room that becomes empty leaves a handler that owes the check. */
  lemma EmptiedIsOwed(s: State, a: Action, r: nat)
    requires Numbered(s) && Backed(s, r) && Mapped(s, r) && Mapped(Step(s, a), r)
    requires !IsEmpty(s.room(r)) && IsEmpty(Step(s, a).room(r))
    ensures exists c :: Owes(Step(s, a), c, r)
  {
    var t := Step(s, a);
    assert a.Clear? ==> RemovalNumbered(s, a.r);
    assert a.FailedWrite? || a.Exit? || a.Check?;
    assert Owes(t, a.c, r);
  }

  lemma NotLeakedStep(s: State, a: Action, r: nat)
    requires Numbered(s) && Backed(s, r) && NotLeaked(s, r)
    ensures NotLeaked(Step(s, a), r)
  {
    var t := Step(s, a);
    if Mapped(t, r) && IsEmpty(t.room(r)) && Mapped(s, r) {
      if !IsEmpty(s.room(r)) {
        EmptiedIsOwed(s, a, r);
      } else if a.Register? && s.pc(a.c).Entering? && s.pc(a.c).r == r {
        RegisterOwes(s, a.c, r);
        if t.room(r) == s.room(r) { KeepsJustification(s, a, r); }
      } else {
        KeepsJustification(s, a, r);
      }
    }
  }

  /** An empty room stays justified by an action that does not stop its timer for a newcomer. */
  lemma KeepsJustification(s: State, a: Action, r: nat)
    requires Numbered(s) && NotLeaked(s, r) && Mapped(s, r) && Mapped(Step(s, a), r)
    requires IsEmpty(s.room(r)) && IsEmpty(Step(s, a).room(r))
    requires a.Register? && s.pc(a.c).Entering? && s.pc(a.c).r == r ==> Step(s, a).room(r) == s.room(r)
    ensures NotLeaked(Step(s, a), r)
  {
    var t := Step(s, a);
    if s.room(r).armed {
      TimerKept(s, a, r);
    } else if s.id(r) in s.callbacks {
      assert s.id(r) in t.callbacks;
    } else {
      var c :| Owes(s, c, r);
      OwedOrArmed(s, a, c, r);
    }
  }

  lemma OwedOrArmed(s: State, a: Action, c: Conn, r: nat)
    requires Numbered(s) && Mapped(s, r) && Owes(s, c, r) && IsEmpty(Step(s, a).room(r))
    ensures Owes(Step(s, a), c, r) || Step(s, a).room(r).armed
  {
    if !Advances(a, c) {
      StillOwes(s, a, c, r);
    } else if a.Register? || a.Exit? || a.Lookup? || a.Check? || a.Reset? {
      AdvancedOwes(s, a, r);
    }
  }

  lemma TimerKept(s: State, a: Action, r: nat)
    requires Numbered(s) && Mapped(s, r) && Mapped(Step(s, a), r) && s.room(r).armed
    requires IsEmpty(s.room(r)) && IsEmpty(Step(s, a).room(r))
    requires a.Register? && s.pc(a.c).Entering? && s.pc(a.c).r == r ==> Step(s, a).room(r) == s.room(r)
    ensures Step(s, a).room(r).armed || s.id(r) in Step(s, a).callbacks
  {
    assert a.StopTimer? ==> RemovalNumbered(s, a.r);
  }

  /** What the registration of a handler of the given kind makes of a room that is v before it. */
  predicate Joined(v: RoomState, w: RoomState, kind: Kind, c: Conn, cap: nat) {
    match kind
    case Audio => w == RoomState(v.clients + {c}, v.publishers, false)
    case Publisher => w == if |v.publishers| < cap then RoomState(v.clients, v.publishers + {c}, false) else v
    case Viewer => w == RoomState(v.clients, v.publishers, false)
  }

  lemma RegisterStep(s: State, c: Conn)
    requires s.pc(c).Entering?
    ensures var r := s.pc(c).r;
            && Step(s, Register(c)).cap == s.cap
            && Joined(s.room(r), Step(s, Register(c)).room(r), s.pc(c).kind, c, s.cap)
            && forall x: nat :: x != r ==> Step(s, Register(c)).room(x) == s.room(x)
  {
  }

  lemma JoinedKeepsCap(v: RoomState, w: RoomState, kind: Kind, c: Conn, cap: nat)
    requires Joined(v, w, kind, c, cap) && |v.publishers| <= cap
    ensures |w.publishers| <= cap
  {
  }

  lemma OthersShrink(s: State, a: Action, r: nat)
    requires !a.Register?
    ensures Step(s, a).room(r).publishers <= s.room(r).publishers && Step(s, a).cap == s.cap
  {
  }

  lemma CapStep(s: State, a: Action, r: nat)
    requires |s.room(r).publishers| <= s.cap
    ensures |Step(s, a).room(r).publishers| <= Step(s, a).cap
  {
    if a.Register? {
      if s.pc(a.c).Entering? {
        RegisterStep(s, a.c);
        if s.pc(a.c).r == r { JoinedKeepsCap(s.room(r), Step(s, a).room(r), s.pc(a.c).kind, a.c, s.cap); }
      }
    } else {
      OthersShrink(s, a, r);
      SubsetSize(Step(s, a).room(r).publishers, s.room(r).publishers);
    }
  }

  lemma SubsetSize(a: set<Conn>, b: set<Conn>)
    requires a <= b
    ensures |a| <= |b|
  {
    assert b == a + (b - a);
  }

  lemma {:induction false} InvHolds(cap: nat, acts: seq<Action>)
    ensures Inv(Trace(cap, acts))
    decreases |acts|
  {
    if acts != [] {
      InvHolds(cap, acts[..|acts| - 1]);
      InvStep(Trace(cap, acts[..|acts| - 1]), acts[|acts| - 1]);
    }
  }

  lemma InvStep(s: State, a: Action)
    requires Inv(s)
    ensures Inv(Step(s, a))
  {
    var t := Step(s, a);
    NumberedStep(s, a);
    forall r: nat ensures NotLeaked(t, r) && Backed(t, r) {
      assert NotLeaked(s, r) && Backed(s, r);
      NotLeakedStep(s, a, r);
      BackedStep(s, a, r);
    }
    forall r: nat ensures |t.room(r).publishers| <= t.cap { CapStep(s, a, r); }
  }

  /** No leaked room: over every run, a room without clients and publishers still in the manager's map has its
      timer armed, a destroy callback on its way, or a live handler that still owes an emptiness check or a reset. */
  lemma {:induction false} NoLeakedRoom(cap: nat, acts: seq<Action>, id: RoomId)
    ensures var s := Trace(cap, acts);
            id in s.rooms && s.room(s.rooms[id]).clients == {} && s.room(s.rooms[id]).publishers == {} ==>
              s.room(s.rooms[id]).armed || id in s.callbacks || exists c :: Owes(s, c, s.rooms[id])
  {
    InvHolds(cap, acts);
    var s := Trace(cap, acts);
    if id in s.rooms { assert IdNumbered(s, id) && NotLeaked(s, s.rooms[id]); }
  }

  /** Every client and publisher entry of a mapped room is backed by a live handler that owes the room
      its check, and the publishers never exceed the cap. */
  lemma {:induction false} EntriesAreBacked(cap: nat, acts: seq<Action>, id: RoomId, c: Conn)
    ensures var s := Trace(cap, acts);
            id in s.rooms ==>
              && |s.room(s.rooms[id]).publishers| <= s.cap
              && (c in s.room(s.rooms[id]).clients || c in s.room(s.rooms[id]).publishers ==> Owes(s, c, s.rooms[id]))
  {
    InvHolds(cap, acts);
    var s := Trace(cap, acts);
    if id in s.rooms { assert IdNumbered(s, id) && Backed(s, s.rooms[id]); }
  }

  lemma DeletedByDestroy(s: State, a: Action, id: RoomId, r: nat)
    requires IsMapped(s, id, r) && !IsMapped(Step(s, a), id, r) && a != Remove(id)
    ensures a == Destroy(id) && IsEmpty(s.room(r))
  {
  }

  /** A step of a run. */
  lemma TraceAt(cap: nat, acts: seq<Action>, k: nat)
    requires k < |acts|
    ensures Trace(cap, acts[..k + 1]) == Step(Trace(cap, acts[..k]), acts[k])
  {
    assert acts[..k + 1][..k] == acts[..k];
  }

  /** Over any run without a forced removal of its ID: a room that is mapped at one point (after the first n
      actions) and no longer at the end was deleted by a destroy callback, and was empty when it was. */
  lemma {:induction false} OnlyEmptyRoomsAreDestroyed(cap: nat, acts: seq<Action>, n: nat, id: RoomId, r: nat)
    returns (k: nat)
    requires n <= |acts| && forall i :: n <= i < |acts| ==> acts[i] != Remove(id)
    requires IsMapped(Trace(cap, acts[..n]), id, r) && !IsMapped(Trace(cap, acts), id, r)
    ensures n <= k < |acts| && acts[k] == Destroy(id)
    ensures var s := Trace(cap, acts[..k]);
            IsMapped(s, id, r) && s.room(r).clients == {} && s.room(r).publishers == {}
    decreases |acts| - n
  {
    assert n < |acts| by { assert acts[..|acts|] == acts; }
    TraceAt(cap, acts, n);
    if IsMapped(Trace(cap, acts[..n + 1]), id, r) {
      k := OnlyEmptyRoomsAreDestroyed(cap, acts, n + 1, id, r);
    } else {
      k := n;
      DeletedByDestroy(Trace(cap, acts[..n]), acts[n], id, r);
    }
  }

  /** And an idle room does go: with no handler owing it anything, firing its timer if need be and
      running a callback deletes it, in any reachable state. */
  lemma {:induction false} IdleRoomIsDestroyed(cap: nat, acts: seq<Action>, id: RoomId)
    requires var s := Trace(cap, acts);
             && id in s.rooms && s.room(s.rooms[id]).clients == {} && s.room(s.rooms[id]).publishers == {}
             && forall c :: !Owes(s, c, s.rooms[id])
    ensures var s := Trace(cap, acts);
            id !in Step(if id in s.callbacks then s else Step(s, Fire(s.rooms[id])), Destroy(id)).rooms
  {
    InvHolds(cap, acts);
    NoLeakedRoom(cap, acts, id);
    assert IdNumbered(Trace(cap, acts), id);
    TimerDestroys(Trace(cap, acts), id);
  }

  lemma TimerDestroys(s: State, id: RoomId)
    requires id in s.rooms && IdNumbered(s, id) && IsEmpty(s.room(s.rooms[id]))
    requires s.room(s.rooms[id]).armed || id in s.callbacks
    ensures id !in Step(if id in s.callbacks then s else Step(s, Fire(s.rooms[id])), Destroy(id)).rooms
  {
  }

  /** A handler inside a mapped room has its entry there. */
  predicate Counted(s: State, c: Conn) {
    && (s.pc(c).Inside? && s.pc(c).kind.Publisher? && Mapped(s, s.pc(c).r) ==> c in s.room(s.pc(c).r).publishers)
    && (s.pc(c).Inside? && s.pc(c).kind.Audio? && Mapped(s, s.pc(c).r) ==> c in s.room(s.pc(c).r).clients)
  }

  lemma CountedRegister(s: State, x: Conn, c: Conn)
    requires Counted(s, c)
    ensures Counted(Step(s, Register(x)), c)
  {
    if s.pc(x).Entering? { RegisterStep(s, x); }
  }

  /** Only a registration brings a handler inside, and only an action that creates a room maps one. */
  lemma WasInside(s: State, a: Action, c: Conn)
    requires !a.Register? && Step(s, a).pc(c).Inside?
    ensures s.pc(c) == Step(s, a).pc(c)
    ensures s.pc(c).r < s.created && Mapped(Step(s, a), s.pc(c).r) ==> Mapped(s, s.pc(c).r)
  {
  }

  /** And while it is inside nothing but a failed write or the clearing of the room deletes its entry. */
  lemma EntryStays(s: State, a: Action, c: Conn, r: nat)
    requires !a.Register? && Step(s, a).pc(c).Inside? && s.pc(c).Inside? && r < s.created
    requires !(a.FailedWrite? && a.c == c) && (a.Clear? && a.r == r ==> a.r !in s.removing)
    ensures c in s.room(r).publishers ==> c in Step(s, a).room(r).publishers
    ensures c in s.room(r).clients ==> c in Step(s, a).room(r).clients
  {
  }

  lemma CountedStep(s: State, a: Action, c: Conn)
    requires Numbered(s) && Counted(s, c) && !(a.FailedWrite? && a.c == c)
    ensures Counted(Step(s, a), c)
  {
    if a.Register? {
      CountedRegister(s, a.c, c);
    } else if Step(s, a).pc(c).Inside? {
      WasInside(s, a, c);
      assert PcNumbered(s, c);
      var r := s.pc(c).r;
      if Mapped(s, r) {
        assert RemovalNumbered(s, r);
        EntryStays(s, a, c, r);
      }
    }
  }

  lemma {:induction false} CountedHolds(cap: nat, acts: seq<Action>, c: Conn)
    requires forall i :: 0 <= i < |acts| ==> !(acts[i].FailedWrite? && acts[i].c == c)
    ensures Counted(Trace(cap, acts), c)
    decreases |acts|
  {
    if acts != [] {
      var before := acts[..|acts| - 1];
      CountedHolds(cap, before, c);
      InvHolds(cap, before);
      CountedStep(Trace(cap, before), acts[|acts| - 1], c);
    }
  }

  /** A room stays mapped, whatever its timers and callbacks do, while a publisher, or an audio client that no
      write has failed to, is inside it and it is not removed by force. */
  lemma {:induction false} InhabitedRoomStays(cap: nat, acts: seq<Action>, n: nat, id: RoomId, r: nat, c: Conn)
    requires n <= |acts| && IsMapped(Trace(cap, acts[..n]), id, r)
    requires forall i :: n <= i < |acts| ==>
                           && acts[i] != Remove(id) && Trace(cap, acts[..i]).pc(c).Inside?
                           && !Trace(cap, acts[..i]).pc(c).kind.Viewer? && Trace(cap, acts[..i]).pc(c).r == r
    requires forall i :: 0 <= i < |acts| ==> !(acts[i].FailedWrite? && acts[i].c == c)
    ensures IsMapped(Trace(cap, acts), id, r)
  {
    forall k | n <= k < |acts| && IsMapped(Trace(cap, acts[..k]), id, r)
      ensures !IsEmpty(Trace(cap, acts[..k]).room(r))
    {
      CountedHolds(cap, acts[..k], c);
      InvHolds(cap, acts[..k]);
      assert IdNumbered(Trace(cap, acts[..k]), id);
    }
    if !IsMapped(Trace(cap, acts), id, r) {
      var k := OnlyEmptyRoomsAreDestroyed(cap, acts, n, id, r);
    }
  }

  /** The actions that start room r's timer. */
  predicate Starts(s: State, a: Action, r: nat) {
    || (a.Create? && a.id !in s.rooms && r == s.created)
    || (a.Check? && s.pc(a.c).Found? && !s.pc(a.c).kind.Audio? && s.pc(a.c).r == r && IsEmpty(s.room(r)))
    || (a.Reset? && s.pc(a.c) == OwesReset(r))
  }

  lemma StaysStoppedStep(s: State, a: Action, r: nat)
    requires !s.room(r).armed
    ensures Step(s, a).room(r).armed <==> Starts(s, a, r)
  {
  }

  /** From a registration on, of a viewer too, the room's timer cannot fire until some handler starts it. */
  lemma {:induction false} RegistrationStopsTimer(cap: nat, acts: seq<Action>, n: nat, r: nat, c: Conn)
    requires n < |acts| && acts[n] == Register(c)
    requires var s := Trace(cap, acts[..n]);
             && s.pc(c).Entering? && s.pc(c).r == r
             && (s.pc(c).kind.Publisher? ==> |s.room(r).publishers| < cap)
    requires forall i :: n < i < |acts| ==> !Starts(Trace(cap, acts[..i]), acts[i], r)
    ensures !Trace(cap, acts).room(r).armed
    decreases |acts|
  {
    var before, a := acts[..|acts| - 1], acts[|acts| - 1];
    CapIsKept(cap, before);
    if n == |acts| - 1 {
      RegisterStep(Trace(cap, before), c);
    } else {
      assert before[..n] == acts[..n];
      forall i | n < i < |before| ensures !Starts(Trace(cap, before[..i]), before[i], r) {
        assert before[..i] == acts[..i];
      }
      RegistrationStopsTimer(cap, before, n, r, c);
      StaysStoppedStep(Trace(cap, before), a, r);
    }
  }

  lemma {:induction false} CapIsKept(cap: nat, acts: seq<Action>)
    ensures Trace(cap, acts).cap == cap
    decreases |acts|
  {
    if acts != [] { CapIsKept(cap, acts[..|acts| - 1]); }
  }

  /** The timer is on although somebody is in the room. */
  predicate BusyTimer(v: RoomState) {
    v.armed && (v.clients != {} || v.publishers != {})
  }

  lemma BusyTimerStep(s: State, a: Action, r: nat)
    requires BusyTimer(Step(s, a).room(r)) && !BusyTimer(s.room(r))
    ensures a.Reset? && s.pc(a.c) == OwesReset(r) && (s.room(r).clients != {} || s.room(r).publishers != {})
  {
  }

  /** It takes a late reset for that: by a leaving client that found the room empty, after another has joined. */
  lemma {:induction false} BusyTimerTakesLateReset(cap: nat, acts: seq<Action>, r: nat) returns (k: nat)
    requires BusyTimer(Trace(cap, acts).room(r))
    ensures k < |acts| && acts[k].Reset?
    ensures var s := Trace(cap, acts[..k]);
            s.pc(acts[k].c) == OwesReset(r) && (s.room(r).clients != {} || s.room(r).publishers != {})
    decreases |acts|
  {
    var before := acts[..|acts| - 1];
    if BusyTimer(Trace(cap, before).room(r)) {
      k := BusyTimerTakesLateReset(cap, before, r);
      assert before[..k] == acts[..k];
    } else {
      k := |acts| - 1;
      BusyTimerStep(Trace(cap, before), acts[k], r);
    }
  }

  /** Room 0 is the only one mapped and is in state v; the handlers of clients 1 and 2. */
  predicate Scene(s: State, v: RoomState, pc1: Pc, pc2: Pc) {
    s.rooms == map["r" := 0] && s.id(0) == "r" && s.room(0) == v && s.pc(1) == pc1 && s.pc(2) == pc2
  }

  lemma FirstClientJoins(cap: nat) returns (acts: seq<Action>)
    ensures Scene(Trace(cap, acts), RoomState({1}, {}, false), Inside(Audio, 0), Outside)
  {
    acts := [] + [Create("r")];
    Snoc([], Create("r"));
    assert Scene(Trace(cap, acts), NewRoom(), Outside, Outside);
    Snoc(acts, Enter(1, Audio, "r"));
    acts := acts + [Enter(1, Audio, "r")];
    assert Scene(Trace(cap, acts), NewRoom(), Entering(Audio, 0), Outside);
    Snoc(acts, Register(1));
    acts := acts + [Register(1)];
  }

  /** Client 1 has left room 0 empty and has yet to reset its timer. */
  lemma LastClientLeaves(cap: nat) returns (acts: seq<Action>)
    ensures Scene(Trace(cap, acts), RoomState({}, {}, false), OwesReset(0), Outside)
  {
    acts := FirstClientJoins(cap);
    Snoc(acts, Exit(1));
    acts := acts + [Exit(1)];
    assert Scene(Trace(cap, acts), RoomState({1}, {}, false), Found(Audio, 0), Outside);
    Snoc(acts, Check(1));
    acts := acts + [Check(1)];
  }

  /** Client 2 joins before client 1 has reset it. */
  lemma NextClientJoins(cap: nat) returns (acts: seq<Action>)
    ensures Scene(Trace(cap, acts), RoomState({2}, {}, false), OwesReset(0), Inside(Audio, 0))
  {
    acts := LastClientLeaves(cap);
    Snoc(acts, Enter(2, Audio, "r"));
    acts := acts + [Enter(2, Audio, "r")];
    assert Scene(Trace(cap, acts), RoomState({}, {}, false), OwesReset(0), Entering(Audio, 0));
    Snoc(acts, Register(2));
    acts := acts + [Register(2)];
  }

  /** And it happens: client 1's reset then starts the timer of a busy room. */
  lemma LateResetArmsBusyRoom(cap: nat)
    ensures exists acts :: var s := Trace(cap, acts);
              s.rooms == map["r" := 0] && s.pc(2) == Inside(Audio, 0) && s.room(0) == RoomState({2}, {}, true)
  {
    var acts := NextClientJoins(cap);
    Snoc(acts, Reset(1));
    acts := acts + [Reset(1)];
    assert Scene(Trace(cap, acts), RoomState({2}, {}, true), Gone, Inside(Audio, 0));
  }
}
