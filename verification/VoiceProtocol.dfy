// The many-to-many offer protocol of the voice SFU, over every interleaving of offer handlers, track
// callbacks, offer tasks, failures, removals and the final close.

module VoiceProtocol {
  import opened Common
  import opened VoiceSpec

  /** Where a connection's HandleOffer is. */
  datatype Stage = Idle | Registered | Negotiating | FanningOut

  /** One connection and one publisher. tasks are the tracks of the sendOfferTo calls that have yet to
      look for an entry, sending those of the calls that have inserted one and have yet to send its
      offer, log those offered so far, in order. The rest is history: the tracks of all entries
      inserted and of those whose offer was given up, the number of entries deleted, whether the
      connection or the publisher was ever removed or failed, how many tracks had arrived when the
      pair was last spoiled, and the tracks a task of which found the entry of another track. */
  datatype Pair = Pair(tasks: multiset<Track>, sending: multiset<Track>, log: seq<Track>,
                       inserted: multiset<Track>, failed: multiset<Track>, removed: nat,
                       disturbed: bool, spoiled: nat, blocked: set<Track>)

  /** userOf gives each connection's user, tracks numbers the tracks that arrive. former are the users of whom
      some publisher is no longer in the map; its callback may still come. */
  datatype State = State(userOf: Conn -> User, v: Voice, former: set<User>, stage: Conn -> Stage, tracks: nat,
                         pair: (Conn, User) -> Pair)

  datatype Action =
    | Offer(c: Conn) | Claim(c: Conn) | Answered(c: Conn, ok: bool) | FanOut(c: Conn)   // HandleOffer
    | TrackArrives(u: User, current: bool)                                              // onPublisherTrack
    | Insert(c: Conn, p: User, t: Track) | TaskFails(c: Conn, p: User, t: Track)        // sendOfferTo: its section
    | Send(c: Conn, p: User, t: Track) | SendFails(c: Conn, p: User, t: Track)          // and what follows it
    | Disconnected(c: Conn, p: User) | RemoveParticipant(c: Conn) | Close

  function NewPair(): Pair {
    Pair(multiset{}, multiset{}, [], multiset{}, multiset{}, 0, false, 0, {})
  }

  function Init(userOf: Conn -> User): State {
    State(userOf, Empty(false), {}, (c: Conn) => Idle, 0, (c: Conn, p: User) => NewPair())
  }

  /** A track arrives on the publisher in the map, or on one that was. */
  predicate Arrives(s: State, u: User, current: bool) {
    if current then u in s.v.publishers else u in s.former
  }

  /** The maps after an action; an action that is not enabled changes nothing. */
  function NextVoice(s: State, a: Action): Voice {
    match a
    case Offer(c) => if s.stage(c).Idle? then RegisterParticipant(s.v, c, s.userOf(c)) else s.v
    case Claim(c) => if s.stage(c).Registered? then ClaimPublisher(s.v, s.userOf(c)) else s.v
    case Answered(c, ok) => if s.stage(c).Negotiating? && !ok then RemovePub(s.v, s.userOf(c)) else s.v
    case TrackArrives(u, current) => if Arrives(s, u, current) then TrackArrived(s.v, u, s.tracks, current) else s.v
    case Insert(c, p, t) => if t in s.pair(c, p).tasks then InsertSub(s.v, c, p, t) else s.v
    case SendFails(c, p, t) => if t in s.pair(c, p).sending then RemoveSub(s.v, c, p) else s.v
    case Disconnected(c, p) => RemoveSub(s.v, c, p)
    case RemoveParticipant(c) => RemoveConn(s.v, c)
    case Close => if s.v.closed then s.v else Empty(true)
    case _ => s.v
  }

  function NextStage(s: State, a: Action, c: Conn): Stage {
    match s.stage(c)
    case Idle => if a == Offer(c) then Registered else Idle
    case Registered =>
      if a != Claim(c) then Registered
      else
        (match ClaimOf(s.v, s.userOf(c))
         case ClaimClosed => Idle
         case ClaimTaken => FanningOut
         case Claimed => Negotiating)
    case Negotiating =>
      if a == Answered(c, true) then FanningOut else if a == Answered(c, false) then Idle else Negotiating
    case FanningOut => if a == FanOut(c) then Idle else FanningOut
  }

  /** The pairs an action spoils: a failure on their way to the entry or to its offer, or a deletion
      of the entry or of the connection. */
  predicate Spoils(s: State, a: Action, c: Conn, p: User) {
    match a
    case Answered(x, ok) => !ok && s.stage(x).Negotiating? && c == x
    case TaskFails(x, q, _) => c == x && p == q
    case SendFails(x, q, _) => c == x && p == q
    case Disconnected(x, q) => c == x && p == q
    case RemoveParticipant(x) => c == x
    case _ => false
  }

  /** The pairs an action disturbs: those it spoils, and those whose publisher goes. */
  predicate Disturbs(s: State, a: Action, c: Conn, p: User) {
    || Spoils(s, a, c, p)
    || (a.Answered? && !a.ok && s.stage(a.c).Negotiating? && p == s.userOf(a.c))
    || (a.RemoveParticipant? && p == s.userOf(a.c))
    || a.Close?
  }

  /** What the tasks, the sending and the log of a pair become. */
  function Moved(s: State, a: Action, c: Conn, p: User): Pair {
    var q := s.pair(c, p);
    match a
    case FanOut(x) =>
      if x == c && s.stage(c).FanningOut? && p in Known(s.v, s.userOf(c)) then
        q.(tasks := q.tasks + multiset{Known(s.v, s.userOf(c))[p]})
      else q
    case TrackArrives(u, current) =>
      if Arrives(s, u, current) && u == p && c in Targets(s.v, p) then q.(tasks := q.tasks + multiset{s.tracks}) else q
    case Insert(x, u, t) =>
      if x != c || u != p || t !in q.tasks then q
      else if Insertable(s.v, c, p) then
        q.(tasks := q.tasks - multiset{t}, sending := q.sending + multiset{t}, inserted := q.inserted + multiset{t})
      else if !s.v.closed && s.v.subs[(c, p)] != t then q.(tasks := q.tasks - multiset{t}, blocked := q.blocked + {t})
      else q.(tasks := q.tasks - multiset{t})
    case TaskFails(x, u, t) => if x == c && u == p then q.(tasks := q.tasks - multiset{t}) else q
    case Send(x, u, t) =>
      if x == c && u == p && t in q.sending then q.(sending := q.sending - multiset{t}, log := q.log + [t]) else q
    case SendFails(x, u, t) =>
      if x == c && u == p && t in q.sending then
        q.(sending := q.sending - multiset{t}, failed := q.failed + multiset{t})
      else q
    case _ => q
  }

  /** 1 if the action deletes the pair's entry. */
  function Deleted(s: State, a: Action, c: Conn, p: User): nat {
    if (c, p) in s.v.subs && (c, p) !in NextVoice(s, a).subs then 1 else 0
  }

  function NextPair(s: State, a: Action, c: Conn, p: User): Pair {
    var q := Moved(s, a, c, p);
    q.(removed := q.removed + Deleted(s, a, c, p),
       disturbed := q.disturbed || Disturbs(s, a, c, p),
       spoiled := if Spoils(s, a, c, p) then s.tracks else q.spoiled)
  }

  function Step(s: State, a: Action): State {
    State(s.userOf, NextVoice(s, a), s.former + (s.v.publishers.Keys - NextVoice(s, a).publishers.Keys),
          (c: Conn) => NextStage(s, a, c),
          if a.TrackArrives? && Arrives(s, a.u, a.current) then s.tracks + 1 else s.tracks,
          (c: Conn, p: User) => NextPair(s, a, c, p))
  }

  /** The actions that concern one pair. */
  predicate IsPairs(a: Action) {
    a.Insert? || a.TaskFails? || a.Send? || a.SendFails? || a.Disconnected?
  }

  /** An action on one pair leaves the maps' other entries alone. */
  lemma OtherEntry(s: State, a: Action, c: Conn, p: User)
    requires IsPairs(a) && (a.c != c || a.p != p)
    ensures var v := NextVoice(s, a);
            && v.(subs := s.v.subs) == s.v && ((c, p) in v.subs <==> (c, p) in s.v.subs)
            && ((c, p) in s.v.subs ==> v.subs[(c, p)] == s.v.subs[(c, p)])
  {
    assert (a.c, a.p) != (c, p);
  }

  /** And the other pairs. */
  lemma OtherPair(s: State, a: Action, c: Conn, p: User)
    requires IsPairs(a) && (a.c != c || a.p != p)
    ensures var w := Step(s, a);
            && w.pair(c, p) == s.pair(c, p) && w.stage(c) == s.stage(c) && w.tracks == s.tracks
            && w.v.(subs := s.v.subs) == s.v && ((c, p) in w.v.subs <==> (c, p) in s.v.subs)
            && ((c, p) in s.v.subs ==> w.v.subs[(c, p)] == s.v.subs[(c, p)])
  {
    OtherEntry(s, a, c, p);
    assert Moved(s, a, c, p) == s.pair(c, p) && !Disturbs(s, a, c, p) && Deleted(s, a, c, p) == 0;
  }

  function Trace(userOf: Conn -> User, acts: seq<Action>): State {
    if acts == [] then Init(userOf) else Step(Trace(userOf, acts[..|acts| - 1]), acts[|acts| - 1])
  }

  function Present(v: Voice, c: Conn, p: User): nat {
    if (c, p) in v.subs then 1 else 0
  }

  /** Every entry inserted for track t had its one offer sent, is about to send it, or gave it up. */
  predicate OneOfferEach(s: State, c: Conn, p: User, t: Track) {
    var q := s.pair(c, p);
    q.inserted[t] == multiset(q.log)[t] + q.sending[t] + q.failed[t] && (q.disturbed || q.failed[t] == 0)
  }

  /** Every entry inserted is in the map or was deleted. */
  predicate Balanced(s: State, c: Conn, p: User) {
    |s.pair(c, p).inserted| == s.pair(c, p).removed + Present(s.v, c, p)
  }

  lemma CountSnoc(log: seq<Track>, x: Track, t: Track)
    ensures multiset(log + [x])[t] == multiset(log)[t] + (if x == t then 1 else 0)
  {
  }

  lemma MovesOver(a: multiset<Track>, b: multiset<Track>, n: Track, t: Track)
    requires n in a
    ensures (a - multiset{n})[t] + (b + multiset{n})[t] == a[t] + b[t]
  {
  }

  lemma AddOne(m: multiset<Track>, n: Track, t: Track)
    ensures (m + multiset{n})[t] == m[t] + (if n == t then 1 else 0)
  {
  }

  lemma OneOfferEachInsert(s: State, c: Conn, p: User, n: Track, t: Track)
    requires OneOfferEach(s, c, p, t)
    ensures OneOfferEach(Step(s, Insert(c, p, n)), c, p, t)
  {
    AddOne(s.pair(c, p).inserted, n, t);
    AddOne(s.pair(c, p).sending, n, t);
  }

  lemma OneOfferEachSend(s: State, c: Conn, p: User, n: Track, t: Track)
    requires OneOfferEach(s, c, p, t) && n in s.pair(c, p).sending
    ensures OneOfferEach(Step(s, Send(c, p, n)), c, p, t)
  {
    var q := s.pair(c, p);
    CountSnoc(q.log, n, t);
    MovesOver(q.sending, multiset(q.log), n, t);
  }

  lemma OneOfferEachFails(s: State, c: Conn, p: User, n: Track, t: Track)
    requires OneOfferEach(s, c, p, t) && n in s.pair(c, p).sending
    ensures OneOfferEach(Step(s, SendFails(c, p, n)), c, p, t)
  {
    MovesOver(s.pair(c, p).sending, s.pair(c, p).failed, n, t);
  }

  lemma OneOfferEachElse(s: State, a: Action, c: Conn, p: User, t: Track)
    requires OneOfferEach(s, c, p, t) && !a.Insert? && !a.Send? && !a.SendFails?
    ensures OneOfferEach(Step(s, a), c, p, t)
  {
    assert Moved(s, a, c, p).(tasks := s.pair(c, p).tasks) == s.pair(c, p);
  }

  lemma OneOfferEachStep(s: State, a: Action, c: Conn, p: User, t: Track)
    requires OneOfferEach(s, c, p, t)
    ensures OneOfferEach(Step(s, a), c, p, t)
  {
    if !a.Insert? && !a.Send? && !a.SendFails? {
      OneOfferEachElse(s, a, c, p, t);
    } else if a.c != c || a.p != p {
      OtherPair(s, a, c, p);
    } else if a.Insert? {
      OneOfferEachInsert(s, c, p, a.t, t);
    } else if a.t in s.pair(c, p).sending {
      if a.Send? { OneOfferEachSend(s, c, p, a.t, t); } else { OneOfferEachFails(s, c, p, a.t, t); }
    }
  }

  lemma BalancedInsert(s: State, n: Track, c: Conn, p: User)
    requires Balanced(s, c, p)
    ensures Balanced(Step(s, Insert(c, p, n)), c, p)
  {
  }

  /** Only an insertion adds an entry; the deletions are counted. */
  lemma DeletedOrPresent(s: State, a: Action, c: Conn, p: User)
    requires !a.Insert?
    ensures Moved(s, a, c, p).inserted == s.pair(c, p).inserted
    ensures Present(NextVoice(s, a), c, p) + Deleted(s, a, c, p) == Present(s.v, c, p)
  {
  }

  lemma BalancedStep(s: State, a: Action, c: Conn, p: User)
    requires Balanced(s, c, p)
    ensures Balanced(Step(s, a), c, p)
  {
    if IsPairs(a) && (a.c != c || a.p != p) {
      OtherPair(s, a, c, p);
    } else if a.Insert? {
      BalancedInsert(s, a.t, c, p);
    } else {
      DeletedOrPresent(s, a, c, p);
    }
  }

  predicate KnowsUser(s: State, c: Conn) {
    c in s.v.participants ==> s.v.participants[c] == s.userOf(c)
  }

  /** The pair has no history: nothing was ever inserted or is about to be. */
  predicate Untouched(s: State, c: Conn, p: User) {
    s.pair(c, p).tasks == multiset{} && s.pair(c, p).inserted == multiset{}
  }

  /** User p has, or had, a publisher. */
  predicate Published(s: State, p: User) {
    p in s.v.publishers || p in s.former
  }

  /** Only a publisher's tracks are offered. */
  predicate PublishedFirst(s: State, c: Conn, p: User) {
    s.pair(c, p).tasks != multiset{} || s.pair(c, p).inserted != multiset{} ==> Published(s, p)
  }

  lemma PublishedFirstStep(s: State, a: Action, c: Conn, p: User)
    requires PublishedFirst(s, c, p)
    ensures PublishedFirst(Step(s, a), c, p)
    ensures Published(s, p) ==> Published(Step(s, a), p)
  {
  }

  lemma KnowsUserStep(s: State, a: Action, c: Conn)
    requires KnowsUser(s, c)
    ensures KnowsUser(Step(s, a), c)
  {
  }

  lemma NotOwnStep(s: State, a: Action, c: Conn)
    requires KnowsUser(s, c) && Untouched(s, c, s.userOf(c))
    ensures Untouched(Step(s, a), c, s.userOf(c))
  {
    assert c !in Targets(s.v, s.userOf(c)) && s.userOf(c) !in Known(s.v, s.userOf(c));
  }

  /** The pair ought to be connected: a publisher with a track, a participant of another user. */
  predicate Owed(s: State, c: Conn, p: User) {
    c in s.v.participants && p in s.v.publishers && s.v.publishers[p].Some? && p != s.userOf(c)
  }

  /** The track that publisher has now. */
  function Current(s: State, p: User): Track
    requires p in s.v.publishers && s.v.publishers[p].Some?
  {
    s.v.publishers[p].value
  }

  /** While it is not disturbed, such a pair has an entry, or a task that will make one, or the
      participant's handler has still to fan out. */
  predicate Covered(s: State, c: Conn, p: User) {
    !s.pair(c, p).disturbed ==>
      && !s.v.closed && s.pair(c, p).removed == 0
      && (Owed(s, c, p) ==> (c, p) in s.v.subs || Current(s, p) in s.pair(c, p).tasks || !s.stage(c).Idle?)
  }

  lemma CoveredTrack(s: State, u: User, current: bool, c: Conn, p: User)
    requires KnowsUser(s, c) && Covered(s, c, p)
    ensures Covered(Step(s, TrackArrives(u, current)), c, p)
  {
    var t := Step(s, TrackArrives(u, current));
    if Owed(t, c, p) && u == p { assert c in Targets(s.v, p); }
  }

  lemma CoveredFanOut(s: State, x: Conn, c: Conn, p: User)
    requires KnowsUser(s, c) && Covered(s, c, p)
    ensures Covered(Step(s, FanOut(x)), c, p)
  {
    if x == c && Owed(s, c, p) { assert p in Known(s.v, s.userOf(c)); }
  }

  lemma CoveredTask(s: State, a: Action, c: Conn, p: User)
    requires Covered(s, c, p) && IsPairs(a)
    ensures Covered(Step(s, a), c, p)
  {
    if a.c != c || a.p != p { OtherPair(s, a, c, p); }
  }

  lemma CoveredRemoval(s: State, x: Conn, c: Conn, p: User)
    requires KnowsUser(s, x) && Covered(s, c, p)
    ensures Covered(Step(s, RemoveParticipant(x)), c, p)
  {
  }

  lemma CoveredHandler(s: State, a: Action, c: Conn, p: User)
    requires Covered(s, c, p) && (a.Offer? || a.Claim? || a.Answered?)
    ensures Covered(Step(s, a), c, p)
  {
  }

  lemma CoveredStep(s: State, a: Action, c: Conn, p: User)
    requires KnowsUser(s, c) && Covered(s, c, p) && (a.RemoveParticipant? ==> KnowsUser(s, a.c))
    ensures Covered(Step(s, a), c, p)
  {
    match a {
      case TrackArrives(u, current) => CoveredTrack(s, u, current, c, p);
      case FanOut(x) => CoveredFanOut(s, x, c, p);
      case RemoveParticipant(x) => CoveredRemoval(s, x, c, p);
      case Close =>
      case Offer(_) => CoveredHandler(s, a, c, p);
      case Claim(_) => CoveredHandler(s, a, c, p);
      case Answered(_, _) => CoveredHandler(s, a, c, p);
      case _ => CoveredTask(s, a, c, p);
    }
  }

  /** Tracks are numbered as they arrive: a number not given yet is nowhere. */
  predicate Numbered(s: State, c: Conn, p: User, t: Track) {
    var q := s.pair(c, p);
    && q.spoiled <= s.tracks
    && (t >= s.tracks ==>
          && q.tasks[t] == 0 && q.inserted[t] == 0 && t !in q.blocked
          && ((c, p) in s.v.subs ==> s.v.subs[(c, p)] != t)
          && (p in s.v.publishers ==> s.v.publishers[p] != Some(t)))
  }

  lemma NumberedInsert(s: State, n: Track, c: Conn, p: User, t: Track)
    requires Numbered(s, c, p, t) && n in s.pair(c, p).tasks
    ensures Numbered(Step(s, Insert(c, p, n)), c, p, t)
  {
    AddOne(s.pair(c, p).inserted, n, t);
    assert t >= s.tracks ==> n != t;
  }

  lemma NumberedTask(s: State, a: Action, c: Conn, p: User, t: Track)
    requires Numbered(s, c, p, t) && IsPairs(a) && a.c == c && a.p == p
    ensures Numbered(Step(s, a), c, p, t)
  {
    if a.Insert? {
      if a.t in s.pair(c, p).tasks { NumberedInsert(s, a.t, c, p, t); }
    } else if a.TaskFails? {
      NumberedTaskFails(s, a.t, c, p, t);
    } else if a.Send? {
      NumberedSend(s, a.t, c, p, t);
    } else {
      NumberedGone(s, a, c, p, t);
    }
  }

  lemma TakeOne(m: multiset<Track>, n: Track, t: Track)
    ensures (m - multiset{n})[t] <= m[t]
  {
  }

  lemma NumberedTaskFails(s: State, n: Track, c: Conn, p: User, t: Track)
    requires Numbered(s, c, p, t)
    ensures Numbered(Step(s, TaskFails(c, p, n)), c, p, t)
  {
    TakeOne(s.pair(c, p).tasks, n, t);
  }

  lemma NumberedSend(s: State, n: Track, c: Conn, p: User, t: Track)
    requires Numbered(s, c, p, t)
    ensures Numbered(Step(s, Send(c, p, n)), c, p, t)
  {
  }

  /** The entry goes, or was not there. */
  lemma NumberedGone(s: State, a: Action, c: Conn, p: User, t: Track)
    requires Numbered(s, c, p, t) && (a == Disconnected(c, p) || (a.SendFails? && a.c == c && a.p == p))
    ensures Numbered(Step(s, a), c, p, t)
  {
    assert (c, p) in NextVoice(s, a).subs ==> NextVoice(s, a) == s.v;
  }

  lemma NumberedMaps(s: State, a: Action, c: Conn, p: User, t: Track)
    requires Numbered(s, c, p, t) && !IsPairs(a) && !a.TrackArrives? && !a.FanOut?
    ensures Numbered(Step(s, a), c, p, t)
  {
    assert Moved(s, a, c, p) == s.pair(c, p);
  }

  lemma NumberedStep(s: State, a: Action, c: Conn, p: User, t: Track)
    requires Numbered(s, c, p, t)
    ensures Numbered(Step(s, a), c, p, t)
  {
    if IsPairs(a) {
      if a.c == c && a.p == p { NumberedTask(s, a, c, p, t); } else { OtherPair(s, a, c, p); }
    } else if !a.TrackArrives? && !a.FanOut? {
      NumberedMaps(s, a, c, p, t);
    }
  }

  /** A closed SFU keeps nothing. */
  predicate ClosedIsEmpty(s: State) {
    s.v.closed ==> s.v == Voice(map[], map[], map[], true)
  }

  lemma ClosedIsEmptyStep(s: State, a: Action)
    requires ClosedIsEmpty(s)
    ensures ClosedIsEmpty(Step(s, a))
  {
  }

  /** Track t is the publisher's, and the pair has not been spoiled since it arrived. */
  predicate Clean(s: State, c: Conn, p: User, t: Track) {
    p in s.v.publishers && s.v.publishers[p] == Some(t) && s.pair(c, p).spoiled <= t
  }

  /** How often track t has been, or is about to be, offered. */
  function Offering(s: State, c: Conn, p: User, t: Track): nat {
    multiset(s.pair(c, p).log)[t] + s.pair(c, p).sending[t]
  }

  /** A clean track is offered once if the entry is its own; if the entry is another track's, it is not
      offered, and is blocked once a task of it has found that entry. */
  predicate TrackCovered(s: State, c: Conn, p: User, t: Track) {
    var q := s.pair(c, p);
    Clean(s, c, p, t) ==>
      && ((c, p) !in s.v.subs ==> Offering(s, c, p, t) == 0 && t !in q.blocked)
      && ((c, p) in s.v.subs && s.v.subs[(c, p)] == t ==> Offering(s, c, p, t) == 1 && t !in q.blocked)
      && ((c, p) in s.v.subs && s.v.subs[(c, p)] != t ==> Offering(s, c, p, t) == 0)
      && (Owed(s, c, p) ==>
            ((c, p) in s.v.subs && s.v.subs[(c, p)] == t) || t in q.blocked || t in q.tasks || !s.stage(c).Idle?)
  }

  /** The track that arrives has a new number, and has not been offered or blocked. */
  lemma NewTrackCovered(s: State, u: User, current: bool, c: Conn, p: User)
    requires KnowsUser(s, c) && Numbered(s, c, p, s.tracks) && OneOfferEach(s, c, p, s.tracks)
    ensures TrackCovered(Step(s, TrackArrives(u, current)), c, p, s.tracks)
  {
    var w := Step(s, TrackArrives(u, current));
    if Owed(w, c, p) && u == p { assert c in Targets(s.v, p); }
    assert Offering(w, c, p, s.tracks) == Offering(s, c, p, s.tracks) == 0;
  }

  lemma TrackArrival(s: State, u: User, current: bool, c: Conn, p: User, t: Track)
    requires KnowsUser(s, c) && Numbered(s, c, p, t) && OneOfferEach(s, c, p, t) && TrackCovered(s, c, p, t)
    ensures TrackCovered(Step(s, TrackArrives(u, current)), c, p, t)
  {
    if t == s.tracks {
      NewTrackCovered(s, u, current, c, p);
    } else {
      var w := Step(s, TrackArrives(u, current));
      assert Clean(w, c, p, t) ==> Clean(s, c, p, t) && w.v.subs == s.v.subs;
      assert Offering(w, c, p, t) == Offering(s, c, p, t);
    }
  }

  lemma TrackFanOut(s: State, x: Conn, c: Conn, p: User, t: Track)
    requires TrackCovered(s, c, p, t)
    ensures TrackCovered(Step(s, FanOut(x)), c, p, t)
  {
    if x == c && Owed(s, c, p) { assert p in Known(s.v, s.userOf(c)); }
  }

  lemma TrackFound(s: State, n: Track, c: Conn, p: User, t: Track)
    requires !s.v.closed && (c, p) in s.v.subs && TrackCovered(s, c, p, t) && n in s.pair(c, p).tasks
    ensures TrackCovered(Step(s, Insert(c, p, n)), c, p, t)
  {
    var w := Step(s, Insert(c, p, n));
    assert w.v == s.v && Offering(w, c, p, t) == Offering(s, c, p, t);
    assert n != t ==> w.pair(c, p).tasks[t] == s.pair(c, p).tasks[t];
  }

  lemma TrackInsert(s: State, n: Track, c: Conn, p: User, t: Track)
    requires ClosedIsEmpty(s) && TrackCovered(s, c, p, t) && n in s.pair(c, p).tasks
    ensures TrackCovered(Step(s, Insert(c, p, n)), c, p, t)
  {
    var w := Step(s, Insert(c, p, n));
    if Clean(w, c, p, t) {
      assert !s.v.closed && Clean(s, c, p, t);
      if (c, p) in s.v.subs {
        TrackFound(s, n, c, p, t);
      } else {
        assert Offering(w, c, p, t) == Offering(s, c, p, t) + (if n == t then 1 else 0);
      }
    }
  }

  lemma TrackSend(s: State, n: Track, c: Conn, p: User, t: Track)
    requires TrackCovered(s, c, p, t)
    ensures TrackCovered(Step(s, Send(c, p, n)), c, p, t)
  {
    CountSnoc(s.pair(c, p).log, n, t);
  }

  /** A failure or the deletion of the entry spoils the pair. */
  lemma TrackSpoiled(s: State, a: Action, c: Conn, p: User, t: Track)
    requires TrackCovered(s, c, p, t) && Numbered(s, c, p, t)
    requires a.TaskFails? || a.SendFails? || a.Disconnected?
    requires a.c == c && a.p == p
    ensures TrackCovered(Step(s, a), c, p, t)
  {
    var w := Step(s, a);
    assert w.pair(c, p).spoiled == s.tracks;
    assert Clean(w, c, p, t) ==> t >= s.tracks && w.v.publishers == s.v.publishers;
  }

  lemma TrackRemoval(s: State, x: Conn, c: Conn, p: User, t: Track)
    requires TrackCovered(s, c, p, t) && Numbered(s, c, p, t)
    ensures TrackCovered(Step(s, RemoveParticipant(x)), c, p, t)
  {
    var w := Step(s, RemoveParticipant(x));
    if Clean(w, c, p, t) {
      assert (c, p) in w.v.subs <==> (c, p) in s.v.subs;
    }
  }

  /** A handler's step that leaves the pair alone. */
  lemma HandlerLeavesPair(s: State, a: Action, c: Conn, p: User)
    requires a.Offer? || a.Claim? || a.Answered?
    ensures var w := Step(s, a);
            && Moved(s, a, c, p) == s.pair(c, p) && w.v.subs == s.v.subs
            && (p in w.v.publishers && w.v.publishers[p].Some? ==>
                  p in s.v.publishers && s.v.publishers[p] == w.v.publishers[p])
            && (s.pair(c, p).spoiled <= s.tracks ==> s.pair(c, p).spoiled <= w.pair(c, p).spoiled)
  {
  }

  lemma TrackHandler(s: State, a: Action, c: Conn, p: User, t: Track)
    requires TrackCovered(s, c, p, t) && Numbered(s, c, p, t) && ClosedIsEmpty(s)
    requires a.Offer? || a.Claim? || a.Answered?
    ensures TrackCovered(Step(s, a), c, p, t)
  {
    HandlerLeavesPair(s, a, c, p);
    if Clean(Step(s, a), c, p, t) {
      assert Clean(s, c, p, t) && !s.v.closed;
      assert Offering(Step(s, a), c, p, t) == Offering(s, c, p, t);
    }
  }

  lemma TrackCoveredStep(s: State, a: Action, c: Conn, p: User, t: Track)
    requires KnowsUser(s, c) && ClosedIsEmpty(s) && Numbered(s, c, p, t) && TrackCovered(s, c, p, t)
    requires OneOfferEach(s, c, p, t)
    ensures TrackCovered(Step(s, a), c, p, t)
  {
    if IsPairs(a) && (a.c != c || a.p != p) {
      OtherPair(s, a, c, p);
    } else {
      match a {
        case TrackArrives(u, current) => TrackArrival(s, u, current, c, p, t);
        case FanOut(x) => TrackFanOut(s, x, c, p, t);
        case Insert(_, _, n) => if n in s.pair(c, p).tasks { TrackInsert(s, n, c, p, t); }
        case Send(_, _, n) => TrackSend(s, n, c, p, t);
        case Offer(_) => TrackHandler(s, a, c, p, t);
        case Claim(_) => TrackHandler(s, a, c, p, t);
        case Answered(_, _) => TrackHandler(s, a, c, p, t);
        case RemoveParticipant(x) => TrackRemoval(s, x, c, p, t);
        case Close =>
        case _ => TrackSpoiled(s, a, c, p, t);
      }
    }
  }

  lemma {:induction false} ConnHolds(userOf: Conn -> User, acts: seq<Action>, c: Conn)
    ensures var s := Trace(userOf, acts);
            s.userOf == userOf && KnowsUser(s, c) && Untouched(s, c, userOf(c)) && ClosedIsEmpty(s)
    decreases |acts|
  {
    if acts != [] {
      var s, a := Trace(userOf, acts[..|acts| - 1]), acts[|acts| - 1];
      ConnHolds(userOf, acts[..|acts| - 1], c);
      KnowsUserStep(s, a, c);
      NotOwnStep(s, a, c);
      ClosedIsEmptyStep(s, a);
    }
  }

  lemma {:induction false} PairHolds(userOf: Conn -> User, acts: seq<Action>, c: Conn, p: User)
    ensures var s := Trace(userOf, acts); Balanced(s, c, p) && PublishedFirst(s, c, p) && Covered(s, c, p)
    decreases |acts|
  {
    if acts != [] {
      var s, a := Trace(userOf, acts[..|acts| - 1]), acts[|acts| - 1];
      PairHolds(userOf, acts[..|acts| - 1], c, p);
      ConnHolds(userOf, acts[..|acts| - 1], c);
      if a.RemoveParticipant? { ConnHolds(userOf, acts[..|acts| - 1], a.c); }
      BalancedStep(s, a, c, p);
      PublishedFirstStep(s, a, c, p);
      CoveredStep(s, a, c, p);
    }
  }

  lemma {:induction false} TrackHolds(userOf: Conn -> User, acts: seq<Action>, c: Conn, p: User, t: Track)
    ensures var s := Trace(userOf, acts); OneOfferEach(s, c, p, t) && Numbered(s, c, p, t) && TrackCovered(s, c, p, t)
    decreases |acts|
  {
    if acts != [] {
      var s, a := Trace(userOf, acts[..|acts| - 1]), acts[|acts| - 1];
      TrackHolds(userOf, acts[..|acts| - 1], c, p, t);
      ConnHolds(userOf, acts[..|acts| - 1], c);
      OneOfferEachStep(s, a, c, p, t);
      NumberedStep(s, a, c, p, t);
      TrackCoveredStep(s, a, c, p, t);
    }
  }

  /** In all runs, removals and failures included: of every entry inserted one offer was sent, or is
      about to be, or was given up; and as many entries were inserted as were deleted or are there. */
  lemma {:induction false} OneOfferPerEntry(userOf: Conn -> User, acts: seq<Action>, c: Conn, p: User)
    ensures var s := Trace(userOf, acts); var q := s.pair(c, p);
            && q.inserted == multiset(q.log) + q.sending + q.failed
            && |q.log| + |q.sending| + |q.failed| == q.removed + Present(s.v, c, p)
            && (q.disturbed || q.failed == multiset{})
  {
    var q := Trace(userOf, acts).pair(c, p);
    PairHolds(userOf, acts, c, p);
    forall t ensures q.inserted[t] == (multiset(q.log) + q.sending + q.failed)[t] && (q.disturbed || q.failed[t] == 0) {
      TrackHolds(userOf, acts, c, p, t);
    }
  }

  lemma SizesAdd(q: Pair)
    requires q.inserted == multiset(q.log) + q.sending + q.failed
    ensures |q.inserted| == |q.log| + |q.sending| + |q.failed|
  {
  }

  /** No connection is ever offered its own user's audio, whatever is removed or fails. */
  lemma {:induction false} NeverOfferedOwnAudio(userOf: Conn -> User, acts: seq<Action>, c: Conn)
    ensures Trace(userOf, acts).pair(c, userOf(c)).log == []
  {
    ConnHolds(userOf, acts, c);
    OneOfferPerEntry(userOf, acts, c, userOf(c));
    SizesAdd(Trace(userOf, acts).pair(c, userOf(c)));
  }

  /** What a run does to a pair's history: nothing is taken back, and nothing is inserted after the close. */
  predicate Grown(s: State, t: State, c: Conn, p: User) {
    && s.pair(c, p).log <= t.pair(c, p).log && |s.pair(c, p).failed| <= |t.pair(c, p).failed|
    && (s.v.closed ==> t.v.closed && t.pair(c, p).inserted == s.pair(c, p).inserted)
  }

  lemma GrownStep(s: State, a: Action, c: Conn, p: User)
    ensures Grown(s, Step(s, a), c, p)
  {
  }

  lemma {:induction false} HistoryGrows(userOf: Conn -> User, all: seq<Action>, n: nat, c: Conn, p: User)
    requires n <= |all|
    ensures Grown(Trace(userOf, all[..n]), Trace(userOf, all), c, p)
    decreases |all|
  {
    if n == |all| {
      assert all[..n] == all;
    } else {
      var before := all[..|all| - 1];
      assert before[..n] == all[..n];
      HistoryGrows(userOf, before, n, c, p);
      GrownStep(Trace(userOf, before), all[|all| - 1], c, p);
    }
  }

  /** How many offers can be sent for a pair before its next deletion: those on their way, and one more while
      there is no entry and the SFU is open. */
  function Bound(s: State, c: Conn, p: User): nat {
    |s.pair(c, p).sending| + (if Insertable(s.v, c, p) then 1 else 0)
  }

  /** While no entry of the pair is deleted, no more offers than that are sent. */
  lemma {:induction false} OffersBetweenRemovals(userOf: Conn -> User, acts: seq<Action>, more: seq<Action>,
                                                 c: Conn, p: User)
    requires Trace(userOf, acts + more).pair(c, p).removed == Trace(userOf, acts).pair(c, p).removed
    ensures var s := Trace(userOf, acts); var q, r := s.pair(c, p), Trace(userOf, acts + more).pair(c, p);
            q.log <= r.log && |r.log| <= |q.log| + Bound(s, c, p)
  {
    assert (acts + more)[..|acts|] == acts;
    HistoryGrows(userOf, acts + more, |acts|, c, p);
    OneOfferPerEntry(userOf, acts, c, p);
    OneOfferPerEntry(userOf, acts + more, c, p);
    SizesAdd(Trace(userOf, acts).pair(c, p));
    SizesAdd(Trace(userOf, acts + more).pair(c, p));
  }

  lemma OneSent(userOf: Conn -> User, acts0: seq<Action>, c: Conn, p: User) returns (acts: seq<Action>)
    requires Trace(userOf, acts0).pair(c, p).sending != multiset{}
    ensures var s, w := Trace(userOf, acts0), Trace(userOf, acts); var q, r := s.pair(c, p), w.pair(c, p);
            && |acts| == |acts0| + 1 && acts[..|acts0|] == acts0
            && |r.sending| == |q.sending| - 1 && |r.log| == |q.log| + 1 && r.removed == q.removed && w.v == s.v
  {
    var q := Trace(userOf, acts0).pair(c, p);
    var t :| t in q.sending;
    assert |q.sending - multiset{t}| == |q.sending| - 1;
    Snoc(acts0, Send(c, p, t));
    acts := acts0 + [Send(c, p, t)];
  }

  /** All the offers on their way are sent, one after the other. */
  lemma {:induction false} SendAll(userOf: Conn -> User, acts0: seq<Action>, c: Conn, p: User, n: nat)
    returns (acts: seq<Action>)
    requires |Trace(userOf, acts0).pair(c, p).sending| == n
    ensures var s, w := Trace(userOf, acts0), Trace(userOf, acts); var q, r := s.pair(c, p), w.pair(c, p);
            acts0 <= acts && r.removed == q.removed && |r.log| == |q.log| + n && w.v == s.v
    decreases n
  {
    if n == 0 {
      acts := acts0;
    } else {
      var next := OneSent(userOf, acts0, c, p);
      acts := SendAll(userOf, next, c, p, n - 1);
    }
  }

  lemma OneInserted(userOf: Conn -> User, acts0: seq<Action>, c: Conn, p: User) returns (acts: seq<Action>)
    requires var s := Trace(userOf, acts0); Insertable(s.v, c, p) && s.pair(c, p).tasks != multiset{}
    ensures var s, w := Trace(userOf, acts0), Trace(userOf, acts); var q, r := s.pair(c, p), w.pair(c, p);
            && |acts| == |acts0| + 1 && acts[..|acts0|] == acts0
            && |r.sending| == |q.sending| + 1 && r.log == q.log && r.removed == q.removed
            && w.v.participants == s.v.participants
  {
    var t :| t in Trace(userOf, acts0).pair(c, p).tasks;
    Snoc(acts0, Insert(c, p, t));
    acts := acts0 + [Insert(c, p, t)];
  }

  /** Nothing was sent, inserted or deleted for the pair, and its publisher is no less known. */
  predicate Untouching(s: State, w: State, c: Conn, p: User) {
    && w.pair(c, p).sending == s.pair(c, p).sending && w.pair(c, p).log == s.pair(c, p).log
    && w.pair(c, p).removed == s.pair(c, p).removed
    && w.v.subs == s.v.subs && w.v.closed == s.v.closed && (Published(s, p) ==> Published(w, p))
  }

  /** How far a connection's handler has still to go. */
  function Ahead(stage: Stage): nat {
    match stage
    case Idle => 0
    case FanningOut => 1
    case Negotiating => 2
    case Registered => 3
  }

  /** A handler that is under way goes one step on. */
  lemma HandlerAdvances(s: State, c: Conn, p: User) returns (a: Action)
    requires !s.stage(c).Idle?
    ensures Untouching(s, Step(s, a), c, p) && Ahead(Step(s, a).stage(c)) < Ahead(s.stage(c))
  {
    match s.stage(c) {
      case Registered => a := Claim(c);
      case Negotiating => a := Answered(c, true);
      case FanningOut => a := FanOut(c);
    }
  }

  /** A connection whose handler is through offers, and takes part. */
  lemma OffersAgain(s: State, c: Conn, p: User)
    requires s.stage(c).Idle? && !s.v.closed
    ensures var w := Step(s, Offer(c)); Untouching(s, w, c, p) && c in w.v.participants
  {
  }

  /** While the SFU is open, a connection can come to take part. */
  lemma {:induction false} Joins(userOf: Conn -> User, acts0: seq<Action>, c: Conn, p: User) returns (acts: seq<Action>)
    requires !Trace(userOf, acts0).v.closed
    ensures var s, w := Trace(userOf, acts0), Trace(userOf, acts);
            acts0 <= acts && Untouching(s, w, c, p) && c in w.v.participants
    decreases Ahead(Trace(userOf, acts0).stage(c))
  {
    var s := Trace(userOf, acts0);
    if c in s.v.participants {
      acts := acts0;
    } else if s.stage(c).Idle? {
      OffersAgain(s, c, p);
      Snoc(acts0, Offer(c));
      acts := acts0 + [Offer(c)];
    } else {
      var a := HandlerAdvances(s, c, p);
      Snoc(acts0, a);
      acts := Joins(userOf, acts0 + [a], c, p);
    }
  }

  /** A track of a user that has or had a publisher makes a task for a participant. */
  lemma TrackMakesTask(s: State, c: Conn, p: User)
    requires c in s.v.participants && s.v.participants[c] != p && Published(s, p)
    ensures var w := Step(s, TrackArrives(p, p in s.v.publishers));
            Untouching(s, w, c, p) && s.tracks in w.pair(c, p).tasks && c in w.v.participants
  {
    assert c in Targets(s.v, p);
  }

  /** A task for the pair is there, or comes with the publisher's next track. */
  lemma TaskComes(userOf: Conn -> User, acts0: seq<Action>, c: Conn, p: User) returns (acts: seq<Action>)
    requires var s := Trace(userOf, acts0); !s.v.closed && Published(s, p) && p != userOf(c)
    ensures var s, w := Trace(userOf, acts0), Trace(userOf, acts);
            && acts0 <= acts && Untouching(s, w, c, p) && w.pair(c, p).tasks != multiset{}
            && (c in s.v.participants ==> c in w.v.participants)
  {
    if Trace(userOf, acts0).pair(c, p).tasks != multiset{} {
      acts := acts0;
    } else {
      acts := Joins(userOf, acts0, c, p);
      ConnHolds(userOf, acts, c);
      var a := TrackArrives(p, p in Trace(userOf, acts).v.publishers);
      TrackMakesTask(Trace(userOf, acts), c, p);
      Snoc(acts, a);
      acts := acts + [a];
    }
  }

  /** The bound is reached: with an entry or after the close from any state, and otherwise for any publisher of
      another user, whether or not there is a task or the connection takes part. */
  lemma BoundIsReached(userOf: Conn -> User, acts: seq<Action>, c: Conn, p: User) returns (more: seq<Action>)
    requires var s := Trace(userOf, acts); Insertable(s.v, c, p) ==> Published(s, p) && p != userOf(c)
    ensures var s, w := Trace(userOf, acts), Trace(userOf, acts + more); var q, r := s.pair(c, p), w.pair(c, p);
            && r.removed == q.removed && |r.log| == |q.log| + Bound(s, c, p)
            && (c in s.v.participants ==> c in w.v.participants)
  {
    var next := acts;
    if Insertable(Trace(userOf, acts).v, c, p) {
      next := TaskComes(userOf, acts, c, p);
      next := OneInserted(userOf, next, c, p);
    }
    var all := SendAll(userOf, next, c, p, |Trace(userOf, next).pair(c, p).sending|);
    more := all[|acts|..];
    assert acts + more == all;
  }

  /** An offer on its way is of a publisher of another user. */
  lemma SendingIsPublished(userOf: Conn -> User, acts: seq<Action>, c: Conn, p: User)
    requires Trace(userOf, acts).pair(c, p).sending != multiset{}
    ensures Published(Trace(userOf, acts), p) && p != userOf(c)
  {
    var q := Trace(userOf, acts).pair(c, p);
    OneOfferPerEntry(userOf, acts, c, p);
    var t :| t in q.sending;
    assert t in q.inserted;
    PairHolds(userOf, acts, c, p);
    ConnHolds(userOf, acts, c);
  }

  /** Every pair in every run: at most one offer is sent until the next deletion, whatever happens, exactly if
      at most one is on its way where there is an entry or the SFU is closed, and none is where there is not. */
  lemma AtMostOneOfferIff(userOf: Conn -> User, acts: seq<Action>, c: Conn, p: User)
    ensures var s := Trace(userOf, acts); var q := s.pair(c, p);
            (forall more :: Trace(userOf, acts + more).pair(c, p).removed == q.removed ==>
                              |Trace(userOf, acts + more).pair(c, p).log| <= |q.log| + 1)
            <==> Bound(s, c, p) <= 1
  {
    var s := Trace(userOf, acts);
    if Bound(s, c, p) <= 1 {
      forall more | Trace(userOf, acts + more).pair(c, p).removed == s.pair(c, p).removed
        ensures |Trace(userOf, acts + more).pair(c, p).log| <= |s.pair(c, p).log| + 1
      {
        OffersBetweenRemovals(userOf, acts, more, c, p);
      }
    } else {
      SendingIsPublished(userOf, acts, c, p);
      var more := BoundIsReached(userOf, acts, c, p);
    }
  }

  ghost predicate Reachable(s: State) {
    exists acts :: s == Trace(s.userOf, acts)
  }

  lemma ReachableHolds(s: State, c: Conn, p: User, t: Track)
    requires Reachable(s)
    ensures Covered(s, c, p) && TrackCovered(s, c, p, t)
    ensures var q := s.pair(c, p);
            && |q.log| + |q.sending| + |q.failed| == q.removed + Present(s.v, c, p)
            && (q.disturbed || q.failed == multiset{})
  {
    var acts :| s == Trace(s.userOf, acts);
    PairHolds(s.userOf, acts, c, p);
    TrackHolds(s.userOf, acts, c, p, t);
    OneOfferPerEntry(s.userOf, acts, c, p);
  }

  /** Coverage, in every reachable state and whatever happens to others: a publisher that has a track has been
      offered exactly once to a participant of another user, once that participant's handler, the tasks for
      the pair and the sending are done, whichever of the registration and the track came first. That offer
      may be of an earlier track than the publisher's current one: see CurrentTrackOfferedIff. */
  lemma EveryPairIsOffered(s: State, c: Conn, p: User)
    requires Reachable(s) && Owed(s, c, p) && !s.pair(c, p).disturbed
    requires s.pair(c, p).tasks == multiset{} && s.pair(c, p).sending == multiset{} && s.stage(c).Idle?
    ensures (c, p) in s.v.subs && |s.pair(c, p).log| == 1
  {
    ReachableHolds(s, c, p, Current(s, p));
  }

  /** Without quiescence: such a pair has an entry, whose offer is sent or about to be, or a task under
      way, or a handler that has yet to fan out to that participant. */
  lemma EveryPairIsPending(s: State, c: Conn, p: User)
    requires Reachable(s) && Owed(s, c, p) && !s.pair(c, p).disturbed
    ensures var q := s.pair(c, p);
            || ((c, p) in s.v.subs && |q.log| + |q.sending| == 1)
            || ((c, p) !in s.v.subs && |q.log| + |q.sending| == 0 && (Current(s, p) in q.tasks || !s.stage(c).Idle?))
  {
    ReachableHolds(s, c, p, Current(s, p));
  }

  /** Coverage when publishers come and go: a publisher's current track, with the pair not spoiled since
      it arrived, has been offered exactly once, or not at all; and not at all exactly if a task of it
      found the entry of another track. */
  lemma CurrentTrackOfferedIff(s: State, c: Conn, p: User)
    requires Reachable(s) && Owed(s, c, p) && s.pair(c, p).spoiled <= Current(s, p)
    requires Current(s, p) !in s.pair(c, p).tasks && Current(s, p) !in s.pair(c, p).sending && s.stage(c).Idle?
    ensures var q, t := s.pair(c, p), Current(s, p);
            && (multiset(q.log)[t] == 1 <==> t !in q.blocked)
            && (multiset(q.log)[t] == 0 <==> t in q.blocked)
  {
    ReachableHolds(s, c, p, Current(s, p));
  }

  /** The actions that delete a pair's entry: its peer connection reports that it is gone, or its offer fails. */
  predicate Forgets(s: State, a: Action, c: Conn, p: User) {
    a == Disconnected(c, p) || (a.SendFails? && a.c == c && a.p == p && a.t in s.pair(c, p).sending)
  }

  /** A pair that is forgotten can be inserted again while the SFU is open; no other pair, participant or
      publisher is touched; and with a publisher of another user one more offer can then be sent. */
  lemma ForgottenCanBeOffered(userOf: Conn -> User, acts: seq<Action>, a: Action, c: Conn, p: User)
    requires var s := Trace(userOf, acts); !s.v.closed && Forgets(s, a, c, p)
    ensures var s, t := Trace(userOf, acts), Trace(userOf, acts + [a]);
            && !t.v.closed && (c, p) !in t.v.subs
            && t.v.participants == s.v.participants && t.v.publishers == s.v.publishers
            && forall e :: e != (c, p) ==>
                 (e in t.v.subs <==> e in s.v.subs) && (e in s.v.subs ==> t.v.subs[e] == s.v.subs[e])
    ensures Published(Trace(userOf, acts), p) && p != userOf(c) ==>
              exists more :: var t, w := Trace(userOf, acts + [a]), Trace(userOf, acts + [a] + more);
                w.pair(c, p).removed == t.pair(c, p).removed
                && |w.pair(c, p).log| == |t.pair(c, p).log| + |t.pair(c, p).sending| + 1
  {
    Snoc(acts, a);
    assert Trace(userOf, acts + [a]) == Step(Trace(userOf, acts), a);
    if Published(Trace(userOf, acts), p) && p != userOf(c) {
      PairHolds(userOf, acts, c, p);
      PublishedFirstStep(Trace(userOf, acts), a, c, p);
      var more := BoundIsReached(userOf, acts + [a], c, p);
    }
  }

  lemma ClosedStays(s: State, a: Action)
    requires s.v == Voice(map[], map[], map[], true) || (ClosedIsEmpty(s) && a.Close?)
    ensures Step(s, a).v == Voice(map[], map[], map[], true)
  {
  }

  /** Once closed the SFU stays closed, and no handler, track or task brings anything back into it. */
  lemma {:induction false} ClosedForGood(userOf: Conn -> User, acts: seq<Action>, more: seq<Action>)
    ensures Trace(userOf, acts + [Close] + more).v == Voice(map[], map[], map[], true)
    decreases |more|
  {
    if more == [] {
      Snoc(acts, Close);
      assert acts + [Close] + [] == acts + [Close];
      ConnHolds(userOf, acts, 0);
      ClosedStays(Trace(userOf, acts), Close);
    } else {
      var before, a := more[..|more| - 1], more[|more| - 1];
      ClosedForGood(userOf, acts, before);
      Snoc(acts + [Close] + before, a);
      assert acts + [Close] + before + [a] == acts + [Close] + more;
      ClosedStays(Trace(userOf, acts + [Close] + before), a);
    }
  }

  /** Of v, w lacks connection c, its downstream connections and, if it took part, its user's publisher and
      everyone's downstream connection to that user; it has all the rest. */
  ghost predicate LostOnly(v: Voice, w: Voice, c: Conn, u: User) {
    var goes := c in v.participants && u != "";
    && (forall x :: x in w.participants <==> x in v.participants && x != c)
    && (forall x :: x in w.participants ==> w.participants[x] == v.participants[x])
    && (forall q :: q in w.publishers <==> q in v.publishers && !(goes && q == u))
    && (forall q :: q in w.publishers ==> w.publishers[q] == v.publishers[q])
    && (forall e :: e in w.subs <==> e in v.subs && e.0 != c && !(goes && e.1 == u))
    && (forall e :: e in w.subs ==> w.subs[e] == v.subs[e])
  }

  lemma RemoveConnLoses(v: Voice, c: Conn, u: User)
    requires c in v.participants ==> v.participants[c] == u
    ensures LostOnly(v, RemoveConn(v, c), c, u)
  {
  }

  /** A participant that is removed takes along its publisher, its downstream connections and everyone's to
      its user, and nothing else; a connection that never registered, only its own. */
  lemma RemovedIsForgotten(userOf: Conn -> User, acts: seq<Action>, c: Conn)
    ensures LostOnly(Trace(userOf, acts).v, Trace(userOf, acts + [RemoveParticipant(c)]).v, c, userOf(c))
  {
    Snoc(acts, RemoveParticipant(c));
    ConnHolds(userOf, acts, c);
    RemoveConnLoses(Trace(userOf, acts).v, c, userOf(c));
  }

  /** Only user u's publisher is gone. */
  ghost predicate UnseatedOnly(v: Voice, w: Voice, u: User) {
    && w.participants == v.participants && w.subs == v.subs && w.closed == v.closed
    && u !in w.publishers
    && forall p :: p != u ==>
         (p in w.publishers <==> p in v.publishers) && (p in v.publishers ==> w.publishers[p] == v.publishers[p])
  }

  lemma RejectStep(s: State, c: Conn)
    requires s.stage(c).Negotiating? && !s.v.closed
    ensures var t := Step(s, Answered(c, false)); UnseatedOnly(s.v, t.v, s.userOf(c)) && t.stage(c).Idle?
  {
  }

  lemma ClaimsAgain(s: State, c: Conn)
    requires s.stage(c).Idle? && !s.v.closed && s.userOf(c) !in s.v.publishers
    ensures var w := Step(Step(s, Offer(c)), Claim(c));
            w.stage(c).Negotiating? && s.userOf(c) in w.v.publishers && w.v.publishers[s.userOf(c)] == None
  {
    assert Step(s, Offer(c)).stage(c).Registered?;
  }

  /** A publisher that fails to negotiate leaves the map, and its connection can offer again. */
  lemma RejectedCanClaim(userOf: Conn -> User, acts: seq<Action>, c: Conn)
    requires Trace(userOf, acts).stage(c).Negotiating? && !Trace(userOf, acts).v.closed
    ensures UnseatedOnly(Trace(userOf, acts).v, Trace(userOf, acts + [Answered(c, false)]).v, userOf(c))
    ensures var w := Trace(userOf, acts + [Answered(c, false)] + [Offer(c)] + [Claim(c)]);
            w.stage(c).Negotiating? && userOf(c) in w.v.publishers && w.v.publishers[userOf(c)] == None
  {
    ConnHolds(userOf, acts, c);
    var rejected := acts + [Answered(c, false)];
    Snoc(acts, Answered(c, false));
    RejectStep(Trace(userOf, acts), c);
    Snoc(rejected, Offer(c));
    Snoc(rejected + [Offer(c)], Claim(c));
    ClaimsAgain(Trace(userOf, rejected), c);
  }

  /** The actions after which user u's publisher may have no track, or another one. */
  predicate Unseats(s: State, a: Action, u: User) {
    || a == TrackArrives(u, true) || a.Close?
    || (a.Answered? && !a.ok && s.userOf(a.c) == u)
    || (a.RemoveParticipant? && s.userOf(a.c) == u)
  }

  lemma PublisherStaysStep(s: State, a: Action, u: User, t: Track)
    requires u in s.v.publishers && s.v.publishers[u] == Some(t) && !Unseats(s, a, u)
    requires a.RemoveParticipant? ==> KnowsUser(s, a.c)
    ensures u in Step(s, a).v.publishers && Step(s, a).v.publishers[u] == Some(t)
  {
  }

  /** The first publisher of a user stays, with its track, whatever else happens, a second device of that user
      included, until it fails, one of the user's connections is removed, or its next track arrives. */
  lemma {:induction false} PublisherStays(userOf: Conn -> User, acts: seq<Action>, n: nat, u: User, t: Track)
    requires n <= |acts| && forall i :: n <= i < |acts| ==> !Unseats(Trace(userOf, acts[..i]), acts[i], u)
    requires var v := Trace(userOf, acts[..n]).v; u in v.publishers && v.publishers[u] == Some(t)
    ensures var v := Trace(userOf, acts).v; u in v.publishers && v.publishers[u] == Some(t)
    decreases |acts|
  {
    if n == |acts| {
      assert acts[..n] == acts;
    } else {
      var before, a := acts[..|acts| - 1], acts[|acts| - 1];
      assert before[..n] == acts[..n];
      forall i | n <= i < |before| ensures !Unseats(Trace(userOf, before[..i]), before[i], u) {
        assert before[..i] == acts[..i];
      }
      PublisherStays(userOf, before, n, u, t);
      if a.RemoveParticipant? { ConnHolds(userOf, before, a.c); }
      PublisherStaysStep(Trace(userOf, before), a, u, t);
    }
  }

  /** Connection 1 is user a's, all others user b's. */
  function Users(): Conn -> User {
    (c: Conn) => if c == 1 then "a" else "b"
  }

  /** The maps and the number of tracks, connection 1's handler, and what connection 1 has to do with
      publisher b; the handlers of connections 2 and 3 are idle. */
  ghost predicate Scene(s: State, v: Voice, tracks: nat, one: Stage, q: Pair) {
    && s.userOf == Users() && s.v == v && s.tracks == tracks && s.pair(1, "b") == q
    && s.stage(1) == one && s.stage(2).Idle? && s.stage(3).Idle?
  }

  /** A step of HandleOffer, up to the fan-out, moves its own handler only. */
  lemma HandlerMoves(s: State, a: Action, c: Conn)
    requires a == Offer(c) || a == Claim(c) || a == Answered(c, true) || (a == FanOut(c) && c != 1)
    ensures var w := Step(s, a);
            && w.pair(1, "b") == s.pair(1, "b") && w.tracks == s.tracks && w.userOf == s.userOf
            && w.v == NextVoice(s, a) && w.stage(c) == NextStage(s, a, c)
            && forall x: Conn :: x != c ==> w.stage(x) == s.stage(x)
  {
  }

  /** The same, in a run. */
  lemma HandlerSteps(acts0: seq<Action>, a: Action, c: Conn) returns (acts: seq<Action>)
    requires a == Offer(c) || a == Claim(c) || a == Answered(c, true)
    ensures var s, w := Trace(Users(), acts0), Trace(Users(), acts);
            && w.pair(1, "b") == s.pair(1, "b") && w.tracks == s.tracks && w.userOf == s.userOf
            && w.v == NextVoice(s, a) && w.stage(c) == NextStage(s, a, c)
            && forall x: Conn :: x != c ==> w.stage(x) == s.stage(x)
  {
    Snoc(acts0, a);
    HandlerMoves(Trace(Users(), acts0), a, c);
    acts := acts0 + [a];
  }

  /** A connection registers and claims its user's publisher. */
  lemma HandlerClaims(acts0: seq<Action>, c: Conn) returns (acts: seq<Action>)
    requires var s := Trace(Users(), acts0);
             s.userOf == Users() && s.stage(c).Idle? && !s.v.closed && Users()(c) !in s.v.publishers
    ensures var s, w, u := Trace(Users(), acts0), Trace(Users(), acts), Users()(c);
            && w.pair(1, "b") == s.pair(1, "b") && w.tracks == s.tracks && w.userOf == s.userOf
            && w.v == s.v.(publishers := s.v.publishers[u := None], participants := s.v.participants[c := u])
            && w.stage(c).Negotiating? && forall x: Conn :: x != c ==> w.stage(x) == s.stage(x)
  {
    var v, u := Trace(Users(), acts0).v, Users()(c);
    acts := HandlerSteps(acts0, Offer(c), c);
    assert Trace(Users(), acts).v == v.(participants := v.participants[c := u]);
    acts := HandlerSteps(acts, Claim(c), c);
  }

  /** A connection's whole handler, up to the fan-out: it becomes its user's publisher. */
  lemma HandlerRuns(acts0: seq<Action>, c: Conn) returns (acts: seq<Action>)
    requires var s := Trace(Users(), acts0);
             s.userOf == Users() && s.stage(c).Idle? && !s.v.closed && Users()(c) !in s.v.publishers
    ensures var s, w, u := Trace(Users(), acts0), Trace(Users(), acts), Users()(c);
            && w.pair(1, "b") == s.pair(1, "b") && w.tracks == s.tracks && w.userOf == s.userOf
            && w.v == s.v.(publishers := s.v.publishers[u := None], participants := s.v.participants[c := u])
            && w.stage(c).FanningOut? && forall x: Conn :: x != c ==> w.stage(x) == s.stage(x)
  {
    acts := HandlerClaims(acts0, c);
    acts := HandlerSteps(acts, Answered(c, true), c);
  }

  /** The end of a handler of user b: nothing for listener 1. */
  lemma HandlerEnds(acts0: seq<Action>, c: Conn) returns (acts: seq<Action>)
    requires (c == 2 || c == 3) && Trace(Users(), acts0).stage(c).FanningOut?
    ensures var s, w := Trace(Users(), acts0), Trace(Users(), acts);
            && w.pair(1, "b") == s.pair(1, "b") && w.tracks == s.tracks && w.userOf == s.userOf && w.v == s.v
            && w.stage(c).Idle? && forall x: Conn :: x != c ==> w.stage(x) == s.stage(x)
  {
    Snoc(acts0, FanOut(c));
    HandlerMoves(Trace(Users(), acts0), FanOut(c), c);
    acts := acts0 + [FanOut(c)];
  }

  /** Connection c, of user b, becomes publisher b, without a track yet. */
  lemma PublisherJoins(acts0: seq<Action>, c: Conn, v: Voice, tracks: nat, q: Pair) returns (acts: seq<Action>)
    requires Scene(Trace(Users(), acts0), v, tracks, Idle, q)
    requires (c == 2 || c == 3) && !v.closed && "b" !in v.publishers
    ensures Scene(Trace(Users(), acts),
                  v.(publishers := v.publishers["b" := None], participants := v.participants[c := "b"]),
                  tracks, Idle, q)
  {
    acts := HandlerRuns(acts0, c);
    acts := HandlerEnds(acts, c);
  }

  /** Publisher b's track arrives. */
  lemma TrackOfB(acts0: seq<Action>, v: Voice, n: nat, one: Stage, q: Pair) returns (acts: seq<Action>)
    requires Scene(Trace(Users(), acts0), v, n, one, q)
    requires "b" in v.publishers && 1 in v.participants && v.participants[1] == "a"
    ensures Scene(Trace(Users(), acts), v.(publishers := v.publishers["b" := Some(n)]), n + 1, one,
                  q.(tasks := q.tasks + multiset{n}))
  {
    Snoc(acts0, TrackArrives("b", true));
    acts := acts0 + [TrackArrives("b", true)];
    assert 1 in Targets(v, "b");
  }

  /** Listener 1 fans out while b has track 0. */
  lemma FanOutToListener(acts0: seq<Action>, v: Voice, n: nat, q: Pair) returns (acts: seq<Action>)
    requires Scene(Trace(Users(), acts0), v, n, FanningOut, q) && "b" in v.publishers && v.publishers["b"] == Some(0)
    ensures Scene(Trace(Users(), acts), v, n, Idle, q.(tasks := q.tasks + multiset{0}))
  {
    Snoc(acts0, FanOut(1));
    acts := acts0 + [FanOut(1)];
    assert "b" in Known(v, "a");
  }

  /** A task inserts the entry of its track. */
  lemma TaskInserts(acts0: seq<Action>, v: Voice, n: nat, q: Pair, t: Track) returns (acts: seq<Action>)
    requires Scene(Trace(Users(), acts0), v, n, Idle, q) && t in q.tasks && Insertable(v, 1, "b")
    ensures Scene(Trace(Users(), acts), v.(subs := v.subs[(1, "b") := t]), n, Idle,
                  q.(tasks := q.tasks - multiset{t}, sending := q.sending + multiset{t},
                     inserted := q.inserted + multiset{t}))
  {
    Snoc(acts0, Insert(1, "b", t));
    acts := acts0 + [Insert(1, "b", t)];
  }

  /** A task finds an entry, its own track's or another's. */
  lemma TaskFinds(acts0: seq<Action>, v: Voice, n: nat, q: Pair, t: Track) returns (acts: seq<Action>)
    requires Scene(Trace(Users(), acts0), v, n, Idle, q) && t in q.tasks && !v.closed && (1, "b") in v.subs
    ensures Scene(Trace(Users(), acts), v, n, Idle,
                  q.(tasks := q.tasks - multiset{t},
                     blocked := if v.subs[(1, "b")] == t then q.blocked else q.blocked + {t}))
  {
    Snoc(acts0, Insert(1, "b", t));
    acts := acts0 + [Insert(1, "b", t)];
  }

  lemma TaskSends(acts0: seq<Action>, v: Voice, n: nat, q: Pair, t: Track) returns (acts: seq<Action>)
    requires Scene(Trace(Users(), acts0), v, n, Idle, q) && t in q.sending
    ensures Scene(Trace(Users(), acts), v, n, Idle, q.(sending := q.sending - multiset{t}, log := q.log + [t]))
  {
    Snoc(acts0, Send(1, "b", t));
    acts := acts0 + [Send(1, "b", t)];
  }

  /** Connection 2 of user b is removed. */
  lemma PublisherLeaves(acts0: seq<Action>, v: Voice, n: nat, q: Pair) returns (acts: seq<Action>)
    requires Scene(Trace(Users(), acts0), v, n, Idle, q) && v.participants == map[2 := "b", 1 := "a"]
    ensures Scene(Trace(Users(), acts), RemoveConn(v, 2), n, Idle,
                  q.(removed := q.removed + Present(v, 1, "b"), disturbed := true))
  {
    assert (1, "b") !in RemoveConn(v, 2).subs;
    Snoc(acts0, RemoveParticipant(2));
    acts := acts0 + [RemoveParticipant(2)];
    assert Trace(Users(), acts).v == RemoveConn(v, 2);
    assert Deleted(Trace(Users(), acts0), RemoveParticipant(2), 1, "b") == Present(v, 1, "b");
  }

  /** Connections 1 and 2 take part, and publisher b has the given track. */
  function TwoJoined(track: Option<Track>): Voice {
    Voice(map["b" := track, "a" := None], map[2 := "b", 1 := "a"], map[], false)
  }

  /** Publisher b and listener 1 join; 1's handler has still to fan out. */
  lemma BothJoin() returns (acts: seq<Action>)
    ensures Scene(Trace(Users(), acts), TwoJoined(None), 0, FanningOut, NewPair())
  {
    assert Scene(Trace(Users(), []), Empty(false), 0, Idle, NewPair());
    acts := PublisherJoins([], 2, Empty(false), 0, NewPair());
    acts := HandlerRuns(acts, 1);
  }

  /** Listener 1 is there, b's track arrives, and 1's handler fans out: two tasks for one pair. */
  lemma TwoTasks() returns (acts: seq<Action>)
    ensures Scene(Trace(Users(), acts), TwoJoined(Some(0)), 1, Idle, NewPair().(tasks := multiset{0, 0}))
  {
    acts := BothJoin();
    assert TwoJoined(None).(publishers := TwoJoined(None).publishers["b" := Some(0)]) == TwoJoined(Some(0));
    acts := TrackOfB(acts, TwoJoined(None), 0, FanningOut, NewPair());
    acts := FanOutToListener(acts, TwoJoined(Some(0)), 1, NewPair().(tasks := multiset{0}));
  }

  /** One task has inserted an entry, whose offer is on its way. */
  lemma OneOnItsWay() returns (acts: seq<Action>)
    ensures Scene(Trace(Users(), acts), TwoJoined(Some(0)).(subs := map[(1, "b") := 0]), 1, Idle,
                  NewPair().(tasks := multiset{0}, sending := multiset{0}, inserted := multiset{0}))
  {
    acts := TwoTasks();
    assert TwoJoined(Some(0)).subs[(1, "b") := 0] == map[(1, "b") := 0];
    acts := TaskInserts(acts, TwoJoined(Some(0)), 1, NewPair().(tasks := multiset{0, 0}), 0);
  }

  lemma OnlyListenerLeft(v: Voice)
    requires v == TwoJoined(Some(0)).(subs := map[(1, "b") := 0]) || v == TwoJoined(Some(0))
    ensures RemoveConn(v, 2) == ListenerAlone(map[])
  {
  }

  /** Then the publisher is removed. */
  lemma RemovedInBetween() returns (acts: seq<Action>)
    ensures Scene(Trace(Users(), acts), ListenerAlone(map[]), 1, Idle,
                  Pair(multiset{0}, multiset{0}, [], multiset{0}, multiset{}, 1, true, 0, {}))
  {
    acts := OneOnItsWay();
    var v := TwoJoined(Some(0)).(subs := map[(1, "b") := 0]);
    OnlyListenerLeft(v);
    acts := PublisherLeaves(acts, v, 1,
                            NewPair().(tasks := multiset{0}, sending := multiset{0}, inserted := multiset{0}));
  }

  /** Two offers between two removals: both tasks run, the first before the publisher is removed and the
      second after it, and both offers go out afterwards to a listener that is still there. */
  lemma TwoOffersAfterRemoval()
    ensures exists acts, more ::
              var s, w := Trace(Users(), acts), Trace(Users(), acts + more);
              && 1 in w.v.participants && w.pair(1, "b").removed == s.pair(1, "b").removed == 1
              && s.pair(1, "b").log == [] && |w.pair(1, "b").log| == 2
  {
    var acts := RemovedInBetween();
    PairHolds(Users(), acts, 1, "b");
    var more := BoundIsReached(Users(), acts, 1, "b");
  }

  /** The publisher was removed with both tasks still to come. */
  lemma TasksOutlive() returns (acts: seq<Action>)
    ensures Scene(Trace(Users(), acts), ListenerAlone(map[]), 1, Idle,
                  NewPair().(tasks := multiset{0, 0}, disturbed := true))
  {
    acts := TwoTasks();
    OnlyListenerLeft(TwoJoined(Some(0)));
    acts := PublisherLeaves(acts, TwoJoined(Some(0)), 1, NewPair().(tasks := multiset{0, 0}));
  }

  function ListenerAlone(subs: map<(Conn, User), Track>): Voice {
    Voice(map["a" := None], map[1 := "a"], subs, false)
  }

  /** One of them then inserts an entry and sends its offer. */
  lemma StaleEntry() returns (acts: seq<Action>)
    ensures Scene(Trace(Users(), acts), ListenerAlone(map[(1, "b") := 0]), 1, Idle,
                  NewPair().(log := [0], inserted := multiset{0}, disturbed := true))
  {
    acts := TasksOutlive();
    acts := TaskInserts(acts, ListenerAlone(map[]), 1, NewPair().(tasks := multiset{0, 0}, disturbed := true), 0);
    var v := ListenerAlone(map[(1, "b") := 0]);
    var q := NewPair().(sending := multiset{0}, inserted := multiset{0}, disturbed := true);
    assert ListenerAlone(map[]).(subs := map[][(1, "b") := 0]) == v;
    acts := TaskFinds(acts, v, 1, q.(tasks := multiset{0}), 0);
    acts := TaskSends(acts, v, 1, q, 0);
  }

  /** Publisher b is back on connection 3, and has the given track. */
  function Returned(track: Option<Track>): Voice {
    Voice(map["a" := None, "b" := track], map[1 := "a", 3 := "b"], map[(1, "b") := 0], false)
  }

  lemma PublisherReturns() returns (acts: seq<Action>)
    ensures Scene(Trace(Users(), acts), Returned(None), 1, Idle,
                  NewPair().(log := [0], inserted := multiset{0}, disturbed := true))
  {
    acts := StaleEntry();
    acts := PublisherJoins(acts, 3, ListenerAlone(map[(1, "b") := 0]), 1,
                           NewPair().(log := [0], inserted := multiset{0}, disturbed := true));
  }

  lemma NewTrack() returns (acts: seq<Action>)
    ensures Scene(Trace(Users(), acts), Returned(Some(1)), 2, Idle,
                  NewPair().(tasks := multiset{1}, log := [0], inserted := multiset{0}, disturbed := true))
  {
    acts := PublisherReturns();
    assert Returned(None).publishers["b" := Some(1)] == Returned(Some(1)).publishers;
    acts := TrackOfB(acts, Returned(None), 1, Idle, NewPair().(log := [0], inserted := multiset{0}, disturbed := true));
  }

  /** Its new track has arrived, and the one task for it found the entry of the old one. */
  lemma NewTrackBlocked() returns (acts: seq<Action>)
    ensures Scene(Trace(Users(), acts), Returned(Some(1)), 2, Idle,
                  NewPair().(log := [0], inserted := multiset{0}, disturbed := true, blocked := {1}))
  {
    acts := NewTrack();
    acts := TaskFinds(acts, Returned(Some(1)), 2,
                      NewPair().(tasks := multiset{1}, log := [0], inserted := multiset{0}, disturbed := true), 1);
  }

  /** A publisher that returns is missed: user b's new track finds the entry of its old one, and listener
      1, which nothing has failed since, is never offered it. */
  lemma ReturningPublisherIsMissed()
    ensures exists acts ::
              var s := Trace(Users(), acts); var q := s.pair(1, "b");
              && Owed(s, 1, "b") && q.spoiled <= Current(s, "b")
              && q.tasks == multiset{} && q.sending == multiset{} && s.stage(1).Idle?
              && Current(s, "b") !in q.log
  {
    var acts := NewTrackBlocked();
    var s := Trace(Users(), acts);
    assert s.v.publishers["b"] == Some(1);
  }

  /** So is a second track of a publisher that never left. */
  lemma SecondTrackIsMissed()
    ensures exists acts ::
              var s := Trace(Users(), acts); var q := s.pair(1, "b");
              && Owed(s, 1, "b") && !q.disturbed && q.removed == 0 && q.spoiled == 0
              && q.tasks == multiset{} && q.sending == multiset{} && s.stage(1).Idle?
              && |q.log| == 1 && Current(s, "b") !in q.log
  {
    var acts := FirstTrackSent();
    var v := TwoJoined(Some(0)).(subs := map[(1, "b") := 0]);
    var q := NewPair().(log := [0], inserted := multiset{0});
    acts := TrackOfB(acts, v, 1, Idle, q);
    v, q := v.(publishers := v.publishers["b" := Some(1)]), q.(tasks := multiset{1});
    acts := TaskFinds(acts, v, 2, q, 1);
    assert Trace(Users(), acts).v == v;
  }

  /** Both tasks for b's first track have run, and its offer is sent. */
  lemma FirstTrackSent() returns (acts: seq<Action>)
    ensures Scene(Trace(Users(), acts), TwoJoined(Some(0)).(subs := map[(1, "b") := 0]), 1, Idle,
                  NewPair().(log := [0], inserted := multiset{0}))
  {
    var v := TwoJoined(Some(0)).(subs := map[(1, "b") := 0]);
    acts := OneOnItsWay();
    acts := TaskFinds(acts, v, 1, NewPair().(tasks := multiset{0}, sending := multiset{0}, inserted := multiset{0}), 0);
    acts := TaskSends(acts, v, 1, NewPair().(sending := multiset{0}, inserted := multiset{0}), 0);
  }
}
