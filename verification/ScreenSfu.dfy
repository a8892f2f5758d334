// The screen SFU: its viewer map and deferred offers, and the race between a viewer that joins and a
// publisher that announces "sfu". Peer connections are opaque.

module ScreenSfuSpec {
  import opened Common

  /** One sfuViewer: the AddViewer call that made it, and whether its offer is out or claimed. */
  datatype Viewer = Viewer(call: nat, offerSent: bool)

  datatype Sfu = Sfu(viewers: map<Conn, Viewer>, localTrack: bool, closed: bool)

  /** The first section of AddViewer lets the call go on. */
  predicate MayAdd(s: Sfu, c: Conn) {
    !s.closed && c !in s.viewers
  }

  /** The second section: existence is not checked again. */
  function Inserted(s: Sfu, c: Conn, call: nat): Sfu {
    if s.closed then s else s.(viewers := s.viewers[c := Viewer(call, false)])
  }

  /** AddViewer's own claim of the offer. */
  function Claimed(s: Sfu, call: nat): Sfu {
    s.(viewers := map c | c in s.viewers ::
         if s.viewers[c].call == call then s.viewers[c].(offerSent := true) else s.viewers[c])
  }

  /** The viewers whose offer was deferred until the track. */
  function Deferred(s: Sfu): set<Conn> {
    set c | c in s.viewers && !s.viewers[c].offerSent
  }

  function TrackKnown(s: Sfu): Sfu {
    s.(localTrack := true, viewers := map c | c in s.viewers :: s.viewers[c].(offerSent := true))
  }

  function Removed(s: Sfu, c: Conn): Sfu {
    s.(viewers := s.viewers - {c})
  }

  function Closed(s: Sfu): Sfu {
    if s.closed then s else s.(viewers := map[], closed := true)
  }
}

module ScreenSfuImpl {
  import opened Common
  import opened ScreenSfuSpec
  import IceGate

  class SfuViewer {
    const call: nat
    const gate: IceGate.Gate
    var offerSent: bool

    constructor (call: nat, gate: IceGate.Gate)
      ensures this.call == call && !offerSent
    {
      this.call, this.gate, offerSent := call, gate, false;
    }
  }

  class ScreenSFU {
    var viewers: map<Conn, SfuViewer>
    var localTrack: bool
    var closed: bool

    constructor ()
      ensures Valid() && View() == Sfu(map[], false, false)
    {
      viewers, localTrack, closed := map[], false, false;
    }

    /** Every viewer comes from a call of its own. */
    ghost predicate Valid()
      reads this
    {
      forall a, b :: a in viewers && b in viewers && a != b ==> viewers[a].call != viewers[b].call
    }

    ghost function View(): Sfu
      reads this, viewers.Values
    {
      Sfu(map c | c in viewers :: Viewer(viewers[c].call, viewers[c].offerSent), localTrack, closed)
    }

    method Insert(c: Conn, viewer: SfuViewer) returns (trackKnown: bool)
      requires Valid() && !viewer.offerSent && forall a :: a in viewers ==> viewers[a].call != viewer.call
      modifies this`viewers
      ensures Valid() && View() == Inserted(old(View()), c, viewer.call)
      ensures viewers == if closed then old(viewers) else old(viewers)[c := viewer]
      ensures trackKnown == (!closed && localTrack)
    {
      if closed {
        return false;
      }
      viewers := viewers[c := viewer];
      return localTrack;
    }

    method ClaimOffer(viewer: SfuViewer)
      requires Valid() && forall a :: a in viewers && viewers[a].call == viewer.call ==> viewers[a] == viewer
      modifies viewer`offerSent
      ensures Valid() && View() == Claimed(old(View()), viewer.call)
    {
      viewer.offerSent := true;
    }

    /** onPublisherTrack's section: the viewers to offer now. */
    method OnPublisherTrack() returns (pending: set<Conn>)
      requires Valid()
      modifies this`localTrack, viewers.Values
      ensures Valid() && View() == TrackKnown(old(View())) && pending == Deferred(old(View()))
    {
      localTrack := true;
      pending := ClaimDeferred();
    }

    /** Its loop over the viewers. */
    method ClaimDeferred() returns (pending: set<Conn>)
      requires Valid()
      modifies viewers.Values
      ensures forall c :: c in viewers ==> viewers[c].offerSent
      ensures pending == set c | c in viewers && !old(viewers[c].offerSent)
    {
      pending := {};
      var todo := viewers.Keys;
      while todo != {}
        invariant todo <= viewers.Keys
        invariant pending == set c | c in viewers.Keys - todo && !old(viewers[c].offerSent)
        invariant forall c :: c in viewers ==>
                                viewers[c].offerSent == if c in todo then old(viewers[c].offerSent) else true
      {
        var c :| c in todo;
        todo := todo - {c};
        if !viewers[c].offerSent {
          viewers[c].offerSent := true;
          pending := pending + {c};
        }
      }
    }

    /** Returns the viewer whose peer connection is to be closed, if there is one. */
    method Remove(c: Conn) returns (viewer: SfuViewer?)
      requires Valid()
      modifies this`viewers
      ensures Valid() && View() == Removed(old(View()), c)
      ensures viewers == old(viewers) - {c}
      ensures viewer == if c in old(viewers) then old(viewers)[c] else null
    {
      viewer := if c in viewers then viewers[c] else null;
      viewers := viewers - {c};
    }

    /** Returns the viewers whose peer connections are to be closed; nothing the second time. */
    method Close() returns (closing: set<SfuViewer>)
      requires Valid()
      modifies this`viewers, this`closed
      ensures Valid() && View() == Closed(old(View()))
      ensures closed && (!old(closed) ==> viewers == map[])
      ensures closing == if old(closed) then {} else old(viewers).Values
    {
      if closed {
        return {};
      }
      closed := true;
      closing := viewers.Values;
      viewers := map[];
    }
  }
}

/** The offers of the screen SFU, over every interleaving of AddViewer calls, track arrivals, offers on their
    way, removals, failures and the close. */
module ScreenOffers {
  import opened Common
  import opened ScreenSfuSpec

  /** Where an AddViewer call is: between its sections, or past them with an offer to claim because the
      track was known. */
  datatype Call = Fresh | Creating(c: Conn) | Claiming(c: Conn) | Done

  /** sending counts the offers claimed for each connection and not sent yet, offers those sent, tracks the
      track arrivals. The rest is history: replaced records the connections for which a call, with the track
      known, inserted a viewer where there was one; raced those with a viewer still unclaimed when a further
      track arrived; overlapped those for which two calls ran at once; disturbed those removed or failed. */
  datatype State = State(sfu: Sfu, call: nat -> Call, sending: Conn -> nat, offers: Conn -> nat, tracks: nat,
                         replaced: Conn -> bool, raced: Conn -> bool, overlapped: Conn -> bool, disturbed: Conn -> bool)

  datatype Action =
    | Begin(i: nat, c: Conn) | Insert(i: nat) | Claim(i: nat) | Fails(i: nat)   // AddViewer
    | Track | Send(c: Conn) | SendFails(c: Conn) | Remove(c: Conn) | Close

  function Init(): State {
    State(Sfu(map[], false, false), (i: nat) => Fresh, (c: Conn) => 0, (c: Conn) => 0, 0,
          (c: Conn) => false, (c: Conn) => false, (c: Conn) => false, (c: Conn) => false)
  }

  predicate Active(s: State, i: nat, c: Conn) {
    s.call(i) == Creating(c) || s.call(i) == Claiming(c)
  }

  function SetCall(s: State, i: nat, pc: Call): State {
    s.(call := (x: nat) => if x == i then pc else s.call(x))
  }

  function OneMore(n: nat): nat {
    n + 1
  }

  /** The offers claimed for a connection after a track arrival. */
  function ClaimedByTrack(s: State, c: Conn): nat {
    s.sending(c) + (if c in Deferred(s.sfu) then 1 else 0)
  }

  /** The check that the second section of AddViewer lacks. */
  predicate Replaces(s: State, i: nat, c: Conn) {
    s.call(i) == Creating(c) && !s.sfu.closed && s.sfu.localTrack && c in s.sfu.viewers
  }

  /** A further track arrives between a call's second section and its claim. */
  predicate Races(s: State, c: Conn) {
    s.sfu.localTrack && c in s.sfu.viewers && !s.sfu.viewers[c].offerSent
  }

  function Disturb(s: State, c: Conn): State {
    s.(disturbed := (x: Conn) => x == c || s.disturbed(x))
  }

  /** One offer on its way less; sent or given up. */
  function OneLess(s: State, c: Conn): State
    requires s.sending(c) > 0
  {
    var n: nat := s.sending(c) - 1;
    s.(sending := (x: Conn) => if x == c then n else s.sending(x))
  }

  /** One step; an action that is not enabled changes nothing. */
  ghost function Step(s: State, a: Action): State {
    match a
    case Begin(i, c) =>
      if s.call(i).Fresh? && MayAdd(s.sfu, c) then
        SetCall(s, i, Creating(c)).(
          overlapped := (x: Conn) => s.overlapped(x) || (x == c && exists k :: Active(s, k, c)))
      else s
    case Insert(i) =>
      if s.call(i).Creating? then
        SetCall(s, i, if !s.sfu.closed && s.sfu.localTrack then Claiming(s.call(i).c) else Done).(
          sfu := Inserted(s.sfu, s.call(i).c, i),
          replaced := (x: Conn) => s.replaced(x) || Replaces(s, i, x))
      else s
    case Claim(i) =>
      if s.call(i).Claiming? then
        SetCall(s, i, Done).(sfu := Claimed(s.sfu, i),
          sending := (x: Conn) => if x == s.call(i).c then OneMore(s.sending(x)) else s.sending(x))
      else s
    case Fails(i) => if s.call(i).Creating? then Disturb(SetCall(s, i, Done), s.call(i).c) else s
    case Track =>
      s.(sfu := TrackKnown(s.sfu), tracks := s.tracks + 1,
         sending := (x: Conn) => ClaimedByTrack(s, x),
         raced := (x: Conn) => s.raced(x) || Races(s, x))
    case Send(c) =>
      if s.sending(c) > 0 then
        OneLess(s, c).(offers := (x: Conn) => if x == c then OneMore(s.offers(x)) else s.offers(x))
      else s
    case SendFails(c) =>
      if s.sending(c) > 0 then Disturb(OneLess(s, c), c).(sfu := Removed(s.sfu, c)) else s
    case Remove(c) => Disturb(s, c).(sfu := Removed(s.sfu, c))
    case Close => s.(sfu := Closed(s.sfu), disturbed := (x: Conn) => true)
  }

  ghost function Trace(acts: seq<Action>): State {
    if acts == [] then Init() else Step(Trace(acts[..|acts| - 1]), acts[|acts| - 1])
  }

  /** A call has an offer to claim for the connection. */
  ghost predicate Claims(s: State, c: Conn) {
    exists i :: s.call(i) == Claiming(c)
  }

  /** The offers claimed, on their way or sent. */
  function Out(s: State, c: Conn): nat {
    s.sending(c) + s.offers(c)
  }

  /** Exactly one offer, claimed or to be claimed by the call that made the viewer. */
  ghost predicate OneOffer(s: State, c: Conn)
    requires c in s.sfu.viewers
  {
    var v := s.sfu.viewers[c];
    if v.offerSent then Out(s, c) == 1 && !Claims(s, c)
    else Out(s, c) == 0 && s.call(v.call) == Claiming(c) && forall k :: s.call(k) == Claiming(c) ==> k == v.call
  }

  /** At least two offers, claimed or to be claimed. */
  ghost predicate TwoOffers(s: State, c: Conn) {
    || Out(s, c) >= 2
    || (Out(s, c) == 1 && Claims(s, c))
    || exists i, k :: i != k && s.call(i) == Claiming(c) == s.call(k)
  }

  predicate Repeats(s: State, c: Conn) {
    s.replaced(c) || s.raced(c)
  }

  /** While nothing is disturbed: no offer before the track or the viewer; then one, unless a viewer was
      replaced or a track raced a claim, and more if so. */
  ghost predicate OfferInv(s: State, c: Conn) {
    && (s.sfu.localTrack <==> s.tracks > 0)
    && (s.tracks == 0 || c !in s.sfu.viewers ==> Out(s, c) == 0 && !Claims(s, c) && !Repeats(s, c))
    && (s.tracks == 0 ==> (forall k :: !s.call(k).Claiming?) && (c in s.sfu.viewers ==> !s.sfu.viewers[c].offerSent))
    && (s.tracks > 0 && c in s.sfu.viewers ==> if Repeats(s, c) then TwoOffers(s, c) else OneOffer(s, c))
  }

  lemma SameOffers(s: State, t: State, c: Conn)
    requires OfferInv(s, c) && t.sfu == s.sfu && Out(t, c) == Out(s, c)
    requires t.tracks == s.tracks && Repeats(t, c) == Repeats(s, c)
    requires forall k :: t.call(k).Claiming? <==> s.call(k).Claiming?
    requires forall k :: t.call(k) == Claiming(c) <==> s.call(k) == Claiming(c)
    ensures OfferInv(t, c)
  {
  }

  /** Two states alike for connection c. */
  lemma SameClaims(s: State, t: State, c: Conn)
    requires forall k :: t.call(k) == Claiming(c) <==> s.call(k) == Claiming(c)
    requires Out(t, c) == Out(s, c) && (c in t.sfu.viewers <==> c in s.sfu.viewers)
    requires c in s.sfu.viewers ==> t.sfu.viewers[c] == s.sfu.viewers[c]
    ensures c in s.sfu.viewers ==> (OneOffer(t, c) <==> OneOffer(s, c))
    ensures TwoOffers(t, c) <==> TwoOffers(s, c)
    ensures Claims(t, c) <==> Claims(s, c)
  {
  }

  lemma InsertStep(s: State, i: nat, c: Conn)
    requires OfferInv(s, c) && !s.sfu.closed
    ensures OfferInv(Step(s, Insert(i)), c)
  {
    var t := Step(s, Insert(i));
    if s.call(i) == Creating(c) {
      if s.sfu.localTrack {
        assert t.call(i) == Claiming(c);
        forall k ensures t.call(k) == Claiming(c) <==> s.call(k) == Claiming(c) || k == i {}
      }
    } else {
      SameClaims(s, t, c);
    }
  }

  lemma ClaimStep(s: State, i: nat, c: Conn)
    requires OfferInv(s, c)
    ensures OfferInv(Step(s, Claim(i)), c)
  {
    var t := Step(s, Claim(i));
    if s.call(i) == Claiming(c) {
      forall k ensures t.call(k) == Claiming(c) <==> s.call(k) == Claiming(c) && k != i {}
      if Out(s, c) == 0 && TwoOffers(s, c) { OtherClaims(s, i, c); }
    } else if s.call(i).Claiming? {
      OtherClaim(s, i, c);
    }
  }

  /** A claim for another connection. */
  lemma OtherClaim(s: State, i: nat, c: Conn)
    requires OfferInv(s, c) && s.call(i).Claiming? && s.call(i) != Claiming(c)
    ensures OfferInv(Step(s, Claim(i)), c)
  {
    var t := Step(s, Claim(i));
    forall k ensures t.call(k) == Claiming(c) <==> s.call(k) == Claiming(c) {}
    assert Claims(t, c) <==> Claims(s, c);
    assert TwoOffers(s, c) ==> TwoOffers(t, c);
  }

  lemma OtherClaims(s: State, i: nat, c: Conn)
    requires Out(s, c) == 0 && TwoOffers(s, c)
    ensures exists k :: k != i && s.call(k) == Claiming(c)
  {
    var j: nat, k: nat :| j != k && s.call(j) == Claiming(c) == s.call(k);
    assert s.call(if j == i then k else j) == Claiming(c);
  }

  lemma TrackStep(s: State, c: Conn)
    requires OfferInv(s, c)
    ensures OfferInv(Step(s, Track), c)
  {
    var t := Step(s, Track);
    forall k ensures t.call(k) == Claiming(c) <==> s.call(k) == Claiming(c) {}
  }

  lemma OfferStep(s: State, a: Action, c: Conn)
    requires OfferInv(s, c) && !s.sfu.closed && !Step(s, a).disturbed(c)
    ensures OfferInv(Step(s, a), c)
  {
    match a {
      case Insert(i) => InsertStep(s, i, c);
      case Claim(i) => ClaimStep(s, i, c);
      case Track => TrackStep(s, c);
      case Close =>
      case Remove(_) =>
      case SendFails(_) =>
      case _ => SameOffers(s, Step(s, a), c);
    }
  }

  lemma ClosedStep(s: State, a: Action, c: Conn)
    requires s.sfu.closed ==> s.disturbed(c)
    ensures Step(s, a).sfu.closed ==> Step(s, a).disturbed(c)
    ensures s.disturbed(c) ==> Step(s, a).disturbed(c)
  {
  }

  lemma {:induction false} InvHolds(acts: seq<Action>, c: Conn)
    ensures var s := Trace(acts); (s.sfu.closed ==> s.disturbed(c)) && (!s.disturbed(c) ==> OfferInv(s, c))
    decreases |acts|
  {
    if acts != [] {
      var s, a := Trace(acts[..|acts| - 1]), acts[|acts| - 1];
      InvHolds(acts[..|acts| - 1], c);
      ClosedStep(s, a, c);
      if !Step(s, a).disturbed(c) { OfferStep(s, a, c); }
    }
  }

  /** For a connection that was not removed and did not fail, whatever the number of tracks: once added, with
      no call still to claim and nothing on its way, it has been sent exactly one offer if a track has
      arrived, whether before or after it was added, and none if not. This holds exactly if no call has
      replaced a viewer of that connection with the track known, and no further track has arrived between a
      call's second section and its claim; and it is sent at least that. */
  lemma {:induction false} ExactlyOneOfferIff(acts: seq<Action>, c: Conn)
    requires var s := Trace(acts);
             && !s.disturbed(c) && c in s.sfu.viewers
             && s.sending(c) == 0 && forall i :: s.call(i) != Claiming(c)
    ensures var s := Trace(acts); var due := if s.tracks > 0 then 1 else 0;
            s.offers(c) >= due && (s.offers(c) == due <==> !s.replaced(c) && !s.raced(c))
  {
    InvHolds(acts, c);
  }

  /** Calls that never overlap: at most one is active, and none still has to insert once one has. */
  ghost predicate Apart(s: State, c: Conn) {
    && (forall i, k :: s.call(i) == Creating(c) == s.call(k) ==> i == k)
    && (c in s.sfu.viewers ==> forall i :: s.call(i) != Creating(c))
    && !s.replaced(c)
  }

  lemma ApartBegin(s: State, i: nat, x: Conn, c: Conn)
    requires Apart(s, c) && !Step(s, Begin(i, x)).overlapped(c)
    ensures Apart(Step(s, Begin(i, x)), c)
  {
    var t := Step(s, Begin(i, x));
    if s.call(i).Fresh? && MayAdd(s.sfu, x) && x == c {
      assert forall k :: !Active(s, k, c);
      forall k ensures t.call(k) == Creating(c) ==> k == i { assert !Active(s, k, c); }
    }
  }

  lemma ApartStep(s: State, a: Action, c: Conn)
    requires Apart(s, c) && !Step(s, a).overlapped(c)
    ensures Apart(Step(s, a), c)
  {
    if a.Begin? { ApartBegin(s, a.i, a.c, c); }
  }

  /** It takes overlapping calls for a viewer to be replaced. */
  lemma {:induction false} ReplacingTakesOverlap(acts: seq<Action>, c: Conn)
    requires !Trace(acts).overlapped(c)
    ensures !Trace(acts).replaced(c) && Apart(Trace(acts), c)
    decreases |acts|
  {
    if acts != [] {
      ReplacingTakesOverlap(acts[..|acts| - 1], c);
      ApartStep(Trace(acts[..|acts| - 1]), acts[|acts| - 1], c);
    }
  }

  /** It takes a second track for one to race a claim. */
  lemma {:induction false} RacingTakesTwoTracks(acts: seq<Action>, c: Conn)
    ensures var s := Trace(acts); (s.sfu.localTrack ==> s.tracks > 0) && (s.raced(c) ==> s.tracks > 1)
    decreases |acts|
  {
    if acts != [] {
      RacingTakesTwoTracks(acts[..|acts| - 1], c);
      RacingStep(Trace(acts[..|acts| - 1]), acts[|acts| - 1], c);
    }
  }

  lemma RacingStep(s: State, a: Action, c: Conn)
    requires (s.sfu.localTrack ==> s.tracks > 0) && (s.raced(c) ==> s.tracks > 1)
    ensures var t := Step(s, a); (t.sfu.localTrack ==> t.tracks > 0) && (t.raced(c) ==> t.tracks > 1)
  {
  }

  /** A viewer that was removed, or whose offer failed, can be added again while the SFU is open, and no other
      viewer is touched. */
  lemma RemovedCanBeAdded(acts: seq<Action>, a: Action, c: Conn)
    requires !Trace(acts).sfu.closed
    requires a == Remove(c) || (a == SendFails(c) && Trace(acts).sending(c) > 0)
    ensures var s, t := Trace(acts), Trace(acts + [a]);
            && MayAdd(t.sfu, c) && c !in t.sfu.viewers && t.sfu.localTrack == s.sfu.localTrack
            && forall x :: x != c ==>
                 && (x in t.sfu.viewers <==> x in s.sfu.viewers)
                 && (x in s.sfu.viewers ==> t.sfu.viewers[x] == s.sfu.viewers[x])
  {
    Snoc(acts, a);
    assert Trace(acts + [a]) == Step(Trace(acts), a);
  }

  /** A viewer is displaced by a later call's insertion for its connection, a removal or failure, or the close. */
  predicate Displaces(s: State, a: Action, c: Conn) {
    a.Close? || a == Remove(c) || a == SendFails(c) || (a.Insert? && s.call(a.i) == Creating(c))
  }

  lemma InsertedStep(s: State, i: nat, c: Conn)
    requires !s.sfu.closed && s.call(i) == Creating(c)
    ensures var t := Step(s, Insert(i));
            && t.sfu.viewers == s.sfu.viewers[c := Viewer(i, false)] && !t.sfu.closed
            && t.call(i) == if s.sfu.localTrack then Claiming(c) else Done
  {
  }

  lemma StaysStep(s: State, a: Action, i: nat, c: Conn)
    requires c in s.sfu.viewers && s.sfu.viewers[c].call == i && !Displaces(s, a, c)
    ensures c in Step(s, a).sfu.viewers && Step(s, a).sfu.viewers[c].call == i
  {
  }

  /** On an open SFU a call that inserts replaces the viewer of its connection, if there is one, and no other. */
  lemma InsertReplaces(acts: seq<Action>, i: nat, c: Conn)
    requires !Trace(acts).sfu.closed && Trace(acts).call(i) == Creating(c)
    ensures Trace(acts + [Insert(i)]).sfu.viewers == Trace(acts).sfu.viewers[c := Viewer(i, false)]
    ensures Trace(acts + [Insert(i)]).call(i) == if Trace(acts).sfu.localTrack then Claiming(c) else Done
  {
    Snoc(acts, Insert(i));
    InsertedStep(Trace(acts), i, c);
  }

  /** And a viewer stays, that of the same call, whatever else happens, until it is displaced. */
  lemma {:induction false} ViewerStays(acts: seq<Action>, n: nat, i: nat, c: Conn)
    requires n <= |acts| && forall k :: n <= k < |acts| ==> !Displaces(Trace(acts[..k]), acts[k], c)
    requires var v := Trace(acts[..n]).sfu.viewers; c in v && v[c].call == i
    ensures var v := Trace(acts).sfu.viewers; c in v && v[c].call == i
    decreases |acts|
  {
    if n == |acts| {
      assert acts[..n] == acts;
    } else {
      var before, a := acts[..|acts| - 1], acts[|acts| - 1];
      assert before[..n] == acts[..n];
      forall k | n <= k < |before| ensures !Displaces(Trace(before[..k]), before[k], c) {
        assert before[..k] == acts[..k];
      }
      ViewerStays(before, n, i, c);
      StaysStep(Trace(before), a, i, c);
    }
  }

  predicate ClosedIsEmpty(s: State) {
    s.sfu.closed ==> s.sfu.viewers == map[]
  }

  lemma {:induction false} ClosedHolds(acts: seq<Action>)
    ensures ClosedIsEmpty(Trace(acts))
    decreases |acts|
  {
    if acts != [] {
      ClosedHolds(acts[..|acts| - 1]);
      ClosedIsEmptyStep(Trace(acts[..|acts| - 1]), acts[|acts| - 1]);
    }
  }

  lemma ClosedIsEmptyStep(s: State, a: Action)
    requires ClosedIsEmpty(s)
    ensures ClosedIsEmpty(Step(s, a)) && (s.sfu.closed || a.Close? ==> Step(s, a).sfu.closed)
  {
  }

  /** No call is further on in t than it was in s, on its way to a viewer or an offer. */
  ghost predicate NoneBegan(s: State, t: State) {
    forall i, c :: (t.call(i) == Creating(c) ==> s.call(i) == Creating(c)) &&
                   (t.call(i) == Claiming(c) ==> s.call(i) == Claiming(c))
  }

  lemma NoneBeginsStep(s: State, a: Action)
    requires s.sfu.closed || a.Close?
    ensures NoneBegan(s, Step(s, a))
  {
  }

  /** Once closed the SFU stays closed and without viewers: no call inserts one, claims an offer that was not
      to be claimed already, or even passes the first check. */
  lemma {:induction false} ClosedForGood(acts: seq<Action>, more: seq<Action>)
    ensures var t := Trace(acts + [Close] + more);
            t.sfu.closed && t.sfu.viewers == map[] && NoneBegan(Trace(acts), t)
    decreases |more|
  {
    if more == [] {
      Snoc(acts, Close);
      assert acts + [Close] + [] == acts + [Close];
      ClosedHolds(acts);
      ClosedIsEmptyStep(Trace(acts), Close);
      NoneBeginsStep(Trace(acts), Close);
    } else {
      var before, a := more[..|more| - 1], more[|more| - 1];
      ClosedForGood(acts, before);
      Snoc(acts + [Close] + before, a);
      assert acts + [Close] + before + [a] == acts + [Close] + more;
      ClosedIsEmptyStep(Trace(acts + [Close] + before), a);
      NoneBeginsStep(Trace(acts + [Close] + before), a);
    }
  }

  /** A first track, and nothing else. */
  lemma FirstTrack(c: Conn) returns (acts: seq<Action>)
    ensures var s := Trace(acts);
            && s.sfu == Sfu(map[], true, false) && (forall k :: s.call(k).Fresh?) && s.tracks == 1
            && Out(s, c) == 0 && !s.disturbed(c) && !s.overlapped(c) && !s.replaced(c)
  {
    acts := [Track];
    assert acts[..0] == [] && acts[0] == Track;
    assert Trace([]) == Init();
    assert Trace(acts) == Step(Init(), Track);
    assert Trace(acts).sfu == Sfu(map[], true, false);
  }

  /** Two calls pass the check for one connection before either inserts. */
  lemma TwoCallsPass(c: Conn) returns (acts: seq<Action>)
    ensures var s := Trace(acts);
            && s.sfu == Sfu(map[], true, false) && s.call(1) == Creating(c) && s.call(2) == Creating(c)
            && s.tracks == 1 && Out(s, c) == 0 && !s.disturbed(c)
  {
    acts := FirstTrack(c);
    Snoc(acts, Begin(1, c));
    acts := acts + [Begin(1, c)];
    assert Trace(acts).call(1) == Creating(c);
    Snoc(acts, Begin(2, c));
    acts := acts + [Begin(2, c)];
  }

  /** A call that inserts while the track is known claims an offer. */
  lemma InsertAndClaim(acts0: seq<Action>, i: nat, k: nat, c: Conn) returns (acts: seq<Action>)
    requires var s := Trace(acts0); !s.sfu.closed && s.sfu.localTrack && s.call(i) == Creating(c) && i != k
    ensures var s, t := Trace(acts0), Trace(acts);
            && !t.sfu.closed && t.sfu.localTrack && t.call(k) == s.call(k) && t.offers(c) == s.offers(c)
            && t.sending(c) == s.sending(c) + 1 && t.tracks == s.tracks && t.disturbed(c) == s.disturbed(c)
  {
    Snoc(acts0, Insert(i));
    acts := acts0 + [Insert(i)];
    assert Trace(acts).call(i) == Claiming(c);
    Snoc(acts, Claim(i));
    acts := acts + [Claim(i)];
  }

  /** The two offers on their way are sent. */
  lemma SendBoth(acts0: seq<Action>, c: Conn) returns (acts: seq<Action>)
    requires Trace(acts0).sending(c) == 2
    ensures var s, t := Trace(acts0), Trace(acts);
            && t.sending(c) == 0 && t.offers(c) == s.offers(c) + 2 && t.tracks == s.tracks
            && t.disturbed(c) == s.disturbed(c) && t.overlapped(c) == s.overlapped(c) && t.replaced(c) == s.replaced(c)
  {
    Snoc(acts0, Send(c));
    acts := acts0 + [Send(c)];
    assert Trace(acts).sending(c) == 1 && Trace(acts).offers(c) == Trace(acts0).offers(c) + 1;
    Snoc(acts, Send(c));
    acts := acts + [Send(c)];
  }

  /** And both happen: two calls for one connection pass the check, both insert with the track known, and the
      connection is sent two offers. */
  lemma OverlapOffersTwice(c: Conn)
    ensures exists acts :: var s := Trace(acts); s.tracks == 1 && !s.disturbed(c) && s.offers(c) == 2
  {
    var acts := TwoCallsPass(c);
    acts := InsertAndClaim(acts, 1, 2, c);
    acts := InsertAndClaim(acts, 2, 1, c);
    acts := SendBoth(acts, c);
  }

  /** A second track arrives before a single call claims its offer, and both claim one. */
  lemma ClaimRaced(c: Conn) returns (acts: seq<Action>)
    ensures var s := Trace(acts);
            && s.tracks == 2 && !s.disturbed(c) && !s.overlapped(c) && !s.replaced(c)
            && s.sending(c) == 2 && s.offers(c) == 0
  {
    acts := FirstTrack(c);
    Snoc(acts, Begin(1, c));
    acts := acts + [Begin(1, c)];
    assert Trace(acts).call(1) == Creating(c) && !Trace(acts).overlapped(c);
    Snoc(acts, Insert(1));
    acts := acts + [Insert(1)];
    assert Trace(acts).call(1) == Claiming(c) && Trace(acts).sfu.viewers[c] == Viewer(1, false);
    assert !Trace(acts).replaced(c);
    Snoc(acts, Track);
    acts := acts + [Track];
    assert Trace(acts).sending(c) == 1 && Trace(acts).call(1) == Claiming(c);
    Snoc(acts, Claim(1));
    acts := acts + [Claim(1)];
  }

  /** So a single call, with nothing to overlap it, can make for two offers. */
  lemma SecondTrackOffersTwice(c: Conn)
    ensures exists acts :: var s := Trace(acts);
              s.tracks == 2 && !s.disturbed(c) && !s.overlapped(c) && !s.replaced(c) && s.offers(c) == 2
  {
    var acts := ClaimRaced(c);
    acts := SendBoth(acts, c);
  }
}

/** A viewer that joins against a publisher that announces its mode, stops, or has its room removed. */
module ScreenJoin {
  import opened Common
  import opened ScreenSpec

  /** Where a viewer's handler is: registered, past the mode it read, holding the SFU it read, done. */
  datatype ViewerPc = Outside | Registered | ModeRead(isSfu: bool) | Adding(sfu: nat) | Served | Gone

  /** Where the publisher's hello is: idle, mode set, SFU ensured, adding the viewers it found; or stopped,
      with its viewers and SFU cleared or, in a room that forgot it, not. */
  datatype HelloPc = Ready | ModeSet | Ensured | AddingAll(sfu: nat, todo: set<Conn>) | Stopped(cleared: bool)

  /** mapped says whether the room still has the publisher. added holds the (SFU, viewer) pairs passed to
      AddViewer; failed records a failed SFU creation. dying are the SFUs taken for closing, closed those closed. */
  datatype State = State(pub: Publisher, mapped: bool, hello: HelloPc, viewer: Conn -> ViewerPc,
                         added: set<(nat, Conn)>, failed: bool, dying: set<nat>, closed: set<nat>)

  datatype Action =
    | SetMode(mode: string) | Ensure(created: Option<nat>) | FindViewers | AddOne(c: Conn) | Done   // hello
    | Offer(created: Option<nat>)   // the publisher's offer
    | Stop | RemoveRoom | CloseSfu(sfu: nat)
    | Register(c: Conn, user: UserId) | ReadMode(c: Conn) | ReadSfu(c: Conn) | AddSelf(c: Conn) | Leave(c: Conn)

  function Init(): State {
    State(NewPublisher(), true, Ready, (c: Conn) => Outside, {}, false, {}, {})
  }

  function SetViewer(s: State, c: Conn, pc: ViewerPc): State {
    s.(viewer := (x: Conn) => if x == c then pc else s.viewer(x))
  }

  /** A created SFU is a new one. */
  function EnsureSfu(s: State, created: Option<nat>): State {
    if s.pub.sfu.Some? || (created.Some? && created.value in s.dying + s.closed) then s
    else s.(pub := s.pub.(sfu := created), failed := s.failed || created.None?)
  }

  /** The publisher's SFU, for closing. */
  function Dying(s: State): set<nat> {
    s.dying + if s.pub.sfu.Some? then {s.pub.sfu.value} else {}
  }

  /** One step; an action that is not enabled changes nothing. */
  function Step(s: State, a: Action): State {
    match a
    case SetMode(mode) =>
      if s.hello.Ready? && mode != "" then
        s.(pub := s.pub.(mode := mode), hello := if mode == "sfu" then ModeSet else Ready)
      else s
    case Ensure(created) =>
      if s.hello.ModeSet? && (created.Some? ==> created.value !in s.dying + s.closed) then
        EnsureSfu(s, created).(hello := Ensured)
      else s
    case FindViewers =>
      if s.hello.Ensured? then
        s.(hello := if s.pub.sfu.Some? then AddingAll(s.pub.sfu.value, s.pub.viewers.Keys) else Ready)
      else s
    case AddOne(c) =>
      if s.hello.AddingAll? && c in s.hello.todo then
        s.(added := s.added + {(s.hello.sfu, c)}, hello := AddingAll(s.hello.sfu, s.hello.todo - {c}))
      else s
    case Done => if s.hello.AddingAll? && s.hello.todo == {} then s.(hello := Ready) else s
    case Offer(created) => if s.hello.Ready? && s.pub.mode == "sfu" then EnsureSfu(s, created) else s
    case Stop =>
      if !s.hello.Ready? then s
      else if s.mapped then
        s.(pub := ClearPublisher(s.pub), mapped := false, hello := Stopped(true), dying := Dying(s))
      else s.(hello := Stopped(false))
    case RemoveRoom => if s.mapped then s.(mapped := false, dying := Dying(s)) else s
    case CloseSfu(x) => if x in s.dying then s.(closed := s.closed + {x}) else s
    case Register(c, user) =>
      if s.viewer(c).Outside? then SetViewer(s, c, Registered).(pub := RegisterViewer(s.pub, c, user)) else s
    case ReadMode(c) =>
      if s.viewer(c).Registered? then SetViewer(s, c, ModeRead(s.pub.mode == "sfu")) else s
    case ReadSfu(c) =>
      if s.viewer(c).ModeRead? then
        SetViewer(s, c, if s.viewer(c).isSfu && s.pub.sfu.Some? then Adding(s.pub.sfu.value) else Served)
      else s
    case AddSelf(c) =>
      if s.viewer(c).Adding? then SetViewer(s, c, Served).(added := s.added + {(s.viewer(c).sfu, c)}) else s
    case Leave(c) =>
      if s.viewer(c).Served? then SetViewer(s, c, Gone).(pub := RemoveViewer(s.pub, c)) else s
  }

  function Trace(acts: seq<Action>): State {
    if acts == [] then Init() else Step(Trace(acts[..|acts| - 1]), acts[|acts| - 1])
  }

  /** The viewer has been added to the publisher's SFU, or its own handler or the hello will add it. */
  predicate Handled(s: State, c: Conn) {
    || (s.pub.sfu.Some? && (s.pub.sfu.value, c) in s.added)
    || s.viewer(c).Registered?
    || (s.viewer(c) == ModeRead(true) && s.pub.sfu.Some?)
    || (s.pub.sfu.Some? && s.viewer(c) == Adding(s.pub.sfu.value))
    || s.hello.ModeSet? || s.hello.Ensured?
    || (s.hello.AddingAll? && s.pub.sfu == Some(s.hello.sfu) && c in s.hello.todo)
  }

  predicate JoinInv(s: State, c: Conn) {
    && (!s.failed && s.hello != Stopped(true) && s.pub.mode == "sfu" ==>
          && (s.hello.ModeSet? || s.pub.sfu.Some?)
          && (s.hello.AddingAll? ==> s.pub.sfu == Some(s.hello.sfu))
          && (c in s.pub.viewers ==> Handled(s, c)))
    && (s.hello.ModeSet? || s.hello.Ensured? || s.hello.AddingAll? ==> s.pub.mode == "sfu")
  }

  lemma JoinStep(s: State, a: Action, c: Conn)
    requires JoinInv(s, c)
    ensures JoinInv(Step(s, a), c)
  {
  }

  /** Nobody has passed the connection to any SFU, or is about to. */
  ghost predicate NeverAdded(s: State, c: Conn) {
    (forall x :: (x, c) !in s.added) && !s.viewer(c).Adding? && (s.hello.AddingAll? ==> c !in s.hello.todo)
  }

  /** Before it registers, and if it registers after the publisher's cleanup, a viewer is not added. */
  ghost predicate LateInv(s: State, c: Conn) {
    && (s.viewer(c).Outside? ==> NeverAdded(s, c) && c !in s.pub.viewers)
    && (s.hello == Stopped(true) ==> s.pub.sfu.None? && (c in s.pub.viewers ==> NeverAdded(s, c)))
  }

  lemma LateStep(s: State, a: Action, c: Conn)
    requires LateInv(s, c)
    ensures LateInv(Step(s, a), c)
  {
  }

  /** Until the cleanup there is one SFU at most, and every viewer is passed to that one. */
  ghost predicate OneSfu(s: State, c: Conn) {
    s.hello != Stopped(true) ==>
      && (forall x :: (x, c) in s.added ==> s.pub.sfu == Some(x))
      && (s.viewer(c).Adding? ==> s.pub.sfu == Some(s.viewer(c).sfu))
      && (s.hello.AddingAll? ==> s.pub.sfu == Some(s.hello.sfu))
  }

  lemma OneSfuStep(s: State, a: Action, c: Conn)
    requires OneSfu(s, c)
    ensures OneSfu(Step(s, a), c)
  {
  }

  lemma {:induction false} InvHolds(acts: seq<Action>, c: Conn)
    ensures JoinInv(Trace(acts), c) && LateInv(Trace(acts), c) && OneSfu(Trace(acts), c)
    decreases |acts|
  {
    if acts != [] {
      InvHolds(acts[..|acts| - 1], c);
      JoinStep(Trace(acts[..|acts| - 1]), acts[|acts| - 1], c);
      LateStep(Trace(acts[..|acts| - 1]), acts[|acts| - 1], c);
      OneSfuStep(Trace(acts[..|acts| - 1]), acts[|acts| - 1], c);
    }
  }

  /** Under any interleaving, with SFU creation succeeding and mode "sfu", once the hello and the viewer's own
      handler are through: a viewer still registered has been passed to AddViewer, by one side or the other
      and on the publisher's SFU, exactly if the publisher's cleanup has not cleared it; and that SFU is live
      exactly if a forced removal has not closed it. */
  lemma {:induction false} ViewerReachesSfuIff(acts: seq<Action>, c: Conn)
    requires var s := Trace(acts);
             && !s.failed && s.pub.mode == "sfu" && (s.hello.Ready? || s.hello.Stopped?)
             && c in s.pub.viewers && s.viewer(c).Served?
    ensures var s := Trace(acts);
            && (s.hello == Stopped(true) <==> forall x :: (x, c) !in s.added)
            && (s.hello != Stopped(true) ==> s.pub.sfu.Some? && (s.pub.sfu.value, c) in s.added)
            && ((exists x :: (x, c) in s.added && x !in s.closed) <==>
                s.hello != Stopped(true) && s.pub.sfu.value !in s.closed)
  {
    InvHolds(acts, c);
  }

  /** The publisher's SFU is closed only by a cleanup or a forced removal. */
  lemma {:induction false} ClosedOnlyByRemoval(acts: seq<Action>)
    ensures var s := Trace(acts);
            && s.closed <= s.dying && (s.hello == Stopped(true) ==> !s.mapped)
            && (s.mapped ==> s.dying == {})
    decreases |acts|
  {
    if acts != [] { ClosedOnlyByRemoval(acts[..|acts| - 1]); }
  }

  /** A hello that finds no viewers. */
  lemma HelloWithoutViewers(c: Conn) returns (acts: seq<Action>)
    ensures var s := Trace(acts);
            && s.hello.Ready? && s.pub.mode == "sfu" && s.pub.sfu == Some(1) && !s.failed && s.added == {}
            && s.mapped && s.viewer(c).Outside? && s.dying == {} && s.closed == {}
  {
    acts := [SetMode("sfu")];
    assert acts[..0] == [] && acts[0] == SetMode("sfu");
    assert Trace([]) == Init();
    assert Trace(acts) == Step(Init(), SetMode("sfu"));
    assert Trace(acts).hello.ModeSet?;
    Snoc(acts, Ensure(Some(1)));
    acts := acts + [Ensure(Some(1))];
    assert Trace(acts).hello.Ensured?;
    assert Trace(acts).pub.sfu == Some(1) && Trace(acts).pub.viewers == map[];
    Snoc(acts, FindViewers);
    acts := acts + [FindViewers];
    assert Trace(acts).hello == AddingAll(1, {});
    Snoc(acts, Done);
    acts := acts + [Done];
  }

  /** A viewer whose handler runs without interference. */
  lemma ViewerJoins(acts0: seq<Action>, c: Conn, user: UserId) returns (acts: seq<Action>)
    requires var s := Trace(acts0); s.viewer(c).Outside? && s.pub.mode == "sfu"
    ensures var s, t := Trace(acts0), Trace(acts);
            && c in t.pub.viewers && t.viewer(c).Served? && t.hello == s.hello && t.failed == s.failed
            && t.pub.mode == "sfu" && t.pub.sfu == s.pub.sfu && t.closed == s.closed
            && t.added == s.added + if s.pub.sfu.Some? then {(s.pub.sfu.value, c)} else {}
  {
    Snoc(acts0, Register(c, user));
    acts := acts0 + [Register(c, user)];
    assert Trace(acts).viewer(c).Registered?;
    Snoc(acts, ReadMode(c));
    acts := acts + [ReadMode(c)];
    assert Trace(acts).viewer(c) == ModeRead(true);
    Snoc(acts, ReadSfu(c));
    acts := acts + [ReadSfu(c)];
    if Trace(acts0).pub.sfu.Some? {
      assert Trace(acts).viewer(c) == Adding(Trace(acts0).pub.sfu.value);
      Snoc(acts, AddSelf(c));
      acts := acts + [AddSelf(c)];
    } else {
      assert Trace(acts).viewer(c).Served?;
    }
  }

  /** The publisher has to be there still: a viewer that found it before its cleanup and registers
      afterwards stays registered, done, and without an SFU. */
  lemma CleanupStrandsViewer(c: Conn, user: UserId)
    ensures exists acts :: var s := Trace(acts);
              s.pub.mode == "sfu" && !s.failed && c in s.pub.viewers && s.viewer(c).Served? && s.added == {}
  {
    var acts := HelloWithoutViewers(c);
    Snoc(acts, Stop);
    acts := acts + [Stop];
    assert Trace(acts).pub.sfu.None?;
    acts := ViewerJoins(acts, c, user);
  }

  /** And the room: a viewer that joins while it is removed is passed to an SFU that is closed. */
  lemma RemovalStrandsViewer(c: Conn, user: UserId)
    ensures exists acts :: var s := Trace(acts);
              && s.hello.Ready? && s.pub.mode == "sfu" && !s.failed && c in s.pub.viewers && s.viewer(c).Served?
              && s.added == {(1, c)} && s.closed == {1}
  {
    var acts := HelloWithoutViewers(c);
    Snoc(acts, RemoveRoom);
    acts := acts + [RemoveRoom];
    assert Trace(acts).dying == {1} && Trace(acts).pub.sfu == Some(1);
    Snoc(acts, CloseSfu(1));
    acts := acts + [CloseSfu(1)];
    assert Trace(acts).closed == {1};
    acts := ViewerJoins(acts, c, user);
  }
}
