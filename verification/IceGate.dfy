// The gate that holds ICE candidates back until the SDP they belong to is on its way: the ready
// flag and the pending queue of a voice publisher, a voice subscriber and a screen SFU viewer.

module IceGate {
  import opened ByteStrings
  import opened Common
  // A candidate is an opaque handle.
  type Candidate = nat

  datatype GateState = GateState(ready: bool, pending: seq<Candidate>)

  /** The callback's locked section: a candidate is queued until the gate is open. */
  function Offered(g: GateState, c: Candidate): GateState {
    if g.ready then g else g.(pending := g.pending + [c])
  }

  class Gate {
    var ready: bool
    var icePending: seq<Candidate>

    constructor ()
      ensures View() == GateState(false, [])
    {
      ready, icePending := false, [];
    }

    ghost function View(): GateState
      reads this
    {
      GateState(ready, icePending)
    }

    /** sendNow tells the callback to write the candidate itself. */
    method OnCandidate(c: Candidate) returns (sendNow: bool)
      modifies this
      ensures View() == Offered(old(View()), c) && sendNow == old(ready)
    {
      if !ready {
        icePending := icePending + [c];
        return false;
      }
      return true;
    }

    /** Opens the gate; the caller writes what was pending, in order. */
    method Open() returns (pending: seq<Candidate>)
      modifies this
      ensures View() == GateState(true, []) && pending == old(icePending)
    {
      ready := true;
      pending := icePending;
      icePending := [];
    }
  }

  /** queued tells the candidates the negotiating thread flushed from those a callback wrote itself. */
  datatype Message = Sdp | Ice(c: Candidate, queued: bool)
  datatype Phase = Creating | SdpSent | Flushing | Abandoned

  /** One peer connection: its gate, the flusher's remainder, callbacks past the ready check, what the
      client was sent, and every candidate gathered. */
  datatype State = State(gate: GateState, phase: Phase, toFlush: seq<Candidate>, passed: multiset<Candidate>,
                         log: seq<Message>, gathered: multiset<Candidate>)

  datatype Action =
    | Gather(c: Candidate) | SendPassed(c: Candidate)    // the callback: its locked section, its write
    | SendSdp | Abandon | OpenGate | Flush               // the negotiating thread

  function Init(): State {
    State(GateState(false, []), Creating, [], multiset{}, [], multiset{})
  }

  function Step(s: State, a: Action): State {
    match a
    case Gather(c) =>
      s.(gate := Offered(s.gate, c), gathered := s.gathered + multiset{c},
         passed := if s.gate.ready then s.passed + multiset{c} else s.passed)
    case SendPassed(c) =>
      if c in s.passed then s.(passed := s.passed - multiset{c}, log := s.log + [Ice(c, false)]) else s
    case SendSdp => if s.phase.Creating? then s.(phase := SdpSent, log := s.log + [Sdp]) else s
    case Abandon => if s.phase.Creating? then s.(phase := Abandoned) else s
    case OpenGate =>
      if s.phase.SdpSent? then s.(phase := Flushing, gate := GateState(true, []), toFlush := s.gate.pending) else s
    case Flush =>
      if s.toFlush != [] then s.(toFlush := s.toFlush[1..], log := s.log + [Ice(s.toFlush[0], true)]) else s
  }

  function Trace(acts: seq<Action>): State {
    if acts == [] then Init() else Step(Trace(acts[..|acts| - 1]), acts[|acts| - 1])
  }

  /** The candidates a client was sent. */
  function Sent(log: seq<Message>): multiset<Candidate> {
    if log == [] then multiset{}
    else Sent(log[..|log| - 1]) + (if log[|log| - 1].Ice? then multiset{log[|log| - 1].c} else multiset{})
  }

  lemma SentSnoc(log: seq<Message>, m: Message)
    ensures Sent(log + [m]) == Sent(log) + (if m.Ice? then multiset{m.c} else multiset{})
  {
    Snoc(log, m);
  }

  /** The SDP opens the log and appears nowhere else; before it, nothing is sent. */
  ghost predicate SdpFirst(s: State) {
    && (s.gate.ready <==> s.phase.Flushing?)
    && (s.gate.ready ==> s.gate.pending == [])
    && (!s.gate.ready ==> s.toFlush == [] && s.passed == multiset{})
    && (s.phase.Creating? || s.phase.Abandoned? ==> s.log == [])
    && (s.phase.SdpSent? || s.phase.Flushing? ==> s.log != [] && s.log[0] == Sdp)
    && forall i :: 0 < i < |s.log| ==> s.log[i].Ice?
  }

  /** How often candidate x is somewhere between the gathering and the client. */
  function Held(s: State, x: Candidate): nat {
    Sent(s.log)[x] + multiset(s.toFlush)[x] + multiset(s.gate.pending)[x] + s.passed[x]
  }

  /** Every gathered candidate is in exactly one place. */
  ghost predicate Conserved(s: State) {
    forall x :: Held(s, x) == s.gathered[x]
  }

  lemma SdpFirstStep(s: State, a: Action)
    requires SdpFirst(s)
    ensures SdpFirst(Step(s, a))
  {
  }

  lemma CountTail(q: seq<Candidate>, x: Candidate)
    requires q != []
    ensures multiset(q)[x] == multiset(q[1..])[x] + (if q[0] == x then 1 else 0)
  {
    assert q == [q[0]] + q[1..];
  }

  lemma CountSnoc(q: seq<Candidate>, c: Candidate, x: Candidate)
    ensures multiset(q + [c])[x] == multiset(q)[x] + (if c == x then 1 else 0)
  {
  }

  lemma HeldFlush(s: State, x: Candidate)
    requires s.toFlush != []
    ensures Held(Step(s, Flush), x) == Held(s, x)
  {
    SentSnoc(s.log, Ice(s.toFlush[0], true));
    CountTail(s.toFlush, x);
  }

  lemma HeldGather(s: State, c: Candidate, x: Candidate)
    ensures Held(Step(s, Gather(c)), x) == Held(s, x) + (if c == x then 1 else 0)
  {
    CountSnoc(s.gate.pending, c, x);
  }

  lemma HeldStep(s: State, a: Action, x: Candidate)
    requires SdpFirst(s)
    ensures Held(Step(s, a), x) == Held(s, x) + (if a == Gather(x) then 1 else 0)
    ensures Step(s, a).gathered[x] == s.gathered[x] + (if a == Gather(x) then 1 else 0)
  {
    match a {
      case Gather(c) => HeldGather(s, c, x);
      case SendPassed(c) => SentSnoc(s.log, Ice(c, false));
      case SendSdp => SentSnoc(s.log, Sdp);
      case Flush => if s.toFlush != [] { HeldFlush(s, x); }
      case _ =>
    }
  }

  lemma ConservedStep(s: State, a: Action)
    requires SdpFirst(s) && Conserved(s)
    ensures Conserved(Step(s, a))
  {
    forall x ensures Held(Step(s, a), x) == Step(s, a).gathered[x] { HeldStep(s, a, x); }
  }

  lemma {:induction false} InvHolds(acts: seq<Action>)
    ensures SdpFirst(Trace(acts)) && Conserved(Trace(acts))
    decreases |acts|
  {
    if acts != [] {
      InvHolds(acts[..|acts| - 1]);
      SdpFirstStep(Trace(acts[..|acts| - 1]), acts[|acts| - 1]);
      ConservedStep(Trace(acts[..|acts| - 1]), acts[|acts| - 1]);
    }
  }

  lemma AsMultisets(s: State)
    requires Conserved(s)
    ensures Sent(s.log) + multiset(s.toFlush) + multiset(s.gate.pending) + s.passed == s.gathered
  {
    var all := Sent(s.log) + multiset(s.toFlush) + multiset(s.gate.pending) + s.passed;
    forall x ensures all[x] == s.gathered[x] { assert Held(s, x) == s.gathered[x]; }
  }

  /** Over every interleaving of the callbacks with the negotiating thread: the client is sent the
      SDP first and only once, and no candidate is lost or repeated. */
  lemma {:induction false} SdpBeforeIce(acts: seq<Action>)
    ensures var s := Trace(acts);
            && (s.log != [] ==> s.log[0] == Sdp && forall i :: 0 < i < |s.log| ==> s.log[i].Ice?)
            && Sent(s.log) + multiset(s.toFlush) + multiset(s.gate.pending) + s.passed == s.gathered
            && (s.phase.Flushing? && s.toFlush == [] && s.passed == multiset{} ==> Sent(s.log) == s.gathered)
  {
    InvHolds(acts);
    AsMultisets(Trace(acts));
  }

  /** The candidates gathered before the gate opened, in order. */
  function Early(acts: seq<Action>): seq<Candidate> {
    if acts == [] then []
    else
      var before, a := acts[..|acts| - 1], acts[|acts| - 1];
      Early(before) + if a.Gather? && !Trace(before).phase.Flushing? then [a.c] else []
  }

  /** Those of a log that were flushed. */
  function Flushed(log: seq<Message>): seq<Candidate> {
    if log == [] then []
    else Flushed(log[..|log| - 1]) + if log[|log| - 1].Ice? && log[|log| - 1].queued then [log[|log| - 1].c] else []
  }

  lemma FlushedSnoc(log: seq<Message>, m: Message)
    ensures Flushed(log + [m]) == Flushed(log) + if m.Ice? && m.queued then [m.c] else []
  {
    Snoc(log, m);
  }

  /** What has been, is being and will be flushed. */
  function Queue(s: State): seq<Candidate> {
    Flushed(s.log) + s.toFlush + s.gate.pending
  }

  lemma QueueStep(s: State, a: Action)
    requires SdpFirst(s)
    ensures Queue(Step(s, a)) == Queue(s) + if a.Gather? && !s.phase.Flushing? then [a.c] else []
  {
    match a {
      case Gather(c) => Assoc(Flushed(s.log) + s.toFlush, s.gate.pending, [c]);
      case SendPassed(c) => FlushedSnoc(s.log, Ice(c, false));
      case SendSdp => FlushedSnoc(s.log, Sdp);
      case Flush =>
        if s.toFlush != [] {
          FlushedSnoc(s.log, Ice(s.toFlush[0], true));
          Assoc(Flushed(s.log), [s.toFlush[0]], s.toFlush[1..]);
          assert [s.toFlush[0]] + s.toFlush[1..] == s.toFlush;
        }
      case _ =>
    }
  }

  /** Over any run, the candidates gathered before the gate opened are flushed in the order they were gathered. */
  lemma {:induction false} FlushedInOrder(acts: seq<Action>)
    ensures Queue(Trace(acts)) == Early(acts)
    decreases |acts|
  {
    if acts != [] {
      var before, a := acts[..|acts| - 1], acts[|acts| - 1];
      FlushedInOrder(before);
      InvHolds(before);
      QueueStep(Trace(before), a);
    }
  }

  /** A candidate is gathered before the gate opens, and is still to be flushed. */
  lemma OpenWithOnePending(a: Candidate)
    ensures var s := Trace([Gather(a), SendSdp, OpenGate]);
            s.gate.ready && s.toFlush == [a] && s.log == [Sdp] && s.passed == multiset{}
  {
    var acts := [] + [Gather(a)];
    Snoc([], Gather(a));
    assert [] + [a] == [a];
    assert Trace(acts).gate == GateState(false, [a]) && Trace(acts).phase.Creating? && Trace(acts).log == [];
    Snoc(acts, SendSdp);
    acts := acts + [SendSdp];
    assert Trace(acts).phase.SdpSent? && Trace(acts).log == [Sdp] && Trace(acts).gate.pending == [a];
    Snoc(acts, OpenGate);
    assert acts + [OpenGate] == [Gather(a), SendSdp, OpenGate];
  }

  /** The order of gathering is not kept across the flush: once the gate is open, a callback can
      overtake the flusher. */
  lemma FlushCanBeOvertaken(a: Candidate, b: Candidate)
    ensures Trace([Gather(a), SendSdp, OpenGate, Gather(b), SendPassed(b), Flush]).log ==
            [Sdp, Ice(b, false), Ice(a, true)]
  {
    OpenWithOnePending(a);
    var acts := [Gather(a), SendSdp, OpenGate];
    Snoc(acts, Gather(b));
    acts := acts + [Gather(b)];
    assert Trace(acts).passed == multiset{b};
    Snoc(acts, SendPassed(b));
    acts := acts + [SendPassed(b)];
    assert Trace(acts).log == [Sdp, Ice(b, false)];
    Snoc(acts, Flush);
    assert acts + [Flush] == [Gather(a), SendSdp, OpenGate, Gather(b), SendPassed(b), Flush];
  }
}
