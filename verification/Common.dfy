// What every module shares.

module Common {
  // A WebSocket connection is an opaque handle.
  type Conn = nat

  datatype Option<+T> = None | Some(value: T)

  /** How a run of a state machine grows by one action. */
  lemma Snoc<T>(s: seq<T>, x: T)
    ensures (s + [x])[..|s|] == s && (s + [x])[|s|] == x
  {
  }

  lemma UpdateTwice<K, V>(m: map<K, V>, k: K, a: V, b: V)
    ensures m[k := a][k := b] == m[k := b]
  {
  }
}

/** A room's idle timer, shared by the classes that hold the parts of a room. */
module IdleTimer {
  class Timer {
    var armed: bool

    constructor ()
      ensures armed
    {
      armed := true;
    }

    method Stop()
      modifies this
      ensures !armed
    {
      armed := false;
    }

    method Reset()
      modifies this
      ensures armed
    {
      armed := true;
    }
  }
}
