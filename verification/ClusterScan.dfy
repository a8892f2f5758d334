// Bytes, byte strings and the search for the WebM Cluster element ID.

/** Byte strings and the helpers every other module shares. */
module ByteStrings {
  type Byte = b: int | 0 <= b < 256

  // A Go nil slice has length 0. None of the slices modelled here is ever non-nil and
  // empty, so the empty sequence stands for nil.
  type Bytes = seq<Byte>

  /** All chunks of a list, joined. */
  function Concat(chunks: seq<Bytes>): Bytes {
    if chunks == [] then [] else chunks[0] + Concat(chunks[1..])
  }

  lemma {:induction false} ConcatAppend(a: seq<Bytes>, b: seq<Bytes>)
    ensures Concat(a + b) == Concat(a) + Concat(b)
  {
    if a == [] {
      assert a + b == b;
    } else {
      assert (a + b)[1..] == a[1..] + b;
      ConcatAppend(a[1..], b);
    }
  }

  lemma Assoc<T>(a: seq<T>, b: seq<T>, c: seq<T>)
    ensures (a + b) + c == a + (b + c)
  {
  }

  lemma TakeDrop<T>(a: seq<T>, n: nat)
    requires n <= |a|
    ensures a[..n] + a[n..] == a
  {
  }

  lemma ConcatCons(x: Bytes, a: seq<Bytes>)
    ensures Concat([x] + a) == x + Concat(a)
  {
    assert ([x] + a)[1..] == a;
  }

  lemma ConcatSnoc(a: seq<Bytes>, x: Bytes)
    ensures Concat(a + [x]) == Concat(a) + x
  {
    ConcatAppend(a, [x]);
    ConcatOne(x);
  }

  lemma ConcatOne(x: Bytes)
    ensures Concat([x]) == x
  {
    assert x + [] == x;
  }

  /** A prefix of a list joins to a prefix of the joined list. */
  lemma ConcatPrefix(a: seq<Bytes>, b: seq<Bytes>)
    requires a <= b
    ensures Concat(a) <= Concat(b)
  {
    ConcatAppend(a, b[|a|..]);
    assert a + b[|a|..] == b;
  }
}

module ClusterScan {
  import opened ByteStrings

  /** The four bytes 1F 43 B6 75, section 5.1.3 of RFC 9559, stand at offset i. */
  predicate IdAt(data: Bytes, i: int) {
    && 0 <= i && i + 4 <= |data|
    && data[i] == 0x1F && data[i + 1] == 0x43 && data[i + 2] == 0xB6 && data[i + 3] == 0x75
  }

  /** The message begins with the EBML magic 1A 45 DF A3. */
  predicate IsEbmlHeader(data: Bytes) {
    && |data| >= 4
    && data[0] == 0x1A && data[1] == 0x45 && data[2] == 0xDF && data[3] == 0xA3
  }

  /** The first message, and then every one that does not start with the bytes 1A 45 DF A3. */
  function WithoutRepeats(msgs: seq<Bytes>): seq<Bytes> {
    if |msgs| <= 1 then msgs
    else
      var last := msgs[|msgs| - 1];
      WithoutRepeats(msgs[..|msgs| - 1]) + if [0x1A, 0x45, 0xDF, 0xA3] <= last then [] else [last]
  }

  /** The only Cluster ID in data stands at offset i. */
  ghost predicate OnlyIdAt(data: Bytes, i: int) {
    IdAt(data, i) && forall j :: IdAt(data, j) ==> j == i
  }

  /** The offset of the first Cluster ID at or after start, or -1. */
  function FirstId(data: Bytes, start: nat): (r: int)
    ensures r == -1 || start <= r <= |data| - 4
    decreases |data| - start
  {
    if start + 4 > |data| then -1
    else if IdAt(data, start) then start
    else FirstId(data, start + 1)
  }

  /** FirstId finds an ID, and no ID before it. */
  lemma {:induction false} FirstIdIsFirst(data: Bytes, start: nat)
    ensures var r := FirstId(data, start);
            && (r == -1 || IdAt(data, r))
            && forall i :: start <= i && (r == -1 || i < r) ==> !IdAt(data, i)
    decreases |data| - start
  {
    if start + 4 <= |data| && !IdAt(data, start) {
      FirstIdIsFirst(data, start + 1);
    }
  }

  /** The scanning loop of the relay. */
  method FindClusterOffset(data: Bytes, start: int) returns (r: int)
    ensures r == FirstId(data, if start < 0 then 0 else start)
  {
    var from := if start < 0 then 0 else start;
    var i := from;
    while i + 4 <= |data|
      invariant from <= i
      invariant FirstId(data, from) == FirstId(data, i)
    {
      if data[i] == 0x1F && data[i + 1] == 0x43 && data[i + 2] == 0xB6 && data[i + 3] == 0x75 {
        return i;
      }
      i := i + 1;
    }
    return -1;
  }

  /** No occurrence of the ID overlaps another: the pattern has no border. */
  lemma NoOverlap(data: Bytes, i: int, j: int)
    requires IdAt(data, i) && IdAt(data, j) && i < j
    ensures i + 4 <= j
  {
  }

  lemma IdInAppend(p: Bytes, d: Bytes, i: int)
    ensures i + 4 <= |p| ==> (IdAt(p + d, i) <==> IdAt(p, i))
    ensures i >= |p| ==> (IdAt(p + d, i) <==> IdAt(d, i - |p|))
  {
  }

  /** An ID found in a prefix stays the first one when more bytes follow. */
  lemma FirstIdAppend(p: Bytes, d: Bytes, start: nat)
    requires FirstId(p, start) >= 0
    ensures FirstId(p + d, start) == FirstId(p, start)
  {
    var c := FirstId(p, start);
    FirstIdIsFirst(p, start);
    FirstIdIsFirst(p + d, start);
    IdInAppend(p, d, c);
    var e := FirstId(p + d, start);
    IdInAppend(p, d, e);
  }

  /** In a prefix cut less than four bytes after the first ID, that ID is not yet visible. */
  lemma FirstIdCut(p: Bytes, n: nat, start: nat)
    requires n <= |p|
    ensures var c := FirstId(p, start);
            FirstId(p[..n], start) == if c >= 0 && c + 4 <= n then c else -1
  {
    var c := FirstId(p, start);
    var e := FirstId(p[..n], start);
    FirstIdIsFirst(p, start);
    FirstIdIsFirst(p[..n], start);
    assert p == p[..n] + p[n..];
    IdInAppend(p[..n], p[n..], c);
    IdInAppend(p[..n], p[n..], e);
  }
}
