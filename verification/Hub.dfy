/** internal/hub/hub.go as the object it is. What upgrades, revokes and Drain do to each other is
    the subject of HubRuns. */
module Hub {
  import opened Options

  datatype KeyId = KeyId(text: string)
  datatype CloseError = CloseError(code: nat, reason: string)

  const GOING_AWAY := CloseError(1001, "shutdown")

  class TrackedConn {
    const key: KeyId
    /** The closes whose goroutines have been started and not run, the closes sent, and whether the
        connection was torn down without a handshake. */
    var started: seq<CloseError>
    var closes: seq<CloseError>
    var torn: bool

    constructor (key: KeyId)
      ensures this.key == key && started == [] && closes == [] && !torn
    {
      this.key := key;
      started := [];
      closes := [];
      torn := false;
    }

    /** `go c.CloseFrame(ce)`. */
    method GoCloseFrame(ce: CloseError)
      modifies this`started
      ensures started == old(started) + [ce]
    {
      started := started + [ce];
    }

    /** One of the goroutines, in any order, sends its close. */
    method CloseFrame(i: nat)
      requires i < |started|
      modifies this`started, this`closes
      ensures closes == old(closes) + [old(started)[i]]
      ensures started == old(started)[..i] + old(started)[i + 1..]
    {
      closes := closes + [started[i]];
      started := started[..i] + started[i + 1..];
    }

    method CloseNow()
      modifies this`torn
      ensures torn
    {
      torn := true;
    }
  }

  class Hub {
    var conns: set<TrackedConn>
    var closedKeys: map<KeyId, CloseError>
    var draining: bool

    constructor ()
      ensures conns == {} && closedKeys == map[] && !draining
    {
      conns := {};
      closedKeys := map[];
      draining := false;
    }

    /** None when c is now tracked; otherwise the close the caller must send to c itself. A drain
        goes before a revoked key. */
    method Add(c: TrackedConn) returns (refusal: Option<CloseError>)
      modifies this`conns
      ensures draining ==> refusal == Some(GOING_AWAY)
      ensures !draining && c.key in closedKeys ==> refusal == Some(closedKeys[c.key])
      ensures refusal.None? <==> !draining && c.key !in closedKeys
      ensures conns == if refusal.None? then old(conns) + {c} else old(conns)
    {
      if draining { return Some(GOING_AWAY); }
      if c.key in closedKeys { return Some(closedKeys[c.key]); }
      conns := conns + {c};
      return None;
    }

    method Remove(c: TrackedConn)
      modifies this`conns
      ensures conns == old(conns) - {c}
    {
      conns := conns - {c};
    }

    method Len() returns (n: nat)
      ensures n == |conns| && (n == 0 <==> conns == {})
    {
      n := |conns|;
    }

    /** The tracked set listed, each connection once. */
    method Snapshot() returns (out: seq<TrackedConn>)
      ensures forall c :: c in out <==> c in conns
      ensures |out| == |conns| && forall i, j :: 0 <= i < j < |out| ==> out[i] != out[j]
    {
      out := [];
      var rest := conns;
      while rest != {}
        invariant rest <= conns && |out| + |rest| == |conns|
        invariant forall c :: c in out <==> c in conns && c !in rest
        invariant forall i, j :: 0 <= i < j < |out| ==> out[i] != out[j]
        decreases rest
      {
        var c :| c in rest;
        out := out + [c];
        rest := rest - {c};
      }
    }

    /** One close is started for every connection listed, for nobody else any. */
    static method CloseAll(cs: seq<TrackedConn>, ce: CloseError)
      requires forall i, j :: 0 <= i < j < |cs| ==> cs[i] != cs[j]
      modifies (set c | c in cs)`started
      ensures forall c :: c in cs ==> c.started == old(c.started) + [ce]
    {
      var i := 0;
      while i < |cs|
        invariant 0 <= i <= |cs|
        invariant forall j :: 0 <= j < i ==> cs[j].started == old(cs[j].started) + [ce]
        invariant forall j :: i <= j < |cs| ==> cs[j].started == old(cs[j].started)
      {
        cs[i].GoCloseFrame(ce);
        i := i + 1;
      }
    }

    /** CloseKey: the key is closed for good, the close is started for exactly the tracked
        connections of that key, once each, and the result counts them. */
    method CloseKey(key: KeyId, ce: CloseError) returns (n: nat)
      modifies this`closedKeys, conns`started
      ensures closedKeys == old(closedKeys)[key := ce]
      ensures n == |set c | c in conns && c.key == key|
      ensures forall c :: c in conns ==> c.started == old(c.started) + (if c.key == key then [ce] else [])
    {
      closedKeys := closedKeys[key := ce];
      var matched := Matching(key);
      CloseAll(matched, ce);
      ghost var hit := set c | c in conns && c.key == key;
      Listed(matched, hit);
      n := |matched|;
    }

    method Matching(key: KeyId) returns (out: seq<TrackedConn>)
      ensures forall c :: c in out <==> c in conns && c.key == key
      ensures forall i, j :: 0 <= i < j < |out| ==> out[i] != out[j]
    {
      out := [];
      var rest := conns;
      while rest != {}
        invariant rest <= conns
        invariant forall c :: c in out <==> c in conns && c !in rest && c.key == key
        invariant forall i, j :: 0 <= i < j < |out| ==> out[i] != out[j]
        decreases rest
      {
        var c :| c in rest;
        if c.key == key { out := out + [c]; }
        rest := rest - {c};
      }
    }

    /** Drain up to its wait: from the flag on Add refuses, and the going-away close is started
        for everyone in the snapshot. */
    method DrainSend()
      modifies this`draining, conns`started
      ensures draining && forall c :: c in conns ==> c.started == old(c.started) + [GOING_AWAY]
    {
      draining := true;
      var cs := Snapshot();
      CloseAll(cs, GOING_AWAY);
    }

    /** Drain when its grace is over. */
    method DrainForce()
      modifies conns`torn
      ensures forall c :: c in conns ==> c.torn
    {
      var cs := Snapshot();
      var i := 0;
      while i < |cs|
        invariant 0 <= i <= |cs| && forall j :: 0 <= j < i ==> cs[j].torn
      {
        cs[i].CloseNow();
        i := i + 1;
      }
    }
  }

  /** A duplicate-free list of a set has the set's size. */
  lemma {:induction false} Listed(s: seq<TrackedConn>, a: set<TrackedConn>)
    requires (forall c :: c in s <==> c in a) && forall i, j :: 0 <= i < j < |s| ==> s[i] != s[j]
    ensures |s| == |a|
  {
    if s == [] { assert a == {}; }
    else {
      var last := s[|s| - 1];
      var front := s[..|s| - 1];
      assert s == front + [last];
      Listed(front, a - {last});
      assert a == (a - {last}) + {last};
    }
  }
}
