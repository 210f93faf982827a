/** The hub's admission barrier under interleaving: upgrades (internal/server/upgrade.go and the
    start and end of conn.Run), revokes (internal/server/rest.go) and Drain, with each critical
    section of internal/hub/hub.go one step. Drain sets the draining flag in one critical section
    and takes its snapshot in another. CloseKey and Drain only start the goroutines that send
    their closes; each of those runs at any later step. */
module HubRuns {
  /** A connection attempt: before and after LookupKey, refused by Add, tracked, and its exit. */
  datatype UpPc = Looking | Passed | Rejected | Refused | Tracked | Leaving | Gone

  datatype Up = Up(key: nat, pc: UpPc)

  /** revoke: the store is updated, then CloseKey closes whoever it matched. */
  datatype RevPc = Stored | Closing(rest: set<nat>) | Revoked
  datatype Revoker = Revoker(key: nat, pc: RevPc)

  /** Drain: flag set, closes being started for the snapshot, then the forced closes. */
  datatype Drainer = Flagged | Starting(rest: set<nat>) | Forcing(rest: set<nat>) | Drained

  /** `underWay` holds a connection for each close goroutine that has been started and not run. */
  datatype State = State(
    ups: map<nat, Up>,
    revokers: map<nat, Revoker>,
    drainers: map<nat, Drainer>,
    revoked: set<nat>,
    closedKeys: set<nat>,
    draining: bool,
    conns: set<nat>,
    underWay: multiset<nat>,
    closeSent: set<nat>,
    forced: set<nat>)

  datatype Action =
    | Arrive(c: nat, key: nat)
    | LookupKey(c: nat)
    | TurnAway(c: nat)
    | Add(c: nat)
    | SendRefusal(c: nat)
    | HangUp(c: nat)
    | Remove(c: nat)
    | RevokeKey(r: nat, key: nat)
    | CloseKey(r: nat)
    | StartClose(r: nat, c: nat)
    | RevokeDone(r: nat)
    | SetDraining(d: nat)
    | Snapshot(d: nat)
    | StartGoingAway(d: nat, c: nat)
    | CloseRuns(c: nat)
    | AllGone(d: nat)
    | GraceOver(d: nat)
    | Force(d: nat, c: nat)
    | ForceDone(d: nat)

  predicate At(s: State, c: nat, pc: UpPc) { c in s.ups && s.ups[c].pc == pc }

  predicate Enabled(s: State, a: Action) {
    match a
    case Arrive(c, key) => c !in s.ups
    case LookupKey(c) => At(s, c, Looking)
    // The upgrade's own draining check, the per-address cap, a failed handshake.
    case TurnAway(c) => At(s, c, Looking) || At(s, c, Passed)
    case Add(c) => At(s, c, Passed)
    case SendRefusal(c) => At(s, c, Refused)
    case HangUp(c) => At(s, c, Tracked)
    case Remove(c) => At(s, c, Leaving)
    case RevokeKey(r, key) => r !in s.revokers
    case CloseKey(r) => r in s.revokers && s.revokers[r].pc.Stored?
    case StartClose(r, c) => r in s.revokers && s.revokers[r].pc.Closing? && c in s.revokers[r].pc.rest
    case RevokeDone(r) => r in s.revokers && s.revokers[r].pc == Closing({})
    case SetDraining(d) => d !in s.drainers
    case Snapshot(d) => d in s.drainers && s.drainers[d].Flagged?
    case StartGoingAway(d, c) => d in s.drainers && s.drainers[d].Starting? && c in s.drainers[d].rest
    case CloseRuns(c) => c in s.underWay
    case AllGone(d) => d in s.drainers && s.drainers[d] == Starting({}) && s.conns == {}
    case GraceOver(d) => d in s.drainers && s.drainers[d] == Starting({}) && s.conns != {}
    case Force(d, c) => d in s.drainers && s.drainers[d].Forcing? && c in s.drainers[d].rest
    case ForceDone(d) => d in s.drainers && s.drainers[d] == Forcing({})
  }

  predicate Refuses(s: State, key: nat) { s.draining || key in s.closedKeys }

  function SetPc(s: State, c: nat, pc: UpPc): map<nat, Up>
    requires c in s.ups
  {
    s.ups[c := s.ups[c].(pc := pc)]
  }

  function Step(s: State, a: Action): State
    requires Enabled(s, a)
  {
    match a
    case Arrive(c, key) => s.(ups := s.ups[c := Up(key, Looking)])
    case LookupKey(c) => s.(ups := SetPc(s, c, if s.ups[c].key in s.revoked then Rejected else Passed))
    case TurnAway(c) => s.(ups := SetPc(s, c, Rejected))
    case Add(c) =>
      if Refuses(s, s.ups[c].key) then s.(ups := SetPc(s, c, Refused))
      else s.(ups := SetPc(s, c, Tracked), conns := s.conns + {c})
    case SendRefusal(c) => s.(ups := SetPc(s, c, Gone), closeSent := s.closeSent + {c})
    case HangUp(c) => s.(ups := SetPc(s, c, Leaving))
    case Remove(c) => s.(ups := SetPc(s, c, Gone), conns := s.conns - {c})
    case RevokeKey(r, key) => s.(revokers := s.revokers[r := Revoker(key, Stored)], revoked := s.revoked + {key})
    case CloseKey(r) =>
      var key := s.revokers[r].key;
      s.(revokers := s.revokers[r := Revoker(key, Closing(set c | c in s.conns && c in s.ups && s.ups[c].key == key))],
         closedKeys := s.closedKeys + {key})
    case StartClose(r, c) =>
      s.(revokers := s.revokers[r := Revoker(s.revokers[r].key, Closing(s.revokers[r].pc.rest - {c}))],
         underWay := s.underWay + multiset{c})
    case RevokeDone(r) => s.(revokers := s.revokers[r := s.revokers[r].(pc := Revoked)])
    case SetDraining(d) => s.(drainers := s.drainers[d := Flagged], draining := true)
    case Snapshot(d) => s.(drainers := s.drainers[d := Starting(s.conns)])
    case StartGoingAway(d, c) =>
      s.(drainers := s.drainers[d := Starting(s.drainers[d].rest - {c})], underWay := s.underWay + multiset{c})
    case CloseRuns(c) => s.(underWay := s.underWay - multiset{c}, closeSent := s.closeSent + {c})
    case AllGone(d) => s.(drainers := s.drainers[d := Drained])
    case GraceOver(d) => s.(drainers := s.drainers[d := Forcing(s.conns)])
    case Force(d, c) => s.(drainers := s.drainers[d := Forcing(s.drainers[d].rest - {c})], forced := s.forced + {c})
    case ForceDone(d) => s.(drainers := s.drainers[d := Drained])
  }

  const START := State(map[], map[], map[], {}, {}, false, {}, multiset{}, {}, {})

  // ----- the invariant ------------------------------------------------------------------------------

  ghost predicate RevokerHas(s: State, r: nat, c: nat) {
    r in s.revokers && s.revokers[r].pc.Closing? && c in s.revokers[r].pc.rest
  }

  ghost predicate DrainerHas(s: State, d: nat, c: nat) {
    d in s.drainers && (s.drainers[d].Flagged? || (s.drainers[d].Starting? && c in s.drainers[d].rest))
  }

  /** A close was sent to the connection, or the goroutine that sends it has been started. */
  ghost predicate Told(s: State, c: nat) {
    c in s.closeSent || c in s.underWay
  }

  ghost predicate UpOk(s: State, c: nat) {
    && (c in s.conns <==> At(s, c, Tracked) || At(s, c, Leaving))
    && (At(s, c, Refused) ==> Refuses(s, s.ups[c].key))
  }

  /** CloseKey has run in revoke r: a tracked connection of its key has been told to close or is next. */
  ghost predicate RevokePairOk(s: State, r: nat, c: nat) {
    r in s.revokers && !s.revokers[r].pc.Stored? && c in s.conns && c in s.ups && s.ups[c].key == s.revokers[r].key ==>
      Told(s, c) || RevokerHas(s, r, c)
  }

  /** Drain d has taken its snapshot: a tracked connection has been told to close or is next. */
  ghost predicate DrainPairOk(s: State, d: nat, c: nat) {
    d in s.drainers && !s.drainers[d].Flagged? && c in s.conns ==> Told(s, c) || DrainerHas(s, d, c)
  }

  ghost predicate Past(s: State, r: nat, key: nat) {
    r in s.revokers && s.revokers[r].key == key && !s.revokers[r].pc.Stored?
  }

  ghost predicate KeyOk(s: State, key: nat) { key in s.closedKeys ==> exists r :: Past(s, r, key) }

  ghost predicate RevokerOk(s: State, r: nat) {
    r in s.revokers ==>
      s.revokers[r].key in s.revoked && (!s.revokers[r].pc.Stored? ==> s.revokers[r].key in s.closedKeys)
  }

  ghost predicate DrainerOk(s: State, d: nat) {
    d in s.drainers ==>
      && s.draining
      && (s.drainers[d].Forcing? ==> s.conns <= s.forced + s.drainers[d].rest)
      && (s.drainers[d].Drained? ==> s.conns <= s.forced)
  }

  ghost predicate OnesOk(s: State) {
    var holds :=
      && (forall c :: UpOk(s, c))
      && (forall r :: RevokerOk(s, r))
      && (forall d :: DrainerOk(s, d));
    holds
  }

  ghost predicate Inv(s: State) {
    var holds :=
      && OnesOk(s)
      && (forall r, c :: RevokePairOk(s, r, c))
      && (forall d, c :: DrainPairOk(s, d, c))
      && (forall key :: KeyOk(s, key))
      && (s.draining ==> exists d :: d in s.drainers);
    holds
  }

  lemma PairsKeep(s: State, a: Action)
    requires Inv(s) && Enabled(s, a)
    ensures forall r, c :: RevokePairOk(Step(s, a), r, c)
    ensures forall d, c :: DrainPairOk(Step(s, a), d, c)
  {
    var s' := Step(s, a);
    forall r: nat, c ensures RevokePairOk(s', r, c) { assert RevokePairOk(s, r, c) && RevokerOk(s, r) && UpOk(s, c); }
    forall d: nat, c ensures DrainPairOk(s', d, c) { assert DrainPairOk(s, d, c) && DrainerOk(s, d) && UpOk(s, c); }
  }

  lemma KeysKeep(s: State, a: Action)
    requires Inv(s) && Enabled(s, a)
    ensures forall key :: KeyOk(Step(s, a), key)
    ensures Step(s, a).draining ==> exists d :: d in Step(s, a).drainers
  {
    var s' := Step(s, a);
    forall key ensures KeyOk(s', key) {
      assert KeyOk(s, key);
      if key in s.closedKeys {
        var r :| Past(s, r, key);
        assert Past(s', r, key);
      } else if key in s'.closedKeys { assert Past(s', a.r, key); }
    }
    if s.draining { var d :| d in s.drainers; assert d in s'.drainers; }
    else if s'.draining { assert a.d in s'.drainers; }
  }

  lemma OnesKeep(s: State, a: Action)
    requires Inv(s) && Enabled(s, a)
    ensures OnesOk(Step(s, a))
  {
    var s' := Step(s, a);
    forall c ensures UpOk(s', c) { assert UpOk(s, c); }
    forall r ensures RevokerOk(s', r) { assert RevokerOk(s, r); }
    forall d ensures DrainerOk(s', d) { assert DrainerOk(s, d); }
  }

  lemma StepKeeps(s: State, a: Action)
    requires Inv(s) && Enabled(s, a)
    ensures Inv(Step(s, a))
  {
    OnesKeep(s, a);
    PairsKeep(s, a);
    KeysKeep(s, a);
  }

  ghost predicate IsRun(run: seq<State>, acts: seq<Action>) {
    && |run| == |acts| + 1 && run[0] == START
    && forall i :: 0 <= i < |acts| ==> Enabled(run[i], acts[i]) && run[i + 1] == Step(run[i], acts[i])
  }

  lemma {:induction false} RunKeeps(run: seq<State>, acts: seq<Action>, n: nat)
    requires IsRun(run, acts) && n < |run|
    ensures forall i :: 0 <= i <= n ==> Inv(run[i])
  {
    if n > 0 {
      RunKeeps(run, acts, n - 1);
      StepKeeps(run[n - 1], acts[n - 1]);
    }
  }

  // ----- the barrier ----------------------------------------------------------------------------------

  /** Once CloseKey has run for a connection's key, or the draining flag is set, the connection has
      not reached Add (which will refuse it), was refused, was sent a close or has one under way, is in
      the hands of a revoker or drainer that is about to start one, or has left. */
  lemma AdmissionBarrier(run: seq<State>, acts: seq<Action>, n: nat, c: nat)
    requires IsRun(run, acts) && n < |run| && c in run[n].ups && Refuses(run[n], run[n].ups[c].key)
    ensures var s := run[n];
      || s.ups[c].pc in {Looking, Passed, Rejected, Refused, Gone}
      || Told(s, c)
      || (exists r :: RevokerHas(s, r, c)) || (exists d :: DrainerHas(s, d, c))
    ensures At(run[n], c, Passed) ==> At(Step(run[n], Add(c)), c, Refused) && Step(run[n], Add(c)).conns == run[n].conns
  {
    RunKeeps(run, acts, n);
    var s := run[n];
    assert UpOk(s, c);
    if c in s.conns {
      if s.draining {
        var d :| d in s.drainers;
        assert DrainPairOk(s, d, c);
        assert !Told(s, c) ==> DrainerHas(s, d, c);
      } else {
        assert KeyOk(s, s.ups[c].key);
        var r :| Past(s, r, s.ups[c].key);
        assert RevokePairOk(s, r, c);
      }
    }
  }

  /** Once a revoke has answered, every connection of its key that is still tracked was sent a
      close, or its close is under way; and no other ever will be tracked (TrackedShrinks). */
  lemma RevokeIsFinal(run: seq<State>, acts: seq<Action>, n: nat, r: nat, c: nat)
    requires IsRun(run, acts) && n < |run| && r in run[n].revokers && run[n].revokers[r].pc.Revoked?
    requires c in run[n].conns && c in run[n].ups && run[n].ups[c].key == run[n].revokers[r].key
    ensures Told(run[n], c)
  {
    RunKeeps(run, acts, n);
    assert RevokePairOk(run[n], r, c);
  }

  /** Once a Drain has gone through its snapshot, every tracked connection was sent a close, or its
      close is under way, although flag and snapshot are two critical sections. */
  lemma DrainMissesNobody(run: seq<State>, acts: seq<Action>, n: nat, d: nat, c: nat)
    requires IsRun(run, acts) && n < |run| && d in run[n].drainers && c in run[n].conns
    requires !run[n].drainers[d].Flagged? && (run[n].drainers[d].Starting? ==> run[n].drainers[d].rest == {})
    ensures Told(run[n], c)
  {
    RunKeeps(run, acts, n);
    assert DrainPairOk(run[n], d, c);
  }

  lemma ToldStep(s: State, a: Action, c: nat)
    requires Enabled(s, a) && Told(s, c)
    ensures Told(Step(s, a), c) && (c in s.closeSent ==> c in Step(s, a).closeSent)
  {
  }

  /** Being told is for good: a close under way stays so until it is sent. */
  lemma {:induction false} ToldStays(run: seq<State>, acts: seq<Action>, m: nat, n: nat, c: nat)
    requires IsRun(run, acts) && m <= n < |run| && Told(run[m], c)
    ensures Told(run[n], c) && (c in run[m].closeSent ==> c in run[n].closeSent)
    decreases n - m
  {
    if m < n {
      ToldStep(run[m], acts[m], c);
      ToldStays(run, acts, m + 1, n, c);
    }
  }

  lemma RefusalStep(s: State, a: Action, key: nat)
    requires Inv(s) && Enabled(s, a) && Refuses(s, key)
    ensures Refuses(Step(s, a), key)
    ensures forall c :: c in Step(s, a).conns && c in Step(s, a).ups && Step(s, a).ups[c].key == key ==>
      c in s.conns && c in s.ups && s.ups[c].key == key
  {
    forall c: nat ensures UpOk(s, c) {}
    assert a.Arrive? ==> UpOk(s, a.c);
  }

  /** From then on the affected part of the tracked set only shrinks: one key's connections after
      CloseKey, all of them once draining. */
  lemma {:induction false} TrackedShrinks(run: seq<State>, acts: seq<Action>, m: nat, n: nat, key: nat)
    requires IsRun(run, acts) && m <= n < |run| && Refuses(run[m], key)
    ensures Refuses(run[n], key)
    ensures forall c :: c in run[n].conns && c in run[n].ups && run[n].ups[c].key == key ==>
      c in run[m].conns && c in run[m].ups && run[m].ups[c].key == key
    decreases n - m
  {
    if m < n {
      RunKeeps(run, acts, m);
      RefusalStep(run[m], acts[m], key);
      TrackedShrinks(run, acts, m + 1, n, key);
    }
  }

  /** Drain returns only with nobody tracked, or everybody still tracked force-closed. */
  lemma DrainLeavesNobody(run: seq<State>, acts: seq<Action>, n: nat, d: nat)
    requires IsRun(run, acts) && n < |run| && d in run[n].drainers && run[n].drainers[d].Drained?
    ensures run[n].draining && run[n].conns <= run[n].forced
  {
    RunKeeps(run, acts, n);
    assert DrainerOk(run[n], d);
  }

  // ----- who gets in ----------------------------------------------------------------------------------

  /** Before the n-th step a Drain had set the flag, or a CloseKey of this key had run. */
  ghost predicate Shut(run: seq<State>, acts: seq<Action>, n: nat, key: nat)
    requires n <= |acts| < |run|
  {
    exists i :: 0 <= i < n && (acts[i].SetDraining? || Closes(run[i], acts[i], key))
  }

  ghost predicate Closes(s: State, a: Action, key: nat) {
    a.CloseKey? && a.r in s.revokers && s.revokers[a.r].key == key
  }

  lemma {:induction false} ShutIffRefuses(run: seq<State>, acts: seq<Action>, n: nat, key: nat)
    requires IsRun(run, acts) && n < |run|
    ensures Refuses(run[n], key) <==> Shut(run, acts, n, key)
  {
    if n > 0 {
      ShutIffRefuses(run, acts, n - 1, key);
      RefusesStep(run[n - 1], acts[n - 1], key);
    }
  }

  lemma RefusesStep(s: State, a: Action, key: nat)
    requires Enabled(s, a)
    ensures Refuses(Step(s, a), key) <==> Refuses(s, key) || a.SetDraining? || Closes(s, a, key)
  {
  }

  /** An upgrade that reaches Add is tracked if and only if no Drain and no CloseKey of its key came before
      it, and otherwise refused. */
  lemma AddedIff(run: seq<State>, acts: seq<Action>, n: nat, c: nat)
    requires IsRun(run, acts) && n < |acts| && acts[n] == Add(c)
    ensures c in run[n].ups && c !in run[n].conns
    ensures var shut := Shut(run, acts, n, run[n].ups[c].key);
      run[n + 1].conns == (if shut then run[n].conns else run[n].conns + {c}) && (shut <==> At(run[n + 1], c, Refused))
  {
    RunKeeps(run, acts, n);
    assert UpOk(run[n], c);
    ShutIffRefuses(run, acts, n, run[n].ups[c].key);
  }

  ghost predicate WasRevoked(acts: seq<Action>, n: nat, key: nat)
    requires n <= |acts|
  {
    exists i :: 0 <= i < n && acts[i].RevokeKey? && acts[i].key == key
  }

  lemma {:induction false} RevokedIff(run: seq<State>, acts: seq<Action>, n: nat, key: nat)
    requires IsRun(run, acts) && n < |run|
    ensures key in run[n].revoked <==> WasRevoked(acts, n, key)
  {
    if n > 0 { RevokedIff(run, acts, n - 1, key); }
  }

  /** The look-up lets an upgrade pass if and only if the store had not been told of a revoke of its key. */
  lemma LookedUpIff(run: seq<State>, acts: seq<Action>, n: nat, c: nat)
    requires IsRun(run, acts) && n < |acts| && acts[n] == LookupKey(c)
    ensures c in run[n].ups && (At(run[n + 1], c, Passed) <==> !WasRevoked(acts, n, run[n].ups[c].key))
  {
    RevokedIff(run, acts, n, run[n].ups[c].key);
  }

  /** Whoever is refused by Add and has gone was sent its close. */
  lemma {:induction false} RefusedIsSent(run: seq<State>, acts: seq<Action>, m: nat, n: nat, c: nat)
    requires IsRun(run, acts) && m <= n < |run| && At(run[m], c, Refused)
    ensures At(run[n], c, Refused) || (At(run[n], c, Gone) && c in run[n].closeSent)
    decreases n
  {
    if m < n {
      RefusedIsSent(run, acts, m, n - 1, c);
      RefusedStep(run[n - 1], acts[n - 1], c);
    }
  }

  lemma RefusedStep(s: State, a: Action, c: nat)
    requires Enabled(s, a) && (At(s, c, Refused) || (At(s, c, Gone) && c in s.closeSent))
    ensures var s' := Step(s, a); At(s', c, Refused) || (At(s', c, Gone) && c in s'.closeSent)
  {
  }

  /** c belongs to the revoked key and has not passed the look-up. */
  ghost predicate Barred(s: State, c: nat, key: nat) {
    key in s.revoked && (c in s.ups && s.ups[c].key == key ==> s.ups[c].pc in {Looking, Rejected})
  }

  lemma BarredStep(s: State, a: Action, c: nat, key: nat)
    requires Enabled(s, a) && Barred(s, c, key)
    ensures Barred(Step(s, a), c, key)
  {
  }

  /** An upgrade that looks its key up after the store was told of the revoke never gets to the hub, even
      before CloseKey has run. */
  lemma {:induction false} RevokedNeverTracked(run: seq<State>, acts: seq<Action>, m: nat, n: nat, r: nat, key: nat,
      c: nat)
    requires IsRun(run, acts) && m < n < |run| && acts[m] == RevokeKey(r, key)
    requires c !in run[m].ups || At(run[m], c, Looking)
    ensures Barred(run[n], c, key) && (c in run[n].ups && run[n].ups[c].key == key ==> c !in run[n].conns)
    decreases n
  {
    if m + 1 < n {
      RevokedNeverTracked(run, acts, m, n - 1, r, key, c);
      BarredStep(run[n - 1], acts[n - 1], c, key);
    }
    RunKeeps(run, acts, n);
    assert UpOk(run[n], c);
  }

  // ----- who is told ----------------------------------------------------------------------------------

  /** Whoever was told to close, or is about to be, had it coming: a Drain had begun, or the connection's own
      key was closed. */
  ghost predicate Deserved(s: State, c: nat) {
    var holds :=
      && (Told(s, c) || (exists d :: d in s.drainers && s.drainers[d].Starting? && c in s.drainers[d].rest) ==>
            c in s.ups && Refuses(s, s.ups[c].key))
      && (At(s, c, Refused) ==> Refuses(s, s.ups[c].key));
    holds
  }

  /** A revoke is at the connections of its own key only. */
  ghost predicate OwnKey(s: State, c: nat) {
    forall r :: RevokerHas(s, r, c) ==> c in s.ups && s.ups[c].key == s.revokers[r].key
  }

  lemma OwnKeyStep(s: State, a: Action, c: nat)
    requires Enabled(s, a) && OwnKey(s, c)
    ensures OwnKey(Step(s, a), c)
  {
    forall r | RevokerHas(Step(s, a), r, c)
      ensures c in Step(s, a).ups && Step(s, a).ups[c].key == Step(s, a).revokers[r].key
    {
      assert RevokerHas(s, r, c) ==> c in s.ups && s.ups[c].key == s.revokers[r].key;
    }
  }

  lemma DeservedStep(s: State, a: Action, c: nat)
    requires Inv(s) && Enabled(s, a) && OwnKey(s, c) && Deserved(s, c)
    ensures Deserved(Step(s, a), c)
  {
    assert UpOk(s, c);
    if a.StartClose? { assert RevokerOk(s, a.r) && RevokerHas(s, a.r, a.c); }
    if a.Snapshot? { assert DrainerOk(s, a.d); }
  }

  /** Nobody else is told to close: a connection whose key is not closed is left alone until a Drain. */
  lemma {:induction false} OnlyTheRevokedAreTold(run: seq<State>, acts: seq<Action>, n: nat, c: nat)
    requires IsRun(run, acts) && n < |run|
    ensures OwnKey(run[n], c) && Deserved(run[n], c)
    ensures Told(run[n], c) ==> c in run[n].ups && Shut(run, acts, n, run[n].ups[c].key)
  {
    if n > 0 {
      OnlyTheRevokedAreTold(run, acts, n - 1, c);
      RunKeeps(run, acts, n - 1);
      OwnKeyStep(run[n - 1], acts[n - 1], c);
      DeservedStep(run[n - 1], acts[n - 1], c);
    }
    if c in run[n].ups { ShutIffRefuses(run, acts, n, run[n].ups[c].key); }
  }

  // ----- everybody gets on ----------------------------------------------------------------------------

  ghost function RevokeRank(p: RevPc): nat {
    match p
    case Stored => 0
    case Closing(rest) => 1 + |rest|
    case Revoked => 0
  }

  /** Once CloseKey has matched its connections a revoke has a step left for each and one to end with. */
  lemma RevokeAdvances(s: State, a: Action, r: nat)
    requires Enabled(s, a) && r in s.revokers && s.revokers[r].pc.Closing?
    requires (a.StartClose? && a.r == r) || a == RevokeDone(r)
    ensures r in Step(s, a).revokers && RevokeRank(Step(s, a).revokers[r].pc) == RevokeRank(s.revokers[r].pc) - 1
    ensures a.StartClose? ==> Told(Step(s, a), a.c)
  {
    if a.StartClose? { assert |s.revokers[r].pc.rest - {a.c}| == |s.revokers[r].pc.rest| - 1; }
  }

  lemma RevokeMoves(s: State, r: nat)
    requires r in s.revokers && !s.revokers[r].pc.Revoked?
    ensures exists a :: Enabled(s, a) && (a in {CloseKey(r), RevokeDone(r)} || (a.StartClose? && a.r == r))
  {
    match s.revokers[r].pc
    case Stored => assert Enabled(s, CloseKey(r));
    case Closing(rest) =>
      if c :| c in rest { assert Enabled(s, StartClose(r, c)); } else { assert Enabled(s, RevokeDone(r)); }
  }

  ghost function DrainStage(d: Drainer): nat {
    match d case Flagged => 3 case Starting(_) => 2 case Forcing(_) => 1 case Drained => 0
  }

  ghost function DrainLeft(d: Drainer): nat {
    match d case Starting(rest) => |rest| case Forcing(rest) => |rest| case _ => 0
  }

  ghost predicate OfDrain(a: Action, d: nat) {
    || a in {Snapshot(d), AllGone(d), GraceOver(d), ForceDone(d)}
    || (a.StartGoingAway? && a.d == d) || (a.Force? && a.d == d)
  }

  /** Each step of a Drain brings it to a later stage, or deals with one more connection of this one; and
      until it is over one is enabled. */
  lemma DrainAdvances(s: State, a: Action, d: nat)
    requires Enabled(s, a) && OfDrain(a, d)
    ensures d in Step(s, a).drainers
    ensures var was, now := s.drainers[d], Step(s, a).drainers[d];
      DrainStage(now) < DrainStage(was) || (DrainStage(now) == DrainStage(was) && DrainLeft(now) < DrainLeft(was))
  {
    if a.StartGoingAway? { assert |s.drainers[d].rest - {a.c}| == |s.drainers[d].rest| - 1; }
    if a.Force? { assert |s.drainers[d].rest - {a.c}| == |s.drainers[d].rest| - 1; }
  }

  lemma DrainMoves(s: State, d: nat)
    requires d in s.drainers && !s.drainers[d].Drained?
    ensures exists a :: OfDrain(a, d) && Enabled(s, a)
  {
    match s.drainers[d]
    case Flagged => assert OfDrain(Snapshot(d), d);
    case Starting(rest) =>
      if c :| c in rest { assert OfDrain(StartGoingAway(d, c), d); }
      else if s.conns == {} { assert OfDrain(AllGone(d), d); } else { assert OfDrain(GraceOver(d), d); }
    case Forcing(rest) =>
      if c :| c in rest { assert OfDrain(Force(d, c), d); } else { assert OfDrain(ForceDone(d), d); }
  }

  ghost function UpRank(pc: UpPc): nat {
    match pc
    case Looking => 5
    case Passed => 4
    case Tracked => 2
    case Refused => 1
    case Leaving => 1
    case _ => 0
  }

  lemma ArrivesLooking(s: State, c: nat, key: nat)
    requires Enabled(s, Arrive(c, key))
    ensures At(Step(s, Arrive(c, key)), c, Looking) && Step(s, Arrive(c, key)).ups[c].key == key
  {
  }

  /** An upgrade only ever moves on. */
  lemma UpAdvances(s: State, a: Action, c: nat)
    requires Enabled(s, a) && a in {LookupKey(c), TurnAway(c), Add(c), SendRefusal(c), HangUp(c), Remove(c)}
    ensures c in Step(s, a).ups && UpRank(Step(s, a).ups[c].pc) < UpRank(s.ups[c].pc)
  {
  }
}
