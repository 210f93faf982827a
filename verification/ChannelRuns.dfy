/** Channels, the registry, connections and sweepers as interleaved steps: internal/registry,
    internal/hub/channel.go and the subscribe, unsubscribe and exit paths of internal/conn.
    One step is one critical section, or one registry call, of one goroutine. Nobody calls
    Registry.Delete. */
module ChannelRuns {
  import opened Options

  const MAX_CHANNELS_PER_CONN: nat := 64
  const MAX_SUBS_PER_CHANNEL: nat := 10000
  const MAX_SUBSCRIBE_RETRIES: nat := 3

  /** A Channel object. `lock` is the sweeper inside SubsMu, `at` when Deleted was set. */
  datatype Chan = Chan(name: string, subs: set<nat>, deleted: bool, at: nat, lock: Option<nat>)

  /** Where a connection's goroutine is: its read pump between or inside frames, or Run's exit. */
  datatype Pc =
    | Idle
    | Getting(name: string)             // about to look the name up
    | Missed(name: string)              // GetOrCreate's first lookup found nothing
    | Got(name: string, ch: nat)        // about to call hub.Subscribe
    | Joined(name: string, ch: nat)     // subscribed, c.subs not yet set
    | Leaving(ch: nat)                  // out of c.subs, about to call hub.Unsubscribe
    | Exiting(rest: set<nat>)           // c.subs is nil, channels still to leave
    | Gone

  /** `since` is when the current subscribe frame began, `swept` the channels it found Deleted. */
  datatype Conn = Conn(subs: map<string, nat>, pc: Pc, since: nat, swept: seq<nat>)

  /** Sweep's callback: SubsMu held on an empty channel, entry removed, Deleted set. */
  datatype Sweeper = Resting | Holding(ch: nat) | Removed(ch: nat) | Marked(ch: nat)

  /** A subscribe answered with SUBSCRIBE_FAILED. */
  datatype Failure = Failure(name: string, since: nat, swept: seq<nat>)

  datatype State = State(
    chans: map<nat, Chan>,
    reg: map<string, nat>,
    conns: map<nat, Conn>,
    sweepers: map<nat, Sweeper>,
    failures: seq<Failure>,
    next: nat,
    clock: nat)

  datatype Action =
    | Connect(c: nat)
    | StartSubscribe(c: nat, name: string)
    | Lookup(c: nat)
    | Insert(c: nat)
    | TrySubscribe(c: nat)
    | Record(c: nat)
    | StartUnsubscribe(c: nat, name: string)
    | FinishUnsubscribe(c: nat)
    | Exit(c: nat)
    | ExitOne(c: nat, ch: nat)
    | ExitDone(c: nat)
    | SweepLock(w: nat, ch: nat)
    | SweepRemove(w: nat)
    | SweepMark(w: nat)
    | SweepUnlock(w: nat)

  predicate Free(s: State, ch: nat) { ch in s.chans && s.chans[ch].lock.None? }

  predicate Enabled(s: State, a: Action) {
    match a
    case Connect(c) => c !in s.conns
    case StartSubscribe(c, name) =>
      c in s.conns && s.conns[c].pc.Idle? && name !in s.conns[c].subs && |s.conns[c].subs| < MAX_CHANNELS_PER_CONN
    case Lookup(c) => c in s.conns && s.conns[c].pc.Getting?
    case Insert(c) => c in s.conns && s.conns[c].pc.Missed?
    case TrySubscribe(c) => c in s.conns && s.conns[c].pc.Got? && Free(s, s.conns[c].pc.ch)
    case Record(c) => c in s.conns && s.conns[c].pc.Joined?
    case StartUnsubscribe(c, name) => c in s.conns && s.conns[c].pc.Idle? && name in s.conns[c].subs
    case FinishUnsubscribe(c) => c in s.conns && s.conns[c].pc.Leaving? && Free(s, s.conns[c].pc.ch)
    case Exit(c) => c in s.conns && s.conns[c].pc.Idle?
    case ExitOne(c, ch) => c in s.conns && s.conns[c].pc.Exiting? && ch in s.conns[c].pc.rest && Free(s, ch)
    case ExitDone(c) => c in s.conns && s.conns[c].pc == Exiting({})
    case SweepLock(w, ch) => (w !in s.sweepers || s.sweepers[w].Resting?) && Free(s, ch) && s.chans[ch].subs == {}
    case SweepRemove(w) => w in s.sweepers && s.sweepers[w].Holding? && s.sweepers[w].ch in s.chans
    case SweepMark(w) => w in s.sweepers && s.sweepers[w].Removed? && s.sweepers[w].ch in s.chans
    case SweepUnlock(w) => w in s.sweepers && s.sweepers[w].Marked? && s.sweepers[w].ch in s.chans
  }

  function SetPc(s: State, c: nat, pc: Pc): map<nat, Conn>
    requires c in s.conns
  {
    s.conns[c := s.conns[c].(pc := pc)]
  }

  function SetSubs(s: State, ch: nat, subs: set<nat>): map<nat, Chan>
    requires ch in s.chans
  {
    s.chans[ch := s.chans[ch].(subs := subs)]
  }

  /** hub.Subscribe under SubsMu, and what handleSubscribe does with its result. */
  function Try(s: State, c: nat): State
    requires Enabled(s, TrySubscribe(c))
  {
    var k := s.conns[c];
    var ch := k.pc.ch;
    if s.chans[ch].deleted then
      var swept := k.swept + [ch];
      if |swept| < MAX_SUBSCRIBE_RETRIES then s.(conns := s.conns[c := k.(pc := Getting(k.pc.name), swept := swept)])
      else s.(conns := s.conns[c := k.(pc := Idle, swept := swept)],
              failures := s.failures + [Failure(k.pc.name, k.since, swept)])
    else if |s.chans[ch].subs| >= MAX_SUBS_PER_CHANNEL then s.(conns := SetPc(s, c, Idle))
    else s.(chans := SetSubs(s, ch, s.chans[ch].subs + {c}), conns := SetPc(s, c, Joined(k.pc.name, ch)))
  }

  /** GetOrCreate's second half: the write-locked re-check, or LoadOrStore. */
  function DoInsert(s: State, c: nat): State
    requires Enabled(s, Insert(c))
  {
    var name := s.conns[c].pc.name;
    if name in s.reg then s.(conns := SetPc(s, c, Got(name, s.reg[name])))
    else s.(chans := s.chans[s.next := Chan(name, {}, false, 0, None)], reg := s.reg[name := s.next],
            conns := SetPc(s, c, Got(name, s.next)), next := s.next + 1)
  }

  function Do(s: State, a: Action): State
    requires Enabled(s, a)
  {
    match a
    case Connect(c) => s.(conns := s.conns[c := Conn(map[], Idle, 0, [])])
    case StartSubscribe(c,
      name) => s.(conns := s.conns[c := s.conns[c].(pc := Getting(name), since := s.clock, swept := [])])
    case Lookup(c) =>
      var name := s.conns[c].pc.name;
      s.(conns := SetPc(s, c, if name in s.reg then Got(name, s.reg[name]) else Missed(name)))
    case Insert(c) => DoInsert(s, c)
    case TrySubscribe(c) => Try(s, c)
    case Record(c) =>
      var k := s.conns[c];
      s.(conns := s.conns[c := k.(pc := Idle, subs := k.subs[k.pc.name := k.pc.ch])])
    case StartUnsubscribe(c, name) =>
      var k := s.conns[c];
      s.(conns := s.conns[c := k.(pc := Leaving(k.subs[name]), subs := k.subs - {name})])
    case FinishUnsubscribe(c) =>
      var ch := s.conns[c].pc.ch;
      s.(chans := SetSubs(s, ch, s.chans[ch].subs - {c}), conns := SetPc(s, c, Idle))
    case Exit(c) =>
      var k := s.conns[c];
      s.(conns := s.conns[c := k.(pc := Exiting(k.subs.Values), subs := map[])])
    case ExitOne(c, ch) =>
      s.(chans := SetSubs(s, ch, s.chans[ch].subs - {c}), conns := SetPc(s, c, Exiting(s.conns[c].pc.rest - {ch})))
    case ExitDone(c) => s.(conns := SetPc(s, c, Gone))
    case SweepLock(w, ch) =>
      s.(chans := s.chans[ch := s.chans[ch].(lock := Some(w))], sweepers := s.sweepers[w := Holding(ch)])
    case SweepRemove(w) =>
      var ch := s.sweepers[w].ch;
      var name := s.chans[ch].name;
      s.(reg := if name in s.reg && s.reg[name] == ch then s.reg - {name}
        else s.reg, sweepers := s.sweepers[w := Removed(ch)])
    case SweepMark(w) =>
      var ch := s.sweepers[w].ch;
      s.(chans := s.chans[ch := if s.chans[ch].deleted then s.chans[ch]
        else s.chans[ch].(deleted := true, at := s.clock)],
         sweepers := s.sweepers[w := Marked(ch)])
    case SweepUnlock(w) =>
      var ch := s.sweepers[w].ch;
      s.(chans := s.chans[ch := s.chans[ch].(lock := None)], sweepers := s.sweepers[w := Resting])
  }

  function Step(s: State, a: Action): State
    requires Enabled(s, a)
  {
    Do(s, a).(clock := s.clock + 1)
  }

  const START := State(map[], map[], map[], map[], [], 0, 0)

  // ----- the invariant ----------------------------------------------------------------------------

  ghost predicate InSweep(s: State, w: nat, ch: nat) {
    w in s.sweepers && s.sweepers[w] in {Holding(ch), Removed(ch), Marked(ch)}
  }

  ghost predicate BeingRemoved(s: State, ch: nat) {
    ch in s.chans && s.chans[ch].lock.Some? && s.chans[ch].lock.value in s.sweepers
      && s.sweepers[s.chans[ch].lock.value] == Removed(ch)
  }

  ghost predicate IsEntry(s: State, ch: nat) {
    ch in s.chans && s.chans[ch].name in s.reg && s.reg[s.chans[ch].name] == ch
  }

  ghost predicate ChanOk(s: State, ch: nat) {
    ch !in s.chans ||
      (var k := s.chans[ch];
       && ch < s.next && |k.subs| <= MAX_SUBS_PER_CHANNEL
       && (k.lock.Some? ==> k.subs == {} && InSweep(s, k.lock.value, ch))
       && (k.deleted ==> k.subs == {} && !IsEntry(s, ch))
       && (k.deleted || IsEntry(s, ch) || BeingRemoved(s, ch))
       && (BeingRemoved(s, ch) ==> !IsEntry(s, ch)))
  }

  ghost predicate EntryOk(s: State, name: string) {
    name in s.reg ==> s.reg[name] in s.chans && s.chans[s.reg[name]].name == name
  }

  ghost predicate SweeperOk(s: State, w: nat) {
    w in s.sweepers && !s.sweepers[w].Resting? ==>
      && s.sweepers[w].ch in s.chans && s.chans[s.sweepers[w].ch].lock == Some(w)
      && (s.sweepers[w].Marked? ==> s.chans[s.sweepers[w].ch].deleted)
  }

  ghost predicate Subscribed(s: State, c: nat, name: string, ch: nat) {
    ch in s.chans && s.chans[ch].name == name && c in s.chans[ch].subs
  }

  /** The channels one subscribe frame found Deleted: distinct, of that name, swept since it began. */
  ghost predicate SweptSince(s: State, name: string, since: nat, swept: seq<nat>) {
    && (forall i :: 0 <= i < |swept| ==>
          swept[i] in s.chans && s.chans[swept[i]].name == name && s.chans[swept[i]].deleted
            && since <= s.chans[swept[i]].at)
    && (forall i, j :: 0 <= i < j < |swept| ==> swept[i] != swept[j])
  }

  ghost predicate Trying(s: State, k: Conn, name: string) {
    name !in k.subs && |k.subs| < MAX_CHANNELS_PER_CONN
    && |k.swept| < MAX_SUBSCRIBE_RETRIES && SweptSince(s, name, k.since, k.swept)
  }

  ghost predicate ConnOk(s: State, c: nat) {
    c !in s.conns ||
      (var k := s.conns[c];
       && |k.subs| <= MAX_CHANNELS_PER_CONN && k.since <= s.clock
       && (forall n :: n in k.subs ==> Subscribed(s, c, n, k.subs[n]))
       && match k.pc
          case Idle => true
          case Getting(name) => Trying(s, k, name)
          case Missed(name) => Trying(s, k, name)
          case Got(name, ch) =>
            Trying(s, k, name) && ch in s.chans && s.chans[ch].name == name && ch !in k.swept
            && (s.chans[ch].deleted ==> k.since <= s.chans[ch].at)
          case Joined(name, ch) => name !in k.subs && |k.subs| < MAX_CHANNELS_PER_CONN && Subscribed(s, c, name, ch)
          case Leaving(ch) => ch in s.chans && s.chans[ch].name !in k.subs
          case Exiting(rest) => k.subs == map[] && (forall ch :: ch in rest ==> ch in s.chans)
          case Gone => k.subs == map[])
  }

  /** Why a connection is among a channel's subscribers. */
  ghost predicate Explains(k: Conn, name: string, ch: nat) {
    || (name in k.subs && k.subs[name] == ch)
    || k.pc == Joined(name, ch)
    || k.pc == Leaving(ch)
    || (k.pc.Exiting? && ch in k.pc.rest)
  }

  ghost predicate MemberOk(s: State, ch: nat, c: nat) {
    ch in s.chans && c in s.chans[ch].subs ==> c in s.conns && Explains(s.conns[c], s.chans[ch].name, ch)
  }

  ghost predicate FailureOk(s: State, f: Failure) {
    |f.swept| == MAX_SUBSCRIBE_RETRIES && SweptSince(s, f.name, f.since, f.swept)
  }

  ghost predicate Inv(s: State) {
    var holds :=
      && (forall ch :: ChanOk(s, ch))
      && (forall name :: EntryOk(s, name))
      && (forall w :: SweeperOk(s, w))
      && (forall c :: ConnOk(s, c))
      && (forall ch, c :: MemberOk(s, ch, c))
      && (forall f :: f in s.failures ==> FailureOk(s, f));
    holds
  }

  lemma StartInv()
    ensures Inv(START)
  {
  }

  // ----- preservation: what one step leaves alone ----------------------------------------------------

  /** Channels keep their name, stay deleted with their date, and subscribers other than c stay. */
  ghost predicate Carries(s: State, s': State, ch: nat)
    requires ch in s.chans
  {
    && ch in s'.chans && s'.chans[ch].name == s.chans[ch].name
    && (s.chans[ch].deleted ==> s'.chans[ch].deleted && s'.chans[ch].at == s.chans[ch].at)
    && (s'.chans[ch].deleted && !s.chans[ch].deleted ==> s'.chans[ch].at == s.clock)
  }

  ghost predicate Onward(s: State, s': State) {
    s'.clock == s.clock + 1 && s.next <= s'.next && forall ch :: ch in s.chans ==> Carries(s, s', ch)
  }

  /** A connection the step did not move, whose subscriptions were not taken away. */
  lemma OtherConn(s: State, s': State, c: nat)
    requires ConnOk(s, c) && Onward(s, s') && c in s.conns && c in s'.conns && s'.conns[c] == s.conns[c]
    requires forall ch :: ch in s.chans && c in s.chans[ch].subs ==> ch in s'.chans && c in s'.chans[ch].subs
    ensures ConnOk(s', c)
  {
    var k := s.conns[c];
    forall n | n in k.subs ensures Subscribed(s', c, n, k.subs[n]) { assert Carries(s, s', k.subs[n]); }
    match k.pc
    case Getting(name) =>
    case Missed(name) =>
    case Got(name, ch) =>  assert Carries(s, s', ch);
    case Joined(name, ch) => assert Carries(s, s', ch);
    case Leaving(ch) => assert Carries(s, s', ch);
    case Exiting(rest) => forall ch | ch in rest ensures ch in s'.chans { assert Carries(s, s', ch); }
    case _ =>
  }

  // ----- steps of a connection ---------------------------------------------------------------------------

  /** Only connection c moved, and no channel, entry or sweeper changed. */
  ghost predicate OnlyConn(s: State, s': State, c: nat) {
    && s' == s.(conns := s'.conns, failures := s'.failures, clock := s.clock + 1)
    && c in s'.conns && s'.conns == s.conns[c := s'.conns[c]]
  }

  lemma OnlyConnKeeps(s: State, s': State, c: nat)
    requires Inv(s) && OnlyConn(s, s', c) && ConnOk(s', c) && (forall ch :: MemberOk(s', ch, c))
    requires forall f :: f in s'.failures ==> f in s.failures || FailureOk(s', f)
    ensures Inv(s')
  {
    forall ch ensures ChanOk(s', ch) { assert ChanOk(s, ch); }
    forall n ensures EntryOk(s', n) { assert EntryOk(s, n); }
    forall w ensures SweeperOk(s', w) { assert SweeperOk(s, w); }
    forall d ensures ConnOk(s', d) { assert ConnOk(s, d); if d != c && d in s.conns { OtherConn(s, s', d); } }
    forall ch, d ensures MemberOk(s', ch, d) { assert MemberOk(s, ch, d); }
  }

  /** c moved and one channel gained or lost it as a subscriber. */
  ghost predicate OnlyMember(s: State, s': State, c: nat, ch: nat) {
    && ch in s.chans && ch in s'.chans && s.chans[ch].lock.None?
    && s' == s.(chans := s.chans[ch := s.chans[ch].(subs := s'.chans[ch].subs)], conns := s'.conns,
      clock := s.clock + 1)
    && c in s.conns && c in s'.conns && s'.conns == s.conns[c := s'.conns[c]]
    && (forall d :: d != c ==> (d in s'.chans[ch].subs <==> d in s.chans[ch].subs))
  }

  lemma OnlyMemberKeeps(s: State, s': State, c: nat, ch: nat)
    requires Inv(s) && OnlyMember(s, s', c, ch) && ConnOk(s', c) && (forall k :: MemberOk(s', k, c))
    requires |s'.chans[ch].subs| <= MAX_SUBS_PER_CHANNEL && (s.chans[ch].deleted ==> s'.chans[ch].subs == {})
    ensures Inv(s')
  {
    forall k ensures ChanOk(s', k) {
      assert ChanOk(s, k);
      assert BeingRemoved(s', k) == BeingRemoved(s, k) && IsEntry(s', k) == IsEntry(s, k);
    }
    forall n ensures EntryOk(s', n) { assert EntryOk(s, n); }
    forall w ensures SweeperOk(s', w) { assert SweeperOk(s, w); }
    forall d ensures ConnOk(s', d) { assert ConnOk(s, d); if d != c && d in s.conns { OtherConn(s, s', d); } }
    forall k, d ensures MemberOk(s', k, d) { assert MemberOk(s, k, d); }
  }

  /** The steps between two critical sections of a subscribe, unsubscribe or exit. */
  lemma WalkKeeps(s: State, a: Action, c: nat)
    requires Inv(s) && Walks(a, c) && Enabled(s, a)
    ensures Inv(Step(s, a))
  {
    WalkConn(s, a, c);
    WalkOnly(s, a, c);
    forall ch ensures MemberOk(Step(s, a), ch, c) { WalkMember(s, a, ch, c); }
    OnlyConnKeeps(s, Step(s, a), c);
  }

  lemma WalkOnly(s: State, a: Action, c: nat)
    requires Walks(a, c) && Enabled(s, a)
    ensures OnlyConn(s, Step(s, a), c) && Step(s, a).failures <= s.failures
  {
  }

  lemma WalkMember(s: State, a: Action, ch: nat, c: nat)
    requires MemberOk(s, ch, c) && ConnOk(s, c) && Walks(a, c) && Enabled(s, a)
    ensures MemberOk(Step(s, a), ch, c)
  {
  }

  predicate Walks(a: Action, c: nat) {
    a in {Connect(c), Lookup(c), Record(c), Exit(c), ExitDone(c)} || (a.StartSubscribe? && a.c == c)
      || (a.StartUnsubscribe? && a.c == c)
  }

  lemma WalkConn(s: State, a: Action, c: nat)
    requires Inv(s) && Walks(a, c) && Enabled(s, a)
    ensures ConnOk(Step(s, a), c)
  {
    var s' := Step(s, a);
    assert ConnOk(s, c);
    match a
    case Record(_) =>
    case StartUnsubscribe(_, name) =>
    case Lookup(_) => LookupConn(s, c);
    case _ =>
  }

  lemma LookupConn(s: State, c: nat)
    requires Inv(s) && Enabled(s, Lookup(c))
    ensures ConnOk(Step(s, Lookup(c)), c)
  {
    var name := s.conns[c].pc.name;
    assert ConnOk(s, c) && EntryOk(s, name);
    if name in s.reg { assert ChanOk(s, s.reg[name]); }
  }

  // ----- TrySubscribe, FinishUnsubscribe, ExitOne -----------------------------------------------------------------

  lemma LeaveKeeps(s: State, a: Action, c: nat, ch: nat)
    requires Inv(s) && Enabled(s, a) && (a == ExitOne(c, ch) || (a == FinishUnsubscribe(c) && s.conns[c].pc.ch == ch))
    ensures Inv(Step(s, a))
  {
    assert ChanOk(s, ch);
    forall k ensures MemberOk(Step(s, a), k, c) { assert MemberOk(s, k, c); }
    LeaveConn(s, a, c, ch);
    OnlyMemberKeeps(s, Step(s, a), c, ch);
  }

  /** A channel being left is no longer among the connection's own, so what it holds stays held. */
  lemma LeaveConn(s: State, a: Action, c: nat, ch: nat)
    requires Inv(s) && Enabled(s, a) && (a == ExitOne(c, ch) || (a == FinishUnsubscribe(c) && s.conns[c].pc.ch == ch))
    ensures ConnOk(Step(s, a), c) || !Inv(s)
  {
    assert ConnOk(s, c);
  }

  /** hub.Subscribe succeeds: the channel is live, unlocked and hence the registry's entry. */
  lemma JoinKeeps(s: State, c: nat)
    requires Inv(s) && Enabled(s, TrySubscribe(c))
    requires var ch := s.conns[c].pc.ch; !s.chans[ch].deleted && |s.chans[ch].subs| < MAX_SUBS_PER_CHANNEL
    ensures Inv(Step(s, TrySubscribe(c)))
  {
    var ch := s.conns[c].pc.ch;
    var s' := Step(s, TrySubscribe(c));
    assert ConnOk(s, c);
    if c in s.chans[ch].subs { assert s.chans[ch].subs + {c} == s.chans[ch].subs; }
    forall k ensures MemberOk(s', k, c) { assert MemberOk(s, k, c); }
    OnlyMemberKeeps(s, s', c, ch);
  }

  lemma TrySubscribeKeeps(s: State, c: nat)
    requires Inv(s) && Enabled(s, TrySubscribe(c))
    ensures Inv(Step(s, TrySubscribe(c)))
  {
    var k := s.conns[c];
    var ch := k.pc.ch;
    var s' := Step(s, TrySubscribe(c));
    assert ConnOk(s, c);
    if !s.chans[ch].deleted && |s.chans[ch].subs| < MAX_SUBS_PER_CHANNEL { JoinKeeps(s, c); }
    else { JoinFails(s, c); }
  }

  lemma JoinFails(s: State, c: nat)
    requires Inv(s) && Enabled(s, TrySubscribe(c))
    requires var ch := s.conns[c].pc.ch;
      ch in s.chans && (s.chans[ch].deleted || |s.chans[ch].subs| >= MAX_SUBS_PER_CHANNEL)
    ensures Inv(Step(s, TrySubscribe(c)))
  {
    assert ConnOk(s, c);
    JoinFailsConn(s, c);
    JoinFailsMembers(s, c);
    OnlyConnKeeps(s, Step(s, TrySubscribe(c)), c);
  }

  lemma JoinFailsConn(s: State, c: nat)
    requires Inv(s) && Enabled(s, TrySubscribe(c))
    requires var ch := s.conns[c].pc.ch;
      ch in s.chans && (s.chans[ch].deleted || |s.chans[ch].subs| >= MAX_SUBS_PER_CHANNEL)
    ensures var s' := Step(s, TrySubscribe(c));
      ConnOk(s', c) && forall f :: f in s'.failures ==> f in s.failures || FailureOk(s', f)
  {
    var k := s.conns[c];
    var ch := k.pc.ch;
    var s' := Step(s, TrySubscribe(c));
    assert ConnOk(s, c);
    assert SweptSince(s', k.pc.name, k.since, k.swept);
    assert s.chans[ch].deleted ==> SweptSince(s', k.pc.name, k.since, k.swept + [ch]);
    forall n | n in k.subs ensures Subscribed(s', c, n, k.subs[n]) { assert Subscribed(s, c, n, k.subs[n]); }
  }

  lemma JoinFailsMembers(s: State, c: nat)
    requires Inv(s) && Enabled(s, TrySubscribe(c))
    requires var ch := s.conns[c].pc.ch;
      ch in s.chans && (s.chans[ch].deleted || |s.chans[ch].subs| >= MAX_SUBS_PER_CHANNEL)
    ensures forall x :: MemberOk(Step(s, TrySubscribe(c)), x, c)
  {
    forall x ensures MemberOk(Step(s, TrySubscribe(c)), x, c) { assert MemberOk(s, x, c); }
  }

  lemma InsertKeeps(s: State, c: nat)
    requires Inv(s) && Enabled(s, Insert(c))
    ensures Inv(Step(s, Insert(c)))
  {
    var k := s.conns[c];
    var name := k.pc.name;
    var s' := Step(s, Insert(c));
    assert ConnOk(s, c) && EntryOk(s, name) && ChanOk(s, s.next);
    assert SweptSince(s', name, k.since, k.swept);
    forall n | n in k.subs ensures Subscribed(s', c, n, k.subs[n]) { assert Subscribed(s, c, n, k.subs[n]); }
    if name in s.reg {
      assert ChanOk(s, s.reg[name]);
      forall x ensures MemberOk(s', x, c) { assert MemberOk(s, x, c); }
      OnlyConnKeeps(s, s', c);
    } else {
      CreateKeeps(s, c);
    }
  }

  /** A fresh channel enters the registry under a name that has no entry. */
  lemma CreateKeeps(s: State, c: nat)
    requires Inv(s) && Enabled(s, Insert(c)) && s.conns[c].pc.name !in s.reg
    requires s.next !in s.chans && ConnOk(Step(s, Insert(c)), c)
    ensures Inv(Step(s, Insert(c)))
  {
    var s' := Step(s, Insert(c));
    forall ch ensures ChanOk(s', ch) { CreateChan(s, c, ch); }
    forall n ensures EntryOk(s', n) { assert EntryOk(s, n); }
    forall w ensures SweeperOk(s', w) { assert SweeperOk(s, w); }
    forall d ensures ConnOk(s', d) { assert ConnOk(s, d); if d != c && d in s.conns { OtherConn(s, s', d); } }
    forall x, d ensures MemberOk(s', x, d) { assert MemberOk(s, x, d); }
  }

  lemma CreateChan(s: State, c: nat, ch: nat)
    requires Inv(s) && Enabled(s, Insert(c)) && s.conns[c].pc.name !in s.reg && s.next !in s.chans
    ensures ChanOk(Step(s, Insert(c)), ch)
  {
    var s' := Step(s, Insert(c));
    assert ChanOk(s, ch);
    if ch in s.chans {
      assert s'.chans[ch] == s.chans[ch];
      assert IsEntry(s', ch) == IsEntry(s, ch);
      assert BeingRemoved(s', ch) == BeingRemoved(s, ch);
    }
  }

  // ----- steps of a sweeper -----------------------------------------------------------------------------------------

  predicate Sweeps(a: Action, w: nat) {
    (a.SweepLock? && a.w == w) || a in {SweepRemove(w), SweepMark(w), SweepUnlock(w)}
  }

  ghost function Target(s: State, a: Action): nat
    requires Enabled(s, a) && (a.SweepLock? || a.SweepRemove? || a.SweepMark? || a.SweepUnlock?)
  {
    if a.SweepLock? then a.ch else s.sweepers[a.w].ch
  }

  lemma SweepChan(s: State, a: Action, w: nat, ch: nat)
    requires Inv(s) && Sweeps(a, w) && Enabled(s, a)
    ensures ChanOk(Step(s, a), ch)
  {
    var s' := Step(s, a);
    var t := Target(s, a);
    assert ChanOk(s, ch) && SweeperOk(s, w);
    if ch in s.chans && ch != t {
      assert s'.chans[ch] == s.chans[ch];
      assert IsEntry(s', ch) == IsEntry(s, ch);
      assert s.chans[ch].lock.Some? ==> InSweep(s, s.chans[ch].lock.value, ch);
      assert BeingRemoved(s', ch) == BeingRemoved(s, ch);
    }
  }

  lemma SweepConn(s: State, a: Action, w: nat, c: nat)
    requires Inv(s) && Sweeps(a, w) && Enabled(s, a)
    ensures ConnOk(Step(s, a), c)
  {
    assert ConnOk(s, c);
    StepOnwardInv(s, a);
    if c in s.conns { OtherConn(s, Step(s, a), c); }
  }

  lemma StepOnwardInv(s: State, a: Action)
    requires Inv(s) && Enabled(s, a)
    ensures Onward(s, Step(s, a))
  {
    forall ch | ch in s.chans ensures ch < s.next { assert ChanOk(s, ch); }
  }

  lemma SweepKeeps(s: State, a: Action, w: nat)
    requires Inv(s) && Sweeps(a, w) && Enabled(s, a)
    ensures Inv(Step(s, a))
  {
    var s' := Step(s, a);
    assert SweeperOk(s, w);
    forall ch ensures ChanOk(s', ch) { SweepChan(s, a, w, ch); }
    forall n ensures EntryOk(s', n) { assert EntryOk(s, n); }
    forall v ensures SweeperOk(s', v) { assert SweeperOk(s, v); }
    forall c ensures ConnOk(s', c) { SweepConn(s, a, w, c); }
    forall ch, c ensures MemberOk(s', ch, c) { assert MemberOk(s, ch, c); }
    StepOnwardInv(s, a);
  }

  // ----- every step, every run -----------------------------------------------------------------------------

  lemma StepKeeps(s: State, a: Action)
    requires Inv(s) && Enabled(s, a)
    ensures Inv(Step(s, a))
  {
    match a
    case Insert(c) => InsertKeeps(s, c);
    case TrySubscribe(c) => TrySubscribeKeeps(s, c);
    case FinishUnsubscribe(c) => LeaveKeeps(s, a, c, s.conns[c].pc.ch);
    case ExitOne(c, ch) => LeaveKeeps(s, a, c, ch);
    case SweepLock(w, _) => SweepKeeps(s, a, w);
    case SweepRemove(w) => SweepKeeps(s, a, w);
    case SweepMark(w) => SweepKeeps(s, a, w);
    case SweepUnlock(w) => SweepKeeps(s, a, w);
    case Connect(c) => WalkKeeps(s, a, c);
    case StartSubscribe(c, _) => WalkKeeps(s, a, c);
    case Lookup(c) => WalkKeeps(s, a, c);
    case Record(c) => WalkKeeps(s, a, c);
    case StartUnsubscribe(c, _) => WalkKeeps(s, a, c);
    case Exit(c) => WalkKeeps(s, a, c);
    case ExitDone(c) => WalkKeeps(s, a, c);
  }

  ghost predicate IsRun(run: seq<State>, acts: seq<Action>) {
    && |run| == |acts| + 1 && run[0] == START
    && forall i :: 0 <= i < |acts| ==> Enabled(run[i], acts[i]) && run[i + 1] == Step(run[i], acts[i])
  }

  lemma {:induction false} RunKeeps(run: seq<State>, acts: seq<Action>, n: nat)
    requires IsRun(run, acts) && n < |run|
    ensures forall i :: 0 <= i <= n ==> Inv(run[i])
  {
    if n == 0 { StartInv(); }
    else {
      RunKeeps(run, acts, n - 1);
      StepKeeps(run[n - 1], acts[n - 1]);
    }
  }

  // ----- what every run keeps ------------------------------------------------------------------------------

  /** One live channel per name: whoever holds a name holds the registry's own, live channel, so
      two holders hold the same object and each is among the subscribers a publish by the other
      snapshots. */
  lemma OneLiveChannel(run: seq<State>, acts: seq<Action>, n: nat, name: string, c: nat, d: nat)
    requires IsRun(run, acts) && n < |run| && c in run[n].conns && d in run[n].conns
    requires name in run[n].conns[c].subs && name in run[n].conns[d].subs
    ensures var s := run[n]; var ch := s.conns[c].subs[name];
      && ch in s.chans && !s.chans[ch].deleted && name in s.reg && s.reg[name] == ch
      && s.conns[d].subs[name] == ch
      && c in s.chans[ch].subs && d in s.chans[ch].subs
  {
    RunKeeps(run, acts, n);
    var s := run[n];
    assert ConnOk(s, c) && ConnOk(s, d);
    assert Subscribed(s, c, name, s.conns[c].subs[name]) && Subscribed(s, d, name, s.conns[d].subs[name]);
    assert ChanOk(s, s.conns[c].subs[name]) && ChanOk(s, s.conns[d].subs[name]);
  }

  /** A channel with subscribers is live and is its name's entry; what a lookup hands out is live. */
  lemma DeletedNeverHandedOut(run: seq<State>, acts: seq<Action>, n: nat)
    requires IsRun(run, acts) && n < |run|
    ensures var s := run[n]; forall ch :: ch in s.chans && s.chans[ch].subs != {} ==>
      !s.chans[ch].deleted && IsEntry(s, ch)
    ensures var s := run[n]; forall name :: name in s.reg ==> s.reg[name] in s.chans && !s.chans[s.reg[name]].deleted
  {
    RunKeeps(run, acts, n);
    var s := run[n];
    forall ch | ch in s.chans && s.chans[ch].subs != {} ensures !s.chans[ch].deleted && IsEntry(s, ch) {
      assert ChanOk(s, ch);
    }
    forall name | name in s.reg ensures s.reg[name] in s.chans && !s.chans[s.reg[name]].deleted {
      assert EntryOk(s, name) && ChanOk(s, s.reg[name]);
    }
  }

  /** Deleted is for ever. */
  lemma {:induction false} DeletedStays(run: seq<State>, acts: seq<Action>, m: nat, n: nat, ch: nat)
    requires IsRun(run, acts) && m <= n < |run| && ch in run[m].chans && run[m].chans[ch].deleted
    ensures ch in run[n].chans && run[n].chans[ch].deleted
    decreases n - m
  {
    if m < n {
      RunKeeps(run, acts, m);
      StepOnwardInv(run[m], acts[m]);
      assert Carries(run[m], run[m + 1], ch);
      DeletedStays(run, acts, m + 1, n, ch);
    }
  }

  /** Two-sided bookkeeping. c.subs always lists channels that list c; between frames the
      converse holds too; both caps hold; and once Run has returned no channel refers to c. */
  lemma TwoSided(run: seq<State>, acts: seq<Action>, n: nat, c: nat)
    requires IsRun(run, acts) && n < |run| && c in run[n].conns
    ensures var s := run[n]; var k := s.conns[c];
      && (forall name :: name in k.subs ==> Subscribed(s, c, name, k.subs[name]))
      && (k.pc.Idle? ==> forall ch :: ch in s.chans && c in s.chans[ch].subs ==>
            s.chans[ch].name in k.subs && k.subs[s.chans[ch].name] == ch)
      && |k.subs| <= MAX_CHANNELS_PER_CONN
      && (k.pc.Gone? ==> forall ch :: ch in s.chans ==> c !in s.chans[ch].subs)
    ensures forall ch :: ch in run[n].chans ==> |run[n].chans[ch].subs| <= MAX_SUBS_PER_CHANNEL
  {
    RunKeeps(run, acts, n);
    var s := run[n];
    assert ConnOk(s, c);
    forall ch | ch in s.chans && c in s.chans[ch].subs ensures Explains(s.conns[c], s.chans[ch].name, ch) {
      assert MemberOk(s, ch, c);
    }
    forall ch | ch in s.chans ensures |s.chans[ch].subs| <= MAX_SUBS_PER_CHANNEL { assert ChanOk(s, ch); }
  }

  /** What one hub.Subscribe comes to: the connection joins exactly a live channel with room, and only that
      channel gains only it; a full one ends the frame; a swept one is tried again, the third time in
      vain. */
  lemma TryMeans(s: State, c: nat)
    requires Enabled(s, TrySubscribe(c))
    ensures var s', k := Step(s, TrySubscribe(c)), s.conns[c];
      var ch := k.pc.ch;
      var swept, room := s.chans[ch].deleted, |s.chans[ch].subs| < 10000;
      && (s'.conns[c].pc == Joined(k.pc.name, ch) <==> !swept && room)
      && s'.chans == (if !swept && room then SetSubs(s, ch, s.chans[ch].subs + {c}) else s.chans)
      && (s'.conns[c].pc == Getting(k.pc.name) <==> swept && |k.swept| + 1 < 3)
      && (|s'.failures| == |s.failures| + 1 <==> swept && |k.swept| + 1 >= 3)
      && s'.conns[c].subs == k.subs && s'.reg == s.reg
  {
  }

  /** And once joined the next step of the connection holds the channel. */
  lemma RecordMeans(s: State, c: nat)
    requires Enabled(s, Record(c))
    ensures var s', k := Step(s, Record(c)), s.conns[c];
      s'.conns[c].pc.Idle? && s'.conns[c].subs == k.subs[k.pc.name := k.pc.ch] && s'.chans == s.chans
  {
  }

  /** SUBSCRIBE_FAILED is answered only after three distinct channels of that name were each
      swept while that one call was running. */
  lemma RetryExhaustion(run: seq<State>, acts: seq<Action>, n: nat, f: Failure)
    requires IsRun(run, acts) && n < |run| && f in run[n].failures
    ensures |f.swept| == 3 && SweptSince(run[n], f.name, f.since, f.swept)
  {
    RunKeeps(run, acts, n);
    assert FailureOk(run[n], f);
  }

  // ----- every goroutine gets on ---------------------------------------------------------------------------

  /** How many steps a connection's frame, or its exit, has before it. */
  ghost function Rank(k: Conn): int {
    match k.pc
    case Getting(_) => 4 + 5 * (3 - |k.swept|)
    case Missed(_) => 3 + 5 * (3 - |k.swept|)
    case Got(_, _) => 2 + 5 * (3 - |k.swept|)
    case Joined(_, _) => 1
    case Leaving(_) => 1
    case Exiting(rest) => 1 + |rest|
    case _ => 0
  }

  ghost predicate OfConn(a: Action, c: nat) {
    || a in {Lookup(c), Insert(c), TrySubscribe(c), Record(c), FinishUnsubscribe(c), ExitDone(c)}
    || (a.ExitOne? && a.c == c)
  }

  /** Each step of a frame or exit brings it nearer to its end. */
  lemma ConnAdvances(s: State, a: Action, c: nat)
    requires ConnOk(s, c) && Enabled(s, a) && OfConn(a, c)
    ensures Nearer(s, Step(s, a), c)
  {
    match a
    case TrySubscribe(_) => TryAdvances(s, c);
    case ExitOne(_, ch) => assert |s.conns[c].pc.rest - {ch}| == |s.conns[c].pc.rest| - 1;
    case Insert(_) =>
    case _ =>
  }

  ghost predicate Nearer(s: State, s': State, c: nat) {
    c in s.conns && c in s'.conns && Rank(s.conns[c]) > Rank(s'.conns[c]) >= 0
  }

  lemma TryAdvances(s: State, c: nat)
    requires ConnOk(s, c) && Enabled(s, TrySubscribe(c))
    ensures Nearer(s, Step(s, TrySubscribe(c)), c)
  {
  }

  /** And there always is one that is enabled, unless a sweeper is inside the channel's lock. */
  lemma ConnMoves(s: State, c: nat)
    requires ConnOk(s, c) && c in s.conns && !s.conns[c].pc.Idle? && !s.conns[c].pc.Gone?
    ensures || (exists a :: OfConn(a, c) && Enabled(s, a))
            || (exists ch :: ch in s.chans && s.chans[ch].lock.Some?)
  {
    var pc := s.conns[c].pc;
    var a := match pc
      case Getting(_) => Lookup(c)
      case Missed(_) => Insert(c)
      case Got(_, _) => TrySubscribe(c)
      case Joined(_, _) => Record(c)
      case Leaving(_) => FinishUnsubscribe(c)
      case Exiting(rest) => if rest == {} then ExitDone(c) else var ch :| ch in rest; ExitOne(c, ch)
      case _ => Connect(c);
    assert OfConn(a, c);
    if pc.Got? { assert Free(s, pc.ch) || s.chans[pc.ch].lock.Some?; }
    if pc.Leaving? { assert Free(s, pc.ch) || s.chans[pc.ch].lock.Some?; }
    if a.ExitOne? { assert Free(s, a.ch) || s.chans[a.ch].lock.Some?; }
  }

  ghost function SweepRank(w: Sweeper): nat {
    match w
    case Holding(_) => 3
    case Removed(_) => 2
    case Marked(_) => 1
    case Resting => 0
  }

  /** A sweeper inside a lock has three steps to go: the entry goes, Deleted is set, the lock is given
      back; each is enabled in its turn. */
  lemma SweeperAdvances(s: State, w: nat)
    requires SweeperOk(s, w) && w in s.sweepers && !s.sweepers[w].Resting?
    ensures var k, ch := s.sweepers[w], s.sweepers[w].ch;
      var a := match k case Holding(_) => SweepRemove(w) case Removed(_) => SweepMark(w) case _ => SweepUnlock(w);
      && Enabled(s, a) && w in Step(s, a).sweepers && SweepRank(Step(s, a).sweepers[w]) == SweepRank(k) - 1
      && ch in Step(s, a).chans
      && (a.SweepRemove? ==> !IsEntry(Step(s, a), ch))
      && (a.SweepMark? ==> Step(s, a).chans[ch].deleted)
      && (a.SweepUnlock? ==> Step(s, a).chans[ch].lock.None?)
  {
  }

  /** A sweeper can begin on any empty channel nobody else is sweeping. */
  lemma SweepBegins(s: State, w: nat, ch: nat)
    requires w !in s.sweepers && Free(s, ch) && s.chans[ch].subs == {}
    ensures Enabled(s, SweepLock(w, ch)) && Step(s, SweepLock(w, ch)).sweepers[w] == Holding(ch)
  {
  }

  /** How a connection, a frame and an exit begin. */
  lemma FramesBegin(s: State, a: Action, c: nat)
    requires Enabled(s, a) && (a == Connect(c) || a.StartSubscribe? || a.StartUnsubscribe? || a.Exit?) && a.c == c
    ensures c in Step(s, a).conns
    ensures var k := Step(s, a).conns[c];
      match a
      case Connect(_) => k.pc.Idle? && k.subs == map[]
      case StartSubscribe(_, name) => k.pc == Getting(name) && k.subs == s.conns[c].subs
      case StartUnsubscribe(_, name) => k.pc == Leaving(s.conns[c].subs[name]) && k.subs == s.conns[c].subs - {name}
      case _ => k.pc == Exiting(s.conns[c].subs.Values) && k.subs == map[]
  {
  }
}
