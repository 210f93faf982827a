/** Both fanouts as interleaved steps: internal/fanout, hub.Broadcast and Conn.Send. A lane is
    whatever broadcasts one job at a time: a worker of the sharded pool, or, inline, the
    publisher itself. One step is one critical section or one channel operation. */
module Fanout {
  const QUEUE_CAP: nat := 1024
  const SEND_CAP: nat := 64

  datatype Policy = Disconnect | DropOldest | DropNewest

  /** hash gives a channel's shard; inline is the PerConn fanout. */
  datatype Config = Config(inline: bool, policy: Policy, shard: nat -> nat)

  /** The num-th publish of publisher pub. */
  datatype Job = Job(pub: nat, num: nat, ch: nat)

  /** A lane's idx-th job. */
  datatype Ticket = Ticket(q: nat, idx: nat)

  /** Conn.Send on one subscriber: past the closed check, and within DropOldest's three tries. */
  datatype Cur = NoOne | Trying(c: nat) | Evicting(c: nat) | Retrying(c: nat)

  datatype LanePc = Resting | Taken | Sending(rest: set<nat>, cur: Cur) | Exited

  /** hist is every job ever given to the lane, snaps the subscribers each taken job was
      broadcast to; the queue is hist[taken..]. */
  datatype Lane = Lane(hist: seq<Job>, taken: nat, snaps: seq<set<nat>>, pc: LanePc)

  datatype PubPc = Idle | AtLock(job: Job) | Inside(job: Job)
  datatype Pub = Pub(num: nat, pc: PubPc)

  /** log is every event that entered the send buffer, buf how much the buffer holds. */
  datatype Conn = Conn(buf: nat, signalled: bool, closed: bool, log: seq<Ticket>)

  datatype Closer = Away | Asking | Draining | Returned(drained: bool)

  datatype State = State(
    lanes: seq<Lane>,
    pubs: seq<Pub>,
    conns: seq<Conn>,
    chans: seq<set<nat>>,
    closers: seq<Closer>,
    closed: bool,
    skipped: set<(nat, Ticket)>)

  datatype Action =
    | Begin(p: nat, ch: nat)
    | Enter(p: nat)
    | Enqueue(p: nat)
    | Inline(p: nat)
    | Take(q: nat)
    | Snapshot(q: nat)
    | Check(q: nat, c: nat)
    | Apply(q: nat)
    | Evict(q: nat)
    | Retry(q: nat)
    | Finish(q: nat)
    | WorkerExit(q: nat)
    | Ask(k: nat)
    | CloseQueues(k: nat)
    | CloseReturn(k: nat)
    | Subscribe(ch: nat, c: nat)
    | Unsubscribe(ch: nat, c: nat)
    | Control(c: nat)
    | Write(c: nat)
    | Hangup(c: nat)

  predicate Sends(s: State, q: nat) { q < |s.lanes| && s.lanes[q].pc.Sending? && s.lanes[q].taken > 0 }

  function LaneOf(cfg: Config, j: Job): nat { if cfg.inline then j.pub else cfg.shard(j.ch) }

  predicate Enabled(cfg: Config, s: State, a: Action) {
    match a
    case Begin(p, ch) =>
      p < |s.pubs| && s.pubs[p].pc.Idle? && ch < |s.chans| && (cfg.inline ==> p < |s.lanes| && s.lanes[p].pc.Resting?)
    // A waiting writer keeps new readers out.
    case Enter(p) => p < |s.pubs| && s.pubs[p].pc.AtLock? && !cfg.inline && Asking !in s.closers
    case Enqueue(p) =>
      p < |s.pubs| && s.pubs[p].pc.Inside? && LaneOf(cfg, s.pubs[p].pc.job) < |s.lanes| &&
      var l := s.lanes[LaneOf(cfg, s.pubs[p].pc.job)]; |l.hist| < l.taken + QUEUE_CAP
    case Inline(p) => p < |s.pubs| && s.pubs[p].pc.AtLock? && cfg.inline && p < |s.lanes| && s.lanes[p].pc.Resting?
    case Take(q) => q < |s.lanes| && s.lanes[q].pc.Resting? && s.lanes[q].taken < |s.lanes[q].hist|
    case Snapshot(q) =>
      q < |s.lanes| && s.lanes[q].pc.Taken? && 0 < s.lanes[q].taken <= |s.lanes[q].hist| &&
      s.lanes[q].hist[s.lanes[q].taken - 1].ch < |s.chans|
    case Check(q, c) => Sends(s, q) && s.lanes[q].pc.cur.NoOne? && c in s.lanes[q].pc.rest && c < |s.conns|
    case Apply(q) => Sends(s, q) && s.lanes[q].pc.cur.Trying? && s.lanes[q].pc.cur.c < |s.conns|
    case Evict(q) => Sends(s, q) && s.lanes[q].pc.cur.Evicting? && s.lanes[q].pc.cur.c < |s.conns|
    case Retry(q) => Sends(s, q) && s.lanes[q].pc.cur.Retrying? && s.lanes[q].pc.cur.c < |s.conns|
    case Finish(q) => Sends(s, q) && s.lanes[q].pc == Sending({}, NoOne)
    case WorkerExit(q) =>
      q < |s.lanes| && s.lanes[q].pc.Resting? && s.closed && s.lanes[q].taken == |s.lanes[q].hist| && !cfg.inline
    case Ask(k) => k < |s.closers| && s.closers[k].Away? && !cfg.inline
    case CloseQueues(k) => k < |s.closers| && s.closers[k].Asking? && forall p :: 0 <= p < |s.pubs| ==>
      !s.pubs[p].pc.Inside?
    case CloseReturn(k) => k < |s.closers| && s.closers[k].Draining? && forall q :: 0 <= q < |s.lanes| ==>
      s.lanes[q].pc.Exited?
    case Subscribe(ch, c) => ch < |s.chans| && c < |s.conns|
    case Unsubscribe(ch, c) => ch < |s.chans|
    case Control(c) => c < |s.conns| && s.conns[c].buf < SEND_CAP
    case Write(c) => c < |s.conns| && 0 < s.conns[c].buf
    case Hangup(c) => c < |s.conns|
  }

  function Now(l: Lane, q: nat): Ticket
    requires l.taken > 0
  {
    Ticket(q, l.taken - 1)
  }

  function SetPc(s: State, q: nat, pc: LanePc): State
    requires q < |s.lanes|
  {
    s.(lanes := s.lanes[q := s.lanes[q].(pc := pc)])
  }

  /** The current subscriber got the event. */
  function Deliver(s: State, q: nat, c: nat): State
    requires Sends(s, q) && c < |s.conns|
  {
    var l := s.lanes[q];
    var k := s.conns[c];
    s.(lanes := s.lanes[q := l.(pc := Sending(l.pc.rest, NoOne))],
       conns := s.conns[c := k.(buf := k.buf + 1, log := k.log + [Now(l, q)])])
  }

  /** The current subscriber did not get it. */
  function Skip(s: State, q: nat, c: nat, rest: set<nat>, signal: bool): State
    requires Sends(s, q) && c < |s.conns|
  {
    var l := s.lanes[q];
    s.(lanes := s.lanes[q := l.(pc := Sending(rest, NoOne))],
       conns := s.conns[c := s.conns[c].(signalled := signal || s.conns[c].signalled)],
       skipped := s.skipped + {(c, Now(l, q))})
  }

  function GiveJob(s: State, p: nat, q: nat, taken: nat, pc: LanePc): State
    requires p < |s.pubs| && !s.pubs[p].pc.Idle? && q < |s.lanes|
  {
    var l := s.lanes[q];
    s.(lanes := s.lanes[q := l.(hist := l.hist + [s.pubs[p].pc.job], taken := taken, pc := pc)],
       pubs := s.pubs[p := s.pubs[p].(pc := Idle)])
  }

  function Step(cfg: Config, s: State, a: Action): State
    requires Enabled(cfg, s, a)
  {
    match a
    case Begin(p, ch) => s.(pubs := s.pubs[p := Pub(s.pubs[p].num + 1, AtLock(Job(p, s.pubs[p].num, ch)))])
    case Enter(p) => s.(pubs := s.pubs[p := s.pubs[p].(pc := if s.closed then Idle else Inside(s.pubs[p].pc.job))])
    case Enqueue(p) =>
      var q := LaneOf(cfg, s.pubs[p].pc.job);
      GiveJob(s, p, q, s.lanes[q].taken, s.lanes[q].pc)
    case Inline(p) => GiveJob(s, p, p, s.lanes[p].taken + 1, Taken)
    case Take(q) => s.(lanes := s.lanes[q := s.lanes[q].(taken := s.lanes[q].taken + 1, pc := Taken)])
    case Snapshot(q) =>
      var l := s.lanes[q];
      var subs := s.chans[l.hist[l.taken - 1].ch];
      s.(lanes := s.lanes[q := l.(snaps := l.snaps + [subs], pc := Sending(subs, NoOne))])
    case Check(q, c) =>
      var rest := s.lanes[q].pc.rest - {c};
      if s.conns[c].closed then Skip(s, q, c, rest, false) else SetPc(s, q, Sending(rest, Trying(c)))
    case Apply(q) =>
      var c := s.lanes[q].pc.cur.c;
      if s.conns[c].buf < SEND_CAP then Deliver(s, q, c)
      else if cfg.policy.DropOldest? then SetPc(s, q, s.lanes[q].pc.(cur := Evicting(c)))
      else Skip(s, q, c, s.lanes[q].pc.rest, cfg.policy.Disconnect?)
    case Evict(q) =>
      var c := s.lanes[q].pc.cur.c;
      var k := s.conns[c];
      s.(lanes := s.lanes[q := s.lanes[q].(pc := s.lanes[q].pc.(cur := Retrying(c)))],
         conns := s.conns[c := k.(buf := if k.buf > 0 then k.buf - 1 else 0)])
    case Retry(q) =>
      var c := s.lanes[q].pc.cur.c;
      if s.conns[c].buf < SEND_CAP then Deliver(s, q, c) else Skip(s, q, c, s.lanes[q].pc.rest, false)
    case Finish(q) => SetPc(s, q, Resting)
    case WorkerExit(q) => SetPc(s, q, Exited)
    case Ask(k) => s.(closers := s.closers[k := Asking])
    case CloseQueues(k) => s.(closers := s.closers[k := if s.closed then Returned(false) else Draining], closed := true)
    case CloseReturn(k) => s.(closers := s.closers[k := Returned(true)])
    case Subscribe(ch, c) => s.(chans := s.chans[ch := s.chans[ch] + {c}])
    case Unsubscribe(ch, c) => s.(chans := s.chans[ch := s.chans[ch] - {c}])
    case Control(c) => s.(conns := s.conns[c := s.conns[c].(buf := s.conns[c].buf + 1)])
    case Write(c) => s.(conns := s.conns[c := s.conns[c].(buf := s.conns[c].buf - 1)])
    case Hangup(c) => s.(conns := s.conns[c := s.conns[c].(closed := true)])
  }

  /** Nothing published yet; any number of workers, publishers, connections, channels and closers. */
  ghost predicate Start(cfg: Config, s: State) {
    && (forall q :: 0 <= q < |s.lanes| ==> s.lanes[q] == Lane([], 0, [], Resting))
    && (forall p :: 0 <= p < |s.pubs| ==> s.pubs[p] == Pub(0, Idle))
    && (forall c :: 0 <= c < |s.conns| ==> s.conns[c] == Conn(0, false, false, []))
    && (forall ch :: 0 <= ch < |s.chans| ==> s.chans[ch] == {})
    && (forall k :: 0 <= k < |s.closers| ==> s.closers[k] == Away)
    && !s.closed && s.skipped == {}
    && (cfg.inline ==> |s.lanes| == |s.pubs|)
    && (!cfg.inline ==> forall ch :: cfg.shard(ch) < |s.lanes|)
  }

  // ----- the invariant --------------------------------------------------------------------------------

  /** The subscribers the lane's current job has still to be sent to. */
  ghost function Pending(l: Lane): set<nat> {
    if l.pc.Sending? then l.pc.rest + (if l.pc.cur.NoOne? then {} else {l.pc.cur.c}) else {}
  }

  /** The lane's i-th job is its current one and c is still to be sent it. */
  ghost predicate Due(l: Lane, i: nat, c: nat) {
    i + 1 == l.taken && c in Pending(l)
  }

  ghost predicate LaneOk(cfg: Config, s: State, q: nat) {
    q < |s.lanes| ==>
      var l := s.lanes[q];
      && l.taken <= |l.hist| && |l.hist| <= l.taken + QUEUE_CAP
      && (l.pc.Taken? || l.pc.Sending? ==> l.taken > 0)
      && |l.snaps| == (if l.pc.Taken? then l.taken - 1 else l.taken)
      && (l.pc.Sending? ==> Pending(l) <= l.snaps[l.taken - 1])
      && (l.pc.Sending? && !l.pc.cur.NoOne? ==> l.pc.cur.c !in l.pc.rest)
      && (l.pc.Sending? && (l.pc.cur.Evicting? || l.pc.cur.Retrying?) ==> cfg.policy.DropOldest?)
      && (l.pc.Exited? ==> s.closed && l.taken == |l.hist|)
      && (cfg.inline ==> l.taken == |l.hist|)
  }

  /** The highest publish number of p that can be in a queue. */
  function Handed(p: Pub): int { if p.pc.Idle? then p.num else p.num - 1 }

  ghost predicate JobOk(cfg: Config, s: State, q: nat, i: nat) {
    q < |s.lanes| && i < |s.lanes[q].hist| ==>
      var j := s.lanes[q].hist[i];
      j.pub < |s.pubs| && LaneOf(cfg, j) == q && j.num < Handed(s.pubs[j.pub]) && j.ch < |s.chans|
  }

  ghost predicate OrderOk(s: State, q: nat, i: nat, j: nat) {
    q < |s.lanes| && i < j < |s.lanes[q].hist| && s.lanes[q].hist[i].pub == s.lanes[q].hist[j].pub ==>
      s.lanes[q].hist[i].num < s.lanes[q].hist[j].num
  }

  ghost predicate PubOk(cfg: Config, s: State, p: nat) {
    p < |s.pubs| && !s.pubs[p].pc.Idle? ==>
      && s.pubs[p].pc.job.pub == p && s.pubs[p].pc.job.num + 1 == s.pubs[p].num && s.pubs[p].pc.job.ch < |s.chans|
      && LaneOf(cfg, s.pubs[p].pc.job) < |s.lanes|
      && (s.pubs[p].pc.Inside? ==> !s.closed && !cfg.inline)
  }

  /** The lane's idx-th job was snapshotted with c in it and c has been dealt with. */
  ghost predicate Past(s: State, c: nat, t: Ticket) {
    t.q < |s.lanes| && t.idx < |s.lanes[t.q].snaps| && c in s.lanes[t.q].snaps[t.idx] && !Due(s.lanes[t.q], t.idx, c)
  }

  ghost predicate LogOk(s: State, c: nat, i: nat) {
    c < |s.conns| && i < |s.conns[c].log| ==> Past(s, c, s.conns[c].log[i]) && (c, s.conns[c].log[i]) !in s.skipped
  }

  ghost predicate LogOrder(s: State, c: nat, i: nat, j: nat) {
    c < |s.conns| && i < j < |s.conns[c].log| && s.conns[c].log[i].q == s.conns[c].log[j].q ==>
      s.conns[c].log[i].idx < s.conns[c].log[j].idx
  }

  ghost predicate SkipOk(cfg: Config, s: State, c: nat, t: Ticket) {
    (c, t) in s.skipped ==>
      c < |s.conns| && Past(s, c, t) && (cfg.policy.Disconnect? ==> s.conns[c].signalled || s.conns[c].closed)
  }

  /** Whoever was snapshotted got the event, was skipped, or is still to come. */
  ghost predicate CoverOk(s: State, c: nat, t: Ticket) {
    t.q < |s.lanes| && t.idx < |s.lanes[t.q].snaps| && c in s.lanes[t.q].snaps[t.idx] ==>
      c < |s.conns| &&
      (t in s.conns[c].log || (c, t) in s.skipped || Due(s.lanes[t.q], t.idx, c))
  }

  ghost predicate ChanOk(s: State, ch: nat) {
    ch < |s.chans| ==> forall c :: c in s.chans[ch] ==> c < |s.conns|
  }

  ghost predicate CloserOk(s: State, k: nat) {
    k < |s.closers| ==>
      && (s.closers[k].Draining? || s.closers[k].Returned? ==> s.closed)
      && (s.closers[k] == Returned(true) ==> forall q :: 0 <= q < |s.lanes| ==> s.lanes[q].pc.Exited?)
  }

  ghost predicate ConnOk(s: State, c: nat) { c < |s.conns| ==> s.conns[c].buf <= SEND_CAP }

  ghost predicate Shape(cfg: Config, s: State) {
    && (cfg.inline ==> |s.lanes| == |s.pubs|)
    && (!cfg.inline ==> forall ch :: cfg.shard(ch) < |s.lanes|)
  }

  ghost predicate LanesOk(cfg: Config, s: State) {
    var holds :=
      && (forall q :: LaneOk(cfg, s, q))
      && (forall q, i, j :: OrderOk(s, q, i, j));
    holds
  }

  ghost predicate LogsOk(cfg: Config, s: State) {
    var holds :=
      && (forall c, i :: LogOk(s, c, i))
      && (forall c, i, j :: LogOrder(s, c, i, j))
      && (forall c, t :: SkipOk(cfg, s, c, t))
      && (forall c, t :: CoverOk(s, c, t));
    holds
  }

  ghost predicate Inv(cfg: Config, s: State) {
    var holds :=
      && Shape(cfg, s)
      && LanesOk(cfg, s)
      && (forall q, i :: JobOk(cfg, s, q, i))
      && (forall p :: PubOk(cfg, s, p))
      && LogsOk(cfg, s)
      && (forall ch :: ChanOk(s, ch))
      && (forall k :: CloserOk(s, k))
      && (forall c :: ConnOk(s, c));
    holds
  }

  lemma StartInv(cfg: Config, s: State)
    requires Start(cfg, s)
    ensures Inv(cfg, s)
  {
  }

  // ----- preservation: steps that leave the lanes alone ---------------------------------------------------

  predicate Outside(a: Action) {
    a.Begin? || a.Enter? || a.Ask? || a.CloseQueues? || a.CloseReturn? || a.Subscribe? || a.Unsubscribe? ||
    a.Control? || a.Write? || a.Hangup?
  }

  /** Same lanes, logs and skips; connections only signalled or closed further. */
  ghost predicate SameWork(s: State, s': State) {
    && s'.lanes == s.lanes && s'.skipped == s.skipped && |s'.conns| == |s.conns| && |s'.chans| == |s.chans|
    && |s'.pubs| == |s.pubs| && (s.closed ==> s'.closed)
    && forall c :: 0 <= c < |s.conns| ==> MoreConn(s.conns[c], s'.conns[c])
  }

  predicate MoreConn(k: Conn, k': Conn) {
    k'.log == k.log && (k.signalled ==> k'.signalled) && (k.closed ==> k'.closed)
  }

  lemma SameWorkKeeps(cfg: Config, s: State, s': State)
    requires Inv(cfg, s) && SameWork(s, s')
    ensures LanesOk(cfg, s') && LogsOk(cfg, s')
  {
    forall q ensures LaneOk(cfg, s', q) { assert LaneOk(cfg, s, q); }
    forall q, i, j ensures OrderOk(s', q, i, j) { assert OrderOk(s, q, i, j); }
    forall c: nat, i ensures LogOk(s', c, i) {
      assert LogOk(s, c, i);
      if c < |s.conns| { assert MoreConn(s.conns[c], s'.conns[c]); }
    }
    forall c: nat, i, j ensures LogOrder(s', c, i, j) {
      assert LogOrder(s, c, i, j);
      if c < |s.conns| { assert MoreConn(s.conns[c], s'.conns[c]); }
    }
    forall c: nat, t ensures SkipOk(cfg, s', c, t) {
      assert SkipOk(cfg, s, c, t);
      if c < |s.conns| { assert MoreConn(s.conns[c], s'.conns[c]); }
    }
    forall c: nat, t ensures CoverOk(s', c, t) {
      assert CoverOk(s, c, t);
      if c < |s.conns| { assert MoreConn(s.conns[c], s'.conns[c]); }
    }
  }

  lemma OutsideActors(cfg: Config, s: State, a: Action)
    requires Inv(cfg, s) && Outside(a) && Enabled(cfg, s, a)
    ensures var s' := Step(cfg, s, a); (forall p :: PubOk(cfg, s', p)) && (forall k :: CloserOk(s', k))
  {
    var s' := Step(cfg, s, a);
    forall p ensures PubOk(cfg, s', p) { assert PubOk(cfg, s, p); }
    forall k ensures CloserOk(s', k) { assert CloserOk(s, k); }
  }

  lemma OutsideThings(cfg: Config, s: State, a: Action)
    requires Inv(cfg, s) && Outside(a) && Enabled(cfg, s, a)
    ensures var s' := Step(cfg, s, a);
      (forall q, i :: JobOk(cfg, s', q, i)) && (forall ch :: ChanOk(s', ch)) && (forall c :: ConnOk(s', c))
  {
    var s' := Step(cfg, s, a);
    forall q, i ensures JobOk(cfg, s', q, i) { assert JobOk(cfg, s, q, i); }
    forall ch ensures ChanOk(s', ch) { assert ChanOk(s, ch); }
    forall c ensures ConnOk(s', c) { assert ConnOk(s, c); }
  }

  lemma OutsideKeeps(cfg: Config, s: State, a: Action)
    requires Inv(cfg, s) && Outside(a) && Enabled(cfg, s, a)
    ensures Inv(cfg, Step(cfg, s, a))
  {
    SameWorkKeeps(cfg, s, Step(cfg, s, a));
    OutsideActors(cfg, s, a);
    OutsideThings(cfg, s, a);
  }

  // ----- preservation: a publish reaches its lane -----------------------------------------------------------

  lemma GiveKeeps(cfg: Config, s: State, a: Action, p: nat)
    requires Inv(cfg, s) && a in {Enqueue(p), Inline(p)} && Enabled(cfg, s, a)
    ensures Inv(cfg, Step(cfg, s, a))
  {
    var s' := Step(cfg, s, a);
    var job := s.pubs[p].pc.job;
    var q := LaneOf(cfg, job);
    assert PubOk(cfg, s, p);
    forall x ensures LaneOk(cfg, s', x) { assert LaneOk(cfg, s, x); }
    forall x, i ensures JobOk(cfg, s', x, i) { assert JobOk(cfg, s, x, i); }
    forall x, i, j ensures OrderOk(s', x, i, j) { assert OrderOk(s, x, i, j); assert JobOk(cfg, s, x, i); }
    forall x ensures PubOk(cfg, s', x) { assert PubOk(cfg, s, x); }
    GiveLogs(cfg, s, a, p);
    forall ch ensures ChanOk(s', ch) { assert ChanOk(s, ch); }
    forall k ensures CloserOk(s', k) { assert CloserOk(s, k); assert LaneOk(cfg, s, q); }
    forall c ensures ConnOk(s', c) { assert ConnOk(s, c); }
  }

  lemma GiveLogs(cfg: Config, s: State, a: Action, p: nat)
    requires Inv(cfg, s) && a in {Enqueue(p), Inline(p)} && Enabled(cfg, s, a)
    ensures LogsOk(cfg, Step(cfg, s, a))
  {
    var s' := Step(cfg, s, a);
    assert LaneOk(cfg, s, LaneOf(cfg, s.pubs[p].pc.job)) && PubOk(cfg, s, p);
    forall c: nat, i ensures LogOk(s', c, i) { assert LogOk(s, c, i); }
    forall c: nat, i, j ensures LogOrder(s', c, i, j) { assert LogOrder(s, c, i, j); }
    forall c: nat, t ensures SkipOk(cfg, s', c, t) { assert SkipOk(cfg, s, c, t); }
    forall c: nat, t ensures CoverOk(s', c, t) { assert CoverOk(s, c, t); }
  }

  // ----- preservation: a lane moves on -----------------------------------------------------------------------

  /** Only lane q and buffer levels change, and no log. */
  ghost predicate LaneMoves(s: State, s': State, q: nat) {
    && q < |s.lanes| && s' == s.(lanes := s'.lanes, conns := s'.conns) && |s'.lanes| == |s.lanes|
    && s'.lanes == s.lanes[q := s'.lanes[q]] && s'.lanes[q].hist == s.lanes[q].hist && !s.lanes[q].pc.Exited?
    && |s'.conns| == |s.conns|
    && (forall c :: 0 <= c < |s.conns| ==> s'.conns[c] == s.conns[c].(buf := s'.conns[c].buf))
  }

  /** What Past and CoverOk need of lane q's new state. */
  ghost predicate Advances(l: Lane, l': Lane) {
    && l'.taken >= l.taken && l.snaps <= l'.snaps
    && (forall i, c :: 0 <= i < |l.snaps| && 0 <= c ==> Due(l', i, c) == Due(l, i, c))
    && (forall i, c :: |l.snaps| <= i < |l'.snaps| && c in l'.snaps[i] ==> Due(l', i, c))
  }

  lemma LaneMovesKeeps(cfg: Config, s: State, s': State, q: nat)
    requires Inv(cfg, s) && LaneMoves(s, s', q) && LaneOk(cfg, s', q) && Advances(s.lanes[q], s'.lanes[q])
    requires forall i, c :: |s.lanes[q].snaps| <= i < |s'.lanes[q].snaps| && c in s'.lanes[q].snaps[i] ==> c < |s.conns|
    requires forall c :: ConnOk(s', c)
    ensures Inv(cfg, s')
  {
    forall x ensures LaneOk(cfg, s', x) { assert LaneOk(cfg, s, x); }
    forall x, i ensures JobOk(cfg, s', x, i) { assert JobOk(cfg, s, x, i); }
    forall x, i, j ensures OrderOk(s', x, i, j) { assert OrderOk(s, x, i, j); }
    forall x ensures PubOk(cfg, s', x) { assert PubOk(cfg, s, x); }
    LaneMovesLogs(cfg, s, s', q);
    forall ch ensures ChanOk(s', ch) { assert ChanOk(s, ch); }
    forall k ensures CloserOk(s', k) { assert CloserOk(s, k); }
  }

  lemma LaneMovesLogs(cfg: Config, s: State, s': State, q: nat)
    requires Inv(cfg, s) && LaneMoves(s, s', q) && Advances(s.lanes[q], s'.lanes[q])
    requires forall i, c :: |s.lanes[q].snaps| <= i < |s'.lanes[q].snaps| && c in s'.lanes[q].snaps[i] ==> c < |s.conns|
    ensures LogsOk(cfg, s')
  {
    forall c: nat, i: nat ensures LogOk(s', c, i) {
      assert LogOk(s, c, i);
    }
    forall c: nat, i, j ensures LogOrder(s', c, i, j) { assert LogOrder(s, c, i, j); }
    forall c: nat, t ensures SkipOk(cfg, s', c, t) { assert SkipOk(cfg, s, c, t); }
    forall c: nat, t ensures CoverOk(s', c, t) { assert CoverOk(s, c, t); }
  }

  predicate Moves(cfg: Config, s: State, a: Action, q: nat) {
    && Enabled(cfg, s, a)
    && (a in {Take(q), Snapshot(q), Finish(q), WorkerExit(q), Evict(q)}
        || (a.Check? && a.q == q && !s.conns[a.c].closed)
        || (a == Apply(q) && s.conns[s.lanes[q].pc.cur.c].buf == SEND_CAP && cfg.policy.DropOldest?))
  }

  lemma MoveKeeps(cfg: Config, s: State, a: Action, q: nat)
    requires Inv(cfg, s) && Moves(cfg, s, a, q)
    ensures Inv(cfg, Step(cfg, s, a))
  {
    assert LaneOk(cfg, s, q);
    MoveShape(cfg, s, a, q);
    forall c ensures ConnOk(Step(cfg, s, a), c) { assert ConnOk(s, c); }
    LaneMovesKeeps(cfg, s, Step(cfg, s, a), q);
  }

  lemma MoveShape(cfg: Config, s: State, a: Action, q: nat)
    requires LaneOk(cfg, s, q) && Moves(cfg, s, a, q)
    requires forall i :: JobOk(cfg, s, q, i)
    requires forall ch :: ChanOk(s, ch)
    ensures var s' := Step(cfg, s, a);
      && q < |s'.lanes| && LaneOk(cfg, s', q)
      && forall i, c :: |s.lanes[q].snaps| <= i < |s'.lanes[q].snaps| && c in s'.lanes[q].snaps[i] ==> c < |s.conns|
  {
    if a.Snapshot? {
      assert JobOk(cfg, s, q, s.lanes[q].taken - 1);
      assert ChanOk(s, s.lanes[q].hist[s.lanes[q].taken - 1].ch);
    }
  }

  // ----- preservation: one subscriber is dealt with ------------------------------------------------------------

  /** The lane's current job leaves c's account: delivered (its log grows) or skipped. */
  ghost predicate Settles(cfg: Config, s: State, s': State, q: nat, c: nat) {
    && q < |s.lanes| && c < |s.conns| && s.lanes[q].pc.Sending? && s.lanes[q].taken > 0
    && c in Pending(s.lanes[q])
    && (exists pc: LanePc :: pc.Sending? && s'.lanes == s.lanes[q := s.lanes[q].(pc := pc)]
          && pc.cur.NoOne? && Pending(s.lanes[q].(pc := pc)) == Pending(s.lanes[q]) - {c})
    && s' == s.(lanes := s'.lanes, conns := s'.conns, skipped := s'.skipped) && |s'.conns| == |s.conns|
    && (forall d :: 0 <= d < |s.conns| && d != c ==> s'.conns[d] == s.conns[d])
    && s'.conns[c].buf <= SEND_CAP
    && (s.conns[c].signalled ==> s'.conns[c].signalled) && s'.conns[c].closed == s.conns[c].closed
    && var now := Now(s.lanes[q], q);
       || (s'.conns[c].log == s.conns[c].log + [now] && s'.skipped == s.skipped)
       || (s'.conns[c].log == s.conns[c].log && s'.skipped == s.skipped + {(c, now)} &&
           (cfg.policy.Disconnect? ==> s'.conns[c].signalled || s'.conns[c].closed))
  }

  ghost function Dealt(s: State, a: Action, q: nat): nat
    requires Sends(s, q) && (a.Check? || !s.lanes[q].pc.cur.NoOne?)
  {
    if a.Check? then a.c else s.lanes[q].pc.cur.c
  }

  lemma SettleLogs(cfg: Config, s: State, s': State, q: nat, c: nat)
    requires Inv(cfg, s) && Settles(cfg, s, s', q, c)
    ensures (forall d, i :: LogOk(s', d, i)) && (forall d, i, j :: LogOrder(s', d, i, j))
  {
    assert LaneOk(cfg, s, q);
    var now := Now(s.lanes[q], q);
    assert (c, now) !in s.skipped by { assert SkipOk(cfg, s, c, now); }
    forall d: nat, i: nat ensures LogOk(s', d, i) {
      assert LogOk(s, d, i);
    }
    forall d: nat, i: nat, j: nat ensures LogOrder(s', d, i, j) {
      assert LogOrder(s, d, i, j) && LogOk(s, d, i);
    }
  }

  lemma SettleCover(cfg: Config, s: State, s': State, q: nat, c: nat)
    requires Inv(cfg, s) && Settles(cfg, s, s', q, c)
    ensures (forall d, t :: SkipOk(cfg, s', d, t)) && (forall d, t :: CoverOk(s', d, t))
  {
    assert LaneOk(cfg, s, q);
    forall d: nat, t ensures SkipOk(cfg, s', d, t) {
      assert SkipOk(cfg, s, d, t);
    }
    forall d: nat, t ensures CoverOk(s', d, t) {
      assert CoverOk(s, d, t);
      if d < |s.conns| && t in s.conns[d].log && d == c { assert t in s'.conns[d].log; }
      if t == Now(s.lanes[q], q) && d == c { assert t in s'.conns[c].log || (c, t) in s'.skipped; }
    }
  }

  lemma SettleKeeps(cfg: Config, s: State, s': State, q: nat, c: nat)
    requires Inv(cfg, s) && Settles(cfg, s, s', q, c)
    ensures Inv(cfg, s')
  {
    forall x ensures LaneOk(cfg, s', x) { assert LaneOk(cfg, s, x); }
    forall x, i ensures JobOk(cfg, s', x, i) { assert JobOk(cfg, s, x, i); }
    forall x, i, j ensures OrderOk(s', x, i, j) { assert OrderOk(s, x, i, j); }
    forall x ensures PubOk(cfg, s', x) { assert PubOk(cfg, s, x); }
    SettleLogs(cfg, s, s', q, c);
    SettleCover(cfg, s, s', q, c);
    forall ch ensures ChanOk(s', ch) { assert ChanOk(s, ch); }
    forall k ensures CloserOk(s', k) { assert CloserOk(s, k); }
    forall d ensures ConnOk(s', d) { assert ConnOk(s, d); }
  }

  // ----- every step, every run -----------------------------------------------------------------------------------

  lemma StepKeeps(cfg: Config, s: State, a: Action)
    requires Inv(cfg, s) && Enabled(cfg, s, a)
    ensures Inv(cfg, Step(cfg, s, a))
  {
    if Outside(a) { OutsideKeeps(cfg, s, a); }
    else if a.Enqueue? || a.Inline? { GiveKeeps(cfg, s, a, a.p); }
    else {
      var q := a.q;
      assert LaneOk(cfg, s, q);
      if Sends(s, q) && !s.lanes[q].pc.cur.NoOne? { assert ConnOk(s, s.lanes[q].pc.cur.c); }
      if Moves(cfg, s, a, q) { MoveKeeps(cfg, s, a, q); }
      else {
        assert ConnOk(s, Dealt(s, a, q));
        SettleKeeps(cfg, s, Step(cfg, s, a), q, Dealt(s, a, q));
      }
    }
  }

  ghost predicate IsRun(cfg: Config, run: seq<State>, acts: seq<Action>) {
    && |run| == |acts| + 1 && Start(cfg, run[0])
    && forall i :: 0 <= i < |acts| ==> Enabled(cfg, run[i], acts[i]) && run[i + 1] == Step(cfg, run[i], acts[i])
  }

  lemma {:induction false} RunKeeps(cfg: Config, run: seq<State>, acts: seq<Action>, n: nat)
    requires IsRun(cfg, run, acts) && n < |run|
    ensures forall i :: 0 <= i <= n ==> Inv(cfg, run[i])
  {
    if n == 0 { StartInv(cfg, run[0]); }
    else {
      RunKeeps(cfg, run, acts, n - 1);
      StepKeeps(cfg, run[n - 1], acts[n - 1]);
    }
  }

  // ----- ordering ----------------------------------------------------------------------------------------------------

  /** j is the publish behind a ticket. */
  ghost predicate IsJob(s: State, t: Ticket, j: Job) {
    t.q < |s.lanes| && t.idx < |s.lanes[t.q].hist| && s.lanes[t.q].hist[t.idx] == j
  }

  lemma EntryIsJob(cfg: Config, s: State, c: nat, i: nat, j: Job)
    requires Inv(cfg, s) && c < |s.conns| && i < |s.conns[c].log| && IsJob(s, s.conns[c].log[i], j)
    ensures LaneOf(cfg, j) == s.conns[c].log[i].q
  {
    assert JobOk(cfg, s, s.conns[c].log[i].q, s.conns[c].log[i].idx);
  }

  /** Per-subscriber FIFO, for both fanouts: what enters a subscriber's buffer from one publisher
      on one channel does so in publish order and never twice. */
  lemma PerSubscriberFifo(cfg: Config, run: seq<State>, acts: seq<Action>, n: nat, c: nat, i: nat, j: nat, a: Job,
      b: Job)
    requires IsRun(cfg, run, acts) && n < |run| && c < |run[n].conns| && i < j < |run[n].conns[c].log|
    requires IsJob(run[n], run[n].conns[c].log[i], a) && IsJob(run[n], run[n].conns[c].log[j], b)
    requires a.pub == b.pub && a.ch == b.ch
    ensures a.num < b.num
  {
    RunKeeps(cfg, run, acts, n);
    var s := run[n];
    EntryIsJob(cfg, s, c, i, a);
    EntryIsJob(cfg, s, c, j, b);
    assert LogOrder(s, c, i, j);
    assert OrderOk(s, s.conns[c].log[i].q, s.conns[c].log[i].idx, s.conns[c].log[j].idx);
  }

  /** The sharded pool gives any two subscribers the events of one channel in the same order,
      whoever published them. */
  lemma SameOrderForAll(cfg: Config, run: seq<State>, acts: seq<Action>, n: nat, c: nat, d: nat, i: nat, j: nat,
      k: nat, l: nat,
                        a: Job, b: Job)
    requires IsRun(cfg, run, acts) && n < |run| && !cfg.inline && c < |run[n].conns| && d < |run[n].conns|
    requires i < j < |run[n].conns[c].log| && k < |run[n].conns[d].log| && l < |run[n].conns[d].log|
    requires run[n].conns[c].log[i] == run[n].conns[d].log[k] && run[n].conns[c].log[j] == run[n].conns[d].log[l]
    requires IsJob(run[n], run[n].conns[c].log[i], a) && IsJob(run[n], run[n].conns[c].log[j], b) && a.ch == b.ch
    ensures k < l
  {
    RunKeeps(cfg, run, acts, n);
    var s := run[n];
    EntryIsJob(cfg, s, c, i, a);
    EntryIsJob(cfg, s, c, j, b);
    assert LogOrder(s, c, i, j) && LogOrder(s, d, l, k);
  }

  /** Every log entry is a publish that was handed to its lane, on a channel whose snapshot had
      the subscriber. */
  lemma LoggedWasPublished(cfg: Config, run: seq<State>, acts: seq<Action>, n: nat, c: nat, i: nat) returns (j: Job)
    requires IsRun(cfg, run, acts) && n < |run| && c < |run[n].conns| && i < |run[n].conns[c].log|
    ensures var s := run[n]; var t := s.conns[c].log[i];
      && IsJob(s, t, j) && j.pub < |s.pubs| && j.num < s.pubs[j.pub].num
      && t.idx < |s.lanes[t.q].snaps| && c in s.lanes[t.q].snaps[t.idx]
  {
    RunKeeps(cfg, run, acts, n);
    var s := run[n];
    var t := s.conns[c].log[i];
    assert LogOk(s, c, i) && LaneOk(cfg, s, t.q) && JobOk(cfg, s, t.q, t.idx);
    j := s.lanes[t.q].hist[t.idx];
  }

  /** Under PolicyDisconnect an event is withheld only from a connection already told to close,
      or closed. */
  lemma SkippedWasSignalled(cfg: Config, run: seq<State>, acts: seq<Action>, n: nat, c: nat, t: Ticket)
    requires IsRun(cfg, run, acts) && n < |run| && cfg.policy.Disconnect? && (c, t) in run[n].skipped
    ensures c < |run[n].conns| && (run[n].conns[c].signalled || run[n].conns[c].closed)
  {
    RunKeeps(cfg, run, acts, n);
    assert SkipOk(cfg, run[n], c, t);
  }

  // ----- conservation ------------------------------------------------------------------------------------------------

  ghost predicate CountsOnce(s: State, c: nat, t: Ticket)
    requires c < |s.conns|
  {
    if (c, t) in s.skipped then t !in s.conns[c].log
    else
      exists i :: 0 <= i < |s.conns[c].log| && s.conns[c].log[i] == t &&
                  forall j :: 0 <= j < |s.conns[c].log| && j != i ==> s.conns[c].log[j] != t
  }

  /** A finished broadcast reached each subscriber of its snapshot exactly once, or skipped it. */
  lemma FinishedReachedAll(cfg: Config, run: seq<State>, acts: seq<Action>, n: nat, q: nat, idx: nat, c: nat)
    requires IsRun(cfg, run, acts) && n < |run| && q < |run[n].lanes| && idx < |run[n].lanes[q].snaps|
    requires c in run[n].lanes[q].snaps[idx] && !Due(run[n].lanes[q], idx, c)
    ensures c < |run[n].conns| && CountsOnce(run[n], c, Ticket(q, idx))
  {
    RunKeeps(cfg, run, acts, n);
    var s := run[n];
    var t := Ticket(q, idx);
    assert CoverOk(s, c, t);
    if (c, t) in s.skipped {
      forall i | 0 <= i < |s.conns[c].log| ensures s.conns[c].log[i] != t { assert LogOk(s, c, i); }
    } else {
      var i :| 0 <= i < |s.conns[c].log| && s.conns[c].log[i] == t;
      forall j | 0 <= j < |s.conns[c].log| && j != i ensures s.conns[c].log[j] != t {
        assert LogOrder(s, c, i, j) && LogOrder(s, c, j, i);
      }
    }
  }

  // ----- from a publish to its subscribers ---------------------------------------------------------------------

  /** What was handed to a lane, taken and snapshotted stays as it is, and publishes are counted up. */
  ghost predicate Grows(s: State, s': State) {
    var holds :=
      && |s'.lanes| == |s.lanes| && |s'.pubs| == |s.pubs| && |s'.conns| == |s.conns| && |s'.chans| == |s.chans|
      && (forall q :: 0 <= q < |s.lanes| ==> LaneGrows(s.lanes[q], s'.lanes[q]))
      && (forall p :: 0 <= p < |s.pubs| ==> s.pubs[p].num <= s'.pubs[p].num);
    holds
  }

  lemma StepLane(cfg: Config, s: State, a: Action, q: nat)
    requires Enabled(cfg, s, a) && q < |s.lanes|
    ensures |Step(cfg, s, a).lanes| == |s.lanes| && LaneGrows(s.lanes[q], Step(cfg, s, a).lanes[q])
  {
  }

  ghost predicate LaneGrows(l: Lane, l': Lane) {
    l.hist <= l'.hist && l.snaps <= l'.snaps && l.taken <= l'.taken
  }

  lemma StepGrows(cfg: Config, s: State, a: Action)
    requires Enabled(cfg, s, a)
    ensures Grows(s, Step(cfg, s, a))
  {
    var s' := Step(cfg, s, a);
    forall q | 0 <= q < |s.lanes| ensures |s'.lanes| == |s.lanes| && LaneGrows(s.lanes[q], s'.lanes[q]) {
      StepLane(cfg, s, a, q);
    }
  }

  lemma RunGrows(cfg: Config, run: seq<State>, acts: seq<Action>, m: nat, n: nat)
    requires IsRun(cfg, run, acts) && m <= n < |run|
    ensures Grows(run[m], run[n])
  {
    forall i | 0 <= i < |acts| ensures Grows(run[i], run[i + 1]) { StepGrows(cfg, run[i], acts[i]); }
    AllGrow(run, m, n);
  }

  lemma {:induction false} AllGrow(run: seq<State>, m: nat, n: nat)
    requires m <= n < |run| && forall i :: 0 <= i < |run| - 1 ==> Grows(run[i], run[i + 1])
    ensures Grows(run[m], run[n])
    decreases n
  {
    if m < n {
      AllGrow(run, m, n - 1);
      assert Grows(run[n - 1], run[n - 1 + 1]);
      GrowsOn(run[m], run[n - 1], run[n]);
    }
  }

  lemma GrowsOn(s: State, s': State, s'': State)
    requires Grows(s, s') && Grows(s', s'')
    ensures Grows(s, s'')
  {
    forall q | 0 <= q < |s.lanes| ensures LaneGrows(s.lanes[q], s''.lanes[q]) {
      assert LaneGrows(s.lanes[q], s'.lanes[q]) && LaneGrows(s'.lanes[q], s''.lanes[q]);
    }
  }

  ghost predicate HasSnapshot(s: State, t: Ticket) { t.q < |s.lanes| && t.idx < |s.lanes[t.q].snaps| }

  lemma SnapshotStep(cfg: Config, s: State, a: Action, t: Ticket)
    requires Enabled(cfg, s, a) && LaneOk(cfg, s, t.q) && HasSnapshot(Step(cfg, s, a), t)
    ensures t.q < |s.lanes|
    ensures var snap := Step(cfg, s, a).lanes[t.q].snaps[t.idx];
      if HasSnapshot(s, t) then snap == s.lanes[t.q].snaps[t.idx]
      else
        && a == Snapshot(t.q) && t.idx < |s.lanes[t.q].hist| && s.lanes[t.q].hist[t.idx].ch < |s.chans|
        && snap == s.chans[s.lanes[t.q].hist[t.idx].ch]
  {
  }

  /** A snapshot is the channel's subscribers at the step that took it. */
  lemma {:induction false} SnapshotTaken(cfg: Config, run: seq<State>, acts: seq<Action>, n: nat, t: Ticket)
      returns (k: nat)
    requires IsRun(cfg, run, acts) && n < |run| && HasSnapshot(run[n], t)
    ensures k < n && acts[k] == Snapshot(t.q) && t.q < |run[k].lanes| && t.idx < |run[k].lanes[t.q].hist|
    ensures var ch := run[k].lanes[t.q].hist[t.idx].ch;
      ch < |run[k].chans| && run[n].lanes[t.q].snaps[t.idx] == run[k].chans[ch]
  {
    k := n - 1;
    RunKeeps(cfg, run, acts, k);
    assert LaneOk(cfg, run[k], t.q);
    SnapshotStep(cfg, run[k], acts[k], t);
    if HasSnapshot(run[k], t) { k := SnapshotTaken(cfg, run, acts, k, t); }
  }

  /** The broadcast is over: taken, snapshotted and no longer being sent. */
  ghost predicate Over(s: State, t: Ticket) {
    && t.q < |s.lanes| && t.idx < |s.lanes[t.q].snaps|
    && (t.idx + 1 < s.lanes[t.q].taken || !s.lanes[t.q].pc.Sending?)
  }

  /** The snapshot of a publish is taken after it began. */
  lemma SnapshotAfterBegin(cfg: Config, run: seq<State>, acts: seq<Action>, i: nat, p: nat, ch: nat, m: nat, t: Ticket)
      returns (k: nat)
    requires IsRun(cfg, run, acts) && i < m < |run| && acts[i] == Begin(p, ch)
    requires t.q < |run[m].lanes| && t.idx < |run[m].lanes[t.q].snaps|
    requires p < |run[i].pubs| && IsJob(run[m], t, Job(p, run[i].pubs[p].num, ch))
    ensures i < k < m && ch < |run[k].chans| && run[m].lanes[t.q].snaps[t.idx] == run[k].chans[ch]
  {
    k := SnapshotTaken(cfg, run, acts, m, t);
    RunGrows(cfg, run, acts, k, m);
    assert LaneGrows(run[k].lanes[t.q], run[m].lanes[t.q]);
    RunKeeps(cfg, run, acts, k);
    assert JobOk(cfg, run[k], t.q, t.idx);
    if k <= i { RunGrows(cfg, run, acts, k, i); }
  }

  /** Whoever is subscribed to the channel from the beginning of a publish until its broadcast is over has
      the event exactly once, or was skipped. */
  lemma SubscribersGetIt(cfg: Config, run: seq<State>, acts: seq<Action>, i: nat, p: nat, ch: nat, m: nat, t: Ticket,
      c: nat)
    requires IsRun(cfg, run, acts) && i < m < |run| && acts[i] == Begin(p, ch) && Over(run[m], t)
    requires p < |run[i].pubs| && IsJob(run[m], t, Job(p, run[i].pubs[p].num, ch))
    requires forall k :: i < k < m && ch < |run[k].chans| ==> c in run[k].chans[ch]
    ensures c < |run[m].conns| && CountsOnce(run[m], c, t)
  {
    var k := SnapshotAfterBegin(cfg, run, acts, i, p, ch, m, t);
    FinishedReachedAll(cfg, run, acts, m, t.q, t.idx, c);
  }

  /** And whoever is subscribed at no moment of that time never gets it. */
  lemma OthersDoNot(cfg: Config, run: seq<State>, acts: seq<Action>, i: nat, p: nat, ch: nat, m: nat, t: Ticket, c: nat,
      n: nat)
    requires IsRun(cfg, run, acts) && i < m <= n < |run| && acts[i] == Begin(p, ch) && Over(run[m], t)
    requires p < |run[i].pubs| && IsJob(run[m], t, Job(p, run[i].pubs[p].num, ch))
    requires forall k :: i < k < m && ch < |run[k].chans| ==> c !in run[k].chans[ch]
    ensures c < |run[n].conns| ==> t !in run[n].conns[c].log
    ensures (c, t) !in run[n].skipped
  {
    var k := SnapshotAfterBegin(cfg, run, acts, i, p, ch, m, t);
    RunGrows(cfg, run, acts, m, n);
    assert LaneGrows(run[m].lanes[t.q], run[n].lanes[t.q]);
    RunKeeps(cfg, run, acts, n);
    assert SkipOk(cfg, run[n], c, t);
    if c < |run[n].conns| {
      forall e | 0 <= e < |run[n].conns[c].log| ensures run[n].conns[c].log[e] != t { assert LogOk(run[n], c, e); }
    }
  }

  lemma MemberStep(cfg: Config, s: State, a: Action, ch: nat, c: nat)
    requires Enabled(cfg, s, a) && ch < |s.chans|
    ensures var s' := Step(cfg, s, a);
      && |s'.chans| == |s.chans|
      && (c in s'.chans[ch] <==> a == Subscribe(ch, c) || (c in s.chans[ch] && a != Unsubscribe(ch, c)))
  {
  }

  ghost predicate SubscribedSince(acts: seq<Action>, i: nat, n: nat, ch: nat, c: nat) {
    i < n <= |acts| && acts[i] == Subscribe(ch, c) && forall j :: i < j < n ==> acts[j] != Unsubscribe(ch, c)
  }

  ghost predicate Subscribed(acts: seq<Action>, n: nat, ch: nat, c: nat) {
    exists i :: SubscribedSince(acts, i, n, ch, c)
  }

  lemma SubscribedStep(acts: seq<Action>, n: nat, ch: nat, c: nat)
    requires n < |acts|
    ensures Subscribed(acts, n + 1, ch, c) <==>
      acts[n] == Subscribe(ch, c) || (Subscribed(acts, n, ch, c) && acts[n] != Unsubscribe(ch, c))
  {
    if acts[n] == Subscribe(ch, c) { assert SubscribedSince(acts, n, n + 1, ch, c); }
    else if Subscribed(acts, n, ch, c) && acts[n] != Unsubscribe(ch, c) {
      var i :| SubscribedSince(acts, i, n, ch, c);
      assert SubscribedSince(acts, i, n + 1, ch, c);
    } else if Subscribed(acts, n + 1, ch, c) {
      var i :| SubscribedSince(acts, i, n + 1, ch, c);
      assert SubscribedSince(acts, i, n, ch, c);
    }
  }

  /** A connection is subscribed to a channel from its Subscribe until its Unsubscribe. */
  lemma {:induction false} SubscribedIff(cfg: Config, run: seq<State>, acts: seq<Action>, n: nat, ch: nat, c: nat)
    requires IsRun(cfg, run, acts) && n < |run| && ch < |run[0].chans|
    ensures ch < |run[n].chans| && (c in run[n].chans[ch] <==> Subscribed(acts, n, ch, c))
  {
    if n > 0 {
      SubscribedIff(cfg, run, acts, n - 1, ch, c);
      MemberStep(cfg, run[n - 1], acts[n - 1], ch, c);
      SubscribedStep(acts, n - 1, ch, c);
    }
  }

  // ----- from a publish to its lane --------------------------------------------------------------------------------

  /** The publish is on its way to its lane, or has been handed over, or found the pool closed. */
  ghost predicate Underway(s: State, p: nat, j: Job) {
    p < |s.pubs| && (s.pubs[p].pc == AtLock(j) || s.pubs[p].pc == Inside(j))
  }

  ghost predicate InLane(cfg: Config, s: State, j: Job) { exists t: Ticket :: t.q == LaneOf(cfg, j) && IsJob(s, t, j) }

  lemma HandsOver(cfg: Config, s: State, a: Action, p: nat, j: Job)
    requires Inv(cfg, s) && Enabled(cfg, s, a) && Underway(s, p, j)
    ensures var s' := Step(cfg, s, a);
      Underway(s', p, j) || InLane(cfg, s', j) || (a == Enter(p) && s.closed && !cfg.inline)
  {
    assert PubOk(cfg, s, p);
    if a == Enqueue(p) || a == Inline(p) {
      var q := LaneOf(cfg, j);
      assert IsJob(Step(cfg, s, a), Ticket(q, |s.lanes[q].hist|), j);
    }
  }

  lemma StaysInLane(cfg: Config, s: State, a: Action, j: Job)
    requires Enabled(cfg, s, a) && InLane(cfg, s, j)
    ensures InLane(cfg, Step(cfg, s, a), j)
  {
    var t: Ticket :| t.q == LaneOf(cfg, j) && IsJob(s, t, j);
    StepGrows(cfg, s, a);
    assert LaneGrows(s.lanes[t.q], Step(cfg, s, a).lanes[t.q]) && IsJob(Step(cfg, s, a), t, j);
  }

  /** Its Broadcast found the pool closed. */
  ghost predicate FoundClosed(cfg: Config, run: seq<State>, acts: seq<Action>, i: nat, n: nat, p: nat)
    requires n <= |acts| < |run|
  {
    exists k :: i < k < n && acts[k] == Enter(p) && run[k].closed && !cfg.inline
  }

  /** A publish is handed to its lane before its Broadcast returns, unless that found the pool closed. */
  lemma {:induction false} PublishedIsHanded(cfg: Config, run: seq<State>, acts: seq<Action>, i: nat, p: nat, ch: nat,
      n: nat)
    requires IsRun(cfg, run, acts) && i < n < |run| && acts[i] == Begin(p, ch) && p < |run[i].pubs|
    ensures var j := Job(p, run[i].pubs[p].num, ch);
      Underway(run[n], p, j) || InLane(cfg, run[n], j) || FoundClosed(cfg, run, acts, i, n, p)
    decreases n
  {
    var j := Job(p, run[i].pubs[p].num, ch);
    if i + 1 < n {
      var m := n - 1;
      PublishedIsHanded(cfg, run, acts, i, p, ch, m);
      RunKeeps(cfg, run, acts, m);
      if Underway(run[m], p, j) { HandsOver(cfg, run[m], acts[m], p, j); }
      else if InLane(cfg, run[m], j) { StaysInLane(cfg, run[m], acts[m], j); }
    }
  }

  /** A subscriber is skipped only when it is closed or its buffer is full, under DropOldest only when it
      is still full after an eviction; and otherwise the event enters its buffer. */
  lemma SkippedBecause(cfg: Config, s: State, a: Action, c: nat, t: Ticket)
    requires Inv(cfg, s) && Enabled(cfg, s, a) && (c, t) !in s.skipped && (c, t) in Step(cfg, s, a).skipped
    ensures c < |s.conns|
    ensures (a == Check(t.q, c) && s.conns[c].closed)
      || (s.conns[c].buf == 64 && (a == Retry(t.q) || (a == Apply(t.q) && !cfg.policy.DropOldest?)))
  {
    assert LaneOk(cfg, s, a.q) && ConnOk(s, c);
  }

  /** A connection is told to close as a slow consumer only under PolicyDisconnect, by an event that found
      its buffer full. */
  lemma SignalledBecause(cfg: Config, s: State, a: Action, c: nat)
    requires Enabled(cfg, s, a) && c < |s.conns| && !s.conns[c].signalled && Step(cfg, s, a).conns[c].signalled
    ensures a.Apply? && cfg.policy.Disconnect? && s.lanes[a.q].pc.cur == Trying(c) && s.conns[c].buf >= 64
  {
  }

  /** DropOldest makes room: a try right after an eviction delivers. */
  lemma EvictionMakesRoom(cfg: Config, s: State, q: nat)
    requires Inv(cfg, s) && Enabled(cfg, s, Evict(q))
    ensures var c, s' := s.lanes[q].pc.cur.c, Step(cfg, s, Evict(q));
      && Enabled(cfg, s', Retry(q))
      && Step(cfg, s', Retry(q)).conns[c].log == s.conns[c].log + [Now(s.lanes[q], q)]
  {
    assert ConnOk(s, s.lanes[q].pc.cur.c);
  }

  /** Nothing is in a buffer that did not enter it, and nothing leaves but by being written or evicted. */
  lemma BufferCounts(cfg: Config, s: State, a: Action, c: nat)
    requires Enabled(cfg, s, a) && c < |s.conns|
    ensures var k, k' := s.conns[c], Step(cfg, s, a).conns[c];
      var leaves := a == Write(c) || (a.Evict? && s.lanes[a.q].pc.cur.c == c && k.buf > 0);
      && k.log <= k'.log && |k'.log| <= |k.log| + 1
      && k'.buf + (if leaves then 1 else 0) == k.buf + (|k'.log| - |k.log|) + (if a == Control(c) then 1 else 0)
      && (k.closed ==> k'.closed) && (a == Hangup(c) ==> k'.closed)
  {
  }

  /** No job is ever sent on a closed queue: a publisher at the send, blocked there on a full
      queue or not, holds the read lock, and the queues are open. */
  lemma NoSendOnClosedQueue(cfg: Config, run: seq<State>, acts: seq<Action>, n: nat, p: nat)
    requires IsRun(cfg, run, acts) && n < |run| && p < |run[n].pubs| && run[n].pubs[p].pc.Inside?
    ensures !run[n].closed
  {
    RunKeeps(cfg, run, acts, n);
    assert PubOk(cfg, run[n], p);
  }

  /** Once the Close that closed the queues has returned, every job ever enqueued has been
      broadcast, exactly once to each subscriber of its snapshot. */
  lemma CloseDrains(cfg: Config, run: seq<State>, acts: seq<Action>, n: nat, k: nat, q: nat)
    requires IsRun(cfg, run, acts) && n < |run| && k < |run[n].closers| && run[n].closers[k] == Returned(true)
      && q < |run[n].lanes|
    ensures var l := run[n].lanes[q];
      && l.taken == |l.hist| == |l.snaps| && l.pc.Exited?
      && forall idx, c :: 0 <= idx < |l.hist| && c in l.snaps[idx] ==>
        c < |run[n].conns| && CountsOnce(run[n], c, Ticket(q, idx))
  {
    RunKeeps(cfg, run, acts, n);
    var s := run[n];
    var l := s.lanes[q];
    assert CloserOk(s, k) && LaneOk(cfg, s, q);
    forall idx: nat, c | idx < |l.hist| && c in l.snaps[idx] ensures c < |s.conns| && CountsOnce(s, c, Ticket(q, idx)) {
      FinishedReachedAll(cfg, run, acts, n, q, idx, c);
    }
  }

  ghost predicate Drains(s: State, k: nat) { k < |s.closers| && s.closers[k] in {Draining, Returned(true)} }

  lemma DrainerStays(cfg: Config, s: State, a: Action, k: nat)
    requires Enabled(cfg, s, a) && Drains(s, k)
    ensures Drains(Step(cfg, s, a), k)
  {
  }

  lemma FirstDrains(cfg: Config, s: State, a: Action)
    requires Enabled(cfg, s, a) && !s.closed && Step(cfg, s, a).closed
    ensures a.CloseQueues? && Drains(Step(cfg, s, a), a.k)
  {
  }

  /** Whoever closes the queues waits for them to be drained: a closed pool has a Close that is draining it
      or has come back from doing so. */
  lemma {:induction false} ClosedIsDrained(cfg: Config, run: seq<State>, acts: seq<Action>, n: nat)
    requires IsRun(cfg, run, acts) && n < |run| && run[n].closed
    ensures exists k :: Drains(run[n], k)
  {
    if run[n - 1].closed {
      ClosedIsDrained(cfg, run, acts, n - 1);
      var k :| Drains(run[n - 1], k);
      DrainerStays(cfg, run[n - 1], acts[n - 1], k);
    } else {
      FirstDrains(cfg, run[n - 1], acts[n - 1]);
    }
  }

  /** Once closed is set it stays set and no broadcast adds a job. */
  lemma {:induction false} LaterBroadcastsAreNoOps(cfg: Config, run: seq<State>, acts: seq<Action>, m: nat, n: nat,
      q: nat)
    requires IsRun(cfg, run, acts) && m <= n < |run| && !cfg.inline && run[m].closed && q < |run[m].lanes|
    ensures run[n].closed && |run[n].lanes| == |run[m].lanes| && run[n].lanes[q].hist == run[m].lanes[q].hist
    decreases n - m
  {
    if m < n {
      RunKeeps(cfg, run, acts, m);
      ClosedStep(cfg, run[m], acts[m], q);
      LaterBroadcastsAreNoOps(cfg, run, acts, m + 1, n, q);
    }
  }

  lemma ClosedStep(cfg: Config, s: State, a: Action, q: nat)
    requires Inv(cfg, s) && Enabled(cfg, s, a) && !cfg.inline && s.closed && q < |s.lanes|
    ensures var s' := Step(cfg, s, a); s'.closed && |s'.lanes| == |s.lanes| && s'.lanes[q].hist == s.lanes[q].hist
  {
    forall p: nat ensures p < |s.pubs| ==> !s.pubs[p].pc.Inside? { assert PubOk(cfg, s, p); }
  }

  // ----- Close finishes ------------------------------------------------------------------------------------

  /** How many steps one queued job can still take with n connections. */
  function JobCost(n: nat): nat { 4 * n + 3 }

  function PcRank(pc: LanePc, n: nat): nat {
    match pc
    case Exited => 0
    case Resting => 1
    case Taken => 4 * n + 3
    case Sending(rest, cur) =>
      2 + 4 * |rest| + (match cur case NoOne => 0 case Trying(_) => 3 case Evicting(_) => 2 case Retrying(_) => 1)
  }

  ghost function QueueRank(len: nat, cost: nat): nat { if len == 0 then 0 else cost + QueueRank(len - 1, cost) }

  ghost function LaneRank(l: Lane, n: nat): nat {
    PcRank(l.pc, n) + (if l.taken <= |l.hist| then QueueRank(|l.hist| - l.taken, JobCost(n)) else 0)
  }

  ghost function LanesRank(ls: seq<Lane>, n: nat): nat {
    if ls == [] then 0 else LanesRank(ls[..|ls| - 1], n) + LaneRank(ls[|ls| - 1], n)
  }

  ghost function PubRank(p: Pub, n: nat): nat { if p.pc.Inside? then JobCost(n) + 1 else 0 }

  ghost function PubsRank(ps: seq<Pub>, n: nat): nat {
    if ps == [] then 0 else PubsRank(ps[..|ps| - 1], n) + PubRank(ps[|ps| - 1], n)
  }

  ghost function Load(s: State): nat { LanesRank(s.lanes, |s.conns|) + PubsRank(s.pubs, |s.conns|) }

  /** What closer k still waits for: queued jobs, readers already inside, sends under way. */
  ghost function Measure(s: State, k: nat): nat
    requires k < |s.closers|
  {
    Load(s) + Stage(s, k)
  }

  lemma {:induction false} LanesRankUpdate(ls: seq<Lane>, q: nat, l: Lane, n: nat)
    requires q < |ls|
    ensures LanesRank(ls[q := l], n) == LanesRank(ls, n) - LaneRank(ls[q], n) + LaneRank(l, n)
  {
    var last := |ls| - 1;
    if q == last { assert ls[q := l][..last] == ls[..last]; }
    else {
      assert ls[q := l][..last] == ls[..last][q := l];
      LanesRankUpdate(ls[..last], q, l, n);
    }
  }

  lemma {:induction false} PubsRankUpdate(ps: seq<Pub>, p: nat, x: Pub, n: nat)
    requires p < |ps|
    ensures PubsRank(ps[p := x], n) == PubsRank(ps, n) - PubRank(ps[p], n) + PubRank(x, n)
  {
    var last := |ps| - 1;
    if p == last { assert ps[p := x][..last] == ps[..last]; }
    else {
      assert ps[p := x][..last] == ps[..last][p := x];
      PubsRankUpdate(ps[..last], p, x, n);
    }
  }

  lemma {:induction false} SmallSet(a: set<nat>, n: nat)
    requires forall c :: c in a ==> c < n
    ensures |a| <= n
  {
    if n == 0 { assert a == {}; }
    else {
      SmallSet(a - {n - 1}, n - 1);
      if n - 1 in a { assert a == (a - {n - 1}) + {n - 1}; } else { assert a == a - {n - 1}; }
    }
  }

  /** The steps Close waits on. */
  predicate PoolStep(a: Action, k: nat) {
    a.Enqueue? || a.Take? || a.Snapshot? || a.Check? || a.Apply? || a.Evict? || a.Retry? || a.Finish? ||
    a.WorkerExit? || a == CloseQueues(k) || a == CloseReturn(k)
  }

  predicate Closing(s: State, k: nat) { k < |s.closers| && (s.closers[k].Asking? || s.closers[k].Draining?) }

  lemma PcDecreases(cfg: Config, s: State, a: Action, q: nat)
    requires Inv(cfg, s) && Enabled(cfg, s, a) && !Outside(a) && !a.Enqueue? && !a.Inline? && a.q == q && !a.Take?
    requires |Step(cfg, s, a).lanes| == |s.lanes|
    ensures PcRank(Step(cfg, s, a).lanes[q].pc, |s.conns|) < PcRank(s.lanes[q].pc, |s.conns|)
  {
    if a.Snapshot? {
      var ch := s.lanes[q].hist[s.lanes[q].taken - 1].ch;
      assert ChanOk(s, ch);
      SmallSet(s.chans[ch], |s.conns|);
    }
    if a.Check? { assert |s.lanes[q].pc.rest - {a.c}| == |s.lanes[q].pc.rest| - 1; }
  }

  lemma LaneStepDecreases(cfg: Config, s: State, a: Action, q: nat)
    requires Inv(cfg, s) && Enabled(cfg, s, a) && !Outside(a) && !a.Enqueue? && !a.Inline? && a.q == q
    ensures Load(Step(cfg, s, a)) < Load(s)
  {
    assert LaneOk(cfg, s, q);
    if !a.Take? { PcDecreases(cfg, s, a, q); }
    RankDrops(s.lanes[q], Step(cfg, s, a).lanes[q], |s.conns|);
    LoadDrops(s, Step(cfg, s, a), q);
  }

  lemma RankDrops(l: Lane, l': Lane, n: nat)
    requires l'.hist == l.hist && l.taken <= l'.taken <= |l.hist|
    requires if l'.taken == l.taken then PcRank(l'.pc, n) < PcRank(l.pc, n)
             else l'.taken == l.taken + 1 && l'.pc == Taken && !l.pc.Exited?
    ensures LaneRank(l', n) < LaneRank(l, n)
  {
  }

  lemma LoadDrops(s: State, s': State, q: nat)
    requires q < |s.lanes| && |s'.lanes| == |s.lanes| && s'.lanes == s.lanes[q := s'.lanes[q]]
    requires |s'.conns| == |s.conns| && s'.pubs == s.pubs
      && LaneRank(s'.lanes[q], |s.conns|) < LaneRank(s.lanes[q], |s.conns|)
    ensures Load(s') < Load(s)
  {
    LanesRankUpdate(s.lanes, q, s'.lanes[q], |s.conns|);
  }

  /** Publishers, clients and other closers add nothing while the lock is asked for or held. */
  lemma OutsideAdds(cfg: Config, s: State, a: Action, k: nat)
    requires Inv(cfg, s) && Enabled(cfg, s, a) && Outside(a) && Closing(s, k)
    ensures Load(Step(cfg, s, a)) <= Load(s)
  {
    var s' := Step(cfg, s, a);
    assert CloserOk(s, k);
    if a.Begin? || a.Enter? {
      PubsRankUpdate(s.pubs, a.p, s'.pubs[a.p], |s.conns|);
      assert a.Enter? ==> s.closed;
    }
  }

  lemma EnqueueDecreases(cfg: Config, s: State, p: nat)
    requires Inv(cfg, s) && Enabled(cfg, s, Enqueue(p))
    ensures Load(Step(cfg, s, Enqueue(p))) < Load(s)
  {
    var s' := Step(cfg, s, Enqueue(p));
    var q := LaneOf(cfg, s.pubs[p].pc.job);
    assert LaneOk(cfg, s, q);
    LanesRankUpdate(s.lanes, q, s'.lanes[q], |s.conns|);
    PubsRankUpdate(s.pubs, p, s'.pubs[p], |s.conns|);
    assert |s'.lanes[q].hist| - s'.lanes[q].taken == |s.lanes[q].hist| - s.lanes[q].taken + 1;
  }

  ghost function Stage(s: State, k: nat): nat
    requires k < |s.closers|
  {
    (if s.closed then 0 else 1) +
    (match s.closers[k] case Away => 3 case Asking => 2 case Draining => 1 case Returned(_) => 0)
  }

  lemma StageMoves(cfg: Config, s: State, a: Action, k: nat)
    requires Enabled(cfg, s, a) && Closing(s, k)
    ensures |Step(cfg, s, a).closers| == |s.closers| && Stage(Step(cfg, s, a), k) <= Stage(s, k)
    ensures a == CloseQueues(k) || a == CloseReturn(k) ==> Stage(Step(cfg, s, a), k) < Stage(s, k)
  {
  }

  /** While a Close is under way no step adds to what it waits for, and each pool step takes away. */
  lemma CloseProgresses(cfg: Config, s: State, a: Action, k: nat)
    requires Inv(cfg, s) && Enabled(cfg, s, a) && !cfg.inline && Closing(s, k)
    ensures k < |Step(cfg, s, a).closers|
    ensures Measure(Step(cfg, s, a), k) <= Measure(s, k)
    ensures PoolStep(a, k) ==> Measure(Step(cfg, s, a), k) < Measure(s, k)
  {
    LoadMoves(cfg, s, a, k);
    StageMoves(cfg, s, a, k);
  }

  lemma LoadMoves(cfg: Config, s: State, a: Action, k: nat)
    requires Inv(cfg, s) && Enabled(cfg, s, a) && !cfg.inline && Closing(s, k)
    ensures if Outside(a) then Load(Step(cfg, s, a)) <= Load(s) else Load(Step(cfg, s, a)) < Load(s)
  {
    if a.Enqueue? { EnqueueDecreases(cfg, s, a.p); }
    else if Outside(a) { OutsideAdds(cfg, s, a, k); }
    else { LaneStepDecreases(cfg, s, a, a.q); }
  }

  ghost predicate Moving(cfg: Config, s: State, k: nat) {
    exists a :: PoolStep(a, k) && Enabled(cfg, s, a)
  }

  /** Until it has returned, Close is never stuck: some pool step is enabled, full queues and
      blocked senders included. */
  lemma CloseNeverStuck(cfg: Config, s: State, k: nat)
    requires Inv(cfg, s) && !cfg.inline && Closing(s, k)
    ensures Moving(cfg, s, k)
  {
    if q: nat :| q < |s.lanes| && (s.lanes[q].pc.Taken? || s.lanes[q].pc.Sending?) {
      BusyLaneMoves(cfg, s, q, k);
    } else if q: nat :| q < |s.lanes| && s.lanes[q].pc.Resting? && s.lanes[q].taken < |s.lanes[q].hist| {
      assert PoolStep(Take(q), k);
    } else if p: nat :| p < |s.pubs| && s.pubs[p].pc.Inside? {
      assert PubOk(cfg, s, p) && LaneOk(cfg, s, LaneOf(cfg, s.pubs[p].pc.job));
      assert PoolStep(Enqueue(p), k);
    } else if s.closers[k].Asking? {
      assert PoolStep(CloseQueues(k), k);
    } else if q: nat :| q < |s.lanes| && !s.lanes[q].pc.Exited? {
      assert CloserOk(s, k) && LaneOk(cfg, s, q);
      assert PoolStep(WorkerExit(q), k);
    } else {
      assert PoolStep(CloseReturn(k), k);
    }
  }

  lemma BusyLaneMoves(cfg: Config, s: State, q: nat, k: nat)
    requires Inv(cfg, s) && q < |s.lanes| && (s.lanes[q].pc.Taken? || s.lanes[q].pc.Sending?)
    ensures Moving(cfg, s, k)
  {
    var l := s.lanes[q];
    assert LaneOk(cfg, s, q);
    if l.pc.Taken? {
      assert JobOk(cfg, s, q, l.taken - 1);
      assert PoolStep(Snapshot(q), k);
    } else {
      forall c: nat | c in Pending(l) ensures c < |s.conns| { assert CoverOk(s, c, Ticket(q, l.taken - 1)); }
      match l.pc.cur
      case NoOne =>
        if c :| c in l.pc.rest {
          assert c in Pending(l) && PoolStep(Check(q, c), k);
        } else {
          assert PoolStep(Finish(q), k);
        }
      case Trying(c) => assert c in Pending(l) && PoolStep(Apply(q), k);
      case Evicting(c) => assert c in Pending(l) && PoolStep(Evict(q), k);
      case Retrying(c) => assert c in Pending(l) && PoolStep(Retry(q), k);
    }
  }

  ghost function PoolSteps(acts: seq<Action>, m: nat, n: nat, k: nat): nat
    requires m <= n <= |acts|
    decreases n - m
  {
    if m == n then 0 else (if PoolStep(acts[m], k) then 1 else 0) + PoolSteps(acts, m + 1, n, k)
  }

  /** A Close that has not returned has seen at most Measure pool steps since it was called,
      whatever else runs meanwhile. With CloseNeverStuck: it returns. */
  lemma {:induction false} CloseFinishes(cfg: Config, run: seq<State>, acts: seq<Action>, m: nat, n: nat, k: nat)
    requires IsRun(cfg, run, acts) && m <= n < |run| && !cfg.inline
    requires forall i :: m <= i < n ==> Closing(run[i], k)
    requires k < |run[m].closers|
    ensures k < |run[n].closers| && PoolSteps(acts, m, n, k) + Measure(run[n], k) <= Measure(run[m], k)
    decreases n - m
  {
    if m < n {
      RunKeeps(cfg, run, acts, m);
      CloseProgresses(cfg, run[m], acts[m], k);
      CloseFinishes(cfg, run, acts, m + 1, n, k);
    }
  }
}
