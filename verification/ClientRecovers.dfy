/** Whatever has happened on a connection (clients/js/src/index.ts), a live handle's record can still
    be confirmed on it: some sequence of steps of that connection alone, in which the server acks what
    it is asked, authorize() resolves and timers fire, gets there. */
module ClientRecovers {
  import opened Options
  import opened ClientWire
  import opened ClientTasks
  import opened ClientHeld
  import opened ClientLost

  /** The server acks or the client hears from it, authorize() resolves, an ack or retry timer fires,
      or a settled promise is noticed: no drop, no user call, no new refusal, no lost reply. */
  ghost predicate Helps(act: Action) {
    || act == DoServe(Acked, false) || act.DoDeliver? || act.Authorized? || act.TimesOut? || act.RunFinally?
    || act.DoResumeResub? || act.DoResumeRestore? || act.DoRetryFires?
  }

  ghost predicate AllHelp(acts: seq<Action>) { forall act :: act in acts ==> Helps(act) }

  /** Connected on an open socket, with record r of ch from an earlier connection. */
  ghost predicate Holds(c: Client, ch: string, r: nat) {
    Inv(c) && c.phase == Connected && c.l.open && c.Current(ch, r) && r !in c.abandoned && r < c.mark
  }

  ghost predicate Recovered(c: Client, ch: string, r: nat) { c.Current(ch, r) && IsConfirmed(c, r) }

  /** Helping steps lead to a confirmed record under the same handles. */
  ghost predicate Recovers(c: Client, ch: string, r: nat) {
    exists acts, c' ::
      Leads(c, acts, c') && AllHelp(acts) && Recovered(c', ch, r) && c'.handles == c.handles
  }

  lemma RecoversNow(c: Client, ch: string, r: nat)
    requires Recovered(c, ch, r)
    ensures Recovers(c, ch, r)
  {
    assert Leads(c, [], c);
  }

  lemma RecoversFirst(c: Client, act: Action, ch: string, r: nat)
    requires Helps(act) && Enabled(c, act) && Recovers(Step(c, act), ch, r) && Step(c, act).handles == c.handles
    ensures Recovers(c, ch, r)
  {
    var acts, c' :|
      Leads(Step(c, act), acts, c') && AllHelp(acts) && Recovered(c', ch, r) && c'.handles == c.handles;
    LeadsFirst(c, act, acts, c');
  }

  // ----- what a helping step leaves alone -----------------------------------------------------------

  /** c' is c as far as the hold on r is concerned. */
  ghost predicate Alike(c: Client, c': Client, ch: string, r: nat) {
    && c'.phase == c.phase && c'.l.open == c.l.open && c'.epoch == c.epoch && c'.mark == c.mark
    && c'.abandoned == c.abandoned && c'.handles == c.handles && (c'.l.channels == c.l.channels || c'.Current(ch, r))
  }

  lemma AlikeHolds(c: Client, act: Action, ch: string, r: nat)
    requires Holds(c, ch, r) && Enabled(c, act) && Alike(c, Step(c, act), ch, r)
    ensures Holds(Step(c, act), ch, r)
  {
    StepKeeps(c, act);
  }

  lemma AttemptAlike(c: Client, n: string, s: nat, ch: string, r: nat)
    requires s in c.l.recs
    ensures Alike(c, StartAttempt(c, n, s), ch, r)
  {
  }

  lemma StartAlike(c: Client, n: string, s: nat, retries: nat, restore: Option<nat>, ch: string, r: nat)
    requires s in c.l.recs
    ensures Alike(c, StartResub(c, n, s, retries, restore), ch, r)
  {
    AttemptAlike(c.(next := c.next + 1), n, s, ch, r);
    StartResubAdds(c, n, s, retries, restore);
  }

  lemma RetryAlike(c: Client, s: nat, ch: string, r: nat)
    requires Enabled(c, DoRetryFires(s))
    ensures Alike(c, RetryFires(c, s), ch, r)
  {
    StartAlike(c, c.l.recs[s].channel, s, c.l.recs[s].retry.value.retries, None, ch, r);
  }

  lemma RestoreStops(c: Client, x: nat)
    requires Enabled(c, DoResumeRestore(x)) && (c.restores[x].remaining == [] || !c.On(c.restores[x].epoch))
    ensures ResumeRestore(c, x) == c.(restores := c.restores - {x})
  {
  }

  lemma RestoreSkips(c: Client, x: nat)
    requires Enabled(c, DoResumeRestore(x)) && c.restores[x].remaining != [] && c.On(c.restores[x].epoch)
    requires c.restores[x].remaining[0] !in c.l.channels
    ensures var k := c.restores[x];
      ResumeRestore(c, x) == c.(restores := c.restores[x := k.(remaining := k.remaining[1..])])
  {
  }

  lemma RestoreAlike(c: Client, x: nat, ch: string, r: nat)
    requires Enabled(c, DoResumeRestore(x))
    ensures Alike(c, ResumeRestore(c, x), ch, r)
  {
    var k := c.restores[x];
    if k.remaining == [] || !c.On(k.epoch) { RestoreStops(c, x); }
    else if k.remaining[0] !in c.l.channels { RestoreSkips(c, x); }
    else {
      RestoreTakes(c, x, k.remaining[0]);
      StartAlike(c, k.remaining[0], c.l.channels[k.remaining[0]], 0, Some(x), ch, r);
    }
  }

  /** A reply is harmless to ch unless it is a definitive refusal that finds an operation. */
  lemma DeliverAlike(c: Client, ch: string, r: nat)
    requires LinkInv(c.l) && c.l.toClient != [] && !Forgets(c.l.toClient[0], SubOps(c.l.pending, ch), ch)
    requires c.Current(ch, r)
    ensures Alike(c, Deliver(c), ch, r)
  {
    DeliverLink(c);
    ReceiveHas(c.l, ch);
    ReceiveShape(c.l);
  }

  lemma TokenAlike(c: Client, a: nat, ch: string, r: nat)
    requires Enabled(c, Authorized(a))
    ensures Alike(c, TokenArrives(c, a), ch, r)
  {
    TokenArrivesMoves(c, a);
  }

  lemma ResumeAlike(c: Client, t: nat, ch: string, r: nat)
    requires Enabled(c, DoResumeResub(t))
    ensures Alike(c, ResumeResub(c, t), ch, r)
  {
    var k := c.resubs[t];
    var retry := Some(Retry(k.epoch, k.retries + 1));
    ResumedResub(c, t);
  }

  lemma HelpAlike(c: Client, act: Action, ch: string, r: nat)
    requires LinkInv(c.l) && Helps(act) && Enabled(c, act) && c.Current(ch, r)
    requires act.DoDeliver? ==> !Forgets(c.l.toClient[0], SubOps(c.l.pending, ch), ch)
    ensures Alike(c, Step(c, act), ch, r)
  {
    match act
    case DoServe(verdict, lost) =>
    case DoDeliver => DeliverAlike(c, ch, r);
    case TimesOut(op) =>
    case Authorized(a) => TokenAlike(c, a, ch, r);
    case RunFinally(a) =>
    case DoResumeResub(t) => ResumeAlike(c, t, ch, r);
    case DoResumeRestore(x) => RestoreAlike(c, x, ch, r);
    case DoRetryFires(s) => RetryAlike(c, s, ch, r);
  }

  lemma HelpHolds(c: Client, act: Action, ch: string, r: nat)
    requires Holds(c, ch, r) && Helps(act) && Enabled(c, act)
    requires act.DoDeliver? ==> !Forgets(c.l.toClient[0], SubOps(c.l.pending, ch), ch)
    ensures Alike(c, Step(c, act), ch, r) && Holds(Step(c, act), ch, r)
  {
    HelpAlike(c, act, ch, r);
    AlikeHolds(c, act, ch, r);
  }

  // ----- attempts in the way ------------------------------------------------------------------------

  function Rank(st: AttemptState): nat {
    match st
    case Authorizing(_) => 3
    case Waiting(_) => 2
    case Settled(_) => 1
    case Done(_) => 0
  }

  /** The step that brings an attempt closer to its end. */
  function Advance(a: nat, st: AttemptState): Action
    requires !st.Done?
  {
    match st
    case Authorizing(_) => Authorized(a)
    case Waiting(op) => TimesOut(op)
    case Settled(_) => RunFinally(a)
  }

  /** c' is c with attempt a closer to its end. */
  ghost predicate Advanced(c: Client, c': Client, a: nat)
    requires a in c.attempts
  {
    && a in c'.attempts && c'.attempts[a] == c.attempts[a].(st := c'.attempts[a].st)
    && Rank(c'.attempts[a].st) < Rank(c.attempts[a].st)
    && c'.resubs == c.resubs && c'.restores == c.restores
    && (forall r :: r in c.l.recs ==> Cleared(c.l.recs[r], c'.l.recs, r))
  }

  /** The record may have lost its attempt, not its timer. */
  ghost predicate Cleared(rec: Record, recs: map<nat, Record>, r: nat) {
    r in recs && recs[r] in {rec, rec.(inflight := None)}
  }

  lemma TokenAdvances(c: Client, a: nat)
    requires Enabled(c, Authorized(a))
    ensures Advanced(c, TokenArrives(c, a), a)
  {
    TokenArrivesMoves(c, a);
  }

  lemma TimeoutAdvances(c: Client, a: nat, op: nat)
    requires Enabled(c, TimesOut(op)) && a in c.attempts && c.attempts[a].st == Waiting(op)
    ensures Advanced(c, Step(c, TimesOut(op)), a)
  {
  }

  lemma FinallyAdvances(c: Client, a: nat)
    requires Enabled(c, RunFinally(a))
    ensures Advanced(c, Finally(c, a), a)
  {
    FinallyLink(c, a);
  }

  lemma Advances(c: Client, a: nat, ch: string, r: nat)
    requires Holds(c, ch, r) && a in c.attempts && !c.attempts[a].st.Done?
    ensures var act := Advance(a, c.attempts[a].st);
      Helps(act) && Enabled(c, act) && Advanced(c, Step(c, act), a) && Holds(Step(c, act), ch, r)
        && Step(c, act).epoch == c.epoch && Step(c, act).handles == c.handles
  {
    assert AttemptOk(c, a);
    match c.attempts[a].st {
      case Authorizing(_) => TokenAdvances(c, a);
      case Waiting(op) => TimeoutAdvances(c, a, op);
      case Settled(_) => FinallyAdvances(c, a);
    }
    HelpHolds(c, Advance(a, c.attempts[a].st), ch, r);
  }

  // ----- the last steps -----------------------------------------------------------------------------

  /** The subscribe is alone on the wire: the server acks it. */
  lemma SentRecovers(c: Client, ch: string, r: nat, id: nat)
    requires LinkInv(c.l) && c.Current(ch, r) && c.l.toClient == [] && c.l.toServer == [Frame(id, Sub, ch)]
    ensures Recovers(c, ch, r)
  {
    var c1 := Step(c, DoServe(Acked, false));
    assert c1.l.toClient == [Reply(id, Sub, ch, Acked)];
    ServeKeeps(c.l, Acked, false);
    AckRecovers(c1, ch, r);
    RecoversFirst(c, DoServe(Acked, false), ch, r);
  }

  lemma AckRecovers(c: Client, ch: string, r: nat)
    requires LinkInv(c.l) && c.Current(ch, r) && c.l.toClient != [] && IsAck(c.l.toClient[0], ch, -1)
    ensures Recovers(c, ch, r)
  {
    DeliverLink(c);
    ReceiveShape(c.l);
    ReceiveAnswers(c.l, ch);
    RecoversNow(Deliver(c), ch, r);
    RecoversFirst(c, DoDeliver, ch, r);
  }

  lemma AskedRecovers(c: Client, ch: string, r: nat, a: nat)
    requires Holds(c, ch, r) && c.l.toClient == [] && c.l.toServer == []
    requires a in c.attempts && c.attempts[a].st.Authorizing?
    requires c.attempts[a].channel == ch && c.On(c.attempts[a].epoch)
    ensures Recovers(c, ch, r)
  {
    var c1 := TokenArrives(c, a);
    assert c1.l.toServer == [Frame(c.l.nextFrame, Sub, ch)];
    HelpHolds(c, Authorized(a), ch, r);
    SentRecovers(c1, ch, r, c.l.nextFrame);
    RecoversFirst(c, Authorized(a), ch, r);
  }

  /** On an otherwise empty wire, attempt a waits for its token or its frame has just been sent. */
  ghost predicate Begun(c: Client, ch: string, a: nat, id: nat) {
    && c.l.toClient == [] && a in c.attempts && c.attempts[a].channel == ch && c.attempts[a].epoch == c.epoch
    && if NeedsToken(ch) then c.attempts[a].st.Authorizing? && c.l.toServer == []
       else c.l.toServer == [Frame(id, Sub, ch)]
  }

  ghost predicate Timer(c: Client, ch: string, r: nat) {
    Holds(c, ch, r) && Armed(c, r) && c.l.recs[r].inflight.None?
  }

  lemma BegunRecovers(c: Client, ch: string, r: nat, a: nat, id: nat)
    requires Holds(c, ch, r) && Begun(c, ch, a, id)
    ensures Recovers(c, ch, r)
  {
    if NeedsToken(ch) { AskedRecovers(c, ch, r, a); } else { SentRecovers(c, ch, r, id); }
  }

  /** A retry timer that finds no attempt in flight starts one. */
  lemma FiresFresh(c: Client, ch: string, r: nat)
    requires Timer(c, ch, r) && !IsConfirmed(c, r) && c.l.toClient == [] && c.l.toServer == []
    ensures Begun(RetryFires(c, r), ch, c.next + 1, c.l.nextFrame)
  {
    assert NameOk(c, ch);
    StartResubAdds(c, ch, r, c.l.recs[r].retry.value.retries, None);
  }

  lemma FireRecovers(c: Client, ch: string, r: nat)
    requires Timer(c, ch, r) && !IsConfirmed(c, r) && c.l.toClient == [] && c.l.toServer == []
    ensures Recovers(c, ch, r)
  {
    FiresFresh(c, ch, r);
    FireHolds(c, ch, r);
    BegunRecovers(RetryFires(c, r), ch, r, c.next + 1, c.l.nextFrame);
    RecoversFirst(c, DoRetryFires(r), ch, r);
  }

  lemma FireHolds(c: Client, ch: string, r: nat)
    requires Timer(c, ch, r)
    ensures Holds(RetryFires(c, r), ch, r) && RetryFires(c, r).handles == c.handles
  {
    HelpHolds(c, DoRetryFires(r), ch, r);
  }

  // ----- clearing the wire --------------------------------------------------------------------------

  /** What the frames under way may still cost when each is acked. */
  function Load(toServer: seq<Frame>): nat {
    if toServer == [] then 0 else (if toServer[0].kind == Sub then 5 else 2) + Load(toServer[1..])
  }

  lemma {:induction false} LoadAdds(toServer: seq<Frame>, f: Frame)
    ensures Load(toServer + [f]) == Load(toServer) + (if f.kind == Sub then 5 else 2)
  {
    if toServer != [] {
      LoadAdds(toServer[1..], f);
      assert (toServer + [f])[1..] == toServer[1..] + [f];
    }
  }

  lemma {:induction false} CostGrows(toClient: seq<Reply>, r: Reply)
    ensures Cost(toClient + [r]) <= Cost(toClient) + (if r.kind == Sub then 3 else 1)
  {
    if toClient != [] {
      CostGrows(toClient[1..], r);
      assert (toClient + [r])[1..] == toClient[1..] + [r];
    }
  }

  function Work(l: Link): nat { Load(l.toServer) + Cost(l.toClient) }

  lemma ServeWorks(l: Link)
    requires l.toServer != []
    ensures Work(Serve(l, Acked, false)) < Work(l)
  {
    var f := l.toServer[0];
    CostGrows(l.toClient, Reply(f.id, f.kind, f.channel, Acked));
  }

  lemma ReceiveWorks(l: Link)
    requires l.toClient != []
    ensures Work(Receive(l)) < Work(l)
  {
    var undoneLater := ReceiveSplits(l);
    LoadAdds(l.toServer, Frame(l.nextFrame, Unsub, l.toClient[0].channel));
  }

  /** The timer outlives a reply. */
  lemma DeliverTimer(c: Client, ch: string, r: nat)
    requires Timer(c, ch, r) && c.l.toClient != [] && c.l.pending == []
    ensures var c' := Deliver(c);
      Timer(c', ch, r) && c'.l.pending == [] && Work(c'.l) < Work(c.l) && c'.handles == c.handles
  {
    HelpHolds(c, DoDeliver, ch, r);
    DeliverLink(c);
    ReceiveShape(c.l);
    ReceiveWorks(c.l);
    assert NameOk(c, ch);
  }

  lemma ServeTimer(c: Client, ch: string, r: nat)
    requires Timer(c, ch, r) && c.l.toServer != [] && c.l.pending == []
    ensures var c' := Step(c, DoServe(Acked, false));
      Timer(c', ch, r) && c'.l.pending == [] && Work(c'.l) < Work(c.l) && c'.handles == c.handles
  {
    HelpHolds(c, DoServe(Acked, false), ch, r);
    ServeWorks(c.l);
  }

  lemma {:induction false} WireRecovers(c: Client, ch: string, r: nat)
    requires Timer(c, ch, r) && c.l.pending == []
    ensures Recovers(c, ch, r)
    decreases Work(c.l)
  {
    if IsConfirmed(c, r) { RecoversNow(c, ch, r); }
    else if c.l.toClient != [] {
      DeliverTimer(c, ch, r);
      WireRecovers(Deliver(c), ch, r);
      RecoversFirst(c, DoDeliver, ch, r);
    } else if c.l.toServer != [] {
      ServeTimer(c, ch, r);
      WireRecovers(Step(c, DoServe(Acked, false)), ch, r);
      RecoversFirst(c, DoServe(Acked, false), ch, r);
    } else {
      FireRecovers(c, ch, r);
    }
  }

  lemma OldestTimesOut(c: Client, ch: string, r: nat)
    requires Timer(c, ch, r) && c.l.pending != []
    ensures var act := TimesOut(c.l.pending[0].id);
      Enabled(c, act) && Timer(Step(c, act), ch, r) && Step(c, act).l.pending == c.l.pending[1..]
        && Step(c, act).handles == c.handles
  {
    assert c.l.pending[0] in c.l.pending;
    HelpHolds(c, TimesOut(c.l.pending[0].id), ch, r);
  }

  /** Operations still pending time out, so that no refusal under way finds one. */
  lemma {:induction false} TimerRecovers(c: Client, ch: string, r: nat)
    requires Timer(c, ch, r)
    ensures Recovers(c, ch, r)
    decreases |c.l.pending|
  {
    if c.l.pending == [] { WireRecovers(c, ch, r); }
    else {
      var act := TimesOut(c.l.pending[0].id);
      OldestTimesOut(c, ch, r);
      TimerRecovers(Step(c, act), ch, r);
      RecoversFirst(c, act, ch, r);
    }
  }

  // ----- what covers the record ---------------------------------------------------------------------

  function InflightRank(c: Client, r: nat): nat {
    if r in c.l.recs && c.l.recs[r].inflight.Some? && c.l.recs[r].inflight.value in c.attempts
    then Rank(c.attempts[c.l.recs[r].inflight.value].st) else 0
  }

  lemma {:induction false} ArmedRecovers(c: Client, ch: string, r: nat)
    requires Holds(c, ch, r) && Armed(c, r)
    ensures Recovers(c, ch, r)
    decreases InflightRank(c, r)
  {
    if c.l.recs[r].inflight.None? { TimerRecovers(c, ch, r); }
    else {
      assert NameOk(c, ch);
      var a := c.l.recs[r].inflight.value;
      var act := Advance(a, c.attempts[a].st);
      Advances(c, a, ch, r);
      ArmedRecovers(Step(c, act), ch, r);
      RecoversFirst(c, act, ch, r);
    }
  }

  /** A #resubscribe of the record whose attempt is over has confirmed it, or arms the timer. */
  lemma EndedRecovers(c: Client, ch: string, r: nat, t: nat, a: nat)
    requires Holds(c, ch, r) && t in c.resubs && c.resubs[t].rec == r && c.resubs[t].epoch == c.epoch
    requires c.resubs[t].wait == On(a) && a in c.attempts && c.attempts[a].st.Done?
    ensures Recovers(c, ch, r)
  {
    assert ResubOk(c, t) && AttemptOk(c, a) && NameOk(c, ch);
    if IsConfirmed(c, r) { RecoversNow(c, ch, r); }
    else {
      assert RetryDue(c, t);
      HelpHolds(c, DoResumeResub(t), ch, r);
      ArmedRecovers(ResumeResub(c, t), ch, r);
      RecoversFirst(c, DoResumeResub(t), ch, r);
    }
  }

  function WaitRank(c: Client, t: nat): nat {
    if t in c.resubs && c.resubs[t].wait.On? && c.resubs[t].wait.attempt in c.attempts
    then Rank(c.attempts[c.resubs[t].wait.attempt].st) else 0
  }

  lemma {:induction false} ResubRecovers(c: Client, ch: string, r: nat, t: nat)
    requires Holds(c, ch, r) && t in c.resubs && c.resubs[t].rec == r && c.resubs[t].epoch == c.epoch
    ensures Recovers(c, ch, r)
    decreases WaitRank(c, t)
  {
    assert ResubOk(c, t) && NameOk(c, ch);
    match c.resubs[t].wait
    case Now => RecoversNow(c, ch, r);
    case On(a) =>
      if c.attempts[a].st.Done? { EndedRecovers(c, ch, r, t, a); }
      else {
        var act := Advance(a, c.attempts[a].st);
        Advances(c, a, ch, r);
        ResubRecovers(Step(c, act), ch, r, t);
        RecoversFirst(c, act, ch, r);
      }
  }

  /** ch has its place in the list of the #resubscribeAll x. */
  ghost predicate InList(c: Client, ch: string, x: nat) {
    x in c.restores && c.restores[x].epoch == c.epoch && ch in c.restores[x].remaining
  }

  lemma ResumeFrees(c: Client, t: nat, x: nat)
    requires Enabled(c, DoResumeResub(t)) && c.resubs[t].restore == Some(x) && x in c.restores
    ensures ResumeResub(c, t).restores == c.restores[x := c.restores[x].(busy := false)]
  {
    ResumedResub(c, t);
  }

  /** The #resubscribeAll waits for the #resubscribe t of another channel. */
  lemma {:induction false} BusyRecovers(c: Client, ch: string, r: nat, x: nat, t: nat)
    requires Holds(c, ch, r) && InList(c, ch, x) && t in c.resubs && c.resubs[t].restore == Some(x)
    ensures Recovers(c, ch, r)
    decreases |c.restores[x].remaining|, 1, WaitRank(c, t)
  {
    assert ResubOk(c, t);
    var w := c.resubs[t].wait;
    if w.On? && !c.attempts[w.attempt].st.Done? {
      var act := Advance(w.attempt, c.attempts[w.attempt].st);
      Advances(c, w.attempt, ch, r);
      BusyRecovers(Step(c, act), ch, r, x, t);
      RecoversFirst(c, act, ch, r);
    } else {
      HelpHolds(c, DoResumeResub(t), ch, r);
      ResumeFrees(c, t, x);
      ListRecovers(ResumeResub(c, t), ch, r, x);
      RecoversFirst(c, DoResumeResub(t), ch, r);
    }
  }

  lemma {:induction false} ListRecovers(c: Client, ch: string, r: nat, x: nat)
    requires Holds(c, ch, r) && InList(c, ch, x) && !c.restores[x].busy
    ensures Recovers(c, ch, r)
    decreases |c.restores[x].remaining|, 0, 0
  {
    var n := c.restores[x].remaining[0];
    var c' := ResumeRestore(c, x);
    HelpHolds(c, DoResumeRestore(x), ch, r);
    if n !in c.l.channels {
      ListRecovers(c', ch, r, x);
    } else {
      if n == ch { ResubRecovers(c', ch, r, c.next); }
      else { BusyRecovers(c', ch, r, x, c.next); }
    }
    RecoversFirst(c, DoResumeRestore(x), ch, r);
  }

  // ----- in every run -------------------------------------------------------------------------------

  lemma CoveredRecovers(c: Client, ch: string, r: nat)
    requires Holds(c, ch, r)
    ensures Recovers(c, ch, r)
  {
    assert NameOk(c, ch);
    if IsConfirmed(c, r) { RecoversNow(c, ch, r); }
    else if Armed(c, r) { ArmedRecovers(c, ch, r); }
    else if t :| t in c.resubs && c.resubs[t].rec == r && c.resubs[t].epoch == c.epoch { ResubRecovers(c, ch, r, t); }
    else {
      var x :| x in c.restores && c.restores[x].epoch == c.epoch && ch in c.restores[x].remaining;
      assert RestoreOk(c, x);
      if t :| t in c.resubs && c.resubs[t].restore == Some(x) { BusyRecovers(c, ch, r, x, t); }
      else { ListRecovers(c, ch, r, x); }
    }
  }

  /** The handle is live and its channel confirmed. */
  ghost predicate Restored(c: Client, h: nat) { Live(c, h) && IsConfirmed(c, c.handles[h].rec) }

  /** Whatever state a run has reached: while the socket is open, helping steps of this very connection
      can bring a live handle's channel back, unless authorize() has refused its record for good. */
  lemma NeverStuck(run: seq<Client>, acts: seq<Action>, n: nat, h: nat)
    requires IsRun(run, acts) && n < |run|
    requires run[n].phase == Connected && run[n].l.open && Live(run[n], h)
    requires run[n].handles[h].rec !in run[n].abandoned
    ensures exists more, c' ::
      Leads(run[n], more, c') && AllHelp(more) && Restored(c', h)
  {
    RunKeeps(run, acts, n);
    var c, k := run[n], run[n].handles[h];
    assert HandleOk(c, h);
    if k.rec < c.mark { CoveredRecovers(c, k.channel, k.rec); } else { RecoversNow(c, k.channel, k.rec); }
    var more, c' :|
      Leads(c, more, c') && AllHelp(more) && Recovered(c', k.channel, k.rec) && c'.handles == c.handles;
    assert Restored(c', h);
  }
}
