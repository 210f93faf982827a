/** When a confirmed record means that the server holds the channel (clients/js/src/index.ts). It
    does except through one step: an ack confirms a record although an unsubscribe of the same
    channel, the user's or an undo, has yet to reach the server or has only now been told to the
    client. A run keeps confirmed held exactly as long as it takes no such step. */
module ClientHeld {
  import opened Options
  import opened ClientWire
  import opened ClientTasks

  // ----- what the wire says about a channel -------------------------------------------------------

  /** An `unsubscribed` reply with no `subscribed` ack of the channel behind it. */
  ghost predicate LastWord(toClient: seq<Reply>, ch: string, u: Reply) {
    u in toClient && u.kind == Unsub && u.channel == ch && !AckAfter(toClient, ch, u.id)
  }

  ghost predicate ToldGone(toClient: seq<Reply>, ch: string) { exists u :: LastWord(toClient, ch, u) }

  /** An ack on its way to the client is true, or contradicted by the reply after it. */
  ghost predicate AckTold(l: Link, ch: string) {
    ch !in l.tainted && AckAfter(l.toClient, ch, -1) ==> ch in l.held || ToldGone(l.toClient, ch)
  }

  /** A confirmed channel is held and nothing under way will end that. */
  ghost predicate Grounded(l: Link, ch: string) {
    l.Confirmed(ch) && ch !in l.tainted ==> ch in l.held && !UnsubOnWire(l.toServer, ch)
  }

  /** The reply the client takes next will confirm its record of ch. */
  ghost predicate Confirms(l: Link, ch: string) {
    l.toClient != [] && IsAck(l.toClient[0], ch, -1) && l.Has(ch)
  }

  /** ... while an unsubscribe of ch is still on its way to the server, or the last word on its way
      to the client. */
  ghost predicate Overlap(l: Link, ch: string) {
    Confirms(l, ch) && ch !in l.tainted && (UnsubOnWire(l.toServer, ch) || ToldGone(l.toClient, ch))
  }

  // ----- one reply, one frame ---------------------------------------------------------------------

  /** l' is l with more or fewer records confirmed and perhaps one undo sent; nothing else moved. */
  ghost predicate Answered(l: Link, l': Link, ch: string) {
    && l'.toClient == l.toClient && l'.held == l.held && l'.tainted == l.tainted && l'.open == l.open
    && (UnsubOnWire(l.toServer, ch) ==> UnsubOnWire(l'.toServer, ch))
    && (l.Has(ch) && UnsubOnWire(l'.toServer, ch) ==> UnsubOnWire(l.toServer, ch))
  }

  lemma AckAnswers(l: Link, kind: Kind, ch: string, undoneLater: bool, n: string)
    requires NamesResolve(l)
    ensures var l' := AckEffect(l, kind, ch, undoneLater);
      Answered(l, l', n) && (l'.Confirmed(n) <==> l.Confirmed(n) || (l.Has(n) && kind == Sub && n == ch))
  {
    if kind == Sub && ch !in l.channels && !undoneLater { UndoAnswers(l, ch, n); }
    else if kind == Sub && l.Has(ch) { ConfirmOnly(l, ch, n); }
  }

  lemma UndoAnswers(l: Link, ch: string, n: string)
    requires ch !in l.channels
    ensures Answered(l, SendUndo(l, ch), n)
  {
    if l.open {
      var f := Frame(l.nextFrame, Unsub, ch);
      assert forall g :: g in SendUndo(l, ch).toServer <==> g in l.toServer || g == f;
    }
  }

  lemma ConfirmOnly(l: Link, ch: string, n: string)
    requires NamesResolve(l) && l.Has(ch)
    ensures SetConfirmed(l, ch).Confirmed(n) <==> l.Confirmed(n) || n == ch
  {
    if l.Has(n) { assert l.recs[l.channels[n]].channel == n; }
  }

  lemma RefusalAnswers(l: Link, ch: string, refusal: Option<string>, n: string)
    requires NamesResolve(l) && l.Has(ch) && !l.Confirmed(ch)
    ensures var l' := Forget(l, ch, refusal); Answered(l, l', n) && (l'.Confirmed(n) <==> l.Confirmed(n))
  {
    if l.Has(n) { assert l.recs[l.channels[n]].channel == n; }
  }

  /** Taking a reply confirms a channel only if the reply is an ack of it that finds a record, and
      leaves a channel that has a record without new unsubscribes. */
  lemma ReceiveAnswers(l: Link, ch: string)
    requires l.toClient != [] && NamesResolve(l)
    ensures Answered(l.(toClient := l.toClient[1..]), Receive(l), ch)
    ensures Receive(l).Confirmed(ch) <==> l.Confirmed(ch) || Confirms(l, ch)
  {
    var r := l.toClient[0];
    var l1 := Dequeue(l);
    var undoneLater := ReceiveSplits(l);
    if r.verdict.Acked? { AckAnswers(l1, r.kind, r.channel, undoneLater, ch); }
    else if Receive(l) != l1 { RefusalAnswers(l1, r.channel, Some(r.verdict.code), ch); }
  }

  lemma ServeTold(l: Link, verdict: Verdict, lost: bool, ch: string)
    requires Ordered(l) && l.toServer != [] && AckTold(l, ch)
    ensures AckTold(Serve(l, verdict, lost), ch)
  {
    var f := l.toServer[0];
    var l' := Serve(l, verdict, lost);
    var reply := Reply(f.id, f.kind, f.channel, verdict);
    assert f in l.toServer;
    if ch !in l'.tainted && ch !in l'.held && AckAfter(l'.toClient, ch, -1) {
      if f.channel == ch && f.kind == Unsub {
        assert LastWord(l'.toClient, ch, reply);
      } else {
        var r :| r in l'.toClient && IsAck(r, ch, -1);
        assert r in l.toClient;
        var u :| LastWord(l.toClient, ch, u);
        assert LastWord(l'.toClient, ch, u);
      }
    }
  }

  lemma ReceiveTold(l: Link, ch: string)
    requires Ordered(l) && NamesResolve(l) && l.toClient != [] && AckTold(l, ch)
    ensures AckTold(Receive(l), ch)
  {
    var tail := l.toClient[1..];
    HeadFacts(l);
    ReceiveAnswers(l, ch);
    if AckAfter(tail, ch, -1) {
      var r :| r in tail && IsAck(r, ch, -1);
      assert r in l.toClient && IsAck(r, ch, -1);
      if u :| LastWord(l.toClient, ch, u) {
        assert u == l.toClient[0] ==> IsAck(r, ch, u.id);
        assert LastWord(tail, ch, u);
      }
    }
  }

  lemma ServeGrounded(l: Link, verdict: Verdict, lost: bool, ch: string)
    requires l.toServer != [] && Grounded(l, ch)
    ensures Grounded(Serve(l, verdict, lost), ch)
  {
    var l' := Serve(l, verdict, lost);
    assert l.toServer[0] in l.toServer;
    if UnsubOnWire(l'.toServer, ch) {
      var f :| f in l'.toServer && f.kind == Unsub && f.channel == ch;
      assert f in l.toServer;
    }
  }

  /** Any reply but an overlapping ack. */
  lemma ReceiveGrounded(l: Link, ch: string)
    requires NamesResolve(l) && l.toClient != [] && Grounded(l, ch) && AckTold(l, ch)
    requires !Overlap(l, ch)
    ensures Grounded(Receive(l), ch)
  {
    ReceiveAnswers(l, ch);
    if Confirms(l, ch) { assert l.toClient[0] in l.toClient; }
  }

  // ----- every other step of the client -------------------------------------------------------------

  /** l' confirms nothing l did not on the same open socket, and sends no unsubscribe for what is
      confirmed. */
  ghost predicate Plain(l: Link, l': Link, ch: string) {
    && l'.toClient == l.toClient && l'.held == l.held && l'.tainted == l.tainted
    && (l'.Confirmed(ch) ==> l.Confirmed(ch) && (UnsubOnWire(l'.toServer, ch) ==> UnsubOnWire(l.toServer, ch)))
    && (l'.Confirmed(ch) && l'.open ==> l.open)
  }

  lemma PlainSettles(l: Link, l': Link, ch: string)
    requires Plain(l, l', ch) && AckTold(l, ch) && Grounded(l, ch)
    ensures AckTold(l', ch) && Grounded(l', ch)
  {
  }

  lemma PushSubPlain(l: Link, n: string, ch: string)
    ensures Plain(l, PushOp(l, Sub, n), ch)
  {
    assert forall g :: g in PushOp(l, Sub, n).toServer <==> g in l.toServer || g == Frame(l.nextFrame, Sub, n);
  }

  lemma RecordPlain(l: Link, r: nat, rec: Record, ch: string)
    requires r in l.recs && rec.confirmed == l.recs[r].confirmed
    ensures Plain(l, l.(recs := l.recs[r := rec]), ch)
  {
  }

  lemma PlainTrans(l: Link, l': Link, l'': Link, ch: string)
    requires Plain(l, l', ch) && Plain(l', l'', ch)
    ensures Plain(l, l'', ch)
  {
  }

  lemma StartPlain(l: Link, n: string, r: nat, a: nat, ch: string)
    requires r in l.recs
    ensures Plain(l, StartLink(l, n, r, a), ch)
  {
    var l1 := l.(recs := l.recs[r := l.recs[r].(inflight := Some(a))]);
    RecordPlain(l, r, l.recs[r].(inflight := Some(a)), ch);
    PushSubPlain(l1, n, ch);
    PlainTrans(l, l1, PushOp(l1, Sub, n), ch);
  }

  lemma EnsurePlain(c: Client, n: string, r: nat, ch: string)
    requires r in c.l.recs
    ensures Plain(c.l, EnsureSubscribed(c, n, r).0.l, ch)
  {
    StartPlain(c.l, n, r, c.next, ch);
  }

  lemma JoinedPlain(c: Client, n: string, handler: bool, ch: string)
    requires c.l.Has(n) || n !in c.l.channels
    requires forall r :: r in c.l.recs ==> r < c.next
    ensures Plain(c.l, Joined(c, n, handler).l, ch)
  {
  }

  lemma SubscribePlain(c: Client, n: string, handler: bool, ch: string)
    requires c.l.Has(n) || n !in c.l.channels
    requires forall r :: r in c.l.recs ==> r < c.next
    ensures Plain(c.l, Subscribe(c, n, handler).l, ch)
  {
    var c1 := Joined(c, n, handler);
    JoinedPlain(c, n, handler, ch);
    EnsurePlain(c1, n, c1.l.channels[n], ch);
  }

  lemma ForgetPlain(l: Link, n: string, ch: string)
    requires l.Has(n)
    ensures Plain(l, Forget(l, n, None), ch) && !Forget(l, n, None).Confirmed(n)
  {
  }

  lemma ReleasePlain(l: Link, n: string, connected: bool, ch: string)
    requires l.Has(n)
    ensures Plain(l, Release(l, n, connected), ch)
  {
    var l1 := Forget(l, n, None);
    ForgetPlain(l, n, ch);
    if connected && l.open {
      assert forall g :: g in PushOp(l1, Unsub, n).toServer <==> g in l1.toServer || g == Frame(l1.nextFrame, Unsub, n);
      PlainTrans(l, l1, PushOp(l1, Unsub, n), ch);
    }
  }

  lemma DropHandlerPlain(c: Client, r: nat, handler: bool, t: nat, ch: string)
    requires r in c.l.recs
    ensures Plain(c.l, DropHandler(c, r, handler, t).l, ch)
  {
    RecordPlain(c.l, r, c.l.recs[r].(handlers := c.l.recs[r].handlers - {t}), ch);
  }

  lemma UnsubscribePlain(c: Client, h: nat, ch: string)
    requires h in c.handles && c.handles[h].rec in c.l.recs
    ensures Plain(c.l, Unsubscribe(c, h).l, ch)
  {
    var k := c.handles[h];
    var c1 := c.(handles := c.handles[h := k.(active := false)]);
    if k.active && c.Current(k.channel, k.rec) {
      var l2 := DropHandler(c1, k.rec, k.handler, h).l;
      DropHandlerPlain(c1, k.rec, k.handler, h, ch);
      ReleasePlain(l2, k.channel, c.phase == Connected, ch);
      PlainTrans(c.l, l2, Release(l2, k.channel, c.phase == Connected), ch);
    }
  }

  lemma FailPlain(c: Client, t: nat, ch: string)
    requires t in c.calls && c.calls[t].rec in c.l.recs
    ensures Plain(c.l, FailCall(c, t).l, ch)
  {
    var k := c.calls[t];
    var l1 := DropHandler(c.(calls := c.calls - {t}), k.rec, k.handler, t).l;
    DropHandlerPlain(c.(calls := c.calls - {t}), k.rec, k.handler, t, ch);
    if c.Current(k.channel, k.rec) {
      ForgetPlain(l1, k.channel, ch);
      PlainTrans(c.l, l1, Forget(l1, k.channel, None), ch);
    }
  }

  lemma AdoptPlain(c: Client, t: nat, ch: string)
    requires t in c.calls && c.calls[t].rec in c.l.recs
    ensures Plain(c.l, Adopt(c, t).l, ch)
  {
    EnsurePlain(c, c.calls[t].channel, c.calls[t].rec, ch);
  }

  lemma CallPlain(c: Client, t: nat, ch: string)
    requires Enabled(c, DoResumeCall(t))
    ensures Plain(c.l, ResumeCall(c, t).l, ch)
  {
    AdoptPlain(c, t, ch);
    FailPlain(c, t, ch);
  }

  lemma ResubPlain(c: Client, n: string, r: nat, retries: nat, restore: Option<nat>, ch: string)
    requires r in c.l.recs
    ensures Plain(c.l, StartResub(c, n, r, retries, restore).l, ch)
  {
    EnsurePlain(c.(next := c.next + 1), n, r, ch);
    StartResubAdds(c, n, r, retries, restore);
  }

  lemma ArmPlain(c: Client, r: nat, retry: Option<Retry>, ch: string)
    requires r in c.l.recs
    ensures Plain(c.l, ArmRetry(c, r, retry).l, ch)
  {
    RecordPlain(c.l, r, c.l.recs[r].(retry := retry), ch);
  }

  lemma FinishedLink(c: Client, t: nat)
    requires Enabled(c, DoResumeResub(t))
    ensures var k := c.resubs[t];
      ResumeResub(c, t).l in {c.l, ArmRetry(c, k.rec, Some(Retry(k.epoch, k.retries + 1))).l}
  {
  }

  lemma ResumeResubPlain(c: Client, t: nat, ch: string)
    requires Enabled(c, DoResumeResub(t))
    ensures Plain(c.l, ResumeResub(c, t).l, ch)
  {
    var k := c.resubs[t];
    FinishedLink(c, t);
    ArmPlain(c, k.rec, Some(Retry(k.epoch, k.retries + 1)), ch);
  }

  lemma RestoredLink(c: Client, x: nat)
    requires Enabled(c, DoResumeRestore(x))
    ensures var k := c.restores[x];
      ResumeRestore(c, x).l == if k.remaining == [] || !c.On(k.epoch) || k.remaining[0] !in c.l.channels then c.l
        else StartResub(c, k.remaining[0], c.l.channels[k.remaining[0]], 0, Some(x)).l
  {
  }

  lemma RestorePlain(c: Client, x: nat, ch: string)
    requires Enabled(c, DoResumeRestore(x))
    ensures Plain(c.l, ResumeRestore(c, x).l, ch)
  {
    var k := c.restores[x];
    RestoredLink(c, x);
    if k.remaining != [] && k.remaining[0] in c.l.channels {
      assert c.l.Has(k.remaining[0]);
      ResubPlain(c, k.remaining[0], c.l.channels[k.remaining[0]], 0, Some(x), ch);
    }
  }

  lemma RetryPlain(c: Client, r: nat, ch: string)
    requires Enabled(c, DoRetryFires(r))
    ensures Plain(c.l, RetryFires(c, r).l, ch)
  {
    var n, retries := c.l.recs[r].channel, c.l.recs[r].retry.value.retries;
    if c.On(c.l.recs[r].retry.value.epoch) && c.Current(n, r) {
      StartResubShape(c, n, r, retries, None);
      ResubPlain(c, n, r, retries, None, ch);
      DisarmPlain(c, StartResub(c, n, r, retries, None), r, ch);
    } else {
      ArmPlain(c, r, None, ch);
    }
  }

  lemma DisarmPlain(c: Client, c1: Client, r: nat, ch: string)
    requires r in c1.l.recs && Plain(c.l, c1.l, ch)
    ensures Plain(c.l, ArmRetry(c1, r, None).l, ch)
  {
    ArmPlain(c1, r, None, ch);
    PlainTrans(c.l, c1.l, ArmRetry(c1, r, None).l, ch);
  }

  lemma TokenPlain(c: Client, a: nat, ch: string)
    requires Enabled(c, Authorized(a))
    ensures Plain(c.l, TokenArrives(c, a).l, ch)
  {
    PushSubPlain(c.l, c.attempts[a].channel, ch);
  }

  lemma FinallyLink(c: Client, a: nat)
    requires Enabled(c, RunFinally(a))
    ensures var n := c.attempts[a].channel;
      || Finally(c, a).l == c.l
      || (c.l.Has(n) && Finally(c, a).l
        == c.l.(recs := c.l.recs[c.l.channels[n] := c.l.recs[c.l.channels[n]].(inflight := None)]))
  {
  }

  lemma FinallyPlain(c: Client, a: nat, ch: string)
    requires Enabled(c, RunFinally(a))
    ensures Plain(c.l, Finally(c, a).l, ch)
  {
    var n := c.attempts[a].channel;
    FinallyLink(c, a);
    if c.l.Has(n) { RecordPlain(c.l, c.l.channels[n], c.l.recs[c.l.channels[n]].(inflight := None), ch); }
  }

  lemma HelloPlain(c: Client, sid: nat, order: seq<string>, ch: string)
    requires NameOk(c, ch) && c.phase != Connected
    ensures Plain(c.l, Hello(c, sid, order).l, ch)
  {
  }

  /** Where the connection ends nothing is confirmed and nothing is under way. */
  lemma EndGrounded(c: Client, act: Action, ch: string)
    requires Enabled(c, act) && act in {DoDrop(true), DoDrop(false), DoClose}
    ensures var l' := Step(c, act).l; AckTold(l', ch) && Grounded(l', ch) && !l'.open
  {
  }

  lemma StepPlain(c: Client, act: Action, ch: string)
    requires Inv(c) && Enabled(c, act) && !act.DoServe? && !act.DoDeliver? && !act.DoDrop? && !act.DoClose?
    ensures Plain(c.l, Step(c, act).l, ch)
  {
    match act
    case DoHello(sid, order) => HelloPlain(c, sid, order, ch);
    case DoSubscribe(n, handler) => SubscribePlain(c, n, handler, ch);
    case DoUnsubscribe(h) => UnsubscribePlain(c, h, ch);
    case Authorized(a) => TokenPlain(c, a, ch);
    case DoResumeCall(t) => CallPlain(c, t, ch);
    case DoResumeResub(t) => ResumeResubPlain(c, t, ch);
    case DoResumeRestore(x) => RestorePlain(c, x, ch);
    case RunFinally(a) => FinallyPlain(c, a, ch);
    case DoRetryFires(r) => RetryPlain(c, r, ch);
    case _ =>
  }

  lemma DeliverGrounded(c: Client, ch: string)
    requires LinkInv(c.l) && c.l.toClient != [] && AckTold(c.l, ch) && Grounded(c.l, ch)
    requires !Overlap(c.l, ch)
    ensures AckTold(Deliver(c).l, ch) && Grounded(Deliver(c).l, ch)
  {
    DeliverLink(c);
    ReceiveTold(c.l, ch);
    ReceiveGrounded(c.l, ch);
  }

  lemma StepGrounded(c: Client, act: Action, ch: string)
    requires Inv(c) && Enabled(c, act) && AckTold(c.l, ch) && Grounded(c.l, ch)
    requires act.DoDeliver? ==> !Overlap(c.l, ch)
    ensures AckTold(Step(c, act).l, ch) && Grounded(Step(c, act).l, ch)
  {
    match act
    case DoServe(verdict, lost) =>
      ServeTold(c.l, verdict, lost, ch);
      ServeGrounded(c.l, verdict, lost, ch);
    case DoDeliver => DeliverGrounded(c, ch);
    case DoDrop(canRetry) => EndGrounded(c, act, ch);
    case DoClose => EndGrounded(c, act, ch);
    case _ => PlainGrounded(c, act, ch);
  }

  lemma PlainGrounded(c: Client, act: Action, ch: string)
    requires Inv(c) && Enabled(c, act) && !act.DoServe? && !act.DoDeliver? && !act.DoDrop? && !act.DoClose?
    requires AckTold(c.l, ch) && Grounded(c.l, ch)
    ensures AckTold(Step(c, act).l, ch) && Grounded(Step(c, act).l, ch)
  {
    StepPlain(c, act, ch);
    PlainSettles(c.l, Step(c, act).l, ch);
  }

  lemma ServeTaints(l: Link, verdict: Verdict, lost: bool, ch: string)
    requires l.toServer != [] && ch !in l.tainted && ch in Serve(l, verdict, lost).tainted
    ensures l.toServer[0].channel == ch && (lost || (l.toServer[0].kind == Unsub && verdict.Refused?))
  {
  }

  lemma EndTaints(c: Client, act: Action)
    requires Enabled(c, act) && (act.DoDrop? || act.DoClose?)
    ensures Step(c, act).l.tainted == {}
  {
    match act
    case DoDrop(canRetry) => if canRetry { DropMeans(c); } else { LastDropMeans(c); }
    case DoClose => CloseMeans(c);
  }

  lemma DeliverTaints(c: Client)
    requires NamesResolve(c.l) && c.l.toClient != []
    ensures Deliver(c).l.tainted == c.l.tainted
  {
    DeliverLink(c);
    ReceiveAnswers(c.l, "");
  }

  /** What the exemption of a tainted channel is: on this connection the server refused an unsubscribe of it,
      or a reply about it was lost. */
  lemma TaintedBecause(c: Client, act: Action, ch: string)
    requires Inv(c) && Enabled(c, act) && ch !in c.l.tainted && ch in Step(c, act).l.tainted
    ensures act.DoServe? && c.l.toServer[0].channel == ch
    ensures act.lost || (c.l.toServer[0].kind == Unsub && act.verdict.Refused?)
  {
    if act.DoServe? { ServeTaints(c.l, act.verdict, act.lost, ch); }
    else if act.DoDeliver? { DeliverTaints(c); }
    else if act.DoDrop? || act.DoClose? { EndTaints(c, act); }
    else { StepPlain(c, act, ch); }
  }

  /** Confirmed, but the server has let go or is about to. */
  ghost predicate Doomed(l: Link, ch: string) {
    l.Confirmed(ch) && ch !in l.tainted && (ch !in l.held || UnsubOnWire(l.toServer, ch))
  }

  lemma OverlapDooms(l: Link, ch: string)
    requires LinkInv(l) && Overlap(l, ch)
    ensures Doomed(Receive(l), ch)
  {
    ReceiveAnswers(l, ch);
    if u :| LastWord(l.toClient, ch, u) { assert Truthful(l, u); }
  }

  lemma OverlapBreaks(c: Client, ch: string)
    requires LinkInv(c.l) && Overlap(c.l, ch)
    ensures !Grounded(Deliver(c).l, ch)
  {
    DeliverLink(c);
    OverlapDooms(c.l, ch);
  }

  /** The guard of the one branch that fails: a step takes a channel from grounded to not grounded
      if and only if it takes an overlapping ack. */
  lemma BreaksIffOverlap(c: Client, act: Action, ch: string)
    requires Inv(c) && Enabled(c, act) && AckTold(c.l, ch) && Grounded(c.l, ch)
    ensures Grounded(Step(c, act).l, ch) <==> !(act.DoDeliver? && Overlap(c.l, ch))
  {
    if act.DoDeliver? && Overlap(c.l, ch) { OverlapBreaks(c, ch); } else { StepGrounded(c, act, ch); }
  }

  // ----- whole runs -----------------------------------------------------------------------------------

  /** In no state of the run before n is an overlapping ack of ch the reply taken. */
  ghost predicate NoOverlap(run: seq<Client>, acts: seq<Action>, n: nat, ch: string)
    requires |acts| < |run| && n <= |acts|
  {
    forall i :: 0 <= i < n && acts[i].DoDeliver? ==> !Overlap(run[i].l, ch)
  }

  lemma GroundedNext(run: seq<Client>, acts: seq<Action>, n: nat, ch: string)
    requires IsRun(run, acts) && 0 < n < |run| && NoOverlap(run, acts, n, ch)
    requires AckTold(run[n - 1].l, ch) && Grounded(run[n - 1].l, ch)
    ensures AckTold(run[n].l, ch) && Grounded(run[n].l, ch)
  {
    RunKeeps(run, acts, n - 1);
    StepGrounded(run[n - 1], acts[n - 1], ch);
  }

  lemma {:induction false} GroundedRun(run: seq<Client>, acts: seq<Action>, n: nat, ch: string)
    requires IsRun(run, acts) && n < |run| && NoOverlap(run, acts, n, ch)
    ensures forall i :: 0 <= i <= n ==> AckTold(run[i].l, ch) && Grounded(run[i].l, ch)
  {
    if n > 0 {
      GroundedRun(run, acts, n - 1, ch);
      GroundedNext(run, acts, n, ch);
    }
  }

  /** A confirmed channel is one the server holds, in every run that takes no overlapping ack of it. */
  lemma ConfirmedIsHeld(run: seq<Client>, acts: seq<Action>, n: nat, ch: string)
    requires IsRun(run, acts) && n < |run| && NoOverlap(run, acts, n, ch)
    requires run[n].l.Confirmed(ch) && ch !in run[n].l.tainted
    ensures ch in run[n].l.held && !UnsubOnWire(run[n].l.toServer, ch)
  {
    GroundedRun(run, acts, n, ch);
  }

  /** And in no other: confirmed channels stay grounded up to the n-th state of a run if and only if
      none of the steps before it takes an overlapping ack. */
  lemma {:induction false} GroundedIffNoOverlap(run: seq<Client>, acts: seq<Action>, n: nat, ch: string)
    requires IsRun(run, acts) && n < |run|
    ensures (forall i :: 0 <= i <= n ==> Grounded(run[i].l, ch)) <==> NoOverlap(run, acts, n, ch)
  {
    if NoOverlap(run, acts, n, ch) { GroundedRun(run, acts, n, ch); }
    else if n > 0 {
      GroundedIffNoOverlap(run, acts, n - 1, ch);
      if NoOverlap(run, acts, n - 1, ch) { OverlapEnds(run, acts, n, ch); }
    }
  }

  lemma OverlapEnds(run: seq<Client>, acts: seq<Action>, n: nat, ch: string)
    requires IsRun(run, acts) && 0 < n < |run| && NoOverlap(run, acts, n - 1, ch) && !NoOverlap(run, acts, n, ch)
    ensures !Grounded(run[n].l, ch)
  {
    RunKeeps(run, acts, n - 1);
    GroundedRun(run, acts, n - 1, ch);
    BreaksIffOverlap(run[n - 1], acts[n - 1], ch);
  }

  /** With NoOrphan, client and server then agree on every channel about which nothing is in flight. */
  lemma QuietMeansAgreed(run: seq<Client>, acts: seq<Action>, n: nat, ch: string)
    requires IsRun(run, acts) && n < |run| && NoOverlap(run, acts, n, ch)
    requires run[n].l.open && !InFlight(run[n].l, ch) && ch !in run[n].l.tainted
    ensures ch in run[n].l.held <==> run[n].l.Confirmed(ch)
  {
    NoOrphanSubscription(run, acts, n, ch);
    GroundedRun(run, acts, n, ch);
  }
}
