/** What an overlapping ack of ClientHeld leads to when from then on client and server only answer what
    is under way (clients/js/src/index.ts): no drop, no user call, no timer. Exactly which clients can
    fall silent that way with a channel confirmed and not held. */
module ClientLost {
  import opened Options
  import opened ClientWire
  import opened ClientTasks
  import opened ClientHeld

  // ----- answering what is under way ----------------------------------------------------------------

  ghost predicate Settling(act: Action) { act.DoServe? || act.DoDeliver? }

  /** acts lead from c to c', and each of them only takes a frame or a reply off the wire. */
  ghost predicate Settles(c: Client, acts: seq<Action>, c': Client) {
    Leads(c, acts, c') && forall act :: act in acts ==> Settling(act)
  }

  lemma SettlesOn(c: Client, acts: seq<Action>, c': Client, more: seq<Action>, c'': Client)
    requires Settles(c, acts, c') && Settles(c', more, c'')
    ensures Settles(c, acts + more, c'')
  {
    LeadsOn(c, acts, c', more, c'');
  }

  lemma SettlesFirst(c: Client, act: Action, acts: seq<Action>, c': Client)
    requires Settling(act) && Enabled(c, act) && Settles(Step(c, act), acts, c')
    ensures Settles(c, [act] + acts, c')
  {
    LeadsFirst(c, act, acts, c');
  }

  lemma SettleKeeps(c: Client, act: Action)
    requires LinkInv(c.l) && Settling(act) && Enabled(c, act)
    ensures LinkInv(Step(c, act).l) && Step(c, act).l.open == c.l.open
  {
    match act
    case DoServe(verdict, lost) => ServeKeeps(c.l, verdict, lost);
    case DoDeliver =>
      DeliverLink(c);
      ReceiveKeeps(c.l);
      ReceiveAnswers(c.l, "");
  }

  lemma {:induction false} SettlesKeeps(c: Client, acts: seq<Action>, c': Client)
    requires LinkInv(c.l) && Settles(c, acts, c')
    ensures LinkInv(c'.l) && c'.l.open == c.l.open
    decreases |acts|
  {
    if acts != [] {
      SettleKeeps(c, acts[0]);
      SettlesKeeps(Step(c, acts[0]), acts[1..], c');
    }
  }

  /** On an open socket the client takes the channel for subscribed, the server does not, and no
      message is left that could tell either of them. */
  ghost predicate Lost(l: Link, ch: string) {
    l.open && l.Confirmed(ch) && ch !in l.tainted && ch !in l.held && l.toServer == [] && l.toClient == []
  }

  ghost predicate CanLose(c: Client, ch: string) {
    exists acts, c' :: Settles(c, acts, c') && Lost(c'.l, ch)
  }

  ghost predicate CanOverlap(c: Client, ch: string) {
    exists acts, c' :: Settles(c, acts, c') && c'.l.open && Overlap(c'.l, ch)
  }

  lemma LoseFirst(c: Client, act: Action, ch: string)
    requires Settling(act) && Enabled(c, act) && CanLose(Step(c, act), ch)
    ensures CanLose(c, ch)
  {
    var acts, c' :| Settles(Step(c, act), acts, c') && Lost(c'.l, ch);
    SettlesFirst(c, act, acts, c');
  }

  lemma OverlapFirst(c: Client, act: Action, ch: string)
    requires Settling(act) && Enabled(c, act) && CanOverlap(Step(c, act), ch)
    ensures CanOverlap(c, ch)
  {
    var acts, c' :| Settles(Step(c, act), acts, c') && c'.l.open && Overlap(c'.l, ch);
    SettlesFirst(c, act, acts, c');
  }

  lemma OverlapNow(c: Client, ch: string)
    requires c.l.open && Overlap(c.l, ch)
    ensures CanOverlap(c, ch)
  {
    assert Settles(c, [], c);
  }

  // ----- after an overlap ---------------------------------------------------------------------------

  /** Answers that the budget the key's connections share allows at any moment. */
  function Busy(f: Frame): Verdict { if f.kind == Sub then Refused("RATE_LIMITED") else Acked }

  lemma ReceiveDooms(l: Link, ch: string)
    requires NamesResolve(l) && l.toClient != [] && Doomed(l, ch)
    ensures Doomed(Receive(l), ch)
  {
    ReceiveAnswers(l, ch);
  }

  /** What the replies under way may still cost: an ack that finds no record sends an undo. */
  function Cost(toClient: seq<Reply>): nat {
    if toClient == [] then 0
    else (if toClient[0].kind == Sub && toClient[0].verdict.Acked? then 3 else 1) + Cost(toClient[1..])
  }

  lemma {:induction false} CostAdds(toClient: seq<Reply>, r: Reply)
    requires r.kind == Unsub || r.verdict.Refused?
    ensures Cost(toClient + [r]) == Cost(toClient) + 1
  {
    if toClient != [] {
      CostAdds(toClient[1..], r);
      assert (toClient + [r])[1..] == toClient[1..] + [r];
    }
  }

  lemma ReceiveCosts(l: Link)
    requires l.toClient != []
    ensures var l' := Receive(l); 2 * |l'.toServer| + Cost(l'.toClient) < 2 * |l.toServer| + Cost(l.toClient)
  {
    var undoneLater := ReceiveSplits(l);
  }

  lemma ServeCosts(l: Link)
    requires l.toServer != []
    ensures var l' := Serve(l, Busy(l.toServer[0]), false);
      2 * |l'.toServer| + Cost(l'.toClient) < 2 * |l.toServer| + Cost(l.toClient)
  {
    var f := l.toServer[0];
    CostAdds(l.toClient, Reply(f.id, f.kind, f.channel, Busy(f)));
  }

  lemma {:induction false} DoomedCanLose(c: Client, ch: string)
    requires LinkInv(c.l) && c.l.open && Doomed(c.l, ch)
    ensures CanLose(c, ch)
    decreases 2 * |c.l.toServer| + Cost(c.l.toClient)
  {
    if c.l.toServer != [] {
      var act := DoServe(Busy(c.l.toServer[0]), false);
      SettleKeeps(c, act);
      ServeCosts(c.l);
      DoomedCanLose(Step(c, act), ch);
      LoseFirst(c, act, ch);
    } else if c.l.toClient != [] {
      SettleKeeps(c, DoDeliver);
      DeliverLink(c);
      ReceiveDooms(c.l, ch);
      ReceiveCosts(c.l);
      DoomedCanLose(Deliver(c), ch);
      LoseFirst(c, DoDeliver, ch);
    } else {
      assert Settles(c, [], c);
    }
  }

  /** Wherever the next reply is an overlapping ack, the answers to what is under way can leave the
      channel lost. */
  lemma OverlapCanLose(c: Client, ch: string)
    requires LinkInv(c.l) && c.l.open && Overlap(c.l, ch)
    ensures CanLose(c, ch)
  {
    SettleKeeps(c, DoDeliver);
    DeliverLink(c);
    OverlapDooms(c.l, ch);
    DoomedCanLose(Deliver(c), ch);
    LoseFirst(c, DoDeliver, ch);
  }

  lemma OverlapLoses(c: Client, ch: string)
    requires LinkInv(c.l) && CanOverlap(c, ch)
    ensures CanLose(c, ch)
  {
    var acts, mid :| Settles(c, acts, mid) && mid.l.open && Overlap(mid.l, ch);
    SettlesKeeps(c, acts, mid);
    OverlapCanLose(mid, ch);
    var more, c' :| Settles(mid, more, c') && Lost(c'.l, ch);
    SettlesOn(c, acts, mid, more, c');
  }

  // ----- what must be under way ---------------------------------------------------------------------

  /** How many subscribes of ch the client waits for. */
  function SubOps(pending: seq<Op>, ch: string): nat {
    if pending == [] then 0 else (if Matches(pending[0], Sub, ch) then 1 else 0) + SubOps(pending[1..], ch)
  }

  /** A definitive refusal that still finds an operation to settle. */
  predicate Forgets(r: Reply, ops: nat, ch: string) {
    r.kind == Sub && r.channel == ch && r.verdict.Refused? && IsDefinitive(r.verdict.code) && ops > 0
  }

  function OpsAfter(r: Reply, ops: nat, ch: string): nat {
    if r.kind == Sub && r.channel == ch && ops > 0 then ops - 1 else ops
  }

  /** No reply in front of the first ack of ch makes the client forget an unconfirmed record. */
  ghost predicate Survives(toClient: seq<Reply>, ops: nat, ch: string) {
    || toClient == []
    || IsAck(toClient[0], ch, -1)
    || (!Forgets(toClient[0], ops, ch) && Survives(toClient[1..], OpsAfter(toClient[0], ops, ch), ch))
  }

  /** A subscribe of ch that is acked or may be, by its place in the order of sending. */
  ghost predicate SubAt(l: Link, ch: string, id: nat) {
    || (exists r :: r in l.toClient && IsAck(r, ch, -1) && r.id == id)
    || Frame(id, Sub, ch) in l.toServer
  }

  /** An unsubscribe of ch on its way to the server, or the last word on its way back. */
  ghost predicate UnsubAt(l: Link, ch: string, id: nat) {
    || (exists u :: LastWord(l.toClient, ch, u) && u.id == id)
    || Frame(id, Unsub, ch) in l.toServer
  }

  /** A record, and under way a subscribe that will find it with an unsubscribe behind. */
  ghost predicate Crossing(l: Link, ch: string) {
    && l.open && l.Has(ch) && ch !in l.tainted
    && Survives(l.toClient, SubOps(l.pending, ch), ch)
    && exists s, u :: s < u && SubAt(l, ch, s) && UnsubAt(l, ch, u)
  }

  lemma ReceiveSame(l: Link)
    requires l.toClient != []
    ensures var l' := Receive(l); l'.open == l.open && l'.tainted == l.tainted && l'.toClient == l.toClient[1..]
  {
    var undoneLater := ReceiveSplits(l);
  }

  lemma {:induction false} SubOpsMatch(pending: seq<Op>, ch: string)
    ensures SubOps(pending, ch) == 0 <==> FirstMatch(pending, Sub, ch) == -1
  {
    if pending != [] { SubOpsMatch(pending[1..], ch); }
  }

  lemma {:induction false} SubOpsRemove(pending: seq<Op>, i: nat, ch: string)
    requires i < |pending|
    ensures SubOps(RemoveAt(pending, i), ch) == SubOps(pending, ch) - (if Matches(pending[i], Sub, ch) then 1 else 0)
  {
    if i == 0 { assert RemoveAt(pending, 0) == pending[1..]; }
    else {
      SubOpsRemove(pending[1..], i - 1, ch);
      assert RemoveAt(pending, i) == [pending[0]] + RemoveAt(pending[1..], i - 1);
    }
  }

  lemma DequeueOps(l: Link, ch: string)
    requires l.toClient != []
    ensures SubOps(Dequeue(l).pending, ch) == OpsAfter(l.toClient[0], SubOps(l.pending, ch), ch)
  {
    var r := l.toClient[0];
    var idx := FirstMatch(l.pending, r.kind, r.channel);
    SubOpsMatch(l.pending, ch);
    if idx != -1 { SubOpsRemove(l.pending, idx, ch); }
  }

  lemma ReceiveOps(l: Link, ch: string)
    requires l.toClient != []
    ensures SubOps(Receive(l).pending, ch) == OpsAfter(l.toClient[0], SubOps(l.pending, ch), ch)
  {
    DequeueOps(l, ch);
    var undoneLater := ReceiveSplits(l);
  }

  lemma AckHas(l: Link, ch: string)
    requires l.toClient != [] && l.toClient[0].verdict.Acked?
    ensures Receive(l).Has(ch) <==> l.Has(ch)
  {
    var undoneLater := ReceiveSplits(l);
  }

  /** A reply leaves the channel its record unless it is a refusal that settles an operation of an
      unconfirmed one. */
  lemma ReceiveHas(l: Link, ch: string)
    requires l.toClient != []
    ensures Receive(l).Has(ch) <==>
      l.Has(ch) && (l.Confirmed(ch) || !Forgets(l.toClient[0], SubOps(l.pending, ch), ch))
  {
    var r := l.toClient[0];
    SubOpsMatch(l.pending, ch);
    if r.verdict.Acked? { AckHas(l, ch); }
  }

  // ----- exactly when -------------------------------------------------------------------------------

  lemma {:induction false} SurvivesPrefix(toClient: seq<Reply>, r: Reply, ops: nat, ch: string)
    requires Survives(toClient + [r], ops, ch)
    ensures Survives(toClient, ops, ch)
  {
    if toClient != [] && !IsAck(toClient[0], ch, -1) {
      assert (toClient + [r])[1..] == toClient[1..] + [r];
      SurvivesPrefix(toClient[1..], r, OpsAfter(toClient[0], ops, ch), ch);
    }
  }

  lemma OverlapCrosses(l: Link, ch: string)
    requires LinkInv(l) && l.open && Overlap(l, ch)
    ensures Crossing(l, ch)
  {
    var r := l.toClient[0];
    HeadFacts(l);
    assert SubAt(l, ch, r.id);
    if u :| LastWord(l.toClient, ch, u) { assert UnsubAt(l, ch, u.id); }
    else {
      var f :| f in l.toServer && f.kind == Unsub && f.channel == ch;
      assert UnsubAt(l, ch, f.id);
    }
  }

  lemma ServeWas(l: Link, verdict: Verdict, lost: bool, ch: string, id: nat)
    requires Ordered(l) && l.toServer != [] && ch !in Serve(l, verdict, lost).tainted
    ensures SubAt(Serve(l, verdict, lost), ch, id) ==> SubAt(l, ch, id)
    ensures UnsubAt(Serve(l, verdict, lost), ch, id) ==> UnsubAt(l, ch, id)
  {
    var l' := Serve(l, verdict, lost);
    var f := l.toServer[0];
    assert f in l.toServer;
    if u :| LastWord(l'.toClient, ch, u) && u.id == id {
      assert forall r :: r in l.toClient ==> lost || r in l'.toClient;
      assert u in l.toClient ==> LastWord(l.toClient, ch, u);
    }
  }

  lemma ServeCrossed(l: Link, verdict: Verdict, lost: bool, ch: string)
    requires Ordered(l) && l.toServer != [] && Crossing(Serve(l, verdict, lost), ch)
    ensures Crossing(l, ch)
  {
    var f := l.toServer[0];
    var l' := Serve(l, verdict, lost);
    if !lost { SurvivesPrefix(l.toClient, Reply(f.id, f.kind, f.channel, verdict), SubOps(l.pending, ch), ch); }
    var s, u :| s < u && SubAt(l', ch, s) && UnsubAt(l', ch, u);
    ServeWas(l, verdict, lost, ch, s);
    ServeWas(l, verdict, lost, ch, u);
  }

  lemma ReceiveSubWas(l: Link, ch: string, id: nat)
    requires l.toClient != [] && l.Has(ch) && SubAt(Receive(l), ch, id)
    ensures SubAt(l, ch, id)
  {
    ReceiveSame(l);
    assert forall r :: r in l.toClient[1..] ==> r in l.toClient;
  }

  lemma ReceiveUnsubWas(l: Link, ch: string, id: nat)
    requires Ordered(l) && l.toClient != [] && l.Has(ch) && UnsubAt(Receive(l), ch, id)
    ensures UnsubAt(l, ch, id)
  {
    ReceiveSame(l);
    HeadFacts(l);
    if u :| LastWord(l.toClient[1..], ch, u) && u.id == id { assert LastWord(l.toClient, ch, u); }
  }

  lemma ReceiveCrossed(l: Link, ch: string)
    requires LinkInv(l) && l.toClient != [] && Grounded(l, ch) && Crossing(Receive(l), ch)
    ensures Crossing(l, ch)
  {
    var l' := Receive(l);
    ReceiveSame(l);
    ReceiveHas(l, ch);
    ReceiveOps(l, ch);
    var s, u :| s < u && SubAt(l', ch, s) && UnsubAt(l', ch, u);
    ReceiveSubWas(l, ch, s);
    ReceiveUnsubWas(l, ch, u);
  }

  /** Crossing(l, ch), or a step to l' that leaves ch grounded and crosses nothing. */
  ghost predicate NoNewCrossing(l: Link, l': Link, ch: string) {
    Crossing(l, ch) || (AckTold(l', ch) && Grounded(l', ch) && !Crossing(l', ch))
  }

  lemma ServeCrossesNothing(l: Link, verdict: Verdict, lost: bool, ch: string)
    requires LinkInv(l) && l.toServer != [] && AckTold(l, ch) && Grounded(l, ch)
    ensures NoNewCrossing(l, Serve(l, verdict, lost), ch)
  {
    ServeTold(l, verdict, lost, ch);
    ServeGrounded(l, verdict, lost, ch);
    if Crossing(Serve(l, verdict, lost), ch) { ServeCrossed(l, verdict, lost, ch); }
  }

  lemma ReceiveCrossesNothing(l: Link, ch: string)
    requires LinkInv(l) && l.toClient != [] && l.open && AckTold(l, ch) && Grounded(l, ch)
    ensures NoNewCrossing(l, Receive(l), ch)
  {
    if Overlap(l, ch) { OverlapCrosses(l, ch); }
    else {
      ReceiveTold(l, ch);
      ReceiveGrounded(l, ch);
      if Crossing(Receive(l), ch) { ReceiveCrossed(l, ch); }
    }
  }

  lemma SettleCrossesNothing(c: Client, act: Action, ch: string)
    requires LinkInv(c.l) && c.l.open && Settling(act) && Enabled(c, act) && AckTold(c.l, ch) && Grounded(c.l, ch)
    ensures NoNewCrossing(c.l, Step(c, act).l, ch)
  {
    match act
    case DoServe(verdict, lost) => ServeCrossesNothing(c.l, verdict, lost, ch);
    case DoDeliver =>
      DeliverLink(c);
      ReceiveCrossesNothing(c.l, ch);
  }

  lemma {:induction false} LossCrosses(c: Client, acts: seq<Action>, c': Client, ch: string)
    requires LinkInv(c.l) && c.l.open && AckTold(c.l, ch) && Grounded(c.l, ch)
    requires Settles(c, acts, c') && Lost(c'.l, ch)
    ensures Crossing(c.l, ch)
    decreases |acts|
  {
    SettleKeeps(c, acts[0]);
    SettleCrossesNothing(c, acts[0], ch);
    if !Crossing(c.l, ch) { LossCrosses(Step(c, acts[0]), acts[1..], c', ch); }
  }

  lemma ReceiveStill(l: Link, ch: string, id: nat)
    requires Ordered(l) && l.toClient != [] && l.Has(ch) && id > l.toClient[0].id
    ensures SubAt(l, ch, id) ==> SubAt(Receive(l), ch, id)
    ensures UnsubAt(l, ch, id) ==> UnsubAt(Receive(l), ch, id)
  {
    ReceiveSame(l);
    HeadFacts(l);
    if v :| LastWord(l.toClient, ch, v) && v.id == id { assert LastWord(l.toClient[1..], ch, v); }
  }

  /** The replies in front of the subscribe leave the crossing as it is. */
  lemma ReceiveStaysCrossed(l: Link, ch: string)
    requires Ordered(l) && l.toClient != [] && Crossing(l, ch) && !IsAck(l.toClient[0], ch, -1)
    ensures Crossing(Receive(l), ch)
  {
    ReceiveSame(l);
    HeadFacts(l);
    ReceiveHas(l, ch);
    ReceiveOps(l, ch);
    var s, u :| s < u && SubAt(l, ch, s) && UnsubAt(l, ch, u);
    ReceiveStill(l, ch, s);
    ReceiveStill(l, ch, u);
  }

  lemma ServeStaysCrossed(l: Link, ch: string)
    requires Ordered(l) && l.toClient == [] && l.toServer != [] && Crossing(l, ch)
    requires l.toServer[0].kind == Unsub || l.toServer[0].channel != ch
    ensures Crossing(Serve(l, Busy(l.toServer[0]), false), ch)
  {
    var l' := Serve(l, Busy(l.toServer[0]), false);
    var s, u :| s < u && SubAt(l, ch, s) && UnsubAt(l, ch, u);
    assert Frame(s, Sub, ch) in l'.toServer && Frame(u, Unsub, ch) in l'.toServer;
    assert l'.toClient[1..] == [];
    assert SubAt(l', ch, s) && UnsubAt(l', ch, u);
  }

  lemma {:induction false} CrossingOverlaps(c: Client, ch: string)
    requires LinkInv(c.l) && Crossing(c.l, ch)
    ensures CanOverlap(c, ch)
    decreases 2 * |c.l.toServer| + Cost(c.l.toClient)
  {
    if c.l.toClient != [] {
      if IsAck(c.l.toClient[0], ch, -1) {  OverlapNow(c, ch); }
      else {
        DeliverLink(c);
        ReceiveKeeps(c.l);
        ReceiveStaysCrossed(c.l, ch);
        ReceiveCosts(c.l);
        CrossingOverlaps(Deliver(c), ch);
        OverlapFirst(c, DoDeliver, ch);
      }
    } else { CrossingServed(c, ch); }
  }

  lemma ServeStep(c: Client, verdict: Verdict)
    requires c.l.toServer != []
    ensures Step(c, DoServe(verdict, false)).l == Serve(c.l, verdict, false)
  {
  }

  lemma {:induction false} CrossingServed(c: Client, ch: string)
    requires LinkInv(c.l) && Crossing(c.l, ch) && c.l.toClient == [] && c.l.toServer != []
    ensures CanOverlap(c, ch)
    decreases 2 * |c.l.toServer| + Cost(c.l.toClient), 0
  {
    var f := c.l.toServer[0];
    if f.kind == Sub && f.channel == ch {
      ServeStep(c, Acked);
      OverlapNow(Step(c, DoServe(Acked, false)), ch);
      OverlapFirst(c, DoServe(Acked, false), ch);
    } else {
      ServeStep(c, Busy(f));
      ServeKeeps(c.l, Busy(f), false);
      ServeStaysCrossed(c.l, ch);
      ServeCosts(c.l);
      CrossingOverlaps(Step(c, DoServe(Busy(f), false)), ch);
      OverlapFirst(c, DoServe(Busy(f), false), ch);
    }
  }

  /** The exact condition, on what the client knows and what is on the wire: from a state where
      confirmed is held, answers alone can leave the channel lost if and only if they can bring an
      overlapping ack, and that is if and only if a subscribe that will find a record is under way with
      an unsubscribe behind it. */
  lemma LostIffCrossing(c: Client, ch: string)
    requires LinkInv(c.l) && AckTold(c.l, ch) && Grounded(c.l, ch)
    ensures CanLose(c, ch) <==> CanOverlap(c, ch)
    ensures CanLose(c, ch) <==> Crossing(c.l, ch)
  {
    if CanLose(c, ch) {
      var acts, c' :| Settles(c, acts, c') && Lost(c'.l, ch);
      SettlesKeeps(c, acts, c');
      LossCrosses(c, acts, c', ch);
      CrossingOverlaps(c, ch);
    }
    if Crossing(c.l, ch) { CrossingOverlaps(c, ch); }
    if CanOverlap(c, ch) { OverlapLoses(c, ch); }
  }

  /** So nothing can be lost while nothing about the channel is under way. */
  lemma QuietCannotLose(c: Client, ch: string)
    requires LinkInv(c.l) && Grounded(c.l, ch) && !InFlight(c.l, ch)
    ensures !CanLose(c, ch)
  {
    assert AckTold(c.l, ch) && !Crossing(c.l, ch);
    LostIffCrossing(c, ch);
  }
}
