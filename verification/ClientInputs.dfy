/** Inputs on which the client (clients/js/src/index.ts) and the server end up disagreeing about a
    channel: the two ways to an overlapping ack of ClientHeld, and what lies behind the exemptions
    of ClientTasks' theorems. Each starts from any client in a common situation and gives the steps,
    one by one. Where the end is a lost channel the last five steps are the same: the ack, the
    unsubscribe handled and acked, and the newer subscribe turned away for an empty bucket, after which
    neither side has anything to say. */
module ClientInputs {
  import opened Options
  import opened ClientWire
  import opened ClientTasks
  import opened ClientHeld
  import opened ClientLost

  // ----- routes -------------------------------------------------------------------------------------

  lemma LeadsOne(c: Client, a1: Action, c1: Client)
    requires Enabled(c, a1) && c1 == Step(c, a1)
    ensures Leads(c, [a1], c1)
  {
    assert Leads(c1, [], c1);
    LeadsFirst(c, a1, [], c1);
    assert [a1] == [a1] + [];
  }

  lemma LeadsTwo(c: Client, a1: Action, a2: Action, c1: Client, c2: Client)
    requires Enabled(c, a1) && c1 == Step(c, a1) && Enabled(c1, a2) && c2 == Step(c1, a2)
    ensures Leads(c, [a1, a2], c2)
  {
    LeadsOne(c1, a2, c2);
    LeadsFirst(c, a1, [a2], c2);
    assert [a1, a2] == [a1] + [a2];
  }

  ghost predicate LosesBy(c: Client, route: seq<Action>, ch: string) {
    exists c' :: Leads(c, route, c') && Lost(c'.l, ch)
  }

  lemma LosesAfter(c: Client, route: seq<Action>, mid: Client, more: seq<Action>, ch: string)
    requires Leads(c, route, mid) && LosesBy(mid, more, ch)
    ensures LosesBy(c, route + more, ch)
  {
    var c' :| Leads(mid, more, c') && Lost(c'.l, ch);
    LeadsOn(c, route, mid, more, c');
  }

  /** The client takes the ack; the server handles the unsubscribe and turns the newer subscribe away. */
  const LOSE: seq<Action> := [DoDeliver] + [DoServe(Acked, false), DoDeliver]
    + [DoServe(Refused("RATE_LIMITED"), false), DoDeliver]

  /** The ack of an older subscribe is about to confirm the record of a newer one, with an unsubscribe
      between the two. */
  ghost predicate AboutToLose(l: Link, ch: string, a: nat, u: nat, s: nat) {
    && l.open && l.Has(ch) && ch !in l.tainted
    && l.toClient == [Reply(a, Sub, ch, Acked)] && l.toServer == [Frame(u, Unsub, ch)] + [Frame(s, Sub, ch)]
  }

  ghost predicate AckTaken(l: Link, ch: string, toServer: seq<Frame>) {
    l.open && l.Confirmed(ch) && ch !in l.tainted && l.toClient == [] && l.toServer == toServer
  }

  lemma TakesAck(c: Client, ch: string, a: nat, u: nat, s: nat)
    requires AboutToLose(c.l, ch, a, u, s)
    ensures exists c' :: Leads(c, [DoDeliver], c') && AckTaken(c'.l, ch, [Frame(u, Unsub, ch)] + [Frame(s, Sub, ch)])
  {
    DeliverLink(c);
    LeadsOne(c, DoDeliver, Deliver(c));
  }

  ghost predicate Taken(c: Client, c': Client, ch: string, f: Frame, rest: seq<Frame>) {
    AckTaken(c'.l, ch, rest) && (ch in c'.l.held ==> ch in c.l.held && f.kind == Sub)
  }

  /** A frame of a confirmed channel is answered, and nothing changes for the client. */
  lemma AnswersOne(c: Client, ch: string, f: Frame, rest: seq<Frame>)
    requires AckTaken(c.l, ch, [f] + rest) && f.channel == ch
    ensures exists c' :: Leads(c, [DoServe(Busy(f), false), DoDeliver], c') && Taken(c, c', ch, f, rest)
  {
    var c1 := Step(c, DoServe(Busy(f), false));
    assert c1.l.toServer == rest && c1.l.toClient == [Reply(f.id, f.kind, ch, Busy(f))];
    DeliverLink(c1);
    LeadsTwo(c, DoServe(Busy(f), false), DoDeliver, c1, Deliver(c1));
  }

  lemma Loses(c: Client, ch: string, a: nat, u: nat, s: nat)
    requires AboutToLose(c.l, ch, a, u, s)
    ensures LosesBy(c, LOSE, ch)
  {
    var unsub, sub := Frame(u, Unsub, ch), Frame(s, Sub, ch);
    TakesAck(c, ch, a, u, s);
    var c1 :| Leads(c, [DoDeliver], c1) && AckTaken(c1.l, ch, [unsub] + [sub]);
    AnswersOne(c1, ch, unsub, [sub]);
    var c2 :| Leads(c1, [DoServe(Acked, false), DoDeliver], c2) && Taken(c1, c2, ch, unsub, [sub]);
    assert [sub] == [sub] + [];
    AnswersOne(c2, ch, sub, []);
    var c3 :| Leads(c2, [DoServe(Busy(sub), false), DoDeliver], c3) && Taken(c2, c3, ch, sub, []);
    LeadsOn(c, [DoDeliver], c1, [DoServe(Acked, false), DoDeliver], c2);
    LeadsOn(c, [DoDeliver] + [DoServe(Acked, false), DoDeliver], c2, [DoServe(Busy(sub), false), DoDeliver], c3);
  }

  // ----- a subscribe() that gives up ----------------------------------------------------------------

  /** c1 is c in the middle of subscribe(ch) with a handler, its attempt in state st. */
  ghost predicate Trying(c: Client, c1: Client, ch: string, st: AttemptState) {
    var t, r, a := c.next, c.next + 1, c.next + 2;
    && c1.phase == c.phase && c1.epoch == c.epoch && c1.next == c.next + 3
    && c1.l.channels == c.l.channels[ch := r] && c1.l.Has(ch)
    && c1.l.recs[r].handlers == {t} && !c1.l.recs[r].confirmed
    && a in c1.attempts && c1.attempts[a] == Attempt(ch, r, c.epoch, st)
    && t in c1.calls && c1.calls[t] == Call(ch, r, true, c.epoch, 0, On(a))
  }

  /** Its frame is on the wire. */
  ghost predicate Sent(c: Client, l: Link, ch: string) {
    l == c.l.(channels := l.channels, recs := l.recs, pending := l.pending,
              toServer := c.l.toServer + [Frame(c.l.nextFrame, Sub, ch)], nextFrame := c.l.nextFrame + 1)
  }

  lemma SubscribeSends(c: Client, ch: string)
    requires c.l.open && ch !in c.l.channels && !NeedsToken(ch)
    ensures var c1 := Subscribe(c, ch, true);
      Trying(c, c1, ch, Waiting(c.l.nextFrame)) && Sent(c, c1.l, ch)
        && c1.l.pending == c.l.pending + [Op(c.l.nextFrame, Sub, ch)]
  {
    var c0 := Joined(c, ch, true);
    assert StartLink(c0.l, ch, c.next + 1, c0.next).pending == c.l.pending + [Op(c.l.nextFrame, Sub, ch)];
  }

  lemma TimesOutSettles(c: Client, c1: Client, ch: string)
    requires Trying(c, c1, ch, Waiting(c.l.nextFrame)) && Sent(c, c1.l, ch)
      && c1.l.pending == [Op(c.l.nextFrame, Sub, ch)]
    ensures Enabled(c1, TimesOut(c.l.nextFrame))
    ensures var c2 := Step(c1, TimesOut(c.l.nextFrame));
      Trying(c, c2, ch, Settled(Failed)) && Sent(c, c2.l, ch) && c2.l.pending == []
  {
    assert c1.l.pending[0] in c1.l.pending;
  }

  lemma FinallyEnds(c: Client, c2: Client, ch: string)
    requires Trying(c, c2, ch, Settled(Failed)) && Sent(c, c2.l, ch) && c2.l.pending == []
    ensures Enabled(c2, RunFinally(c.next + 2))
    ensures var c3 := Step(c2, RunFinally(c.next + 2));
      Trying(c, c3, ch, Done(Failed)) && Sent(c, c3.l, ch) && c3.l.pending == []
  {
  }

  /** A subscribe() with the next identity and frame times out and fails. */
  function GiveUp(c: Client, ch: string): seq<Action> { GivingUp(c.next, c.l.nextFrame, ch) }

  function GivingUp(t: nat, frame: nat, ch: string): seq<Action> {
    [DoSubscribe(ch, true), TimesOut(frame)] + [RunFinally(t + 2), DoResumeCall(t)]
  }

  /** Connected on an open socket, waiting for no answer, and without a record of this public channel. */
  ghost predicate Quiet(c: Client, ch: string) {
    && c.phase == Connected && c.l.open && ch !in c.l.channels && !NeedsToken(ch) && c.l.pending == []
    && ch !in c.l.tainted
  }

  lemma TimesOutWhileTrying(c: Client, ch: string)
    requires Quiet(c, ch)
    ensures exists c2 :: Leads(c, [DoSubscribe(ch, true), TimesOut(c.l.nextFrame)], c2) && TimedOut(c, c2, ch)
  {
    var c1 := Subscribe(c, ch, true);
    SubscribeSends(c, ch);
    assert c1.l.pending == [Op(c.l.nextFrame, Sub, ch)];
    TimesOutSettles(c, c1, ch);
    LeadsTwo(c, DoSubscribe(ch, true), TimesOut(c.l.nextFrame), c1, Step(c1, TimesOut(c.l.nextFrame)));
  }

  ghost predicate TimedOut(c: Client, c2: Client, ch: string) {
    Trying(c, c2, ch, Settled(Failed)) && Sent(c, c2.l, ch) && c2.l.pending == []
  }

  ghost predicate GaveUp(c: Client, c': Client, ch: string) {
    && c'.phase == c.phase && c'.next == c.next + 3
    && c'.l.channels == c.l.channels && c'.l.pending == [] && Sent(c, c'.l, ch)
  }

  lemma CallForgets(c: Client, c3: Client, ch: string)
    requires Trying(c, c3, ch, Done(Failed)) && Sent(c, c3.l, ch) && c3.l.pending == [] && ch !in c.l.channels
    ensures Enabled(c3, DoResumeCall(c.next))
    ensures var c4 := Step(c3, DoResumeCall(c.next));
      c4.phase == c.phase && c4.next == c.next + 3
        && Sent(c, c4.l, ch) && c4.l.pending == [] && c4.l.channels == c.l.channels
  {
    assert Reached(c3, On(c.next + 2)) == Some(Failed);
    assert c.l.channels[ch := c.next + 1] - {ch} == c.l.channels;
  }

  lemma FailsOnceTimedOut(c: Client, c2: Client, ch: string)
    requires ch !in c.l.channels && TimedOut(c, c2, ch)
    ensures exists c' :: Leads(c2, [RunFinally(c.next + 2), DoResumeCall(c.next)], c') && GaveUp(c, c', ch)
  {
    FinallyEnds(c, c2, ch);
    var c3 := Step(c2, RunFinally(c.next + 2));
    CallForgets(c, c3, ch);
    var c' := Step(c3, DoResumeCall(c.next));
    LeadsTwo(c2, RunFinally(c.next + 2), DoResumeCall(c.next), c3, c');
    assert GaveUp(c, c', ch);
  }

  /** Nothing remembers it but its frame. */
  lemma GivesUp(c: Client, ch: string)
    requires Quiet(c, ch)
    ensures exists c' :: Leads(c, GiveUp(c, ch), c') && GaveUp(c, c', ch)
  {
    TimesOutWhileTrying(c, ch);
    var c2 :| Leads(c, [DoSubscribe(ch, true), TimesOut(c.l.nextFrame)], c2) && TimedOut(c, c2, ch);
    FailsOnceTimedOut(c, c2, ch);
    var c' :| Leads(c2, [RunFinally(c.next + 2), DoResumeCall(c.next)], c') && GaveUp(c, c', ch);
    LeadsOn(c, [DoSubscribe(ch, true), TimesOut(c.l.nextFrame)], c2,
      [RunFinally(c.next + 2), DoResumeCall(c.next)], c');
  }

  // ----- two late acks and an undo ----------------------------------------------------------------------

  /** c' is c after an ack that found neither record nor operation: an undo is on its way. */
  ghost predicate Undone(c: Client, c': Client, ch: string, behind: seq<Frame>) {
    && c'.phase == c.phase
    && c'.l == c.l.(toServer := behind + [Frame(c.l.nextFrame, Unsub, ch)], nextFrame := c.l.nextFrame + 1,
      held := c.l.held + {ch})
  }

  lemma LateAckUndone(c: Client, f: Frame, behind: seq<Frame>)
    requires c.l.open && c.l.pending == [] && c.l.toClient == [] && c.l.toServer == [f] + behind
    requires f.kind == Sub && f.channel !in c.l.channels
    ensures exists c' :: Leads(c, [DoServe(Acked, false), DoDeliver], c') && Undone(c, c', f.channel, behind)
  {
    var c1 := Step(c, DoServe(Acked, false));
    assert c1.l.toServer == behind && c1.l.toClient == [Reply(f.id, Sub, f.channel, Acked)];
    DeliverLink(c1);
    LeadsTwo(c, DoServe(Acked, false), DoDeliver, c1, Deliver(c1));
    assert Undone(c, Deliver(c1), f.channel, behind);
  }

  /** An ack meets the record of a newer subscribe() while an undo is on its way. */
  lemma LateAckMeetsRecord(c: Client, f: Frame, undo: Frame)
    requires Quiet(c, f.channel) && c.l.toClient == [] && c.l.toServer == [f, undo]
    requires f.kind == Sub && undo.kind == Unsub && undo.channel == f.channel
    ensures LosesBy(c, [DoServe(Acked, false), DoSubscribe(f.channel, true)] + LOSE, f.channel)
  {
    var ch := f.channel;
    var c1 := Step(c, DoServe(Acked, false));
    assert c1.l.toServer == [undo] && c1.l.toClient == [Reply(f.id, Sub, ch, Acked)];
    var c' := Subscribe(c1, ch, true);
    LeadsTwo(c, DoServe(Acked, false), DoSubscribe(ch, true), c1, c');
    assert undo == Frame(undo.id, Unsub, ch);
    Loses(c', ch, f.id, undo.id, c1.l.nextFrame);
    LosesAfter(c, [DoServe(Acked, false), DoSubscribe(ch, true)], c', LOSE, ch);
  }

  /** Two subscribes time out ... */
  function LateAcks(c: Client, ch: string): seq<Action> {
    GivingUp(c.next, c.l.nextFrame, ch) + (GivingUp(c.next + 3, c.l.nextFrame + 1, ch) + LateAcked(ch))
  }

  /** ... the server acks the first and the client, without a record, sends an undo; the server acks
      the second; a third subscribe makes a record. */
  function LateAcked(ch: string): seq<Action> {
    [DoServe(Acked, false), DoDeliver] + ([DoServe(Acked, false), DoSubscribe(ch, true)] + LOSE)
  }

  /** So a quiet client can lose any public channel on one connection. */
  lemma LateAcksLose(c: Client, ch: string)
    requires Quiet(c, ch) && c.l.toServer == [] && c.l.toClient == []
    ensures LosesBy(c, LateAcks(c, ch), ch)
  {
    GivesUp(c, ch);
    var g :| Leads(c, GiveUp(c, ch), g) && GaveUp(c, g, ch);
    SecondGivesUp(g, ch, Frame(c.l.nextFrame, Sub, ch));
    LosesAfter(c, GiveUp(c, ch), g, GiveUp(g, ch) + LateAcked(ch), ch);
  }

  lemma SecondGivesUp(c: Client, ch: string, f: Frame)
    requires Quiet(c, ch) && c.l.toServer == [f] && c.l.toClient == [] && f.kind == Sub && f.channel == ch
    ensures LosesBy(c, GiveUp(c, ch) + LateAcked(ch), ch)
  {
    GivesUp(c, ch);
    var g :| Leads(c, GiveUp(c, ch), g) && GaveUp(c, g, ch);
    TwoAcksLose(g, f, Frame(c.l.nextFrame, Sub, ch));
    LosesAfter(c, GiveUp(c, ch), g, LateAcked(ch), ch);
  }

  lemma TwoAcksLose(c: Client, f: Frame, f': Frame)
    requires Quiet(c, f.channel) && c.l.toClient == [] && c.l.toServer == [f] + [f']
    requires f.kind == Sub && f'.kind == Sub && f.channel == f'.channel
    ensures LosesBy(c, LateAcked(f.channel), f.channel)
  {
    LateAckUndone(c, f, [f']);
    var d :| Leads(c, [DoServe(Acked, false), DoDeliver], d) && Undone(c, d, f.channel, [f']);
    LateAckMeetsRecord(d, f', Frame(c.l.nextFrame, Unsub, f.channel));
    LosesAfter(c, [DoServe(Acked, false), DoDeliver], d,
      [DoServe(Acked, false), DoSubscribe(f.channel, true)] + LOSE, f.channel);
  }

  /** A first connection is such a client. */
  lemma FirstConnectionQuiet(ch: string)
    requires !NeedsToken(ch)
    ensures exists c ::
      Leads(START, [DoConnect, DoHello(0, [])], c) && Quiet(c, ch) && c.l.toServer == [] && c.l.toClient == []
  {
    var c := Step(Step(START, DoConnect), DoHello(0, []));
    LeadsTwo(START, DoConnect, DoHello(0, []), Step(START, DoConnect), c);
    assert Quiet(c, ch);
  }

  /** With nothing in flight the server holds a channel the client has no record of. */
  ghost predicate Orphaned(l: Link, ch: string) {
    l.open && ch in l.held && ch in l.tainted && ch !in l.channels && !InFlight(l, ch)
  }

  ghost predicate OrphansBy(c: Client, route: seq<Action>, ch: string) {
    exists c' :: Leads(c, route, c') && Orphaned(c'.l, ch)
  }

  /** A subscribe() times out and the ack the server sends is lost. */
  lemma LostAckOrphans(c: Client, ch: string)
    requires Quiet(c, ch) && c.l.toServer == [] && c.l.toClient == []
    ensures OrphansBy(c, GiveUp(c, ch) + [DoServe(Acked, true)], ch)
  {
    GivesUp(c, ch);
    var g :| Leads(c, GiveUp(c, ch), g) && GaveUp(c, g, ch);
    assert g.l.toServer == [Frame(c.l.nextFrame, Sub, ch)];
    var c' := Step(g, DoServe(Acked, true));
    LeadsOne(g, DoServe(Acked, true), c');
    LeadsOn(c, GiveUp(c, ch), g, [DoServe(Acked, true)], c');
    assert Orphaned(c'.l, ch);
  }

  // ----- a live handle -----------------------------------------------------------------------------------

  /** h is the only handler of its channel's record. */
  ghost predicate Only(c: Client, h: nat, ch: string) {
    Live(c, h) && c.handles[h].channel == ch && c.handles[h].handler && c.l.Has(ch)
    && c.l.recs[c.l.channels[ch]].handlers == {h} && c.l.recs[c.l.channels[ch]].channel == ch
  }

  /** The server refuses that unsubscribe: it goes on sending to a client that has forgotten. */
  lemma RefusedUnsubscribeOrphans(c: Client, h: nat, ch: string, code: string)
    requires Only(c, h, ch) && c.phase == Connected && c.l.open && ch in c.l.held
    requires c.l.toServer == [] && c.l.toClient == []
    ensures OrphansBy(c, [DoUnsubscribe(h), DoServe(Refused(code), false)] + [DoDeliver], ch)
  {
    var c1 := Unsubscribe(c, h);
    assert c1.l.toServer == [Frame(c.l.nextFrame, Unsub, ch)];
    var c2 := Step(c1, DoServe(Refused(code), false));
    assert c2.l.toServer == [] && c2.l.toClient == [Reply(c.l.nextFrame, Unsub, ch, Refused(code))];
    DeliverLink(c2);
    var c' := Deliver(c2);
    assert Orphaned(c'.l, ch);
    LeadsTwo(c, DoUnsubscribe(h), DoServe(Refused(code), false), c1, c2);
    LeadsOne(c2, DoDeliver, c');
    LeadsOn(c, [DoUnsubscribe(h), DoServe(Refused(code), false)], c2, [DoDeliver], c');
  }

  // ----- a reconnect -----------------------------------------------------------------------------------

  /** c' is c, dropped and reconnected, about to restore its channels in this order. */
  ghost predicate Restoring(c: Client, c': Client, h: nat, ch: string, order: seq<string>) {
    && Only(c', h, ch) && c'.phase == Connected && c'.socket.Some? && c'.epoch == c.epoch + 1
    && c'.l.channels == c.l.channels && c'.l.open && Silent(c'.l) && (forall n :: n in c'.l.channels ==> c'.l.Has(n))
    && ResetRecord(c'.l.recs[c.l.channels[ch]]) == c'.l.recs[c.l.channels[ch]]
    && c'.next == c.next + 1 && c'.resubs == c.resubs
      && c'.restores == c.restores[c.next := Restore(c'.epoch, order, false)]
  }

  ghost predicate Silent(l: Link) { l.pending == [] && l.toServer == [] && l.toClient == [] && l.tainted == {} }

  lemma DropResets(c: Client, h: nat, ch: string)
    requires Only(c, h, ch) && NamesResolve(c.l)
    ensures var c1 := Drop(c, true);
      Only(c1, h, ch) && Silent(c1.l) && c1.l.channels == c.l.channels
        && (forall n :: n in c1.l.channels ==> c1.l.Has(n))
      && ResetRecord(c1.l.recs[c.l.channels[ch]]) == c1.l.recs[c.l.channels[ch]]
  {
  }

  function Reconnect(order: seq<string>): seq<Action> { [DoDrop(true)] + [DoDial, DoHello(0, order)] }

  lemma Reconnects(c: Client, h: nat, ch: string, order: seq<string>)
    requires Only(c, h, ch) && c.phase == Connected && c.ever && NamesResolve(c.l)
    requires forall n :: n in order <==> n in c.l.channels
    ensures exists c' :: Leads(c, Reconnect(order), c') && Restoring(c, c', h, ch, order)
  {
    DropResets(c, h, ch);
    var c1 := Drop(c, true);
    var c2 := Step(c1, DoDial);
    var c' := Step(c2, DoHello(0, order));
    assert Restoring(c, c', h, ch, order);
    LeadsTwo(c1, DoDial, DoHello(0, order), c2, c');
    LeadsFirst(c, DoDrop(true), [DoDial, DoHello(0, order)], c');
  }

  /** #resubscribeAll sends the subscribe of a public channel. */
  lemma RestoreSends(c: Client, c1: Client, h: nat, ch: string, order: seq<string>)
    requires Restoring(c, c1, h, ch, order) && order != [] && order[0] == ch && !NeedsToken(ch)
    ensures Enabled(c1, DoResumeRestore(c.next))
    ensures var c' := ResumeRestore(c1, c.next);
      Only(c', h, ch) && c'.phase == Connected && c'.l.open
      && c'.l.toServer == [Frame(c1.l.nextFrame, Sub, ch)] && c'.l.toClient == [] && ch !in c'.l.tainted
  {
    RestoredLink(c1, c.next);
    StartResubShape(c1, ch, c1.l.channels[ch], 0, Some(c.next));
    StartResubAdds(c1, ch, c1.l.channels[ch], 0, Some(c.next));
  }

  /** The resubscribe, an unsubscribe and a new subscribe are all unanswered when the server acks
      the first. */
  function Unanswered(h: nat, ch: string): seq<Action> {
    [DoUnsubscribe(h), DoSubscribe(ch, true)] + ([DoServe(Acked, false)] + LOSE)
  }

  lemma UnansweredLoses(c: Client, h: nat, ch: string, f: Frame)
    requires Only(c, h, ch) && c.phase == Connected && c.l.open && !NeedsToken(ch)
    requires c.l.toServer == [f] && f.kind == Sub && f.channel == ch && c.l.toClient == [] && ch !in c.l.tainted
    ensures LosesBy(c, Unanswered(h, ch), ch)
  {
    var c1 := Unsubscribe(c, h);
    var c2 := Subscribe(c1, ch, true);
    LeadsTwo(c, DoUnsubscribe(h), DoSubscribe(ch, true), c1, c2);
    AckMeetsUnsubscribe(c2, f, c.l.nextFrame, ch);
    LosesAfter(c, [DoUnsubscribe(h), DoSubscribe(ch, true)], c2, [DoServe(Acked, false)] + LOSE, ch);
  }

  lemma AckMeetsUnsubscribe(c: Client, f: Frame, n: nat, ch: string)
    requires c.l.open && c.l.Has(ch) && ch !in c.l.tainted && c.l.toClient == []
    requires c.l.toServer == [f] + [Frame(n, Unsub, ch)] + [Frame(n + 1, Sub, ch)] && f.kind == Sub && f.channel == ch
    ensures LosesBy(c, [DoServe(Acked, false)] + LOSE, ch)
  {
    var serve := DoServe(Acked, false);
    var c' := Step(c, serve);
    assert c'.l.toServer == [Frame(n, Unsub, ch)] + [Frame(n + 1, Sub, ch)];
    assert c'.l.toClient == [Reply(f.id, Sub, ch, Acked)];
    LeadsOne(c, serve, c');
    Loses(c', ch, f.id, n, n + 1);
    LosesAfter(c, [serve], c', LOSE, ch);
  }

  /** So any live public channel with one handler can be lost across a reconnect. */
  lemma ReconnectLoses(c: Client, h: nat, ch: string, order: seq<string>)
    requires Inv(c) && Only(c, h, ch) && c.phase == Connected && !NeedsToken(ch)
    requires (forall n :: n in order <==> n in c.l.channels) && order != [] && order[0] == ch
    ensures LosesBy(c, Reconnect(order) + ([DoResumeRestore(c.next)] + Unanswered(h, ch)), ch)
  {
    Reconnects(c, h, ch, order);
    var c1 :| Leads(c, Reconnect(order), c1) && Restoring(c, c1, h, ch, order);
    RestoreSends(c, c1, h, ch, order);
    var c2 := ResumeRestore(c1, c.next);
    LeadsOne(c1, DoResumeRestore(c.next), c2);
    UnansweredLoses(c2, h, ch, Frame(c1.l.nextFrame, Sub, ch));
    LosesAfter(c1, [DoResumeRestore(c.next)], c2, Unanswered(h, ch), ch);
    LosesAfter(c, Reconnect(order), c1, [DoResumeRestore(c.next)] + Unanswered(h, ch), ch);
  }

  // ----- authorize() refuses for good --------------------------------------------------------------------

  /** c' is the restoring c in the middle of the #resubscribe of a private channel. */
  ghost predicate Asking(c: Client, c': Client, h: nat, ch: string, rest: seq<string>, st: AttemptState)
    requires ch in c.l.channels
  {
    var x, t, a := c.next, c.next + 1, c.next + 2; var r := c.l.channels[ch];
    && Only(c', h, ch) && c'.phase == Connected && c'.l.open && c'.epoch == c.epoch + 1 && c'.l.channels[ch] == r
    && !c'.l.recs[r].confirmed && c'.l.recs[r].retry.None?
    && c'.restores == c.restores[x := Restore(c'.epoch, rest, true)]
    && c'.resubs == c.resubs[t := Resub(ch, r, c'.epoch, 0, On(a), Some(x))]
    && a in c'.attempts && c'.attempts[a] == Attempt(ch, r, c'.epoch, st)
  }

  lemma RestoreAsks(c: Client, c1: Client, h: nat, ch: string, order: seq<string>)
    requires ch in c.l.channels && Restoring(c, c1, h, ch, order) && order != [] && order[0] == ch && NeedsToken(ch)
    ensures Enabled(c1, DoResumeRestore(c.next))
    ensures Asking(c, ResumeRestore(c1, c.next), h, ch, order[1..], Authorizing(c1.socket.value))
  {
    var r := c.l.channels[ch];
    StartAsks(c1, ch, r, Some(c.next));
    RestoreTakes(c1, c.next, ch);
  }

  lemma StartAsks(c: Client, ch: string, r: nat, restore: Option<nat>)
    requires r in c.l.recs && !c.l.recs[r].confirmed && c.l.recs[r].inflight.None? && NeedsToken(ch) && c.socket.Some?
    ensures var a := c.next + 1;
      StartResub(c, ch, r, 0, restore) ==
        c.(next := c.next + 2, l := c.l.(recs := c.l.recs[r := c.l.recs[r].(inflight := Some(a))]),
           attempts := c.attempts[a := Attempt(ch, r, c.epoch, Authorizing(c.socket.value))],
           resubs := c.resubs[c.next := Resub(ch, r, c.epoch, 0, On(a), restore)])
  {
  }

  lemma RefusalSettles(c: Client, c1: Client, h: nat, ch: string, rest: seq<string>, s: nat, out: Outcome)
    requires ch in c.l.channels && Asking(c, c1, h, ch, rest, Authorizing(s)) && !out.Ok?
    ensures Enabled(c1, AuthorizeFails(c.next + 2, out))
    ensures Asking(c, TokenRefused(c1, c.next + 2, out), h, ch, rest, Settled(out))
  {
  }

  lemma RefusalEnds(c: Client, c1: Client, h: nat, ch: string, rest: seq<string>, out: Outcome)
    requires ch in c.l.channels && Asking(c, c1, h, ch, rest, Settled(out))
    ensures Enabled(c1, RunFinally(c.next + 2))
    ensures Asking(c, Finally(c1, c.next + 2), h, ch, rest, Done(out))
  {
  }

  /** The handle is live, and nothing under way will bring its channel back. */
  ghost predicate GivenUp(c: Client, h: nat, ch: string) {
    && Live(c, h) && c.handles[h].channel == ch && c.phase == Connected && c.l.open
    && var r := c.handles[h].rec; !IsConfirmed(c, r) && !Resubscribing(c, r) && !Armed(c, r) && !Listed(c, ch)
  }

  lemma RefusedGivesUp(c: Client, c1: Client, h: nat, ch: string, rest: seq<string>, out: Outcome)
    requires ch in c.l.channels && Asking(c, c1, h, ch, rest, Done(out)) && !Transient(out)
    requires ch !in rest && c.restores == map[] && c.resubs == map[]
    ensures Enabled(c1, DoResumeResub(c.next + 1))
    ensures GivenUp(ResumeResub(c1, c.next + 1), h, ch)
  {
    assert Reached(c1, On(c.next + 2)) == Some(out);
  }

  ghost predicate GivesUpBy(c: Client, route: seq<Action>, h: nat, ch: string) {
    exists c' :: Leads(c, route, c') && GivenUp(c', h, ch)
  }

  lemma GivesUpAfter(c: Client, route: seq<Action>, mid: Client, more: seq<Action>, h: nat, ch: string)
    requires Leads(c, route, mid) && GivesUpBy(mid, more, h, ch)
    ensures GivesUpBy(c, route + more, h, ch)
  {
    var c' :| Leads(mid, more, c') && GivenUp(c', h, ch);
    LeadsOn(c, route, mid, more, c');
  }

  lemma RefusedResubEnds(c: Client, c1: Client, h: nat, ch: string, rest: seq<string>, out: Outcome)
    requires ch in c.l.channels && Asking(c, c1, h, ch, rest, Settled(out)) && !Transient(out)
    requires ch !in rest && c.restores == map[] && c.resubs == map[]
    ensures GivesUpBy(c1, [RunFinally(c.next + 2), DoResumeResub(c.next + 1)], h, ch)
  {
    RefusalEnds(c, c1, h, ch, rest, out);
    var c2 := Finally(c1, c.next + 2);
    RefusedGivesUp(c, c2, h, ch, rest, out);
    LeadsTwo(c1, RunFinally(c.next + 2), DoResumeResub(c.next + 1), c2, ResumeResub(c2, c.next + 1));
  }

  lemma RestoreRefused(c: Client, c1: Client, h: nat, ch: string, order: seq<string>, out: Outcome)
    requires ch in c.l.channels && Restoring(c, c1, h, ch, order) && order != [] && order[0] == ch && NeedsToken(ch)
      && !out.Ok?
    ensures exists c3 ::
      Leads(c1, [DoResumeRestore(c.next), AuthorizeFails(c.next + 2, out)], c3)
        && Asking(c, c3, h, ch, order[1..], Settled(out))
  {
    var a := c.next + 2;
    RestoreAsks(c, c1, h, ch, order);
    var c2 := ResumeRestore(c1, c.next);
    RefusalSettles(c, c2, h, ch, order[1..], c1.socket.value, out);
    LeadsTwo(c1, DoResumeRestore(c.next), AuthorizeFails(a, out), c2, TokenRefused(c2, a, out));
  }

  /** The restore reaches the channel, authorize() throws, and every continuation runs. */
  function Refusing(t: nat, out: Outcome): seq<Action> {
    [DoResumeRestore(t), AuthorizeFails(t + 2, out)] + [RunFinally(t + 2), DoResumeResub(t + 1)]
  }

  /** After a reconnect authorize() throws a definitive refusal, or a ConnectionClosedError of its
      own: the live handle stays without its channel. */
  lemma RefusedAuthorizeLoses(c: Client, h: nat, ch: string, order: seq<string>, out: Outcome)
    requires Inv(c) && Only(c, h, ch) && c.phase == Connected && NeedsToken(ch) && c.restores == map[]
      && c.resubs == map[]
    requires (forall n :: n in order <==> n in c.l.channels) && order != [] && order[0] == ch && ch !in order[1..]
    requires !out.Ok? && !Transient(out)
    ensures GivesUpBy(c, Reconnect(order) + Refusing(c.next, out), h, ch)
  {
    Reconnects(c, h, ch, order);
    var c1 :| Leads(c, Reconnect(order), c1) && Restoring(c, c1, h, ch, order);
    RestoreEnds(c, c1, h, ch, order, out);
    GivesUpAfter(c, Reconnect(order), c1, Refusing(c.next, out), h, ch);
  }

  lemma RestoreEnds(c: Client, c1: Client, h: nat, ch: string, order: seq<string>, out: Outcome)
    requires ch in c.l.channels && Restoring(c, c1, h, ch, order) && order != [] && order[0] == ch && NeedsToken(ch)
    requires ch !in order[1..] && c.restores == map[] && c.resubs == map[] && !out.Ok? && !Transient(out)
    ensures GivesUpBy(c1, Refusing(c.next, out), h, ch)
  {
    RestoreRefused(c, c1, h, ch, order, out);
    var restore := [DoResumeRestore(c.next), AuthorizeFails(c.next + 2, out)];
    var c3 :| Leads(c1, restore, c3) && Asking(c, c3, h, ch, order[1..], Settled(out));
    RefusedResubEnds(c, c3, h, ch, order[1..], out);
    GivesUpAfter(c1, restore, c3, [RunFinally(c.next + 2), DoResumeResub(c.next + 1)], h, ch);
  }
}
