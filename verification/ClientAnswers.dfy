/** What the server's answer to a subscribe comes to for the caller (internal/conn/handler.go and
    clients/js/src/index.ts): an ack ends in a live handle on a confirmed, held channel; and of the
    refusals exactly those for an empty bucket are worth retrying, so that a resubscribe they hit is
    tried again. */
module ClientAnswers {
  import opened Options
  import opened ClientWire
  import opened ClientTasks
  import opened ClientInputs
  import Registry
  import Handler

  // ----- the two ends of the protocol ---------------------------------------------------------------

  /** Client and server agree on the channels that take a token. */
  lemma TokenChannels(ch: string)
    ensures NeedsToken(ch) <==> Handler.RequiresAuth(Registry.Name(ch))
  {
  }

  /** Whatever a subscribe is refused for, the client takes the refusal for a passing one if and only if
      a bucket was empty: the name was fit and open, and a bucket did not admit the frame. */
  lemma TransientIffBucketEmpty(control: Handler.Gate, token: Handler.TokenCheck, reply: Handler.Reply,
      name: Registry.Name, id: nat, subs: Registry.Entries, subs': Registry.Entries, flat: Registry.Entries,
      flat': Registry.Entries, on: map<Registry.Name, set<nat>>, on': map<Registry.Name, set<nat>>)
    requires Handler.Answered(Handler.Before(name, subs.Keys, control, token), reply, name, id, subs, subs', flat,
                              flat', on, on')
    requires !reply.Ack?
    ensures Transient(Rejected(Handler.Code(reply))) <==> Handler.OpenName(name.text) && !control.Admitted?
  {
    Handler.BeforeMeans(name, subs.Keys, control, token);
    if reply.RateLimitedConn? || reply.RateLimited? { PassingCodes(reply); } else { LastingCodes(reply); }
  }

  lemma PassingCodes(reply: Handler.Reply)
    requires reply.RateLimitedConn? || reply.RateLimited?
    ensures !IsDefinitive(Handler.Code(reply))
  {
    var code := Handler.Code(reply);
    assert code[0] == 'R' && code[1] == 'A' && "LIMIT_"[0] == 'L' && "RESERVED_CHANNEL"[1] == 'E';
    assert "AUTH_FAILED"[0] == 'A' && "AUTH_REPLAYED"[0] == 'A' && "BAD_CHANNEL"[0] == 'B';
    assert "SUBSCRIBE_FAILED"[0] == 'S';
  }

  lemma LastingCodes(reply: Handler.Reply)
    requires !reply.Ack? && !reply.NotSubscribed? && !reply.RateLimitedConn? && !reply.RateLimited?
    ensures IsDefinitive(Handler.Code(reply))
  {
    assert "LIMIT_" <= "LIMIT_CHANNELS" && "LIMIT_" <= "LIMIT_SUBSCRIBERS";
  }

  /** A code the server does not have is a passing one, unless it is some limit's. */
  lemma UnknownCodes(code: string)
    requires forall r: Handler.Reply :: !r.Ack? ==> Handler.Code(r) != code
    ensures IsDefinitive(code) <==> |code| >= 6 && code[..6] == "LIMIT_"
  {
    assert Handler.Code(Handler.AuthFailed) != code && Handler.Code(Handler.AuthReplayed) != code;
    assert Handler.Code(Handler.ReservedChannel) != code && Handler.Code(Handler.BadChannel) != code;
    assert Handler.Code(Handler.SubscribeFailed) != code;
  }

  // ----- an ack -------------------------------------------------------------------------------------

  /** Connected on an open socket with nothing under way and no record of ch. */
  ghost predicate Ready(c: Client, ch: string) {
    && c.phase == Connected && c.l.open && c.socket.Some? && ch !in c.l.channels
    && c.l.pending == [] && c.l.toServer == [] && c.l.toClient == []
  }

  /** c' is c in the middle of subscribe(ch), its attempt in state st. */
  ghost predicate Subscribing(c: Client, c': Client, ch: string, handler: bool, st: AttemptState) {
    var t, r, a := c.next, c.next + 1, c.next + 2;
    && c'.phase == c.phase && c'.epoch == c.epoch && c'.l.open
    && ch in c'.l.channels && c'.l.channels[ch] == r && r in c'.l.recs
    && c'.l.recs[r].channel == ch && c'.l.recs[r].handlers == (if handler then {t} else {})
    && a in c'.attempts && c'.attempts[a] == Attempt(ch, r, c.epoch, st)
    && t in c'.calls && c'.calls[t] == Call(ch, r, handler, c.epoch, 0, On(a))
  }

  /** Its operation is pending and its frame alone on the wire. */
  ghost predicate FrameSent(l: Link, ch: string, id: nat) {
    l.pending == [Op(id, Sub, ch)] && l.toServer == [Frame(id, Sub, ch)] && l.toClient == []
  }

  /** The server holds the channel and the client has it confirmed. */
  ghost predicate Agreed(l: Link, ch: string) { ch in l.held && l.Confirmed(ch) }

  lemma Begins(c: Client, ch: string, handler: bool)
    requires Ready(c, ch)
    ensures var c' := Subscribe(c, ch, handler);
      if NeedsToken(ch) then
        Subscribing(c, c', ch, handler, Authorizing(c.socket.value))
          && c'.l.pending == [] && c'.l.toServer == [] && c'.l.toClient == [] && c'.l.nextFrame == c.l.nextFrame
      else Subscribing(c, c', ch, handler, Waiting(c.l.nextFrame)) && FrameSent(c'.l, ch, c.l.nextFrame)
  {
  }

  lemma TokenSends(c: Client, c1: Client, ch: string, handler: bool, s: nat)
    requires c.phase == Connected && Subscribing(c, c1, ch, handler, Authorizing(s))
    requires c1.l.pending == [] && c1.l.toServer == [] && c1.l.toClient == []
    ensures Enabled(c1, Authorized(c.next + 2))
    ensures var c' := TokenArrives(c1, c.next + 2);
      Subscribing(c, c', ch, handler, Waiting(c1.l.nextFrame)) && FrameSent(c'.l, ch, c1.l.nextFrame)
  {
    TokenArrivesMoves(c1, c.next + 2);
  }

  /** The steps from the frame on the wire to the handle. */
  function Acks(t: nat): seq<Action> { ACK + Noticed(t) }

  const ACK: seq<Action> := [DoServe(Acked, false), DoDeliver]

  function Noticed(t: nat): seq<Action> { [RunFinally(t + 2), DoResumeCall(t)] }

  ghost predicate Answered(c: Client, c': Client, ch: string, handler: bool, st: AttemptState) {
    Subscribing(c, c', ch, handler, st) && Agreed(c'.l, ch)
  }

  lemma AckSettles(c: Client, c1: Client, ch: string, handler: bool, id: nat)
    requires Subscribing(c, c1, ch, handler, Waiting(id)) && FrameSent(c1.l, ch, id)
    ensures exists c' :: Leads(c1, ACK, c') && Answered(c, c', ch, handler, Settled(Ok))
  {
    var c2 := Step(c1, DoServe(Acked, false));
    assert c2 == c1.(l := Serve(c1.l, Acked, false));
    assert c2.l.toClient == [Reply(id, Sub, ch, Acked)];
    AckDelivered(c, c2, ch, handler, id);
    LeadsTwo(c1, DoServe(Acked, false), DoDeliver, c2, Deliver(c2));
  }

  lemma AckDelivered(c: Client, c2: Client, ch: string, handler: bool, id: nat)
    requires Subscribing(c, c2, ch, handler, Waiting(id)) && ch in c2.l.held
    requires c2.l.pending == [Op(id, Sub, ch)] && c2.l.toClient == [Reply(id, Sub, ch, Acked)]
    ensures Answered(c, Deliver(c2), ch, handler, Settled(Ok))
  {
    assert FirstMatch(c2.l.pending, Sub, ch) == 0;
  }

  /** What the caller of subscribe() is left with. */
  ghost predicate Granted(c: Client, c': Client, ch: string, handler: bool) {
    && Live(c', c.next) && c'.handles[c.next] == Handle(ch, c.next + 1, handler, true) && c.next !in c'.calls
    && c.next + 1 in c'.l.recs && c'.l.recs[c.next + 1].handlers == (if handler then {c.next} else {})
    && Agreed(c'.l, ch)
  }

  lemma FinallyAnswered(c: Client, c1: Client, ch: string, handler: bool)
    requires Answered(c, c1, ch, handler, Settled(Ok))
    ensures Enabled(c1, RunFinally(c.next + 2))
    ensures Answered(c, Finally(c1, c.next + 2), ch, handler, Done(Ok))
  {
  }

  lemma CallGranted(c: Client, c1: Client, ch: string, handler: bool)
    requires Answered(c, c1, ch, handler, Done(Ok))
    ensures Enabled(c1, DoResumeCall(c.next))
    ensures Granted(c, ResumeCall(c1, c.next), ch, handler)
  {
    assert Reached(c1, On(c.next + 2)) == Some(Ok);
    CallReturns(c1, c.next);
  }

  lemma SettledGrants(c: Client, c1: Client, ch: string, handler: bool)
    requires Answered(c, c1, ch, handler, Settled(Ok))
    ensures exists c' :: Leads(c1, Noticed(c.next), c') && Granted(c, c', ch, handler)
  {
    var c2 := Finally(c1, c.next + 2);
    FinallyAnswered(c, c1, ch, handler);
    CallGranted(c, c2, ch, handler);
    LeadsTwo(c1, RunFinally(c.next + 2), DoResumeCall(c.next), c2, ResumeCall(c2, c.next));
  }

  ghost predicate GrantsBy(c: Client, c1: Client, route: seq<Action>, ch: string, handler: bool) {
    exists c' :: Leads(c1, route, c') && Granted(c, c', ch, handler)
  }

  lemma AckGrants(c: Client, c1: Client, ch: string, handler: bool, id: nat)
    requires Subscribing(c, c1, ch, handler, Waiting(id)) && FrameSent(c1.l, ch, id)
    ensures GrantsBy(c, c1, Acks(c.next), ch, handler)
  {
    AckSettles(c, c1, ch, handler, id);
    var c2 :| Leads(c1, ACK, c2) && Answered(c, c2, ch, handler, Settled(Ok));
    SettledGrants(c, c2, ch, handler);
    var c' :| Leads(c2, Noticed(c.next), c') && Granted(c, c', ch, handler);
    LeadsOn(c1, ACK, c2, Noticed(c.next), c');
  }

  /** subscribe() on a public channel, acked: the caller has a live handle, its handler is the record's, the
      record is confirmed and the server holds the channel. */
  lemma SubscribeGrants(c: Client, ch: string, handler: bool)
    requires Ready(c, ch) && !NeedsToken(ch)
    ensures GrantsBy(c, c, [DoSubscribe(ch, handler)] + Acks(c.next), ch, handler)
  {
    Begins(c, ch, handler);
    var c1 := Subscribe(c, ch, handler);
    AckGrants(c, c1, ch, handler, c.l.nextFrame);
    var c' :| Leads(c1, Acks(c.next), c') && Granted(c, c', ch, handler);
    LeadsFirst(c, DoSubscribe(ch, handler), Acks(c.next), c');
  }

  /** And on a channel that takes a token, once authorize() has resolved. */
  lemma AuthorizedGrants(c: Client, ch: string, handler: bool)
    requires Ready(c, ch) && NeedsToken(ch)
    ensures GrantsBy(c, c, [DoSubscribe(ch, handler), Authorized(c.next + 2)] + Acks(c.next), ch, handler)
  {
    Begins(c, ch, handler);
    var c1 := Subscribe(c, ch, handler);
    TokenSends(c, c1, ch, handler, c.socket.value);
    var c2 := TokenArrives(c1, c.next + 2);
    LeadsTwo(c, DoSubscribe(ch, handler), Authorized(c.next + 2), c1, c2);
    AckGrants(c, c2, ch, handler, c1.l.nextFrame);
    var c' :| Leads(c2, Acks(c.next), c') && Granted(c, c', ch, handler);
    LeadsOn(c, [DoSubscribe(ch, handler), Authorized(c.next + 2)], c2, Acks(c.next), c');
  }

  // ----- an unsubscribe -----------------------------------------------------------------------------

  /** The client has no record of the channel, the server does not hold it, and nothing is under way. */
  ghost predicate LetGo(l: Link, ch: string) {
    ch !in l.channels && ch !in l.held && l.toServer == [] && l.toClient == []
  }

  lemma UnsubscribeAcked(c: Client, ch: string, id: nat)
    requires ch !in c.l.channels && c.l.toServer == [Frame(id, Unsub, ch)] && c.l.toClient == []
    ensures exists c' :: Leads(c, ACK, c') && LetGo(c'.l, ch)
  {
    var c1 := Step(c, DoServe(Acked, false));
    assert c1.l.toServer == [] && c1.l.toClient == [Reply(id, Unsub, ch, Acked)];
    DeliverLink(c1);
    LeadsTwo(c, DoServe(Acked, false), DoDeliver, c1, Deliver(c1));
    assert LetGo(Deliver(c1).l, ch);
  }

  /** The last handle's unsubscribe(), acked: neither side has the channel any more. */
  lemma UnsubscribeLetsGo(c: Client, h: nat, ch: string)
    requires Enabled(c, DoUnsubscribe(h)) && Counts(c, h) && OtherHandlers(c, h) == {} && c.handles[h].channel == ch
    requires c.phase == Connected && c.l.open && c.l.toServer == [] && c.l.toClient == []
    ensures exists c' :: Leads(c, [DoUnsubscribe(h)] + ACK, c') && LetGo(c'.l, ch)
  {
    UnsubscribeReleases(c, h);
    var c1 := Unsubscribe(c, h);
    UnsubscribeAcked(c1, ch, c.l.nextFrame);
    var c' :| Leads(c1, ACK, c') && LetGo(c'.l, ch);
    LeadsFirst(c, DoUnsubscribe(h), ACK, c');
  }

  // ----- an empty bucket ----------------------------------------------------------------------------

  /** The #resubscribe t of the record behind live handle h, its attempt a in state st. */
  ghost predicate Retrying(c: Client, h: nat, t: nat, a: nat, st: AttemptState) {
    && c.phase == Connected && Live(c, h)
    && var r, ch := c.handles[h].rec, c.handles[h].channel;
       && r in c.l.recs && t in c.resubs && c.resubs[t].channel == ch && c.resubs[t].rec == r
       && c.resubs[t].epoch == c.epoch && c.resubs[t].wait == On(a)
       && a in c.attempts && c.attempts[a].channel == ch && c.attempts[a].rec == r && c.attempts[a].st == st
  }

  /** The next reply refuses ch with this code and settles that operation. */
  ghost predicate Refuses(l: Link, ch: string, code: string, op: nat) {
    && l.toClient != [] && l.toClient[0].kind == Sub && l.toClient[0].channel == ch
    && l.toClient[0].verdict == Refused(code)
    && var i := FirstMatch(l.pending, Sub, ch); i != -1 && l.pending[i].id == op
  }

  lemma PassingRefusal(c: Client, h: nat, t: nat, a: nat, op: nat, code: string)
    requires Retrying(c, h, t, a, Waiting(op)) && Refuses(c.l, c.handles[h].channel, code, op) && !IsDefinitive(code)
    ensures Retrying(Deliver(c), h, t, a, Settled(Rejected(code)))
  {
  }

  lemma RefusalFinally(c: Client, h: nat, t: nat, a: nat, out: Outcome)
    requires Retrying(c, h, t, a, Settled(out))
    ensures Enabled(c, RunFinally(a)) && Retrying(Finally(c, a), h, t, a, Done(out))
  {
  }

  lemma RefusalArms(c: Client, h: nat, t: nat, a: nat, out: Outcome)
    requires Retrying(c, h, t, a, Done(out)) && Transient(out)
    ensures Enabled(c, DoResumeResub(t))
    ensures Live(ResumeResub(c, t), h) && Armed(ResumeResub(c, t), c.handles[h].rec)
    ensures ResumeResub(c, t).handles == c.handles
  {
    assert Reached(c, On(a)) == Some(out);
    ResumedResub(c, t);
  }

  /** The handle is as it was, and its record's retry timer is armed. */
  ghost predicate Retried(c: Client, c': Client, h: nat) {
    Live(c, h) && Live(c', h) && c'.handles == c.handles && Armed(c', c.handles[h].rec)
  }

  lemma NoticedArms(c: Client, h: nat, t: nat, a: nat, out: Outcome)
    requires Retrying(c, h, t, a, Settled(out)) && Transient(out)
    ensures exists c' :: Leads(c, [RunFinally(a), DoResumeResub(t)], c') && Retried(c, c', h)
  {
    var c1 := Finally(c, a);
    RefusalFinally(c, h, t, a, out);
    RefusalArms(c1, h, t, a, out);
    LeadsTwo(c, RunFinally(a), DoResumeResub(t), c1, ResumeResub(c1, t));
  }

  /** A live record whose resubscribe is refused because a bucket was empty stays its channel's, and once
      the client has noticed the refusal its retry timer is armed. */
  lemma EmptyBucketRetries(c: Client, h: nat, t: nat, a: nat, op: nat, reply: Handler.Reply)
    requires reply.RateLimitedConn? || reply.RateLimited?
    requires Retrying(c, h, t, a, Waiting(op)) && Refuses(c.l, c.handles[h].channel, Handler.Code(reply), op)
    ensures exists c' :: Leads(c, [DoDeliver] + [RunFinally(a), DoResumeResub(t)], c') && Retried(c, c', h)
  {
    var out := Rejected(Handler.Code(reply));
    PassingCodes(reply);
    PassingRefusal(c, h, t, a, op, Handler.Code(reply));
    NoticedArms(Deliver(c), h, t, a, out);
    var c' :| Leads(Deliver(c), [RunFinally(a), DoResumeResub(t)], c') && Retried(Deliver(c), c', h);
    LeadsFirst(c, DoDeliver, [RunFinally(a), DoResumeResub(t)], c');
    DeliverLink(c);
  }
}
