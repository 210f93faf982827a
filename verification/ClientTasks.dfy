/** The reconnecting client as a whole (clients/js/src/index.ts): every asynchronous call it
    has under way, one step per promise continuation, timer, socket event, user call or
    server reply, interleaved in any order. */
module ClientTasks {
  import opened Options
  import opened ClientWire

  datatype Phase = Idle | Connecting | Connected | Reconnecting | Closed

  /** How a wire attempt ends. ConnClosed is ConnectionClosedError, Rejected a WirefanError,
      Failed anything else (ack timeout, a throwing authorize()). */
  datatype Outcome = Ok | ConnClosed | Rejected(code: string) | Failed

  datatype AttemptState =
    | Authorizing(socket: nat)  // awaiting authorize({socketId})
    | Waiting(op: nat)          // awaiting the ack of a pending operation
    | Settled(out: Outcome)     // #sendSubscribe has settled, its finally() has not run
    | Done(out: Outcome)        // the shared promise has settled

  datatype Attempt = Attempt(channel: string, rec: nat, epoch: nat, st: AttemptState)

  /** What a caller of #ensureSubscribed awaits. */
  datatype Wait = Now | On(attempt: nat)

  datatype Call = Call(channel: string, rec: nat, handler: bool, epoch: nat, passes: nat, wait: Wait)
  datatype Resub = Resub(channel: string, rec: nat, epoch: nat, retries: nat, wait: Wait, restore: Option<nat>)
  datatype Restore = Restore(epoch: nat, remaining: seq<string>, busy: bool)
  datatype Handle = Handle(channel: string, rec: nat, handler: bool, active: bool)

  /** A subscribe frame that carried a token: the connection it went out on and the socket id
      authorize() was given. */
  datatype TokenSent = TokenSent(ws: nat, socket: nat)

  /** `next` is the next fresh identity; `mark` is its value when the current connection
      opened; `ws` counts dials and `issued` is the socket id each connection was given.
      `abandoned` holds records whose authorize() threw a definitive refusal or
      ConnectionClosedError. A handler is identified by the subscribe() call that passed it. */
  datatype Client = Client(
    l: Link,
    phase: Phase,
    ever: bool,
    epoch: nat,
    dialed: bool,
    ws: nat,
    socket: Option<nat>,
    attempts: map<nat, Attempt>,
    calls: map<nat, Call>,
    resubs: map<nat, Resub>,
    restores: map<nat, Restore>,
    handles: map<nat, Handle>,
    next: nat,
    mark: nat,
    abandoned: set<nat>,
    issued: map<nat, nat>,
    tokens: seq<TokenSent>)
  {
    predicate Current(ch: string, r: nat) { ch in l.channels && l.channels[ch] == r }
    predicate On(e: nat) { phase == Connected && epoch == e }
  }

  predicate NeedsToken(ch: string) { "private-" <= ch || "presence-" <= ch }

  predicate Transient(out: Outcome) {
    out.Failed? || (out.Rejected? && !IsDefinitive(out.code))
  }

  // ----- #sendOp, #sendSubscribe, #ensureSubscribed ------------------------------------------

  /** Where #sendSubscribe is at its first await. */
  function StartState(c: Client, ch: string): AttemptState {
    if NeedsToken(ch) then (if c.socket.None? then Settled(ConnClosed) else Authorizing(c.socket.value))
    else if !c.l.open then Settled(ConnClosed)
    else Waiting(c.l.nextFrame)
  }

  function StartLink(l: Link, ch: string, r: nat, a: nat): Link
    requires r in l.recs
  {
    var l1 := l.(recs := l.recs[r := l.recs[r].(inflight := Some(a))]);
    if NeedsToken(ch) || !l.open then l1 else PushOp(l1, Sub, ch)
  }

  /** A fresh #sendSubscribe, run up to its first await, becomes the record's `inflight`. */
  function StartAttempt(c: Client, ch: string, r: nat): Client
    requires r in c.l.recs
  {
    c.(next := c.next + 1,
       l := StartLink(c.l, ch, r, c.next),
       attempts := c.attempts[c.next := Attempt(ch, r, c.epoch, StartState(c, ch))])
  }

  function EnsureSubscribed(c: Client, ch: string, r: nat): (Client, Wait)
    requires r in c.l.recs
  {
    var rec := c.l.recs[r];
    if rec.confirmed then (c, Now)
    else if rec.inflight.Some? then (c, On(rec.inflight.value))
    else (StartAttempt(c, ch, r), On(c.next))
  }

  /** Promises of the operations `ops` settle with `out`. */
  function Resolve(attempts: map<nat, Attempt>, ops: set<nat>, out: Outcome): map<nat, Attempt> {
    map a | a in attempts ::
      if attempts[a].st.Waiting? && attempts[a].st.op in ops then attempts[a].(st := Settled(out)) else attempts[a]
  }

  // ----- connection lifecycle ------------------------------------------------------------------

  /** `connected` arrives: a new epoch, and after the first one #resubscribeAll. `order` is
      the iteration order of #channels. */
  function Hello(c: Client, sid: nat, order: seq<string>): Client {
    c.(phase := Connected, ever := true, epoch := c.epoch + 1, socket := Some(sid),
       issued := c.issued[c.ws := sid], mark := c.next, l := c.l.(open := true),
       restores := if c.ever then c.restores[c.next := Restore(c.epoch + 1, order, false)] else c.restores,
       next := if c.ever then c.next + 1 else c.next)
  }

  /** Forget everything that belonged to the connection; records survive unconfirmed. */
  function ResetRecord(rec: Record): Record {
    rec.(confirmed := false, inflight := None, retry := None)
  }

  function ResetRecords(l: Link): Link {
    l.(recs := map r | r in l.recs :: if r in l.channels.Values then ResetRecord(l.recs[r]) else l.recs[r])
  }

  /** The socket is gone: nothing is pending or in flight and the server holds nothing. */
  function Cut(l: Link): Link {
    l.(pending := [], open := false, toServer := [], toClient := [], held := {}, tainted := {})
  }

  function PendingIds(pending: seq<Op>): set<nat> { set op | op in pending :: op.id }

  /** Closing for good: every record loses its handlers and timer, every name its record. */
  function ClearRecords(l: Link): Link {
    l.(recs := map r | r in l.recs :: if r in l.channels.Values then l.recs[r].(handlers := {}, retry := None)
      else l.recs[r],
       channels := map[])
  }

  /** The part #onDrop and close() share: #failPending and no socket. */
  function Disconnect(c: Client, phase: Phase, l: Link): Client {
    c.(phase := phase, dialed := false, socket := None, l := Cut(l),
       attempts := Resolve(c.attempts, PendingIds(c.l.pending), ConnClosed))
  }

  /** #onDrop. */
  function Drop(c: Client, canRetry: bool): Client {
    if canRetry then Disconnect(c, Reconnecting, ResetRecords(c.l))
    else Disconnect(c, Closed, ClearRecords(ResetRecords(c.l)))
  }

  /** close(). */
  function Close(c: Client): Client { Disconnect(c, Closed, ClearRecords(c.l)) }

  // ----- operations ------------------------------------------------------------------------------

  /** The record subscribe() works on, found or made, with the call's handler attached. */
  function Joined(c: Client, ch: string, handler: bool): Client
    requires c.l.Has(ch) || ch !in c.l.channels
  {
    var r := if ch in c.l.channels then c.l.channels[ch] else c.next + 1;
    var was := if ch in c.l.channels then c.l.recs[r] else Record(ch, {}, false, None, None, None);
    c.(next := c.next + 2,
       l := c.l.(channels := c.l.channels[ch := r],
                 recs := c.l.recs[r := if handler then was.(handlers := was.handlers + {c.next}) else was]))
  }

  /** subscribe(), up to its first await. */
  function Subscribe(c: Client, ch: string, handler: bool): Client
    requires c.l.Has(ch) || ch !in c.l.channels
  {
    var c1 := Joined(c, ch, handler);
    var r := c1.l.channels[ch];
    if c1.l.recs[r].confirmed then c1.(handles := c1.handles[c.next := Handle(ch, r, handler, true)])
    else
      var (c2, w) := EnsureSubscribed(c1, ch, r);
      c2.(calls := c2.calls[c.next := Call(ch, r, handler, c.epoch, 0, w)])
  }

  /** The outcome a wait has reached, if it has. */
  function Reached(c: Client, w: Wait): Option<Outcome> {
    match w
    case Now => Some(Ok)
    case On(a) => if a in c.attempts && c.attempts[a].st.Done? then Some(c.attempts[a].st.out) else None
  }

  function PutRecord(c: Client, r: nat, rec: Record): Client {
    c.(l := c.l.(recs := c.l.recs[r := rec]))
  }

  function DropHandler(c: Client, r: nat, handler: bool, t: nat): Client
    requires r in c.l.recs
  {
    if handler then PutRecord(c, r, c.l.recs[r].(handlers := c.l.recs[r].handlers - {t})) else c
  }

  /** subscribe() resumes after its await failed and does not adopt a newer attempt. */
  function FailCall(c: Client, t: nat): Client
    requires t in c.calls && c.calls[t].rec in c.l.recs
  {
    var k := c.calls[t];
    var c1 := DropHandler(c.(calls := c.calls - {t}), k.rec, k.handler, t);
    var rec := c1.l.recs[k.rec];
    if c.Current(k.channel, k.rec) && !rec.confirmed && rec.handlers == {}
    then c1.(l := Forget(c1.l, k.channel, None))
    else c1
  }

  /** The state in which subscribe() awaits the attempt of a newer connection. */
  function Adopt(c: Client, t: nat): Client
    requires t in c.calls && c.calls[t].rec in c.l.recs
  {
    var k := c.calls[t];
    var (c1, w) := EnsureSubscribed(c, k.channel, k.rec);
    c1.(calls := c1.calls[t := k.(epoch := c.epoch, passes := k.passes + 1, wait := w)])
  }

  function ResumeCall(c: Client, t: nat): Client
    requires t in c.calls && c.calls[t].rec in c.l.recs && Reached(c, c.calls[t].wait).Some?
  {
    var k := c.calls[t];
    var out := Reached(c, k.wait).value;
    if out.Ok? then c.(calls := c.calls - {t}, handles := c.handles[t := Handle(k.channel, k.rec, k.handler, true)])
    else if out.ConnClosed? && c.phase == Connected && c.epoch != k.epoch && c.Current(k.channel, k.rec)
      then Adopt(c, t)
    else FailCall(c, t)
  }

  /** A #resubscribe returns; the #resubscribeAll that awaited it may go on. */
  function FinishResub(c: Client, t: nat): Client
    requires t in c.resubs
  {
    var x := c.resubs[t].restore;
    c.(resubs := c.resubs - {t},
       restores := if x.Some? && x.value in c.restores
                   then c.restores[x.value := c.restores[x.value].(busy := false)] else c.restores)
  }

  /** #scheduleResubscribe. */
  function ArmRetry(c: Client, r: nat, retry: Option<Retry>): Client
    requires r in c.l.recs
  {
    PutRecord(c, r, c.l.recs[r].(retry := retry))
  }

  /** A transient failure of a channel the caller still holds, on the connection it began on. */
  predicate RetryDue(c: Client, t: nat)
    requires t in c.resubs && Reached(c, c.resubs[t].wait).Some?
  {
    var k := c.resubs[t];
    Transient(Reached(c, k.wait).value) && c.Current(k.channel, k.rec) && c.On(k.epoch)
  }

  function ResumeResub(c: Client, t: nat): Client
    requires t in c.resubs && c.resubs[t].rec in c.l.recs && Reached(c, c.resubs[t].wait).Some?
  {
    var k := c.resubs[t];
    if RetryDue(c, t) then FinishResub(ArmRetry(c, k.rec, Some(Retry(k.epoch, k.retries + 1))), t)
    else FinishResub(c, t)
  }

  /** Start a #resubscribe of a record the client still holds. */
  function StartResub(c: Client, ch: string, r: nat, retries: nat, restore: Option<nat>): Client
    requires r in c.l.recs
  {
    var (c1, w) := EnsureSubscribed(c.(next := c.next + 1), ch, r);
    c1.(resubs := c1.resubs[c.next := Resub(ch, r, c.epoch, retries, w, restore)])
  }

  /** #resubscribeAll takes the next channel of its list, or returns. */
  function ResumeRestore(c: Client, x: nat): Client
    requires x in c.restores && !c.restores[x].busy
    requires forall ch :: ch in c.l.channels ==> c.l.Has(ch)
  {
    var k := c.restores[x];
    if k.remaining == [] || !c.On(k.epoch) then c.(restores := c.restores - {x})
    else
      var ch := k.remaining[0];
      if ch !in c.l.channels then c.(restores := c.restores[x := k.(remaining := k.remaining[1..])])
      else
        assert c.l.Has(ch);
        var c1 := StartResub(c, ch, c.l.channels[ch], 0, Some(x));
        c1.(restores := c1.restores[x := k.(remaining := k.remaining[1..], busy := true)])
  }

  /** The retry timer of a record fires. */
  function RetryFires(c: Client, r: nat): Client
    requires r in c.l.recs && c.l.recs[r].retry.Some?
  {
    var rec := c.l.recs[r];
    var c1 := if c.On(rec.retry.value.epoch) && c.Current(rec.channel, r)
              then StartResub(c, rec.channel, r, rec.retry.value.retries, None) else c;
    ArmRetry(c1, r, None)
  }

  /** The last handler is gone: forget the record, and tell the server if there is one. */
  function Release(l: Link, ch: string, connected: bool): Link
    requires l.Has(ch)
  {
    if connected then ReleaseLast(l, ch) else Forget(l, ch, None)
  }

  /** Subscription.unsubscribe(). */
  function Unsubscribe(c: Client, h: nat): Client
    requires h in c.handles && c.handles[h].rec in c.l.recs
  {
    var k := c.handles[h];
    var c1 := c.(handles := c.handles[h := k.(active := false)]);
    if !k.active || !c.Current(k.channel, k.rec) then c1
    else
      var c2 := DropHandler(c1, k.rec, k.handler, h);
      if c2.l.recs[k.rec].handlers != {} then c2
      else c2.(l := Release(c2.l, k.channel, c.phase == Connected))
  }

  /** The client handles the oldest reply: #settleOp or #onErrorFrame. */
  function Deliver(c: Client): Client
    requires c.l.toClient != []
  {
    var r := c.l.toClient[0];
    var idx := FirstMatch(c.l.pending, r.kind, r.channel);
    c.(l := Receive(c.l),
       attempts := if idx == -1 then c.attempts
                   else Resolve(c.attempts, {c.l.pending[idx].id}, if r.verdict.Acked? then Ok
                     else Rejected(r.verdict.code)))
  }

  // ----- steps -----------------------------------------------------------------------------------

  datatype Action =
    | DoConnect
    | DoDial
    | DoHello(sid: nat, order: seq<string>)
    | SocketCloses                                // readyState leaves OPEN
    | DoDrop(canRetry: bool)
    | DoClose
    | DoSubscribe(ch: string, handler: bool)
    | DoUnsubscribe(h: nat)
    | Authorized(a: nat)
    | AuthorizeFails(a: nat, out: Outcome)
    | TimesOut(op: nat)
    | DoServe(verdict: Verdict, lost: bool)
    | DoDeliver
    | RunFinally(a: nat)
    | DoResumeCall(t: nat)
    | DoResumeResub(t: nat)
    | DoResumeRestore(x: nat)
    | DoRetryFires(r: nat)

  ghost predicate Enabled(c: Client, act: Action) {
    match act
    case DoConnect => c.phase == Idle
    case DoDial => c.phase == Reconnecting && !c.dialed
    case DoHello(_, order) => c.phase in {Connecting, Reconnecting} && c.dialed
      && (forall ch :: ch in order <==> ch in c.l.channels)
    case SocketCloses => c.l.open
    case DoDrop(_) => c.phase !in {Idle, Closed}
    case DoClose => c.phase != Closed
    case DoSubscribe(ch, _) => c.phase == Connected && (c.l.Has(ch) || ch !in c.l.channels)
    case DoUnsubscribe(h) => h in c.handles && c.handles[h].rec in c.l.recs
    case Authorized(a) => a in c.attempts && c.attempts[a].st.Authorizing?
    case AuthorizeFails(a, out) => a in c.attempts && c.attempts[a].st.Authorizing? && !out.Ok?
    case TimesOut(op) => exists p :: p in c.l.pending && p.id == op
    case DoServe(_, _) => c.l.toServer != []
    case DoDeliver => c.l.toClient != []
    case RunFinally(a) => a in c.attempts && c.attempts[a].st.Settled? && c.attempts[a].rec in c.l.recs
    case DoResumeCall(t) => t in c.calls && c.calls[t].rec in c.l.recs && Reached(c, c.calls[t].wait).Some?
    case DoResumeResub(t) => t in c.resubs && c.resubs[t].rec in c.l.recs && Reached(c, c.resubs[t].wait).Some?
    case DoResumeRestore(x) => x in c.restores && !c.restores[x].busy
      && (forall ch :: ch in c.l.channels ==> c.l.Has(ch))
    case DoRetryFires(r) => r in c.l.recs && c.l.recs[r].retry.Some?
  }

  /** authorize() resolved: the token goes out only on the connection it was minted for. */
  function TokenArrives(c: Client, a: nat): Client
    requires a in c.attempts && c.attempts[a].st.Authorizing?
  {
    var k := c.attempts[a];
    if c.On(k.epoch) && c.l.open
    then c.(attempts := c.attempts[a := k.(st := Waiting(c.l.nextFrame))],
            l := PushOp(c.l, Sub, k.channel),
            tokens := c.tokens + [TokenSent(c.ws, k.st.socket)])
    else c.(attempts := c.attempts[a := k.(st := Settled(ConnClosed))])
  }

  function TokenRefused(c: Client, a: nat, out: Outcome): Client
    requires a in c.attempts
  {
    c.(attempts := c.attempts[a := c.attempts[a].(st := Settled(out))],
       abandoned := if Transient(out) then c.abandoned else c.abandoned + {c.attempts[a].rec})
  }

  /** The records once attempt a has cleared its own slot. */
  function ClearInflight(l: Link, ch: string, a: nat): map<nat, Record> {
    if l.Has(ch) && l.recs[l.channels[ch]].inflight == Some(a)
    then l.recs[l.channels[ch] := l.recs[l.channels[ch]].(inflight := None)]
    else l.recs
  }

  /** finally(): the attempt clears its own slot, then the shared promise settles. */
  function Finally(c: Client, a: nat): Client
    requires a in c.attempts && c.attempts[a].st.Settled?
  {
    var k := c.attempts[a];
    c.(attempts := c.attempts[a := k.(st := Done(k.st.out))],
       l := c.l.(recs := ClearInflight(c.l, k.channel, a)))
  }

  ghost function Step(c: Client, act: Action): Client
    requires Enabled(c, act)
  {
    match act
    case DoConnect => c.(phase := Connecting, dialed := true, ws := c.ws + 1)
    case DoDial => c.(dialed := true, ws := c.ws + 1)
    case DoHello(sid, order) => Hello(c, sid, order)
    case SocketCloses => c.(l := c.l.(open := false))
    case DoDrop(canRetry) => Drop(c, canRetry)
    case DoClose => Close(c)
    case DoSubscribe(ch, handler) => Subscribe(c, ch, handler)
    case DoUnsubscribe(h) => Unsubscribe(c, h)
    case Authorized(a) => TokenArrives(c, a)
    case AuthorizeFails(a, out) => TokenRefused(c, a, out)
    case TimesOut(op) => c.(l := AckTimeout(c.l, op), attempts := Resolve(c.attempts, {op}, Failed))
    case DoServe(verdict, lost) => c.(l := Serve(c.l, verdict, lost))
    case DoDeliver => Deliver(c)
    case RunFinally(a) => Finally(c, a)
    case DoResumeCall(t) => ResumeCall(c, t)
    case DoResumeResub(t) => ResumeResub(c, t)
    case DoResumeRestore(x) => ResumeRestore(c, x)
    case DoRetryFires(r) => RetryFires(c, r)
  }

  // ----- the invariant ------------------------------------------------------------------------------

  ghost predicate IsConfirmed(c: Client, r: nat) { r in c.l.recs && c.l.recs[r].confirmed }

  ghost predicate Known(c: Client, ch: string, r: nat) { r in c.l.recs && c.l.recs[r].channel == ch }

  /** What a settled attempt of this connection tells about the record it was made for. */
  ghost predicate OutcomeOk(c: Client, a: Attempt, out: Outcome) {
    c.On(a.epoch) && c.Current(a.channel, a.rec) ==>
      && (out.Ok? ==> IsConfirmed(c, a.rec))
      && (c.l.open && !Transient(out) ==> IsConfirmed(c, a.rec) || a.rec in c.abandoned)
  }

  ghost predicate AttemptOk(c: Client, a: nat) {
    a !in c.attempts ||
      (var k := c.attempts[a];
       && a < c.next && Known(c, k.channel, k.rec) && k.epoch <= c.epoch
       && (c.phase == Connected && k.rec >= c.mark ==> k.epoch == c.epoch)
       && match k.st
          case Authorizing(s) => c.On(k.epoch) ==> c.socket == Some(s)
          case Waiting(op) => c.On(k.epoch) && Op(op, Sub, k.channel) in c.l.pending
          case Settled(out) => OutcomeOk(c, k, out)
          case Done(out) => OutcomeOk(c, k, out))
  }

  ghost predicate WaitsFor(c: Client, w: Wait, r: nat, ch: string) {
    w.On? ==> w.attempt in c.attempts && c.attempts[w.attempt].rec == r && c.attempts[w.attempt].channel == ch
  }

  ghost predicate CallOk(c: Client, t: nat) {
    t !in c.calls ||
      (var k := c.calls[t];
       && t < c.next && Known(c, k.channel, k.rec) && k.epoch <= c.epoch && k.passes <= k.epoch
       && WaitsFor(c, k.wait, k.rec, k.channel)
       && (k.wait.Now? && c.phase == Connected && k.rec >= c.mark && c.Current(k.channel, k.rec)
         ==> IsConfirmed(c, k.rec))
       && (k.handler && c.Current(k.channel, k.rec) ==> t in c.l.recs[k.rec].handlers))
  }

  ghost predicate ResubOk(c: Client, t: nat) {
    t !in c.resubs ||
      (var k := c.resubs[t];
       && t < c.next && Known(c, k.channel, k.rec) && k.epoch <= c.epoch
       && WaitsFor(c, k.wait, k.rec, k.channel)
       && (k.wait.On? ==> c.attempts[k.wait.attempt].epoch == k.epoch)
       && (k.wait.Now? && c.On(k.epoch) && c.Current(k.channel, k.rec) ==> IsConfirmed(c, k.rec)))
  }

  /** A #resubscribeAll that is not runnable has the #resubscribe it waits for. */
  ghost predicate RestoreOk(c: Client, x: nat) {
    x !in c.restores ||
      (&& x < c.next
       && (c.restores[x].busy ==> exists t :: t in c.resubs && c.resubs[t].restore == Some(x)))
  }

  ghost predicate HandleOk(c: Client, h: nat) {
    h !in c.handles ||
      (var k := c.handles[h];
       && h < c.next && Known(c, k.channel, k.rec) && h !in c.calls
       && (k.active && c.phase == Connected && k.rec >= c.mark && c.Current(k.channel, k.rec) ==> IsConfirmed(c, k.rec))
       && (k.active && k.handler && c.Current(k.channel, k.rec) ==> h in c.l.recs[k.rec].handlers))
  }

  ghost predicate Resubscribing(c: Client, r: nat) {
    exists t :: t in c.resubs && c.resubs[t].rec == r && c.resubs[t].epoch == c.epoch
  }

  ghost predicate Listed(c: Client, ch: string) {
    exists x :: x in c.restores && c.restores[x].epoch == c.epoch && ch in c.restores[x].remaining
  }

  ghost predicate Armed(c: Client, r: nat) {
    r in c.l.recs && c.l.recs[r].retry.Some? && c.l.recs[r].retry.value.epoch == c.epoch
  }

  /** The record is alive on the server, or something is under way that will bring it back. */
  ghost predicate Covered(c: Client, ch: string, r: nat) {
    || IsConfirmed(c, r)
    || r in c.abandoned
    || Armed(c, r)
    || Resubscribing(c, r)
    || Listed(c, ch)
  }

  ghost predicate InflightOk(c: Client, r: nat) {
    r in c.l.recs && c.l.recs[r].inflight.Some? ==>
      var a := c.l.recs[r].inflight.value;
      a in c.attempts && c.attempts[a].rec == r && c.attempts[a].channel == c.l.recs[r].channel
      && c.attempts[a].epoch == c.epoch && !c.attempts[a].st.Done?
  }

  ghost predicate NameOk(c: Client, ch: string) {
    ch !in c.l.channels ||
      (var r := c.l.channels[ch];
       && Known(c, ch, r)
       && (c.phase != Connected ==> !c.l.recs[r].confirmed && c.l.recs[r].inflight.None? && c.l.recs[r].retry.None?)
       && (c.phase == Connected ==> InflightOk(c, r))
       && (c.phase == Connected && c.l.open && r < c.mark ==> Covered(c, ch, r)))
  }

  ghost predicate TokensBound(c: Client) {
    && (forall w :: w in c.issued ==> w <= c.ws)
    && (c.dialed && c.phase != Connected ==> c.ws !in c.issued)
    && (forall i :: 0 <= i < |c.tokens| ==>
          c.tokens[i].ws in c.issued && c.issued[c.tokens[i].ws] == c.tokens[i].socket)
  }

  ghost predicate Base(c: Client) {
    && c.mark <= c.next
    && (forall r :: r in c.l.recs ==> r < c.next)
    && (c.phase == Connected ==> c.socket.Some? && c.dialed && c.ws in c.issued && c.issued[c.ws] == c.socket.value)
    && (c.phase != Connected ==> Cut(c.l) == c.l)
    && (c.phase == Connected ==> c.ever)
    && (!c.ever ==> c.l.channels == map[])
    && TokensBound(c)
  }

  /** The calls, resubscribes, restores and handles. */
  ghost predicate TasksOk(c: Client) {
    var holds :=
      && (forall t :: CallOk(c, t))
      && (forall t :: ResubOk(c, t))
      && (forall x :: RestoreOk(c, x))
      && (forall h :: HandleOk(c, h));
    holds
  }

  ghost predicate Inv(c: Client) {
    var holds :=
      && LinkInv(c.l)
      && Base(c)
      && (forall a :: AttemptOk(c, a))
      && TasksOk(c)
      && (forall ch :: NameOk(c, ch));
    holds
  }

  const START := Client(Link(map[], map[], [], false, 0, [], [], {}, {}), Idle, false, 0, false, 0, None,
                        map[], map[], map[], map[], map[], 0, 0, {}, map[], [])

  lemma StartInv()
    ensures Inv(START)
  {
  }

  // ----- steps that only add ---------------------------------------------------------------------------

  /** c' continues c on the same connection: names are only dropped or given to new records,
      records stay confirmed and keep their handlers, attempts stay what they are for. */
  ghost predicate Continues(c: Client, c': Client) {
    && c'.phase == c.phase && c'.epoch == c.epoch && c'.mark == c.mark && c.next <= c'.next
    && (c'.l.open ==> c.l.open)
    && (forall ch :: ch in c'.l.channels ==> c.Current(ch, c'.l.channels[ch]) || c'.l.channels[ch] !in c.l.recs)
    && (forall r :: r in c.l.recs ==> Carries(c, c', r))
    && (forall a :: a in c.attempts ==> SameAttempt(c, c', a))
  }

  ghost predicate Carries(c: Client, c': Client, r: nat)
    requires r in c.l.recs
  {
    && r in c'.l.recs && c'.l.recs[r].channel == c.l.recs[r].channel
    && (c.l.recs[r].confirmed ==> c'.l.recs[r].confirmed)
    && c.l.recs[r].handlers <= c'.l.recs[r].handlers
  }

  ghost predicate SameAttempt(c: Client, c': Client, a: nat)
    requires a in c.attempts
  {
    && a in c'.attempts && c'.attempts[a].rec == c.attempts[a].rec
    && c'.attempts[a].channel == c.attempts[a].channel && c'.attempts[a].epoch == c.attempts[a].epoch
  }

  lemma ContinuesCall(c: Client, c': Client, t: nat)
    requires Inv(c) && Continues(c, c')
    requires t in c'.calls ==> t in c.calls && c'.calls[t] == c.calls[t]
    ensures CallOk(c', t)
  {
    assert CallOk(c, t);
    if t in c.calls && c.calls[t].wait.On? { assert SameAttempt(c, c', c.calls[t].wait.attempt); }
    if t in c.calls { assert Carries(c, c', c.calls[t].rec); }
  }

  lemma ContinuesResub(c: Client, c': Client, t: nat)
    requires Inv(c) && Continues(c, c')
    requires t in c'.resubs ==> t in c.resubs && c'.resubs[t] == c.resubs[t]
    ensures ResubOk(c', t)
  {
    assert ResubOk(c, t);
    if t in c.resubs && c.resubs[t].wait.On? { assert SameAttempt(c, c', c.resubs[t].wait.attempt); }
    if t in c.resubs { assert Carries(c, c', c.resubs[t].rec); }
  }

  lemma ContinuesHandle(c: Client, c': Client, h: nat)
    requires Inv(c) && Continues(c, c')
    requires h in c'.handles ==> h in c.handles && c'.handles[h] == c.handles[h] && h !in c'.calls
    ensures HandleOk(c', h)
  {
    assert HandleOk(c, h);
    if h in c.handles { assert Carries(c, c', c.handles[h].rec); }
  }

  lemma ContinuesAttempt(c: Client, c': Client, a: nat)
    requires Inv(c) && Continues(c, c')
    requires a in c.attempts && c'.attempts[a] == c.attempts[a] && c'.socket == c.socket
    requires c.attempts[a].st.Waiting? ==> Op(c.attempts[a].st.op, Sub, c.attempts[a].channel) in c'.l.pending
    requires c.abandoned <= c'.abandoned
    ensures AttemptOk(c', a)
  {
    assert AttemptOk(c, a);
    assert Carries(c, c', c.attempts[a].rec);
  }

  lemma ContinuesName(c: Client, c': Client, ch: string)
    requires Inv(c) && Continues(c, c') && c.abandoned <= c'.abandoned
    requires c.phase == Connected
    requires ch in c'.l.channels && c.Current(ch, c'.l.channels[ch])
    requires c'.l.channels[ch] in c'.l.recs && InflightOk(c', c'.l.channels[ch])
    requires Armed(c, c'.l.channels[ch]) ==> Armed(c', c'.l.channels[ch]) || Resubscribing(c', c'.l.channels[ch])
    requires forall t :: t in c.resubs ==> t in c'.resubs && c'.resubs[t] == c.resubs[t]
    requires forall x :: x in c.restores && ch in c.restores[x].remaining ==>
      x in c'.restores && c'.restores[x].epoch == c.restores[x].epoch && ch in c'.restores[x].remaining
    ensures NameOk(c', ch)
  {
    var r := c'.l.channels[ch];
    assert NameOk(c, ch);
    assert Carries(c, c', r);
    if c'.l.open && r < c.mark {
      assert Covered(c, ch, r);
      if Resubscribing(c, r) {
        var t :| t in c.resubs && c.resubs[t].rec == r && c.resubs[t].epoch == c.epoch;
        assert c'.resubs[t].rec == r;
      } else if Listed(c, ch) {
        var x :| x in c.restores && c.restores[x].epoch == c.epoch && ch in c.restores[x].remaining;
        assert ch in c'.restores[x].remaining;
      }
    }
  }

  // ----- attempts -------------------------------------------------------------------------------------------

  /** The tasks are untouched and the connection's identity is too. */
  ghost predicate SameTasks(c: Client, c': Client) {
    && c'.calls == c.calls && c'.resubs == c.resubs && c'.restores == c.restores && c'.handles == c.handles
    && c'.socket == c.socket && c'.ws == c.ws && c'.issued == c.issued && c'.dialed == c.dialed && c'.ever == c.ever
    && c.abandoned <= c'.abandoned
  }

  lemma TasksKeep(c: Client, c': Client)
    requires Inv(c) && Continues(c, c') && SameTasks(c, c')
    ensures TasksOk(c')
  {
    forall t ensures CallOk(c', t) { ContinuesCall(c, c', t); }
    forall t ensures ResubOk(c', t) { ContinuesResub(c, c', t); }
    forall x ensures RestoreOk(c', x) { assert RestoreOk(c, x); }
    forall h ensures HandleOk(c', h) { assert HandleOk(c, h); ContinuesHandle(c, c', h); }
  }

  lemma AttemptsKeep(c: Client, c': Client)
    requires Inv(c) && Continues(c, c') && SameTasks(c, c') && c'.attempts == c.attempts && c'.l.pending == c.l.pending
    ensures forall a :: AttemptOk(c', a)
  {
    forall a ensures AttemptOk(c', a) { assert AttemptOk(c, a); if a in c.attempts { ContinuesAttempt(c, c', a); } }
  }

  lemma RecordsKeepLink(l: Link, l': Link)
    requires LinkInv(l) && l' == l.(recs := l'.recs)
    requires forall r :: r in l.recs ==>
      r in l'.recs && l'.recs[r].channel == l.recs[r].channel && l'.recs[r].confirmed == l.recs[r].confirmed
    ensures LinkInv(l')
  {
    RecordChangeKeeps(l, l');
  }

  /** c' is c with one more attempt, just started for record r of channel ch. */
  ghost predicate Started(c: Client, c': Client, ch: string, r: nat) {
    && r in c.l.recs && c.next !in c.attempts && c.next in c'.attempts
    && c' == c.(next := c.next + 1, attempts := c'.attempts, l := c'.l)
    && c'.attempts == c.attempts[c.next := c'.attempts[c.next]]
    && c'.l.open == c.l.open && c'.l.channels == c.l.channels
    && c'.l.recs == c.l.recs[r := c.l.recs[r].(inflight := Some(c.next))]
    && (forall op :: op in c.l.pending ==> op in c'.l.pending)
    && FreshAttempt(c', c'.attempts[c.next], ch, r)
  }

  ghost predicate FreshAttempt(c: Client, k: Attempt, ch: string, r: nat) {
    && k.rec == r && k.channel == ch && k.epoch == c.epoch
    && match k.st
       case Authorizing(s) => c.socket == Some(s)
       case Waiting(op) => Op(op, Sub, ch) in c.l.pending
       case Settled(out) => out == ConnClosed && !c.l.open
       case Done(_) => false
  }

  lemma StartAttemptLink(c: Client, ch: string, r: nat)
    requires LinkInv(c.l) && r in c.l.recs
    ensures LinkInv(StartAttempt(c, ch, r).l)
  {
    var l1 := c.l.(recs := c.l.recs[r := c.l.recs[r].(inflight := Some(c.next))]);
    RecordsKeepLink(c.l, l1);
    PushOpKeeps(l1, Sub, ch);
  }

  lemma StartedAttempts(c: Client, c': Client, ch: string, r: nat, a: nat)
    requires Inv(c) && c.phase == Connected && c.Current(ch, r) && Known(c, ch, r)
    requires Started(c, c', ch, r) && Continues(c, c')
    ensures AttemptOk(c', a)
  {
    if a in c.attempts { assert AttemptOk(c, a); ContinuesAttempt(c, c', a); }
  }

  lemma StartedNames(c: Client, c': Client, ch: string, r: nat, n: string)
    requires Inv(c) && c.phase == Connected && c.Current(ch, r) && Known(c, ch, r)
    requires Started(c, c', ch, r) && Continues(c, c')
    ensures NameOk(c', n)
  {
    if n in c'.l.channels {
      assert NameOk(c, n);
      ContinuesName(c, c', n);
    }
  }

  lemma StartAttemptKeeps(c: Client, ch: string, r: nat)
    requires Inv(c) && c.phase == Connected && c.Current(ch, r) && r in c.l.recs
    ensures var c' := StartAttempt(c, ch, r); Inv(c') && Started(c, c', ch, r)
  {
    var c' := StartAttempt(c, ch, r);
    assert NameOk(c, ch);
    assert AttemptOk(c, c.next);
    StartAttemptLink(c, ch, r);
    StartedKeeps(c, c', ch, r);
  }

  lemma StartedKeeps(c: Client, c': Client, ch: string, r: nat)
    requires Inv(c) && c.phase == Connected && c.Current(ch, r) && Known(c, ch, r)
    requires Started(c, c', ch, r) && LinkInv(c'.l)
    ensures Inv(c')
  {
    TasksKeep(c, c');
    forall a ensures AttemptOk(c', a) { StartedAttempts(c, c', ch, r, a); }
    forall n ensures NameOk(c', n) { StartedNames(c, c', ch, r, n); }
  }

  /** What a caller of #ensureSubscribed may rely on for its wait. */
  ghost predicate FreshWait(c: Client, w: Wait, ch: string, r: nat) {
    match w
    case Now => IsConfirmed(c, r)
    case On(a) =>
      a in c.attempts && c.attempts[a].rec == r && c.attempts[a].channel == ch && c.attempts[a].epoch == c.epoch
  }

  lemma EnsureKeeps(c: Client, ch: string, r: nat)
    requires Inv(c) && c.phase == Connected && c.Current(ch, r) && r in c.l.recs
    ensures var (c', w) := EnsureSubscribed(c, ch, r);
      var holds := Inv(c') && (c' == c || Started(c, c', ch, r)) && FreshWait(c', w, ch, r);
      holds
  {
    assert NameOk(c, ch);
    if !c.l.recs[r].confirmed && c.l.recs[r].inflight.None? { StartAttemptKeeps(c, ch, r); }
  }

  // ----- tasks come and go ------------------------------------------------------------------------------

  lemma PutCallKeeps(c: Client, t: nat, k: Call)
    requires Inv(c) && t !in c.handles && CallOk(c.(calls := c.calls[t := k]), t)
    ensures Inv(c.(calls := c.calls[t := k]))
  {
    var c' := c.(calls := c.calls[t := k]);
    forall u ensures CallOk(c', u) { assert CallOk(c, u); if u != t { ContinuesCall(c, c', u); } }
    OnlyTasksChange(c, c');
    forall h ensures HandleOk(c', h) { assert HandleOk(c, h); ContinuesHandle(c, c', h); }
    forall u ensures ResubOk(c', u) { ContinuesResub(c, c', u); }
    forall x ensures RestoreOk(c', x) { assert RestoreOk(c, x); }
    forall n ensures NameOk(c', n) { assert NameOk(c, n); }
  }

  /** With the link and the attempts untouched, attempts and base facts carry over. */
  lemma OnlyTasksChange(c: Client, c': Client)
    requires Inv(c)
    requires c' == c.(calls := c'.calls, resubs := c'.resubs, restores := c'.restores, handles := c'.handles)
    ensures Base(c') && Continues(c, c') && forall a :: AttemptOk(c', a)
  {
    forall a ensures AttemptOk(c', a) { assert AttemptOk(c, a); }
  }

  /** A subscribe() call returns its handle. */
  lemma CallReturnsKeeps(c: Client, t: nat, k: Handle)
    requires Inv(c)
    requires HandleOk(c.(calls := c.calls - {t}, handles := c.handles[t := k]), t)
    ensures Inv(c.(calls := c.calls - {t}, handles := c.handles[t := k]))
  {
    var c' := c.(calls := c.calls - {t}, handles := c.handles[t := k]);
    OnlyTasksChange(c, c');
    forall u ensures CallOk(c', u) { ContinuesCall(c, c', u); }
    forall h ensures HandleOk(c', h) { assert HandleOk(c, h); if h != t { ContinuesHandle(c, c', h); } }
    forall u ensures ResubOk(c', u) { ContinuesResub(c, c', u); }
    forall x ensures RestoreOk(c', x) { assert RestoreOk(c, x); }
    forall n ensures NameOk(c', n) { assert NameOk(c, n); }
  }

  lemma PutResubKeeps(c: Client, t: nat, k: Resub)
    requires Inv(c) && t !in c.resubs && ResubOk(c.(resubs := c.resubs[t := k]), t)
    ensures Inv(c.(resubs := c.resubs[t := k]))
  {
    var c' := c.(resubs := c.resubs[t := k]);
    OnlyTasksChange(c, c');
    forall u ensures CallOk(c', u) { ContinuesCall(c, c', u); }
    forall h ensures HandleOk(c', h) { assert HandleOk(c, h); ContinuesHandle(c, c', h); }
    forall u ensures ResubOk(c', u) { assert ResubOk(c, u); if u != t { ContinuesResub(c, c', u); } }
    forall x ensures RestoreOk(c', x) {
      assert RestoreOk(c, x);
      if x in c.restores && c.restores[x].busy {
        var u :| u in c.resubs && c.resubs[u].restore == Some(x);
        assert c'.resubs[u].restore == Some(x);
      }
    }
    forall n ensures NameOk(c', n) {
      assert NameOk(c, n);
      ResubAdded(c, c', t, n);
    }
  }

  lemma ResubAdded(c: Client, c': Client, t: nat, n: string)
    requires t !in c.resubs && t in c'.resubs && c' == c.(resubs := c.resubs[t := c'.resubs[t]])
    ensures n in c.l.channels && Resubscribing(c, c.l.channels[n]) ==> Resubscribing(c', c.l.channels[n])
  {
    if n in c.l.channels && Resubscribing(c, c.l.channels[n]) {
      var u :| u in c.resubs && c.resubs[u].rec == c.l.channels[n] && c.resubs[u].epoch == c.epoch;
      assert c'.resubs[u] == c.resubs[u];
    }
  }

  lemma FinishResubKeeps(c: Client, t: nat)
    requires Inv(c) && t in c.resubs
    requires var k := c.resubs[t];
      c.On(k.epoch) && c.l.open && c.Current(k.channel, k.rec) ==>
        IsConfirmed(c, k.rec) || k.rec in c.abandoned || Armed(c, k.rec)
    ensures Inv(FinishResub(c, t))
  {
    var c' := FinishResub(c, t);
    assert ResubOk(c, t);
    OnlyTasksChange(c, c');
    forall u ensures CallOk(c', u) { ContinuesCall(c, c', u); }
    forall h ensures HandleOk(c', h) { assert HandleOk(c, h); ContinuesHandle(c, c', h); }
    forall u ensures ResubOk(c', u) { ContinuesResub(c, c', u); }
    forall x ensures RestoreOk(c', x) { FinishedRestore(c, t, x); }
    forall n ensures NameOk(c', n) { FinishedName(c, t, n); }
  }

  lemma FinishedRestore(c: Client, t: nat, x: nat)
    requires t in c.resubs && RestoreOk(c, x)
    ensures RestoreOk(FinishResub(c, t), x)
  {
    var c' := FinishResub(c, t);
    if x in c'.restores && c'.restores[x].busy {
      var u :| u in c.resubs && c.resubs[u].restore == Some(x);
      assert u in c'.resubs;
    }
  }

  lemma FinishedName(c: Client, t: nat, n: string)
    requires t in c.resubs && ResubOk(c, t) && NameOk(c, n)
    requires var k := c.resubs[t];
      c.On(k.epoch) && c.l.open && c.Current(k.channel, k.rec) ==>
        IsConfirmed(c, k.rec) || k.rec in c.abandoned || Armed(c, k.rec)
    ensures NameOk(FinishResub(c, t), n)
  {
    var c' := FinishResub(c, t);
    if n in c.l.channels && c.phase == Connected && c.l.open && c.l.channels[n] < c.mark {
      var r := c.l.channels[n];
      assert Covered(c, n, r);
      if Resubscribing(c, r) {
        var u :| u in c.resubs && c.resubs[u].rec == r && c.resubs[u].epoch == c.epoch;
        if u != t { assert c'.resubs[u] == c.resubs[u]; }
      } else if Listed(c, n) {
        var x :| x in c.restores && c.restores[x].epoch == c.epoch && n in c.restores[x].remaining;
        assert c'.restores[x].remaining == c.restores[x].remaining;
      }
    }
  }

  /** Changing a record's retry timer, or dropping handlers nobody alive passed. */
  ghost predicate Touched(c: Client, r: nat, rec: Record) {
    && r in c.l.recs
    && rec == c.l.recs[r].(handlers := rec.handlers, retry := rec.retry)
    && (rec.retry.Some? ==> rec.retry == c.l.recs[r].retry || c.phase == Connected)
    && (Armed(c, r) ==> (rec.retry.Some? && rec.retry.value.epoch == c.epoch) || Resubscribing(c, r))
    && (forall t :: t in c.calls && c.calls[t].rec == r && c.calls[t].handler && t in c.l.recs[r].handlers ==>
      t in rec.handlers)
    && (forall h :: h in c.handles && c.handles[h].rec == r && c.handles[h].active && c.handles[h].handler ==>
          h in c.l.recs[r].handlers ==> h in rec.handlers)
  }

  lemma TouchTasks(c: Client, r: nat, rec: Record)
    requires Inv(c) && Touched(c, r, rec)
    ensures TasksOk(PutRecord(c, r, rec))
  {
    var c' := PutRecord(c, r, rec);
    forall t ensures CallOk(c', t) { assert CallOk(c, t); }
    forall t ensures ResubOk(c', t) { assert ResubOk(c, t); }
    forall x ensures RestoreOk(c', x) { assert RestoreOk(c, x); }
    forall h ensures HandleOk(c', h) { assert HandleOk(c, h); }
  }

  lemma TouchKeeps(c: Client, r: nat, rec: Record)
    requires Inv(c) && Touched(c, r, rec)
    ensures Inv(PutRecord(c, r, rec))
  {
    var c' := PutRecord(c, r, rec);
    RecordsKeepLink(c.l, c'.l);
    TouchTasks(c, r, rec);
    forall a ensures AttemptOk(c', a) { assert AttemptOk(c, a); }
    forall n ensures NameOk(c', n) { assert NameOk(c, n); }
  }

  ghost predicate OneRecord(l: Link, l': Link, r: nat) {
    r in l.recs && r in l'.recs && l'.recs == l.recs[r := l'.recs[r]]
  }

  /** Forgetting a name, with or without telling the server. */
  lemma ForgetKeeps(c: Client, l': Link, ch: string)
    requires Inv(c) && ch in c.l.channels && LinkInv(l')
    requires l' == c.l.(channels := c.l.channels - {ch}, recs := l'.recs, pending := l'.pending,
      toServer := l'.toServer, nextFrame := l'.nextFrame)
    requires l' == c.l.(channels := l'.channels, recs := l'.recs) || c.phase == Connected
    requires forall op :: op in c.l.pending ==> op in l'.pending
    requires OneRecord(c.l, l', c.l.channels[ch])
    requires var r := c.l.channels[ch];
      l'.recs[r] == c.l.recs[r].(retry := l'.recs[r].retry, refusal := l'.recs[r].refusal)
    ensures Inv(c.(l := l'))
  {
    var c' := c.(l := l');
    ForgetTasks(c, l', ch);
    forall a ensures AttemptOk(c', a) { assert AttemptOk(c, a); }
    forall n ensures NameOk(c', n) { ForgottenName(c, l', ch, n); }
  }

  lemma ForgetTasks(c: Client, l': Link, ch: string)
    requires Inv(c) && ch in c.l.channels && l'.channels == c.l.channels - {ch} && OneRecord(c.l, l', c.l.channels[ch])
    requires var r := c.l.channels[ch];
      l'.recs[r] == c.l.recs[r].(retry := l'.recs[r].retry, refusal := l'.recs[r].refusal)
    ensures TasksOk(c.(l := l'))
  {
    var c' := c.(l := l');
    forall t ensures CallOk(c', t) { assert CallOk(c, t); }
    forall t ensures ResubOk(c', t) { assert ResubOk(c, t); }
    forall x ensures RestoreOk(c', x) { assert RestoreOk(c, x); }
    forall h ensures HandleOk(c', h) { assert HandleOk(c, h); }
  }

  lemma ForgottenName(c: Client, l': Link, ch: string, n: string)
    requires NamesResolve(c.l) && NameOk(c, n) && ch in c.l.channels
    requires l' == c.l.(channels := c.l.channels - {ch}, recs := l'.recs, pending := l'.pending,
      toServer := l'.toServer, nextFrame := l'.nextFrame)
    requires OneRecord(c.l, l', c.l.channels[ch])
    ensures NameOk(c.(l := l'), n)
  {
    var c' := c.(l := l');
    if n in c'.l.channels {
      var r := c.l.channels[n];
      assert c.l.recs[r].channel == n;
      assert c'.l.recs[r] == c.l.recs[r];
      assert Resubscribing(c, r) ==> Resubscribing(c', r);
      assert Listed(c, n) ==> Listed(c', n);
    }
  }

  // ----- replies, timeouts, authorize ---------------------------------------------------------------------

  lemma TimesOutAttempt(c: Client, op: nat, a: nat)
    requires Inv(c)
    ensures AttemptOk(c.(l := AckTimeout(c.l, op), attempts := Resolve(c.attempts, {op}, Failed)), a)
  {
    var c' := c.(l := AckTimeout(c.l, op), attempts := Resolve(c.attempts, {op}, Failed));
    RemoveIdFacts(c.l.pending, op);
    assert AttemptOk(c, a);
    if a in c.attempts && c'.attempts[a] == c.attempts[a] { ContinuesAttempt(c, c', a); }
  }

  lemma TimesOutKeeps(c: Client, op: nat)
    requires Inv(c) && c.phase == Connected
    ensures Inv(c.(l := AckTimeout(c.l, op), attempts := Resolve(c.attempts, {op}, Failed)))
  {
    var c' := c.(l := AckTimeout(c.l, op), attempts := Resolve(c.attempts, {op}, Failed));
    TimeoutKeeps(c.l, op);
    TasksKeep(c, c');
    forall a ensures AttemptOk(c', a) { TimesOutAttempt(c, op, a); }
    forall n ensures NameOk(c', n) { assert NameOk(c, n); }
  }

  /** With records, names and attempts untouched. */
  lemma NamesKeep(c: Client, c': Client)
    requires Inv(c) && Continues(c, c') && SameTasks(c, c') && c'.attempts == c.attempts
    requires c'.l.recs == c.l.recs && c'.l.channels == c.l.channels
    ensures forall n :: NameOk(c', n)
  {
    forall n ensures NameOk(c', n) { assert NameOk(c, n); }
  }

  lemma DoServeKeeps(c: Client, verdict: Verdict, lost: bool)
    requires Inv(c) && c.l.toServer != []
    ensures Inv(c.(l := Serve(c.l, verdict, lost)))
  {
    var c' := c.(l := Serve(c.l, verdict, lost));
    ServeKeeps(c.l, verdict, lost);
    assert Continues(c, c');
    TasksKeep(c, c');
    AttemptsKeep(c, c');
    NamesKeep(c, c');
  }

  /** What a reply about ch can do to the records. */
  ghost predicate Shaped(l: Link, l': Link, ch: string) {
    && l'.channels in {l.channels, l.channels - {ch}}
    && l'.recs.Keys == l.recs.Keys && l'.open == l.open
    && (forall r :: r in l.recs && !(ch in l.channels && l.channels[ch] == r) ==> l'.recs[r] == l.recs[r])
    && (ch in l.channels ==> l.channels[ch] in l.recs)
    && (ch in l'.channels ==> l'.channels[ch] == l.channels[ch])
    && (ch in l'.channels ==>
          l'.recs[l.channels[ch]] == l.recs[l.channels[ch]].(confirmed := l'.recs[l.channels[ch]].confirmed))
    && (ch in l.channels ==>
          l'.recs[l.channels[ch]].channel == l.recs[l.channels[ch]].channel
          && (l.recs[l.channels[ch]].confirmed ==> l'.recs[l.channels[ch]].confirmed)
          && l'.recs[l.channels[ch]].handlers == l.recs[l.channels[ch]].handlers)
  }

  lemma AckShape(l: Link, kind: Kind, ch: string, undoneLater: bool)
    requires ch in l.channels ==> l.Has(ch)
    ensures Shaped(l, AckEffect(l, kind, ch, undoneLater), ch)
  {
  }

  lemma ReceiveShape(l: Link)
    requires LinkInv(l) && l.toClient != []
    ensures Shaped(l, Receive(l), l.toClient[0].channel)
  {
    var r := l.toClient[0];
    var undoneLater := ReceiveSplits(l);
    if r.verdict.Acked? { AckShape(Dequeue(l), r.kind, r.channel, undoneLater); }
  }

  lemma ReceivePending(l: Link)
    requires l.toClient != []
    ensures var idx := FirstMatch(l.pending, l.toClient[0].kind, l.toClient[0].channel);
      Receive(l).pending == if idx == -1 then l.pending else RemoveAt(l.pending, idx)
  {
  }

  lemma DeliverPending(l: Link)
    requires Sorted(l.pending) && l.toClient != []
    ensures var idx := FirstMatch(l.pending, l.toClient[0].kind, l.toClient[0].channel);
      && (idx == -1 ==> Receive(l).pending == l.pending)
      && (idx != -1 ==> forall op :: op in l.pending && op.id != l.pending[idx].id ==> op in Receive(l).pending)
      && (idx != -1 ==> forall op :: op in l.pending && op.id == l.pending[idx].id ==> op == l.pending[idx])
  {
    ReceivePending(l);
    var idx := FirstMatch(l.pending, l.toClient[0].kind, l.toClient[0].channel);
    if idx != -1 {
      RemoveAtFacts(l.pending, idx);
      assert forall i :: 0 <= i < |l.pending| && l.pending[i].id == l.pending[idx].id ==> i == idx;
    }
  }

  /** c' is c after a reply: another link, and attempts that settled. */
  ghost predicate Delivered(c: Client, c': Client) {
    && c' == c.(l := c'.l, attempts := c'.attempts) && c'.attempts.Keys == c.attempts.Keys
    && forall a :: a in c.attempts ==> SameAttempt(c, c', a)
  }

  lemma DeliverLink(c: Client)
    requires c.l.toClient != []
    ensures Deliver(c).l == Receive(c.l) && Delivered(c, Deliver(c))
  {
  }

  lemma DeliverContinues(c: Client)
    requires LinkInv(c.l) && c.l.toClient != []
    ensures Continues(c, Deliver(c)) && SameTasks(c, Deliver(c))
  {
    DeliverLink(c);
    ReceiveShape(c.l);
  }

  /** The reply settles the attempt that waits for it. */
  lemma AnsweredAttempt(c: Client, c': Client, a: nat, idx: nat)
    requires Inv(c) && c.l.toClient != [] && c'.l == Receive(c.l) && Delivered(c, c') && a in c.attempts
      && c.attempts[a].st.Waiting?
    requires idx < |c.l.pending| && idx == FirstMatch(c.l.pending, c.l.toClient[0].kind, c.l.toClient[0].channel)
    requires c.l.pending[idx].id == c.attempts[a].st.op
    requires c'.attempts[a]
      == c.attempts[a].(st := Settled(if c.l.toClient[0].verdict.Acked? then Ok
      else Rejected(c.l.toClient[0].verdict.code)))
    ensures AttemptOk(c', a)
  {
    var k, r := c.attempts[a], c.l.toClient[0];
    assert AttemptOk(c, a);
    ReceiveShape(c.l);
    if c.On(k.epoch) {
      assert c.l.pending[idx] in c.l.pending;
      assert c.l.pending[idx] == Op(k.st.op, Sub, k.channel);
    }
  }

  lemma DeliverAttempt(c: Client, a: nat)
    requires Inv(c) && c.l.toClient != []
    ensures AttemptOk(Deliver(c), a)
  {
    var c' := Deliver(c);
    var r := c.l.toClient[0];
    var idx := FirstMatch(c.l.pending, r.kind, r.channel);
    DeliverLink(c);
    if a in c.attempts {
      if c'.attempts[a] == c.attempts[a] {
        DeliverContinues(c);
        DeliverPending(c.l);
        assert AttemptOk(c, a);
        ContinuesAttempt(c, c', a);
      } else {
        AnsweredAttempt(c, c', a, idx);
      }
    }
  }

  lemma DeliverName(c: Client, n: string)
    requires Inv(c) && c.l.toClient != [] && c.phase == Connected
    ensures NameOk(Deliver(c), n)
  {
    DeliverContinues(c);
    if n in Deliver(c).l.channels { DeliverRecord(c, n); ContinuesName(c, Deliver(c), n); }
  }

  /** A record that keeps its name keeps its slot and its timer through a delivery. */
  lemma DeliverRecord(c: Client, n: string)
    requires Inv(c) && c.l.toClient != [] && c.phase == Connected && n in Deliver(c).l.channels
    ensures var r := Deliver(c).l.channels[n]; var c' := Deliver(c);
      c.Current(n, r) && r in c.l.recs && r in c'.l.recs && InflightOk(c', r) && c'.l.recs[r].retry == c.l.recs[r].retry
  {
    assert NameOk(c, n);
    ReceiveShape(c.l);
    var r := c.l.channels[n];
    assert c.l.recs[r].channel == n;
  }

  lemma DeliverKeeps(c: Client)
    requires Inv(c) && c.l.toClient != []
    ensures Inv(Deliver(c))
  {
    var c' := Deliver(c);
    ReceiveKeeps(c.l);
    DeliverContinues(c);
    TasksKeep(c, c');
    ReceiveShape(c.l);
    forall a ensures AttemptOk(c', a) { DeliverAttempt(c, a); }
    forall n ensures NameOk(c', n) { DeliverName(c, n); }
  }

  // ----- authorize(), finally() --------------------------------------------------------------------------

  /** c' differs from c in one attempt, which moved on, and in what was sent. */
  ghost predicate Moved(c: Client, c': Client, a: nat) {
    && a in c.attempts && a in c'.attempts && !c'.attempts[a].st.Done?
    && c' == c.(attempts := c.attempts[a := c.attempts[a].(st := c'.attempts[a].st)], l := c'.l,
                abandoned := c'.abandoned, tokens := c'.tokens)
    && c'.l == c.l.(pending := c'.l.pending, toServer := c'.l.toServer, nextFrame := c'.l.nextFrame)
    && (c.phase != Connected ==> c'.l == c.l)
    && (forall op :: op in c.l.pending ==> op in c'.l.pending)
    && c.abandoned <= c'.abandoned
  }

  lemma MovedContinues(c: Client, c': Client, a: nat)
    requires Moved(c, c', a)
    ensures Continues(c, c') && SameTasks(c, c')
  {
  }

  lemma MovedAttempt(c: Client, c': Client, a: nat, b: nat)
    requires Inv(c) && Moved(c, c', a) && b != a
    ensures AttemptOk(c', b)
  {
    assert AttemptOk(c, b);
    MovedContinues(c, c', a);
    if b in c.attempts { ContinuesAttempt(c, c', b); }
  }

  lemma MovedNames(c: Client, c': Client, a: nat)
    requires Inv(c) && Moved(c, c', a)
    ensures forall n :: NameOk(c', n)
  {
    forall n ensures NameOk(c', n) { assert NameOk(c, n); }
  }

  lemma MovedKeeps(c: Client, c': Client, a: nat)
    requires Inv(c) && Moved(c, c', a) && LinkInv(c'.l) && AttemptOk(c', a) && TokensBound(c')
    ensures Inv(c')
  {
    MovedContinues(c, c', a);
    TasksKeep(c, c');
    forall b ensures AttemptOk(c', b) { if b != a { MovedAttempt(c, c', a, b); } }
    MovedNames(c, c', a);
  }

  lemma PushOpPending(l: Link, kind: Kind, ch: string)
    ensures var l' := PushOp(l, kind, ch);
      && Op(l.nextFrame, kind, ch) in l'.pending && (forall op :: op in l.pending ==> op in l'.pending)
      && l' == l.(pending := l'.pending, toServer := l'.toServer, nextFrame := l'.nextFrame)
  {
    assert PushOp(l, kind, ch).pending[|l.pending|] == Op(l.nextFrame, kind, ch);
  }

  lemma TokenArrivesMoves(c: Client, a: nat)
    requires a in c.attempts && c.attempts[a].st.Authorizing?
    ensures var c' := TokenArrives(c, a);
      && Moved(c, c', a)
      && (c'.attempts[a].st == Settled(ConnClosed)
        || (c'.attempts[a].st == Waiting(c.l.nextFrame) && c.On(c.attempts[a].epoch) &&
          Op(c.l.nextFrame, Sub, c.attempts[a].channel) in c'.l.pending))
      && (c'.attempts[a].st.Settled? ==> !c.On(c.attempts[a].epoch) || !c.l.open)
  {
    var k := c.attempts[a];
    if c.On(k.epoch) && c.l.open { PushOpPending(c.l, Sub, k.channel); }
  }

  lemma TokenArrivesKeeps(c: Client, a: nat)
    requires Inv(c) && a in c.attempts && c.attempts[a].st.Authorizing?
    ensures Inv(TokenArrives(c, a))
  {
    PushOpKeeps(c.l, Sub, c.attempts[a].channel);
    TokenArrivesMoves(c, a);
    assert AttemptOk(c, a);
    MovedKeeps(c, TokenArrives(c, a), a);
  }

  lemma TokenRefusedKeeps(c: Client, a: nat, out: Outcome)
    requires Inv(c) && a in c.attempts && c.attempts[a].st.Authorizing? && !out.Ok?
    ensures Inv(TokenRefused(c, a, out))
  {
    assert AttemptOk(c, a);
    MovedKeeps(c, TokenRefused(c, a, out), a);
  }

  lemma FinallyShape(c: Client, a: nat)
    requires LinkInv(c.l) && a in c.attempts && c.attempts[a].st.Settled?
    ensures var c' := Finally(c, a); LinkInv(c'.l) && Continues(c, c') && SameTasks(c, c')
  {
    var c' := Finally(c, a);
    forall r | r in c.l.recs ensures Carries(c, c', r)
      && c'.l.recs[r] in {c.l.recs[r], c.l.recs[r].(inflight := None)} {
    }
    RecordsKeepLink(c.l, c'.l);
  }

  lemma FinallyAttempt(c: Client, a: nat, b: nat)
    requires Inv(c) && a in c.attempts && c.attempts[a].st.Settled?
    ensures AttemptOk(Finally(c, a), b)
  {
    var c' := Finally(c, a);
    FinallyShape(c, a);
    assert AttemptOk(c, b);
    if b in c.attempts {
      if b != a { ContinuesAttempt(c, c', b); } else { assert Carries(c, c', c.attempts[b].rec); }
    }
  }

  lemma FinallyKeeps(c: Client, a: nat)
    requires Inv(c) && a in c.attempts && c.attempts[a].st.Settled?
    ensures Inv(Finally(c, a))
  {
    var c' := Finally(c, a);
    FinallyShape(c, a);
    TasksKeep(c, c');
    FinallyRest(c, a);
    forall b ensures AttemptOk(c', b) { FinallyAttempt(c, a, b); }
  }

  lemma FinallyRest(c: Client, a: nat)
    requires Inv(c) && a in c.attempts && c.attempts[a].st.Settled?
    ensures Base(Finally(c, a)) && forall n :: NameOk(Finally(c, a), n)
  {
    var c' := Finally(c, a);
    forall r | r in c'.l.recs ensures r < c.next { assert r in c.l.recs; }
    forall n ensures NameOk(c', n) { assert NameOk(c, n); }
  }

  // ----- tasks resume ----------------------------------------------------------------------------------------

  /** #ensureSubscribed leaves the tasks, the names and all but one slot of the record alone. */
  ghost predicate Ensured(c: Client, c': Client, r: nat) {
    && c'.calls == c.calls && c'.handles == c.handles && c'.resubs == c.resubs && c'.restores == c.restores
    && c'.l.channels == c.l.channels && c'.phase == c.phase && c'.epoch == c.epoch && c'.next >= c.next
    && r in c.l.recs && r in c'.l.recs && c'.l.recs[r] == c.l.recs[r].(inflight := c'.l.recs[r].inflight)
  }

  lemma EnsureShape(c: Client, ch: string, r: nat)
    requires r in c.l.recs
    ensures Ensured(c, EnsureSubscribed(c, ch, r).0, r)
  {
  }

  /** The next identity is in use nowhere. */
  lemma NextFresh(c: Client)
    requires Inv(c)
    ensures c.next !in c.resubs.Keys + c.calls.Keys + c.handles.Keys + c.attempts.Keys + c.restores.Keys
  {
    assert ResubOk(c, c.next) && CallOk(c, c.next) && HandleOk(c, c.next) && AttemptOk(c, c.next)
      && RestoreOk(c, c.next);
  }

  lemma EnsureAfterSkip(c: Client, ch: string, r: nat)
    requires Inv(c) && c.phase == Connected && c.Current(ch, r) && r in c.l.recs
    ensures var (c1, w) := EnsureSubscribed(c.(next := c.next + 1), ch, r);
      var holds := Inv(c1) && FreshWait(c1, w, ch, r) && Ensured(c.(next := c.next + 1), c1, r);
      holds
  {
    assert NameOk(c, ch);
    SkipIdKeeps(c);
    EnsureKeeps(c.(next := c.next + 1), ch, r);
    EnsureShape(c.(next := c.next + 1), ch, r);
  }

  /** Starting a #resubscribe of a current record. */
  lemma StartResubKeeps(c: Client, ch: string, r: nat, retries: nat, restore: Option<nat>)
    requires Inv(c) && c.phase == Connected && c.Current(ch, r) && r in c.l.recs
    ensures Inv(StartResub(c, ch, r, retries, restore))
  {
    NextFresh(c);
    EnsureAfterSkip(c, ch, r);
    StartResubJoins(c, EnsureSubscribed(c.(next := c.next + 1), ch, r).0, ch, r, retries, restore);
  }

  lemma StartResubJoins(c: Client, c1: Client, ch: string, r: nat, retries: nat, restore: Option<nat>)
    requires r in c.l.recs && c1 == EnsureSubscribed(c.(next := c.next + 1), ch, r).0
    requires Inv(c1) && Ensured(c.(next := c.next + 1), c1, r) && c.next !in c.resubs && c.Current(ch, r)
    requires FreshWait(c1, EnsureSubscribed(c.(next := c.next + 1), ch, r).1, ch, r)
    ensures Inv(StartResub(c, ch, r, retries, restore))
  {
    StartResubAdds(c, ch, r, retries, restore);
    AddResubKeeps(c1, c.next,
      Resub(ch, r, c.epoch, retries, EnsureSubscribed(c.(next := c.next + 1), ch, r).1, restore));
  }

  lemma AddResubKeeps(c: Client, t: nat, k: Resub)
    requires Inv(c) && t !in c.resubs && t < c.next
    requires c.Current(k.channel, k.rec) && k.epoch == c.epoch && FreshWait(c, k.wait, k.channel, k.rec)
    ensures Inv(c.(resubs := c.resubs[t := k]))
  {
    assert NameOk(c, k.channel);
    PutResubKeeps(c, t, k);
  }

  lemma StartResubAdds(c: Client, ch: string, r: nat, retries: nat, restore: Option<nat>)
    requires r in c.l.recs
    ensures var c1 := EnsureSubscribed(c.(next := c.next + 1), ch, r).0;
      var w := EnsureSubscribed(c.(next := c.next + 1), ch, r).1;
      StartResub(c, ch, r, retries, restore)
        == c1.(resubs := c1.resubs[c.next := Resub(ch, r, c.epoch, retries, w, restore)])
  {
  }

  lemma StartResubShape(c: Client, ch: string, r: nat, retries: nat, restore: Option<nat>)
    requires r in c.l.recs
    ensures var c' := StartResub(c, ch, r, retries, restore);
      && Ensured(c, c'.(resubs := c.resubs), r)
      && c.next in c'.resubs && c'.resubs[c.next].restore == restore
      && c'.resubs[c.next].rec == r && c'.resubs[c.next].epoch == c'.epoch
  {
    EnsureShape(c.(next := c.next + 1), ch, r);
    StartResubAdds(c, ch, r, retries, restore);
  }

  lemma RestoreTakes(c: Client, x: nat, ch: string)
    requires Enabled(c, DoResumeRestore(x)) && c.On(c.restores[x].epoch) && c.l.Has(ch)
    requires c.restores[x].remaining != [] && c.restores[x].remaining[0] == ch
    ensures var k := c.restores[x]; var c1 := StartResub(c, ch, c.l.channels[ch], 0, Some(x));
      ResumeRestore(c, x) == c1.(restores := c1.restores[x := Restore(k.epoch, k.remaining[1..], true)])
  {
  }

  lemma SkipIdKeeps(c: Client)
    requires Inv(c)
    ensures Inv(c.(next := c.next + 1))
  {
    var c' := c.(next := c.next + 1);
    TasksKeep(c, c');
    AttemptsKeep(c, c');
    forall n ensures NameOk(c', n) { assert NameOk(c, n); }
  }

  lemma RetryFiresKeeps(c: Client, r: nat)
    requires Inv(c) && r in c.l.recs && c.l.recs[r].retry.Some?
    ensures Inv(RetryFires(c, r))
  {
    var rec := c.l.recs[r];
    if c.On(rec.retry.value.epoch) && c.Current(rec.channel, r) {
      StartResubKeeps(c, rec.channel, r, rec.retry.value.retries, None);
      StartResubShape(c, rec.channel, r, rec.retry.value.retries, None);
      var c1 := StartResub(c, rec.channel, r, rec.retry.value.retries, None);
      TouchKeeps(c1, r, c1.l.recs[r].(retry := None));
    } else {
      StaleRetryKeeps(c, r);
    }
  }

  /** A timer that no longer applies covers nothing. */
  lemma StaleRetryKeeps(c: Client, r: nat)
    requires Inv(c) && r in c.l.recs && c.l.recs[r].retry.Some?
    requires !(c.On(c.l.recs[r].retry.value.epoch) && c.Current(c.l.recs[r].channel, r))
    ensures Inv(ArmRetry(c, r, None))
  {
    var c' := ArmRetry(c, r, None);
    RecordsKeepLink(c.l, c'.l);
    TasksKeep(c, c');
    AttemptsKeep(c, c');
    forall n ensures NameOk(c', n) { StaleRetryName(c, r, n); }
  }

  lemma StaleRetryName(c: Client, r: nat, n: string)
    requires Inv(c) && r in c.l.recs && c.l.recs[r].retry.Some?
    requires !(c.On(c.l.recs[r].retry.value.epoch) && c.Current(c.l.recs[r].channel, r))
    ensures NameOk(ArmRetry(c, r, None), n)
  {
    assert NameOk(c, n);
    var c' := ArmRetry(c, r, None);
    if n in c.l.channels {
      assert Resubscribing(c, c.l.channels[n]) ==> Resubscribing(c', c.l.channels[n]);
      assert Listed(c, n) ==> Listed(c', n);
    }
  }

  /** What the outcome a #resubscribe woke up with says about its record. */
  lemma WokenResub(c: Client, t: nat)
    requires Inv(c) && t in c.resubs && Reached(c, c.resubs[t].wait).Some?
    ensures var k := c.resubs[t];
      c.On(k.epoch) && c.l.open && c.Current(k.channel, k.rec) && !Transient(Reached(c, k.wait).value) ==>
        IsConfirmed(c, k.rec) || k.rec in c.abandoned
  {
    assert ResubOk(c, t);
    var k := c.resubs[t];
    if k.wait.On? { assert AttemptOk(c, k.wait.attempt); }
  }

  lemma UnretriedKeeps(c: Client, t: nat)
    requires Inv(c) && t in c.resubs && Reached(c, c.resubs[t].wait).Some? && !RetryDue(c, t)
    ensures Inv(FinishResub(c, t))
  {
    WokenResub(c, t);
    FinishResubKeeps(c, t);
  }

  lemma ResumeResubKeeps(c: Client, t: nat)
    requires Inv(c) && t in c.resubs && c.resubs[t].rec in c.l.recs && Reached(c, c.resubs[t].wait).Some?
    ensures Inv(ResumeResub(c, t))
  {
    ResumedResub(c, t);
    if RetryDue(c, t) { RetriedKeeps(c, t, Some(Retry(c.resubs[t].epoch, c.resubs[t].retries + 1))); }
    else { UnretriedKeeps(c, t); }
  }

  lemma ResumedResub(c: Client, t: nat)
    requires t in c.resubs && c.resubs[t].rec in c.l.recs && Reached(c, c.resubs[t].wait).Some?
    ensures var k := c.resubs[t];
      ResumeResub(c, t) == FinishResub(if RetryDue(c, t) then ArmRetry(c, k.rec, Some(Retry(k.epoch, k.retries + 1)))
        else c, t)
  {
  }

  lemma RetriedKeeps(c: Client, t: nat, retry: Option<Retry>)
    requires Inv(c) && t in c.resubs && c.resubs[t].rec in c.l.recs
    requires c.On(c.resubs[t].epoch) && retry.Some? && retry.value.epoch == c.epoch
    ensures Inv(FinishResub(ArmRetry(c, c.resubs[t].rec, retry), t))
  {
    var r := c.resubs[t].rec;
    TouchKeeps(c, r, c.l.recs[r].(retry := retry));
    FinishResubKeeps(ArmRetry(c, r, retry), t);
  }

  /** A list may be replaced when each name that leaves it is being resubscribed or is gone. */
  lemma PutRestoreKeeps(c: Client, x: nat, k: Restore)
    requires Inv(c) && x in c.restores && k.epoch == c.restores[x].epoch
    requires k.busy ==> exists t :: t in c.resubs && c.resubs[t].restore == Some(x)
    requires forall n :: n in c.restores[x].remaining && n !in k.remaining && n in c.l.channels ==>
      Resubscribing(c, c.l.channels[n])
    ensures Inv(c.(restores := c.restores[x := k]))
  {
    var c' := c.(restores := c.restores[x := k]);
    OnlyTasksChange(c, c');
    forall u ensures CallOk(c', u) { ContinuesCall(c, c', u); }
    forall h ensures HandleOk(c', h) { assert HandleOk(c, h); ContinuesHandle(c, c', h); }
    forall u ensures ResubOk(c', u) { ContinuesResub(c, c', u); }
    forall y ensures RestoreOk(c', y) { assert RestoreOk(c, y); }
    forall n ensures NameOk(c', n) { PutRestoreName(c, x, k, n); }
  }

  lemma PutRestoreName(c: Client, x: nat, k: Restore, n: string)
    requires NameOk(c, n) && x in c.restores && k.epoch == c.restores[x].epoch
    requires forall m :: m in c.restores[x].remaining && m !in k.remaining && m in c.l.channels ==>
      Resubscribing(c, c.l.channels[m])
    ensures NameOk(c.(restores := c.restores[x := k]), n)
  {
    var c' := c.(restores := c.restores[x := k]);
    if n in c.l.channels {
      assert Resubscribing(c, c.l.channels[n]) ==> Resubscribing(c', c.l.channels[n]);
      if Listed(c, n) && !Resubscribing(c, c.l.channels[n]) {
        var y :| y in c.restores && c.restores[y].epoch == c.epoch && n in c.restores[y].remaining;
        assert n in c'.restores[y].remaining;
      }
    }
  }

  /** A list that is finished or stale may go. */
  lemma DropRestoreKeeps(c: Client, x: nat)
    requires Inv(c) && x in c.restores && (c.restores[x].remaining == [] || !c.On(c.restores[x].epoch))
    ensures Inv(c.(restores := c.restores - {x}))
  {
    var c' := c.(restores := c.restores - {x});
    OnlyTasksChange(c, c');
    forall u ensures CallOk(c', u) { ContinuesCall(c, c', u); }
    forall h ensures HandleOk(c', h) { assert HandleOk(c, h); ContinuesHandle(c, c', h); }
    forall u ensures ResubOk(c', u) { ContinuesResub(c, c', u); }
    forall y ensures RestoreOk(c', y) { assert RestoreOk(c, y); }
    forall n ensures NameOk(c', n) { DropRestoreName(c, x, n); }
  }

  lemma DropRestoreName(c: Client, x: nat, n: string)
    requires Inv(c) && x in c.restores && (c.restores[x].remaining == [] || !c.On(c.restores[x].epoch))
    ensures NameOk(c.(restores := c.restores - {x}), n)
  {
    var c' := c.(restores := c.restores - {x});
    assert NameOk(c, n);
    if n in c.l.channels {
      assert Resubscribing(c, c.l.channels[n]) ==> Resubscribing(c', c.l.channels[n]);
      if Listed(c, n) && c.phase == Connected {
        var y :| y in c.restores && c.restores[y].epoch == c.epoch && n in c.restores[y].remaining;
        assert y != x && n in c'.restores[y].remaining;
      }
    }
  }

  lemma ResumeRestoreKeeps(c: Client, x: nat)
    requires Inv(c) && x in c.restores && !c.restores[x].busy
    requires forall ch :: ch in c.l.channels ==> c.l.Has(ch)
    ensures Inv(ResumeRestore(c, x))
  {
    var k := c.restores[x];
    assert RestoreOk(c, x);
    if k.remaining == [] || !c.On(k.epoch) {
      DropRestoreKeeps(c, x);
    } else {
      var ch := k.remaining[0];
      var k1 := k.(remaining := k.remaining[1..]);
      assert k.remaining == [ch] + k1.remaining;
      if ch !in c.l.channels {
        PutRestoreKeeps(c, x, k1);
      } else {
        StartResubKeeps(c, ch, c.l.channels[ch], 0, Some(x));
        StartResubShape(c, ch, c.l.channels[ch], 0, Some(x));
        PutRestoreKeeps(StartResub(c, ch, c.l.channels[ch], 0, Some(x)), x, k1.(busy := true));
      }
    }
  }

  // ----- subscribe() and unsubscribe() ------------------------------------------------------------------------

  lemma AddCallKeeps(c: Client, t: nat, k: Call)
    requires Inv(c) && t !in c.handles && t < c.next
    requires c.Current(k.channel, k.rec) && k.epoch == c.epoch && k.passes <= k.epoch
      && FreshWait(c, k.wait, k.channel, k.rec)
    requires k.handler && k.rec in c.l.recs ==> t in c.l.recs[k.rec].handlers
    ensures Inv(c.(calls := c.calls[t := k]))
  {
    assert NameOk(c, k.channel);
    PutCallKeeps(c, t, k);
  }

  /** What joining does: one name, one record, one handler. */
  ghost predicate Joins(c: Client, c': Client, ch: string, handler: bool) {
    && c'.l.Has(ch) && c'.l.recs[c'.l.channels[ch]].channel == ch
    && (handler ==> c.next in c'.l.recs[c'.l.channels[ch]].handlers)
    && (forall r :: r in c'.l.recs ==> r < c'.next)
    && (forall n :: n in c.l.channels && n != ch ==>
          n in c'.l.channels && c'.l.channels[n] == c.l.channels[n] && c.l.channels[n] in c.l.recs
            && c.l.channels[n] in c'.l.recs
          && c'.l.recs[c.l.channels[n]] == c.l.recs[c.l.channels[n]])
    && (var r := c'.l.channels[ch];
        if ch in c.l.channels then c.Current(ch, r) && r in c.l.recs
          && c'.l.recs[r] == c.l.recs[r].(handlers := c'.l.recs[r].handlers)
        else r == c.next + 1 && c'.l.recs[r] == Record(ch, c'.l.recs[r].handlers, false, None, None, None))
  }

  lemma JoinedJoins(c: Client, ch: string, handler: bool)
    requires NamesResolve(c.l) && (forall r :: r in c.l.recs ==> r < c.next)
    ensures Joins(c, Joined(c, ch, handler), ch, handler)
    ensures NamesResolve(Joined(c, ch, handler).l)
    ensures forall n :: c.l.Confirmed(n) ==> Joined(c, ch, handler).l.Confirmed(n)
  {
    forall n | n in c.l.channels && n != ch ensures ch in c.l.channels ==> c.l.channels[n] != c.l.channels[ch] {
      assert c.l.recs[c.l.channels[n]].channel == n;
    }
  }

  lemma JoinedShape(c: Client, ch: string, handler: bool)
    requires LinkInv(c.l) && (forall r :: r in c.l.recs ==> r < c.next)
    ensures LinkInv(Joined(c, ch, handler).l)
    ensures Continues(c, Joined(c, ch, handler)) && SameTasks(c, Joined(c, ch, handler))
    ensures Joins(c, Joined(c, ch, handler), ch, handler)
  {
    JoinedJoins(c, ch, handler);
    RecordChangeKeeps(c.l, Joined(c, ch, handler).l);
  }

  lemma JoinedName(c: Client, ch: string, handler: bool, n: string)
    requires Inv(c) && c.phase == Connected
    ensures NameOk(Joined(c, ch, handler), n)
  {
    var c' := Joined(c, ch, handler);
    JoinedShape(c, ch, handler);
    assert NameOk(c, n);
    if n in c.l.channels {
      ContinuesName(c, c', n);
    }
  }

  lemma JoinedNames(c: Client, ch: string, handler: bool)
    requires Inv(c) && c.phase == Connected
    ensures forall n :: NameOk(Joined(c, ch, handler), n)
  {
    forall n ensures NameOk(Joined(c, ch, handler), n) { JoinedName(c, ch, handler, n); }
  }

  lemma JoinedKeeps(c: Client, ch: string, handler: bool)
    requires Inv(c) && c.phase == Connected
    ensures Inv(Joined(c, ch, handler))
  {
    var c' := Joined(c, ch, handler);
    JoinedShape(c, ch, handler);
    TasksKeep(c, c');
    AttemptsKeep(c, c');
    JoinedNames(c, ch, handler);
    forall n ensures NameOk(c', n) {}
  }

  lemma AddHandleKeeps(c: Client, t: nat, k: Handle)
    requires Inv(c) && t < c.next && t !in c.calls && c.Current(k.channel, k.rec) && IsConfirmed(c, k.rec)
    requires k.handler ==> t in c.l.recs[k.rec].handlers
    ensures Inv(c.(handles := c.handles[t := k]))
  {
    assert NameOk(c, k.channel);
    assert c.calls - {t} == c.calls;
    CallReturnsKeeps(c, t, k);
  }

  lemma SubscribeKeeps(c: Client, ch: string, handler: bool)
    requires Inv(c) && c.phase == Connected && (c.l.Has(ch) || ch !in c.l.channels)
    ensures Inv(Subscribe(c, ch, handler))
  {
    NextFresh(c);
    JoinedShape(c, ch, handler);
    JoinedKeeps(c, ch, handler);
    SubscribeJoins(c, Joined(c, ch, handler), ch, handler);
  }

  lemma SubscribeJoins(c: Client, c1: Client, ch: string, handler: bool)
    requires (c.l.Has(ch) || ch !in c.l.channels) && c1 == Joined(c, ch, handler) && Inv(c1) && c.phase == Connected
    requires c.next !in c.calls && c.next !in c.handles && c1.l.Has(ch)
    requires handler ==> c.next in c1.l.recs[c1.l.channels[ch]].handlers
    ensures Inv(Subscribe(c, ch, handler))
  {
    var r := c1.l.channels[ch];
    if c1.l.recs[r].confirmed {
      AddHandleKeeps(c1, c.next, Handle(ch, r, handler, true));
    } else {
      EnsureKeeps(c1, ch, r);
      EnsureShape(c1, ch, r);
      var (c2, w) := EnsureSubscribed(c1, ch, r);
      AddCallKeeps(c2, c.next, Call(ch, r, handler, c.epoch, 0, w));
    }
  }

  /** What the outcome a subscribe() woke up with says about its record. */
  lemma WokenCall(c: Client, t: nat)
    requires Inv(c) && t in c.calls && Reached(c, c.calls[t].wait).Some?
    ensures !Inv(c) ||
      (var k := c.calls[t];
       && Known(c, k.channel, k.rec) && t < c.next && t !in c.handles
       && (k.handler && c.Current(k.channel, k.rec) ==> t in c.l.recs[k.rec].handlers)
       && (Reached(c, k.wait).value.Ok? && c.phase == Connected && k.rec >= c.mark && c.Current(k.channel, k.rec) ==>
             IsConfirmed(c, k.rec)))
  {
    assert CallOk(c, t) && HandleOk(c, t);
    var k := c.calls[t];
    if k.wait.On? { assert AttemptOk(c, k.wait.attempt); }
  }

  lemma RemoveCallKeeps(c: Client, t: nat)
    requires Inv(c)
    ensures Inv(c.(calls := c.calls - {t}))
  {
    var c' := c.(calls := c.calls - {t});
    OnlyTasksChange(c, c');
    forall u ensures CallOk(c', u) { ContinuesCall(c, c', u); }
    forall h ensures HandleOk(c', h) { assert HandleOk(c, h); ContinuesHandle(c, c', h); }
    forall u ensures ResubOk(c', u) { ContinuesResub(c, c', u); }
    forall x ensures RestoreOk(c', x) { assert RestoreOk(c, x); }
    forall n ensures NameOk(c', n) { assert NameOk(c, n); }
  }

  lemma DropHandlerKeeps(c: Client, r: nat, handler: bool, t: nat)
    requires Inv(c) && r in c.l.recs && t !in c.calls
    requires t in c.handles ==> !c.handles[t].active
    ensures Inv(DropHandler(c, r, handler, t))
  {
    if handler { TouchKeeps(c, r, c.l.recs[r].(handlers := c.l.recs[r].handlers - {t})); }
  }

  /** A record of a closed connection holds no timer; a dead record is not looked at again. */
  lemma ForgetNameKeeps(c: Client, ch: string)
    requires Inv(c) && ch in c.l.channels && c.l.Has(ch) && !c.l.Confirmed(ch)
    ensures Inv(c.(l := Forget(c.l, ch, None)))
  {
    ForgetUnconfirmedKeeps(c.l, ch, None);
    ForgetKeeps(c, Forget(c.l, ch, None), ch);
  }

  lemma ReleaseNameKeeps(c: Client, ch: string)
    requires Inv(c) && ch in c.l.channels && c.l.Has(ch) && c.phase == Connected
    ensures Inv(c.(l := ReleaseLast(c.l, ch)))
  {
    ReleaseKeeps(c.l, ch);
    ForgetKeeps(c, ReleaseLast(c.l, ch), ch);
  }

  lemma FailCallKeeps(c: Client, t: nat)
    requires Inv(c) && t in c.calls && c.calls[t].rec in c.l.recs
    ensures Inv(FailCall(c, t))
  {
    var k := c.calls[t];
    assert CallOk(c, t) && HandleOk(c, t);
    var c0 := c.(calls := c.calls - {t});
    RemoveCallKeeps(c, t);
    DropHandlerKeeps(c0, k.rec, k.handler, t);
    FailCallEnds(c, DropHandler(c0, k.rec, k.handler, t), t);
  }

  lemma FailCallEnds(c: Client, c1: Client, t: nat)
    requires t in c.calls && c.calls[t].rec in c.l.recs && Known(c, c.calls[t].channel, c.calls[t].rec)
    requires c1 == DropHandler(c.(calls := c.calls - {t}), c.calls[t].rec, c.calls[t].handler, t) && Inv(c1)
    ensures Inv(FailCall(c, t))
  {
    var k := c.calls[t];
    if c.Current(k.channel, k.rec) && !c1.l.recs[k.rec].confirmed && c1.l.recs[k.rec].handlers == {} {
      ForgetNameKeeps(c1, k.channel);
    }
  }

  lemma AdoptKeeps(c: Client, t: nat)
    requires Inv(c) && t in c.calls && c.phase == Connected && c.epoch != c.calls[t].epoch
      && c.Current(c.calls[t].channel, c.calls[t].rec)
    requires c.calls[t].rec in c.l.recs
    ensures Inv(Adopt(c, t))
  {
    var k := c.calls[t];
    assert CallOk(c, t) && HandleOk(c, t);
    EnsureKeeps(c, k.channel, k.rec);
    EnsureShape(c, k.channel, k.rec);
    AdoptJoins(c, EnsureSubscribed(c, k.channel, k.rec).0, t);
  }

  lemma AdoptJoins(c: Client, c1: Client, t: nat)
    requires t in c.calls && c.calls[t].rec in c.l.recs && t < c.next && t !in c.handles
    requires var k := c.calls[t];
      && c1 == EnsureSubscribed(c, k.channel, k.rec).0 && Inv(c1) && Ensured(c, c1, k.rec)
      && FreshWait(c1, EnsureSubscribed(c, k.channel, k.rec).1, k.channel, k.rec)
      && c.Current(k.channel, k.rec) && k.passes <= k.epoch < c.epoch && (k.handler ==> t in c.l.recs[k.rec].handlers)
    ensures Inv(Adopt(c, t))
  {
    var k := c.calls[t];
    AddCallKeeps(c1, t, k.(epoch := c.epoch, passes := k.passes + 1, wait := EnsureSubscribed(c, k.channel, k.rec).1));
  }

  lemma CallSucceedsKeeps(c: Client, t: nat)
    requires Inv(c) && t in c.calls && Reached(c, c.calls[t].wait) == Some(Ok)
    ensures var k := c.calls[t];
      Inv(c.(calls := c.calls - {t}, handles := c.handles[t := Handle(k.channel, k.rec, k.handler, true)]))
  {
    var k := c.calls[t];
    WokenCall(c, t);
    CallReturnsKeeps(c, t, Handle(k.channel, k.rec, k.handler, true));
  }

  lemma ResumeCallKeeps(c: Client, t: nat)
    requires Inv(c) && t in c.calls && c.calls[t].rec in c.l.recs && Reached(c, c.calls[t].wait).Some?
    ensures Inv(ResumeCall(c, t))
  {
    var k := c.calls[t];
    var out := Reached(c, k.wait).value;
    if out.Ok? { CallSucceedsKeeps(c, t); }
    else if out.ConnClosed? && c.phase == Connected && c.epoch != k.epoch
      && c.Current(k.channel, k.rec) { AdoptKeeps(c, t); }
    else { FailCallKeeps(c, t); }
  }

  lemma DeactivateKeeps(c: Client, h: nat)
    requires Inv(c) && h in c.handles
    ensures Inv(c.(handles := c.handles[h := c.handles[h].(active := false)]))
  {
    assert HandleOk(c, h);
    assert c.calls - {h} == c.calls;
    CallReturnsKeeps(c, h, c.handles[h].(active := false));
  }

  lemma UnsubscribeKeeps(c: Client, h: nat)
    requires Inv(c) && h in c.handles && c.handles[h].rec in c.l.recs
    ensures Inv(Unsubscribe(c, h))
  {
    var k := c.handles[h];
    assert HandleOk(c, h);
    var c1 := c.(handles := c.handles[h := k.(active := false)]);
    DeactivateKeeps(c, h);
    DropHandlerKeeps(c1, k.rec, k.handler, h);
    UnsubscribeEnds(c, DropHandler(c1, k.rec, k.handler, h), h);
  }

  lemma UnsubscribeEnds(c: Client, c2: Client, h: nat)
    requires h in c.handles && c.handles[h].rec in c.l.recs && Known(c, c.handles[h].channel, c.handles[h].rec)
    requires c2 == DropHandler(c.(handles := c.handles[h := c.handles[h].(active := false)]), c.handles[h].rec,
      c.handles[h].handler, h)
    requires Inv(c2) && Inv(c.(handles := c.handles[h := c.handles[h].(active := false)]))
    ensures Inv(Unsubscribe(c, h))
  {
    var k := c.handles[h];
    if k.active && c.Current(k.channel, k.rec) && c2.l.recs[k.rec].handlers == {} {
      assert NameOk(c2, k.channel);
      if c.phase == Connected { ReleaseNameKeeps(c2, k.channel); } else { ForgetNameKeeps(c2, k.channel); }
    }
  }

  // ----- connection lifecycle ---------------------------------------------------------------------------------

  lemma SocketClosesKeeps(c: Client)
    requires Inv(c)
    ensures Inv(c.(l := c.l.(open := false)))
  {
    var c' := c.(l := c.l.(open := false));
    TasksKeep(c, c');
    AttemptsKeep(c, c');
    NamesKeep(c, c');
  }

  lemma DialKeeps(c: Client, phase: Phase)
    requires Inv(c) && c.phase != Connected && phase != Connected
    ensures Inv(c.(phase := phase, dialed := true, ws := c.ws + 1))
  {
    var c' := c.(phase := phase, dialed := true, ws := c.ws + 1);
    forall a ensures AttemptOk(c', a) { assert AttemptOk(c, a); }
    forall t ensures CallOk(c', t) { assert CallOk(c, t); }
    forall t ensures ResubOk(c', t) { assert ResubOk(c, t); }
    forall x ensures RestoreOk(c', x) { assert RestoreOk(c, x); }
    forall h ensures HandleOk(c', h) { assert HandleOk(c, h); }
    forall n ensures NameOk(c', n) { assert NameOk(c, n); }
  }

  lemma HelloName(c: Client, sid: nat, order: seq<string>, n: string)
    requires NameOk(c, n) && c.phase != Connected && (forall ch :: ch in order <==> ch in c.l.channels)
    requires c.next !in c.restores && (!c.ever ==> c.l.channels == map[])
    ensures NameOk(Hello(c, sid, order), n)
  {
    var c' := Hello(c, sid, order);
    if n in c.l.channels {
      assert c'.restores[c.next].remaining == order;
      assert Listed(c', n);
    }
  }

  /** Tasks and attempts of earlier connections promise nothing about the new one. */
  lemma HelloTasks(c: Client, sid: nat, order: seq<string>)
    requires Inv(c) && c.phase != Connected && c.next !in c.restores
    ensures TasksOk(Hello(c, sid, order))
  {
    var c' := Hello(c, sid, order);
    forall t ensures CallOk(c', t) { assert CallOk(c, t); }
    forall t ensures ResubOk(c', t) { assert ResubOk(c, t); }
    forall x ensures RestoreOk(c', x) { assert RestoreOk(c, x); }
    forall h ensures HandleOk(c', h) { assert HandleOk(c, h); }
  }

  lemma HelloKeeps(c: Client, sid: nat, order: seq<string>)
    requires Inv(c) && c.phase != Connected && c.dialed && (forall ch :: ch in order <==> ch in c.l.channels)
    ensures Inv(Hello(c, sid, order))
  {
    var c' := Hello(c, sid, order);
    NextFresh(c);
    HelloTasks(c, sid, order);
    forall a ensures AttemptOk(c', a) { assert AttemptOk(c, a); }
    forall n ensures NameOk(c', n) { assert NameOk(c, n); HelloName(c, sid, order, n); }
  }

  /** A link whose named records were reset or whose names are gone. */
  ghost predicate Ended(l: Link, l': Link) {
    && l'.recs.Keys == l.recs.Keys
    && (forall r :: r in l.recs ==> l'.recs[r].channel == l.recs[r].channel)
    && (forall ch :: ch in l'.channels ==> ch in l.channels && l'.channels[ch] == l.channels[ch])
    && (forall ch :: ch in l'.channels ==>
      l'.channels[ch] in l.recs && l'.recs[l'.channels[ch]] == ResetRecord(l.recs[l'.channels[ch]]))
  }

  /** The attempts of a dropped connection: whatever waited for an ack was rejected. */
  ghost predicate AllRejected(m: map<nat, Attempt>, m': map<nat, Attempt>) {
    && m'.Keys == m.Keys
    && forall a :: a in m ==> m'[a] == if m[a].st.Waiting? then m[a].(st := Settled(ConnClosed)) else m[a]
  }

  lemma DisconnectRejects(c: Client, phase: Phase, l: Link)
    requires forall a :: AttemptOk(c, a)
    ensures AllRejected(c.attempts, Disconnect(c, phase, l).attempts)
  {
    forall a | a in c.attempts
      ensures c.attempts[a].st.Waiting? ==> Op(c.attempts[a].st.op, Sub, c.attempts[a].channel) in c.l.pending
    {
      assert AttemptOk(c, a);
    }
  }

  lemma DisconnectKeeps(c: Client, phase: Phase, l: Link)
    requires Inv(c) && phase != Connected && Ended(c.l, l)
    ensures Inv(Disconnect(c, phase, l))
  {
    DisconnectRejects(c, phase, l);
    forall ch | ch in l.channels ensures l.recs[l.channels[ch]].channel == ch {
      assert c.l.recs[c.l.channels[ch]].channel == ch;
    }
    OffKeeps(c, Disconnect(c, phase, l));
  }

  lemma OffKeeps(c: Client, c': Client)
    requires Inv(c) && c'.phase != Connected && Ended(c.l, c'.l) && LinkInv(c'.l) && c'.l == Cut(c'.l)
    requires AllRejected(c.attempts, c'.attempts)
    requires c' == c.(phase := c'.phase, dialed := false, socket := None, l := c'.l, attempts := c'.attempts)
    ensures Inv(c')
  {
    OffTasks(c, c');
    forall a ensures AttemptOk(c', a) { assert AttemptOk(c, a); }
    forall n ensures NameOk(c', n) { assert NameOk(c, n); }
  }

  lemma OffTasks(c: Client, c': Client)
    requires Inv(c) && c'.phase != Connected && Ended(c.l, c'.l) && AllRejected(c.attempts, c'.attempts)
    requires c' == c.(phase := c'.phase, dialed := false, socket := None, l := c'.l, attempts := c'.attempts)
    ensures TasksOk(c')
  {
    forall t ensures CallOk(c', t) { assert CallOk(c, t); }
    forall t ensures ResubOk(c', t) { assert ResubOk(c, t); }
    forall x ensures RestoreOk(c', x) { assert RestoreOk(c, x); }
    forall h ensures HandleOk(c', h) { assert HandleOk(c, h); }
  }

  lemma DropKeeps(c: Client, canRetry: bool)
    requires Inv(c)
    ensures Inv(Drop(c, canRetry))
  {
    if canRetry { DisconnectKeeps(c, Reconnecting, ResetRecords(c.l)); }
    else { DisconnectKeeps(c, Closed, ClearRecords(ResetRecords(c.l))); }
  }

  lemma CloseKeeps(c: Client)
    requires Inv(c)
    ensures Inv(Close(c))
  {
    DisconnectKeeps(c, Closed, ClearRecords(c.l));
  }

  // ----- every step, every run ------------------------------------------------------------------------------------

  predicate OfConnection(act: Action) {
    act.DoConnect? || act.DoDial? || act.DoHello? || act.SocketCloses? || act.DoDrop? || act.DoClose? || act.TimesOut?
    || act.DoServe? || act.DoDeliver?
  }

  lemma ConnectionStepKeeps(c: Client, act: Action)
    requires Inv(c) && Enabled(c, act) && OfConnection(act)
    ensures Inv(Step(c, act))
  {
    match act
    case DoConnect => DialKeeps(c, Connecting);
    case DoDial => DialKeeps(c, Reconnecting);
    case DoHello(sid, order) => HelloKeeps(c, sid, order);
    case SocketCloses => SocketClosesKeeps(c);
    case DoDrop(canRetry) => DropKeeps(c, canRetry);
    case DoClose => CloseKeeps(c);
    case TimesOut(op) => TimesOutKeeps(c, op);
    case DoServe(verdict, lost) => DoServeKeeps(c, verdict, lost);
    case DoDeliver => DeliverKeeps(c);
  }

  lemma StepKeeps(c: Client, act: Action)
    requires Inv(c) && Enabled(c, act)
    ensures Inv(Step(c, act))
  {
    match act
    case DoSubscribe(ch, handler) => SubscribeKeeps(c, ch, handler);
    case DoUnsubscribe(h) => UnsubscribeKeeps(c, h);
    case Authorized(a) => TokenArrivesKeeps(c, a);
    case AuthorizeFails(a, out) => TokenRefusedKeeps(c, a, out);
    case RunFinally(a) => FinallyKeeps(c, a);
    case DoResumeCall(t) => ResumeCallKeeps(c, t);
    case DoResumeResub(t) => ResumeResubKeeps(c, t);
    case DoResumeRestore(x) => ResumeRestoreKeeps(c, x);
    case DoRetryFires(r) => RetryFiresKeeps(c, r);
    case _ => ConnectionStepKeeps(c, act);
  }

  /** `run` is a sequence of states from START, each the previous one after an enabled action. */
  ghost predicate IsRun(run: seq<Client>, acts: seq<Action>) {
    && |run| == |acts| + 1 && run[0] == START
    && forall i :: 0 <= i < |acts| ==> Enabled(run[i], acts[i]) && run[i + 1] == Step(run[i], acts[i])
  }

  lemma {:induction false} RunKeeps(run: seq<Client>, acts: seq<Action>, n: nat)
    requires IsRun(run, acts) && n < |run|
    ensures forall i :: 0 <= i <= n ==> Inv(run[i])
  {
    if n == 0 { StartInv(); }
    else {
      RunKeeps(run, acts, n - 1);
      StepKeeps(run[n - 1], acts[n - 1]);
    }
  }

  /** The actions `acts`, each enabled in its turn, take c to c'. */
  ghost predicate Leads(c: Client, acts: seq<Action>, c': Client)
    decreases |acts|
  {
    if acts == [] then c' == c
    else Enabled(c, acts[0]) && Leads(Step(c, acts[0]), acts[1..], c')
  }

  lemma LeadsFirst(c: Client, act: Action, acts: seq<Action>, c': Client)
    requires Enabled(c, act) && Leads(Step(c, act), acts, c')
    ensures Leads(c, [act] + acts, c')
  {
    assert ([act] + acts)[1..] == acts;
  }

  lemma HeadOf(acts: seq<Action>, more: seq<Action>)
    requires acts != []
    ensures acts + more == [acts[0]] + (acts[1..] + more)
  {
  }

  lemma {:induction false} LeadsOn(c: Client, acts: seq<Action>, c': Client, more: seq<Action>, c'': Client)
    requires Leads(c, acts, c') && Leads(c', more, c'')
    ensures Leads(c, acts + more, c'')
    decreases |acts|
  {
    if acts == [] { assert acts + more == more; }
    else {
      HeadOf(acts, more);
      LeadsOn(Step(c, acts[0]), acts[1..], c', more, c'');
      LeadsFirst(c, acts[0], acts[1..] + more, c'');
    }
  }

  lemma {:induction false} LeadsKeeps(c: Client, acts: seq<Action>, c': Client)
    requires Inv(c) && Leads(c, acts, c')
    ensures Inv(c')
    decreases |acts|
  {
    if acts != [] {
      StepKeeps(c, acts[0]);
      LeadsKeeps(Step(c, acts[0]), acts[1..], c');
    }
  }

  // ----- what subscribe() comes to -------------------------------------------------------------------------------

  /** The call's own record, with its handler, and the channel's. */
  ghost predicate Registers(c: Client, ch: string, t: nat, handler: bool) {
    c.l.Has(ch) && (handler ==> t in c.l.recs[c.l.channels[ch]].handlers)
  }

  /** Call t awaits the attempt that is in flight for the channel's record. */
  ghost predicate Awaits(c: Client, ch: string, t: nat, handler: bool) {
    && t in c.calls && c.Current(ch, c.calls[t].rec) && c.calls[t].rec in c.l.recs
    && c.calls[t].channel == ch && c.calls[t].handler == handler && c.calls[t].wait.On?
    && c.l.recs[c.calls[t].rec].inflight == Some(c.calls[t].wait.attempt)
  }

  lemma EnsureAwaits(c: Client, ch: string, r: nat)
    requires r in c.l.recs && !c.l.recs[r].confirmed
    ensures var (c', w) := EnsureSubscribed(c, ch, r); w.On? && c'.l.recs[r].inflight == Some(w.attempt)
  {
  }

  lemma JoinedRegisters(c: Client, ch: string, handler: bool)
    requires c.l.Has(ch) || ch !in c.l.channels
    ensures var c' := Joined(c, ch, handler);
      && Registers(c', ch, c.next, handler) && (c.l.Has(ch) ==> c'.l.channels == c.l.channels)
      && (c'.l.Confirmed(ch) <==> c.l.Confirmed(ch))
      && c'.handles == c.handles && c'.calls == c.calls && c'.attempts == c.attempts
  {
  }

  /** How subscribe() begins: the caller's handler is registered, and it has its handle at once if the
      channel is confirmed and awaits the attempt of its record otherwise. */
  lemma SubscribeStarts(c: Client, ch: string, handler: bool)
    requires Enabled(c, DoSubscribe(ch, handler))
    ensures var c', t := Subscribe(c, ch, handler), c.next;
      && Registers(c', ch, t, handler) && (c.l.Has(ch) ==> c'.l.channels == c.l.channels)
      && if c.l.Confirmed(ch) then c'.handles == c.handles[t := Handle(ch, c'.l.channels[ch], handler, true)]
         else Awaits(c', ch, t, handler)
  {
    var c1 := Joined(c, ch, handler);
    JoinedRegisters(c, ch, handler);
    if !c.l.Confirmed(ch) {
      EnsureShape(c1, ch, c1.l.channels[ch]);
      EnsureAwaits(c1, ch, c1.l.channels[ch]);
    }
  }

  lemma AdoptShape(c: Client, t: nat)
    requires t in c.calls && c.calls[t].rec in c.l.recs
    ensures var c', k := Adopt(c, t), c.calls[t];
      && c'.calls.Keys == c.calls.Keys && t in c'.calls
      && c'.calls[t].epoch == c.epoch && c'.calls[t].rec == k.rec && c'.calls[t].handler == k.handler
      && (forall u :: u in c.calls && u != t ==> c'.calls[u] == c.calls[u])
      && c'.handles == c.handles
  {
    EnsureShape(c, c.calls[t].channel, c.calls[t].rec);
  }

  lemma FailCallShape(c: Client, t: nat)
    requires t in c.calls && c.calls[t].rec in c.l.recs
    ensures var c', k := FailCall(c, t), c.calls[t];
      && c'.calls == c.calls - {t} && c'.handles == c.handles
      && k.rec in c'.l.recs && (k.handler ==> t !in c'.l.recs[k.rec].handlers)
  {
  }

  /** The handle is handed out, and nothing else moves. */
  ghost predicate HandsOut(c: Client, c': Client, t: nat)
    requires t in c.calls
  {
    var k := c.calls[t];
    c' == c.(calls := c.calls - {t}, handles := c.handles[t := Handle(k.channel, k.rec, k.handler, true)])
  }

  /** The connection was cut under call t, and a newer one is there for the same record. */
  predicate CutShort(c: Client, t: nat)
    requires t in c.calls && Reached(c, c.calls[t].wait).Some?
  {
    var k := c.calls[t];
    Reached(c, k.wait).value == ConnClosed && c.phase == Connected && c.epoch != k.epoch && c.Current(k.channel, k.rec)
  }

  /** The caller of subscribe() gets an active handle exactly when what it awaits has ended well. Any other
      way it gets none: it awaits the newer connection's attempt exactly when it was cut short, and
      otherwise has its handler taken off again by the throw. */
  lemma CallReturns(c: Client, t: nat)
    requires Enabled(c, DoResumeCall(t))
    ensures var c', k := Step(c, DoResumeCall(t)), c.calls[t];
      if Reached(c, k.wait) == Some(Ok) then HandsOut(c, c', t)
      else
        && c'.handles == c.handles
        && (t in c'.calls <==> CutShort(c, t))
        && (t in c'.calls ==>
              c'.calls[t].epoch == c.epoch && c'.calls[t].rec == k.rec && c'.calls[t].handler == k.handler)
        && (t !in c'.calls ==> k.rec in c'.l.recs && (k.handler ==> t !in c'.l.recs[k.rec].handlers))
  {
    AdoptShape(c, t);
    FailCallShape(c, t);
  }

  /** And where a handle is handed out its handler is registered with the channel's record, which is
      confirmed if the attempt was this connection's. */
  lemma HandsOutConfirmed(c: Client, t: nat)
    requires Inv(c) && Enabled(c, DoResumeCall(t)) && Reached(c, c.calls[t].wait) == Some(Ok)
    requires c.Current(c.calls[t].channel, c.calls[t].rec)
    ensures var c', k := Step(c, DoResumeCall(t)), c.calls[t];
      && Live(c', t) && (k.handler ==> t in c'.l.recs[k.rec].handlers)
      && (k.wait.On? && c.On(c.attempts[k.wait.attempt].epoch) ==> IsConfirmed(c', k.rec))
  {
    CallReturns(c, t);
    assert CallOk(c, t);
    if c.calls[t].wait.On? { assert AttemptOk(c, c.calls[t].wait.attempt); }
  }

  /** Call t is still under way. */
  ghost predicate SparesCall(c: Client, c': Client, t: nat)
    requires t in c.calls
  {
    t in c'.calls && c'.calls[t] == c.calls[t]
  }

  /** Nothing but its own continuation ends a subscribe(). */
  lemma OnlyResumeEnds(c: Client, act: Action, t: nat)
    requires Inv(c) && Enabled(c, act) && t in c.calls && act != DoResumeCall(t)
    ensures SparesCall(c, Step(c, act), t)
  {
    NextFresh(c);
    match act
    case DoSubscribe(ch, handler) => SubscribeSparesCall(c, ch, handler, t);
    case DoResumeCall(u) => ResumeSparesCall(c, u, t);
    case DoResumeResub(u) => ResubSparesCall(c, u, t);
    case DoResumeRestore(x) => RestoreSparesCall(c, x, t);
    case DoRetryFires(r) => RetrySparesCall(c, r, t);
    case DoUnsubscribe(h) => UnsubscribeSparesCalls(c, h);
    case Authorized(a) => TokenArrivesMoves(c, a);
    case AuthorizeFails(a, out) =>
    case RunFinally(a) =>
    case _ => ConnectionSparesCalls(c, act);
  }

  lemma UnsubscribeSparesCalls(c: Client, h: nat)
    requires Enabled(c, DoUnsubscribe(h))
    ensures Unsubscribe(c, h).calls == c.calls
  {
    var k := c.handles[h];
    var c1 := c.(handles := c.handles[h := k.(active := false)]);
    assert DropHandler(c1, k.rec, k.handler, h).calls == c.calls;
  }

  lemma ResumeSparesCall(c: Client, u: nat, t: nat)
    requires Enabled(c, DoResumeCall(u)) && t in c.calls && u != t
    ensures SparesCall(c, ResumeCall(c, u), t)
  {
    CallReturns(c, u);
    AdoptShape(c, u);
    FailCallShape(c, u);
  }

  lemma ConnectionSparesCalls(c: Client, act: Action)
    requires Enabled(c, act) && OfConnection(act)
    ensures Step(c, act).calls == c.calls
  {
    if act.DoDeliver? { DeliverLink(c); }
  }

  lemma SubscribeSparesCall(c: Client, ch: string, handler: bool, t: nat)
    requires Enabled(c, DoSubscribe(ch, handler)) && t in c.calls && c.next != t
    ensures SparesCall(c, Subscribe(c, ch, handler), t)
  {
    var c1 := Joined(c, ch, handler);
    EnsureShape(c1, ch, c1.l.channels[ch]);
  }

  lemma ResubSparesCall(c: Client, u: nat, t: nat)
    requires Enabled(c, DoResumeResub(u)) && t in c.calls
    ensures SparesCall(c, ResumeResub(c, u), t)
  {
    ResumedResub(c, u);
  }

  lemma RetrySparesCall(c: Client, r: nat, t: nat)
    requires Enabled(c, DoRetryFires(r)) && t in c.calls
    ensures SparesCall(c, RetryFires(c, r), t)
  {
    StartResubShape(c, c.l.recs[r].channel, r, c.l.recs[r].retry.value.retries, None);
  }

  lemma RestoreSparesCall(c: Client, x: nat, t: nat)
    requires Enabled(c, DoResumeRestore(x)) && t in c.calls
    ensures SparesCall(c, ResumeRestore(c, x), t)
  {
    var k := c.restores[x];
    if k.remaining != [] && c.On(k.epoch) && k.remaining[0] in c.l.channels {
      RestoreTakes(c, x, k.remaining[0]);
      StartResubShape(c, k.remaining[0], c.l.channels[k.remaining[0]], 0, Some(x));
    }
  }

  /** A subscribe() that fails forgets the record it worked on if it is still the channel's, unconfirmed and
      nobody else's, and nothing otherwise. */
  lemma FailedForgets(c: Client, t: nat)
    requires t in c.calls && c.calls[t].rec in c.l.recs
    ensures var k, c' := c.calls[t], FailCall(c, t);
      var others := c.l.recs[k.rec].handlers - (if k.handler then {t} else {});
      var drops := c.Current(k.channel, k.rec) && !c.l.recs[k.rec].confirmed && others == {};
      c'.l.channels == (if drops then c.l.channels - {k.channel} else c.l.channels)
        && c'.l.toServer == c.l.toServer && c'.l.open == c.l.open && c'.phase == c.phase
        && k.rec in c'.l.recs && c'.l.recs[k.rec].handlers == others
  {
  }

  // ----- what the other calls and timers come to -----------------------------------------------------------------

  /** The handlers of the record behind handle h but for h's own. */
  function OtherHandlers(c: Client, h: nat): set<nat>
    requires h in c.handles && c.handles[h].rec in c.l.recs
  {
    c.l.recs[c.handles[h].rec].handlers - (if c.handles[h].handler then {h} else {})
  }

  /** unsubscribe() counts the first time, while its record is the channel's. */
  predicate Counts(c: Client, h: nat)
    requires h in c.handles
  {
    c.handles[h].active && c.Current(c.handles[h].channel, c.handles[h].rec)
  }

  /** unsubscribe() spends the handle; where it does not count it does nothing else, and where other
      handlers are left it leaves the channel to them. */
  lemma UnsubscribeLeaves(c: Client, h: nat)
    requires Enabled(c, DoUnsubscribe(h))
    ensures var k, c' := c.handles[h], Unsubscribe(c, h);
      && c'.handles == c.handles[h := k.(active := false)]
      && (!Counts(c, h) ==> c'.l == c.l)
      && (Counts(c, h) && OtherHandlers(c, h) != {} ==>
            c'.l == c.l.(recs := c.l.recs[k.rec := c.l.recs[k.rec].(handlers := OtherHandlers(c, h))]))
  {
    UnsubscribeForgets(c, h);
    var k := c.handles[h];
    DropHandlerMeans(c.(handles := c.handles[h := k.(active := false)]), k.rec, k.handler, h);
  }

  lemma DropHandlerMeans(c: Client, r: nat, handler: bool, t: nat)
    requires r in c.l.recs
    ensures var left := c.l.recs[r].handlers - (if handler then {t} else {});
      DropHandler(c, r, handler, t) == c.(l := c.l.(recs := c.l.recs[r := c.l.recs[r].(handlers := left)]))
  {
    if !handler {
      assert c.l.recs[r].handlers - {} == c.l.recs[r].handlers;
      assert c.l.recs[r := c.l.recs[r]] == c.l.recs;
    }
  }

  lemma LastUnsubscribe(c: Client, h: nat, c2: Client)
    requires Enabled(c, DoUnsubscribe(h)) && Counts(c, h)
    requires var k := c.handles[h];
      c2 == DropHandler(c.(handles := c.handles[h := k.(active := false)]), k.rec, k.handler, h)
    requires c.handles[h].rec in c2.l.recs && c2.l.recs[c.handles[h].rec].handlers == {}
      && c2.l.Has(c.handles[h].channel)
    ensures Unsubscribe(c, h).l == Release(c2.l, c.handles[h].channel, c2.phase == Connected)
  {
  }

  /** The last handler's takes the record with it and, on an open connection, tells the server. */
  lemma UnsubscribeReleases(c: Client, h: nat)
    requires Enabled(c, DoUnsubscribe(h)) && Counts(c, h) && OtherHandlers(c, h) == {}
    ensures var k, c' := c.handles[h], Unsubscribe(c, h);
      && c'.l.channels == c.l.channels - {k.channel} && c'.l.toClient == c.l.toClient
      && c'.l.toServer == c.l.toServer
           + if c.phase == Connected && c.l.open then [Frame(c.l.nextFrame, Unsub, k.channel)] else []
  {
    var k := c.handles[h];
    var c1 := c.(handles := c.handles[h := k.(active := false)]);
    var c2 := DropHandler(c1, k.rec, k.handler, h);
    DropHandlerMeans(c1, k.rec, k.handler, h);
    LastUnsubscribe(c, h, c2);
    ReleaseTells(c2.l, k.channel, c.phase == Connected);
    ReleaseForgets(c2.l, k.channel, c.phase == Connected);
  }

  lemma ReleaseTells(l: Link, ch: string, connected: bool)
    requires l.Has(ch)
    ensures Release(l, ch, connected).toClient == l.toClient
    ensures Release(l, ch, connected).toServer
      == l.toServer + if connected && l.open then [Frame(l.nextFrame, Unsub, ch)] else []
  {
  }

  /** Nothing is left of a connection: no frame either way, no promise that waits for an ack. */
  ghost predicate Hushed(c: Client) {
    && !c.l.open && c.l.pending == [] && c.l.toServer == [] && c.l.toClient == [] && c.l.held == {} && c.l.tainted == {}
    && c.socket.None? && !c.dialed
  }

  lemma ClearedEnds(l: Link, ch: string)
    requires l.Has(ch)
    ensures var l', r := ClearRecords(l), l.channels[ch];
      l'.channels == map[] && r in l'.recs && l'.recs[r].handlers == {} && l'.recs[r].retry.None?
  {
  }

  lemma ResetEnds(l: Link, ch: string)
    requires l.Has(ch)
    ensures var l', r := ResetRecords(l), l.channels[ch];
      && l'.channels == l.channels && r in l'.recs && l'.recs[r].handlers == l.recs[r].handlers
      && !l'.recs[r].confirmed && l'.recs[r].inflight.None? && l'.recs[r].retry.None?
  {
  }

  /** No channel, and no record that was a channel's has a handler or a timer. */
  ghost predicate Emptied(l: Link, l': Link) {
    l'.channels == map[] && forall ch :: l.Has(ch) ==> SpentRecord(l'.recs, l.channels[ch])
  }

  ghost predicate SpentRecord(recs: map<nat, Record>, r: nat) {
    r in recs && recs[r].handlers == {} && recs[r].retry.None?
  }

  /** After close() the client is closed and empty ... */
  lemma CloseMeans(c: Client)
    ensures Close(c).phase == Closed && Hushed(Close(c)) && Emptied(c.l, Close(c).l)
  {
    forall ch | c.l.Has(ch) ensures SpentRecord(Close(c).l.recs, c.l.channels[ch]) { ClearedEnds(c.l, ch); }
  }

  /** ... and likewise after a drop with no attempt left. */
  lemma LastDropMeans(c: Client)
    ensures Drop(c, false).phase == Closed && Hushed(Drop(c, false)) && Emptied(c.l, Drop(c, false).l)
  {
    forall ch | c.l.Has(ch) ensures SpentRecord(Drop(c, false).l.recs, c.l.channels[ch]) {
      ResetEnds(c.l, ch);
      ClearedEnds(ResetRecords(c.l), ch);
    }
  }

  /** A drop with an attempt left keeps every channel and its handlers, unconfirmed and at rest. */
  lemma DropMeans(c: Client)
    requires Enabled(c, DoDrop(true))
    ensures var c' := Drop(c, true);
      && c'.phase == Reconnecting && Hushed(c') && c'.l.channels == c.l.channels
      && forall ch :: c.l.Has(ch) ==>
           var r := c.l.channels[ch];
           && r in c'.l.recs && c'.l.recs[r].handlers == c.l.recs[r].handlers && !c'.l.recs[r].confirmed
           && c'.l.recs[r].inflight.None? && c'.l.recs[r].retry.None?
  {
    forall ch | c.l.Has(ch)
      ensures var r, l' := c.l.channels[ch], ResetRecords(c.l);
        && r in l'.recs && l'.recs[r].handlers == c.l.recs[r].handlers && !l'.recs[r].confirmed
        && l'.recs[r].inflight.None? && l'.recs[r].retry.None?
    {
      ResetEnds(c.l, ch);
    }
  }

  /** The client stays closed, without a channel, and sends nothing. */
  ghost predicate StaysClosed(c: Client, c': Client) {
    c'.phase == Closed && c'.l.channels == map[] && c'.l.toServer == c.l.toServer && !c'.l.open
  }

  /** Closed is for good. */
  lemma ClosedForGood(c: Client, act: Action)
    requires Inv(c) && c.phase == Closed && c.l.channels == map[] && Enabled(c, act)
    ensures StaysClosed(c, Step(c, act))
  {
    match act
    case DoUnsubscribe(h) => UnsubscribeLeaves(c, h);
    case DoResumeCall(t) => ClosedCall(c, t);
    case DoResumeResub(t) => ResubMeans(c, t);
    case DoResumeRestore(x) =>
    case DoRetryFires(r) => RetryMeans(c, r);
    case Authorized(a) => TokenArrivesMoves(c, a);
    case AuthorizeFails(a, out) =>
    case RunFinally(a) =>
    case _ =>
  }

  lemma ClosedCall(c: Client, t: nat)
    requires Enabled(c, DoResumeCall(t)) && c.phase == Closed && c.l.channels == map[] && !c.l.open
    ensures StaysClosed(c, ResumeCall(c, t))
  {
    FailedForgets(c, t);
    CallReturns(c, t);
  }

  /** What starts no attempt: a confirmed record, and one that has an attempt in flight, which is shared. */
  lemma AttemptsAreShared(c: Client, ch: string, r: nat)
    requires r in c.l.recs && (c.l.recs[r].confirmed || c.l.recs[r].inflight.Some?)
    ensures EnsureSubscribed(c, ch, r).0 == c
    ensures !c.l.recs[r].confirmed ==> EnsureSubscribed(c, ch, r).1 == On(c.l.recs[r].inflight.value)
  {
  }

  /** The end of an attempt takes nobody else's slot away. */
  lemma FinallySparesOthers(c: Client, a: nat, r: nat)
    requires Enabled(c, RunFinally(a)) && r in c.l.recs
    ensures var l' := Finally(c, a).l;
      r in l'.recs && (l'.recs[r] == c.l.recs[r] || (c.l.recs[r].inflight == Some(a) && l'.recs[r].inflight.None?))
  {
  }

  /** A retry timer of another connection, or of a record that is no longer the channel's, starts nothing;
      any timer that fires is spent. */
  lemma RetryMeans(c: Client, r: nat)
    requires Enabled(c, DoRetryFires(r))
    ensures var c', rec := RetryFires(c, r), c.l.recs[r];
      && r in c'.l.recs && c'.l.recs[r].retry.None?
      && (!(c.On(rec.retry.value.epoch) && c.Current(rec.channel, r)) ==>
            c' == c.(l := c.l.(recs := c.l.recs[r := rec.(retry := None)])))
  {
    StartResubShape(c, c.l.recs[r].channel, r, c.l.recs[r].retry.value.retries, None);
  }

  /** A #resubscribe is tried again exactly after a passing failure of a record that is still the channel's,
      on the connection it began on. */
  lemma ResubMeans(c: Client, t: nat)
    requires Enabled(c, DoResumeResub(t))
    ensures var c', k := ResumeResub(c, t), c.resubs[t];
      var out := Reached(c, k.wait).value;
      var again := (out == Failed || (out.Rejected? && !IsDefinitive(out.code)))
        && c.Current(k.channel, k.rec) && c.phase == Connected && c.epoch == k.epoch;
      && c'.resubs == c.resubs - {t}
      && c'.l == if again then ArmRetry(c, k.rec, Some(Retry(k.epoch, k.retries + 1))).l else c.l
  {
    ResumedResub(c, t);
  }

  lemma EnsureAbandons(c: Client, ch: string, r: nat)
    requires r in c.l.recs
    ensures EnsureSubscribed(c, ch, r).0.abandoned == c.abandoned
  {
  }

  lemma ResubAbandons(c: Client, ch: string, r: nat, retries: nat, restore: Option<nat>)
    requires r in c.l.recs
    ensures StartResub(c, ch, r, retries, restore).abandoned == c.abandoned
  {
    EnsureAbandons(c.(next := c.next + 1), ch, r);
  }

  lemma SubscribeAbandons(c: Client, ch: string, handler: bool)
    requires Enabled(c, DoSubscribe(ch, handler))
    ensures Subscribe(c, ch, handler).abandoned == c.abandoned
  {
    var c1 := Joined(c, ch, handler);
    EnsureAbandons(c1, ch, c1.l.channels[ch]);
  }

  lemma CallAbandons(c: Client, t: nat)
    requires Enabled(c, DoResumeCall(t))
    ensures ResumeCall(c, t).abandoned == c.abandoned
  {
    EnsureAbandons(c, c.calls[t].channel, c.calls[t].rec);
  }

  lemma RestoreAbandons(c: Client, x: nat)
    requires Enabled(c, DoResumeRestore(x))
    ensures ResumeRestore(c, x).abandoned == c.abandoned
  {
    var k := c.restores[x];
    if k.remaining != [] && c.On(k.epoch) && k.remaining[0] in c.l.channels {
      RestoreTakes(c, x, k.remaining[0]);
      ResubAbandons(c, k.remaining[0], c.l.channels[k.remaining[0]], 0, Some(x));
    }
  }

  lemma RetryAbandons(c: Client, r: nat)
    requires Enabled(c, DoRetryFires(r))
    ensures RetryFires(c, r).abandoned == c.abandoned
  {
    ResubAbandons(c, c.l.recs[r].channel, r, c.l.recs[r].retry.value.retries, None);
  }

  lemma ConnectionAbandons(c: Client, act: Action)
    requires Enabled(c, act) && OfConnection(act)
    ensures Step(c, act).abandoned == c.abandoned
  {
    if act.DoDeliver? { DeliverLink(c); }
  }

  lemma UnsubscribeAbandons(c: Client, h: nat)
    requires Enabled(c, DoUnsubscribe(h))
    ensures Unsubscribe(c, h).abandoned == c.abandoned
  {
    var k := c.handles[h];
    DropHandlerMeans(c.(handles := c.handles[h := k.(active := false)]), k.rec, k.handler, h);
  }

  lemma TaskAbandons(c: Client, act: Action)
    requires Enabled(c, act) && (act.RunFinally? || act.DoResumeResub? || act.Authorized?)
    ensures Step(c, act).abandoned == c.abandoned
  {
    if act.DoResumeResub? { ResumedResub(c, act.t); }
  }

  /** A record is exempt from the theorems below only after authorize() itself threw, for it, a definitive
      refusal or a ConnectionClosedError. */
  lemma AbandonedBecause(c: Client, act: Action, r: nat)
    requires Enabled(c, act) && r !in c.abandoned && r in Step(c, act).abandoned
    ensures act.AuthorizeFails? && c.attempts[act.a].rec == r && act.out != Failed
    ensures act.out.Rejected? ==> IsDefinitive(act.out.code)
  {
    match act
    case DoSubscribe(ch, handler) => SubscribeAbandons(c, ch, handler);
    case DoResumeCall(t) => CallAbandons(c, t);
    case DoResumeRestore(x) => RestoreAbandons(c, x);
    case DoRetryFires(s) => RetryAbandons(c, s);
    case AuthorizeFails(a, out) =>
    case DoUnsubscribe(h) => UnsubscribeAbandons(c, h);
    case _ => if OfConnection(act) { ConnectionAbandons(c, act); } else { TaskAbandons(c, act); }
  }

  // ----- what every run keeps ------------------------------------------------------------------------------------

  /** No orphan subscription, in every state of every run. */
  lemma NoOrphanSubscription(run: seq<Client>, acts: seq<Action>, n: nat, ch: string)
    requires IsRun(run, acts) && n < |run|
    requires run[n].l.open && !InFlight(run[n].l, ch) && ch !in run[n].l.tainted
    ensures ch in run[n].l.held ==> run[n].l.Confirmed(ch)
    ensures forall op :: op in run[n].l.pending ==> op.channel != ch
  {
    RunKeeps(run, acts, n);
    NoOrphan(run[n].l, ch);
  }

  /** unsubscribe() has not been called on the handle and its record is still the channel's. */
  ghost predicate Live(c: Client, h: nat) {
    h in c.handles && c.handles[h].active && c.Current(c.handles[h].channel, c.handles[h].rec)
  }

  /** No lost channel: while the socket is open, the record behind every live handle is
      confirmed, or being resubscribed, or has its retry timer armed, or waits its turn in
      #resubscribeAll, unless authorize() itself refused it for good. A #resubscribeAll that
      holds such a place is runnable or waits for a #resubscribe that exists. */
  lemma NoLostChannel(run: seq<Client>, acts: seq<Action>, n: nat, h: nat)
    requires IsRun(run, acts) && n < |run|
    requires run[n].phase == Connected && run[n].l.open && Live(run[n], h)
    requires run[n].handles[h].rec !in run[n].abandoned
    ensures var c := run[n]; var k := c.handles[h];
      IsConfirmed(c, k.rec) || Resubscribing(c, k.rec) || Armed(c, k.rec) || Listed(c, k.channel)
    ensures forall x :: x in run[n].restores && run[n].restores[x].busy ==>
      exists t :: t in run[n].resubs && run[n].resubs[t].restore == Some(x)
  {
    RunKeeps(run, acts, n);
    var c := run[n];
    assert HandleOk(c, h) && NameOk(c, c.handles[h].channel);
    forall x | x in c.restores && c.restores[x].busy
      ensures exists t :: t in c.resubs && c.resubs[t].restore == Some(x)
    {
      assert RestoreOk(c, x);
    }
  }

  ghost predicate RefusesForGood(r: Reply, ch: string) {
    r.channel == ch && r.kind == Sub && r.verdict.Refused? && IsDefinitive(r.verdict.code)
  }

  /** How a live handle that passed a handler can die in one step: by its own unsubscribe(), by
      a definitive refusal of its channel, or with the client. */
  ghost predicate MayKill(c: Client, act: Action, h: nat)
    requires h in c.handles
  {
    || act == DoUnsubscribe(h)
    || act == DoClose
    || act == DoDrop(false)
    || (act == DoDeliver && c.l.toClient != [] && RefusesForGood(c.l.toClient[0], c.handles[h].channel))
  }

  lemma LiveHandlesSurvive(c: Client, act: Action, h: nat)
    requires Inv(c) && Enabled(c, act) && Live(c, h) && c.handles[h].handler && !MayKill(c, act, h)
    ensures Live(Step(c, act), h)
  {
    HandlerHeld(c, h);
    NextFresh(c);
    match act
    case DoSubscribe(ch, handler) => SubscribeSpares(c, ch, handler, h);
    case DoUnsubscribe(g) => UnsubscribeSpares(c, g, h);
    case DoResumeCall(t) => CallSpares(c, t, h);
    case DoResumeRestore(x) => RestoreSpares(c, x, h);
    case DoRetryFires(r) => RetrySpares(c, r, h);
    case _ => OtherSpares(c, act, h);
  }

  lemma OtherSpares(c: Client, act: Action, h: nat)
    requires Inv(c) && Enabled(c, act) && Live(c, h) && !MayKill(c, act, h)
    requires OfConnection(act) || act.Authorized? || act.AuthorizeFails? || act.RunFinally? || act.DoResumeResub?
    ensures Live(Step(c, act), h)
  {
    if OfConnection(act) { ConnectionSpares(c, act, h); }
  }

  lemma ConnectionSpares(c: Client, act: Action, h: nat)
    requires Inv(c) && Enabled(c, act) && OfConnection(act) && Live(c, h) && !MayKill(c, act, h)
    ensures Live(Step(c, act), h)
  {
    if act.DoDeliver? { ReceiveSpares(c, h); }
  }

  /** The handler of a live handle is registered with its record. */
  ghost predicate Registered(c: Client, h: nat) {
    Live(c, h) && c.handles[h].handler && c.handles[h].rec in c.l.recs && h in c.l.recs[c.handles[h].rec].handlers
      && h !in c.calls
  }

  lemma HandlerHeld(c: Client, h: nat)
    requires Inv(c) && Live(c, h) && c.handles[h].handler
    ensures Registered(c, h)
  {
    assert HandleOk(c, h);
  }

  lemma SubscribeSpares(c: Client, ch: string, handler: bool, h: nat)
    requires c.next !in c.handles && (c.l.Has(ch) || ch !in c.l.channels) && Live(c, h)
    ensures Live(Subscribe(c, ch, handler), h)
  {
    var c1 := Joined(c, ch, handler);
    EnsureShape(c1, ch, c1.l.channels[ch]);
  }

  lemma UnsubscribeSpares(c: Client, g: nat, h: nat)
    requires g in c.handles && c.handles[g].rec in c.l.recs && Registered(c, h) && g != h
    requires NamesResolve(c.l)
    ensures Live(Unsubscribe(c, g), h)
  {
    var kg, kh := c.handles[g], c.handles[h];
    var c1 := c.(handles := c.handles[g := kg.(active := false)]);
    assert kg.channel == kh.channel && kg.rec == kh.rec ==> h in c.l.recs[kg.rec].handlers - {g};
    UnsubscribeForgets(c, g);
  }

  lemma ReleaseForgets(l: Link, ch: string, connected: bool)
    requires l.Has(ch)
    ensures Release(l, ch, connected).channels == l.channels - {ch}
  {
  }

  /** unsubscribe() forgets at most its own channel, and only with no handler left. */
  lemma UnsubscribeForgets(c: Client, g: nat)
    requires g in c.handles && c.handles[g].rec in c.l.recs
    ensures var k := c.handles[g]; var c' := Unsubscribe(c, g);
      && c'.handles == c.handles[g := k.(active := false)]
      && (c'.l.channels == c.l.channels ||
          (c'.l.channels == c.l.channels - {k.channel} && c.Current(k.channel, k.rec)
           && DropHandler(c.(handles := c'.handles), k.rec, k.handler, g).l.recs[k.rec].handlers == {}))
  {
    var k := c.handles[g];
    var c2 := DropHandler(c.(handles := c.handles[g := k.(active := false)]), k.rec, k.handler, g);
    if c.Current(k.channel, k.rec) { ReleaseForgets(c2.l, k.channel, c.phase == Connected); }
  }

  lemma FailCallForgets(c: Client, t: nat)
    requires t in c.calls && c.calls[t].rec in c.l.recs
    ensures var k := c.calls[t]; var c' := FailCall(c, t);
      && c'.handles == c.handles
      && (c'.l.channels == c.l.channels ||
          (c'.l.channels == c.l.channels - {k.channel} && c.Current(k.channel, k.rec)
           && DropHandler(c.(calls := c.calls - {t}), k.rec, k.handler, t).l.recs[k.rec].handlers == {}))
  {
  }

  lemma FailCallSpares(c: Client, t: nat, h: nat)
    requires t in c.calls && c.calls[t].rec in c.l.recs && Registered(c, h)
    ensures Live(FailCall(c, t), h)
  {
    var k := c.calls[t];
    FailCallForgets(c, t);
    assert k.rec == c.handles[h].rec ==> h in c.l.recs[k.rec].handlers - {t};
  }

  lemma CallSpares(c: Client, t: nat, h: nat)
    requires t in c.calls && c.calls[t].rec in c.l.recs && Reached(c, c.calls[t].wait).Some?
    requires Registered(c, h)
    ensures Live(ResumeCall(c, t), h)
  {
    EnsureShape(c, c.calls[t].channel, c.calls[t].rec);
    FailCallSpares(c, t, h);
  }

  lemma RestoreSpares(c: Client, x: nat, h: nat)
    requires x in c.restores && !c.restores[x].busy && (forall ch :: ch in c.l.channels ==> c.l.Has(ch)) && Live(c, h)
    ensures Live(ResumeRestore(c, x), h)
  {
    var k := c.restores[x];
    if k.remaining != [] && c.On(k.epoch) && k.remaining[0] in c.l.channels {
      var ch := k.remaining[0];
      assert c.l.Has(ch);
      StartResubShape(c, ch, c.l.channels[ch], 0, Some(x));
      var c1 := StartResub(c, ch, c.l.channels[ch], 0, Some(x));
      assert ResumeRestore(c, x) == c1.(restores := c1.restores[x := k.(remaining := k.remaining[1..], busy := true)]);
    }
  }

  lemma RetrySpares(c: Client, r: nat, h: nat)
    requires r in c.l.recs && c.l.recs[r].retry.Some? && Live(c, h)
    ensures Live(RetryFires(c, r), h)
  {
    StartResubShape(c, c.l.recs[r].channel, r, c.l.recs[r].retry.value.retries, None);
  }

  lemma ReceiveSpares(c: Client, h: nat)
    requires Inv(c) && c.l.toClient != [] && Live(c, h)
    requires !RefusesForGood(c.l.toClient[0], c.handles[h].channel)
    ensures Live(Deliver(c), h)
  {
    ReceiveShape(c.l);
  }

  /** Token binding: every subscribe frame that carried a token went out on the connection whose
      socket id authorize() was given, whatever dropped and reconnected meanwhile. */
  lemma TokensStayOnTheirSocket(run: seq<Client>, acts: seq<Action>, n: nat, i: nat)
    requires IsRun(run, acts) && n < |run| && i < |run[n].tokens|
    ensures var sent := run[n].tokens[i]; sent.ws in run[n].issued && run[n].issued[sent.ws] == sent.socket
  {
    RunKeeps(run, acts, n);
  }

  /** Every pass of the adopt loop in subscribe() needs a strictly newer connection, so after
      any run a call has made at most as many passes as there were `connected` frames. */
  lemma AdoptLoopBounded(run: seq<Client>, acts: seq<Action>, n: nat, t: nat)
    requires IsRun(run, acts) && n < |run| && t in run[n].calls
    ensures run[n].calls[t].passes <= run[n].calls[t].epoch <= run[n].epoch
    ensures Enabled(run[n], DoResumeCall(t)) && t in ResumeCall(run[n], t).calls ==>
      ResumeCall(run[n], t).calls[t].epoch > run[n].calls[t].epoch
  {
    RunKeeps(run, acts, n);
    assert CallOk(run[n], t);
    if Enabled(run[n], DoResumeCall(t)) { AdoptsNewer(run[n], t); }
  }

  lemma AdoptsNewer(c: Client, t: nat)
    requires Enabled(c, DoResumeCall(t)) && c.calls[t].epoch <= c.epoch
    ensures t in ResumeCall(c, t).calls ==> ResumeCall(c, t).calls[t].epoch > c.calls[t].epoch
  {
    CallReturns(c, t);
  }
}
