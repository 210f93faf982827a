/** The client as the object it is in clients/js/src/index.ts: private fields changed in place by
    callbacks. Every method is tied to the step of ClientTasks it carries out. A ChannelRecord is
    a value in `recs`, keyed by the identity that its name in `channels` refers to. */
module ClientObject {
  import opened Options
  import opened ClientWire
  import opened ClientTasks

  /** What subscribe() throws before it does anything. */
  datatype Thrown = ConnectionClosed | BadChannel | NoAuthorize

  /** options.reconnect: false, or so many attempts in a row, maxAttempts being a number or Infinity. */
  datatype Reconnect = Never | UpTo(maxAttempts: nat) | Always

  const MAX_CHANNEL_BYTES: nat := 128

  /** An error frame. A server of today names the frame it answers, an older one does not. */
  datatype ErrorMessage = ErrorMessage(op: Option<string>, channel: Option<string>, code: string)

  /** The error frame for a refused subscribe or unsubscribe. */
  function Naming(r: Reply): ErrorMessage
    requires r.verdict.Refused?
  {
    ErrorMessage(Some(if r.kind == Sub then "subscribe" else "unsubscribe"), Some(r.channel), r.verdict.code)
  }

  const SUBSCRIBE_ERROR_CODES: set<string> :=
    {"AUTH_FAILED", "AUTH_REPLAYED", "BAD_CHANNEL", "RESERVED_CHANNEL", "LIMIT_CHANNELS", "LIMIT_SUBSCRIBERS",
     "SUBSCRIBE_FAILED", "RATE_LIMITED"}

  /** The first pending subscribe, or -1. */
  function FirstSub(pending: seq<Op>): (i: int)
    ensures -1 <= i < |pending|
    ensures i >= 0 ==> pending[i].kind == Sub
    ensures forall j :: 0 <= j < (if i == -1 then |pending| else i) ==> pending[j].kind != Sub
  {
    if pending == [] then -1
    else if pending[0].kind == Sub then 0
    else
      var rest := FirstSub(pending[1..]);
      assert forall j :: 1 <= j < |pending| ==> pending[j] == pending[1..][j - 1];
      if rest == -1 then -1 else rest + 1
  }

  /** Whom an error frame settles: the first operation it names; or, if it names none and its code is
      one that subscribes get, the oldest pending subscribe. */
  function Blamed(frame: ErrorMessage, pending: seq<Op>): (i: int)
    ensures -1 <= i < |pending|
  {
    var ch := if frame.channel.Some? then frame.channel.value else "";
    if frame.op == Some("subscribe") then FirstMatch(pending, Sub, ch)
    else if frame.op == Some("unsubscribe") then FirstMatch(pending, Unsub, ch)
    else if frame.op.Some? || frame.channel.Some? || frame.code !in SUBSCRIBE_ERROR_CODES then -1
    else FirstSub(pending)
  }

  class WirefanClient {
    // options.authorize given
    const authorizes: bool
    const reconnect: Reconnect
    // #attempt: reconnects tried since the last connection
    var attempt: nat
    // #channels, the records, #pending, #state, #epoch, #everConnected, #socketId
    var channels: map<string, nat>
    var recs: map<nat, Record>
    var pending: seq<Op>
    var phase: Phase
    var epoch: nat
    var ever: bool
    var socket: Option<nat>
    // #ws: dialed or not, readyState == OPEN, what was sent
    var dialed: bool
    var open: bool
    var nextFrame: nat
    var toServer: seq<Frame>
    // promises and timers under way
    var attempts: map<nat, Attempt>
    var calls: map<nat, Call>
    var resubs: map<nat, Resub>
    var restores: map<nat, Restore>
    var handles: map<nat, Handle>
    var next: nat
    // the other side of the socket, and history
    ghost var ws: nat
    ghost var toClient: seq<Reply>
    ghost var held: set<string>
    ghost var tainted: set<string>
    ghost var mark: nat
    ghost var abandoned: set<nat>
    ghost var issued: map<nat, nat>
    ghost var tokens: seq<TokenSent>

    ghost function Wire(): Link
      reads this
    {
      Link(channels, recs, pending, open, nextFrame, toServer, toClient, held, tainted)
    }

    ghost function View(): Client
      reads this
    {
      Client(Wire(), phase, ever, epoch, dialed, ws, socket, attempts, calls, resubs, restores, handles,
             next, mark, abandoned, issued, tokens)
    }

    predicate CanRetry()
      reads this
    {
      match reconnect
      case Never => false
      case UpTo(maxAttempts) => attempt + 1 <= maxAttempts
      case Always => true
    }

    /** What every run of ClientTasks keeps. */
    ghost predicate Valid()
      reads this
    {
      Inv(View())
    }

    /** #pending.findIndex: the index of the operation a reply answers, or -1. */
    method FindPending(kind: Kind, ch: string) returns (idx: int)
      ensures idx == FirstMatch(pending, kind, ch)
    {
      idx := 0;
      while idx < |pending|
        invariant 0 <= idx <= |pending|
        invariant forall j :: 0 <= j < idx ==> !Matches(pending[j], kind, ch)
      {
        if Matches(pending[idx], kind, ch) { FirstMatchUnique(pending, kind, ch, idx); return; }
        idx := idx + 1;
      }
      idx := -1;
      FirstMatchUnique(pending, kind, ch, idx);
    }

    /** #pending.slice(from).some(...): is an unsubscribe for the channel pending behind `from`? */
    method UnsubBehind(from: nat, ch: string) returns (found: bool)
      requires from <= |pending|
      ensures found == UnsubPending(pending[from..], ch)
    {
      var i := from;
      while i < |pending|
        invariant from <= i <= |pending|
        invariant forall j :: from <= j < i ==> !Matches(pending[j], Unsub, ch)
      {
        if Matches(pending[i], Unsub, ch) {
          assert pending[from..][i - from] == pending[i];
          return true;
        }
        i := i + 1;
      }
      found := false;
    }

    /** Resolve or reject the promise of a removed operation. */
    method SettlePromise(op: nat, out: Outcome)
      modifies this`attempts
      ensures attempts == Resolve(old(attempts), {op}, out)
    {
      attempts := map a | a in attempts ::
        if attempts[a].st == Waiting(op) then attempts[a].(st := Settled(out)) else attempts[a];
    }

    /** #settleOp, for an ack the socket has just delivered. */
    method SettleOp(kind: Kind, ch: string)
      modifies this`pending, this`attempts, this`recs, this`toServer, this`nextFrame
      ensures Wire() == ClientWire.SettleOp(old(Wire()), kind, ch)
      ensures var idx := FirstMatch(old(pending), kind, ch);
        attempts == if idx == -1 then old(attempts) else Resolve(old(attempts), {old(pending)[idx].id}, Ok)
    {
      var idx := FindPending(kind, ch);
      var undoneLater := false;
      if idx != -1 {
        var op := pending[idx];
        pending := pending[..idx] + pending[idx + 1..];
        if kind == Sub { undoneLater := UnsubBehind(idx, ch); }
        SettlePromise(op.id, Ok);
      }
      if kind == Sub {
        if ch in channels && channels[ch] in recs {
          recs := recs[channels[ch] := recs[channels[ch]].(confirmed := true)];
        } else if ch !in channels && !undoneLater {
          SendRawUnsubscribe(ch);
        }
      }
    }

    /** #sendRaw({type: "unsubscribe"}): best effort, no ack tracking. */
    method SendRawUnsubscribe(ch: string)
      modifies this`toServer, this`nextFrame
      ensures Wire() == SendUndo(old(Wire()), ch)
    {
      if !open { return; }
      toServer := toServer + [Frame(nextFrame, Unsub, ch)];
      nextFrame := nextFrame + 1;
    }

    /** #pendingIndexFor: the index of the operation an error frame settles, or -1. */
    method PendingIndexFor(frame: ErrorMessage) returns (idx: int)
      ensures idx == Blamed(frame, pending)
    {
      if frame.op.Some? || frame.channel.Some? {
        if frame.op != Some("subscribe") && frame.op != Some("unsubscribe") { return -1; }
        var ch := if frame.channel.Some? then frame.channel.value else "";
        idx := FindPending(if frame.op.value == "subscribe" then Sub else Unsub, ch);
        return;
      }
      if frame.code !in SUBSCRIBE_ERROR_CODES { return -1; }
      idx := 0;
      while idx < |pending|
        invariant 0 <= idx <= |pending|
        invariant forall j :: 0 <= j < idx ==> pending[j].kind != Sub
      {
        if pending[idx].kind == Sub { FirstSubUnique(pending, idx); return; }
        idx := idx + 1;
      }
      idx := -1;
      FirstSubUnique(pending, idx);
    }

    /** #onErrorFrame, with the error event it emits left out. */
    method OnErrorFrame(frame: ErrorMessage)
      modifies this`pending, this`attempts, this`recs, this`channels
      ensures var idx := Blamed(frame, old(pending));
        if idx == -1 then Wire() == old(Wire()) && attempts == old(attempts)
        else
          var op := old(pending)[idx];
          Wire() == ErrorFrame(old(Wire()), op.kind, op.channel, frame.code)
            && attempts == Resolve(old(attempts), {op.id}, Rejected(frame.code))
    {
      var idx := PendingIndexFor(frame);
      if idx == -1 { return; }
      var op := pending[idx];
      BlamedFirst(frame, pending);
      pending := pending[..idx] + pending[idx + 1..];
      if op.kind == Sub && IsDefinitive(frame.code) && op.channel in channels && channels[op.channel] in recs {
        var r := channels[op.channel];
        if !recs[r].confirmed {
          recs := recs[r := recs[r].(retry := None, refusal := Some(frame.code))];
          channels := channels - {op.channel};
        }
      }
      SettlePromise(op.id, Rejected(frame.code));
    }

    /** #sendSubscribe up to its first await, installed as the record's `inflight`. */
    method SendSubscribe(ch: string, r: nat)
      requires r in recs
      modifies this`next, this`recs, this`attempts, this`pending, this`toServer, this`nextFrame
      ensures next == old(next) + 1 && Wire() == StartLink(old(Wire()), ch, r, old(next))
      ensures attempts == old(attempts)[old(next) := Attempt(ch, r, epoch, StartState(old(View()), ch))]
    {
      var a := next;
      next := next + 1;
      recs := recs[r := recs[r].(inflight := Some(a))];
      if NeedsToken(ch) {
        var st := Settled(ConnClosed);
        if socket.Some? { st := Authorizing(socket.value); }
        attempts := attempts[a := Attempt(ch, r, epoch, st)];
      } else if !open {
        attempts := attempts[a := Attempt(ch, r, epoch, Settled(ConnClosed))];
      } else {
        attempts := attempts[a := Attempt(ch, r, epoch, Waiting(nextFrame))];
        pending := pending + [Op(nextFrame, Sub, ch)];
        toServer := toServer + [Frame(nextFrame, Sub, ch)];
        nextFrame := nextFrame + 1;
      }
    }

    /** #ensureSubscribed: concurrent callers share one attempt. */
    method EnsureSubscribed(ch: string, r: nat) returns (w: Wait)
      requires r in recs
      modifies this`next, this`recs, this`attempts, this`pending, this`toServer, this`nextFrame
      ensures (View(), w) == ClientTasks.EnsureSubscribed(old(View()), ch, r)
    {
      if recs[r].confirmed { return Now; }
      if recs[r].inflight.Some? { return On(recs[r].inflight.value); }
      w := On(next);
      SendSubscribe(ch, r);
    }

    /** The first half of subscribe(): find or make the record, attach the handler. */
    method Join(ch: string, handler: bool) returns (r: nat)
      requires ch in channels ==> channels[ch] in recs
      modifies this`next, this`recs, this`channels
      ensures Wire() == Joined(old(View()), ch, handler).l && next == old(next) + 2
      ensures ch in channels && r == channels[ch] && r in recs
    {
      var t := next;
      next := next + 2;
      if ch !in channels {
        recs := recs[t + 1 := Record(ch, {}, false, None, None, None)];
        channels := channels[ch := t + 1];
      }
      r := channels[ch];
      if handler { recs := recs[r := recs[r].(handlers := recs[r].handlers + {t})]; }
      ghost var joined := Joined(old(View()), ch, handler);
      assert channels == joined.l.channels;
      assert recs == joined.l.recs;
    }

    /** subscribe(), up to its first await, of a channel whose name takes `bytes` bytes. It throws
        without touching anything, or carries on. */
    method Subscribe(ch: string, bytes: nat, handler: bool) returns (thrown: Option<Thrown>)
      requires ch in channels ==> channels[ch] in recs
      modifies this`next, this`recs, this`channels, this`attempts, this`pending, this`toServer, this`nextFrame,
        this`handles, this`calls
      ensures thrown == Some(ConnectionClosed) <==> old(phase) != Connected
      ensures thrown == Some(BadChannel) <==> old(phase) == Connected && bytes > MAX_CHANNEL_BYTES
      ensures thrown == Some(NoAuthorize)
        <==> old(phase) == Connected && bytes <= MAX_CHANNEL_BYTES && NeedsToken(ch) && !authorizes
      ensures View() == if thrown.Some? then old(View()) else ClientTasks.Subscribe(old(View()), ch, handler)
    {
      if phase != Connected { return Some(ConnectionClosed); }
      if bytes > MAX_CHANNEL_BYTES { return Some(BadChannel); }
      if NeedsToken(ch) && !authorizes { return Some(NoAuthorize); }
      SubscribeOn(ch, handler);
      return None;
    }

    /** It returns a handle at once for a confirmed channel. */
    method SubscribeOn(ch: string, handler: bool)
      requires ch in channels ==> channels[ch] in recs
      modifies this`next, this`recs, this`channels, this`attempts, this`pending, this`toServer, this`nextFrame,
        this`handles, this`calls
      ensures View() == ClientTasks.Subscribe(old(View()), ch, handler)
    {
      var t := next;
      var r := Join(ch, handler);
      assert View() == Joined(old(View()), ch, handler);
      SubscribeJoined(old(View()), ch, handler);
      if recs[r].confirmed {
        Attach(t, ch, r, handler);
      } else {
        Await(t, ch, r, handler);
      }
    }

    /** subscribe() returns a handle at once. */
    method Attach(t: nat, ch: string, r: nat, handler: bool)
      modifies this`handles
      ensures View() == old(View()).(handles := old(handles)[t := Handle(ch, r, handler, true)])
    {
      handles := handles[t := Handle(ch, r, handler, true)];
    }

    /** subscribe() starts awaiting #ensureSubscribed. */
    method Await(t: nat, ch: string, r: nat, handler: bool)
      requires r in recs
      modifies this`next, this`recs, this`attempts, this`pending, this`toServer, this`nextFrame, this`calls
      ensures View() == Awaiting(old(View()), t, ch, r, handler)
    {
      var w := EnsureSubscribed(ch, r);
      calls := calls[t := Call(ch, r, handler, epoch, 0, w)];
    }

    /** The channel's last handler is gone: forget it here, then tell the server. */
    method ReleaseChannel(ch: string)
      requires ch in channels && channels[ch] in recs
      modifies this`recs, this`channels, this`pending, this`toServer, this`nextFrame
      ensures Wire() == Release(old(Wire()), ch, phase == Connected)
    {
      ForgetChannel(ch);
      if phase == Connected && open {
        pending := pending + [Op(nextFrame, Unsub, ch)];
        toServer := toServer + [Frame(nextFrame, Unsub, ch)];
        nextFrame := nextFrame + 1;
      }
    }

    /** Subscription.unsubscribe(), up to its await. */
    method Unsubscribe(h: nat)
      requires h in handles && handles[h].rec in recs
      modifies this`handles, this`recs, this`channels, this`pending, this`toServer, this`nextFrame
      ensures Wire() == ClientTasks.Unsubscribe(old(View()), h).l
      ensures handles == old(handles)[h := old(handles)[h].(active := false)]
    {
      var k := handles[h];
      handles := handles[h := k.(active := false)];
      if !k.active || k.channel !in channels || channels[k.channel] != k.rec { return; }
      DetachHandler(k.rec, k.handler, h);
      if recs[k.rec].handlers == {} { ReleaseChannel(k.channel); }
    }

    method UnsubscribeStep(h: nat)
      requires h in handles && handles[h].rec in recs
      modifies this`handles, this`recs, this`channels, this`pending, this`toServer, this`nextFrame
      ensures View() == ClientTasks.Unsubscribe(old(View()), h)
    {
      Unsubscribe(h);
      UnsubscribePart(old(View()), h);
    }

    method TokenStep(a: nat)
      requires a in attempts && attempts[a].st.Authorizing?
      modifies this`attempts, this`tokens, this`pending, this`toServer, this`nextFrame
      ensures View() == TokenArrives(old(View()), a)
    {
      AuthorizeResolved(a);
      TokenPart(old(View()), a);
    }

    method FrameStep(r: Reply)
      requires toClient != [] && r == toClient[0]
      modifies this`toClient, this`pending, this`attempts, this`recs, this`channels, this`toServer, this`nextFrame
      ensures View() == Deliver(old(View()))
    {
      OnFrame(r);
      DeliverPart(old(View()));
    }

    /** authorize() has resolved. */
    method AuthorizeResolved(a: nat)
      requires a in attempts && attempts[a].st.Authorizing?
      modifies this`attempts, this`tokens, this`pending, this`toServer, this`nextFrame
      ensures var c' := TokenArrives(old(View()), a);
        Wire() == c'.l && attempts == c'.attempts && tokens == c'.tokens
    {
      var k := attempts[a];
      if phase != Connected || epoch != k.epoch || !open {
        attempts := attempts[a := k.(st := Settled(ConnClosed))];
        return;
      }
      attempts := attempts[a := k.(st := Waiting(nextFrame))];
      tokens := tokens + [TokenSent(ws, k.st.socket)];
      pending := pending + [Op(nextFrame, Sub, k.channel)];
      toServer := toServer + [Frame(nextFrame, Sub, k.channel)];
      nextFrame := nextFrame + 1;
    }

    /** authorize() has thrown. */
    method AuthorizeRejected(a: nat, out: Outcome)
      requires a in attempts && attempts[a].st.Authorizing?
      modifies this`attempts, this`abandoned
      ensures View() == TokenRefused(old(View()), a, out)
    {
      attempts := attempts[a := attempts[a].(st := Settled(out))];
      if !Transient(out) { abandoned := abandoned + {attempts[a].rec}; }
    }

    /** The finally() of an attempt. */
    method AttemptFinally(a: nat)
      requires a in attempts && attempts[a].st.Settled?
      modifies this`attempts, this`recs
      ensures View() == Finally(old(View()), a)
    {
      var k := attempts[a];
      if k.channel in channels && channels[k.channel] in recs {
        var r := channels[k.channel];
        if recs[r].inflight == Some(a) { recs := recs[r := recs[r].(inflight := None)]; }
      }
      attempts := attempts[a := k.(st := Done(k.st.out))];
    }

    /** The outcome a wait has reached, if it has. */
    method Poll(w: Wait) returns (out: Option<Outcome>)
      ensures out == Reached(View(), w)
    {
      match w
      case Now => out := Some(Ok);
      case On(a) =>
        out := None;
        if a in attempts && attempts[a].st.Done? { out := Some(attempts[a].st.out); }
    }

    /** The catch block of subscribe(), when there is no newer attempt to adopt: it throws what it
        caught, but for a cut connection the refusal the record got meanwhile, if any. */
    method SubscribeFailed(t: nat, e: Outcome) returns (thrown: Outcome)
      requires t in calls && calls[t].rec in recs
      modifies this`calls, this`recs, this`channels
      ensures View() == FailCall(old(View()), t) && calls == old(calls) - {t}
      ensures var refusal := old(recs)[old(calls)[t].rec].refusal;
        thrown == if e.ConnClosed? && refusal.Some? then Rejected(refusal.value) else e
    {
      var k := calls[t];
      thrown := Cause(e, recs[k.rec].refusal);
      calls := calls - {t};
      assert View() == old(View()).(calls := old(calls) - {t});
      DetachHandler(k.rec, k.handler, t);
      if k.channel in channels && channels[k.channel] == k.rec && !recs[k.rec].confirmed && recs[k.rec].handlers == {} {
        ForgetChannel(k.channel);
      }
    }

    /** held.handlers.delete(handler), when the call passed one. */
    method DetachHandler(r: nat, handler: bool, t: nat)
      requires r in recs
      modifies this`recs
      ensures View() == DropHandler(old(View()), r, handler, t)
    {
      if handler { recs := recs[r := recs[r].(handlers := recs[r].handlers - {t})]; }
    }

    /** #cancelRetry and #channels.delete. */
    method ForgetChannel(ch: string)
      requires ch in channels && channels[ch] in recs
      modifies this`recs, this`channels
      ensures Wire() == Forget(old(Wire()), ch, None)
    {
      recs := recs[channels[ch] := recs[channels[ch]].(retry := None)];
      channels := channels - {ch};
    }

    /** subscribe() adopts the attempt of a newer connection and awaits that. */
    method SubscribeAdopts(t: nat)
      requires t in calls && calls[t].rec in recs
      modifies this`next, this`recs, this`attempts, this`pending, this`toServer, this`nextFrame, this`calls
      ensures View() == Adopt(old(View()), t) && t in calls
    {
      var k := calls[t];
      var w := EnsureSubscribed(k.channel, k.rec);
      calls := calls[t := k.(epoch := epoch, passes := k.passes + 1, wait := w)];
    }

    /** subscribe() after its await: hand out the handle, adopt the attempt of a newer connection
        that has taken the channel over, or fail. */
    method SubscribeResumes(t: nat) returns (thrown: Option<Outcome>)
      requires t in calls && calls[t].rec in recs && Reached(View(), calls[t].wait).Some?
      modifies this`next, this`recs, this`channels, this`attempts, this`pending, this`toServer, this`nextFrame,
        this`calls, this`handles
      ensures View() == ResumeCall(old(View()), t)
      ensures var k, ok := old(calls[t]), Reached(old(View()), old(calls[t].wait)) == Some(Ok);
        && (ok ==> thrown.None? && handles == old(handles)[t := Handle(k.channel, k.rec, k.handler, true)])
        && (ok ==> t !in calls && Wire() == old(Wire()))
        && (!ok ==> handles == old(handles) && (thrown.None? <==> t in calls))
      ensures thrown.Some? ==> !thrown.value.Ok?
    {
      thrown := None;
      var k := calls[t];
      var out := Poll(k.wait);
      if out.value.Ok? {
        calls := calls - {t};
        Attach(t, k.channel, k.rec, k.handler);
      } else if out.value.ConnClosed? && phase == Connected && epoch != k.epoch && k.channel in channels
        && channels[k.channel] == k.rec {
        SubscribeAdopts(t);
      } else {
        var e := SubscribeFailed(t, out.value);
        thrown := Some(e);
      }
    }

    /** #pending.indexOf and splice. */
    method RemovePending(op: nat)
      modifies this`pending
      ensures pending == RemoveId(old(pending), op)
    {
      var i := 0;
      while i < |pending| && pending[i].id != op
        invariant 0 <= i <= |pending| && pending == old(pending)
        invariant forall j :: 0 <= j < i ==> pending[j].id != op
      {
        i := i + 1;
      }
      RemoveIdAt(pending, op, i);
      if i < |pending| { pending := pending[..i] + pending[i + 1..]; }
    }

    /** The ack timer of a pending operation fires. */
    method AckTimedOut(op: nat)
      modifies this`pending, this`attempts
      ensures Wire() == AckTimeout(old(Wire()), op) && attempts == Resolve(old(attempts), {op}, Failed)
    {
      RemovePending(op);
      SettlePromise(op, Failed);
    }

    /** A frame arrives: the oldest reply, an ack or an error that names its operation. */
    method OnFrame(r: Reply)
      requires toClient != [] && r == toClient[0]
      modifies this`toClient, this`pending, this`attempts, this`recs, this`channels, this`toServer, this`nextFrame
      ensures Wire() == Receive(old(Wire()))
      ensures var idx := FirstMatch(old(pending), r.kind, r.channel);
        attempts == if idx == -1 then old(attempts)
          else Resolve(old(attempts), {old(pending)[idx].id}, if r.verdict.Acked? then Ok else Rejected(r.verdict.code))
    {
      toClient := toClient[1..];
      assert Wire() == old(Wire()).(toClient := toClient);
      if r.verdict.Acked? { SettleOp(r.kind, r.channel); } else { OnErrorFrame(Naming(r)); }
    }

    /** connect(), or the reconnect timer: a new socket. */
    method Dial(phase: Phase)
      modifies this`phase, this`dialed, this`ws
      ensures View() == old(View()).(phase := phase, dialed := true, ws := old(ws) + 1)
    {
      this.phase := phase;
      dialed := true;
      ws := ws + 1;
    }

    /** A #resubscribe returns to whoever started it. */
    method ResubscribeReturns(t: nat)
      requires t in resubs
      modifies this`resubs, this`restores
      ensures View() == FinishResub(old(View()), t)
    {
      var x := resubs[t].restore;
      resubs := resubs - {t};
      if x.Some? && x.value in restores {
        restores := restores[x.value := restores[x.value].(busy := false)];
      }
    }

    /** #resubscribe resumes: a transient failure arms the retry timer. */
    method ResubscribeResumes(t: nat)
      requires t in resubs && resubs[t].rec in recs && Reached(View(), resubs[t].wait).Some?
      modifies this`resubs, this`restores, this`recs
      ensures View() == ResumeResub(old(View()), t)
    {
      var k := resubs[t];
      var out := Poll(k.wait);
      if Transient(out.value) && k.channel in channels && channels[k.channel] == k.rec && phase == Connected
        && epoch == k.epoch {
        recs := recs[k.rec := recs[k.rec].(retry := Some(Retry(k.epoch, k.retries + 1)))];
        assert View() == ArmRetry(old(View()), k.rec, Some(Retry(k.epoch, k.retries + 1)));
      }
      ResubscribeReturns(t);
    }

    /** Start a #resubscribe and run it to its first await. */
    method StartResubscribe(ch: string, r: nat, retries: nat, restore: Option<nat>)
      requires r in recs
      modifies this`next, this`recs, this`attempts, this`pending, this`toServer, this`nextFrame, this`resubs
      ensures View() == StartResub(old(View()), ch, r, retries, restore)
    {
      var t := TakeId();
      StartResubAdds(old(View()), ch, r, retries, restore);
      var w := EnsureSubscribed(ch, r);
      AwaitResub(t, Resub(ch, r, epoch, retries, w, restore));
    }

    /** The retry timer of a record fires: #resubscribe again, if its connection is still the
        current one and the record still its channel's. */
    method RetryFires(r: nat)
      requires r in recs && recs[r].retry.Some?
      modifies this`next, this`recs, this`attempts, this`pending, this`toServer, this`nextFrame, this`resubs
      ensures View() == ClientTasks.RetryFires(old(View()), r)
    {
      var rec := recs[r];
      var retry := rec.retry.value;
      ClearTimer(r);
      if !(phase == Connected && epoch == retry.epoch) { return; }
      if !(rec.channel in channels && channels[rec.channel] == r) { return; }
      RetryCommutes(old(View()), r);
      StartResubscribe(rec.channel, r, retry.retries, None);
    }

    method ClearTimer(r: nat)
      requires r in recs
      modifies this`recs
      ensures View() == ArmRetry(old(View()), r, None)
    {
      recs := recs[r := recs[r].(retry := None)];
    }

    /** #resubscribeAll between two awaits: stop on another connection or at the end of the list,
        skip a channel that is gone, otherwise start its #resubscribe and wait for it. */
    method RestoreNext(x: nat)
      requires x in restores && !restores[x].busy && forall ch :: ch in channels ==> Wire().Has(ch)
      modifies this`next, this`recs, this`attempts, this`pending, this`toServer, this`nextFrame, this`resubs,
        this`restores
      ensures View() == ResumeRestore(old(View()), x)
    {
      var k := restores[x];
      if k.remaining == [] || !(phase == Connected && epoch == k.epoch) {
        restores := restores - {x};
        return;
      }
      var ch := k.remaining[0];
      if ch in channels {
        assert Wire().Has(ch);
        StartResubscribe(ch, channels[ch], 0, Some(x));
      }
      SetRestore(x, Restore(k.epoch, k.remaining[1..], ch in channels));
    }

    method SetRestore(x: nat, k: Restore)
      modifies this`restores
      ensures View() == old(View()).(restores := old(restores)[x := k])
    {
      restores := restores[x := k];
    }

    method TakeId() returns (t: nat)
      modifies this`next
      ensures t == old(next) && View() == old(View()).(next := t + 1)
    {
      t := next;
      next := next + 1;
    }

    method AwaitResub(t: nat, k: Resub)
      modifies this`resubs
      ensures View() == old(View()).(resubs := old(resubs)[t := k])
    {
      resubs := resubs[t := k];
    }

    /** The connection's own state in #onConnected: a new epoch on a new socket id. */
    method EnterEpoch(sid: nat)
      modifies this`epoch, this`socket, this`issued
      ensures View() == old(View()).(epoch := old(epoch) + 1, socket := Some(sid), issued := old(issued)[ws := sid])
    {
      epoch := epoch + 1;
      socket := Some(sid);
      issued := issued[ws := sid];
    }

    method SetConnected()
      modifies this`mark, this`open, this`phase
      ensures View() == old(View()).(mark := next, phase := Connected, l := old(Wire()).(open := true))
    {
      mark := next;
      open := true;
      phase := Connected;
    }

    /** #onConnected. */
    method OnConnected(sid: nat, order: seq<string>)
      modifies this`epoch, this`socket, this`issued, this`mark, this`open, this`phase, this`restores, this`next,
        this`ever, this`attempt
      ensures View() == Hello(old(View()), sid, order) && attempt == 0
    {
      EnterEpoch(sid);
      SetConnected();
      RestoreAll(order);
      attempt := 0;
    }

    /** #resubscribeAll is started by every `connected` frame but the first. */
    method RestoreAll(order: seq<string>)
      modifies this`restores, this`next, this`ever
      ensures View() == old(View()).(
        ever := true,
        restores := if old(ever) then old(restores)[old(next) := Restore(epoch, order, false)] else old(restores),
        next := if old(ever) then old(next) + 1 else old(next))
    {
      if ever {
        restores := restores[next := Restore(epoch, order, false)];
        next := next + 1;
      }
      ever := true;
    }

    /** #failPending: every pending promise is rejected. */
    method FailPending()
      modifies this`pending, this`attempts
      ensures pending == []
      ensures attempts == Resolve(old(attempts), PendingIds(old(pending)), ConnClosed)
    {
      var todo := pending;
      pending := [];
      var i := 0;
      while i < |todo|
        invariant 0 <= i <= |todo| && pending == []
        invariant attempts == Resolve(old(attempts), PendingIds(todo[..i]), ConnClosed)
      {
        SettlePromise(todo[i].id, ConnClosed);
        assert todo[..i + 1] == todo[..i] + [todo[i]];
        i := i + 1;
      }
      assert todo[..i] == todo;
    }

    /** The loop of #onDrop over the records that still have a name. `names` is the iteration
        order of #channels. */
    method ResetAll(names: seq<string>)
      requires forall ch :: ch in names <==> ch in channels
      requires forall ch :: ch in channels ==> channels[ch] in recs
      modifies this`recs
      ensures Wire() == ResetRecords(old(Wire()))
    {
      var i := 0;
      while i < |names|
        invariant 0 <= i <= |names|
        invariant recs.Keys == old(recs.Keys)
        invariant forall r :: r in recs ==>
          recs[r] == if exists j :: 0 <= j < i && channels[names[j]] == r then ResetRecord(old(recs)[r])
            else old(recs)[r]
      {
        var r := channels[names[i]];
        recs := recs[r := recs[r].(confirmed := false, inflight := None, retry := None)];
        i := i + 1;
      }
      forall r | r in recs
        ensures recs[r] == if r in channels.Values then ResetRecord(old(recs)[r]) else old(recs)[r]
      {
        if r in channels.Values {
          var ch :| ch in channels && channels[ch] == r;
          var j :| 0 <= j < |names| && names[j] == ch;
          assert channels[names[j]] == r;
        }
      }
    }

    /** The loop of #onDrop and close() that ends every record for good. */
    method ClearAll(names: seq<string>)
      requires forall ch :: ch in names <==> ch in channels
      requires forall ch :: ch in channels ==> channels[ch] in recs
      modifies this`recs, this`channels
      ensures Wire() == ClearRecords(old(Wire()))
    {
      var i := 0;
      while i < |names|
        invariant 0 <= i <= |names| && channels == old(channels)
        invariant recs.Keys == old(recs.Keys)
        invariant forall r :: r in recs ==>
          recs[r] == if exists j :: 0 <= j < i && channels[names[j]] == r
            then old(recs)[r].(handlers := {}, retry := None) else old(recs)[r]
      {
        var r := channels[names[i]];
        recs := recs[r := recs[r].(handlers := {}, retry := None)];
        i := i + 1;
      }
      forall r | r in recs
        ensures recs[r] == if r in channels.Values then old(recs)[r].(handlers := {}, retry := None) else old(recs)[r]
      {
        if r in channels.Values {
          var ch :| ch in channels && channels[ch] == r;
          var j :| 0 <= j < |names| && names[j] == ch;
          assert channels[names[j]] == r;
        }
      }
      channels := map[];
    }

    /** The socket is gone, and with it whatever was on the wire. */
    method LoseSocket(next: Phase)
      modifies this`phase, this`dialed, this`socket, this`open, this`pending, this`attempts, this`toServer,
        this`toClient, this`held, this`tainted
      ensures View() == Disconnect(old(View()), next, old(Wire()))
    {
      FailPending();
      ClearWire();
      assert Wire() == Cut(old(Wire()));
      GoOffline(next);
    }

    method GoOffline(next: Phase)
      modifies this`phase, this`dialed, this`socket
      ensures View() == old(View()).(phase := next, dialed := false, socket := None)
    {
      dialed := false;
      socket := None;
      phase := next;
    }

    method ClearWire()
      requires pending == []
      modifies this`open, this`toServer, this`toClient, this`held, this`tainted
      ensures Wire() == Cut(old(Wire()))
    {
      open := false;
      toServer := [];
      toClient, held, tainted := [], {}, {};
    }

    /** #onDrop: try again if an attempt is left, otherwise close for good. */
    method OnDrop(names: seq<string>)
      requires forall ch :: ch in names <==> ch in channels
      requires forall ch :: ch in channels ==> channels[ch] in recs
      modifies this`phase, this`dialed, this`socket, this`open, this`pending, this`attempts, this`toServer,
        this`toClient, this`held,
        this`tainted, this`recs, this`channels, this`attempt
      ensures View() == Drop(old(View()), old(CanRetry()))
      ensures phase == Closed <==> reconnect.Never? || (reconnect.UpTo? && old(attempt) >= reconnect.maxAttempts)
      ensures phase != Closed ==> phase == Reconnecting && attempt == old(attempt) + 1
    {
      var canRetry := CanRetry();
      LoseSocket(if canRetry then Reconnecting else Closed);
      ResetAll(names);
      if canRetry { attempt := attempt + 1; } else { ClearAll(names); }
    }

    /** close(). */
    method Close(names: seq<string>)
      requires forall ch :: ch in names <==> ch in channels
      requires forall ch :: ch in channels ==> channels[ch] in recs
      modifies this`phase, this`dialed, this`socket, this`open, this`pending, this`attempts, this`toServer,
        this`toClient, this`held,
        this`tainted, this`recs, this`channels
      ensures View() == ClientTasks.Close(old(View()))
    {
      LoseSocket(Closed);
      ClearAll(names);
    }

    // ----- the event loop ---------------------------------------------------------------------------------

    /** What the connection does. */
    method ConnectionEvent(act: Action, names: seq<string>, r: Reply)
      requires Enabled(View(), act) && OfConnection(act) && !act.DoServe? && !act.SocketCloses?
      requires (forall ch :: ch in names <==> ch in channels) && (forall ch :: ch in channels ==> channels[ch] in recs)
      requires (act.DoDeliver? ==> r == toClient[0]) && (act.DoDrop? ==> act.canRetry == CanRetry())
      modifies this
      ensures View() == Step(old(View()), act)
    {
      match act {
        case DoConnect => Dial(Connecting);
        case DoDial => Dial(Reconnecting);
        case DoHello(sid, order) => OnConnected(sid, order);
        case DoDrop(canRetry) => OnDrop(names);
        case DoClose => Close(names);
        case TimesOut(op) => AckTimedOut(op);
        case DoDeliver => FrameStep(r);
      }
    }

    /** What a user or a promise does. */
    method TaskEvent(act: Action)
      requires Enabled(View(), act) && !OfConnection(act)
      modifies this
      ensures View() == Step(old(View()), act)
    {
      match act {
        case DoSubscribe(ch, handler) => SubscribeOn(ch, handler);
        case DoUnsubscribe(h) => UnsubscribeStep(h);
        case Authorized(a) => TokenStep(a);
        case AuthorizeFails(a, out) => AuthorizeRejected(a, out);
        case RunFinally(a) => AttemptFinally(a);
        case DoResumeCall(t) => var thrown := SubscribeResumes(t);
        case DoResumeResub(t) => ResubscribeResumes(t);
        case DoResumeRestore(x) => RestoreNext(x);
        case DoRetryFires(r) => RetryFires(r);
      }
    }

    /** The event loop: a valid client stays valid whatever user calls, socket events, timers and
        settled promises it handles, in any order, and takes the machine's step on each. `names` is
        the iteration order of #channels and r the frame that arrives. */
    method OnEvent(act: Action, names: seq<string>, r: Reply)
      requires Valid() && Enabled(View(), act) && !act.DoServe? && !act.SocketCloses?
      requires (forall ch :: ch in names <==> ch in channels) && (act.DoDeliver? ==> r == toClient[0])
      requires act.DoDrop? ==> act.canRetry == CanRetry()
      modifies this
      ensures Valid() && View() == Step(old(View()), act)
    {
      StepKeeps(View(), act);
      if OfConnection(act) { ConnectionEvent(act, names, r); } else { TaskEvent(act); }
    }
  }

  /** A drop is incidental if the server has refused the channel since. */
  function Cause(e: Outcome, refusal: Option<string>): Outcome {
    if e.ConnClosed? && refusal.Some? then Rejected(refusal.value) else e
  }

  /** FirstMatch is the only index with its defining property. */
  lemma FirstMatchUnique(pending: seq<Op>, kind: Kind, ch: string, i: int)
    requires -1 <= i < |pending|
    requires i >= 0 ==> Matches(pending[i], kind, ch)
    requires forall j :: 0 <= j < (if i == -1 then |pending| else i) ==> !Matches(pending[j], kind, ch)
    ensures i == FirstMatch(pending, kind, ch)
  {
    var k := FirstMatch(pending, kind, ch);
  }

  lemma FirstSubUnique(pending: seq<Op>, i: int)
    requires -1 <= i < |pending|
    requires i >= 0 ==> pending[i].kind == Sub
    requires forall j :: 0 <= j < (if i == -1 then |pending| else i) ==> pending[j].kind != Sub
    ensures i == FirstSub(pending)
  {
    var k := FirstSub(pending);
  }

  /** A frame that names a subscribe or unsubscribe settles an operation of that kind on that channel, or
      none if there is none; one that names anything else, a publish say, settles nothing. */
  lemma BlamedMeans(frame: ErrorMessage, pending: seq<Op>)
    requires frame.op.Some? || frame.channel.Some?
    ensures var i := Blamed(frame, pending);
      && (i != -1 ==> frame.op == Some(if pending[i].kind == Sub then "subscribe" else "unsubscribe"))
      && (i != -1 ==> pending[i].channel == if frame.channel.Some? then frame.channel.value else "")
      && (forall r: Reply :: r.verdict.Refused? && frame == Naming(r) && i == -1 ==>
            forall op :: op in pending ==> !Matches(op, r.kind, r.channel))
    ensures frame.op == Some("publish") || frame.op == None ==> Blamed(frame, pending) == -1
  {
  }

  /** The operation settled is the first of its own kind and channel, however it was found. */
  lemma BlamedFirst(frame: ErrorMessage, pending: seq<Op>)
    requires Blamed(frame, pending) != -1
    ensures var i := Blamed(frame, pending); FirstMatch(pending, pending[i].kind, pending[i].channel) == i
  {
    var i := Blamed(frame, pending);
    FirstMatchUnique(pending, pending[i].kind, pending[i].channel, i);
  }

  /** An older server's refusal, which names nothing, still settles the subscribe it answers as long as
      that one is pending, if the oldest pending subscribe is of an untainted channel. */
  lemma UnnamedRefusalFindsItsOp(l: Link)
    requires WireInv(l) && l.toClient != []
    requires var r := l.toClient[0]; r.kind == Sub && Op(r.id, Sub, r.channel) in l.pending
    requires l.toClient[0].verdict.Refused? && l.toClient[0].verdict.code in SUBSCRIBE_ERROR_CODES
    requires l.pending[FirstSub(l.pending)].channel !in l.tainted
    ensures var r := l.toClient[0];
      l.pending[Blamed(ErrorMessage(None, None, r.verdict.code), l.pending)] == Op(r.id, Sub, r.channel)
  {
    var r, i := l.toClient[0], FirstSub(l.pending);
    var k :| 0 <= k < |l.pending| && l.pending[k] == Op(r.id, Sub, r.channel);
    FirstMatchIsOldest(l, i);
  }

  lemma {:induction false} RemoveIdAt(pending: seq<Op>, op: nat, i: nat)
    requires i <= |pending| && (forall j :: 0 <= j < i ==> pending[j].id != op)
      && (i < |pending| ==> pending[i].id == op)
    ensures RemoveId(pending, op) == if i < |pending| then pending[..i] + pending[i + 1..] else pending
  {
    if i > 0 {
      var tail := pending[1..];
      assert forall j :: 0 <= j < i - 1 ==> tail[j] == pending[j + 1];
      RemoveIdAt(tail, op, i - 1);
      assert pending == [pending[0]] + tail;
      assert i < |pending| ==> tail[i - 1 + 1..] == pending[i + 1..] && [pending[0]] + tail[..i - 1] == pending[..i];
    } else if pending != [] {
      assert pending[..0] + pending[1..] == pending[1..];
    }
  }

  // ----- which part of the state a step is about -----------------------------------------------------------

  lemma UnsubscribePart(c: Client, h: nat)
    requires h in c.handles && c.handles[h].rec in c.l.recs
    ensures var c' := ClientTasks.Unsubscribe(c, h);
      c' == c.(l := c'.l, handles := c.handles[h := c.handles[h].(active := false)])
  {
  }

  lemma TokenPart(c: Client, a: nat)
    requires a in c.attempts && c.attempts[a].st.Authorizing?
    ensures var c' := TokenArrives(c, a); c' == c.(l := c'.l, attempts := c'.attempts, tokens := c'.tokens)
  {
    TokenArrivesMoves(c, a);
    assert TokenArrives(c, a).abandoned == c.abandoned;
  }

  lemma DeliverPart(c: Client)
    requires c.l.toClient != []
    ensures var r := c.l.toClient[0]; var idx := FirstMatch(c.l.pending, r.kind, r.channel);
      Deliver(c) == c.(l := Receive(c.l), attempts := if idx == -1 then c.attempts
        else Resolve(c.attempts, {c.l.pending[idx].id}, if r.verdict.Acked? then Ok else Rejected(r.verdict.code)))
  {
  }

  lemma LinkCommutes(l: Link, ch: string, r: nat, a: nat)
    requires r in l.recs
    ensures var k := l.recs[r];
      StartLink(l.(recs := l.recs[r := k.(retry := None)]), ch, r, a) ==
      StartLink(l, ch, r, a).(recs := l.recs[r := k.(retry := None, inflight := Some(a))])
    ensures StartLink(l, ch, r, a).recs == l.recs[r := l.recs[r].(inflight := Some(a))]
  {
    var k := l.recs[r];
    assert l.recs[r := k.(retry := None)][r := k.(retry := None, inflight := Some(a))]
      == l.recs[r := k.(retry := None, inflight := Some(a))];
  }

  lemma AttemptCommutes(c: Client, ch: string, r: nat)
    requires r in c.l.recs
    ensures StartAttempt(ArmRetry(c, r, None), ch, r) == ArmRetry(StartAttempt(c, ch, r), r, None)
  {
    LinkCommutes(c.l, ch, r, c.next);
    var k := c.l.recs[r];
    assert c.l.recs[r := k.(inflight := Some(c.next))][r := k.(retry := None, inflight := Some(c.next))] ==
      c.l.recs[r := k.(retry := None, inflight := Some(c.next))];
  }

  lemma EnsureCommutes(c: Client, ch: string, r: nat)
    requires r in c.l.recs
    ensures var (c1, w) := EnsureSubscribed(c, ch, r);
      r in c1.l.recs && EnsureSubscribed(ArmRetry(c, r, None), ch, r) == (ArmRetry(c1, r, None), w)
  {
    AttemptCommutes(c, ch, r);
  }

  lemma DisarmLast(c: Client, r: nat, resubs: map<nat, Resub>)
    requires r in c.l.recs
    ensures ArmRetry(c.(resubs := resubs), r, None) == ArmRetry(c, r, None).(resubs := resubs)
  {
  }

  /** Disarming the timer before or after the new attempt starts is the same. */
  lemma RetryCommutes(c: Client, r: nat)
    requires r in c.l.recs && c.l.recs[r].retry.Some?
    ensures var rec := c.l.recs[r];
      StartResub(ArmRetry(c, r, None), rec.channel, r, rec.retry.value.retries, None) ==
      ArmRetry(StartResub(c, rec.channel, r, rec.retry.value.retries, None), r, None)
  {
    var ch, retries := c.l.recs[r].channel, c.l.recs[r].retry.value.retries;
    var c0 := c.(next := c.next + 1);
    var (c1, w) := EnsureSubscribed(c0, ch, r);
    assert ArmRetry(c, r, None).(next := c.next + 1) == ArmRetry(c0, r, None);
    EnsureCommutes(c0, ch, r);
    StartResubAdds(c, ch, r, retries, None);
    StartResubAdds(ArmRetry(c, r, None), ch, r, retries, None);
    DisarmLast(c1, r, c1.resubs[c.next := Resub(ch, r, c.epoch, retries, w, None)]);
  }

  ghost function Awaiting(c: Client, t: nat, ch: string, r: nat, handler: bool): Client
    requires r in c.l.recs
  {
    var (c2, w) := EnsureSubscribed(c, ch, r);
    c2.(calls := c2.calls[t := Call(ch, r, handler, c.epoch, 0, w)])
  }

  /** subscribe() once the record is joined. */
  lemma SubscribeJoined(c: Client, ch: string, handler: bool)
    requires c.l.Has(ch) || ch !in c.l.channels
    ensures var c1 := Joined(c, ch, handler); var r := c1.l.channels[ch];
      ClientTasks.Subscribe(c, ch, handler) ==
        if c1.l.recs[r].confirmed then c1.(handles := c1.handles[c.next := Handle(ch, r, handler, true)])
        else Awaiting(c1, c.next, ch, r, handler)
  {
  }
}
