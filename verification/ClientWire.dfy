/** One connection of the reconnecting client (clients/js/src/index.ts) joined to the
    server that answers it: the client's channel records and pending operations, the
    frames in flight in both directions, and the channels the server holds for the
    connection. Frames carry their send position as an id; neither side reads it, it
    only lets the invariants speak about order. */
module ClientWire {
  import opened Options

  datatype Kind = Sub | Unsub

  /** An entry of the client's #pending list. */
  datatype Op = Op(id: nat, kind: Kind, channel: string)

  /** A subscribe or unsubscribe frame travelling to the server. */
  datatype Frame = Frame(id: nat, kind: Kind, channel: string)

  /** A `subscribed` / `unsubscribed` ack, or an error frame naming op and channel. */
  datatype Verdict = Acked | Refused(code: string)
  datatype Reply = Reply(id: nat, kind: Kind, channel: string, verdict: Verdict)

  /** An armed retry timer: the epoch it is bound to and the retry count it carries. */
  datatype Retry = Retry(epoch: nat, retries: nat)

  /** A ChannelRecord; `inflight` names an attempt of ClientTasks. */
  datatype Record = Record(
    channel: string,
    handlers: set<nat>,
    confirmed: bool,
    inflight: Option<nat>,
    retry: Option<Retry>,
    refusal: Option<string>)

  /** `channels` maps names to record identities, `recs` holds every record ever made.
      `open` is the socket's readyState == OPEN. `held` is the server's side. A channel is
      `tainted` once, on this connection, an unsubscribe for it was refused or a reply
      about it was lost. */
  datatype Link = Link(
    channels: map<string, nat>,
    recs: map<nat, Record>,
    pending: seq<Op>,
    open: bool,
    nextFrame: nat,
    toServer: seq<Frame>,
    toClient: seq<Reply>,
    held: set<string>,
    tainted: set<string>)
  {
    predicate Has(ch: string) { ch in channels && channels[ch] in recs }

    predicate Confirmed(ch: string) { Has(ch) && recs[channels[ch]].confirmed }
  }

  const DEFINITIVE_CODES: set<string> :=
    {"AUTH_FAILED", "AUTH_REPLAYED", "RESERVED_CHANNEL", "BAD_CHANNEL", "SUBSCRIBE_FAILED"}

  /** Refusals that retrying cannot fix. */
  predicate IsDefinitive(code: string) {
    code in DEFINITIVE_CODES || "LIMIT_" <= code
  }

  // ----- #pending ---------------------------------------------------------------

  predicate Matches(op: Op, kind: Kind, ch: string) { op.kind == kind && op.channel == ch }

  /** The first pending operation of this kind for this channel, or -1. */
  function FirstMatch(pending: seq<Op>, kind: Kind, ch: string): (i: int)
    ensures -1 <= i < |pending|
    ensures i >= 0 ==> Matches(pending[i], kind, ch)
    ensures forall j :: 0 <= j < (if i == -1 then |pending| else i) ==> !Matches(pending[j], kind, ch)
  {
    if pending == [] then -1
    else if Matches(pending[0], kind, ch) then 0
    else
      var rest := FirstMatch(pending[1..], kind, ch);
      assert forall j :: 1 <= j < |pending| ==> pending[j] == pending[1..][j - 1];
      if rest == -1 then -1 else rest + 1
  }

  function RemoveAt(pending: seq<Op>, i: nat): seq<Op>
    requires i < |pending|
  {
    pending[..i] + pending[i + 1..]
  }

  function RemoveId(pending: seq<Op>, id: nat): (out: seq<Op>)
  {
    if pending == [] then []
    else if pending[0].id == id then pending[1..]
    else [pending[0]] + RemoveId(pending[1..], id)
  }

  predicate UnsubPending(pending: seq<Op>, ch: string) {
    exists op :: op in pending && Matches(op, Unsub, ch)
  }

  // ----- client steps -------------------------------------------------------------

  /** #sendOp on an open socket: queue the operation and put its frame on the wire. */
  function PushOp(l: Link, kind: Kind, ch: string): Link {
    l.(pending := l.pending + [Op(l.nextFrame, kind, ch)],
       toServer := l.toServer + [Frame(l.nextFrame, kind, ch)],
       nextFrame := l.nextFrame + 1)
  }

  /** #sendRaw of an unsubscribe: no ack tracking, and nothing on a socket not open. */
  function SendUndo(l: Link, ch: string): Link {
    if !l.open then l
    else l.(toServer := l.toServer + [Frame(l.nextFrame, Unsub, ch)], nextFrame := l.nextFrame + 1)
  }

  function SetConfirmed(l: Link, ch: string): Link
    requires l.Has(ch)
  {
    l.(recs := l.recs[l.channels[ch] := l.recs[l.channels[ch]].(confirmed := true)])
  }

  /** What #settleOp does once the settled operation is off the list. */
  function AckEffect(l: Link, kind: Kind, ch: string, undoneLater: bool): Link {
    if kind != Sub then l
    else if l.Has(ch) then SetConfirmed(l, ch)
    else if ch !in l.channels && !undoneLater then SendUndo(l, ch)
    else l
  }

  /** #settleOp, after an ack for (kind, ch) has left the wire. */
  function SettleOp(l: Link, kind: Kind, ch: string): Link {
    var idx := FirstMatch(l.pending, kind, ch);
    var l1 := if idx == -1 then l else l.(pending := RemoveAt(l.pending, idx));
    AckEffect(l1, kind, ch, idx != -1 && kind == Sub && UnsubPending(l1.pending[idx..], ch))
  }

  /** Forget a record: cancel its timer and drop the channel name. */
  function Forget(l: Link, ch: string, refusal: Option<string>): Link
    requires l.Has(ch)
  {
    var rec := l.recs[l.channels[ch]];
    l.(recs := l.recs[l.channels[ch] := rec.(retry := None, refusal := if refusal.Some? then refusal else rec.refusal)],
       channels := l.channels - {ch})
  }

  /** #onErrorFrame for an error that names a subscribe or unsubscribe of `ch`. */
  function ErrorFrame(l: Link, kind: Kind, ch: string, code: string): Link {
    var idx := FirstMatch(l.pending, kind, ch);
    if idx == -1 then l
    else
      var l1 := l.(pending := RemoveAt(l.pending, idx));
      if kind == Sub && IsDefinitive(code) && l1.Has(ch) && !l1.Confirmed(ch)
      then Forget(l1, ch, Some(code))
      else l1
  }

  /** The ack timer of one pending operation fires. */
  function AckTimeout(l: Link, id: nat): Link { l.(pending := RemoveId(l.pending, id)) }

  /** The client takes the oldest reply off the wire. */
  function Receive(l: Link): Link
    requires l.toClient != []
  {
    var r := l.toClient[0];
    var l1 := l.(toClient := l.toClient[1..]);
    if r.verdict.Acked? then SettleOp(l1, r.kind, r.channel)
    else ErrorFrame(l1, r.kind, r.channel, r.verdict.code)
  }

  /** The last handle of a channel is released: forget the record, then tell the server. */
  function ReleaseLast(l: Link, ch: string): Link
    requires l.Has(ch)
  {
    var l1 := Forget(l, ch, None);
    if l.open then PushOp(l1, Unsub, ch) else l1
  }

  // ----- server step ----------------------------------------------------------------

  /** handleSubscribe / handleUnsubscribe answer the oldest frame. `verdict` is what the
      server decided; `lost` says the reply found the send buffer full (sendAck). */
  function Serve(l: Link, verdict: Verdict, lost: bool): Link
    requires l.toServer != []
  {
    var f := l.toServer[0];
    var held := if verdict.Refused? then l.held else if f.kind == Sub then l.held + {f.channel}
      else l.held - {f.channel};
    l.(toServer := l.toServer[1..],
       held := held,
       toClient := if lost then l.toClient else l.toClient + [Reply(f.id, f.kind, f.channel, verdict)],
       tainted := if lost || (f.kind == Unsub && verdict.Refused?) then l.tainted + {f.channel} else l.tainted)
  }

  // ----- the joint invariant ------------------------------------------------------------

  ghost predicate Ordered(l: Link) {
    && (forall i, j :: 0 <= i < j < |l.toClient| ==> l.toClient[i].id < l.toClient[j].id)
    && (forall i, j :: 0 <= i < j < |l.toServer| ==> l.toServer[i].id < l.toServer[j].id)
    && (forall r, f :: r in l.toClient && f in l.toServer ==> r.id < f.id)
    && (forall r :: r in l.toClient ==> r.id < l.nextFrame)
    && (forall f :: f in l.toServer ==> f.id < l.nextFrame)
    && Sorted(l.pending)
    && (forall op :: op in l.pending ==> op.id < l.nextFrame)
  }

  ghost predicate Sorted(pending: seq<Op>) {
    forall i, j :: 0 <= i < j < |pending| ==> pending[i].id < pending[j].id
  }

  ghost predicate Answers(r: Reply, op: Op) { r.id == op.id && r.kind == op.kind && r.channel == op.channel }

  /** The frame behind a pending operation, or the reply to it, is still on the wire. */
  ghost predicate Outstanding(toServer: seq<Frame>, toClient: seq<Reply>, op: Op) {
    || Frame(op.id, op.kind, op.channel) in toServer
    || (exists r :: r in toClient && Answers(r, op))
  }

  ghost predicate PendingOutstanding(l: Link) {
    forall op :: op in l.pending && op.channel !in l.tainted ==> Outstanding(l.toServer, l.toClient, op)
  }

  ghost predicate IsAck(r: Reply, ch: string, id: int) {
    r.kind == Sub && r.channel == ch && r.verdict.Acked? && r.id > id
  }

  ghost predicate AckAfter(toClient: seq<Reply>, ch: string, id: int) {
    exists r :: r in toClient && IsAck(r, ch, id)
  }

  /** An `unsubscribed` on its way means the server let go, unless a later subscribe was acked. */
  ghost predicate Truthful(l: Link, u: Reply) {
    (u.kind == Unsub && u.verdict.Acked? && u.channel in l.held && u.channel !in l.tainted) ==>
      AckAfter(l.toClient, u.channel, u.id)
  }

  ghost predicate UnsubOnWire(toServer: seq<Frame>, ch: string) {
    exists f :: f in toServer && f.kind == Unsub && f.channel == ch
  }

  /** A channel the server holds is confirmed by the client, about to be undone, or about to
      be reported to the client. */
  ghost predicate Accounted(l: Link, ch: string) {
    (ch in l.held && ch !in l.tainted) ==>
      l.Confirmed(ch) || UnsubOnWire(l.toServer, ch) || AckAfter(l.toClient, ch, -1)
  }

  ghost predicate NamesResolve(l: Link) {
    forall ch :: ch in l.channels ==> l.channels[ch] in l.recs && l.recs[l.channels[ch]].channel == ch
  }

  ghost predicate RefusalsTainted(l: Link) {
    forall r :: r in l.toClient && r.kind == Unsub && r.verdict.Refused? ==> r.channel in l.tainted
  }

  /** What holds of the wire whatever the client's records are. */
  ghost predicate WireInv(l: Link) {
    var holds :=
      && Ordered(l)
      && PendingOutstanding(l)
      && (forall u :: u in l.toClient ==> Truthful(l, u))
      && RefusalsTainted(l);
    holds
  }

  ghost predicate LinkInv(l: Link) {
    var holds :=
      && WireInv(l)
      && NamesResolve(l)
      && (l.open ==> forall ch :: Accounted(l, ch));
    holds
  }

  // ----- sending --------------------------------------------------------------------------

  /** Putting one more frame on the wire, and possibly in the pending list. */
  ghost predicate Sends(l: Link, l': Link, f: Frame) {
    && f.id == l.nextFrame
    && l'.toServer == l.toServer + [f] && l'.nextFrame == l.nextFrame + 1
    && l'.pending in {l.pending, l.pending + [Op(f.id, f.kind, f.channel)]}
    && l'.toClient == l.toClient && l'.held == l.held && l'.tainted == l.tainted
  }

  lemma SendKeepsWire(l: Link, l': Link, f: Frame)
    requires WireInv(l) && Sends(l, l', f)
    ensures WireInv(l')
    ensures f in l'.toServer
    ensures forall ch :: UnsubOnWire(l.toServer, ch) ==> UnsubOnWire(l'.toServer, ch)
  {
    assert l'.toServer[|l.toServer|] == f;
    forall op | op in l'.pending && op.channel !in l'.tainted ensures Outstanding(l'.toServer, l'.toClient, op) {
      if op in l.pending { assert Outstanding(l.toServer, l.toClient, op); }
    }
    assert forall u :: u in l.toClient && Truthful(l, u) ==> Truthful(l', u);
  }

  lemma PushOpKeeps(l: Link, kind: Kind, ch: string)
    requires LinkInv(l)
    ensures LinkInv(PushOp(l, kind, ch))
  {
    var l' := PushOp(l, kind, ch);
    SendKeepsWire(l, l', Frame(l.nextFrame, kind, ch));
    assert forall c :: l.open && Accounted(l, c) ==> Accounted(l', c);
  }

  /** Releasing the last handle un-confirms the channel, but its unsubscribe is on the wire. */
  lemma ReleaseKeeps(l: Link, ch: string)
    requires LinkInv(l) && l.Has(ch)
    ensures LinkInv(ReleaseLast(l, ch))
  {
    var l2 := ReleaseLast(l, ch);
    if l.open {
      forall c ensures Accounted(l2, c) {
        assert Accounted(l, c);
        if c != ch && l.Confirmed(c) {
          assert l.recs[l.channels[c]].channel == c != l.recs[l.channels[ch]].channel || ch !in l.channels;
        }
      }
    }
  }

  // ----- pending list and records ------------------------------------------------------------

  lemma {:induction false} RemoveIdFacts(pending: seq<Op>, id: nat)
    requires Sorted(pending)
    ensures Sorted(RemoveId(pending, id))
    ensures forall op :: op in RemoveId(pending, id) <==> op in pending && op.id != id
  {
    if pending != [] {
      var tail := pending[1..];
      assert pending == [pending[0]] + tail;
      assert forall op :: op in tail ==> op.id > pending[0].id;
      if pending[0].id != id {
        RemoveIdFacts(tail, id);
        var out := RemoveId(tail, id);
        assert RemoveId(pending, id) == [pending[0]] + out;
        assert forall i :: 0 <= i < |out| ==> out[i] in out;
      }
    }
  }

  lemma RemoveAtFacts(pending: seq<Op>, i: nat)
    requires i < |pending| && Sorted(pending)
    ensures Sorted(RemoveAt(pending, i))
    ensures forall op :: op in RemoveAt(pending, i) <==> op in pending && op.id != pending[i].id
    ensures RemoveAt(pending, i)[i..] == pending[i + 1..]
  {
    var out := RemoveAt(pending, i);
    assert forall k :: 0 <= k < |out| ==> out[k] == if k < i then pending[k] else pending[k + 1];
    forall op | op in pending && op.id != pending[i].id ensures op in out {
      var k :| 0 <= k < |pending| && pending[k] == op;
      assert op == out[if k < i then k else k - 1];
    }
  }

  lemma TimeoutKeeps(l: Link, id: nat)
    requires LinkInv(l)
    ensures LinkInv(AckTimeout(l, id))
  {
    RemoveIdFacts(l.pending, id);
    var l' := AckTimeout(l, id);
    assert forall u :: Truthful(l, u) ==> Truthful(l', u);
    assert forall c :: Accounted(l, c) ==> Accounted(l', c);
  }

  /** Any change to records that neither un-confirms a named record nor names a missing one. */
  lemma RecordChangeKeeps(l: Link, l': Link)
    requires LinkInv(l) && l' == l.(channels := l'.channels, recs := l'.recs)
    requires NamesResolve(l')
    requires forall ch :: l.Confirmed(ch) ==> l'.Confirmed(ch)
    ensures LinkInv(l')
  {
    assert forall u :: Truthful(l, u) ==> Truthful(l', u);
    assert forall c :: Accounted(l, c) ==> Accounted(l', c);
  }

  lemma ForgetUnconfirmedKeeps(l: Link, ch: string, refusal: Option<string>)
    requires LinkInv(l) && ch in l.channels && l.Has(ch) && !l.Confirmed(ch)
    ensures LinkInv(Forget(l, ch, refusal))
  {
    var l' := Forget(l, ch, refusal);
    forall c | l.Confirmed(c) ensures l'.Confirmed(c) {
      assert l.recs[l.channels[c]].channel == c;
    }
    RecordChangeKeeps(l, l');
  }

  // ----- serving ----------------------------------------------------------------------------

  lemma ServeOrdered(l: Link, verdict: Verdict, lost: bool)
    requires Ordered(l) && l.toServer != []
    ensures Ordered(Serve(l, verdict, lost))
  {
    var l' := Serve(l, verdict, lost);
    var f := l.toServer[0];
    var reply := Reply(f.id, f.kind, f.channel, verdict);
    assert forall i :: 0 <= i < |l.toClient| ==> l.toClient[i] in l.toClient;
    assert forall i :: 0 <= i < |l'.toServer| ==> l'.toServer[i] == l.toServer[i + 1];
    forall r | r in l'.toClient ensures r in l.toClient || r == reply {}
    forall g | g in l'.toServer ensures g in l.toServer && g.id > f.id {}
  }

  lemma ServePending(l: Link, verdict: Verdict, lost: bool)
    requires PendingOutstanding(l) && l.toServer != []
    ensures PendingOutstanding(Serve(l, verdict, lost))
  {
    var f := l.toServer[0];
    var l' := Serve(l, verdict, lost);
    forall op | op in l'.pending && op.channel !in l'.tainted ensures Outstanding(l'.toServer, l'.toClient, op) {
      assert Outstanding(l.toServer, l.toClient, op);
      if Frame(op.id, op.kind, op.channel) == f {
        assert Answers(Reply(f.id, f.kind, f.channel, verdict), op);
      } else if Frame(op.id, op.kind, op.channel) in l.toServer {
        assert Frame(op.id, op.kind, op.channel) in l'.toServer;
      } else {
        var r :| r in l.toClient && Answers(r, op);
        assert r in l'.toClient;
      }
    }
  }

  lemma ServeTruthful(l: Link, verdict: Verdict, lost: bool, u: Reply)
    requires WireInv(l) && l.toServer != []
    requires u in Serve(l, verdict, lost).toClient
    ensures Truthful(Serve(l, verdict, lost), u)
  {
    var f := l.toServer[0];
    var l' := Serve(l, verdict, lost);
    assert f in l.toServer;
    if u in l.toClient {
      assert Truthful(l, u);
      if u.channel !in l.held && u.channel in l'.held && !lost {
        assert IsAck(Reply(f.id, f.kind, f.channel, verdict), u.channel, u.id);
      }
    }
  }

  lemma ServeAccounted(l: Link, verdict: Verdict, lost: bool, ch: string)
    requires WireInv(l) && l.toServer != [] && Accounted(l, ch)
    ensures Accounted(Serve(l, verdict, lost), ch)
  {
    var f := l.toServer[0];
    var l' := Serve(l, verdict, lost);
    if ch in l'.held && ch !in l'.tainted {
      if ch == f.channel && f.kind == Sub && verdict.Acked? {
        assert IsAck(Reply(f.id, f.kind, f.channel, verdict), ch, -1);
      } else if UnsubOnWire(l.toServer, ch) {
        var g :| g in l.toServer && g.kind == Unsub && g.channel == ch;
        assert g in l'.toServer;
      }
    }
  }

  lemma ServeKeeps(l: Link, verdict: Verdict, lost: bool)
    requires LinkInv(l) && l.toServer != []
    ensures LinkInv(Serve(l, verdict, lost))
  {
    var l' := Serve(l, verdict, lost);
    ServeOrdered(l, verdict, lost);
    ServePending(l, verdict, lost);
    forall u | u in l'.toClient ensures Truthful(l', u) { ServeTruthful(l, verdict, lost, u); }
    if l.open {
      forall ch ensures Accounted(l', ch) { ServeAccounted(l, verdict, lost, ch); }
    }
  }

  // ----- receiving -----------------------------------------------------------------------

  /** The link once the head reply is off the wire and the operation it settles is off the list. */
  ghost function Dequeue(l: Link): Link
    requires l.toClient != []
  {
    var r := l.toClient[0];
    var idx := FirstMatch(l.pending, r.kind, r.channel);
    l.(toClient := l.toClient[1..], pending := if idx == -1 then l.pending else RemoveAt(l.pending, idx))
  }

  /** Taking a reply is Dequeue and then the effect of the ack, or of a definitive refusal. */
  lemma ReceiveSplits(l: Link) returns (undoneLater: bool)
    requires l.toClient != []
    ensures var r, l1 := l.toClient[0], Dequeue(l);
      if r.verdict.Acked? then Receive(l) == AckEffect(l1, r.kind, r.channel, undoneLater)
      else
        || Receive(l) == l1
        || (l1.Has(r.channel) && !l1.Confirmed(r.channel) && Receive(l) == Forget(l1, r.channel, Some(r.verdict.code)))
  {
    var r, l1 := l.toClient[0], Dequeue(l);
    var idx := FirstMatch(l.pending, r.kind, r.channel);
    undoneLater := idx != -1 && r.kind == Sub && UnsubPending(l1.pending[idx..], r.channel);
    assert l1 == if idx == -1 then l.(toClient := l.toClient[1..])
      else l.(toClient := l.toClient[1..]).(pending := RemoveAt(l.pending, idx));
  }

  /** The client answers a reply with a frame, an undo, exactly when the reply is the ack of a subscribe whose
      channel has no record, and no unsubscribe of it is pending behind the subscribe it settles. */
  lemma UndoIff(l: Link)
    requires l.toClient != [] && l.open
    ensures var r, l' := l.toClient[0], Receive(l);
      var idx := FirstMatch(l.pending, Sub, r.channel);
      var undoneLater := idx != -1 && exists k :: idx < k < |l.pending| && Matches(l.pending[k], Unsub, r.channel);
      var undoes := r.kind == Sub && r.verdict.Acked? && r.channel !in l.channels && !undoneLater;
      l'.toServer == l.toServer + if undoes then [Frame(l.nextFrame, Unsub, r.channel)] else []
  {
    var r := l.toClient[0];
    var idx := FirstMatch(l.pending, Sub, r.channel);
    if idx != -1 { PendingBehind(l.pending, idx, r.channel); }
  }

  lemma PendingBehind(pending: seq<Op>, idx: nat, ch: string)
    requires idx < |pending|
    ensures UnsubPending(RemoveAt(pending, idx)[idx..], ch)
      <==> exists k :: idx < k < |pending| && Matches(pending[k], Unsub, ch)
  {
    var rest := RemoveAt(pending, idx)[idx..];
    assert rest == pending[idx + 1..];
    if k :| idx < k < |pending| && Matches(pending[k], Unsub, ch) { assert rest[k - idx - 1] == pending[k]; }
    if op :| op in rest && Matches(op, Unsub, ch) {
      var k :| 0 <= k < |rest| && rest[k] == op;
      assert pending[k + idx + 1] == op;
    }
  }

  /** A forgotten record loses its name and its timer, keeps its handlers, and remembers what it was refused
      for. */
  lemma ForgetMeans(l: Link, ch: string, refusal: Option<string>)
    requires l.Has(ch)
    ensures var l', r := Forget(l, ch, refusal), l.channels[ch];
      && ch !in l'.channels && r in l'.recs && l'.recs[r].retry.None? && l'.recs[r].handlers == l.recs[r].handlers
      && (refusal.Some? ==> l'.recs[r].refusal == refusal)
      && (refusal.None? ==> l'.recs[r].refusal == l.recs[r].refusal)
      && (forall n :: n != ch ==> (n in l'.channels <==> n in l.channels))
  {
  }

  lemma HeadFacts(l: Link)
    requires Ordered(l) && l.toClient != []
    ensures forall r :: r in l.toClient <==> r == l.toClient[0] || r in l.toClient[1..]
    ensures forall r :: r in l.toClient[1..] ==> r.id > l.toClient[0].id
    ensures forall f :: f in l.toServer ==> f.id > l.toClient[0].id
  {
    assert l.toClient == [l.toClient[0]] + l.toClient[1..];
    assert l.toClient[0] in l.toClient;
  }

  lemma FirstMatchIsOldest(l: Link, idx: nat)
    requires WireInv(l) && l.toClient != [] && idx < |l.pending|
    requires l.pending[idx].channel !in l.tainted
    ensures l.pending[idx].id >= l.toClient[0].id
  {
    HeadFacts(l);
    assert Outstanding(l.toServer, l.toClient, l.pending[idx]);
  }

  /** Taking the head off the wire and dropping the first matching operation keeps every
      remaining operation outstanding: if the head answers an operation that is still
      pending, that operation is the first match. */
  lemma DequeuePending(l: Link, op: Op)
    requires WireInv(l) && l.toClient != []
    requires op in Dequeue(l).pending && op.channel !in l.tainted
    ensures Outstanding(l.toServer, l.toClient[1..], op)
  {
    var r := l.toClient[0];
    var idx := FirstMatch(l.pending, r.kind, r.channel);
    HeadFacts(l);
    if idx != -1 { RemoveAtFacts(l.pending, idx); }
    assert Outstanding(l.toServer, l.toClient, op);
    if Answers(r, op) {
      var k :| 0 <= k < |l.pending| && l.pending[k] == op;
      assert Matches(op, r.kind, r.channel);
      FirstMatchIsOldest(l, idx);
      assert false;
    }
  }

  lemma DequeueTruthful(l: Link, u: Reply)
    requires WireInv(l) && l.toClient != [] && u in l.toClient[1..]
    ensures Truthful(Dequeue(l), u)
  {
    HeadFacts(l);
    assert Truthful(l, u);
  }

  lemma DequeueKeepsWire(l: Link)
    requires WireInv(l) && l.toClient != []
    ensures WireInv(Dequeue(l))
  {
    var l1 := Dequeue(l);
    var idx := FirstMatch(l.pending, l.toClient[0].kind, l.toClient[0].channel);
    HeadFacts(l);
    if idx != -1 { RemoveAtFacts(l.pending, idx); }
    forall op | op in l1.pending && op.channel !in l1.tainted ensures Outstanding(l1.toServer, l1.toClient, op) {
      DequeuePending(l, op);
    }
    forall u | u in l1.toClient ensures Truthful(l1, u) { DequeueTruthful(l, u); }
  }

  /** Channels other than the head's stay accounted for. */
  lemma DequeueAccounted(l: Link, ch: string)
    requires WireInv(l) && l.toClient != [] && Accounted(l, ch)
    requires !IsAck(l.toClient[0], ch, -1)
    ensures Accounted(Dequeue(l), ch)
  {
  }

  lemma ErrorKeeps(l: Link)
    requires LinkInv(l) && l.toClient != [] && l.toClient[0].verdict.Refused?
    ensures LinkInv(Receive(l))
  {
    var r := l.toClient[0];
    var l1 := Dequeue(l);
    DequeueKeepsWire(l);
    if l.open {
      forall ch ensures Accounted(l1, ch) { DequeueAccounted(l, ch); }
    }
    if Receive(l) != l1 { ForgetUnconfirmedKeeps(l1, r.channel, Some(r.verdict.code)); }
  }

  /** A pending unsubscribe that is outstanding accounts for its channel: either its frame is
      yet to reach the server, or its ack is on the way and the server has already let go. */
  lemma OutstandingUnsubAccounted(l: Link, u: Op)
    requires u.kind == Unsub && Outstanding(l.toServer, l.toClient, u)
    requires RefusalsTainted(l) && (forall a :: a in l.toClient ==> Truthful(l, a))
    ensures Accounted(l, u.channel)
  {
    if Frame(u.id, u.kind, u.channel) !in l.toServer && u.channel in l.held && u.channel !in l.tainted {
      var a :| a in l.toClient && Answers(a, u);
      assert Truthful(l, a);
      var s :| s in l.toClient && IsAck(s, u.channel, a.id);
      assert IsAck(s, u.channel, -1);
    }
  }

  /** The client sends no undo because it sees its own unsubscribe pending behind the subscribe
      just acked: that unsubscribe is still outstanding. */
  lemma UndoneLaterAccounted(l: Link, idx: nat)
    requires WireInv(l) && l.toClient != [] && l.toClient[0].kind == Sub
    requires idx < |l.pending| && idx == FirstMatch(l.pending, Sub, l.toClient[0].channel)
    requires UnsubPending(Dequeue(l).pending[idx..], l.toClient[0].channel)
    ensures Accounted(Dequeue(l), l.toClient[0].channel)
  {
    var l1 := Dequeue(l);
    var ch := l.toClient[0].channel;
    if ch !in l.tainted {
      var u :| u in l1.pending[idx..] && Matches(u, Unsub, ch);
      assert u in l1.pending;
      DequeuePending(l, u);
      forall a | a in l1.toClient ensures Truthful(l1, a) { DequeueTruthful(l, a); }
      DequeueRefusals(l);
      OutstandingUnsubAccounted(l1, u);
    }
  }

  lemma DequeueRefusals(l: Link)
    requires RefusalsTainted(l) && l.toClient != []
    ensures RefusalsTainted(Dequeue(l))
  {
    assert forall r :: r in l.toClient[1..] ==> r in l.toClient;
  }

  lemma ConfirmAccounted(l: Link, ch: string)
    requires NamesResolve(l) && l.Has(ch)
    ensures NamesResolve(SetConfirmed(l, ch)) && Accounted(SetConfirmed(l, ch), ch)
    ensures forall c :: Accounted(l, c) ==> Accounted(SetConfirmed(l, ch), c)
  {
  }

  lemma AckEffectKeepsWire(l: Link, kind: Kind, ch: string, undoneLater: bool)
    requires WireInv(l) && NamesResolve(l)
    ensures var l' := AckEffect(l, kind, ch, undoneLater); WireInv(l') && NamesResolve(l')
  {
    if kind == Sub {
      if l.Has(ch) { ConfirmAccounted(l, ch); }
    }
  }

  lemma AckKeepsWire(l: Link)
    requires LinkInv(l) && l.toClient != [] && l.toClient[0].verdict.Acked?
    ensures WireInv(Receive(l)) && NamesResolve(Receive(l))
  {
    var r := l.toClient[0];
    var idx := FirstMatch(l.pending, r.kind, r.channel);
    DequeueKeepsWire(l);
    AckEffectKeepsWire(Dequeue(l), r.kind, r.channel, idx != -1 && r.kind == Sub
      && UnsubPending(Dequeue(l).pending[idx..], r.channel));
  }

  /** The ack of a subscribe whose record is gone and that no pending unsubscribe will undo. */
  lemma UndoneNowAccounted(l: Link, ch: string)
    requires WireInv(l) && l.open && l.toClient != [] && (ch == l.toClient[0].channel || Accounted(Dequeue(l), ch))
    ensures Accounted(SendUndo(Dequeue(l), l.toClient[0].channel), ch)
  {
    DequeueKeepsWire(l);
  }

  lemma SubAckAccounted(l: Link, ch: string)
    requires WireInv(l) && NamesResolve(l) && l.open && l.toClient != []
    requires l.toClient[0].verdict.Acked? && l.toClient[0].kind == Sub
    requires ch == l.toClient[0].channel || Accounted(Dequeue(l), ch)
    ensures Accounted(Receive(l), ch)
  {
    var acked := l.toClient[0].channel;
    var l1 := Dequeue(l);
    var idx := FirstMatch(l.pending, Sub, acked);
    if l1.Has(acked) { ConfirmAccounted(l1, acked); }
    else if idx != -1 && UnsubPending(l1.pending[idx..], acked) {
      if ch == acked { UndoneLaterAccounted(l, idx); }
    } else { UndoneNowAccounted(l, ch); }
  }

  lemma AckAccounted(l: Link, ch: string)
    requires WireInv(l) && NamesResolve(l) && l.open && Accounted(l, ch)
    requires l.toClient != [] && l.toClient[0].verdict.Acked?
    ensures Accounted(Receive(l), ch)
  {
    if l.toClient[0].kind == Unsub || ch != l.toClient[0].channel { DequeueAccounted(l, ch); }
    if l.toClient[0].kind == Sub { SubAckAccounted(l, ch); }
  }

  lemma AckKeeps(l: Link)
    requires LinkInv(l) && l.toClient != [] && l.toClient[0].verdict.Acked?
    ensures LinkInv(Receive(l))
  {
    AckKeepsWire(l);
    if l.open {
      forall ch ensures Accounted(Receive(l), ch) { AckAccounted(l, ch); }
    }
  }

  lemma ReceiveKeeps(l: Link)
    requires LinkInv(l) && l.toClient != []
    ensures LinkInv(Receive(l))
  {
    if l.toClient[0].verdict.Acked? { AckKeeps(l); } else { ErrorKeeps(l); }
  }

  // ----- what the invariant gives --------------------------------------------------------

  ghost predicate InFlight(l: Link, ch: string) {
    || (exists f :: f in l.toServer && f.channel == ch)
    || (exists r :: r in l.toClient && r.channel == ch)
  }

  /** No orphan subscription: with nothing in flight for an untainted channel, the server
      holds it only if the client has a confirmed record for it, and the client waits for no
      answer about it. */
  lemma NoOrphan(l: Link, ch: string)
    requires LinkInv(l) && l.open && !InFlight(l, ch) && ch !in l.tainted
    ensures ch in l.held ==> l.Confirmed(ch)
    ensures forall op :: op in l.pending ==> op.channel != ch
  {
    assert Accounted(l, ch);
    assert forall op :: op in l.pending && op.channel == ch ==> Outstanding(l.toServer, l.toClient, op);
  }
}
