/** The fanout's objects when nothing interferes: Conn.Send with its backpressure policies
    (internal/conn/policy.go, handler.go), hub.Broadcast and the sharded pool's queues. What
    interleaving does to them is the subject of Fanout. */
module Delivery {
  import opened Options
  import opened Fanout

  type Frame = seq<bv8>
  type Buffer = s: seq<Frame> | |s| <= SEND_CAP

  // ----- the 64-slot send buffer ----------------------------------------------------------------------

  /** A buffered channel of 64, with the two non-blocking operations a select with default gives. */
  class SendChan {
    var queued: Buffer

    constructor ()
      ensures queued == []
    {
      queued := [];
    }

    method TrySend(b: Frame) returns (ok: bool)
      modifies this
      ensures ok == (|old(queued)| < SEND_CAP)
      ensures queued == if ok then old(queued) + [b] else old(queued)
    {
      ok := |queued| < SEND_CAP;
      if ok { queued := queued + [b]; }
    }

    method TryReceive() returns (b: Option<Frame>)
      modifies this
      ensures old(queued) == [] ==> b.None? && queued == []
      ensures old(queued) != [] ==> b == Some(old(queued)[0]) && queued == old(queued)[1..]
    {
      if queued == [] { return None; }
      b := Some(queued[0]);
      queued := queued[1..];
    }
  }

  /** What a policy leaves in the buffer. */
  function Kept(policy: Policy, queued: Buffer, b: Frame): Buffer {
    if |queued| < SEND_CAP then queued + [b]
    else if policy.DropOldest? then queued[1..] + [b]
    else queued
  }

  /** The Apply methods of the three policies; the result says whether the consumer is slow. */
  method ApplyPolicy(policy: Policy, send: SendChan, b: Frame) returns (slow: bool)
    modifies send
    ensures send.queued == Kept(policy, old(send.queued), b)
    ensures slow <==> policy.Disconnect? && |old(send.queued)| >= SEND_CAP
  {
    var ok := send.TrySend(b);
    if policy.DropOldest? && !ok {
      var _ := send.TryReceive();
      var _ := send.TrySend(b);
    }
    slow := policy.Disconnect? && !ok;
  }

  class Outbox {
    const policy: Policy
    const send: SendChan
    var closeReq: bool
    var closed: bool

    constructor (policy: Policy)
      ensures this.policy == policy && fresh(send) && send.queued == [] && !closeReq && !closed
    {
      this.policy := policy;
      send := new SendChan();
      closeReq := false;
      closed := false;
    }

    /** Conn.Send. Under PolicyDisconnect a frame is withheld only with the close requested. */
    method Send(b: Frame) returns (slow: bool)
      modifies this`closeReq, send
      ensures send.queued == if closed then old(send.queued) else Kept(policy, old(send.queued), b)
      ensures slow <==> closed || (policy.Disconnect? && |old(send.queued)| >= SEND_CAP)
      ensures closeReq == (old(closeReq) || (slow && !closed))
      ensures policy.Disconnect? && send.queued == old(send.queued) ==> closed || closeReq
    {
      if closed { return true; }
      slow := ApplyPolicy(policy, send, b);
      if slow { closeReq := true; }
    }
  }

  /** hub.Broadcast once the snapshot is taken: each subscriber is sent the frame exactly once,
      in whatever order the map gives them. */
  method Broadcast(subs: set<Outbox>, b: Frame)
    requires forall o, p :: o in subs && p in subs && o != p ==> o.send != p.send
    modifies subs`closeReq, set o | o in subs :: o.send
    ensures forall o :: o in subs ==>
      o.send.queued == if o.closed then old(o.send.queued) else Kept(o.policy, old(o.send.queued), b)
  {
    var rest := subs;
    while rest != {}
      invariant rest <= subs
      invariant forall o :: o in subs && o !in rest ==>
        o.send.queued == if o.closed then old(o.send.queued) else Kept(o.policy, old(o.send.queued), b)
      invariant forall o :: o in rest ==> o.send.queued == old(o.send.queued)
      decreases rest
    {
      var o :| o in rest;
      var _ := o.Send(b);
      rest := rest - {o};
    }
  }

  // ----- bursts into a full buffer ---------------------------------------------------------------------

  function KeptAll(policy: Policy, queued: Buffer, bs: seq<Frame>): Buffer {
    if bs == [] then queued else Kept(policy, KeptAll(policy, queued, bs[..|bs| - 1]), bs[|bs| - 1])
  }

  function Last(s: seq<Frame>, n: nat): seq<Frame> { if |s| <= n then s else s[|s| - n..] }
  function First(s: seq<Frame>, n: nat): seq<Frame> { if |s| <= n then s else s[..n] }

  /** The newest 64 frames, or the oldest. */
  function Kept64(policy: Policy, s: seq<Frame>): Buffer {
    if policy.DropOldest? then Last(s, SEND_CAP) else First(s, SEND_CAP)
  }

  lemma KeptStep(policy: Policy, s: seq<Frame>, b: Frame)
    ensures Kept(policy, Kept64(policy, s), b) == Kept64(policy, s + [b])
  {
  }

  /** With no reader, PolicyDropOldest keeps the newest 64 frames and the other two the oldest 64,
      always in order. */
  lemma {:induction false} BurstKeeps(policy: Policy, queued: Buffer, bs: seq<Frame>)
    ensures KeptAll(policy, queued, bs) == Kept64(policy, queued + bs)
  {
    if bs == [] {
      assert queued + bs == queued;
    } else {
      var front, b := bs[..|bs| - 1], bs[|bs| - 1];
      BurstKeeps(policy, queued, front);
      assert queued + bs == (queued + front) + [b];
      KeptStep(policy, queued + front, b);
    }
  }

  // ----- the sharded pool ----------------------------------------------------------------------------------

  datatype PoolJob = PoolJob(ch: nat, msg: Frame)

  class ShardedPool {
    const shard: nat -> nat
    var queues: seq<seq<PoolJob>>
    var closed: bool
    /** What each worker has broadcast, in order. */
    ghost var done: seq<seq<PoolJob>>

    ghost predicate Valid()
      reads this
    {
      && |queues| == |done| > 0 && (forall ch :: shard(ch) < |queues|)
      && (forall i :: 0 <= i < |queues| ==> |queues[i]| <= QUEUE_CAP)
    }

    /** Everything ever accepted for shard i, broadcast or still queued. */
    ghost function Accepted(i: nat): seq<PoolJob>
      reads this
      requires |queues| == |done| && i < |queues|
    {
      done[i] + queues[i]
    }

    constructor (workers: nat, shard: nat -> nat)
      requires workers > 0 && forall ch :: shard(ch) < workers
      ensures Valid() && !closed && |queues| == workers && forall i :: 0 <= i < workers ==> Accepted(i) == []
    {
      this.shard := shard;
      queues := seq(workers, _ => []);
      done := seq(workers, _ => []);
      closed := false;
    }

    /** A worker's turn: receive one job and broadcast it. */
    method RunOne(i: nat)
      requires Valid() && i < |queues| && queues[i] != []
      modifies this`queues, this`done
      ensures Valid() && |queues| == |old(queues)| && |queues[i]| == |old(queues)[i]| - 1
      ensures forall k :: 0 <= k < |queues| ==>
        Accepted(k) == old(Accepted(k)) && (k != i ==> queues[k] == old(queues)[k])
    {
      var j := queues[i][0];
      assert done[i] + queues[i] == (done[i] + [j]) + queues[i][1..];
      queues := queues[i := queues[i][1..]];
      done := done[i := done[i] + [j]];
    }

    /** Broadcast: a send that waits, if the queue is full, for the worker to make room; a no-op
        once closed. */
    method Broadcast(ch: nat, msg: Frame)
      requires Valid()
      modifies this`queues, this`done
      ensures Valid() && |queues| == |old(queues)|
      ensures forall k :: 0 <= k < |queues| ==>
        Accepted(k) == old(Accepted(k)) + if !closed && k == shard(ch) then [PoolJob(ch, msg)] else []
    {
      if closed {
        assert forall k :: 0 <= k < |queues| ==> Accepted(k) == Accepted(k) + [];
        return;
      }
      var i := shard(ch);
      if |queues[i]| == QUEUE_CAP { RunOne(i); }
      queues := queues[i := queues[i] + [PoolJob(ch, msg)]];
      assert forall k :: 0 <= k < |queues| && k != i ==> old(Accepted(k)) + [] == old(Accepted(k));
    }

    /** Close: the queues are closed and each worker drains what was enqueued before; nothing
        accepted is lost or broadcast twice. A second Close does nothing. */
    method Close()
      requires Valid()
      modifies this
      ensures Valid() && closed && |queues| == |old(queues)|
      ensures forall k :: 0 <= k < |queues| ==> Accepted(k) == old(Accepted(k))
      ensures old(closed) ==> queues == old(queues) && done == old(done)
      ensures !old(closed) ==> forall k :: 0 <= k < |queues| ==> queues[k] == [] && done[k] == old(Accepted(k))
    {
      if closed { return; }
      closed := true;
      var i := 0;
      while i < |queues|
        invariant Valid() && closed && 0 <= i <= |queues| == |old(queues)|
        invariant forall k :: 0 <= k < |queues| ==> Accepted(k) == old(Accepted(k))
        invariant forall k :: 0 <= k < i ==> queues[k] == []
      {
        while queues[i] != []
          invariant Valid() && closed && i < |queues| == |old(queues)|
          invariant forall k :: 0 <= k < |queues| ==> Accepted(k) == old(Accepted(k))
          invariant forall k :: 0 <= k < i ==> queues[k] == []
          decreases |queues[i]|
        {
          RunOne(i);
        }
        i := i + 1;
      }
      forall k | 0 <= k < |queues| ensures done[k] == old(Accepted(k)) { assert done[k] + queues[k] == done[k]; }
    }
  }
}
