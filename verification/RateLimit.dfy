/** internal/ratelimit and the buckets of internal/conn: golang.org/x/time/rate as the standard
    real-valued bucket, one socket's two buckets in front of its key's, each asked at a clock reading
    of its own, and all sockets of a key. */
module RateLimit {
  // ----- one bucket ---------------------------------------------------------------------------------

  /** Tokens as of `last`. */
  datatype Bucket = Bucket(tokens: real, last: real)

  /** refill gives what comes in during a time; Rate gives the limits in use, so many a second. */
  datatype Limit = Limit(refill: real -> real, burst: real)

  function Rate(rps: real, burst: real): Limit { Limit(d => rps * d, burst) }

  ghost predicate Adds(l: Limit, d: real, e: real) { l.refill(d + e) == l.refill(d) + l.refill(e) }
  ghost predicate Gains(l: Limit, d: real) { d >= 0.0 ==> l.refill(d) >= 0.0 }

  ghost predicate Sound(l: Limit) {
    l.burst >= 0.0 && (forall d, e :: Adds(l, d, e)) && (forall d :: Gains(l, d))
  }

  lemma RateSound(rps: real, burst: real)
    requires rps >= 0.0 && burst >= 0.0
    ensures Sound(Rate(rps, burst))
  {
    var l := Rate(rps, burst);
    forall d, e ensures Adds(l, d, e) { assert rps * (d + e) == rps * d + rps * e; }
    forall d ensures Gains(l, d) { if d >= 0.0 { Product(rps, d); } }
  }

  lemma Product(a: real, b: real)
    requires a >= 0.0 && b >= 0.0
    ensures a * b >= 0.0
  {
  }

  function Min(a: real, b: real): real { if a <= b then a else b }

  /** What the bucket holds at t. */
  function Level(l: Limit, b: Bucket, t: real): real { Min(l.burst, b.tokens + l.refill(t - b.last)) }

  predicate Admits(l: Limit, b: Bucket, t: real) { Level(l, b, t) >= 1.0 }

  /** Allow: one token if there is one. */
  function Charge(l: Limit, b: Bucket, t: real): Bucket {
    if Admits(l, b, t) then Bucket(Level(l, b, t) - 1.0, t) else b
  }

  lemma NoTime(l: Limit)
    requires Sound(l)
    ensures l.refill(0.0) == 0.0
  {
    assert Adds(l, 0.0, 0.0);
  }

  /** Refilling in two stages is refilling once. */
  lemma LevelLater(l: Limit, b: Bucket, t: real, u: real)
    requires Sound(l) && t <= u
    ensures Level(l, b, u) == Min(l.burst, Level(l, b, t) + l.refill(u - t))
    ensures Level(l, b, t) <= Level(l, b, u)
  {
    assert Adds(l, t - b.last, u - t) && Gains(l, u - t);
    assert (t - b.last) + (u - t) == u - b.last;
  }

  /** After a charge the bucket holds one less, or what it held. */
  lemma ChargeLevel(l: Limit, b: Bucket, t: real)
    requires Sound(l)
    ensures Level(l, Charge(l, b, t), t) == Level(l, b, t) - if Admits(l, b, t) then 1.0 else 0.0
  {
    NoTime(l);
  }

  lemma FullStays(l: Limit, t: real, u: real)
    requires Sound(l) && t <= u
    ensures Level(l, Bucket(l.burst, t), u) == l.burst && Level(l, Bucket(l.burst, u), u) == l.burst
  {
    NoTime(l);
    assert Gains(l, u - t);
  }

  lemma LevelNonNegative(l: Limit, b: Bucket, t: real)
    requires Sound(l) && b.tokens >= 0.0 && b.last <= t
    ensures Level(l, b, t) >= 0.0
  {
    assert Gains(l, t - b.last);
  }

  /** Over two stretches of time as much comes in as over both at once. */
  lemma StretchesAdd(l: Limit, first: real, mid: real, last: real)
    requires Sound(l)
    ensures l.refill(mid - first) + l.refill(last - mid) == l.refill(last - first)
  {
    assert Adds(l, mid - first, last - mid);
    assert (mid - first) + (last - mid) == last - first;
  }

  // ----- one socket and its key ---------------------------------------------------------------------------

  const KEY := Rate(100.0, 200.0)
  const PUBLISH := Rate(50.0, 100.0)
  const CONTROL := Rate(20.0, 64.0)

  lemma LimitsSound()
    ensures Sound(KEY) && Sound(PUBLISH) && Sound(CONTROL)
  {
    RateSound(100.0, 200.0);
    RateSound(50.0, 100.0);
    RateSound(20.0, 64.0);
  }

  /** The key's bucket and the socket's own two. */
  datatype Socket = Socket(key: Bucket, publish: Bucket, control: Bucket)

  /** A rate-limited frame: the socket's bucket is charged at one clock reading and then, if it
      admitted the frame, the key's at another. */
  datatype Frame = Frame(publish: bool, connAt: real, keyAt: real)

  datatype Outcome = Accepted | RateLimitedConn | RateLimited

  function Handle(s: Socket, f: Frame): (Socket, Outcome) {
    var own := if f.publish then s.publish else s.control;
    var limit := if f.publish then PUBLISH else CONTROL;
    if !Admits(limit, own, f.connAt) then (s, RateLimitedConn)
    else
      var charged := Charge(limit, own, f.connAt);
      var s' := if f.publish then s.(publish := charged) else s.(control := charged);
      (s'.(key := Charge(KEY, s.key, f.keyAt)), if Admits(KEY, s.key, f.keyAt) then Accepted else RateLimited)
  }

  /** The bucket of its socket that a frame asks, and that bucket's limit. */
  function Own(s: Socket, f: Frame): Bucket { if f.publish then s.publish else s.control }
  function OwnLimit(f: Frame): Limit { if f.publish then PUBLISH else CONTROL }

  /** A frame is accepted exactly when both buckets hold a token at their readings, and then costs each
      of them one; the socket's own empty bucket answers RATE_LIMITED_CONN and costs the key nothing;
      an empty key answers RATE_LIMITED. */
  lemma HandleMeans(s: Socket, f: Frame)
    ensures var own, key := Level(OwnLimit(f), Own(s, f), f.connAt), Level(KEY, s.key, f.keyAt);
      var (s', out) := Handle(s, f);
      && (out == Accepted <==> own >= 1.0 && key >= 1.0)
      && (out == RateLimitedConn <==> own < 1.0)
      && (out == RateLimited <==> own >= 1.0 && key < 1.0)
      && Level(OwnLimit(f), Own(s', f), f.connAt) == (if own >= 1.0 then own - 1.0 else own)
      && Level(KEY, s'.key, f.keyAt) == (if out == Accepted then key - 1.0 else key)
      && (if f.publish then s'.control == s.control else s'.publish == s.publish)
  {
    LimitsSound();
    ChargeLevel(OwnLimit(f), Own(s, f), f.connAt);
    ChargeLevel(KEY, s.key, f.keyAt);
  }

  function Run(s: Socket, fs: seq<Frame>): Socket {
    if fs == [] then s else Handle(Run(s, fs[..|fs| - 1]), fs[|fs| - 1]).0
  }

  /** The clock readings of one connection's frames never go back. */
  ghost predicate InOrder(from: real, fs: seq<Frame>) {
    && (forall i :: 0 <= i < |fs| ==> from <= fs[i].connAt <= fs[i].keyAt)
    && (forall i, j :: 0 <= i < j < |fs| ==> fs[i].keyAt <= fs[j].connAt)
  }

  function Slack(s: Socket, t: real): real {
    Level(KEY, s.key, t) - Level(PUBLISH, s.publish, t) - Level(CONTROL, s.control, t)
  }

  /** A socket on a full key bucket. */
  ghost predicate Fresh(s: Socket, t: real) {
    Level(KEY, s.key, t) == KEY.burst && Level(PUBLISH, s.publish, t) >= 0.0 && Level(CONTROL, s.control, t) >= 0.0
  }

  ghost predicate Coupled(s: Socket, t: real, margin: real) {
    Slack(s, t) >= margin && Level(PUBLISH, s.publish, t) >= 0.0 && Level(CONTROL, s.control, t) >= 0.0
  }

  /** Waiting never costs slack below 36: the key refills faster, or is full. */
  lemma Waiting(s: Socket, t: real, u: real, margin: real)
    requires t <= u && margin <= 36.0 && Coupled(s, t, margin)
    ensures Coupled(s, u, margin)
  {
    LimitsSound();
    LevelLater(KEY, s.key, t, u);
    LevelLater(PUBLISH, s.publish, t, u);
    LevelLater(CONTROL, s.control, t, u);
  }

  /** What is left of the 36 when the two clock readings of a frame are `gap` apart: meanwhile the
      publish bucket wins back up to the token it was just charged. */
  function Margin(gap: real): real { 36.0 - Min(1.0, 50.0 * gap) }

  /** The socket's own charge bought one token of slack; all but Margin's share of it is still there
      when the key is charged. */
  lemma BetweenReadings(mid: Socket, f: Frame, margin: real)
    requires f.connAt <= f.keyAt && Coupled(mid, f.connAt, margin + 1.0) && margin <= Margin(f.keyAt - f.connAt)
    requires if f.publish then Level(PUBLISH, mid.publish, f.connAt) <= 99.0
      else Level(CONTROL, mid.control, f.connAt) <= 63.0
    ensures Coupled(mid, f.keyAt, margin + 1.0)
  {
    LimitsSound();
    LevelLater(KEY, mid.key, f.connAt, f.keyAt);
    LevelLater(PUBLISH, mid.publish, f.connAt, f.keyAt);
    LevelLater(CONTROL, mid.control, f.connAt, f.keyAt);
  }

  /** One frame: the socket's own charge comes first, so the key always has its token. */
  lemma FrameKeeps(s: Socket, t: real, f: Frame, margin: real)
    requires t <= f.connAt <= f.keyAt && Coupled(s, t, margin) && 35.0 <= margin <= Margin(f.keyAt - f.connAt)
    ensures Handle(s, f).1 != RateLimited
    ensures Coupled(Handle(s, f).0, f.keyAt, margin)
  {
    LimitsSound();
    Waiting(s, t, f.connAt, margin);
    var own := if f.publish then s.publish else s.control;
    var limit := if f.publish then PUBLISH else CONTROL;
    ChargeLevel(limit, own, f.connAt);
    var mid := if f.publish then s.(publish := Charge(limit, own, f.connAt))
      else s.(control := Charge(limit, own, f.connAt));
    if Admits(limit, own, f.connAt) {
      BetweenReadings(mid, f, margin);
      ChargeLevel(KEY, s.key, f.keyAt);
    } else {
      Waiting(s, f.connAt, f.keyAt, margin);
    }
  }

  function End(from: real, fs: seq<Frame>): real { if fs == [] then from else fs[|fs| - 1].keyAt }

  /** The coupling invariant: the key keeps 36 tokens more than the socket's buckets hold together,
      less what its frames' pairs of clock readings cost, which is never more than one. */
  lemma {:induction false} SlackKept(s: Socket, from: real, fs: seq<Frame>, margin: real)
    requires Fresh(s, from) && InOrder(from, fs)
    requires 35.0 <= margin <= 36.0 && forall i :: 0 <= i < |fs| ==> margin <= Margin(fs[i].keyAt - fs[i].connAt)
    ensures Coupled(Run(s, fs), End(from, fs), margin)
  {
    if fs != [] {
      var front, f := fs[..|fs| - 1], fs[|fs| - 1];
      SlackKept(s, from, front, margin);
      assert End(from, front) <= f.connAt;
      FrameKeeps(Run(s, front), End(from, front), f, margin);
    }
  }

  /** One socket cannot empty its key: whatever it sends and whenever, no frame of a connection
      that starts on a full key bucket is answered RATE_LIMITED. */
  lemma SocketCannotEmptyKey(s: Socket, from: real, fs: seq<Frame>, i: nat)
    requires Fresh(s, from) && InOrder(from, fs) && i < |fs|
    ensures Handle(Run(s, fs[..i]), fs[i]).1 != RateLimited
  {
    SlackKept(s, from, fs[..i], 35.0);
    assert End(from, fs[..i]) <= fs[i].connAt;
    FrameKeeps(Run(s, fs[..i]), End(from, fs[..i]), fs[i], 35.0);
  }

  /** One publish on full buckets leaves exactly Margin. */
  lemma SlackAttained(gap: real)
    requires gap >= 0.0
    ensures var s := Socket(Bucket(200.0, 0.0), Bucket(100.0, 0.0), Bucket(64.0, 0.0));
      var fs := [Frame(true, 0.0, gap)];
      Fresh(s, 0.0) && InOrder(0.0, fs) && End(0.0, fs) == gap && Slack(Run(s, fs), gap) == Margin(gap)
  {
    var s := Socket(Bucket(200.0, 0.0), Bucket(100.0, 0.0), Bucket(64.0, 0.0));
    var fs := [Frame(true, 0.0, gap)];
    assert fs[..0] == [];
    assert Run(s, fs) == Handle(s, fs[0]).0;
  }

  /** Every connection whose frames take at most `gap` between their two readings keeps this much. */
  ghost predicate Keeps(margin: real, gap: real) {
    forall s, from, fs :: Fresh(s, from) && InOrder(from, fs) && Within(fs, gap)
      ==> Coupled(Run(s, fs), End(from, fs), margin)
  }

  ghost predicate Within(fs: seq<Frame>, gap: real) {
    forall i :: 0 <= i < |fs| ==> fs[i].keyAt - fs[i].connAt <= gap
  }

  /** The exact condition, for every margin: so 36 is kept if and only if the readings agree. */
  lemma SlackKeptIff(margin: real, gap: real)
    requires gap >= 0.0
    ensures Keeps(margin, gap) <==> margin <= Margin(gap)
    ensures Keeps(36.0, gap) <==> gap == 0.0
  {
    forall s, from, fs | Fresh(s, from) && InOrder(from, fs) && Within(fs, gap)
      ensures Coupled(Run(s, fs), End(from, fs), Margin(gap))
    {
      SlackKept(s, from, fs, Margin(gap));
    }
    SlackAttained(gap);
    var s := Socket(Bucket(200.0, 0.0), Bucket(100.0, 0.0), Bucket(64.0, 0.0));
    var fs := [Frame(true, 0.0, gap)];
    assert Within(fs, gap);
    assert Keeps(36.0, gap) ==> Coupled(Run(s, fs), End(0.0, fs), 36.0);
    assert Keeps(margin, gap) ==> Coupled(Run(s, fs), End(0.0, fs), margin);
  }

  // ----- all sockets of a key -----------------------------------------------------------------------------

  /** A socket's own buckets. */
  datatype Pair = Pair(publish: Bucket, control: Bucket)

  /** A key and the sockets that share it. */
  datatype Crowd = Crowd(key: Bucket, sockets: nat -> Pair)

  /** Frame f of socket c. */
  datatype Sent = Sent(c: nat, f: Frame)

  function View(w: Crowd, c: nat): Socket { Socket(w.key, w.sockets(c).publish, w.sockets(c).control) }

  function HandleOne(w: Crowd, e: Sent): (Crowd, Outcome) {
    var (s, out) := Handle(View(w, e.c), e.f);
    (Crowd(s.key, (c: nat) => if c == e.c then Pair(s.publish, s.control) else w.sockets(c)), out)
  }

  function RunAll(w: Crowd, es: seq<Sent>): Crowd {
    if es == [] then w else HandleOne(RunAll(w, es[..|es| - 1]), es[|es| - 1]).0
  }

  lemma RunAllNext(w: Crowd, es: seq<Sent>, j: nat)
    requires j < |es|
    ensures RunAll(w, es[..j + 1]) == HandleOne(RunAll(w, es[..j]), es[j]).0
  {
    assert es[..j + 1][..j] == es[..j];
  }

  predicate Accepts(w: Crowd, es: seq<Sent>, j: nat)
    requires j < |es|
  {
    HandleOne(RunAll(w, es[..j]), es[j]).1 == Accepted
  }

  /** The key's bucket is charged in the order of its clock readings. */
  ghost predicate KeyOrder(from: real, es: seq<Sent>) {
    && (forall i :: 0 <= i < |es| ==> from <= es[i].f.keyAt)
    && (forall i, j :: 0 <= i < j < |es| ==> es[i].f.keyAt <= es[j].f.keyAt)
  }

  /** How many of es[i..j] are accepted. */
  ghost function Through(w: Crowd, es: seq<Sent>, i: nat, j: nat): nat
    requires i <= j <= |es|
  {
    if i == j then 0 else Through(w, es, i, j - 1) + if Accepts(w, es, j - 1) then 1 else 0
  }

  lemma KeySpends(w: Crowd, e: Sent)
    ensures var (w', out) := HandleOne(w, e);
      Level(KEY, w'.key, e.f.keyAt) == Level(KEY, w.key, e.f.keyAt) - (if out == Accepted then 1.0 else 0.0)
      && (out == Accepted ==> Level(KEY, w.key, e.f.keyAt) >= 1.0)
  {
    HandleMeans(View(w, e.c), e.f);
  }

  lemma KeyLater(w: Crowd, t: real, u: real)
    requires t <= u
    ensures Level(KEY, w.key, u) == Min(200.0, Level(KEY, w.key, t) + 100.0 * (u - t))
    ensures Level(KEY, w.key, t) <= Level(KEY, w.key, u)
  {
    LimitsSound();
    LevelLater(KEY, w.key, t, u);
  }

  lemma {:induction false} KeyNeverOverdrawn(w: Crowd, from: real, es: seq<Sent>, j: nat, u: real)
    requires Level(KEY, w.key, from) >= 0.0 && KeyOrder(from, es) && j <= |es|
    requires from <= u && forall i :: 0 <= i < j ==> es[i].f.keyAt <= u
    ensures Level(KEY, RunAll(w, es[..j]).key, u) >= 0.0
  {
    if j == 0 { KeyLater(w, from, u); }
    else {
      var e := es[j - 1];
      KeyNeverOverdrawn(w, from, es, j - 1, e.f.keyAt);
      RunAllNext(w, es, j - 1);
      KeySpends(RunAll(w, es[..j - 1]), e);
      KeyLater(RunAll(w, es[..j]), e.f.keyAt, u);
    }
  }

  lemma {:induction false} KeyLeft(w: Crowd, from: real, es: seq<Sent>, i: nat, j: nat, u: real)
    requires KeyOrder(from, es) && i < j <= |es| && es[j - 1].f.keyAt <= u
    ensures Through(w, es, i, j) as real + Level(KEY, RunAll(w, es[..j]).key, u)
      <= 200.0 + 100.0 * (u - es[i].f.keyAt)
  {
    var e := es[j - 1];
    RunAllNext(w, es, j - 1);
    KeySpends(RunAll(w, es[..j - 1]), e);
    KeyLater(RunAll(w, es[..j]), e.f.keyAt, u);
    if i < j - 1 { KeyLeft(w, from, es, i, j - 1, e.f.keyAt); }
  }

  /** All sockets of a key together get at most 200 frames and 100 more a second through in any window. */
  lemma KeyWindow(w: Crowd, from: real, es: seq<Sent>, i: nat, j: nat, d: real)
    requires Level(KEY, w.key, from) >= 0.0 && KeyOrder(from, es)
    requires i < j <= |es| && es[j - 1].f.keyAt - es[i].f.keyAt <= d
    ensures Through(w, es, i, j) as real <= 200.0 + 100.0 * d
  {
    var u := es[j - 1].f.keyAt;
    KeyLeft(w, from, es, i, j, u);
    KeyNeverOverdrawn(w, from, es, j, u);
  }

  // ----- one of them ----------------------------------------------------------------------------------------

  /** How many of es[i..j] are accepted frames of socket c and that kind. */
  ghost function ThroughOf(w: Crowd, es: seq<Sent>, c: nat, publish: bool, i: nat, j: nat): nat
    requires i <= j <= |es|
  {
    if i == j then 0
    else
      ThroughOf(w, es, c, publish, i, j - 1)
        + if es[j - 1].c == c && es[j - 1].f.publish == publish && Accepts(w, es, j - 1) then 1 else 0
  }

  /** The socket's own buckets are charged in the order of its readings. */
  ghost predicate OwnOrder(from: real, es: seq<Sent>, c: nat) {
    && (forall i :: 0 <= i < |es| && es[i].c == c ==> from <= es[i].f.connAt)
    && (forall i, j :: 0 <= i < j < |es| && es[i].c == c && es[j].c == c ==> es[i].f.connAt <= es[j].f.connAt)
  }

  /** What the socket's bucket of that kind holds. */
  function Holds(w: Crowd, c: nat, publish: bool, t: real): real {
    if publish then Level(PUBLISH, w.sockets(c).publish, t) else Level(CONTROL, w.sockets(c).control, t)
  }

  function Burst(publish: bool): real { if publish then 100.0 else 64.0 }
  function PerSecond(publish: bool): real { if publish then 50.0 else 20.0 }

  lemma HoldsLater(w: Crowd, c: nat, publish: bool, t: real, u: real)
    requires t <= u
    ensures Holds(w, c, publish, u) == Min(Burst(publish), Holds(w, c, publish, t) + PerSecond(publish) * (u - t))
    ensures Holds(w, c, publish, t) <= Holds(w, c, publish, u)
  {
    LimitsSound();
    LevelLater(PUBLISH, w.sockets(c).publish, t, u);
    LevelLater(CONTROL, w.sockets(c).control, t, u);
  }

  lemma OwnSpends(w: Crowd, e: Sent, c: nat, publish: bool)
    requires Holds(w, c, publish, e.f.connAt) >= 0.0 || e.c != c
    ensures var (w', out) := HandleOne(w, e);
      && (e.c != c ==> w'.sockets(c) == w.sockets(c))
      && (e.c == c ==>
            var spent := if e.f.publish == publish && out == Accepted then 1.0 else 0.0;
            0.0 <= Holds(w', c, publish, e.f.connAt) <= Holds(w, c, publish, e.f.connAt) - spent)
  {
    HandleMeans(View(w, e.c), e.f);
  }

  lemma {:induction false} OwnNeverOverdrawn(w: Crowd, from: real, es: seq<Sent>, c: nat, publish: bool, j: nat,
      u: real)
    requires Holds(w, c, publish, from) >= 0.0 && OwnOrder(from, es, c) && j <= |es|
    requires from <= u && forall i :: 0 <= i < j && es[i].c == c ==> es[i].f.connAt <= u
    ensures Holds(RunAll(w, es[..j]), c, publish, u) >= 0.0
  {
    if j == 0 { HoldsLater(w, c, publish, from, u); }
    else {
      var e := es[j - 1];
      var t := if e.c == c then e.f.connAt else u;
      OwnNeverOverdrawn(w, from, es, c, publish, j - 1, t);
      RunAllNext(w, es, j - 1);
      OwnSpends(RunAll(w, es[..j - 1]), e, c, publish);
      HoldsLater(RunAll(w, es[..j]), c, publish, t, u);
    }
  }

  lemma {:induction false} OwnLeft(w: Crowd, from: real, es: seq<Sent>, c: nat, publish: bool, i: nat, j: nat, u: real)
    requires Holds(w, c, publish, from) >= 0.0 && OwnOrder(from, es, c) && i < j <= |es| && es[i].c == c
    requires forall k :: 0 <= k < j && es[k].c == c ==> es[k].f.connAt <= u
    ensures ThroughOf(w, es, c, publish, i, j) as real + Holds(RunAll(w, es[..j]), c, publish, u)
      <= Burst(publish) + PerSecond(publish) * (u - es[i].f.connAt)
  {
    var e, was := es[j - 1], RunAll(w, es[..j - 1]);
    var t := if e.c == c then e.f.connAt else u;
    OwnNeverOverdrawn(w, from, es, c, publish, j - 1, t);
    RunAllNext(w, es, j - 1);
    OwnSpends(was, e, c, publish);
    HoldsLater(RunAll(w, es[..j]), c, publish, t, u);
    if i < j - 1 {
      OwnLeft(w, from, es, c, publish, i, j - 1, t);
      OwnRefills(publish, es[i].f.connAt, t, u);
    }
  }

  lemma OwnRefills(publish: bool, t: real, u: real, v: real)
    ensures PerSecond(publish) * (u - t) + PerSecond(publish) * (v - u) == PerSecond(publish) * (v - t)
  {
  }

  /** One socket gets at most 100 publishes and 50 more a second, and 64 control frames and 20 more a
      second, through in any window, whatever the other sockets of its key do. */
  lemma SocketWindow(w: Crowd, from: real, es: seq<Sent>, c: nat, publish: bool, i: nat, j: nat, d: real)
    requires Holds(w, c, publish, from) >= 0.0 && OwnOrder(from, es, c)
    requires i < j <= |es| && es[i].c == c && es[j - 1].c == c && es[j - 1].f.connAt - es[i].f.connAt <= d
    ensures ThroughOf(w, es, c, publish, i, j) as real <= (if publish then 100.0 + 50.0 * d else 64.0 + 20.0 * d)
  {
    var u := es[j - 1].f.connAt;
    OwnLeft(w, from, es, c, publish, i, j, u);
    OwnNeverOverdrawn(w, from, es, c, publish, j, u);
  }
}
