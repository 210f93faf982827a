/** internal/ratelimit/limiter.go: per-key buckets with eviction. Allow looks its entry up under the
    lock, at one clock reading, and charges the entry's bucket outside it, at a later one; other
    calls and the collector run in between, so a call may charge a bucket that is evicted. Whether
    anybody can tell depends on how long a call takes between its two readings, and so does whether the
    limiter keeps its own promise, a burst and so many a second in any window; both are decided here for
    every such gap. */
module Eviction {
  import opened RateLimit

  datatype Key = Key(text: string)

  /** What concurrent callers and the collector do, in the order it happens: See is the half of an
      Allow under the lock, Draw the other half of the call whose See is event number `call`.
      gcOnce reads the clock before it takes the lock. */
  datatype Event = See(k: Key, at: real) | Draw(call: nat, at: real) | Collect(read: real, at: real)

  /** Entries are named by the See that made them. `bucket` and `seen` hold every entry ever made,
      `of` the entry each call has in hand. */
  datatype State = State(entries: map<Key, nat>, bucket: map<nat, Bucket>, seen: map<nat, real>, of: map<nat, nat>)

  const EMPTY := State(map[], map[], map[], map[])

  function Seen(l: Limit, s: State, k: Key, at: real, n: nat): State {
    var id := if k in s.entries then s.entries[k] else n;
    State(s.entries[k := id],
          if k in s.entries then s.bucket else s.bucket[n := Bucket(l.burst, at)],
          s.seen[id := at], s.of[n := id])
  }

  function BucketOf(s: State, call: nat): Bucket {
    if call in s.of && s.of[call] in s.bucket then s.bucket[s.of[call]] else Bucket(0.0, 0.0)
  }

  function Charged(l: Limit, s: State, call: nat, at: real): State {
    if call in s.of then s.(bucket := s.bucket[s.of[call] := Charge(l, BucketOf(s, call), at)]) else s
  }

  function Collected(ttl: real, s: State, read: real): State {
    s.(entries := map k | k in s.entries && !Stale(s, k, read - ttl) :: s.entries[k])
  }

  predicate Stale(s: State, k: Key, cutoff: real) {
    k in s.entries && s.entries[k] in s.seen && s.seen[s.entries[k]] < cutoff
  }

  function Apply(l: Limit, ttl: real, s: State, e: Event, n: nat, collect: bool): State {
    match e
    case See(k, at) => Seen(l, s, k, at, n)
    case Draw(call, at) => Charged(l, s, call, at)
    case Collect(read, at) => if collect then Collected(ttl, s, read) else s
  }

  /** The state after the first n events, with the collector running or not. */
  function After(l: Limit, ttl: real, es: seq<Event>, n: nat, collect: bool): State
    requires n <= |es|
  {
    if n == 0 then EMPTY else Apply(l, ttl, After(l, ttl, es, n - 1, collect), es[n - 1], n - 1, collect)
  }

  /** The answer of the call that event i charges for. */
  predicate Answer(l: Limit, ttl: real, es: seq<Event>, i: nat, collect: bool)
    requires i < |es|
  {
    es[i].Draw? && Admits(l, BucketOf(After(l, ttl, es, i, collect), es[i].call), es[i].at)
  }

  ghost predicate Ordered(es: seq<Event>) { forall i, j :: 0 <= i < j < |es| ==> es[i].at <= es[j].at }

  /** Event i is possible: a call charges once, after its See and at most `gap` later. */
  ghost predicate Possible(es: seq<Event>, i: nat, gap: real)
    requires i < |es|
  {
    match es[i]
    case See(_, _) => true
    case Draw(c, at) => c < i && es[c].See? && at <= es[c].at + gap
    case Collect(read, at) => read <= at
  }

  ghost predicate Once(es: seq<Event>) {
    forall i, j :: 0 <= i < j < |es| && es[i].Draw? && es[j].Draw? ==> es[i].call != es[j].call
  }

  /** Any interleaving of calls and collections in which no call takes longer than `gap` from its
      first clock reading to its second. */
  ghost predicate History(es: seq<Event>, gap: real) {
    Ordered(es) && Once(es) && forall i :: 0 <= i < |es| ==> Possible(es, i, gap)
  }

  // ----- with and without the collector --------------------------------------------------------------

  /** k's entry was made by a See of k; its bucket was charged at most `gap` after it was last seen. */
  ghost predicate EntryOk(s: State, es: seq<Event>, k: Key, t: real, gap: real) {
    k in s.entries ==>
      var id := s.entries[k];
      && id < |es| && es[id].See? && es[id].k == k && id in s.bucket && id in s.seen
      && s.bucket[id].tokens >= 0.0 && s.bucket[id].last <= s.seen[id] + gap && s.bucket[id].last <= t
        && s.seen[id] <= t
  }

  /** A call that may still charge has the entry its key has now. */
  ghost predicate CallOk(s: State, es: seq<Event>, c: nat, n: nat, t: real, gap: real)
    requires n <= |es|
  {
    c < n && es[c].See? && t <= es[c].at + gap ==>
      && es[c].k in s.entries && c in s.of && s.of[c] == s.entries[es[c].k]
      && s.entries[es[c].k] in s.seen && es[c].at <= s.seen[s.entries[es[c].k]]
  }

  ghost predicate Sane(s: State, es: seq<Event>, n: nat, t: real, gap: real)
    requires n <= |es|
  {
    && (forall k :: EntryOk(s, es, k, t, gap)) && (forall c :: CallOk(s, es, c, n, t, gap))
    && (forall id :: id in s.bucket ==> id < n)
  }

  /** What k's bucket holds at t; a missing entry stands for a full bucket. */
  function Holds(l: Limit, s: State, k: Key, t: real): real {
    if k in s.entries && s.entries[k] in s.bucket then Level(l, s.bucket[s.entries[k]], t) else l.burst
  }

  lemma SaneLater(s: State, es: seq<Event>, n: nat, t: real, u: real, gap: real)
    requires n <= |es| && Sane(s, es, n, t, gap) && t <= u
    ensures Sane(s, es, n, u, gap)
  {
    forall k ensures EntryOk(s, es, k, u, gap) { assert EntryOk(s, es, k, t, gap); }
    forall c ensures CallOk(s, es, c, n, u, gap) { assert CallOk(s, es, c, n, t, gap); }
  }

  lemma SeeKeeps(l: Limit, s: State, es: seq<Event>, n: nat, gap: real)
    requires Sound(l) && gap >= 0.0 && n < |es| && es[n].See? && Sane(s, es, n, es[n].at, gap)
    ensures Sane(Seen(l, s, es[n].k, es[n].at, n), es, n + 1, es[n].at, gap)
  {
    var t, s' := es[n].at, Seen(l, s, es[n].k, es[n].at, n);
    forall k ensures EntryOk(s', es, k, t, gap) { assert EntryOk(s, es, k, t, gap) && EntryOk(s, es, es[n].k, t, gap); }
    var m := n + 1;
    forall c: nat ensures CallOk(s', es, c, m, t, gap) {
      assert CallOk(s, es, c, n, t, gap) && EntryOk(s, es, es[n].k, t, gap);
      if c < n && es[c].See? { assert EntryOk(s, es, es[c].k, t, gap); }
    }
  }

  lemma DrawKeeps(l: Limit, s: State, es: seq<Event>, n: nat, gap: real)
    requires Sound(l) && n < |es| && es[n].Draw? && Possible(es, n, gap) && Sane(s, es, n, es[n].at, gap)
    ensures Sane(Charged(l, s, es[n].call, es[n].at), es, n + 1, es[n].at, gap)
  {
    var t, call, s' := es[n].at, es[n].call, Charged(l, s, es[n].call, es[n].at);
    assert CallOk(s, es, call, n, t, gap) && EntryOk(s, es, es[call].k, t, gap);
    LevelNonNegative(l, BucketOf(s, call), t);
    forall k ensures EntryOk(s', es, k, t, gap) { assert EntryOk(s, es, k, t, gap); }
    var m := n + 1;
    forall c: nat ensures CallOk(s', es, c, m, t, gap) { assert CallOk(s, es, c, n, t, gap); }
  }

  /** The collector leaves every call that may still draw its entry. */
  lemma CollectKeeps(ttl: real, s: State, es: seq<Event>, n: nat, gap: real)
    requires gap <= ttl && n < |es| && es[n].Collect? && Possible(es, n, gap) && Sane(s, es, n, es[n].at, gap)
    ensures Sane(Collected(ttl, s, es[n].read), es, n + 1, es[n].at, gap)
  {
    var t, s' := es[n].at, Collected(ttl, s, es[n].read);
    forall k ensures EntryOk(s', es, k, t, gap) { assert EntryOk(s, es, k, t, gap); }
    var m := n + 1;
    forall c: nat ensures CallOk(s', es, c, m, t, gap) { assert CallOk(s, es, c, n, t, gap); }
  }

  lemma SkipKeeps(s: State, es: seq<Event>, n: nat, gap: real)
    requires n < |es| && es[n].Collect? && Sane(s, es, n, es[n].at, gap)
    ensures Sane(s, es, n + 1, es[n].at, gap)
  {
    var m := n + 1;
    forall c: nat ensures CallOk(s, es, c, m, es[n].at, gap) { assert CallOk(s, es, c, n, es[n].at, gap); }
  }

  lemma StepSane(l: Limit, ttl: real, s: State, es: seq<Event>, n: nat, t: real, gap: real, collect: bool)
    requires Sound(l) && gap >= 0.0 && (collect ==> gap <= ttl)
    requires n < |es| && Possible(es, n, gap) && Sane(s, es, n, t, gap) && t <= es[n].at
    ensures Sane(Apply(l, ttl, s, es[n], n, collect), es, n + 1, es[n].at, gap)
  {
    SaneLater(s, es, n, t, es[n].at, gap);
    match es[n]
    case See(_, _) => SeeKeeps(l, s, es, n, gap);
    case Draw(_, _) => DrawKeeps(l, s, es, n, gap);
    case Collect(_, _) =>
      if collect { CollectKeeps(ttl, s, es, n, gap); }
      else { SkipKeeps(s, es, n, gap); }
  }

  // ----- what each event does to what a key holds --------------------------------------------------------

  lemma HoldsLater(l: Limit, s: State, k: Key, t: real, u: real)
    requires Sound(l) && t <= u
    ensures Holds(l, s, k, u) == Min(l.burst, Holds(l, s, k, t) + l.refill(u - t))
  {
    assert Gains(l, u - t);
    if k in s.entries && s.entries[k] in s.bucket { LevelLater(l, s.bucket[s.entries[k]], t, u); }
  }

  lemma SeeHolds(l: Limit, s: State, es: seq<Event>, n: nat, k: Key, gap: real)
    requires Sound(l) && n < |es| && es[n].See? && Sane(s, es, n, es[n].at, gap)
    ensures Holds(l, Seen(l, s, es[n].k, es[n].at, n), k, es[n].at) == Holds(l, s, k, es[n].at)
  {
    FullStays(l, es[n].at, es[n].at);
    assert EntryOk(s, es, k, es[n].at, gap);
  }

  ghost predicate Takes(l: Limit, s: State, es: seq<Event>, n: nat, k: Key)
    requires n < |es|
  {
    es[n].Draw? && es[n].call < |es| && es[es[n].call].See? && es[es[n].call].k == k
      && Admits(l, BucketOf(s, es[n].call), es[n].at)
  }

  lemma DrawHolds(l: Limit, s: State, es: seq<Event>, n: nat, k: Key, gap: real)
    requires Sound(l) && n < |es| && es[n].Draw? && Possible(es, n, gap) && Sane(s, es, n, es[n].at, gap)
    ensures var s' := Charged(l, s, es[n].call, es[n].at);
      Holds(l, s', k, es[n].at) == Holds(l, s, k, es[n].at) - if Takes(l, s, es, n, k) then 1.0 else 0.0
    ensures Admits(l, BucketOf(s, es[n].call), es[n].at) <==> Holds(l, s, es[es[n].call].k, es[n].at) >= 1.0
  {
    var t, call := es[n].at, es[n].call;
    assert CallOk(s, es, call, n, t, gap) && EntryOk(s, es, es[call].k, t, gap) && EntryOk(s, es, k, t, gap);
    ChargeLevel(l, BucketOf(s, call), t);
  }

  /** An evicted bucket had refilled: it was charged at most `gap` after it was last seen. */
  lemma CollectHolds(l: Limit, ttl: real, s: State, es: seq<Event>, n: nat, k: Key, gap: real)
    requires Sound(l) && gap <= ttl && l.burst <= l.refill(ttl - gap)
    requires n < |es| && es[n].Collect? && Possible(es, n, gap) && Sane(s, es, n, es[n].at, gap)
    ensures Holds(l, Collected(ttl, s, es[n].read), k, es[n].at) == Holds(l, s, k, es[n].at)
  {
    assert EntryOk(s, es, k, es[n].at, gap);
    if Stale(s, k, es[n].read - ttl) {
      var idle := es[n].at - s.bucket[s.entries[k]].last;
      StretchesAdd(l, 0.0, ttl - gap, idle);
      assert ttl - gap - 0.0 == ttl - gap && idle - 0.0 == idle;
      assert Gains(l, idle - (ttl - gap));
    }
  }

  ghost predicate Alike(l: Limit, a: State, b: State, t: real) {
    forall k :: Same(l, a, b, k, t)
  }

  ghost predicate Same(l: Limit, a: State, b: State, k: Key, t: real) {
    Holds(l, a, k, t) == Holds(l, b, k, t)
  }

  lemma StepAlike(l: Limit, ttl: real, a: State, b: State, es: seq<Event>, n: nat, gap: real)
    requires Sound(l) && gap <= ttl && l.burst <= l.refill(ttl - gap) && n < |es| && Possible(es, n, gap)
    requires Sane(a, es, n, es[n].at, gap) && Sane(b, es, n, es[n].at, gap) && Alike(l, a, b, es[n].at)
    ensures Alike(l, Apply(l, ttl, a, es[n], n, true), Apply(l, ttl, b, es[n], n, false), es[n].at)
  {
    var t := es[n].at;
    forall k ensures Same(l, Apply(l, ttl, a, es[n], n, true), Apply(l, ttl, b, es[n], n, false), k, t) {
      assert Same(l, a, b, k, t);
      match es[n]
      case See(_, _) => SeeHolds(l, a, es, n, k, gap); SeeHolds(l, b, es, n, k, gap);
      case Draw(call, _) =>
        assert Same(l, a, b, es[call].k, t);
        DrawHolds(l, a, es, n, k, gap);
        DrawHolds(l, b, es, n, k, gap);
      case Collect(_, _) => CollectHolds(l, ttl, a, es, n, k, gap);
    }
  }

  lemma AlikeLater(l: Limit, a: State, b: State, t: real, u: real)
    requires Sound(l) && t <= u && Alike(l, a, b, t)
    ensures Alike(l, a, b, u)
  {
    forall k ensures Same(l, a, b, k, u) {
      assert Same(l, a, b, k, t);
      HoldsLater(l, a, k, t, u);
      HoldsLater(l, b, k, t, u);
    }
  }

  lemma {:induction false} RunSane(l: Limit, ttl: real, es: seq<Event>, n: nat, t: real, gap: real, collect: bool)
    requires Sound(l) && gap >= 0.0 && (collect ==> gap <= ttl) && History(es, gap) && n <= |es|
    requires n > 0 ==> es[n - 1].at <= t
    ensures Sane(After(l, ttl, es, n, collect), es, n, t, gap)
  {
    if n > 0 {
      RunSane(l, ttl, es, n - 1, es[n - 1].at, gap, collect);
      StepSane(l, ttl, After(l, ttl, es, n - 1, collect), es, n - 1, es[n - 1].at, gap, collect);
      SaneLater(After(l, ttl, es, n, collect), es, n, es[n - 1].at, t, gap);
    }
  }

  lemma {:induction false} HistoriesAgree(l: Limit, ttl: real, es: seq<Event>, n: nat, t: real, gap: real)
    requires Sound(l) && 0.0 <= gap <= ttl && l.burst <= l.refill(ttl - gap) && History(es, gap) && n <= |es|
    requires n > 0 ==> es[n - 1].at <= t
    ensures Alike(l, After(l, ttl, es, n, true), After(l, ttl, es, n, false), t)
  {
    if n > 0 {
      var u := es[n - 1].at;
      HistoriesAgree(l, ttl, es, n - 1, u, gap);
      RunSane(l, ttl, es, n - 1, u, gap, true);
      RunSane(l, ttl, es, n - 1, u, gap, false);
      StepAlike(l, ttl, After(l, ttl, es, n - 1, true), After(l, ttl, es, n - 1, false), es, n - 1, gap);
      AlikeLater(l, After(l, ttl, es, n, true), After(l, ttl, es, n, false), u, t);
    }
  }

  /** A burst that refills in ttl - gap, unless it is none, leaves time for every call. */
  lemma GapWithin(l: Limit, ttl: real, gap: real)
    requires Sound(l) && l.burst > 0.0 && l.burst <= l.refill(ttl - gap)
    ensures gap <= ttl
  {
    if gap > ttl {
      assert Adds(l, ttl - gap, gap - ttl) && Gains(l, gap - ttl);
      assert (ttl - gap) + (gap - ttl) == 0.0;
      NoTime(l);
    }
  }

  /** Eviction is unobservable when a bucket refills in ttl less the time a call can take: however
      calls and collections interleave, every Allow answers as it would without the collector. */
  lemma EvictionUnobservable(l: Limit, ttl: real, es: seq<Event>, i: nat, gap: real)
    requires Sound(l) && gap >= 0.0 && l.burst <= l.refill(ttl - gap) && History(es, gap) && i < |es|
    ensures Answer(l, ttl, es, i, true) == Answer(l, ttl, es, i, false)
  {
    if es[i].Draw? && l.burst > 0.0 {
      GapWithin(l, ttl, gap);
      assert Possible(es, i, gap);
      HistoriesAgree(l, ttl, es, i, es[i].at, gap);
      RunSane(l, ttl, es, i, es[i].at, gap, true);
      RunSane(l, ttl, es, i, es[i].at, gap, false);
      assert Same(l, After(l, ttl, es, i, true), After(l, ttl, es, i, false), es[es[i].call].k, es[i].at);
      DrawHolds(l, After(l, ttl, es, i, true), es, i, es[es[i].call].k, gap);
      DrawHolds(l, After(l, ttl, es, i, false), es, i, es[es[i].call].k, gap);
    }
  }

  // ----- admissions in a window ----------------------------------------------------------------------

  /** How many Allows of k were admitted by events from..n. */
  function Admitted(l: Limit, ttl: real, es: seq<Event>, from: nat, n: nat, k: Key, collect: bool): nat
    requires n <= |es|
  {
    if n <= from then 0
    else Admitted(l, ttl, es, from, n - 1, k, collect) + if Grants(l, ttl, es, n - 1, k, collect) then 1 else 0
  }

  predicate Grants(l: Limit, ttl: real, es: seq<Event>, i: nat, k: Key, collect: bool)
    requires i < |es|
  {
    Answer(l, ttl, es, i, collect) && es[i].call < |es| && es[es[i].call].See? && es[es[i].call].k == k
  }

  lemma HoldsStep(l: Limit, ttl: real, es: seq<Event>, n: nat, k: Key, gap: real)
    requires Sound(l) && gap >= 0.0 && History(es, gap) && n < |es|
    ensures Holds(l, After(l, ttl, es, n + 1, false), k, es[n].at) ==
      Holds(l, After(l, ttl, es, n, false), k, es[n].at) - if Grants(l, ttl, es, n, k, false) then 1.0 else 0.0
  {
    var s := After(l, ttl, es, n, false);
    assert Possible(es, n, gap);
    RunSane(l, ttl, es, n, es[n].at, gap, false);
    match es[n]
    case See(_, _) => SeeHolds(l, s, es, n, k, gap);
    case Draw(_, _) => DrawHolds(l, s, es, n, k, gap);
    case Collect(_, _) =>
  }

  lemma HoldsBounds(l: Limit, s: State, es: seq<Event>, n: nat, k: Key, t: real, gap: real)
    requires Sound(l) && n <= |es| && Sane(s, es, n, t, gap)
    ensures 0.0 <= Holds(l, s, k, t) <= l.burst
  {
    assert EntryOk(s, es, k, t, gap);
    if k in s.entries { LevelNonNegative(l, s.bucket[s.entries[k]], t); }
  }

  lemma HoldsGrows(l: Limit, s: State, k: Key, t: real, u: real)
    requires Sound(l) && t <= u
    ensures Holds(l, s, k, u) <= Holds(l, s, k, t) + l.refill(u - t)
  {
    HoldsLater(l, s, k, t, u);
  }

  /** Without a collector: what was admitted and what is left never exceed the burst and the refill. */
  lemma {:induction false} Spent(l: Limit, ttl: real, es: seq<Event>, from: nat, n: nat, k: Key, gap: real)
    requires Sound(l) && gap >= 0.0 && History(es, gap) && from < n <= |es|
    ensures Admitted(l, ttl, es, from, n, k, false) as real + Holds(l, After(l, ttl, es, n, false), k, es[n - 1].at)
      <= l.burst + l.refill(es[n - 1].at - es[from].at)
    decreases n, 1
  {
    SpentBefore(l, ttl, es, from, n - 1, k, gap);
    HoldsStep(l, ttl, es, n - 1, k, gap);
  }

  /** The same just before event n. */
  lemma {:induction false} SpentBefore(l: Limit, ttl: real, es: seq<Event>, from: nat, n: nat, k: Key, gap: real)
    requires Sound(l) && gap >= 0.0 && History(es, gap) && from <= n < |es|
    ensures Admitted(l, ttl, es, from, n, k, false) as real + Holds(l, After(l, ttl, es, n, false), k, es[n].at)
      <= l.burst + l.refill(es[n].at - es[from].at)
    decreases n, 2
  {
    var s := After(l, ttl, es, n, false);
    if n > from {
      Spent(l, ttl, es, from, n, k, gap);
      HoldsGrows(l, s, k, es[n - 1].at, es[n].at);
      StretchesAdd(l, es[from].at, es[n - 1].at, es[n].at);
    } else {
      RunSane(l, ttl, es, n, es[n].at, gap, false);
      HoldsBounds(l, s, es, n, k, es[n].at, gap);
      NoTime(l);
    }
  }

  /** Without a collector: in any window of length d a key is admitted at most burst + refill(d) times. */
  lemma WindowBound(l: Limit, ttl: real, es: seq<Event>, from: nat, n: nat, k: Key, d: real, gap: real)
    requires Sound(l) && gap >= 0.0 && History(es, gap) && from < n <= |es| && es[n - 1].at - es[from].at <= d
    ensures Admitted(l, ttl, es, from, n, k, false) as real <= l.burst + l.refill(d)
  {
    var last := es[n - 1].at;
    Spent(l, ttl, es, from, n, k, gap);
    RunSane(l, ttl, es, n, last, gap, false);
    HoldsBounds(l, After(l, ttl, es, n, false), es, n, k, last, gap);
    var w := last - es[from].at;
    assert Adds(l, w, d - w) && Gains(l, d - w);
    assert w + (d - w) == d;
  }

  lemma {:induction false} SameAdmitted(l: Limit, ttl: real, es: seq<Event>, from: nat, n: nat, k: Key)
    requires n <= |es| && forall i :: 0 <= i < |es| ==> Answer(l, ttl, es, i, true) == Answer(l, ttl, es, i, false)
    ensures Admitted(l, ttl, es, from, n, k, true) == Admitted(l, ttl, es, from, n, k, false)
  {
    if n > from { SameAdmitted(l, ttl, es, from, n - 1, k); }
  }

  lemma NeverOver(rps: real, burst: real, ttl: real, es: seq<Event>, from: nat, n: nat, k: Key, d: real, gap: real)
    requires rps >= 0.0 && burst >= 0.0 && gap >= 0.0
    requires History(es, gap) && from < n <= |es| && es[n - 1].at - es[from].at <= d
    ensures Admitted(Rate(rps, burst), ttl, es, from, n, k, false) as real <= burst + rps * d
  {
    RateSound(rps, burst);
    WindowBound(Rate(rps, burst), ttl, es, from, n, k, d, gap);
  }

  /** With the collector too, when a burst refills in ttl less the time a call can take. */
  lemma RateWindow(rps: real, burst: real, ttl: real, es: seq<Event>, from: nat, n: nat, k: Key, d: real, gap: real)
    requires rps >= 0.0 && burst >= 0.0 && gap >= 0.0 && burst <= rps * (ttl - gap)
    requires History(es, gap) && from < n <= |es| && es[n - 1].at - es[from].at <= d
    ensures Admitted(Rate(rps, burst), ttl, es, from, n, k, true) as real <= burst + rps * d
  {
    var l := Rate(rps, burst);
    RateSound(rps, burst);
    forall i | 0 <= i < |es| ensures Answer(l, ttl, es, i, true) == Answer(l, ttl, es, i, false) {
      EvictionUnobservable(l, ttl, es, i, gap);
    }
    SameAdmitted(l, ttl, es, from, n, k);
    NeverOver(rps, burst, ttl, es, from, n, k, d, gap);
  }

  // ----- and only then ---------------------------------------------------------------------------------

  /** n calls see k's entry at 0 and draw at v; the collector runs at u; n calls see and draw at u. */
  function ProbeEvent(k: Key, v: real, u: real, n: nat, i: nat): Event {
    if i < n then See(k, 0.0)
    else if i < 2 * n then Draw(i - n, v)
    else if i == 2 * n then Collect(u, u)
    else if i < 3 * n + 1 then See(k, u)
    else Draw(i - n, u)
  }

  function Probe(k: Key, v: real, u: real, n: nat): seq<Event> {
    seq(4 * n + 1, i requires 0 <= i < 4 * n + 1 => ProbeEvent(k, v, u, n, i))
  }

  lemma ProbeIsHistory(k: Key, v: real, u: real, n: nat, gap: real)
    requires 0.0 <= v <= gap && v <= u
    ensures History(Probe(k, v, u, n), gap)
  {
    var es := Probe(k, v, u, n);
    forall i | 0 <= i < |es| ensures Possible(es, i, gap) {}
  }

  /** n calls of one key from event p on: each is seen at time t, then each draws at time v. */
  ghost predicate Batch(es: seq<Event>, p: nat, n: nat, k: Key, t: real, v: real) {
    && p + 2 * n <= |es|
    && (forall i :: p <= i < p + n ==> es[i] == See(k, t))
    && (forall i :: p + n <= i < p + 2 * n ==> es[i] == Draw(i - n, v))
  }

  lemma {:induction false} BatchSeen(l: Limit, ttl: real, es: seq<Event>, p: nat, n: nat, k: Key, t: real, v: real,
      i: nat)
    requires Batch(es, p, n, k, t, v) && 0 < i <= n && k !in After(l, ttl, es, p, true).entries
    ensures var s := After(l, ttl, es, p + i, true);
      && k in s.entries && s.entries[k] == p && p in s.bucket && s.bucket[p] == Bucket(l.burst, t) && p in s.seen
        && s.seen[p] == t
      && (forall c :: p <= c < p + i ==> c in s.of && s.of[c] == p)
  {
    if i > 1 { BatchSeen(l, ttl, es, p, n, k, t, v, i - 1); }
  }

  /** The batch's calls share entry p of k, i draws into its bucket of n. */
  ghost predicate Sharing(l: Limit, s: State, p: nat, n: nat, k: Key, t: real, v: real, i: nat) {
    && k in s.entries && s.entries[k] == p && p in s.bucket && p in s.seen && s.seen[p] == t
    && (forall c :: p <= c < p + n ==> c in s.of && s.of[c] == p)
    && i <= n && Level(l, s.bucket[p], v) == (n - i) as real
  }

  lemma DrawOne(l: Limit, s: State, p: nat, n: nat, k: Key, t: real, v: real, i: nat)
    requires Sound(l) && i < n && Sharing(l, s, p, n, k, t, v, i)
    ensures Sharing(l, Charged(l, s, p + i, v), p, n, k, t, v, i + 1)
    ensures Admits(l, BucketOf(s, p + i), v)
  {
    ChargeLevel(l, s.bucket[p], v);
  }

  lemma AfterNext(l: Limit, ttl: real, es: seq<Event>, m: nat, collect: bool)
    requires m < |es|
    ensures After(l, ttl, es, m + 1, collect) == Apply(l, ttl, After(l, ttl, es, m, collect), es[m], m, collect)
  {
  }

  /** Event m is preceded by the batch's Sees and i of its draws. */
  lemma {:induction false} BatchDrawn(l: Limit, ttl: real, es: seq<Event>, p: nat, n: nat, k: Key, t: real, v: real,
      i: nat, m: nat)
    requires Sound(l) && l.burst == n as real && n > 0 && t <= v && m == p + n + i
    requires Batch(es, p, n, k, t, v) && i <= n && k !in After(l, ttl, es, p, true).entries
    ensures Sharing(l, After(l, ttl, es, m, true), p, n, k, t, v, i)
    decreases i
  {
    if i == 0 {
      BatchSeen(l, ttl, es, p, n, k, t, v, n);
      FullStays(l, t, v);
    } else {
      BatchDrawn(l, ttl, es, p, n, k, t, v, i - 1, m - 1);
      assert es[m - 1] == Draw(p + (i - 1), v);
      AfterNext(l, ttl, es, m - 1, true);
      DrawOne(l, After(l, ttl, es, m - 1, true), p, n, k, t, v, i - 1);
    }
  }

  /** All draws of the batch are admitted. */
  lemma {:induction false} BatchCounts(l: Limit, ttl: real, es: seq<Event>, p: nat, n: nat, k: Key, t: real, v: real,
      i: nat, m: nat)
    requires Sound(l) && l.burst == n as real && n > 0 && t <= v && m == p + n + i
    requires Batch(es, p, n, k, t, v) && i <= n && k !in After(l, ttl, es, p, true).entries
    ensures Admitted(l, ttl, es, p, m, k, true) == i
    decreases i
  {
    if i == 0 { NoDraws(l, ttl, es, p, m, k); }
    else {
      BatchCounts(l, ttl, es, p, n, k, t, v, i - 1, m - 1);
      BatchGrants(l, ttl, es, p, n, k, t, v, i - 1, m - 1);
    }
  }

  lemma BatchGrants(l: Limit, ttl: real, es: seq<Event>, p: nat, n: nat, k: Key, t: real, v: real, i: nat, m: nat)
    requires Sound(l) && l.burst == n as real && t <= v && i < n && m == p + n + i
    requires Batch(es, p, n, k, t, v) && k !in After(l, ttl, es, p, true).entries
    ensures Grants(l, ttl, es, m, k, true)
  {
    BatchDrawn(l, ttl, es, p, n, k, t, v, i, m);
    assert es[m] == Draw(p + i, v) && es[p + i] == See(k, t);
    DrawOne(l, After(l, ttl, es, m, true), p, n, k, t, v, i);
  }

  lemma {:induction false} NoDraws(l: Limit, ttl: real, es: seq<Event>, from: nat, n: nat, k: Key)
    requires n <= |es| && forall i :: from <= i < n ==> !es[i].Draw?
    ensures Admitted(l, ttl, es, from, n, k, true) == 0
  {
    if n > from { NoDraws(l, ttl, es, from, n - 1, k); }
  }

  lemma {:induction false} AdmittedSplits(l: Limit, ttl: real, es: seq<Event>, from: nat, mid: nat, n: nat, k: Key)
    requires from <= mid <= n <= |es|
    ensures Admitted(l, ttl, es, from, n, k, true)
      == Admitted(l, ttl, es, from, mid, k, true) + Admitted(l, ttl, es, mid, n, k, true)
  {
    if n > mid { AdmittedSplits(l, ttl, es, from, mid, n - 1, k); }
  }

  lemma ProbeBatches(k: Key, v: real, u: real, n: nat)
    ensures var es := Probe(k, v, u, n);
      Batch(es, 0, n, k, 0.0, v) && es[2 * n] == Collect(u, u) && Batch(es, 2 * n + 1, n, k, u, u)
  {
  }

  /** After the first batch the collector evicts the entry. */
  lemma Evicted(l: Limit, ttl: real, es: seq<Event>, k: Key, v: real, u: real, n: nat, m: nat)
    requires Sound(l) && l.burst == n as real && n > 0 && 0.0 <= v && ttl < u && m == 2 * n
    requires m < |es| && Batch(es, 0, n, k, 0.0, v) && es[m] == Collect(u, u)
    ensures k !in After(l, ttl, es, m + 1, true).entries
    ensures Admitted(l, ttl, es, 0, m + 1, k, true) == n
  {
    BatchDrawn(l, ttl, es, 0, n, k, 0.0, v, n, m);
    BatchCounts(l, ttl, es, 0, n, k, 0.0, v, n, m);
    AfterNext(l, ttl, es, m, true);
  }

  /** The probe gets twice the burst out of a limiter that collects. */
  lemma ProbeAdmits(l: Limit, ttl: real, k: Key, v: real, u: real, n: nat, end: nat)
    requires Sound(l) && l.burst == n as real && n > 0 && 0.0 <= v && ttl < u && v <= u && end == 4 * n + 1
    ensures Admitted(l, ttl, Probe(k, v, u, n), n, end, k, true) == 2 * n
  {
    var es, p := Probe(k, v, u, n), 2 * n + 1;
    ProbeBatches(k, v, u, n);
    Evicted(l, ttl, es, k, v, u, n, p - 1);
    BatchCounts(l, ttl, es, p, n, k, u, u, n, end);
    AdmittedSplits(l, ttl, es, 0, p, end, k);
    AdmittedSplits(l, ttl, es, 0, n, end, k);
    NoDraws(l, ttl, es, 0, n, k);
  }

  /** A time after the eviction and before the burst has refilled, for calls that took v. */
  lemma PickTime(rps: real, n: nat, ttl: real, v: real) returns (u: real)
    requires rps >= 0.0 && n as real > rps * (ttl - v)
    ensures u > ttl && rps * (u - v) < n as real
  {
    if rps == 0.0 {
      u := ttl + 1.0;
    } else {
      var slack := (n as real - rps * (ttl - v)) / (2.0 * rps);
      assert rps * slack == (n as real - rps * (ttl - v)) / 2.0;
      u := ttl + slack;
      assert rps * (u - v) == rps * (ttl - v) + rps * slack;
      if slack <= 0.0 { Product(rps, -slack); }
    }
  }

  /** Some interleaving in which an Allow is answered differently with the collector running. */
  ghost predicate Observable(l: Limit, ttl: real, gap: real) {
    exists es, i :: Differs(l, ttl, es, i, gap)
  }

  ghost predicate Differs(l: Limit, ttl: real, es: seq<Event>, i: nat, gap: real) {
    History(es, gap) && i < |es| && Answer(l, ttl, es, i, true) != Answer(l, ttl, es, i, false)
  }

  /** No interleaving admits a key more than burst + rps * d times in any window of length d. */
  ghost predicate Bounded(rps: real, burst: real, ttl: real, gap: real) {
    forall es, from, n, k, d :: InWindow(rps, burst, ttl, gap, es, from, n, k, d)
  }

  ghost predicate InWindow(rps: real, burst: real, ttl: real, gap: real, es: seq<Event>, from: nat, n: nat, k: Key,
    d: real) {
    History(es, gap) && from < n <= |es| && es[n - 1].at - es[from].at <= d ==>
      Admitted(Rate(rps, burst), ttl, es, from, n, k, true) as real <= burst + rps * d
  }

  /** If the burst does not refill in time, the probe breaks the bound. */
  lemma ShortBreaks(rps: real, n: nat, ttl: real, gap: real)
    requires rps >= 0.0 && n > 0 && ttl >= 0.0 && gap >= 0.0 && n as real > rps * (ttl - gap)
    ensures !Bounded(rps, n as real, ttl, gap)
  {
    var k, burst := Key("k"), n as real;
    var v := if gap <= ttl then gap else ttl;
    var u := PickTime(rps, n, ttl, v);
    var es := Probe(k, v, u, n);
    RateSound(rps, burst);
    ProbeIsHistory(k, v, u, n, gap);
    ProbeAdmits(Rate(rps, burst), ttl, k, v, u, n, |es|);
    assert es[n] == Draw(0, v) && es[|es| - 1].at == u;
    assert (2 * n) as real == burst + burst;
    assert !InWindow(rps, burst, ttl, gap, es, n, |es|, k, u - v);
  }

  /** For a whole burst of at least one and calls that take up to gap, the window bound holds if and
      only if the burst refills in ttl - gap. */
  lemma RateWindowIff(rps: real, n: nat, ttl: real, gap: real)
    requires rps >= 0.0 && n > 0 && ttl >= 0.0 && gap >= 0.0
    ensures Bounded(rps, n as real, ttl, gap) <==> n as real <= rps * (ttl - gap)
  {
    var burst := n as real;
    if burst > rps * (ttl - gap) { ShortBreaks(rps, n, ttl, gap); }
    else {
      forall es: seq<Event>, from: nat, m: nat, k, d ensures InWindow(rps, burst, ttl, gap, es, from, m, k, d) {
        if History(es, gap) && from < m <= |es| && es[m - 1].at - es[from].at <= d {
          RateWindow(rps, burst, ttl, es, from, m, k, d, gap);
        }
      }
    }
  }

  /** And likewise some interleaving can tell that entries are evicted if and only if it does not. */
  lemma ObservableIffShort(rps: real, n: nat, ttl: real, gap: real)
    requires rps >= 0.0 && n > 0 && ttl >= 0.0 && gap >= 0.0
    ensures Observable(Rate(rps, n as real), ttl, gap) <==> n as real > rps * (ttl - gap)
  {
    var l := Rate(rps, n as real);
    RateSound(rps, n as real);
    if n as real > rps * (ttl - gap) {
      ShortBreaks(rps, n, ttl, gap);
      BrokenDiffers(rps, n as real, ttl, gap);
    } else {
      forall es: seq<Event>, i: nat ensures !Differs(l, ttl, es, i, gap) {
        if History(es, gap) && i < |es| { EvictionUnobservable(l, ttl, es, i, gap); }
      }
    }
  }

  /** Without the collector the bound always holds, so breaking it shows. */
  lemma BrokenDiffers(rps: real, burst: real, ttl: real, gap: real)
    requires rps >= 0.0 && burst >= 0.0 && gap >= 0.0 && !Bounded(rps, burst, ttl, gap)
    ensures Observable(Rate(rps, burst), ttl, gap)
  {
    var es, from, n, k, d :| !InWindow(rps, burst, ttl, gap, es, from, n, k, d);
    NeverOver(rps, burst, ttl, es, from, n, k, d, gap);
    DifferentCounts(Rate(rps, burst), ttl, es, from, n, k, gap);
  }

  lemma DifferentCounts(l: Limit, ttl: real, es: seq<Event>, from: nat, n: nat, k: Key, gap: real)
    requires History(es, gap) && n <= |es|
      && Admitted(l, ttl, es, from, n, k, true) != Admitted(l, ttl, es, from, n, k, false)
    ensures Observable(l, ttl, gap)
  {
    if i: nat :| i < |es| && Answer(l, ttl, es, i, true) != Answer(l, ttl, es, i, false) {
      assert Differs(l, ttl, es, i, gap);
    } else {
      SameAdmitted(l, ttl, es, from, n, k);
    }
  }

  // ----- the limiter as the object it is ------------------------------------------------------------------

  /** Different keys have different entries. */
  ghost predicate Apart(s: State) {
    forall k, k' :: k in s.entries && k' in s.entries && s.entries[k] == s.entries[k'] ==> k == k'
  }

  lemma SeenApart(l: Limit, s: State, k: Key, at: real, n: nat)
    requires Apart(s) && n !in s.entries.Values
    ensures Apart(Seen(l, s, k, at, n))
  {
    forall q | q in s.entries ensures s.entries[q] != n { assert s.entries[q] in s.entries.Values; }
  }

  /** Every state a history reaches is apart, and its next event number unused. */
  lemma SaneApart(s: State, es: seq<Event>, n: nat, t: real, gap: real)
    requires n <= |es| && Sane(s, es, n, t, gap)
    ensures Apart(s) && n !in s.bucket && n !in s.entries.Values
  {
    forall k | k in s.entries ensures s.entries[k] < n && es[s.entries[k]].See? && es[s.entries[k]].k == k {
      assert EntryOk(s, es, k, t, gap);
    }
  }

  class Entry {
    /** The See that made it. */
    ghost const id: nat
    var bucket: Bucket
    var lastSeen: real

    constructor (ghost id: nat, bucket: Bucket, lastSeen: real)
      ensures this.id == id && this.bucket == bucket && this.lastSeen == lastSeen
    {
      this.id, this.bucket, this.lastSeen := id, bucket, lastSeen;
    }

    /** The bucket's own Allow. */
    method Allow(limit: Limit, now: real) returns (ok: bool)
      modifies this`bucket
      ensures ok == Admits(limit, old(bucket), now) && bucket == Charge(limit, old(bucket), now)
    {
      ok := Admits(limit, bucket, now);
      bucket := Charge(limit, bucket, now);
    }
  }

  class Limiter {
    const limit: Limit
    const ttl: real
    var entries: map<Key, Entry>

    constructor (limit: Limit, ttl: real)
      ensures this.limit == limit && this.ttl == ttl && Shows(EMPTY)
    {
      this.limit := limit;
      this.ttl := ttl;
      entries := map[];
    }

    /** The table is the one of state s. */
    ghost predicate Shows(s: State)
      reads this, entries.Values
    {
      entries.Keys == s.entries.Keys && forall k :: k in entries ==> IsOf(entries[k], s, k)
    }

    ghost predicate IsOf(e: Entry, s: State, k: Key)
      reads e
    {
      k in s.entries && s.entries[k] == e.id && e.id in s.bucket && s.bucket[e.id] == e.bucket && e.id in s.seen
        && s.seen[e.id] == e.lastSeen
    }

    /** The half of Allow under the lock, in state s as event n. */
    method Look(k: Key, now: real, ghost s: State, ghost n: nat) returns (e: Entry)
      requires Shows(s) && Apart(s) && n !in s.bucket && n !in s.entries.Values
      modifies this`entries, entries.Values`lastSeen
      ensures Shows(Seen(limit, s, k, now, n)) && k in entries && e == entries[k]
      ensures k in old(entries) ==> entries == old(entries)
      ensures k !in old(entries) ==> fresh(e) && entries == old(entries)[k := e]
    {
      if k !in entries {
        e := new Entry(n, Bucket(limit.burst, now), now);
        forall q | q in entries ensures entries[q].id != n { assert s.entries[q] in s.entries.Values; }
        entries := entries[k := e];
      } else {
        e := entries[k];
        e.lastSeen := now;
      }
    }

    /** The other half, in state s, of call c on the entry it was given, which k still has. */
    method DrawToken(e: Entry, k: Key, now: real, ghost s: State, ghost c: nat) returns (ok: bool)
      requires Shows(s) && Apart(s) && k in entries && entries[k] == e && c in s.of && s.of[c] == e.id
      modifies e`bucket
      ensures ok == Admits(limit, BucketOf(s, c), now) && Shows(Charged(limit, s, c, now))
    {
      assert IsOf(e, s, k);
      forall q | q in entries && q != k ensures entries[q] != e && entries[q].id != e.id {
        assert IsOf(entries[q], s, q);
      }
      ok := e.Allow(limit, now);
    }

    /** Allow, its two readings at seenAt and drawnAt with nothing in between. */
    method Allow(k: Key, seenAt: real, drawnAt: real, ghost s: State, ghost n: nat) returns (ok: bool)
      requires Shows(s) && Apart(s) && n !in s.bucket && n !in s.entries.Values
      modifies this`entries, entries.Values`lastSeen, entries.Values`bucket
      ensures var seen := Seen(limit, s, k, seenAt, n);
        ok == Admits(limit, BucketOf(seen, n), drawnAt) && Shows(Charged(limit, seen, n, drawnAt))
    {
      ghost var seen := Seen(limit, s, k, seenAt, n);
      var e := Look(k, seenAt, s, n);
      SeenApart(limit, s, k, seenAt, n);
      assert IsOf(e, seen, k);
      ok := DrawToken(e, k, drawnAt, seen, n);
    }

    /** gcOnce: exactly the entries last seen before read - ttl go. */
    method GcOnce(read: real, ghost s: State)
      requires Shows(s)
      modifies this`entries
      ensures Shows(Collected(ttl, s, read))
      ensures forall k :: k in entries <==> k in old(entries) && old(entries)[k].lastSeen >= read - ttl
    {
      var cutoff := read - ttl;
      var rest := entries.Keys;
      while rest != {}
        invariant rest <= old(entries).Keys && rest <= entries.Keys
        invariant forall k :: k in entries <==> k in old(entries) && (k in rest || old(entries)[k].lastSeen >= cutoff)
        invariant forall k :: k in entries ==> entries[k] == old(entries)[k]
        decreases rest
      {
        var k :| k in rest;
        if entries[k].lastSeen < cutoff { entries := entries - {k}; }
        rest := rest - {k};
      }
      forall k | k in old(entries) ensures Stale(s, k, cutoff) <==> old(entries)[k].lastSeen < cutoff {
        assert IsOf(old(entries)[k], s, k);
      }
    }
  }
}
