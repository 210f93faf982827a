/** Single use of a subscribe token over whole histories. Verifications and sweeps interleave freely:
    each reads the clock first, in nanoseconds, and goes to the replay cache at some later time.
    Expiry is checked in milliseconds and swept in nanoseconds. So the last millisecond of a token is
    one in which it is still good and may already have been swept, and a verification that checked in
    time may reach the cache after that; the theorems say exactly when a token is accepted again because
    of it, and that it is never accepted twice for any other reason. */
module Replay {
  import opened Token

  /** In the order it happens: Check is the expiry check of a token good in every other respect,
      Record the CheckAndRecord of the verification whose Check is event number `call`. A Sweep goes
      by the clock it read before it took the lock. */
  datatype Event =
    | Check(jti: string, expMs: int, at: int)
    | Record(call: nat, at: int)
    | Sweep(read: int, at: int)

  /** Event i is a verification that reached the cache. */
  predicate Reaches(es: seq<Event>, i: nat) {
    i < |es| && es[i].Record? && es[i].call < i && es[es[i].call].Check? && InTime(es[es[i].call])
  }

  predicate InTime(e: Event)
    requires e.Check?
  {
    Ms(e.at) <= e.expMs
  }

  function Shown(es: seq<Event>, i: nat): Event
    requires Reaches(es, i)
  {
    es[es[i].call]
  }

  predicate Presents(es: seq<Event>, i: nat, jti: string) { Reaches(es, i) && Shown(es, i).jti == jti }

  function Apply(seen: map<string, int>, es: seq<Event>, i: nat): map<string, int>
    requires i < |es|
  {
    if es[i].Sweep? then Kept(seen, es[i].read)
    else if Reaches(es, i) && Shown(es, i).jti !in seen then seen[Shown(es, i).jti := Shown(es, i).expMs * NS_PER_MS]
    else seen
  }

  /** The cache after the first n events. */
  function After(es: seq<Event>, n: nat): map<string, int>
    requires n <= |es|
  {
    if n == 0 then map[] else Apply(After(es, n - 1), es, n - 1)
  }

  /** The verification that event i ends is successful. */
  predicate Accepted(es: seq<Event>, i: nat) {
    Reaches(es, i) && Shown(es, i).jti !in After(es, i)
  }

  /** Time does not go back, and nobody reads a later time than it acts at. */
  ghost predicate Ordered(es: seq<Event>) {
    && (forall i, j :: 0 <= i < j < |es| ==> es[i].at <= es[j].at)
    && (forall i :: 0 <= i < |es| && es[i].Sweep? ==> es[i].read <= es[i].at)
  }

  /** Between events i and n a sweep removed what had expired by time t. */
  ghost predicate SweptIn(es: seq<Event>, i: nat, n: nat, t: int)
    requires n <= |es|
  {
    exists k :: i < k < n && es[k].Sweep? && es[k].read >= t
  }

  lemma SweptStep(es: seq<Event>, i: nat, n: nat, t: int)
    requires i < n < |es|
    ensures SweptIn(es, i, n + 1, t) <==> SweptIn(es, i, n, t) || (es[n].Sweep? && es[n].read >= t)
  {
  }

  /** One step on a remembered jti that is not accepted again. */
  lemma RememberStep(es: seq<Event>, n: nat, jti: string, t: int)
    requires n < |es| && !(Presents(es, n, jti) && Accepted(es, n))
    requires jti in After(es, n) ==> After(es, n)[jti] == t
    ensures jti in After(es, n + 1) <==> jti in After(es, n) && !(es[n].Sweep? && es[n].read >= t)
    ensures jti in After(es, n + 1) ==> After(es, n + 1)[jti] == t
  {
  }

  /** Until it is accepted again, an accepted jti is in the cache exactly when no sweep has come that
      read its expiry or later. */
  lemma {:induction false} RememberedUntilSwept(es: seq<Event>, i: nat, n: nat)
    requires i < n <= |es| && Accepted(es, i)
    requires forall k :: i < k < n && Presents(es, k, Shown(es, i).jti) ==> !Accepted(es, k)
    ensures var jti, t := Shown(es, i).jti, Shown(es, i).expMs * NS_PER_MS;
      && (jti in After(es, n) <==> !SweptIn(es, i, n, t))
      && (jti in After(es, n) ==> After(es, n)[jti] == t)
    decreases n
  {
    var jti, t := Shown(es, i).jti, Shown(es, i).expMs * NS_PER_MS;
    if n > i + 1 {
      RememberedUntilSwept(es, i, n - 1);
      RememberStep(es, n - 1, jti, t);
      SweptStep(es, i, n - 1, t);
    }
  }

  /** When a repeat gets through: a token accepted once, presented again in time and not accepted in
      between, is accepted if and only if a sweep that read the token's expiry or later has been at
      the cache in between. */
  lemma RepeatAccepted(es: seq<Event>, i: nat, j: nat)
    requires i < j < |es| && Accepted(es, i) && Presents(es, j, Shown(es, i).jti)
    requires forall k :: i < k < j && Presents(es, k, Shown(es, i).jti) ==> !Accepted(es, k)
    ensures Accepted(es, j) <==> SweptIn(es, i, j, Shown(es, i).expMs * NS_PER_MS)
  {
    RememberedUntilSwept(es, i, j);
  }

  /** For a repeat that is at the cache before its expiry millisecond is over that leaves only sweeps
      that read the clock within that very millisecond. */
  lemma RepeatInTime(es: seq<Event>, i: nat, j: nat)
    requires Ordered(es) && i < j < |es| && Accepted(es, i) && Presents(es, j, Shown(es, i).jti)
    requires forall k :: i < k < j && Presents(es, k, Shown(es, i).jti) ==> !Accepted(es, k)
    requires Ms(es[j].at) <= Shown(es, i).expMs
    ensures Accepted(es, j) <==> exists k :: i < k < j && es[k].Sweep? && Ms(es[k].read) == Shown(es, i).expMs
  {
    RepeatAccepted(es, i, j);
    var t := Shown(es, i).expMs * NS_PER_MS;
    forall k | i < k < j && es[k].Sweep? ensures es[k].read >= t <==> Ms(es[k].read) == Shown(es, i).expMs {
      assert es[k].read <= es[k].at <= es[j].at;
    }
  }

  /** m is the last acceptance of jti before event j. */
  ghost predicate LastAccepted(es: seq<Event>, jti: string, j: nat, m: nat) {
    m < j && Presents(es, m, jti) && Accepted(es, m) && forall k :: m < k < j && Presents(es, k, jti) ==>
      !Accepted(es, k)
  }

  lemma {:induction false} LastAcceptance(es: seq<Event>, i: nat, j: nat)
    requires i < j && Accepted(es, i)
    ensures exists m :: i <= m && LastAccepted(es, Shown(es, i).jti, j, m)
    decreases j - i
  {
    var jti := Shown(es, i).jti;
    if k: nat :| i < k < j && Presents(es, k, jti) && Accepted(es, k) {
      LastAcceptance(es, k, j);
      var m :| k <= m && LastAccepted(es, jti, j, m);
    } else {
      assert LastAccepted(es, jti, j, i);
    }
  }

  /** Single use: however verifications and sweeps interleave, a jti is accepted twice only if in
      between a sweep was at the cache that had read its expiry or later. */
  lemma SingleUse(es: seq<Event>, i: nat, j: nat)
    requires i < j < |es| && Accepted(es, i) && Accepted(es, j) && Shown(es, j).jti == Shown(es, i).jti
    requires forall k: nat :: Presents(es, k, Shown(es, i).jti) ==> Shown(es, k).expMs == Shown(es, i).expMs
    ensures SweptIn(es, i, j, Shown(es, i).expMs * NS_PER_MS)
  {
    LastAcceptance(es, i, j);
    var m :| i <= m && LastAccepted(es, Shown(es, i).jti, j, m);
    RepeatAccepted(es, m, j);
  }

  /** So it takes a second verification that passed its check before the expiry millisecond was over
      and was at the cache after that sweep had read the clock in that millisecond, or later. */
  lemma RepeatStraddles(es: seq<Event>, i: nat, j: nat)
    requires Ordered(es) && i < j < |es| && Accepted(es, i) && Accepted(es, j) && Shown(es, j).jti == Shown(es, i).jti
    requires forall k: nat :: Presents(es, k, Shown(es, i).jti) ==> Shown(es, k).expMs == Shown(es, i).expMs
    ensures Ms(Shown(es, j).at) <= Shown(es, i).expMs <= Ms(es[j].at)
  {
    SingleUse(es, i, j);
    var k :| i < k < j && es[k].Sweep? && es[k].read >= Shown(es, i).expMs * NS_PER_MS;
    assert es[k].read <= es[k].at <= es[j].at;
  }

  /** Both do happen, for every jti and expiry: all within the expiry millisecond, or with the second
      verification held up between its check and the cache for as long as one likes. */
  lemma SweepInExpiryMillisecond(jti: string, expMs: int, later: nat)
    ensures var t := expMs * NS_PER_MS;
      var es := [Check(jti, expMs, t), Record(0, t), Check(jti, expMs, t), Sweep(t + later, t + later),
        Record(2, t + later)];
      Ordered(es) && Accepted(es, 1) && Accepted(es, 4)
  {
    var t := expMs * NS_PER_MS;
    var es := [Check(jti, expMs, t), Record(0, t), Check(jti, expMs, t), Sweep(t + later, t + later),
      Record(2, t + later)];
    assert Ms(t) == expMs;
    assert After(es, 1) == map[];
    assert After(es, 2) == map[jti := t] == After(es, 3);
    assert After(es, 4) == map[];
  }
}
