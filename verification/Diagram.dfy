/** Slot allocation in web/diagram.js: the order in which terminals light up and the stable,
    injective assignment of peers to them. Fractions are exact where the script uses doubles. The
    order is built by bisection, so that any number of terminals is spread over the stage; a peer
    keeps its terminal for as long as that one is lit, and a new peer takes the first lit terminal
    nobody has. The functions say which slots those are, and the class carries the script's fields
    and loops. */
module Diagram {
  import opened Options

  // ----- slotOrder -------------------------------------------------------------------------------------

  const FIRST_SLOTS: seq<real> := [0.3, 0.7, 0.12, 0.88, 0.5, 0.21, 0.79, 0.4, 0.6, 0.03, 0.97]

  /** Math.round. */
  function Round(x: real): int { (x + 0.5).Floor }

  ghost predicate Distinct(s: seq<nat>) { forall i, j :: 0 <= i < j < |s| ==> s[i] != s[j] }

  /** Every slot of 0..count-1 exactly once. */
  ghost predicate Permutation(s: seq<nat>, count: nat) {
    |s| == count && Distinct(s) && forall i :: i in s <==> 0 <= i < count
  }

  ghost function Range(count: nat): (r: set<nat>)
    ensures |r| == count && forall i :: i in r <==> 0 <= i < count
  {
    if count == 0 then {} else Range(count - 1) + {count - 1}
  }

  ghost function Elements(s: seq<nat>): set<nat> { set x | x in s }

  lemma {:induction false} DistinctSize(s: seq<nat>)
    requires Distinct(s)
    ensures |Elements(s)| == |s|
  {
    if s != [] {
      var front, last := s[..|s| - 1], s[|s| - 1];
      DistinctSize(front);
      assert s == front + [last];
      assert Elements(s) == Elements(front) + {last};
    }
  }

  lemma SubsetSize<T>(a: set<T>, b: set<T>)
    requires a <= b
    ensures |a| <= |b| && (a != b ==> |a| < |b|)
  {
    assert b == a + (b - a);
    if a != b { assert b - a != {}; }
  }

  /** The slots a list of candidates gives: those in range, each where it first occurs. */
  function Keep(cands: seq<int>, count: nat): seq<nat> {
    if cands == [] then [] else
    var front, x := Keep(cands[..|cands| - 1], count), cands[|cands| - 1];
    if 0 <= x < count && x !in front then front + [x] else front
  }

  /** Where things land on a fan of some count: the i-th listed fraction, and k / div of the way. */
  datatype Fan = Fan(listed: nat -> int, part: (nat, nat) -> int)

  function FanOf(count: nat): Fan {
    Fan((i: nat) => if i < |FIRST_SLOTS| then Round(FIRST_SLOTS[i] * (count as real - 1.0)) else 0,
        (k: nat, div: nat) => if div > 0 then Round(k as real / div as real * (count as real - 1.0)) else 0)
  }

  /** The first n listed fractions. */
  function Listed(fan: Fan, n: nat): seq<int> { if n == 0 then [] else Listed(fan, n - 1) + [fan.listed(n - 1)] }

  /** The first n odd multiples of 1 / div. */
  function Odds(fan: Fan, div: nat, n: nat): seq<int> {
    if n == 0 then [] else Odds(fan, div, n - 1) + [fan.part(2 * n - 1, div)]
  }

  function Pow2(n: nat): (p: nat)
    ensures p > 0
  {
    if n == 0 then 1 else 2 * Pow2(n - 1)
  }

  /** The first n bisection levels: halves, quarters and so on. */
  function Levels(fan: Fan, n: nat): seq<int> {
    if n == 0 then [] else Levels(fan, n - 1) + Odds(fan, Pow2(n), Pow2(n - 1))
  }

  /** The values of div. */
  const DIVS: seq<nat> := [2, 4, 8, 16, 32, 64]

  function UpTo(n: nat): seq<int> { if n == 0 then [] else UpTo(n - 1) + [n - 1] }

  /** The order in which slots are proposed: the listed fractions, the bisections to 1/64, the rest. */
  function Candidates(fan: Fan, count: nat): seq<int> { Listed(fan, |FIRST_SLOTS|) + Levels(fan, |DIVS|) + UpTo(count) }

  lemma {:induction false} KeepIs(cands: seq<int>, count: nat)
    ensures Distinct(Keep(cands, count))
    ensures forall i :: i in Keep(cands, count) <==> 0 <= i < count && i in cands
    ensures |Keep(cands, count)| <= count
  {
    if cands != [] {
      var front, x := cands[..|cands| - 1], cands[|cands| - 1];
      KeepIs(front, count);
      assert cands == front + [x];
    }
    DistinctSize(Keep(cands, count));
    SubsetSize(Elements(Keep(cands, count)), Range(count));
  }

  lemma KeepOne(cands: seq<int>, x: int, count: nat)
    ensures Keep(cands + [x], count) == if 0 <= x < count && x !in Keep(cands, count) then Keep(cands, count) + [x]
      else Keep(cands, count)
  {
    assert (cands + [x])[..|cands|] == cands;
  }

  lemma FullHasAll(cands: seq<int>, x: int, count: nat)
    requires |Keep(cands, count)| == count && 0 <= x < count
    ensures x in Keep(cands, count)
  {
    KeepIs(cands, count);
    DistinctSize(Keep(cands, count));
    SubsetSize(Elements(Keep(cands, count)), Range(count));
    assert x in Range(count);
  }

  /** Once every slot is listed, more candidates change nothing. */
  lemma {:induction false} KeepFull(cands: seq<int>, more: seq<int>, count: nat)
    requires |Keep(cands, count)| == count
    ensures Keep(cands + more, count) == Keep(cands, count)
  {
    if more == [] {
      assert cands + more == cands;
    } else {
      var front, x := more[..|more| - 1], more[|more| - 1];
      KeepFull(cands, front, count);
      if 0 <= x < count { FullHasAll(cands, x, count); }
      KeepOne(cands + front, x, count);
      assert cands + more == (cands + front) + [x];
    }
  }

  lemma {:induction false} UpToHas(n: nat)
    ensures forall i :: 0 <= i < n ==> i in UpTo(n)
  {
    if n > 0 { UpToHas(n - 1); }
  }

  /** slotOrder's list is a permutation of the slots. */
  lemma OrderIsPermutation(fan: Fan, count: nat)
    ensures Permutation(Keep(Candidates(fan, count), count), count)
  {
    var order := Keep(Candidates(fan, count), count);
    KeepIs(Candidates(fan, count), count);
    UpToHas(count);
    assert Elements(order) == Range(count);
    DistinctSize(order);
  }

  lemma {:induction false} LevelsPrefix(fan: Fan, n: nat, m: nat) returns (rest: seq<int>)
    requires n <= m
    ensures Levels(fan, n) + rest == Levels(fan, m) && (n == m ==> rest == [])
    decreases m - n
  {
    if n == m { rest := []; }
    else {
      rest := LevelsPrefix(fan, n, m - 1);
      assert Levels(fan, n) + (rest + Odds(fan, Pow2(m), Pow2(m - 1)))
        == Levels(fan, m - 1) + Odds(fan, Pow2(m), Pow2(m - 1));
      rest := rest + Odds(fan, Pow2(m), Pow2(m - 1));
    }
  }

  /** Stopping at the level where every slot is listed loses nothing. */
  lemma StoppedEarly(fan: Fan, cands: seq<int>, n: nat, count: nat)
    requires n <= |DIVS| && (n < |DIVS| ==> |Keep(cands + Levels(fan, n), count)| >= count)
    ensures Keep(cands + Levels(fan, n), count) == Keep(cands + Levels(fan, |DIVS|), count)
  {
    var rest := LevelsPrefix(fan, n, |DIVS|);
    KeepIs(cands + Levels(fan, n), count);
    assert cands + Levels(fan, n) + rest == cands + Levels(fan, |DIVS|);
    if n < |DIVS| { KeepFull(cands + Levels(fan, n), rest, count); }
  }

  lemma DivBound(n: nat)
    requires n <= |DIVS|
    ensures Pow2(n + 1) <= 64 <==> n < |DIVS|
  {
    assert Pow2(3) == 8 && Pow2(5) == 32;
  }

  /** push, with `cands` the candidates so far. */
  method Push(order: seq<nat>, seen: set<nat>, i: int, count: nat, ghost cands: seq<int>) returns (order': seq<nat>,
      seen': set<nat>)
    requires order == Keep(cands, count) && seen == Elements(order)
    ensures order' == Keep(cands + [i], count) && seen' == Elements(order')
  {
    KeepOne(cands, i, count);
    if 0 <= i < count && i !in seen { return order + [i], seen + {i}; }
    return order, seen;
  }

  /** The first loop. */
  method PushListed(fan: Fan, count: nat) returns (order: seq<nat>, seen: set<nat>)
    ensures order == Keep(Listed(fan, |FIRST_SLOTS|), count) && seen == Elements(order)
  {
    order, seen := [], {};
    for f := 0 to |FIRST_SLOTS|
      invariant order == Keep(Listed(fan, f), count) && seen == Elements(order)
    {
      order, seen := Push(order, seen, fan.listed(f), count, Listed(fan, f));
    }
  }

  lemma OddsMore(fan: Fan, cands: seq<int>, div: nat, n: nat)
    ensures cands + Odds(fan, div, n) + [fan.part(2 * n + 1, div)] == cands + Odds(fan, div, n + 1)
  {
  }

  /** One bisection level. */
  method PushLevel(fan: Fan, order: seq<nat>, seen: set<nat>, div: nat, count: nat, ghost cands: seq<int>,
      ghost half: nat)
    returns (order': seq<nat>, seen': set<nat>)
    requires div == 2 * half && order == Keep(cands, count) && seen == Elements(order)
    ensures order' == Keep(cands + Odds(fan, div, half), count) && seen' == Elements(order')
  {
    order', seen' := order, seen;
    assert cands + Odds(fan, div, 0) == cands;
    ghost var n := 0;
    var k := 1;
    while k < div
      invariant k == 2 * n + 1 && n <= half
      invariant order' == Keep(cands + Odds(fan, div, n), count) && seen' == Elements(order')
    {
      order', seen' := Push(order', seen', fan.part(k, div), count, cands + Odds(fan, div, n));
      OddsMore(fan, cands, div, n);
      n := n + 1;
      k := k + 2;
    }
  }

  /** The bisection loop, which stops early once every slot is listed. */
  method PushLevels(fan: Fan, order: seq<nat>, seen: set<nat>, count: nat,
      ghost cands: seq<int>) returns (order': seq<nat>, seen': set<nat>)
    requires order == Keep(cands, count) && seen == Elements(order)
    ensures order' == Keep(cands + Levels(fan, |DIVS|), count) && seen' == Elements(order')
  {
    order', seen' := order, seen;
    ghost var n := 0;
    assert cands + Levels(fan, 0) == cands;
    var div := 2;
    DivBound(n);
    while div <= 64 && |order'| < count
      invariant n <= |DIVS| && div == Pow2(n + 1) && (div <= 64 <==> n < |DIVS|)
      invariant order' == Keep(cands + Levels(fan, n), count) && seen' == Elements(order')
      decreases |DIVS| - n
    {
      order', seen' := PushLevel(fan, order', seen', div, count, cands + Levels(fan, n), Pow2(n));
      assert cands + Levels(fan, n) + Odds(fan, Pow2(n + 1), Pow2(n)) == cands + Levels(fan, n + 1);
      n := n + 1;
      DivBound(n);
      div := div * 2;
    }
    StoppedEarly(fan, cands, n, count);
  }

  /** The last loop. */
  method PushRest(order: seq<nat>, seen: set<nat>, count: nat, ghost cands: seq<int>) returns (order': seq<nat>)
    requires order == Keep(cands, count) && seen == Elements(order)
    ensures order' == Keep(cands + UpTo(count), count)
  {
    order' := order;
    var seen' := seen;
    assert cands + UpTo(0) == cands;
    for i := 0 to count
      invariant order' == Keep(cands + UpTo(i), count) && seen' == Elements(order')
    {
      order', seen' := Push(order', seen', i, count, cands + UpTo(i));
      assert cands + UpTo(i) + [i] == cands + UpTo(i + 1);
    }
  }

  ghost function OrderOf(count: nat): seq<nat> { Keep(Candidates(FanOf(count), count), count) }

  /** slotOrder: the candidates in range, each once, which is a permutation of the slots. */
  method SlotOrder(count: nat) returns (order: seq<nat>)
    ensures order == OrderOf(count) && Permutation(order, count)
  {
    var fan := FanOf(count);
    var seen: set<nat>;
    order, seen := PushListed(fan, count);
    order, seen := PushLevels(fan, order, seen, count, Listed(fan, |FIRST_SLOTS|));
    order := PushRest(order, seen, count, Listed(fan, |FIRST_SLOTS|) + Levels(fan, |DIVS|));
    OrderIsPermutation(fan, count);
  }

  // ----- applyPeers -------------------------------------------------------------------------------------------

  datatype Sid = Sid(text: string)

  ghost function SidsOf(s: seq<Sid>): set<Sid> { set p | p in s }

  lemma SidsMore(s: seq<Sid>, i: nat)
    requires DistinctSids(s) && i < |s|
    ensures SidsOf(s[..i + 1]) == SidsOf(s[..i]) + {s[i]} && s[i] !in SidsOf(s[..i])
  {
    assert s[..i + 1] == s[..i] + [s[i]];
  }

  predicate DistinctSids(s: seq<Sid>) { forall i, j :: 0 <= i < j < |s| ==> s[i] != s[j] }

  ghost predicate Injective(m: map<Sid, nat>) { forall p, q :: p in m && q in m && p != q ==> m[p] != m[q] }

  function Min(a: nat, b: nat): nat { if a <= b then a else b }

  /** Pigeonhole: fewer slots taken than occupied leaves one free. */
  lemma SomeFree(occupied: seq<nat>, taken: set<nat>)
    requires Distinct(occupied) && |taken| < |occupied|
    ensures exists i :: 0 <= i < |occupied| && occupied[i] !in taken
  {
    if forall i :: 0 <= i < |occupied| ==> occupied[i] in taken {
      DistinctSize(occupied);
      SubsetSize(Elements(occupied), taken);
    }
  }

  method FirstFree(occupied: seq<nat>, taken: set<nat>) returns (free: Option<nat>)
    ensures free.None? ==> forall i :: i in occupied ==> i in taken
    ensures free.Some? ==> free.value !in taken && free.value in occupied && FirstOf(free.value, occupied, taken)
  {
    for k := 0 to |occupied|
      invariant forall j :: 0 <= j < k ==> occupied[j] in taken
    {
      if occupied[k] !in taken { return Some(occupied[k]); }
    }
    return None;
  }

  /** A partial assignment of shown peers to occupied slots. */
  ghost predicate Placed(next: map<Sid, nat>, taken: set<nat>, shown: seq<Sid>, occupied: seq<nat>) {
    && Injective(next) && taken == next.Values && |taken| == |next.Keys|
    && (forall p :: p in next ==> Sits(next[p], p, shown, occupied))
  }

  /** The slot comes before every occupied one that is not taken. */
  ghost predicate FirstOf(slot: nat, occupied: seq<nat>, taken: set<nat>) {
    exists k :: 0 <= k < |occupied| && occupied[k] == slot && forall j :: 0 <= j < k ==> occupied[j] in taken
  }

  ghost predicate Sits(slot: nat, p: Sid, shown: seq<Sid>, occupied: seq<nat>) { p in shown && slot in occupied }

  lemma FirstsStay(next: map<Sid, nat>, kept: map<Sid, nat>, occupied: seq<nat>, taken: set<nat>, slot: nat)
    requires forall p :: p in next && p !in kept ==> FirstOf(next[p], occupied, taken)
    requires FirstOf(slot, occupied, taken)
    ensures forall p :: p in next && p !in kept ==> FirstOf(next[p], occupied, taken + {slot})
    ensures FirstOf(slot, occupied, taken + {slot})
  {
  }

  lemma PlaceOne(next: map<Sid, nat>, taken: set<nat>, shown: seq<Sid>, occupied: seq<nat>, p: Sid, slot: nat)
    requires Placed(next, taken, shown, occupied) && p in shown && p !in next && slot in occupied && slot !in taken
    ensures Placed(next[p := slot], taken + {slot}, shown, occupied)
  {
    var m := next[p := slot];
    assert |m.Keys| == |taken + {slot}| by { assert m.Keys == next.Keys + {p}; }
    assert m.Values == taken + {slot} by { PlaceValues(next, p, slot); }
    assert Injective(m) by { PlaceInjective(next, p, slot); }
    forall q | q in m ensures Sits(m[q], q, shown, occupied) {
      if q != p { assert Sits(next[q], q, shown, occupied); }
    }
  }

  lemma PlaceValues(next: map<Sid, nat>, p: Sid, slot: nat)
    requires p !in next
    ensures next[p := slot].Values == next.Values + {slot}
  {
    var m := next[p := slot];
    assert m[p] in m.Values;
    forall v | v in next.Values ensures v in m.Values { var q :| q in next && next[q] == v; assert m[q] == v; }
    forall v | v in m.Values ensures v in next.Values + {slot} { var q :| q in m && m[q] == v; }
  }

  lemma PlaceInjective(next: map<Sid, nat>, p: Sid, slot: nat)
    requires Injective(next) && slot !in next.Values
    ensures Injective(next[p := slot])
  {
    forall q | q in next ensures next[q] != slot { assert next[q] in next.Values; }
  }

  /** Peers kept so far sit elsewhere than p did. */
  lemma KeptElsewhere(next: map<Sid, nat>, slotOf: map<Sid, nat>, p: Sid)
    requires Injective(slotOf) && p in slotOf && p !in next && forall q :: q in next ==>
      q in slotOf && next[q] == slotOf[q]
    ensures slotOf[p] !in next.Values
  {
    forall v | v in next.Values ensures v != slotOf[p] { var q :| q in next && next[q] == v; }
  }

  /** While a shown peer has no slot, fewer slots are taken than peers shown. */
  lemma SidsSize(next: map<Sid, nat>, shown: seq<Sid>, p: Sid)
    requires DistinctSids(shown) && next.Keys <= SidsOf(shown) && p in shown && p !in next
    ensures |next.Keys| < |shown|
  {
    var all := SidsOf(shown);
    SidSetSize(shown);
    assert p in all;
    SubsetSize(next.Keys, all);
  }

  lemma {:induction false} SidSetSize(s: seq<Sid>)
    requires DistinctSids(s)
    ensures |SidsOf(s)| == |s|
  {
    if s != [] {
      var front, last := s[..|s| - 1], s[|s| - 1];
      SidSetSize(front);
      assert s == front + [last];
      assert SidsOf(s) == SidsOf(front) + {last};
    }
  }

  /** Of the peers in `done`, exactly those whose slot is occupied have kept it. */
  ghost predicate KeptOf(next: map<Sid, nat>, slotOf: map<Sid, nat>, done: set<Sid>, occupied: seq<nat>) {
    && (forall p :: p in next <==> p in done && p in slotOf && slotOf[p] in occupied)
    && (forall p :: p in next ==> next[p] == slotOf[p])
  }

  lemma KeptMore(next: map<Sid, nat>, slotOf: map<Sid, nat>, done: set<Sid>, occupied: seq<nat>, p: Sid)
    requires Injective(slotOf) && KeptOf(next, slotOf, done, occupied) && p !in done
    ensures p in slotOf ==> slotOf[p] !in next.Values
    ensures var keeps := p in slotOf && slotOf[p] in occupied;
      KeptOf(if keeps then next[p := slotOf[p]] else next, slotOf, done + {p}, occupied)
  {
    if p in slotOf { KeptElsewhere(next, slotOf, p); }
  }

  // ----- layout ---------------------------------------------------------------------------------------------

  function Max(a: int, b: int): int { if a >= b then a else b }

  /** The largest odd number of terminals, from 5 to 17, whose gaps fit a stage of that size. */
  function SlotCount(w: int, h: int): (count: nat)
    requires h >= 220
    ensures 5 <= count <= 17 && count % 2 == 1
    ensures var avail, gap := h - (if w < 600 then 140 else 180), if w < 600 then 20 else 27;
      && (count > 5 ==> (count - 1) * gap <= avail)
      && (count < 17 ==> (count + 1) * gap > avail)
  {
    var compact := w < 600;
    var avail := h - (if compact then 82 else 96) - (if compact then 58 else 84);
    var fits := avail / (if compact then 20 else 27) + 1;
    var count := Max(5, if fits <= 17 then fits else 17);
    if count % 2 == 0 then count - 1 else count
  }

  /** `x | 0`. */
  function ToInt32(x: int): int { (x + 0x8000_0000) % 0x1_0000_0000 - 0x8000_0000 }

  /** What a longer prefix of the order keeps includes every slot the shorter one gave out. */
  lemma GrowingMovesNobody(order: seq<nat>, drawn: nat, drawn': nat, was: map<Sid, nat>, now: map<Sid, nat>)
    requires drawn <= drawn' <= |order| && (forall p :: p in was ==> was[p] in order[..drawn])
    requires forall p :: p in now && p in was && was[p] in order[..drawn'] ==> now[p] == was[p]
    ensures forall p :: p in was && p in now ==> now[p] == was[p]
  {
    forall p | p in was ensures was[p] in order[..drawn'] {
      var i :| 0 <= i < drawn && order[..drawn][i] == was[p];
      assert order[..drawn'][i] == was[p];
    }
  }

  class FanoutDiagram {
    var width: int
    var height: int
    var order: seq<nat>
    var slots: nat
    var peers: seq<Sid>
    var counted: nat
    var slotOf: map<Sid, nat>

    /** Before the places are given out again. */
    ghost predicate Ordered()
      reads this
    {
      Permutation(order, slots) && DistinctSids(peers) && Injective(slotOf) && (slots == 0 ==> slotOf == map[])
    }

    /** Exactly the shown peers have a slot, each an occupied one of its own. */
    ghost predicate Valid()
      reads this
    {
      && Ordered()
      && (forall p :: p in slotOf <==> p in Shown())
      && (forall p :: p in slotOf ==> slotOf[p] in Occupied())
    }

    /** Whoever had a slot that is still occupied has it still. */
    ghost predicate KeepsPlaces(was: map<Sid, nat>)
      requires Valid()
      reads this
    {
      forall p :: p in slotOf && p in was && was[p] in Occupied() ==> slotOf[p] == was[p]
    }

    constructor ()
      ensures Valid() && slots == 0 && peers == [] && counted == 0 && width == 0 && height == 0
    {
      width, height := 0, 0;
      order, slots, peers, counted, slotOf := [], 0, [], 0, map[];
    }

    /** drawn: how many peers, and then how many other connections, get a slot. */
    function DrawnPeers(): (n: nat)
      reads this
      ensures n == |peers| || (n == slots && slots < |peers|)
    {
      Min(|peers|, slots)
    }

    function Drawn(): (n: nat)
      reads this
      ensures DrawnPeers() <= n <= slots
      ensures n == |peers| + counted || (n == slots && slots < |peers| + counted)
    {
      DrawnPeers() + Min(counted, slots - DrawnPeers())
    }

    /** The slots in use. */
    function Occupied(): seq<nat>
      reads this
      requires Ordered()
    {
      order[..Drawn()]
    }

    function Shown(): seq<Sid>
      reads this
    {
      peers[..DrawnPeers()]
    }

    /** The first loop: a peer keeps its slot while that stays occupied. */
    method KeepPlaces(occupied: seq<nat>, shown: seq<Sid>) returns (next: map<Sid, nat>, taken: set<nat>)
      requires Injective(slotOf) && DistinctSids(shown)
      ensures Placed(next, taken, shown, occupied)
      ensures KeptOf(next, slotOf, SidsOf(shown), occupied)
    {
      next, taken := map[], {};
      ghost var done: set<Sid> := {};
      for i := 0 to |shown|
        invariant Placed(next, taken, shown, occupied)
        invariant done == SidsOf(shown[..i])
        invariant KeptOf(next, slotOf, done, occupied)
      {
        var p := shown[i];
        SidsMore(shown, i);
        KeptMore(next, slotOf, done, occupied, p);
        if p in slotOf && slotOf[p] in occupied && slotOf[p] !in taken {
          PlaceOne(next, taken, shown, occupied, p, slotOf[p]);
          next, taken := next[p := slotOf[p]], taken + {slotOf[p]};
        }
        done := done + {p};
      }
      assert shown[..|shown|] == shown;
    }

    /** The second loop: every other shown peer takes the first free slot; there always is one. */
    method PlaceOthers(occupied: seq<nat>, shown: seq<Sid>, kept: map<Sid, nat>,
        used: set<nat>) returns (next: map<Sid, nat>)
      requires Placed(kept, used, shown, occupied) && DistinctSids(shown) && Distinct(occupied) && |shown| <= |occupied|
      ensures Injective(next) && (forall p :: p in next <==> p in shown)
        && (forall p :: p in next ==> next[p] in occupied)
      ensures forall p :: p in kept ==> p in next && next[p] == kept[p]
      ensures forall p :: p in next && p !in kept ==> FirstOf(next[p], occupied, next.Values)
    {
      next := kept;
      var taken := used;
      for i := 0 to |shown|
        invariant Placed(next, taken, shown, occupied)
        invariant forall j :: 0 <= j < i ==> shown[j] in next
        invariant forall p :: p in kept ==> p in next && next[p] == kept[p]
        invariant forall p :: p in next && p !in kept ==> FirstOf(next[p], occupied, taken)
      {
        var p := shown[i];
        if p in next { continue; }
        forall q | q in next ensures q in shown { assert Sits(next[q], q, shown, occupied); }
        SidsSize(next, shown, p);
        SomeFree(occupied, taken);
        var free := FirstFree(occupied, taken);
        if free.None? { assert false; }
        PlaceOne(next, taken, shown, occupied, p, free.value);
        FirstsStay(next, kept, occupied, taken, free.value);
        next, taken := next[p := free.value], taken + {free.value};
      }
      forall p | p in next ensures p in shown && next[p] in occupied { assert Sits(next[p], p, shown, occupied); }
    }

    /** applyPeers: every shown peer has an occupied slot of its own, whoever had a slot that is still
        occupied has it still, and no occupied slot before a newcomer's is free. */
    method ApplyPeers()
      requires Ordered()
      modifies this`slotOf
      ensures Valid() && KeepsPlaces(old(slotOf))
      ensures forall p :: p in slotOf && !(p in old(slotOf) && old(slotOf)[p] in Occupied()) ==>
        FirstOf(slotOf[p], Occupied(), slotOf.Values)
    {
      if slots == 0 { return; }
      var occupied, shown := Occupied(), Shown();
      assert DistinctSids(shown) && Distinct(occupied);
      var kept, taken := KeepPlaces(occupied, shown);
      slotOf := PlaceOthers(occupied, shown, kept, taken);
    }

    /** setPeers: no peer moves unless fewer terminals are drawn than before. */
    method SetPeers(peers: seq<Sid>, counted: int)
      requires Valid() && DistinctSids(peers)
      modifies this`peers, this`counted, this`slotOf
      ensures Valid() && KeepsPlaces(old(slotOf))
      ensures this.peers == peers && this.counted == Max(0, ToInt32(counted))
      ensures old(Drawn()) <= Drawn() ==> forall p :: p in old(slotOf) && p in slotOf ==> slotOf[p] == old(slotOf)[p]
    {
      this.peers := peers;
      this.counted := Max(0, ToInt32(counted));
      ApplyPeers();
      if old(Drawn()) <= Drawn() { GrowingMovesNobody(order, old(Drawn()), Drawn(), old(slotOf), slotOf); }
    }

    /** The part of layout that lays out `count` terminals. */
    method SetSlots(count: nat)
      requires Valid() && count > 0
      modifies this`order, this`slots, this`slotOf
      ensures Valid() && KeepsPlaces(old(slotOf)) && slots == count && order == OrderOf(count)
    {
      order := SlotOrder(count);
      slots := count;
      ApplyPeers();
    }

    /** layout, for a stage of that rounded size: slotOrder's list becomes the order, unless the size
        is the one already laid out. */
    method Layout(w: int, h: int, force: bool)
      requires Valid()
      modifies this`width, this`height, this`order, this`slots, this`slotOf
      ensures Valid() && KeepsPlaces(old(slotOf)) && width == Max(280, w) && height == Max(220, h)
      ensures var same := !force && old(width) == width && old(height) == height;
        if same then order == old(order) && slots == old(slots) && slotOf == old(slotOf)
        else slots == SlotCount(width, height) && order == OrderOf(slots)
    {
      var w', h' := Max(280, w), Max(220, h);
      if !force && w' == width && h' == height { return; }
      width, height := w', h';
      SetSlots(SlotCount(w', h'));
    }
  }
}
