/** internal/registry and hub.Subscribe as objects, one call at a time: the sharded and the sync.Map
    registry, channels and Sweep. Both registries are proved against one flat map from names to
    channels, so whatever holds of one holds of the other, for any hash and any order in which a map is
    visited. A Sweep here runs undisturbed and says exactly which channels are left; what subscribes,
    unsubscribes, exits and other sweeps do in the middle of one is the subject of ChannelRuns. */
module Registry {
  import opened Options

  datatype Name = Name(text: string)

  datatype SubscribeError = TooManySubs | ChannelDeleted

  class Channel {
    const name: Name
    var subscribers: set<nat>
    var deleted: bool

    constructor (name: Name)
      ensures this.name == name && subscribers == {} && !deleted
    {
      this.name := name;
      subscribers := {};
      deleted := false;
    }

    /** hub.Subscribe. */
    method Subscribe(s: nat, max: nat) returns (err: Option<SubscribeError>)
      modifies this`subscribers
      ensures err == if deleted then Some(ChannelDeleted) else if |old(subscribers)| >= max then Some(TooManySubs)
        else None
      ensures subscribers == if err.None? then old(subscribers) + {s} else old(subscribers)
    {
      if deleted { return Some(ChannelDeleted); }
      if |subscribers| >= max { return Some(TooManySubs); }
      subscribers := subscribers + {s};
      return None;
    }

    /** hub.Unsubscribe. */
    method Unsubscribe(s: nat)
      modifies this`subscribers
      ensures subscribers == old(subscribers) - {s}
    {
      subscribers := subscribers - {s};
    }
  }

  /** What a registry is to its users: one flat map. */
  type Entries = map<Name, Channel>

  ghost predicate Named(m: Entries) {
    forall n :: n in m ==> m[n].name == n
  }

  /** CompareAndDelete on the flat map. */
  ghost function Without(m: Entries, name: Name, c: Channel): Entries {
    if name in m && m[name] == c then m - {name} else m
  }

  const NUM_SHARDS: nat := 16

  class ShardedReg {
    const hash: Name -> nat
    var shards: seq<Entries>
    /** The flat map the sixteen shards make up. */
    ghost var flat: Entries

    function ShardFor(name: Name): (i: nat)
      ensures i < NUM_SHARDS
    {
      hash(name) % NUM_SHARDS
    }

    /** A name is in its own shard exactly as it is in the flat map, and in no other shard. */
    ghost predicate At(n: Name)
      reads this
      requires |shards| == NUM_SHARDS
    {
      && (n in flat <==> n in shards[ShardFor(n)])
      && (n in flat ==> flat[n] == shards[ShardFor(n)][n] && flat[n].name == n)
      && forall i :: 0 <= i < NUM_SHARDS && n in shards[i] ==> i == ShardFor(n)
    }

    ghost predicate Valid()
      reads this
    {
      |shards| == NUM_SHARDS && forall n :: At(n)
    }

    constructor (hash: Name -> nat)
      ensures Valid() && flat == map[] && this.hash == hash
    {
      this.hash := hash;
      shards := seq(NUM_SHARDS, _ => map[]);
      flat := map[];
      new;
      forall n ensures At(n) {}
    }

    method Lookup(name: Name) returns (c: Option<Channel>)
      requires Valid()
      ensures c == if name in flat then Some(flat[name]) else None
    {
      var s := shards[ShardFor(name)];
      assert At(name);
      if name in s { return Some(s[name]); }
      return None;
    }

    /** GetOrCreate's write-locked half: whatever happened since the lookup, it checks again. */
    method InsertIfAbsent(name: Name) returns (c: Channel)
      requires Valid()
      modifies this`shards, this`flat
      ensures Valid() && name in flat && c == flat[name]
      ensures name in old(flat) ==> flat == old(flat)
      ensures name !in old(flat) ==> flat == old(flat)[name := c] && fresh(c) && c.subscribers == {} && !c.deleted
    {
      var i := ShardFor(name);
      assert At(name);
      if name in shards[i] { return shards[i][name]; }
      c := new Channel(name);
      label Before:
      shards := shards[i := shards[i][name := c]];
      flat := flat[name := c];
      forall n ensures At(n) { assert old@Before(At(n)); }
    }

    method GetOrCreate(name: Name) returns (c: Channel)
      requires Valid()
      modifies this`shards, this`flat
      ensures Valid() && name in flat && c == flat[name]
      ensures name in old(flat) ==> flat == old(flat)
      ensures name !in old(flat) ==> flat == old(flat)[name := c] && fresh(c) && c.subscribers == {} && !c.deleted
    {
      var found := Lookup(name);
      if found.Some? { return found.value; }
      c := InsertIfAbsent(name);
    }

    method CompareAndDelete(name: Name, c: Channel) returns (removed: bool)
      requires Valid()
      modifies this`shards, this`flat
      ensures Valid() && flat == Without(old(flat), name, c)
      ensures removed <==> name in old(flat) && old(flat)[name] == c
    {
      var i := ShardFor(name);
      assert At(name);
      if name !in shards[i] || shards[i][name] != c { return false; }
      shards := shards[i := shards[i] - {name}];
      flat := flat - {name};
      forall n ensures At(n) { assert old(At(n)); }
      return true;
    }

    /** One shard's channels, copied out in map iteration order. */
    method CopyShard(i: nat) returns (buf: seq<Channel>)
      requires Valid() && i < NUM_SHARDS
      ensures CopyOf(buf, flat, set n | n in flat && ShardFor(n) == i)
    {
      var todo := shards[i].Keys;
      buf := [];
      while todo != {}
        invariant todo <= shards[i].Keys
        invariant CopyOf(buf, flat, shards[i].Keys - todo)
        decreases todo
      {
        var n :| n in todo;
        assert At(n);
        CopyMore(buf, flat, shards[i].Keys - todo, n);
        buf := buf + [shards[i][n]];
        assert shards[i].Keys - (todo - {n}) == shards[i].Keys - todo + {n};
        todo := todo - {n};
      }
      forall n ensures n in shards[i] <==> n in flat && ShardFor(n) == i { assert At(n); }
      assert shards[i].Keys - todo == set n | n in flat && ShardFor(n) == i;
    }

    method Len() returns (total: nat)
      requires Valid()
      ensures total == |flat|
    {
      total := 0;
      ghost var seen: Entries := map[];
      var i := 0;
      while i < NUM_SHARDS
        invariant 0 <= i <= NUM_SHARDS
        invariant forall n :: n in seen <==> n in flat && ShardFor(n) < i
        invariant total == |seen|
      {
        forall n ensures n in shards[i] <==> n in flat && ShardFor(n) == i { assert At(n); }
        AddDisjoint(seen, shards[i]);
        seen := seen + shards[i];
        total := total + |shards[i]|;
        i := i + 1;
      }
      assert seen.Keys == flat.Keys;
      assert |seen| == |seen.Keys| && |flat| == |flat.Keys|;
    }
  }

  lemma AddDisjoint(a: Entries, b: Entries)
    requires a.Keys !! b.Keys
    ensures |a + b| == |a| + |b|
  {
    assert (a + b).Keys == a.Keys + b.Keys;
    assert |a + b| == |(a + b).Keys| && |a| == |a.Keys| && |b| == |b.Keys|;
  }

  lemma RemoveEntry(m: Entries, n: Name)
    requires n in m
    ensures |m - {n}| == |m| - 1
  {
    assert (m - {n}).Keys == m.Keys - {n};
    assert |m| == |m.Keys| && |m - {n}| == |(m - {n}).Keys|;
  }

  /** buf lists the entries of m under those names, each once. */
  ghost predicate CopyOf(buf: seq<Channel>, m: Entries, names: set<Name>) {
    && (forall j :: 0 <= j < |buf| ==> buf[j].name in names && buf[j].name in m && m[buf[j].name] == buf[j])
    && (forall n :: n in names ==> n in m && m[n] in buf)
    && (forall j, k :: 0 <= j < k < |buf| ==> buf[j].name != buf[k].name)
  }

  lemma CopyMore(buf: seq<Channel>, m: Entries, names: set<Name>, n: Name)
    requires CopyOf(buf, m, names) && n in m && n !in names && m[n].name == n
    ensures CopyOf(buf + [m[n]], m, names + {n})
  {
    var more := buf + [m[n]];
    assert more[|buf|] == m[n];
    forall x | x in names ensures m[x] in more { assert m[x] in buf; }
  }

  /** The registry over sync.Map: Load, then LoadOrStore. */
  class SyncMapReg {
    var m: Entries

    constructor ()
      ensures m == map[]
    {
      m := map[];
    }

    method LoadOrStore(name: Name, c: Channel) returns (actual: Channel, loaded: bool)
      modifies this`m
      ensures loaded <==> name in old(m)
      ensures actual == (if loaded then old(m)[name] else c)
      ensures m == (if loaded then old(m) else old(m)[name := c])
    {
      if name in m { return m[name], true; }
      m := m[name := c];
      return c, false;
    }

    method GetOrCreate(name: Name) returns (c: Channel)
      requires Named(m)
      modifies this`m
      ensures Named(m) && name in m && c == m[name]
      ensures name in old(m) ==> m == old(m)
      ensures name !in old(m) ==> m == old(m)[name := c] && fresh(c) && c.subscribers == {} && !c.deleted
    {
      if name in m { return m[name]; }
      var made := new Channel(name);
      var loaded: bool;
      c, loaded := LoadOrStore(name, made);
    }

    method CompareAndDelete(name: Name, c: Channel) returns (removed: bool)
      modifies this`m
      ensures m == Without(old(m), name, c)
      ensures removed <==> name in old(m) && old(m)[name] == c
    {
      if name !in m || m[name] != c { return false; }
      m := m - {name};
      return true;
    }
  }

  // ----- Range ---------------------------------------------------------------------------------------

  function Concat(bufs: seq<seq<Channel>>): seq<Channel> {
    if bufs == [] then [] else Concat(bufs[..|bufs| - 1]) + bufs[|bufs| - 1]
  }

  /** How often a name is visited: once if some copied shard lists it. */
  lemma {:induction false} VisitedOnce(bufs: seq<seq<Channel>>, c: Channel, at: nat)
    requires at < |bufs| && c in bufs[at]
    requires forall i, j, k :: 0 <= i < |bufs| && 0 <= j < k < |bufs[i]| ==> bufs[i][j] != bufs[i][k]
    requires forall i :: 0 <= i < |bufs| && i != at ==> c !in bufs[i]
    ensures multiset(Concat(bufs))[c] == 1
  {
    var last := |bufs| - 1;
    var front := bufs[..last];
    if at == last {
      NeverIn(front, c);
      OnceIn(bufs[last], c);
    } else {
      VisitedOnce(front, c, at);
      assert multiset(bufs[last])[c] == 0;
    }
  }

  lemma {:induction false} NeverIn(bufs: seq<seq<Channel>>, c: Channel)
    requires forall i :: 0 <= i < |bufs| ==> c !in bufs[i]
    ensures c !in Concat(bufs)
  {
    if bufs != [] { NeverIn(bufs[..|bufs| - 1], c); }
  }

  lemma {:induction false} OnceIn(s: seq<Channel>, c: Channel)
    requires c in s && forall j, k :: 0 <= j < k < |s| ==> s[j] != s[k]
    ensures multiset(s)[c] == 1
  {
    var last := |s| - 1;
    assert s == s[..last] + [s[last]];
    if s[last] == c { assert multiset(s[..last])[c] == 0; } else { OnceIn(s[..last], c); }
  }

  /** Range copies shard i out of whatever the registry is by then, seen[i]: callbacks, other
      goroutines and other sweeps have changed it at will in between. A channel that is its
      name's entry whenever a shard is copied is visited exactly once, and a channel is visited
      only if it was an entry when its shard was copied, and at most once. */
  lemma RangeVisits(hash: Name -> nat, seen: seq<Entries>, bufs: seq<seq<Channel>>, c: Channel)
    requires |seen| == |bufs| == NUM_SHARDS
    requires forall i :: 0 <= i < NUM_SHARDS ==>
      CopyOf(bufs[i], seen[i], set n | n in seen[i] && hash(n) % NUM_SHARDS == i)
    ensures multiset(Concat(bufs))[c] <= 1
    ensures multiset(Concat(bufs))[c] == 1
      <==> (var m := seen[hash(c.name) % NUM_SHARDS]; c.name in m && m[c.name] == c)
  {
    var at := hash(c.name) % NUM_SHARDS;
    forall i | 0 <= i < NUM_SHARDS && i != at ensures c !in bufs[i] {}
    if c in bufs[at] { VisitedOnce(bufs, c, at); } else { NeverIn(bufs, c); }
  }

  // ----- Sweep ---------------------------------------------------------------------------------------

  /** Sweep's callback for one channel. */
  method SweepOne(r: ShardedReg, c: Channel) returns (removed: bool)
    requires r.Valid()
    modifies r`shards, r`flat, c`deleted
    ensures r.Valid() && r.flat == if c.subscribers == {} then Without(old(r.flat), c.name, c) else old(r.flat)
    ensures removed <==> c.subscribers == {} && c.name in old(r.flat) && old(r.flat)[c.name] == c
    ensures c.deleted == (old(c.deleted) || c.subscribers == {})
  {
    removed := false;
    if |c.subscribers| == 0 {
      removed := r.CompareAndDelete(c.name, c);
      c.deleted := true;
    }
  }

  /** m is what a sweep of `all` has left once it has visited the names in `dealt`. */
  ghost predicate Left(all: Entries, m: Entries, occupied: set<Name>, dealt: set<Name>) {
    && (forall n :: n in m <==> n in all && (n !in dealt || n in occupied))
    && (forall n :: n in m ==> m[n] == all[n])
  }

  /** Deleted marks exactly what was marked before and what the sweep has removed. */
  ghost predicate Marks(all: Entries, m: Entries, was: set<Name>, cs: set<Channel>)
    reads cs`deleted
  {
    forall n :: n in all && all[n] in cs ==> (all[n].deleted <==> n in was || n !in m)
  }

  ghost predicate SplitBy(all: Entries, occupied: set<Name>, cs: set<Channel>)
    reads cs`subscribers
  {
    Named(all) && forall n :: n in all ==> all[n] in cs && (n in occupied <==> all[n].subscribers != {})
  }

  /** One visit of the callback. */
  method Visit(r: ShardedReg, c: Channel, ghost all: Entries, ghost occupied: set<Name>, ghost dealt: set<Name>,
        ghost was: set<Name>, ghost cs: set<Channel>) returns (removed: bool)
    requires r.Valid() && SplitBy(all, occupied, cs) && Left(all, r.flat, occupied, dealt)
      && Marks(all, r.flat, was, cs)
    requires c.name in all && all[c.name] == c && c.name !in dealt
    modifies r`shards, r`flat, cs`deleted
    ensures r.Valid() && Left(all, r.flat, occupied, dealt + {c.name}) && Marks(all, r.flat, was, cs)
    ensures |r.flat| == |old(r.flat)| - if removed then 1 else 0
  {
    RemoveEntry(r.flat, c.name);
    removed := SweepOne(r, c);
  }

  ghost function NamesOf(s: seq<Channel>): set<Name> { set c | c in s :: c.name }

  lemma NamesMore(buf: seq<Channel>, k: nat)
    requires k < |buf| && forall i, j :: 0 <= i < j < |buf| ==> buf[i].name != buf[j].name
    ensures NamesOf(buf[..k + 1]) == NamesOf(buf[..k]) + {buf[k].name} && buf[k].name !in NamesOf(buf[..k])
  {
    assert buf[..k + 1] == buf[..k] + [buf[k]];
    assert buf[k] in buf[..k + 1];
  }

  lemma CopyNames(buf: seq<Channel>, m: Entries, names: set<Name>)
    requires CopyOf(buf, m, names) && Named(m)
    ensures NamesOf(buf[..|buf|]) == names
  {
    assert buf[..|buf|] == buf;
    forall n | n in names ensures n in NamesOf(buf) { assert m[n] in buf; }
  }

  /** The callback over one shard's copy. */
  method SweepCopy(r: ShardedReg, buf: seq<Channel>, ghost all: Entries, ghost occupied: set<Name>,
      ghost dealt: set<Name>,
        ghost was: set<Name>, ghost cs: set<Channel>, ghost names: set<Name>) returns (removed: nat)
    requires r.Valid() && SplitBy(all, occupied, cs) && Left(all, r.flat, occupied, dealt)
      && Marks(all, r.flat, was, cs)
    requires CopyOf(buf, all, names) && names !! dealt
    modifies r`shards, r`flat, cs`deleted
    ensures r.Valid() && Left(all, r.flat, occupied, dealt + names) && Marks(all, r.flat, was, cs)
    ensures removed == |old(r.flat)| - |r.flat|
  {
    removed := 0;
    ghost var done := dealt;
    var k := 0;
    while k < |buf|
      invariant 0 <= k <= |buf| && r.Valid() && SplitBy(all, occupied, cs)
      invariant done == dealt + NamesOf(buf[..k])
      invariant Left(all, r.flat, occupied, done) && Marks(all, r.flat, was, cs)
      invariant removed == |old(r.flat)| - |r.flat|
    {
      NamesMore(buf, k);
      var gone := Visit(r, buf[k], all, occupied, done, was, cs);
      if gone { removed := removed + 1; }
      done := done + {buf[k].name};
      k := k + 1;
    }
    CopyNames(buf, all, names);
  }

  /** Range's turn at shard i. */
  method SweepShard(r: ShardedReg, i: nat, ghost all: Entries, ghost occupied: set<Name>, ghost dealt: set<Name>,
        ghost was: set<Name>, ghost cs: set<Channel>, ghost here: set<Name>) returns (removed: nat)
    requires r.Valid() && SplitBy(all, occupied, cs) && Left(all, r.flat, occupied, dealt)
      && Marks(all, r.flat, was, cs)
    requires i < NUM_SHARDS && here == (set n | n in r.flat && r.ShardFor(n) == i) && here !! dealt
    modifies r`shards, r`flat, cs`deleted
    ensures r.Valid() && Left(all, r.flat, occupied, dealt + here) && Marks(all, r.flat, was, cs)
    ensures removed == |old(r.flat)| - |r.flat|
  {
    var buf := r.CopyShard(i);
    assert CopyOf(buf, all, here);
    removed := SweepCopy(r, buf, all, occupied, dealt, was, cs, here);
  }

  method SweepShards(r: ShardedReg, ghost all: Entries, ghost occupied: set<Name>, ghost was: set<Name>,
        ghost cs: set<Channel>) returns (removed: nat)
    requires r.Valid() && all == r.flat && SplitBy(all, occupied, cs) && Marks(all, r.flat, was, cs)
    modifies r`shards, r`flat, cs`deleted
    ensures r.Valid() && Left(all, r.flat, occupied, all.Keys) && Marks(all, r.flat, was, cs)
    ensures removed == |all| - |r.flat|
  {
    removed := 0;
    ghost var dealt: set<Name> := {};
    var i := 0;
    while i < NUM_SHARDS
      invariant 0 <= i <= NUM_SHARDS && r.Valid() && SplitBy(all, occupied, cs)
      invariant dealt == set n | n in all && r.ShardFor(n) < i
      invariant Left(all, r.flat, occupied, dealt) && Marks(all, r.flat, was, cs)
      invariant removed == |all| - |r.flat|
    {
      ghost var here := set n | n in r.flat && r.ShardFor(n) == i;
      var gone := SweepShard(r, i, all, occupied, dealt, was, cs, here);
      removed := removed + gone;
      dealt := dealt + here;
      i := i + 1;
    }
    assert dealt == all.Keys;
  }

  /** A quiescent Sweep leaves exactly the channels that have subscribers, marks exactly the
      removed ones Deleted, and returns how many it removed. */
  method Sweep(r: ShardedReg) returns (removed: nat)
    requires r.Valid()
    modifies r`shards, r`flat, r.flat.Values`deleted
    ensures r.Valid()
    ensures forall n :: n in r.flat <==> n in old(r.flat) && old(r.flat)[n].subscribers != {}
    ensures forall n :: n in r.flat ==> r.flat[n] == old(r.flat)[n]
    ensures removed == |old(r.flat)| - |r.flat|
    ensures forall n :: n in old(r.flat) ==> (old(r.flat)[n].deleted <==> old(r.flat[n].deleted) || n !in r.flat)
  {
    forall n | n in r.flat ensures r.flat[n].name == n { assert r.At(n); }
    ghost var all, cs := r.flat, r.flat.Values;
    ghost var was := set n | n in all && all[n].deleted;
    ghost var occupied := set n | n in all && all[n].subscribers != {};
    removed := SweepShards(r, all, occupied, was, cs);
  }

  /** Sweep's callback for one channel, over sync.Map. */
  method VisitMapped(r: SyncMapReg, c: Channel, ghost all: Entries, ghost occupied: set<Name>, ghost dealt: set<Name>,
        ghost was: set<Name>, ghost cs: set<Channel>) returns (removed: bool)
    requires SplitBy(all, occupied, cs) && Left(all, r.m, occupied, dealt) && Marks(all, r.m, was, cs)
    requires c.name in all && all[c.name] == c && c.name !in dealt
    modifies r`m, cs`deleted
    ensures Left(all, r.m, occupied, dealt + {c.name}) && Marks(all, r.m, was, cs)
    ensures |r.m| == |old(r.m)| - if removed then 1 else 0
  {
    RemoveEntry(r.m, c.name);
    removed := false;
    if |c.subscribers| == 0 {
      removed := r.CompareAndDelete(c.name, c);
      c.deleted := true;
    }
  }

  method SweepVisits(r: SyncMapReg, visits: seq<Channel>, ghost all: Entries, ghost occupied: set<Name>,
        ghost was: set<Name>, ghost cs: set<Channel>) returns (removed: nat)
    requires all == r.m && SplitBy(all, occupied, cs) && Marks(all, r.m, was, cs) && CopyOf(visits, all, all.Keys)
    modifies r`m, cs`deleted
    ensures Left(all, r.m, occupied, all.Keys) && Marks(all, r.m, was, cs)
    ensures removed == |all| - |r.m|
  {
    ghost var dealt: set<Name> := {};
    removed := 0;
    var k := 0;
    while k < |visits|
      invariant 0 <= k <= |visits| && SplitBy(all, occupied, cs)
      invariant dealt == NamesOf(visits[..k])
      invariant Left(all, r.m, occupied, dealt) && Marks(all, r.m, was, cs)
      invariant removed == |all| - |r.m|
    {
      NamesMore(visits, k);
      var gone := VisitMapped(r, visits[k], all, occupied, dealt, was, cs);
      if gone { removed := removed + 1; }
      dealt := dealt + {visits[k].name};
      k := k + 1;
    }
    CopyNames(visits, all, all.Keys);
  }

  /** The same Sweep over sync.Map, in whatever order its Range visits the entries. */
  method SweepMapped(r: SyncMapReg, visits: seq<Channel>) returns (removed: nat)
    requires Named(r.m) && CopyOf(visits, r.m, r.m.Keys)
    modifies r`m, r.m.Values`deleted
    ensures forall n :: n in r.m <==> n in old(r.m) && old(r.m)[n].subscribers != {}
    ensures forall n :: n in r.m ==> r.m[n] == old(r.m)[n]
    ensures removed == |old(r.m)| - |r.m|
    ensures forall n :: n in old(r.m) ==> (old(r.m)[n].deleted <==> old(r.m[n].deleted) || n !in r.m)
  {
    ghost var all, cs := r.m, r.m.Values;
    ghost var was := set n | n in all && all[n].deleted;
    ghost var occupied := set n | n in all && all[n].subscribers != {};
    removed := SweepVisits(r, visits, all, occupied, was, cs);
  }
}
