/** The migration runner of internal/store/migrate.go: the loop as a method on one database, and
    any number of openers of the same file as interleaved steps that may fail or crash anywhere.
    SQLite is an atomic, serialised write transaction and snapshot reads. */
module Migrate {
  import opened Options
  import opened Schema

  /** apply is None when the step's statement fails. */
  datatype Migration = Migration(version: int, apply: Tables -> Option<Tables>)

  /** What is committed. */
  datatype Db = Db(version: int, tables: Tables)

  /** validateMigrations. */
  method ValidateMigrations(ms: seq<Migration>) returns (ok: bool)
    ensures ok <==> Contiguous(ms)
  {
    for i := 0 to |ms|
      invariant forall j :: 0 <= j < i ==> ms[j].version == j + 1
    {
      if ms[i].version != i + 1 { return false; }
    }
    return true;
  }

  ghost predicate Contiguous(ms: seq<Migration>) { forall i :: 0 <= i < |ms| ==> ms[i].version == i + 1 }

  function Latest(ms: seq<Migration>): int { if ms == [] then 0 else ms[|ms| - 1].version }

  datatype Check = Current(version: int) | Newer | Foreign

  /** checkDatabase, on one snapshot. */
  function CheckDatabase(db: Db, ms: seq<Migration>): Check {
    if db.version > Latest(ms) then Newer
    else if db.version == 0 && !PreVersioningOk(db.tables) then Foreign
    else Current(db.version)
  }

  /** How many migrations a version stands for. */
  function Applied(version: int): nat { if version < 0 then 0 else version }

  /** Migrations lo + 1 up to hi, applied once each in order. */
  function Fold(t: Tables, ms: seq<Migration>, lo: nat, hi: nat): Option<Tables>
    requires hi <= |ms|
    decreases hi
  {
    if hi <= lo then Some(t)
    else match Fold(t, ms, lo, hi - 1) case None => None case Some(u) => ms[hi - 1].apply(u)
  }

  /** db is start with the migrations its version stands for applied, once each, in order. */
  ghost predicate IsFold(start: Db, ms: seq<Migration>, db: Db) {
    && start.version <= db.version
    && (Applied(db.version) <= |ms| || db == start)
    && (Applied(db.version) <= |ms|
      ==> Fold(start.tables, ms, Applied(start.version), Applied(db.version)) == Some(db.tables))
  }

  // ----- the loop, undisturbed ---------------------------------------------------------------------------

  datatype Outcome = Migrated | BadList | RefusedNewer | RefusedForeign | StepFailed

  class Database {
    var committed: Db

    constructor (db: Db)
      ensures committed == db
    {
      committed := db;
    }

    /** applyMigration: one transaction, all of it or nothing. */
    method ApplyMigration(m: Migration) returns (ok: bool)
      modifies this
      ensures old(committed).version >= m.version ==> ok && committed == old(committed)
      ensures old(committed).version < m.version ==>
        var t := m.apply(old(committed).tables);
        (ok <==> t.Some?) && committed == if ok then Db(m.version, t.value) else old(committed)
    {
      if committed.version >= m.version { return true; }
      var t := m.apply(committed.tables);
      if t.None? { return false; }
      committed := Db(m.version, t.value);
      return true;
    }

    /** migrate: refusals write nothing; otherwise the database ends as the fold of the list up to
        its version, which is the last one unless a step failed. */
    method Migrate(ms: seq<Migration>) returns (out: Outcome)
      modifies this
      ensures out == BadList <==> !Contiguous(ms)
      ensures Contiguous(ms) ==> (out == RefusedNewer <==> old(committed).version > |ms|)
      ensures Contiguous(ms) ==> (out == RefusedForeign <==>
        (old(committed).version == 0 && !PreVersioningOk(old(committed).tables)))
      ensures out in {BadList, RefusedNewer, RefusedForeign} ==> committed == old(committed)
      ensures Contiguous(ms) ==> IsFold(old(committed), ms, committed)
      ensures out == Migrated ==> Applied(committed.version) == |ms|
      ensures out == StepFailed
        ==> Applied(committed.version) < |ms| && ms[Applied(committed.version)].apply(committed.tables).None?
    {
      var valid := ValidateMigrations(ms);
      if !valid { return BadList; }
      assert Latest(ms) == |ms|;
      var check := CheckDatabase(committed, ms);
      if check.Newer? { return RefusedNewer; }
      if check.Foreign? { return RefusedForeign; }
      var current := check.version;
      for i := 0 to |ms|
        invariant IsFold(old(committed), ms, committed) && committed.version == current <= |ms|
        invariant i <= Applied(current)
      {
        if ms[i].version <= current { continue; }
        var ok := ApplyMigration(ms[i]);
        if !ok { return StepFailed; }
        current := ms[i].version;
      }
      return Migrated;
    }
  }

  // ----- many openers ------------------------------------------------------------------------------------------

  /** An opener: before checkDatabase, at the head of the loop, or inside applyMigration with the
      write lock, the tables it has built and whether it has set the version. */
  datatype Pc =
    | Opening
    | Looping(i: nat, current: int)
    | Locked(i: nat)
    | Due(i: nat)
    | Stepped(i: nat, tables: Tables)
    | Bumped(i: nat, tables: Tables)
    | Done
    | Refused
    | Failed

  datatype State = State(db: Db, lock: Option<nat>, openers: map<nat, Pc>)

  datatype Action =
    | Open(o: nat)
    | Preflight(o: nat)    // the same check, read-only, before the writable handle is opened
    | CheckDb(o: nat)
    | Skip(o: nat)
    | Begin(o: nat)
    | Reread(o: nat)
    | ApplyStep(o: nat)
    | Bump(o: nat)
    | Commit(o: nat)
    | Finish(o: nat)
    | Crash(o: nat)        // the process dies, or a statement or BEGIN fails: SQLite rolls back

  predicate Holds(pc: Pc) { pc.Locked? || pc.Due? || pc.Stepped? || pc.Bumped? }

  predicate Enabled(ms: seq<Migration>, s: State, a: Action) {
    match a
    case Open(o) => o !in s.openers
    case Preflight(o) => o in s.openers && s.openers[o].Opening?
    case CheckDb(o) => o in s.openers && s.openers[o].Opening?
    case Skip(o) => o in s.openers && s.openers[o].Looping? && s.openers[o].i < |ms|
      && ms[s.openers[o].i].version <= s.openers[o].current
    case Begin(o) =>
      s.lock.None? && o in s.openers && s.openers[o].Looping? && s.openers[o].i < |ms|
        && ms[s.openers[o].i].version > s.openers[o].current
    case Reread(o) => o in s.openers && s.openers[o].Locked? && s.openers[o].i < |ms|
    case ApplyStep(o) => o in s.openers && s.openers[o].Due? && s.openers[o].i < |ms|
    case Bump(o) => o in s.openers && s.openers[o].Stepped?
    case Commit(o) => o in s.openers && s.openers[o].Bumped? && s.openers[o].i < |ms|
    case Finish(o) => o in s.openers && s.openers[o].Looping? && s.openers[o].i >= |ms|
    case Crash(o) => o in s.openers && !s.openers[o].Done? && !s.openers[o].Refused?
  }

  function Leave(s: State, o: nat, pc: Pc): State {
    s.(openers := s.openers[o := pc], lock := if s.lock == Some(o) then None else s.lock)
  }

  function Step(ms: seq<Migration>, s: State, a: Action): State
    requires Enabled(ms, s, a)
  {
    match a
    case Open(o) => s.(openers := s.openers[o := Opening])
    case Preflight(o) => if CheckDatabase(s.db, ms).Current? then s else s.(openers := s.openers[o := Refused])
    case CheckDb(o) =>
      var c := CheckDatabase(s.db, ms);
      s.(openers := s.openers[o := if c.Current? then Looping(0, c.version) else Refused])
    case Skip(o) => s.(openers := s.openers[o := Looping(s.openers[o].i + 1, s.openers[o].current)])
    case Begin(o) => s.(openers := s.openers[o := Locked(s.openers[o].i)], lock := Some(o))
    case Reread(o) =>
      var i := s.openers[o].i;
      if s.db.version >= ms[i].version then Leave(s, o, Looping(i + 1, ms[i].version))
      else s.(openers := s.openers[o := Due(i)])
    case ApplyStep(o) =>
      var i := s.openers[o].i;
      (match ms[i].apply(s.db.tables) case None => Leave(s, o,
        Failed) case Some(t) => s.(openers := s.openers[o := Stepped(i, t)]))
    case Bump(o) => s.(openers := s.openers[o := Bumped(s.openers[o].i, s.openers[o].tables)])
    case Commit(o) =>
      var pc := s.openers[o];
      Leave(s, o, Looping(pc.i + 1, ms[pc.i].version)).(db := Db(ms[pc.i].version, pc.tables))
    case Finish(o) => s.(openers := s.openers[o := Done])
    case Crash(o) => Leave(s, o, Failed)
  }

  ghost predicate OpenerOk(ms: seq<Migration>, s: State, o: nat) {
    o in s.openers ==>
      var pc := s.openers[o];
      && (Holds(pc) <==> s.lock == Some(o))
      && (pc.Looping? ==> pc.i <= |ms| && pc.i <= Applied(pc.current) && pc.current <= s.db.version <= |ms|)
      && (Holds(pc) ==> pc.i < |ms| && pc.i <= Applied(s.db.version) && s.db.version <= |ms|)
      && (pc.Due? || pc.Stepped? || pc.Bumped? ==> s.db.version <= pc.i && Applied(s.db.version) == pc.i)
      && (pc.Stepped? || pc.Bumped? ==> ms[pc.i].apply(s.db.tables) == Some(pc.tables))
      && (pc.Done? ==> Applied(s.db.version) == |ms|)
  }

  /** What the database must have been for an opener to get past the check. */
  ghost predicate Admitted(ms: seq<Migration>, db: Db) { CheckDatabase(db, ms).Current? }

  ghost predicate Inv(start: Db, ms: seq<Migration>, s: State) {
    && Contiguous(ms) && IsFold(start, ms, s.db)
    && (s.lock.Some? ==> s.lock.value in s.openers)
    && (forall o :: OpenerOk(ms, s, o))
    && (s.db != start ==> Admitted(ms, start))
    && (!Admitted(ms, start) ==> forall o :: o in s.openers ==> s.openers[o] in {Opening, Refused, Failed})
    && (start.version == 0 && PreVersioningOk(start.tables) ==> Refused !in s.openers.Values)
  }

  ghost predicate IsRun(start: Db, ms: seq<Migration>, run: seq<State>, acts: seq<Action>) {
    && |run| == |acts| + 1 && run[0] == State(start, None, map[])
    && forall i :: 0 <= i < |acts| ==> Enabled(ms, run[i], acts[i]) && run[i + 1] == Step(ms, run[i], acts[i])
  }

  lemma OpenersKeep(start: Db, ms: seq<Migration>, s: State, a: Action)
    requires Inv(start, ms, s) && Enabled(ms, s, a)
    ensures forall o :: OpenerOk(ms, Step(ms, s, a), o)
  {
    var s' := Step(ms, s, a);
    assert OpenerOk(ms, s, a.o);
    forall o ensures OpenerOk(ms, s', o) { assert OpenerOk(ms, s, o); }
  }

  lemma FoldKeeps(start: Db, ms: seq<Migration>, s: State, a: Action)
    requires Inv(start, ms, s) && Enabled(ms, s, a)
    ensures IsFold(start, ms, Step(ms, s, a).db) && s.db.version <= Step(ms, s, a).db.version
  {
    assert OpenerOk(ms, s, a.o);
  }

  lemma StepKeeps(start: Db, ms: seq<Migration>, s: State, a: Action)
    requires Inv(start, ms, s) && Enabled(ms, s, a)
    ensures Inv(start, ms, Step(ms, s, a))
  {
    OpenersKeep(start, ms, s, a);
    FoldKeeps(start, ms, s, a);
    assert OpenerOk(ms, s, a.o);
    assert Latest(ms) == |ms|;
  }

  lemma {:induction false} RunKeeps(start: Db, ms: seq<Migration>, run: seq<State>, acts: seq<Action>, n: nat)
    requires Contiguous(ms) && IsRun(start, ms, run, acts) && n < |run|
    ensures forall i :: 0 <= i <= n ==> Inv(start, ms, run[i])
  {
    if n > 0 {
      RunKeeps(start, ms, run, acts, n - 1);
      StepKeeps(start, ms, run[n - 1], acts[n - 1]);
    }
  }

  // ----- what every run keeps ---------------------------------------------------------------------------------

  /** Every committed database is the start with migrations up to its version applied once each in
      order, whatever crashed or failed, and between any two moments the version never falls. */
  lemma {:induction false} MigrationFold(start: Db, ms: seq<Migration>, run: seq<State>, acts: seq<Action>, m: nat,
      n: nat)
    requires Contiguous(ms) && IsRun(start, ms, run, acts) && m <= n < |run|
    ensures IsFold(start, ms, run[n].db) && run[m].db.version <= run[n].db.version
    decreases n
  {
    RunKeeps(start, ms, run, acts, n);
    if m < n {
      MigrationFold(start, ms, run, acts, m, n - 1);
      RunKeeps(start, ms, run, acts, n - 1);
      FoldKeeps(start, ms, run[n - 1], acts[n - 1]);
    }
  }

  /** Once an opener has succeeded the database is at the last version, for good. */
  lemma SuccessIsLatest(start: Db, ms: seq<Migration>, run: seq<State>, acts: seq<Action>, n: nat, o: nat)
    requires Contiguous(ms) && IsRun(start, ms, run, acts) && n < |run| && o in run[n].openers
      && run[n].openers[o].Done?
    ensures Applied(run[n].db.version) == |ms|
    ensures Fold(start.tables, ms, Applied(start.version), |ms|) == Some(run[n].db.tables)
  {
    RunKeeps(start, ms, run, acts, n);
    assert OpenerOk(ms, run[n], o);
  }

  /** A file that began unversioned and passes the check is never refused, by any opener at any
      point of anyone's migration; in particular an empty one or a v0.2.0 one. */
  lemma OwnFilesNeverRefused(start: Db, ms: seq<Migration>, run: seq<State>, acts: seq<Action>, n: nat, o: nat)
    requires Contiguous(ms) && IsRun(start, ms, run, acts) && n < |run| && o in run[n].openers && start.version == 0
    requires PreVersioningOk(start.tables) || start.tables == []
      || (exists t :: start.tables == [t] && t.name == "keys" && SameShape(t.cols, V020_KEYS))
    ensures !run[n].openers[o].Refused?
  {
    OwnPasses(start.tables);
    RunKeeps(start, ms, run, acts, n);
    assert run[n].openers[o] in run[n].openers.Values;
  }

  lemma OwnPasses(ts: Tables)
    requires PreVersioningOk(ts) || ts == []
      || (exists t :: ts == [t] && t.name == "keys" && SameShape(t.cols, V020_KEYS))
    ensures PreVersioningOk(ts)
  {
    if t :| ts == [t] && t.name == "keys" && SameShape(t.cols, V020_KEYS) {
      TableMeans(t);
      PreVersioningMeans(ts);
    }
  }

  /** A file from the future, or an unversioned one that fails the check, is never written. */
  lemma RefusedFilesUntouched(start: Db, ms: seq<Migration>, run: seq<State>, acts: seq<Action>, n: nat)
    requires Contiguous(ms) && IsRun(start, ms, run, acts) && n < |run|
    requires start.version > |ms| || (start.version == 0 && !PreVersioningOk(start.tables))
    ensures run[n].db == start
  {
    RunKeeps(start, ms, run, acts, n);
    assert Latest(ms) == |ms|;
  }

  // ----- the baseline ----------------------------------------------------------------------------------------------

  predicate EqualFold(a: string, b: string) {
    |a| == |b| && forall i :: 0 <= i < |a| ==> Lower(a[i]) == Lower(b[i])
  }

  predicate Has(ts: Tables, name: string) { exists i :: 0 <= i < |ts| && EqualFold(ts[i].name, name) }

  /** CREATE TABLE IF NOT EXISTS keys; SQLite compares table names without case. */
  function CreateKeys(ts: Tables): Option<Tables> {
    Some(if Has(ts, "keys") then ts else ts + [Table("keys", V020_KEYS)])
  }

  const BASELINE: seq<Migration> := [Migration(1, CreateKeys)]

  /** The shipped list: whoever opens first, an empty file and a v0.2.0 file both end at version 1
      with exactly a keys table of the v0.2.0 shape, the latter's own table untouched. */
  lemma BaselineConverges(start: Db, run: seq<State>, acts: seq<Action>, n: nat, o: nat)
    requires IsRun(start, BASELINE, run, acts) && n < |run| && o in run[n].openers && run[n].openers[o].Done?
      && start.version == 0
    requires start.tables == [] || exists t :: start.tables == [t] && t.name == "keys" && SameShape(t.cols, V020_KEYS)
    ensures run[n].db.version == 1
    ensures exists t :: run[n].db.tables == [t] &&
                        t.name == "keys" && SameShape(t.cols, V020_KEYS) && (start.tables != [] ==> start.tables == [t])
  {
    SuccessIsLatest(start, BASELINE, run, acts, n, o);
    assert Fold(start.tables, BASELINE, 0, 0) == Some(start.tables);
    assert run[n].db.tables == CreateKeys(start.tables).value;
    if start.tables != [] {
      assert EqualFold(start.tables[0].name, "keys");
    } else {
      assert run[n].db.tables == [Table("keys", V020_KEYS)];
    }
  }

  // ----- what stops an opener ----------------------------------------------------------------------------------

  ghost predicate Is(s: State, o: nat, pc: Pc) { o in s.openers && s.openers[o] == pc }

  /** An opener fails only by a crash or because its own migration does not apply, and is refused only on a
      database that fails the check. */
  lemma StopsBecause(ms: seq<Migration>, s: State, a: Action, o: nat)
    requires Enabled(ms, s, a) && o in s.openers && s.openers[o] !in {Failed, Refused}
    ensures var s' := Step(ms, s, a);
      && (Is(s', o, Failed) ==>
            a == Crash(o) ||
            (a == ApplyStep(o) && s.openers[o].Due? && ms[s.openers[o].i].apply(s.db.tables).None?))
      && (Is(s', o, Refused) <==> a in {Preflight(o), CheckDb(o)} && !CheckDatabase(s.db, ms).Current?)
  {
  }

  /** A step of the opener's own, other than a crash. */
  ghost predicate Advances(a: Action, o: nat) {
    a in {CheckDb(o), Skip(o), Begin(o), Reread(o), ApplyStep(o), Bump(o), Commit(o), Finish(o)}
  }

  lemma OpenerMoves(ms: seq<Migration>, s: State, o: nat)
    requires OpenerOk(ms, s, o) && o in s.openers && s.openers[o] !in {Done, Refused, Failed}
    requires s.lock.None? || s.lock == Some(o)
    ensures exists a :: Advances(a, o) && Enabled(ms, s, a)
  {
    var pc := s.openers[o];
    var a := match pc
      case Opening => CheckDb(o)
      case Looping(i, current) =>
        if i >= |ms| then Finish(o) else if ms[i].version <= current then Skip(o) else Begin(o)
      case Locked(_) => Reread(o)
      case Due(_) => ApplyStep(o)
      case Stepped(_, _) => Bump(o)
      case Bumped(_, _) => Commit(o)
      case _ => Crash(o);
    assert Advances(a, o) && Enabled(ms, s, a);
  }

  lemma OpensWithTheCheck(ms: seq<Migration>, s: State, o: nat)
    requires Enabled(ms, s, Open(o))
    ensures Is(Step(ms, s, Open(o)), o, Opening) && Step(ms, s, Open(o)).db == s.db
  {
  }

  /** No opener waits for ever: in every state of every run one that is not finished can go on, or another
      one holds the write lock and can. */
  lemma OpenersNeverStuck(start: Db, ms: seq<Migration>, run: seq<State>, acts: seq<Action>, n: nat, o: nat)
    requires Contiguous(ms) && IsRun(start, ms, run, acts) && n < |run|
    requires o in run[n].openers && run[n].openers[o] !in {Done, Refused, Failed}
    ensures exists a, p :: Advances(a, p) && Enabled(ms, run[n], a) && (p == o || run[n].lock == Some(p))
  {
    RunKeeps(start, ms, run, acts, n);
    var s := run[n];
    var p := if s.lock.Some? then s.lock.value else o;
    assert OpenerOk(ms, s, p);
    OpenerMoves(ms, s, p);
  }

  /** How many steps an opener has before it. */
  ghost function Rank(ms: seq<Migration>, pc: Pc): int {
    match pc
    case Opening => 8 * |ms| + 3
    case Looping(i, _) => 8 * (|ms| - i) + 2
    case Locked(i) => 8 * (|ms| - i) + 1
    case Due(i) => 8 * (|ms| - i)
    case Stepped(i, _) => 8 * (|ms| - i) - 1
    case Bumped(i, _) => 8 * (|ms| - i) - 2
    case _ => 0
  }

  /** And each step of its own brings it nearer to its end, while nobody else's moves it. */
  lemma OpenerAdvances(ms: seq<Migration>, s: State, a: Action, o: nat, p: nat)
    requires OpenerOk(ms, s, o) && Enabled(ms, s, a) && Advances(a, o) && p in s.openers
    ensures var s' := Step(ms, s, a);
      && o in s'.openers && Rank(ms, s.openers[o]) > Rank(ms, s'.openers[o]) >= 0
      && (p != o ==> p in s'.openers && s'.openers[p] == s.openers[p])
  {
  }
}
