/**
 * Two-tier idempotency. One submission is a small program over a cache, the idempotency
 * records and one transaction per attempt; submissions interleave at every one of its steps,
 * with cache loss, storage faults, lost commits and transactions that bypass the lookup.
 */
module Idempotency {
  import opened Wrappers
  import opened LedgerState
  import opened Transitions
  import opened Effects
  import opened Histories
  import opened Store
  import opened Planner

  const MAX_DEADLOCK_RETRIES := 5

  /** The database and the cache in front of its idempotency records. */
  datatype Sys = Sys(db: State, cache: map<string, KeyRecord>)

  /** How the storage treats one attempt. A lost commit is applied but reported as an error. */
  datatype Fault = Clean | Deadlocked | Failed | CommitLost

  /** What one step meets: whether its lookup or cache write works, and fresh identifiers. */
  datatype Luck = Luck(ok: bool, fault: Fault, ids: Env)

  /** Where a submission stands between two visible actions. `resolved` marks the conflict path. */
  datatype Phase =
    | Start
    | CacheMissed
    | Found(rec: KeyRecord)
    | Trying(attempt: nat)
    | Applied(eventId: Id)
    | Conflicted
    | Returned(r: Result<SubmitResult, Error>, resolved: bool)

  datatype Proc = Proc(call: Call, phase: Phase)

  predicate DryRun(op: Op) { op.Post? && op.dryRun }

  /** Submitted calls hash their input when they carry a key; the expiry sweep is not submitted. */
  predicate Submittable(c: Call) { !c.op.Expire? && (c.env.key != "" ==> c.env.hash.Some?) }

  /** The input that a call is refused for before anything is looked up. */
  predicate ValidInput(l: Ledger, op: Op) {
    match op
    case Post(ps, _, _) => ValidPostings(l, ps)
    case Convert(params) => ValidConversion(l, params)
    case Authorize(_, _, _, amount, _) => amount > 0
    case Capture(_, amount, _) => amount > 0
    case _ => true
  }

  function Begin(l: Ledger, c: Call): Proc {
    Proc(c, if !ValidInput(l, c.op) then Returned(Failure(InvalidInput), false)
            else if l.sealed then Returned(Failure(LedgerSealed), false)
            else Start)
  }

  function Stamped(c: Call, ids: Env): Env {
    c.env.(eventId := ids.eventId, txId := ids.txId, holdId := ids.holdId, conversionId := ids.conversionId)
  }

  function Cached(sys: Sys, key: string, rec: KeyRecord, ok: bool): Sys {
    if ok then sys.(cache := sys.cache[key := rec]) else sys
  }

  /** One transaction of a submission. */
  function Attempt(l: Ledger, sys: Sys, p: Proc, n: nat, luck: Luck): (Sys, Proc) {
    var c := p.call;
    match luck.fault
    case Deadlocked =>
      if n >= MAX_DEADLOCK_RETRIES then (sys, p.(phase := Returned(Failure(Deadlock), false)))
      else (sys, p.(phase := Trying(n + 1)))
    case Failed => (sys, p.(phase := Returned(Failure(StorageFault), false)))
    case _ =>
      match Apply(l, sys.db, c.op, Stamped(c, luck.ids))
      case Failure(err) =>
        if err == IdempotencyKeyConflict && c.env.key != "" then (sys, p.(phase := Conflicted))
        else (sys, p.(phase := Returned(Failure(err), false)))
      case Success(s) =>
        if DryRun(c.op) then (sys, p.(phase := Returned(Success(SubmitResult("dry-run", false)), false)))
        else if luck.fault == CommitLost then (sys.(db := s), p.(phase := Returned(Failure(StorageFault), false)))
        else if c.env.key != "" then (sys.(db := s), p.(phase := Applied(luck.ids.eventId)))
        else (sys.(db := s), p.(phase := Returned(Success(SubmitResult(luck.ids.eventId, false)), false)))
  }

  /** The next visible action of a submission. */
  function Advance(l: Ledger, sys: Sys, p: Proc, luck: Luck): (Sys, Proc) {
    var key, hash := p.call.env.key, p.call.env.hash;
    match p.phase
    case Start =>
      if key == "" then (sys, p.(phase := Trying(0)))
      else if luck.ok && key in sys.cache then
        (sys, p.(phase := Returned(
          if Some(sys.cache[key].hash) == hash then Success(SubmitResult(sys.cache[key].eventId, true))
          else Failure(InvalidIdempotencyInput), false)))
      else (sys, p.(phase := CacheMissed))
    case CacheMissed =>
      if !luck.ok then (sys, p.(phase := Returned(Failure(StorageFault), false)))
      else if key !in sys.db.keys then (sys, p.(phase := Trying(0)))
      else if Some(sys.db.keys[key].hash) != hash then (sys, p.(phase := Returned(Failure(InvalidIdempotencyInput), false)))
      else (sys, p.(phase := Found(sys.db.keys[key])))
    case Found(rec) => (Cached(sys, key, rec, luck.ok), p.(phase := Returned(Success(SubmitResult(rec.eventId, true)), false)))
    case Trying(n) => Attempt(l, sys, p, n, luck)
    case Applied(id) =>
      (Cached(sys, key, KeyRecord(id, if hash.Some? then hash.value else ""), luck.ok),
       p.(phase := Returned(Success(SubmitResult(id, false)), false)))
    case Conflicted =>
      (sys, p.(phase := Returned(
        if luck.ok && key in sys.db.keys then Success(SubmitResult(sys.db.keys[key].eventId, true))
        else Failure(IdempotencyKeyConflict), true)))
    case Returned(_, _) => (sys, p)
  }

  // ----- one submission on its own -----

  function Rank(ph: Phase): nat {
    match ph
    case Start => 11
    case CacheMissed => 10
    case Trying(n) => if n <= MAX_DEADLOCK_RETRIES then 9 - n else 3
    case Found(_) => 2
    case Applied(_) => 2
    case Conflicted => 2
    case Returned(_, _) => 0
  }

  /** A submission without interference, taking its luck from `luck(k)`, `luck(k+1)`, ... */
  function Alone(l: Ledger, sys: Sys, p: Proc, luck: nat -> Luck, k: nat): (Sys, Proc)
    decreases Rank(p.phase)
  {
    if p.phase.Returned? then (sys, p)
    else
      var (sys', p') := Advance(l, sys, p, luck(k));
      Alone(l, sys', p', luck, k + 1)
  }

  class Cache {
    var entries: map<string, KeyRecord>

    constructor ()
      ensures entries == map[]
    {
      entries := map[];
    }

    /** A failed lookup is a miss. */
    method Get(key: string, ok: bool) returns (r: Option<KeyRecord>)
      ensures r == if ok && key in entries then Some(entries[key]) else None
    {
      r := if ok && key in entries then Some(entries[key]) else None;
    }

    /** A failed write is logged and forgotten. */
    method Set(key: string, rec: KeyRecord, ok: bool)
      modifies this
      ensures entries == if ok then old(entries)[key := rec] else old(entries)
    {
      if ok {
        entries := entries[key := rec];
      }
    }
  }

  lemma {:induction false} AloneStep(l: Ledger, sys: Sys, p: Proc, luck: nat -> Luck, k: nat)
    requires !p.phase.Returned?
    ensures var (sys', p') := Advance(l, sys, p, luck(k));
            Alone(l, sys, p, luck, k) == Alone(l, sys', p', luck, k + 1)
  {
  }

  lemma {:induction false} AloneEnds(l: Ledger, sys: Sys, p: Proc, luck: nat -> Luck, k: nat)
    requires !p.phase.Returned? && Advance(l, sys, p, luck(k)).1.phase.Returned?
    ensures Alone(l, sys, p, luck, k) == Advance(l, sys, p, luck(k))
  {
    var (sys', p') := Advance(l, sys, p, luck(k));
    assert Alone(l, sys', p', luck, k + 1) == (sys', p');
  }

  /** The lookup of both tiers: a hit or an error ends the submission. */
  method CheckIdempotency(ghost l: Ledger, c: Call, db: Database, cache: Cache, luck: nat -> Luck)
    returns (r: Option<Result<SubmitResult, Error>>, used: nat)
    requires c.env.key != ""
    modifies cache
    ensures var whole := Alone(l, Sys(db.committed, old(cache.entries)), Proc(c, Start), luck, 0);
            match r
            case Some(res) => whole == (Sys(db.committed, cache.entries), Proc(c, Returned(res, false)))
            case None =>
              cache.entries == old(cache.entries)
              && whole == Alone(l, Sys(db.committed, cache.entries), Proc(c, Trying(0)), luck, used)
  {
    var key, hash := c.env.key, c.env.hash;
    ghost var sys := Sys(db.committed, cache.entries);
    var hit := cache.Get(key, luck(0).ok);
    if hit.Some? {
      AloneEnds(l, sys, Proc(c, Start), luck, 0);
      if Some(hit.value.hash) != hash { return Some(Failure(InvalidIdempotencyInput)), 1; }
      return Some(Success(SubmitResult(hit.value.eventId, true))), 1;
    }
    AloneStep(l, sys, Proc(c, Start), luck, 0);
    if !luck(1).ok {
      AloneEnds(l, sys, Proc(c, CacheMissed), luck, 1);
      return Some(Failure(StorageFault)), 2;
    }
    if key in db.committed.keys {
      var rec := db.committed.keys[key];
      if Some(rec.hash) != hash {
        AloneEnds(l, sys, Proc(c, CacheMissed), luck, 1);
        return Some(Failure(InvalidIdempotencyInput)), 2;
      }
      AloneStep(l, sys, Proc(c, CacheMissed), luck, 1);
      AloneEnds(l, sys, Proc(c, Found(rec)), luck, 2);
      cache.Set(key, rec, luck(2).ok);
      return Some(Success(SubmitResult(rec.eventId, true))), 3;
    }
    AloneStep(l, sys, Proc(c, CacheMissed), luck, 1);
    return None, 2;
  }

  /**
   * The standalone write path: lookup, transaction with bounded deadlock retries, cache write,
   * conflict resolution. It computes the submission program run without interference.
   */
  method SubmitWithIdempotency(l: Ledger, db: Database, cache: Cache, c: Call, luck: nat -> Luck)
    returns (r: Result<SubmitResult, Error>)
    requires Submittable(c)
    modifies db, cache
    ensures var (sys, p) := Alone(l, Sys(old(db.committed), old(cache.entries)), Begin(l, c), luck, 0);
            sys == Sys(db.committed, cache.entries) && p.phase.Returned? && p.phase.r == r
  {
    if !ValidInput(l, c.op) { return Failure(InvalidInput); }
    if l.sealed { return Failure(LedgerSealed); }
    ghost var sys0 := Sys(db.committed, cache.entries);
    var k := 1;
    if c.env.key != "" {
      var hit, used := CheckIdempotency(l, c, db, cache, luck);
      if hit.Some? { return hit.value; }
      k := used;
    } else {
      AloneStep(l, sys0, Proc(c, Start), luck, 0);
    }
    r := RetryOnDeadlock(l, db, cache, c, luck, k);
  }

  lemma {:induction false} DeadlockRetries(l: Ledger, sys: Sys, c: Call, attempt: nat, luck: nat -> Luck, k: nat)
    requires luck(k).fault == Deadlocked && attempt < MAX_DEADLOCK_RETRIES
    ensures Alone(l, sys, Proc(c, Trying(attempt)), luck, k) == Alone(l, sys, Proc(c, Trying(attempt + 1)), luck, k + 1)
  {
    AloneStep(l, sys, Proc(c, Trying(attempt)), luck, k);
  }

  /** Transactions until one ends otherwise than in a deadlock, at most six in all. */
  method RetryOnDeadlock(l: Ledger, db: Database, cache: Cache, c: Call, luck: nat -> Luck, first: nat)
    returns (r: Result<SubmitResult, Error>)
    requires Submittable(c)
    modifies db, cache
    ensures var (sys, p) := Alone(l, Sys(old(db.committed), old(cache.entries)), Proc(c, Trying(0)), luck, first);
            sys == Sys(db.committed, cache.entries) && p.phase.Returned? && p.phase.r == r
  {
    ghost var sys0 := Sys(db.committed, cache.entries);
    ghost var whole := Alone(l, sys0, Proc(c, Trying(0)), luck, first);
    var attempt, k := 0, first;
    while luck(k).fault == Deadlocked && attempt < MAX_DEADLOCK_RETRIES
      invariant attempt <= MAX_DEADLOCK_RETRIES
      invariant whole == Alone(l, sys0, Proc(c, Trying(attempt)), luck, k)
      invariant Sys(db.committed, cache.entries) == sys0
      decreases MAX_DEADLOCK_RETRIES - attempt
    {
      DeadlockRetries(l, sys0, c, attempt, luck, k);
      attempt, k := attempt + 1, k + 1;
    }
    r := RunTransaction(l, db, cache, c, attempt, luck, k);
  }

  /** The last attempt: work, commit, cache write, or the resolution of a conflict. */
  method RunTransaction(l: Ledger, db: Database, cache: Cache, c: Call, attempt: nat, luck: nat -> Luck, k: nat)
    returns (r: Result<SubmitResult, Error>)
    requires Submittable(c) && (luck(k).fault == Deadlocked ==> attempt >= MAX_DEADLOCK_RETRIES)
    modifies db, cache
    ensures var (sys, p) := Alone(l, Sys(old(db.committed), old(cache.entries)), Proc(c, Trying(attempt)), luck, k);
            sys == Sys(db.committed, cache.entries) && p.phase.Returned? && p.phase.r == r
  {
    ghost var sys0, p0 := Sys(db.committed, cache.entries), Proc(c, Trying(attempt));
    ghost var next := Attempt(l, sys0, p0, attempt, luck(k));
    var fault := luck(k).fault;
    if next.1.phase.Returned? {
      AloneEnds(l, sys0, p0, luck, k);
    } else {
      AloneStep(l, sys0, p0, luck, k);
      AloneEnds(l, next.0, next.1, luck, k + 1);
    }
    if fault == Deadlocked { return Failure(Deadlock); }
    if fault == Failed { return Failure(StorageFault); }
    var tx := db.BeginTx();
    var stamped := Stamped(c, luck(k).ids);
    var w := ApplyInTx(l, tx, Call(c.op, stamped));
    if w.Failure? {
      if w.error == IdempotencyKeyConflict && c.env.key != "" {
        r := ResolveIdempotencyConflict(db, c.env.key, luck(k + 1).ok);
        return;
      }
      return Failure(w.error);
    }
    if DryRun(c.op) { return Success(SubmitResult("dry-run", false)); }
    db.Commit(tx);
    if fault == CommitLost { return Failure(StorageFault); }
    if c.env.key != "" {
      cache.Set(c.env.key, KeyRecord(stamped.eventId, c.env.hash.value), luck(k + 1).ok);
    }
    return Success(SubmitResult(stamped.eventId, false));
  }

  /** The record the winner of a conflict left, without comparing hashes. */
  method ResolveIdempotencyConflict(db: Database, key: string, ok: bool) returns (r: Result<SubmitResult, Error>)
    ensures r == if ok && key in db.committed.keys then Success(SubmitResult(db.committed.keys[key].eventId, true))
                 else Failure(IdempotencyKeyConflict)
  {
    if !ok || key !in db.committed.keys { return Failure(IdempotencyKeyConflict); }
    return Success(SubmitResult(db.committed.keys[key].eventId, true));
  }

  // ----- all interleavings -----

  datatype World = World(sys: Sys, procs: map<nat, Proc>)

  /** `Direct` is a transaction outside the lookup path: a batch, a sweep, a keyless call. */
  datatype Event =
    | Submit(pid: nat, call: Call)
    | Act(pid: nat, luck: Luck)
    | LoseCache(lost: set<string>)
    | Direct(call: Call)

  function Next(l: Ledger, w: World, ev: Event): World {
    match ev
    case Submit(pid, c) =>
      if pid in w.procs || !Submittable(c) then w else w.(procs := w.procs[pid := Begin(l, c)])
    case Act(pid, luck) =>
      if pid !in w.procs then w
      else var (sys, p) := Advance(l, w.sys, w.procs[pid], luck); World(sys, w.procs[pid := p])
    case LoseCache(lost) => w.(sys := w.sys.(cache := w.sys.cache - lost))
    case Direct(c) => if c.env.hash.Some? then w else w.(sys := w.sys.(db := Step(l, w.sys.db, c)))
  }

  const QUIET := World(Sys(EMPTY, map[]), map[])

  function RunWorld(l: Ledger, evs: seq<Event>): World {
    if evs == [] then QUIET else Next(l, RunWorld(l, evs[..|evs| - 1]), evs[|evs| - 1])
  }

  /** The record of a call's key, under the call's own hash when the call committed or looked it up. */
  ghost predicate HasRecord(db: State, c: Call, eventId: Id, sameInput: bool) {
    c.env.key in db.keys && db.keys[c.env.key].eventId == eventId
    && (sameInput ==> Some(db.keys[c.env.key].hash) == c.env.hash)
  }

  ghost predicate ProcSound(db: State, p: Proc) {
    && Submittable(p.call)
    && match p.phase
       case Found(rec) => HasRecord(db, p.call, rec.eventId, true) && db.keys[p.call.env.key] == rec
       case Applied(id) => HasRecord(db, p.call, id, true)
       case Returned(Success(res), resolved) =>
         p.call.env.key != "" && !DryRun(p.call.op) ==> HasRecord(db, p.call, res.eventId, !resolved)
       case _ => true
  }

  ghost predicate CacheAgrees(sys: Sys) {
    forall k :: k in sys.cache ==> k in sys.db.keys && sys.cache[k] == sys.db.keys[k]
  }

  ghost predicate WorldSound(w: World) {
    LogSound(w.sys.db) && CacheAgrees(w.sys) && forall pid :: pid in w.procs ==> ProcSound(w.sys.db, w.procs[pid])
  }

  ghost predicate KeysKept(db: State, db': State) {
    forall k :: k in db.keys ==> k in db'.keys && db'.keys[k] == db.keys[k]
  }

  lemma {:induction false} KeysOnlyGrow(l: Ledger, s: State, c: Call)
    ensures KeysKept(s, Step(l, s, c))
  {
    StepShape(l, s, c);
  }

  lemma {:induction false} StepKeepsKeys(l: Ledger, s: State, c: Call)
    requires LogSound(s)
    ensures KeysKept(s, Step(l, s, c)) && LogSound(Step(l, s, c))
  {
    KeysOnlyGrow(l, s, c);
    StepKeepsLog(l, s, c);
  }

  /** A submitted call that commits leaves its own record, under its own hash. */
  lemma {:induction false} CommitRecords(l: Ledger, s: State, c: Call)
    requires LogSound(s) && Submittable(c) && c.env.key != ""
    requires Apply(l, s, c.op, c.env).Success? && !DryRun(c.op)
    ensures HasRecord(Step(l, s, c), c, c.env.eventId, true)
  {
    StepShape(l, s, c);
    assert WritesEvent(s, c.op);
    RecordNeverConflicts(s, c.env, EventTime(s, c.op, c.env), PayloadOf(s, c.op, c.env));
  }

  lemma {:induction false} AttemptSound(l: Ledger, sys: Sys, p: Proc, n: nat, luck: Luck)
    requires LogSound(sys.db) && CacheAgrees(sys) && ProcSound(sys.db, p) && p.phase == Trying(n)
    ensures var (sys', p') := Attempt(l, sys, p, n, luck);
            LogSound(sys'.db) && CacheAgrees(sys') && ProcSound(sys'.db, p') && KeysKept(sys.db, sys'.db)
  {
    if luck.fault == Clean || luck.fault == CommitLost {
      var c := Call(p.call.op, Stamped(p.call, luck.ids));
      var r := Apply(l, sys.db, c.op, c.env);
      if r.Success? && !DryRun(c.op) {
        StepKeepsKeys(l, sys.db, c);
        if c.env.key != "" {
          CommitRecords(l, sys.db, c);
        }
        AppliedSound(l, sys, p, n, luck, Step(l, sys.db, c));
      }
    }
  }

  lemma {:induction false} AppliedSound(l: Ledger, sys: Sys, p: Proc, n: nat, luck: Luck, s: State)
    requires CacheAgrees(sys) && ProcSound(sys.db, p) && p.phase == Trying(n) && !DryRun(p.call.op)
    requires luck.fault == Clean || luck.fault == CommitLost
    requires Apply(l, sys.db, p.call.op, Stamped(p.call, luck.ids)) == Success(s)
    requires LogSound(s) && KeysKept(sys.db, s) && (p.call.env.key != "" ==> HasRecord(s, p.call, luck.ids.eventId, true))
    ensures var (sys', p') := Attempt(l, sys, p, n, luck);
            LogSound(sys'.db) && CacheAgrees(sys') && ProcSound(sys'.db, p') && KeysKept(sys.db, sys'.db)
  {
  }

  lemma {:induction false} AdvanceSound(l: Ledger, sys: Sys, p: Proc, luck: Luck)
    requires LogSound(sys.db) && CacheAgrees(sys) && ProcSound(sys.db, p)
    ensures var (sys', p') := Advance(l, sys, p, luck);
            LogSound(sys'.db) && CacheAgrees(sys') && ProcSound(sys'.db, p') && KeysKept(sys.db, sys'.db)
            && p'.call == p.call
  {
    match p.phase
    case Trying(n) => AttemptSound(l, sys, p, n, luck);
    case _ =>
  }

  lemma {:induction false} OthersStaySound(db: State, db': State, p: Proc)
    requires ProcSound(db, p) && KeysKept(db, db')
    ensures ProcSound(db', p)
  {
  }

  /** A step that keeps the records leaves every other process sound. */
  lemma {:induction false} ProcsStaySound(w: World, db': State, procs': map<nat, Proc>, pid: nat)
    requires WorldSound(w) && KeysKept(w.sys.db, db')
    requires forall q :: q in procs' && q != pid ==> q in w.procs && procs'[q] == w.procs[q]
    requires pid in procs' ==> ProcSound(db', procs'[pid])
    ensures forall q :: q in procs' ==> ProcSound(db', procs'[q])
  {
    forall q | q in procs'
      ensures ProcSound(db', procs'[q])
    {
      if q != pid {
        OthersStaySound(w.sys.db, db', w.procs[q]);
      }
    }
  }

  lemma {:induction false} ActSound(l: Ledger, w: World, pid: nat, luck: Luck)
    requires WorldSound(w) && pid in w.procs
    ensures WorldSound(Next(l, w, Act(pid, luck))) && KeysKept(w.sys.db, Next(l, w, Act(pid, luck)).sys.db)
  {
    AdvanceSound(l, w.sys, w.procs[pid], luck);
    var w' := Next(l, w, Act(pid, luck));
    ProcsStaySound(w, w'.sys.db, w'.procs, pid);
  }

  lemma {:induction false} DirectSound(l: Ledger, w: World, c: Call)
    requires WorldSound(w)
    ensures WorldSound(Next(l, w, Direct(c))) && KeysKept(w.sys.db, Next(l, w, Direct(c)).sys.db)
  {
    StepKeepsKeys(l, w.sys.db, c);
    forall q | q in w.procs
      ensures ProcSound(Next(l, w, Direct(c)).sys.db, w.procs[q])
    {
      OthersStaySound(w.sys.db, Next(l, w, Direct(c)).sys.db, w.procs[q]);
    }
  }

  lemma {:induction false} NextSound(l: Ledger, w: World, ev: Event)
    requires WorldSound(w)
    ensures WorldSound(Next(l, w, ev)) && KeysKept(w.sys.db, Next(l, w, ev).sys.db)
  {
    match ev
    case Act(pid, luck) =>
      if pid in w.procs {
        ActSound(l, w, pid, luck);
      }
    case Direct(c) => DirectSound(l, w, c);
    case _ =>
  }

  /**
   * Under every interleaving with cache loss, retries, faults and lost commits: each key has at
   * most one event, every record points at the event of its key, and the cache agrees with the
   * records.
   */
  lemma {:induction false} AtMostOncePerKey(l: Ledger, evs: seq<Event>)
    ensures WorldSound(RunWorld(l, evs))
  {
    if evs != [] {
      AtMostOncePerKey(l, evs[..|evs| - 1]);
      NextSound(l, RunWorld(l, evs[..|evs| - 1]), evs[|evs| - 1]);
    }
  }

  /** All successful, real returns for one key carry the ID of the one event with that key. */
  lemma {:induction false} SameEventForKey(l: Ledger, evs: seq<Event>, p: nat, q: nat)
    requires var w := RunWorld(l, evs);
             && p in w.procs && q in w.procs && RealSuccess(w.procs[p]) && RealSuccess(w.procs[q])
             && w.procs[p].call.env.key == w.procs[q].call.env.key
    ensures var w := RunWorld(l, evs);
            && w.procs[p].phase.r.value.eventId == w.procs[q].phase.r.value.eventId
            && exists i :: 0 <= i < |w.sys.db.log| && w.sys.db.log[i].key == w.procs[p].call.env.key
                           && w.sys.db.log[i].eventId == w.procs[p].phase.r.value.eventId
  {
    AtMostOncePerKey(l, evs);
    var db := RunWorld(l, evs).sys.db;
    var key := RunWorld(l, evs).procs[p].call.env.key;
    assert Records(db.log, key, db.keys[key]);
  }

  ghost predicate RealSuccess(p: Proc) {
    p.phase.Returned? && p.phase.r.Success? && p.call.env.key != "" && !DryRun(p.call.op)
  }

  /** A success that did not go through conflict resolution met a record with the caller's own hash. */
  lemma {:induction false} SameInputUnlessResolved(l: Ledger, evs: seq<Event>, p: nat)
    requires p in RunWorld(l, evs).procs && RealSuccess(RunWorld(l, evs).procs[p])
    requires !RunWorld(l, evs).procs[p].phase.resolved
    ensures var w := RunWorld(l, evs);
            var c := w.procs[p].call;
            c.env.key in w.sys.db.keys && Some(w.sys.db.keys[c.env.key].hash) == c.env.hash
  {
    AtMostOncePerKey(l, evs);
  }

  /** Resubmitting a recorded input later is a hit on the same event and writes nothing. */
  lemma {:induction false} ResubmissionHits(l: Ledger, sys: Sys, c: Call, luck: nat -> Luck)
    requires CacheAgrees(sys) && ValidInput(l, c.op) && !l.sealed && c.env.key in sys.db.keys && c.env.key != ""
    requires luck(1).ok
    ensures var (sys', p) := Alone(l, sys, Begin(l, c), luck, 0);
            && sys'.db == sys.db && CacheAgrees(sys')
            && p.phase == Returned(
                 if Some(sys.db.keys[c.env.key].hash) == c.env.hash
                 then Success(SubmitResult(sys.db.keys[c.env.key].eventId, true))
                 else Failure(InvalidIdempotencyInput), false)
  {
    var (s1, p1) := Advance(l, sys, Begin(l, c), luck(0));
    if p1.phase.Returned? {
      AloneEnds(l, sys, Begin(l, c), luck, 0);
    } else {
      AloneStep(l, sys, Begin(l, c), luck, 0);
      var (s2, p2) := Advance(l, s1, p1, luck(1));
      if p2.phase.Returned? {
        AloneEnds(l, s1, p1, luck, 1);
      } else {
        AloneStep(l, s1, p1, luck, 1);
        AloneEnds(l, s2, p2, luck, 2);
      }
    }
  }
}
