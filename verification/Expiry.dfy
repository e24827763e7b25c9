/**
 * The hold-expiry sweep: pages of due holds, each hold in its own transaction, until a page
 * makes no progress or is not full. Other transactions may run before every action.
 */
module Expiry {
  import opened Wrappers
  import opened LedgerState
  import opened Transitions
  import opened Effects
  import opened Histories
  import opened Store
  import opened Planner

  const PAGE_SIZE := 1000

  /** A hold the sweep's query selects. */
  predicate Due(h: Hold, now: Time) { h.expiresAt < now && h.Open() && h.captured < h.authorized }

  function DueRows(holds: seq<Hold>, now: Time): (r: seq<Hold>)
    ensures |r| <= |holds|
    ensures forall h :: h in r <==> h in holds && Due(h, now)
  {
    if holds == [] then []
    else
      var n := |holds| - 1;
      DueRows(holds[..n], now) + if Due(holds[n], now) then [holds[n]] else []
  }

  ghost predicate ByExpiry(hs: seq<Hold>) { forall i, j :: 0 <= i < j < |hs| ==> hs[i].expiresAt <= hs[j].expiresAt }

  function InsertByExpiry(hs: seq<Hold>, h: Hold): (r: seq<Hold>)
    requires ByExpiry(hs)
    ensures ByExpiry(r) && |r| == |hs| + 1
    ensures forall x :: x in r <==> x in hs || x == h
  {
    if hs == [] then [h]
    else if h.expiresAt < hs[0].expiresAt then [h] + hs
    else
      var rest := InsertByExpiry(hs[1..], h);
      assert forall i :: 0 <= i < |rest| ==> rest[i] in rest;
      [hs[0]] + rest
  }

  /** ORDER BY expires_at ASC. */
  function Sorted(hs: seq<Hold>): (r: seq<Hold>)
    ensures ByExpiry(r) && |r| == |hs|
    ensures forall x :: x in r <==> x in hs
  {
    if hs == [] then [] else InsertByExpiry(Sorted(hs[1..]), hs[0])
  }

  /** A page holds due rows, and all of them unless it is full of the earliest. */
  ghost predicate IsPage(holds: seq<Hold>, now: Time, page: seq<Hold>) {
    && |page| <= PAGE_SIZE
    && (forall h :: h in page ==> h in holds && Due(h, now))
    && (forall h :: h in holds && Due(h, now) && h !in page ==>
          |page| == PAGE_SIZE && forall i :: 0 <= i < |page| ==> page[i].expiresAt <= h.expiresAt)
  }

  /**
   * The open holds past their deadline with something left to capture: all of them, or a thousand of
   * the earliest.
   */
  method ListExpiredHolds(holds: seq<Hold>, now: Time) returns (page: seq<Hold>)
    ensures IsPage(holds, now, page) && |page| <= 1000
    ensures forall h :: h in page ==> h in holds && h.expiresAt < now && !h.voided && !h.expired && h.captured < h.authorized
    ensures |page| < 1000 ==>
      forall h :: h in holds && h.expiresAt < now && !h.voided && !h.expired && h.captured < h.authorized ==> h in page
  {
    var due := Sorted(DueRows(holds, now));
    page := if |due| > PAGE_SIZE then due[..PAGE_SIZE] else due;
    FirstAreEarliest(due, page);
  }

  lemma {:induction false} FirstAreEarliest(due: seq<Hold>, page: seq<Hold>)
    requires ByExpiry(due) && page == if |due| > PAGE_SIZE then due[..PAGE_SIZE] else due
    ensures forall h :: h in page ==> h in due
    ensures forall h :: h in due && h !in page ==>
      |page| == PAGE_SIZE && forall i :: 0 <= i < |page| ==> page[i].expiresAt <= h.expiresAt
  {
    forall h | h in due && h !in page
      ensures |page| == PAGE_SIZE && forall i :: 0 <= i < |page| ==> page[i].expiresAt <= h.expiresAt
    {
      assert forall j :: 0 <= j < |page| ==> page[j] == due[j] && page[j] in page;
      var j :| 0 <= j < |due| && due[j] == h;
    }
  }

  /** What one action meets: transactions that run before it, and whether it fails. */
  datatype Weather = Weather(others: seq<Call>, fails: bool, env: Env)

  function StepAll(l: Ledger, s: State, calls: seq<Call>): State {
    if calls == [] then s else Step(l, StepAll(l, s, calls[..|calls| - 1]), calls[|calls| - 1])
  }

  /** Other transactions create no hold that is already due. */
  ghost predicate NothingFallsDue(calls: seq<Call>, now: Time) {
    forall i :: 0 <= i < |calls| && calls[i].op.Authorize? ==> calls[i].op.expiresAt >= now
  }

  // ----- what the sweep makes smaller -----

  function CountDue(holds: seq<Hold>, now: Time): nat {
    if holds == [] then 0
    else CountDue(holds[..|holds| - 1], now) + if Due(holds[|holds| - 1], now) then 1 else 0
  }

  /** Holds only move on, and no new one is due. */
  ghost predicate Later(holds: seq<Hold>, holds': seq<Hold>, now: Time) {
    && HoldsMoved(holds, holds')
    && (forall i :: 0 <= i < |holds| ==> holds'[i].expiresAt == holds[i].expiresAt)
    && (forall i :: |holds| <= i < |holds'| ==> !Due(holds'[i], now))
  }

  lemma {:induction false} LaterTransitive(a: seq<Hold>, b: seq<Hold>, c: seq<Hold>, now: Time)
    requires Later(a, b, now) && Later(b, c, now)
    ensures Later(a, c, now)
  {
    assert forall i :: 0 <= i < |a| ==> HoldMoved(a[i], b[i]) && HoldMoved(b[i], c[i]);
    forall i | |a| <= i < |c|
      ensures !Due(c[i], now)
    {
      if i < |b| {
        assert HoldMoved(b[i], c[i]) && !Due(b[i], now);
      }
    }
  }

  /** Fewer or as many due holds later, and strictly fewer when one of them is no longer due. */
  lemma {:induction false} LaterCounts(holds: seq<Hold>, holds': seq<Hold>, now: Time, i: nat)
    requires Later(holds, holds', now)
    ensures CountDue(holds', now) <= CountDue(holds, now)
    ensures i < |holds| && Due(holds[i], now) && !Due(holds'[i], now) ==> CountDue(holds', now) < CountDue(holds, now)
    decreases |holds'|
  {
    if |holds'| > |holds| {
      LaterCounts(holds, holds'[..|holds'| - 1], now, i);
    } else if holds != [] {
      var n := |holds| - 1;
      assert HoldMoved(holds[n], holds'[n]);
      LaterCounts(holds[..n], holds'[..n], now, i);
    }
  }

  lemma {:induction false} StepLater(l: Ledger, s: State, c: Call, now: Time)
    requires HoldsSound(s.holds) && (c.op.Authorize? ==> c.op.expiresAt >= now)
    ensures HoldsSound(Step(l, s, c).holds) && Later(s.holds, Step(l, s, c).holds, now)
  {
    StepShape(l, s, c);
    StepKeepsHolds(l, s, c);
  }

  lemma {:induction false} StepAllLater(l: Ledger, s: State, calls: seq<Call>, now: Time)
    requires HoldsSound(s.holds) && NothingFallsDue(calls, now)
    ensures HoldsSound(StepAll(l, s, calls).holds) && Later(s.holds, StepAll(l, s, calls).holds, now)
  {
    if calls != [] {
      var before := calls[..|calls| - 1];
      StepAllLater(l, s, before, now);
      StepLater(l, StepAll(l, s, before), calls[|calls| - 1], now);
      LaterTransitive(s.holds, StepAll(l, s, before).holds, StepAll(l, s, calls).holds, now);
    }
  }

  // ----- the sweep -----

  method Interfere(l: Ledger, db: Database, calls: seq<Call>)
    modifies db
    ensures db.committed == StepAll(l, old(db.committed), calls)
  {
    ghost var start := db.committed;
    for i := 0 to |calls|
      invariant db.committed == StepAll(l, start, calls[..i])
    {
      assert calls[..i + 1][..i] == calls[..i];
      var _ := Execute(l, db, calls[i]);
    }
    assert calls[..|calls|] == calls;
  }

  /** The hold with this ID is there and can no longer change. */
  ghost predicate Closed(holds: seq<Hold>, id: Id) {
    var i := FindHold(holds, id);
    i < |holds| && !holds[i].Open()
  }

  /** What is committed after one action on a hold: the transactions before it, then its expiry unless it fails. */
  function Attempted(l: Ledger, s: State, hold: Hold, w: Weather): State {
    var before := StepAll(l, s, w.others);
    if w.fails then before else Step(l, before, Call(Expire(hold), w.env))
  }

  /** The action succeeds when nothing fails and the expiry goes through. */
  predicate Succeeds(l: Ledger, s: State, hold: Hold, w: Weather) {
    !w.fails && Apply(l, StepAll(l, s, w.others), Expire(hold), w.env).Success?
  }

  /** One hold in its own transaction. */
  method ExpireSingleHold(l: Ledger, db: Database, hold: Hold, w: Weather) returns (ok: bool)
    modifies db
    ensures db.committed == Attempted(l, old(db.committed), hold, w)
    ensures ok <==> Succeeds(l, old(db.committed), hold, w)
  {
    Interfere(l, db, w.others);
    if w.fails { return false; }
    var r := Execute(l, db, Call(Expire(hold), w.env));
    return r.Success?;
  }

  /** Success means that the hold is closed, whatever ran before. */
  lemma {:induction false} AttemptedCloses(l: Ledger, s: State, hold: Hold, w: Weather, now: Time)
    requires HoldsSound(s.holds) && NothingFallsDue(w.others, now)
    ensures HoldsSound(Attempted(l, s, hold, w).holds) && Later(s.holds, Attempted(l, s, hold, w).holds, now)
    ensures Succeeds(l, s, hold, w) ==> Closed(Attempted(l, s, hold, w).holds, hold.id)
  {
    var before := StepAll(l, s, w.others);
    StepAllLater(l, s, w.others, now);
    if !w.fails {
      StepLater(l, before, Call(Expire(hold), w.env), now);
      LaterTransitive(s.holds, before.holds, Attempted(l, s, hold, w).holds, now);
      if Succeeds(l, s, hold, w) {
        ExpireCloses(l, before, hold, w.env);
      }
    }
  }

  lemma {:induction false} ExpireCloses(l: Ledger, s: State, hold: Hold, e: Env)
    requires HoldsSound(s.holds) && ApplyExpire(s, hold, e).Success?
    ensures Closed(ApplyExpire(s, hold, e).value.holds, hold.id)
  {
    var i := FindHold(s.holds, hold.id);
    var holds := ApplyExpire(s, hold, e).value.holds;
    assert holds[i].id == hold.id && !holds[i].Open();
    assert forall j :: 0 <= j < i ==> holds[j].id != hold.id;
  }

  lemma {:induction false} StaysClosed(holds: seq<Hold>, holds': seq<Hold>, now: Time, id: Id)
    requires Later(holds, holds', now) && Closed(holds, id)
    ensures Closed(holds', id)
  {
    var i := FindHold(holds, id);
    assert forall j :: 0 <= j <= i ==> HoldMoved(holds[j], holds'[j]);
    assert forall j :: 0 <= j < i ==> holds'[j].id != id;
  }

  /**
   * What sweeping the first `n` holds of a page left: each failed or is closed, and one of them is
   * closed unless there was no progress, when all of them failed.
   */
  ghost predicate Handled(page: seq<Hold>, n: nat, failed: set<Id>, progressed: nat, holds: seq<Hold>)
    requires n <= |page|
  {
    && progressed <= n
    && (forall id :: id in failed ==> exists j :: 0 <= j < n && page[j].id == id)
    && (forall j :: 0 <= j < n ==> page[j].id in failed || Closed(holds, page[j].id))
    && (if progressed == 0 then forall j :: 0 <= j < n ==> page[j].id in failed
        else exists j :: 0 <= j < n && Closed(holds, page[j].id))
  }

  lemma {:induction false} StillHandled(
    page: seq<Hold>, n: nat, failed: set<Id>, progressed: nat, holds: seq<Hold>, holds': seq<Hold>, now: Time)
    requires n <= |page| && Handled(page, n, failed, progressed, holds) && Later(holds, holds', now)
    ensures Handled(page, n, failed, progressed, holds')
  {
    forall j | 0 <= j < n && Closed(holds, page[j].id)
      ensures Closed(holds', page[j].id)
    {
      StaysClosed(holds, holds', now, page[j].id);
    }
  }

  lemma {:induction false} HandledOneMore(
    page: seq<Hold>, n: nat, failed: set<Id>, progressed: nat, holds: seq<Hold>, ok: bool)
    requires n < |page| && Handled(page, n, failed, progressed, holds) && (ok ==> Closed(holds, page[n].id))
    ensures ok ==> Handled(page, n + 1, failed, progressed + 1, holds)
    ensures !ok ==> Handled(page, n + 1, failed + {page[n].id}, progressed, holds)
  {
  }

  lemma {:induction false} HandledNext(
    page: seq<Hold>, n: nat, failed: set<Id>, progressed: nat, holds: seq<Hold>, holds': seq<Hold>, now: Time, ok: bool)
    requires n < |page| && Handled(page, n, failed, progressed, holds) && Later(holds, holds', now)
    requires ok ==> Closed(holds', page[n].id)
    ensures ok ==> Handled(page, n + 1, failed, progressed + 1, holds')
    ensures !ok ==> Handled(page, n + 1, failed + {page[n].id}, progressed, holds')
  {
    StillHandled(page, n, failed, progressed, holds, holds', now);
    HandledOneMore(page, n, failed, progressed, holds', ok);
  }

  /** What is committed after the first holds of a page, the ones among them that failed, and the number that did not. */
  datatype Sweep = Sweep(db: State, failed: set<Id>, progressed: nat)

  function SweptOne(l: Ledger, before: Sweep, hold: Hold, w: Weather): Sweep {
    if Succeeds(l, before.db, hold, w) then Sweep(Attempted(l, before.db, hold, w), before.failed, before.progressed + 1)
    else Sweep(Attempted(l, before.db, hold, w), before.failed + {hold.id}, before.progressed)
  }

  function Swept(l: Ledger, s: State, page: seq<Hold>, weather: nat -> Weather, first: nat, n: nat): Sweep
    requires n <= |page|
  {
    if n == 0 then Sweep(s, {}, 0) else SweptOne(l, Swept(l, s, page, weather, first, n - 1), page[n - 1], weather(first + n - 1))
  }

  lemma {:induction false} SweptNext(l: Ledger, s: State, page: seq<Hold>, weather: nat -> Weather, first: nat, n: nat)
    requires n < |page|
    ensures Swept(l, s, page, weather, first, n + 1) == SweptOne(l, Swept(l, s, page, weather, first, n), page[n], weather(first + n))
  {
  }

  /** Each of the first `n` holds of the page failed or is closed, and no hold of `holds` has moved back. */
  ghost predicate SoFar(holds: seq<Hold>, page: seq<Hold>, now: Time, n: nat, sweep: Sweep)
    requires n <= |page|
  {
    && HoldsSound(sweep.db.holds) && Later(holds, sweep.db.holds, now)
    && Handled(page, n, sweep.failed, sweep.progressed, sweep.db.holds)
  }

  lemma {:induction false} SweptOneMore(
    l: Ledger, holds: seq<Hold>, page: seq<Hold>, now: Time, n: nat, before: Sweep, w: Weather, end: Sweep)
    requires n < |page| && end == SweptOne(l, before, page[n], w) && SoFar(holds, page, now, n, before) && NothingFallsDue(w.others, now)
    ensures SoFar(holds, page, now, n + 1, end)
  {
    AttemptedCloses(l, before.db, page[n], w, now);
    var after := Attempted(l, before.db, page[n], w).holds;
    LaterTransitive(holds, before.db.holds, after, now);
    HandledNext(page, n, before.failed, before.progressed, before.db.holds, after, now, Succeeds(l, before.db, page[n], w));
  }

  lemma {:induction false} NothingSwept(s: State, page: seq<Hold>, now: Time)
    requires HoldsSound(s.holds)
    ensures SoFar(s.holds, page, now, 0, Sweep(s, {}, 0))
  {
  }

  lemma {:induction false} SweptSoFar(
    l: Ledger, s: State, page: seq<Hold>, now: Time, weather: nat -> Weather, first: nat, n: nat, end: Sweep)
    requires n <= |page| && HoldsSound(s.holds) && forall k :: NothingFallsDue(weather(k).others, now)
    requires end == Swept(l, s, page, weather, first, n)
    ensures SoFar(s.holds, page, now, n, end)
  {
    if n == 0 {
      NothingSwept(s, page, now);
    } else {
      var before, w := Swept(l, s, page, weather, first, n - 1), weather(first + n - 1);
      SweptSoFar(l, s, page, now, weather, first, n - 1, before);
      SweptOneMore(l, s.holds, page, now, n - 1, before, w, end);
    }
  }

  /** One page, hold by hold; a failed hold is noted and passed over. */
  method SweepPage(l: Ledger, db: Database, page: seq<Hold>, ghost now: Time, weather: nat -> Weather, first: nat)
    returns (failed: set<Id>, progressed: nat)
    requires HoldsSound(db.committed.holds)
    requires forall k :: NothingFallsDue(weather(k).others, now)
    modifies db
    ensures Sweep(db.committed, failed, progressed) == Swept(l, old(db.committed), page, weather, first, |page|)
    ensures SoFar(old(db.committed.holds), page, now, |page|, Sweep(db.committed, failed, progressed))
  {
    failed, progressed := {}, 0;
    ghost var start := db.committed;
    for j := 0 to |page|
      invariant Sweep(db.committed, failed, progressed) == Swept(l, start, page, weather, first, j)
    {
      SweptNext(l, start, page, weather, first, j);
      var ok := ExpireSingleHold(l, db, page[j], weather(first + j));
      if !ok {
        failed := failed + {page[j].id};
        continue;
      }
      progressed := progressed + 1;
    }
    SweptSoFar(l, start, page, now, weather, first, |page|, Sweep(db.committed, failed, progressed));
  }

  /** A row that was due when listed and is closed now makes the due rows fewer. */
  lemma {:induction false} ProgressCounts(holds: seq<Hold>, holds': seq<Hold>, now: Time, h: Hold)
    requires Later(holds, holds', now) && HoldsSound(holds') && h in holds && Due(h, now) && Closed(holds', h.id)
    ensures CountDue(holds', now) < CountDue(holds, now)
  {
    var i :| 0 <= i < |holds| && holds[i] == h;
    assert HoldMoved(holds[i], holds'[i]);
    FindIsUnique(holds', i);
    LaterCounts(holds, holds', now, i);
  }

  /** A row still due was due at every earlier time. */
  lemma {:induction false} WasDue(holds: seq<Hold>, holds': seq<Hold>, now: Time, i: nat)
    requires Later(holds, holds', now) && HoldsSound(holds') && i < |holds'| && Due(holds'[i], now)
    ensures i < |holds| && Due(holds[i], now) && holds[i].id == holds'[i].id && holds[i].expiresAt == holds'[i].expiresAt
    ensures !Closed(holds', holds'[i].id)
  {
    assert i < |holds| ==> HoldMoved(holds[i], holds'[i]);
    FindIsUnique(holds', i);
  }

  /**
   * What an error-free sweep leaves: every hold still due failed in the last page, or the last
   * page was full, all of it failed, and the hold expires no earlier than that page.
   */
  ghost predicate SweptUp(holds: seq<Hold>, now: Time, page: seq<Hold>, failed: set<Id>) {
    forall i :: 0 <= i < |holds| && Due(holds[i], now) ==>
      || holds[i].id in failed
      || (|page| == PAGE_SIZE && forall j :: 0 <= j < |page| ==>
            page[j].id in failed && page[j].expiresAt <= holds[i].expiresAt)
  }

  lemma {:induction false} LaterAtEarlierTime(holds: seq<Hold>, holds': seq<Hold>, latest: Time, now: Time)
    requires Later(holds, holds', latest) && now <= latest
    ensures Later(holds, holds', now)
  {
    assert forall i :: |holds| <= i < |holds'| ==> Due(holds'[i], now) ==> Due(holds'[i], latest);
  }

  /** A page that closed one of its holds leaves fewer due by `latest`. */
  lemma {:induction false} PageProgress(holds: seq<Hold>, holds': seq<Hold>, now: Time, latest: Time, page: seq<Hold>)
    requires Later(holds, holds', latest) && HoldsSound(holds') && IsPage(holds, now, page) && now <= latest
    requires exists j :: 0 <= j < |page| && Closed(holds', page[j].id)
    ensures CountDue(holds', latest) < CountDue(holds, latest)
  {
    var j :| 0 <= j < |page| && Closed(holds', page[j].id);
    assert page[j] in page && Due(page[j], latest);
    ProgressCounts(holds, holds', latest, page[j]);
  }

  /**
   * Pages until one is empty, makes no progress or is not full. Each query reads the database's
   * clock anew, and holds may fall due meanwhile; as long as no reading is after `latest` and no
   * hold is created that is due by then, the holds due by `latest` strictly decrease from page to
   * page, so the loop ends. `now` is the reading of the last query.
   */
  method ExpireHolds(l: Ledger, db: Database, clock: nat -> Time, latest: Time, weather: nat -> Weather)
    returns (r: Wrappers.Outcome<Error>, now: Time, page: seq<Hold>, failed: set<Id>)
    requires HoldsSound(db.committed.holds)
    requires forall k :: clock(k) <= latest && NothingFallsDue(weather(k).others, latest)
    modifies db
    ensures HoldsSound(db.committed.holds) && Later(old(db.committed.holds), db.committed.holds, latest)
    ensures r.Pass? ==> (exists k :: now == clock(k)) && SweptUp(db.committed.holds, now, page, failed)
    ensures r.Fail? ==> r.error == StorageFault && exists k :: weather(k).fails
  {
    var k: nat := 0;
    while true
      invariant HoldsSound(db.committed.holds) && Later(old(db.committed.holds), db.committed.holds, latest)
      decreases CountDue(db.committed.holds, latest)
    {
      ghost var start := db.committed.holds;
      StepAllLater(l, db.committed, weather(k).others, latest);
      Interfere(l, db, weather(k).others);
      LaterTransitive(old(db.committed.holds), start, db.committed.holds, latest);
      now, failed := clock(k), {};
      if weather(k).fails { return Fail(StorageFault), now, [], {}; }
      page := ListExpiredHolds(db.committed.holds, now);
      if page == [] { return Pass, now, page, failed; }
      ghost var listed := db.committed.holds;
      var progressed;
      failed, progressed := SweepPage(l, db, page, latest, weather, k + 1);
      k := k + 1 + |page|;
      LaterTransitive(old(db.committed.holds), listed, db.committed.holds, latest);
      if progressed == 0 || |page| < PAGE_SIZE {
        LaterAtEarlierTime(listed, db.committed.holds, latest, now);
        LastPage(listed, db.committed.holds, now, page, failed, progressed);
        return Pass, now, page, failed;
      }
      PageProgress(listed, db.committed.holds, now, latest, page);
      LaterCounts(start, listed, latest, 0);
    }
  }

  lemma {:induction false} LastPage(
    holds: seq<Hold>, holds': seq<Hold>, now: Time, page: seq<Hold>, failed: set<Id>, progressed: nat)
    requires Later(holds, holds', now) && HoldsSound(holds') && IsPage(holds, now, page)
    requires Handled(page, |page|, failed, progressed, holds')
    requires progressed == 0 || |page| < PAGE_SIZE
    ensures SweptUp(holds', now, page, failed)
  {
    forall i | 0 <= i < |holds'| && Due(holds'[i], now)
      ensures holds'[i].id in failed
              || (|page| == PAGE_SIZE && forall j :: 0 <= j < |page| ==>
                    page[j].id in failed && page[j].expiresAt <= holds'[i].expiresAt)
    {
      WasDue(holds, holds', now, i);
      if holds[i] in page {
        var j :| 0 <= j < |page| && page[j] == holds[i];
      }
    }
  }
}
