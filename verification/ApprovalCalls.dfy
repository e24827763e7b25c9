/**
 * Runs that carry an intent to execution, approver by approver, and exactly which intents can get
 * there.
 */
module ApprovalCalls {
  import opened Wrappers
  import opened LedgerState
  import opened Approvals
  import opened ApprovalRuns

  predicate Fresh(row: Row) { row.state == Pending && row.received.None? }

  // ----- the shape of received approvals -----

  /** The last entry is signed, and there is a blank one only where the store keeps nulls. */
  predicate Shaped(keepsNull: bool, row: Row) {
    row.received.Some? ==>
      && row.received.value != [] && row.received.value[|row.received.value| - 1].Signed?
      && (!keepsNull ==> forall i :: 0 <= i < |row.received.value| ==> row.received.value[i].Signed?)
  }

  ghost predicate ShapedWorld(keepsNull: bool, w: World) {
    Shaped(keepsNull, w.row) && forall p: nat :: w.PhaseOf(p).Buffered? ==> Shaped(keepsNull, w.PhaseOf(p).row)
  }

  lemma {:induction false} NextShaped(keepsNull: bool, w: World, e: Event)
    requires ShapedWorld(keepsNull, w)
    ensures ShapedWorld(keepsNull, Next(keepsNull, w, e))
  {
    var w' := Next(keepsNull, w, e);
    assert forall p: nat :: p != e.p ==> w'.PhaseOf(p) == w.PhaseOf(p);
  }

  lemma {:induction false} RunsShaped(keepsNull: bool, row: Row, es: seq<Event>)
    requires Fresh(row)
    ensures ShapedWorld(keepsNull, Run(keepsNull, row, es))
  {
    if es != [] {
      RunsShaped(keepsNull, row, es[..|es| - 1]);
      NextShaped(keepsNull, Run(keepsNull, row, es[..|es| - 1]), es[|es| - 1]);
    }
  }

  // ----- undisturbed calls -----

  /** The state in which a call has locked the row and buffered its approval. */
  function Decided(keepsNull: bool, w: World, p: nat, r: string, now: Time): World {
    var entries := Append(keepsNull, w.row.received, Signed(r, now, now));
    var starts := AllApproved(w.row.required, entries);
    var row := w.row.(received := Some(entries));
    w.Put(p, Buffered(if starts then row.(state := Executing, executingAt := Some(now)) else row, starts)).(lock := Some(p))
  }

  lemma {:induction false} CallDecides(keepsNull: bool, w: World, p: nat, r: string, now: Time)
    requires w.lock.None? && w.PhaseOf(p).Idle? && w.row.state == Pending && now <= w.row.expiresAt
    requires r in w.row.required && r != w.row.submittedBy && !HasApproved(w.row.Entries(), r)
    ensures Next(keepsNull, Next(keepsNull, w, Lock(p, r)), DecideRow(p, Clock(now, now, now))) == Decided(keepsNull, w, p, r, now)
  {
    var w1 := Next(keepsNull, w, Lock(p, r));
    var ph := Decided(keepsNull, w, p, r, now).PhaseOf(p);
    assert w1.phases[p := ph] == w.phases[p := ph];
  }

  /** Only the given names have signed. */
  predicate SignersIn(entries: seq<Entry>, names: seq<string>) {
    forall i :: 0 <= i < |entries| && entries[i].Signed? ==> entries[i].principal in names
  }

  predicate IdleFrom(w: World, n: nat) { forall p: nat :: p in w.phases && p >= n ==> w.phases[p].Idle? }

  /** The first `n` names have approved and that is not enough yet; calls from `n` on are free. */
  ghost predicate Gathered(keepsNull: bool, row: Row, w: World, names: seq<string>, n: nat) {
    && w.row.state == Pending && SameTerms(row, w.row) && w.lock.None? && w.events == 0 && w.marks == 0
    && (w.row.received.Some? ==>
          w.row.received.value != [] && !AllApproved(row.required, w.row.received.value)
          && (keepsNull ==> w.row.received.value[0].Blank?))
    && (forall i :: 0 <= i < n && i < |names| ==> HasApproved(w.row.Entries(), names[i]))
    && SignersIn(w.row.Entries(), names) && IdleFrom(w, n)
  }

  /** Call `p` holds the lock and is about to commit the last approval. */
  ghost predicate AboutToStart(row: Row, w: World, names: seq<string>, n: nat, p: nat) {
    && p < n && w.row.state == Pending && SameTerms(row, w.row) && w.lock == Some(p) && w.events == 0 && w.marks == 0
    && w.PhaseOf(p).Buffered? && w.PhaseOf(p).starts && w.PhaseOf(p).row.state == Executing
    && w.PhaseOf(p).row.executingAt.Some? && SameTerms(row, w.PhaseOf(p).row)
    && SignersIn(w.PhaseOf(p).row.Entries(), names) && IdleFrom(w, n)
  }

  lemma {:induction false} HasApprovedMore(entries: seq<Entry>, more: seq<Entry>, r: string)
    requires HasApproved(entries, r) && |entries| <= |more| && forall i :: 0 <= i < |entries| ==> more[i] == entries[i]
    ensures HasApproved(more, r)
  {
    var i :| 0 <= i < |entries| && entries[i].Who() == r;
    assert more[i].Who() == r;
  }

  /** The entries after one more call. */
  lemma {:induction false} OneMoreEntry(keepsNull: bool, received: Option<seq<Entry>>, r: string, now: Time, names: seq<string>, n: nat)
    requires n < |names| && names[n] == r
    requires received.Some? ==> received.value != [] && (keepsNull ==> received.value[0].Blank?) && SignersIn(received.value, names)
    requires forall i :: 0 <= i < n ==> HasApproved(if received.Some? then received.value else [], names[i])
    ensures var entries := Append(keepsNull, received, Signed(r, now, now));
      && (keepsNull ==> entries[0].Blank?) && SignersIn(entries, names)
      && forall i :: 0 <= i < n + 1 ==> HasApproved(entries, names[i])
  {
    var entries := Append(keepsNull, received, Signed(r, now, now));
    assert entries[|entries| - 1].Who() == r;
    forall i | 0 <= i < n + 1
      ensures HasApproved(entries, names[i])
    {
      if i < n {
        HasApprovedMore(if received.Some? then received.value else [], entries, names[i]);
      }
    }
  }

  lemma {:induction false} DecidedStarts(keepsNull: bool, row: Row, w: World, names: seq<string>, n: nat)
    requires n < |names| && Gathered(keepsNull, row, w, names, n)
    requires Decided(keepsNull, w, n, names[n], row.expiresAt).PhaseOf(n).starts
    ensures AboutToStart(row, Decided(keepsNull, w, n, names[n], row.expiresAt), names, n + 1, n)
  {
    OneMoreEntry(keepsNull, w.row.received, names[n], row.expiresAt, names, n);
  }

  lemma {:induction false} DecidedWaits(keepsNull: bool, row: Row, w: World, names: seq<string>, n: nat)
    requires n < |names| && Gathered(keepsNull, row, w, names, n)
    requires !Decided(keepsNull, w, n, names[n], row.expiresAt).PhaseOf(n).starts
    ensures Gathered(keepsNull, row, Next(keepsNull, Decided(keepsNull, w, n, names[n], row.expiresAt), Commit(n, true)), names, n + 1)
  {
    OneMoreEntry(keepsNull, w.row.received, names[n], row.expiresAt, names, n);
    var d := Decided(keepsNull, w, n, names[n], row.expiresAt);
    assert Next(keepsNull, d, Commit(n, true)).row == d.PhaseOf(n).row;
  }

  /** A call of the next name either starts or leaves one name more. */
  lemma {:induction false} GatherOne(keepsNull: bool, row: Row, es: seq<Event>, names: seq<string>, n: nat)
    returns (more: seq<Event>)
    requires n < |names| && names[n] in row.required && names[n] != row.submittedBy
    requires Gathered(keepsNull, row, Run(keepsNull, row, es), names, n)
    requires !HasApproved(Run(keepsNull, row, es).row.Entries(), names[n])
    ensures Gathered(keepsNull, row, Run(keepsNull, row, more), names, n + 1)
            || AboutToStart(row, Run(keepsNull, row, more), names, n + 1, n)
  {
    var w := Run(keepsNull, row, es);
    var r, now := names[n], row.expiresAt;
    CallDecides(keepsNull, w, n, r, now);
    var lock, decide, commit := Lock(n, r), DecideRow(n, Clock(now, now, now)), Commit(n, true);
    RunStep(keepsNull, row, es, lock);
    RunStep(keepsNull, row, es + [lock], decide);
    more := es + [lock] + [decide];
    if Decided(keepsNull, w, n, r, now).PhaseOf(n).starts {
      DecidedStarts(keepsNull, row, w, names, n);
    } else {
      DecidedWaits(keepsNull, row, w, names, n);
      RunStep(keepsNull, row, more, commit);
      more := more + [commit];
    }
  }

  lemma {:induction false} StillAboutToStart(row: Row, w: World, names: seq<string>, n: nat, p: nat)
    requires AboutToStart(row, w, names, n, p)
    ensures AboutToStart(row, w, names, n + 1, p)
  {
  }

  /** A name that has approved already counts without a call. */
  lemma {:induction false} GatherNext(keepsNull: bool, row: Row, es: seq<Event>, names: seq<string>, n: nat)
    returns (more: seq<Event>, p: nat)
    requires n < |names| && names[n] in row.required && names[n] != row.submittedBy
    requires Gathered(keepsNull, row, Run(keepsNull, row, es), names, n)
    ensures Gathered(keepsNull, row, Run(keepsNull, row, more), names, n + 1)
            || AboutToStart(row, Run(keepsNull, row, more), names, n + 1, p)
  {
    more, p := es, n;
    if !HasApproved(Run(keepsNull, row, es).row.Entries(), names[n]) {
      more := GatherOne(keepsNull, row, es, names, n);
    }
  }

  /** Call after call, until all names are in or one call is about to start execution. */
  lemma {:induction false} Gather(keepsNull: bool, row: Row, names: seq<string>, n: nat) returns (es: seq<Event>, p: nat)
    requires Fresh(row) && n <= |names|
    requires forall i :: 0 <= i < |names| ==> names[i] in row.required && names[i] != row.submittedBy
    ensures Gathered(keepsNull, row, Run(keepsNull, row, es), names, n)
            || AboutToStart(row, Run(keepsNull, row, es), names, n, p)
  {
    if n == 0 {
      es, p := [], 0;
    } else {
      es, p := Gather(keepsNull, row, names, n - 1);
      if Gathered(keepsNull, row, Run(keepsNull, row, es), names, n - 1) {
        es, p := GatherNext(keepsNull, row, es, names, n - 1);
      } else {
        StillAboutToStart(row, Run(keepsNull, row, es), names, n - 1, p);
      }
    }
  }

  /** The names are enough: every other required name is the empty one, which a blank entry answers for. */
  ghost predicate Enough(keepsNull: bool, row: Row, names: seq<string>) {
    && names != [] && (forall i :: 0 <= i < |names| ==> names[i] in row.required && names[i] != row.submittedBy)
    && (forall r :: r in row.required ==> r in names || (keepsNull && r == ""))
  }

  lemma {:induction false} EnoughIsAll(keepsNull: bool, row: Row, entries: seq<Entry>, names: seq<string>)
    requires Enough(keepsNull, row, names) && entries != [] && (keepsNull ==> entries[0].Blank?)
    requires forall i :: 0 <= i < |names| ==> HasApproved(entries, names[i])
    ensures AllApproved(row.required, entries)
  {
    forall i | 0 <= i < |row.required|
      ensures HasApproved(entries, row.required[i])
    {
      if row.required[i] in names {
        var j :| 0 <= j < |names| && names[j] == row.required[i];
      } else {
        assert entries[0].Who() == row.required[i];
      }
    }
  }

  lemma {:induction false} NotAllGathered(keepsNull: bool, row: Row, w: World, names: seq<string>)
    requires Enough(keepsNull, row, names)
    ensures !Gathered(keepsNull, row, w, names, |names|)
  {
    if Gathered(keepsNull, row, w, names, |names|) {
      assert HasApproved(w.row.Entries(), names[0]);
      EnoughIsAll(keepsNull, row, w.row.Entries(), names);
    }
  }

  /** Enough names carry the intent to the brink of execution. */
  lemma {:induction false} ReachStart(keepsNull: bool, row: Row, names: seq<string>) returns (es: seq<Event>, p: nat)
    requires Fresh(row) && Enough(keepsNull, row, names)
    ensures AboutToStart(row, Run(keepsNull, row, es), names, |names|, p)
  {
    es, p := Gather(keepsNull, row, names, |names|);
    NotAllGathered(keepsNull, row, Run(keepsNull, row, es), names);
  }

  /** The last approval is committed and the call goes on to execute. */
  lemma {:induction false} Committed(keepsNull: bool, row: Row, es: seq<Event>, names: seq<string>, n: nat, p: nat)
    requires AboutToStart(row, Run(keepsNull, row, es), names, n, p)
    ensures var w := Run(keepsNull, row, es + [Commit(p, true)]);
      && w.row == Run(keepsNull, row, es).PhaseOf(p).row && w.lock.None? && w.events == 0 && w.marks == 1
      && w.PhaseOf(p).Running? && forall q: nat :: q != p ==> w.PhaseOf(q) == Run(keepsNull, row, es).PhaseOf(q)
  {
    RunStep(keepsNull, row, es, Commit(p, true));
  }

  // ----- which intents can ever execute -----

  function Without(names: seq<string>, x: string): (r: seq<string>)
    ensures forall s :: s in r <==> s in names && s != x
  {
    if names == [] then []
    else
      var n := |names| - 1;
      assert forall s :: s in names <==> s in names[..n] || s == names[n];
      Without(names[..n], x) + if names[n] == x then [] else [names[n]]
  }

  /** Someone other than the submitter is required, and the submitter is not, or only as the blank entry. */
  predicate Startable(keepsNull: bool, row: Row) {
    && (exists i :: 0 <= i < |row.required| && row.required[i] != row.submittedBy)
    && (row.submittedBy !in row.required || (keepsNull && row.submittedBy == ""))
  }

  lemma {:induction false} OthersAreEnough(keepsNull: bool, row: Row)
    requires Startable(keepsNull, row)
    ensures Enough(keepsNull, row, Without(row.required, row.submittedBy))
  {
    var names := Without(row.required, row.submittedBy);
    var i :| 0 <= i < |row.required| && row.required[i] != row.submittedBy;
    assert row.required[i] in names;
    assert forall j :: 0 <= j < |names| ==> names[j] in names;
  }

  lemma {:induction false} StartedIsStartable(keepsNull: bool, row: Row, es: seq<Event>)
    requires Fresh(row) && Run(keepsNull, row, es).marks > 0
    ensures Startable(keepsNull, row)
  {
    RunsAreSafe(keepsNull, row, es);
    RunsShaped(keepsNull, row, es);
    var w := Run(keepsNull, row, es);
    var entries := w.row.Entries();
    var last := entries[|entries| - 1];
    assert EntrySound(last, row.required, row.submittedBy, row.expiresAt);
    if row.submittedBy in row.required {
      var k :| 0 <= k < |row.required| && row.required[k] == row.submittedBy;
      assert HasApproved(entries, w.row.required[k]);
      var i :| 0 <= i < |entries| && entries[i].Who() == row.submittedBy;
      assert EntrySound(entries[i], row.required, row.submittedBy, row.expiresAt);
    }
  }

  /** Some run starts execution exactly when the submitter's own approval is not needed and someone else's is. */
  lemma {:induction false} CanStartIff(keepsNull: bool, row: Row)
    requires Fresh(row)
    ensures (exists es :: Run(keepsNull, row, es).marks > 0) <==> Startable(keepsNull, row)
  {
    if es :| Run(keepsNull, row, es).marks > 0 {
      StartedIsStartable(keepsNull, row, es);
    }
    if Startable(keepsNull, row) {
      OthersAreEnough(keepsNull, row);
      var names := Without(row.required, row.submittedBy);
      var es, p := ReachStart(keepsNull, row, names);
      Committed(keepsNull, row, es, names, |names|, p);
      assert Run(keepsNull, row, es + [Commit(p, true)]).marks > 0;
    }
  }
}
