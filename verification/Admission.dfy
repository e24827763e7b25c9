/**
 * What an operation needs in order to commit, in two parts: checks of tables that others may
 * change meanwhile, made without a lock, and everything else.
 */
module Admission {
  import opened Wrappers
  import opened LedgerState
  import opened Transitions
  import opened Effects
  import opened Histories

  /** The checks whose verdict lasts: of the input, of a stored transaction, of a hold that is locked. */
  predicate Admissible(l: Ledger, s: State, op: Op) {
    match op
    case Post(ps, _, dryRun) => ValidPostings(l, ps) && l.schemaAccepts(ps) && !dryRun
    case Convert(c) => ValidConversion(l, c)
    case Authorize(_, _, _, amount, _) => amount > 0
    case Capture(holdId, _, destination) =>
      var i := FindHold(s.holds, holdId); i < |s.holds| && CaptureDestination(s.holds[i], destination) != ""
    case Revert(txId, _, _) => txId in s.transactions && s.transactions[txId].postings != []
    case _ => true
  }

  /** The verdict of the checks that take no lock: balances, and the lookup of an earlier revert. */
  predicate Accepts(l: Ledger, s: State, op: Op) {
    match op
    case Post(ps, _, _) => FundsCover(l, s, ps)
    case Convert(c) => IsIssuer(l, c.source) || Available(s, Bucket(c.source, c.sourceAsset)) >= ConversionCost(c)
    case Authorize(source, _, asset, amount, _) => IsIssuer(l, source) || Available(s, Bucket(source, asset)) >= amount
    case Revert(txId, force, _) => !HasRevert(s, txId) && (force || EachAffordable(l, s, Moves(s, op)))
    case _ => true
  }

  /** Everything else: new identifiers, a hold as the operation demands, rows the keys let in. */
  ghost predicate MayCommit(l: Ledger, s: State, c: Call) {
    && Admissible(l, s, c.op)
    && HoldGuard(s, c.op, c.env)
    && !Collides(s.log, AppendedEvent(s, c.op, c.env))
    && InsertDeltas(l, s, AppendedRows(s, c.op, c.env)).Success?
    && (StoresTransaction(c.op) ==> InsertTransaction(s, StoredTransaction(s, c.op, c.env)).Success?)
    && (c.op.Revert? ==> InsertRelationship(s, Relationship(c.op.txId, c.env.txId, c.env.eventId, c.env.now)).Success?)
  }

  /** Whether rows are accepted depends on the stored rows alone. */
  lemma {:induction false} SameRowsAccepted(l: Ledger, s: State, t: State, rows: seq<VolumeDelta>)
    requires s.deltas == t.deltas
    ensures InsertDeltas(l, s, rows).Success? <==> InsertDeltas(l, t, rows).Success?
    ensures InsertDeltas(l, s, rows).Success? ==> InsertDeltas(l, s, rows).value.deltas == InsertDeltas(l, t, rows).value.deltas
  {
    if rows != [] {
      SameRowsAccepted(l, s, t, rows[..|rows| - 1]);
    }
  }

  lemma {:induction false} PostCommitsIff(l: Ledger, s: State, c: Call)
    requires c.op.Post?
    ensures Commits(l, s, c) <==> MayCommit(l, s, c) && Accepts(l, s, c.op)
  {
    var t := s.(log := s.log + [AppendedEvent(s, c.op, c.env)],
                transactions := s.transactions[c.env.txId := StoredTransaction(s, c.op, c.env)]);
    SameRowsAccepted(l, s, t, AppendedRows(s, c.op, c.env));
  }

  lemma {:induction false} ConvertCommitsIff(l: Ledger, s: State, c: Call)
    requires c.op.Convert?
    ensures Commits(l, s, c) <==> MayCommit(l, s, c) && Accepts(l, s, c.op)
  {
    if ValidConversion(l, c.op.params) {
      ConversionRowsAreLegs(c.op.params, c.env);
      var t := s.(log := s.log + [AppendedEvent(s, c.op, c.env)]);
      SameRowsAccepted(l, s, t, AppendedRows(s, c.op, c.env));
      if InsertDeltas(l, t, AppendedRows(s, c.op, c.env)).Success? {
        InsertedRows(l, t, AppendedRows(s, c.op, c.env));
      }
    }
  }

  lemma {:induction false} CaptureGoesOn(l: Ledger, s: State, c: Call, t: State)
    requires c.op.Capture? && Admissible(l, s, c.op) && HoldGuard(s, c.op, c.env)
    requires !Collides(s.log, AppendedEvent(s, c.op, c.env))
    requires t == s.(log := s.log + [AppendedEvent(s, c.op, c.env)], holds := HoldsAfter(s.holds, c.op, c.env))
    ensures Apply(l, s, c.op, c.env).Success? <==> InsertDeltas(l, t, AppendedRows(s, c.op, c.env)).Success?
  {
  }

  lemma {:induction false} CaptureCommitsIff(l: Ledger, s: State, c: Call)
    requires c.op.Capture?
    ensures Commits(l, s, c) <==> MayCommit(l, s, c)
  {
    if Admissible(l, s, c.op) && HoldGuard(s, c.op, c.env) && !Collides(s.log, AppendedEvent(s, c.op, c.env)) {
      var t := s.(log := s.log + [AppendedEvent(s, c.op, c.env)], holds := HoldsAfter(s.holds, c.op, c.env));
      CaptureGoesOn(l, s, c, t);
      SameRowsAccepted(l, s, t, AppendedRows(s, c.op, c.env));
    }
  }

  /** A revert from its volume rows on. */
  function AfterRows(r: Result<State, Error>, rel: Relationship, e: Env): Result<State, Error> {
    var s3 :- r;
    var s4 :- InsertRelationship(s3, rel);
    Success(RecordKey(s4, e))
  }

  lemma {:induction false} RevertGoesOn(l: Ledger, s: State, c: Call, t: State)
    requires c.op.Revert? && Admissible(l, s, c.op) && Accepts(l, s, c.op)
    requires !Collides(s.log, AppendedEvent(s, c.op, c.env)) && c.env.txId !in s.transactions
    requires t == s.(log := s.log + [AppendedEvent(s, c.op, c.env)],
                     transactions := s.transactions[c.env.txId := StoredTransaction(s, c.op, c.env)])
    ensures Apply(l, s, c.op, c.env)
            == AfterRows(InsertDeltas(l, t, AppendedRows(s, c.op, c.env)),
                         Relationship(c.op.txId, c.env.txId, c.env.eventId, c.env.now), c.env)
  {
  }

  lemma {:induction false} RevertCommitsIff(l: Ledger, s: State, c: Call)
    requires c.op.Revert?
    ensures Commits(l, s, c) <==> MayCommit(l, s, c) && Accepts(l, s, c.op)
  {
    var op, e := c.op, c.env;
    if Admissible(l, s, op) && Accepts(l, s, op) && !Collides(s.log, AppendedEvent(s, op, e)) && e.txId !in s.transactions {
      var t := s.(log := s.log + [AppendedEvent(s, op, e)], transactions := s.transactions[e.txId := StoredTransaction(s, op, e)]);
      RevertGoesOn(l, s, c, t);
      SameRowsAccepted(l, s, t, AppendedRows(s, op, e));
      if InsertDeltas(l, t, AppendedRows(s, op, e)).Success? {
        InsertedRows(l, t, AppendedRows(s, op, e));
      }
    }
  }

  /** An operation commits exactly when it may commit where it stands and its unlocked checks accept there. */
  lemma {:induction false} CommitsIff(l: Ledger, s: State, c: Call)
    ensures Commits(l, s, c) <==> MayCommit(l, s, c) && Accepts(l, s, c.op)
  {
    match c.op
    case Post(_, _, _) => PostCommitsIff(l, s, c);
    case Convert(_) => ConvertCommitsIff(l, s, c);
    case Capture(_, _, _) => CaptureCommitsIff(l, s, c);
    case Revert(_, _, _) => RevertCommitsIff(l, s, c);
    case _ => assert AppendedRows(s, c.op, c.env) == [];
  }
}
