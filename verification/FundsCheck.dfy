/**
 * What the funds check of a post decides: whether every debited bucket ends non-negative, whatever
 * the order of the postings.
 */
module FundsCheck {
  import opened LedgerState
  import opened Transitions
  import opened Effects
  import opened Balances

  lemma {:induction false} TotalsOverConcat(ps: seq<Posting>, qs: seq<Posting>, b: Bucket)
    ensures TotalIn(ps + qs, b) == TotalIn(ps, b) + TotalIn(qs, b)
    ensures TotalOut(ps + qs, b) == TotalOut(ps, b) + TotalOut(qs, b)
  {
    if qs == [] {
      assert ps + qs == ps;
    } else {
      assert (ps + qs)[..|ps + qs| - 1] == ps + qs[..|qs| - 1];
      TotalsOverConcat(ps, qs[..|qs| - 1], b);
    }
  }

  /** Taking one posting out of the middle. */
  lemma {:induction false} TotalsWithout(ps: seq<Posting>, i: nat, b: Bucket)
    requires i < |ps|
    ensures TotalIn(ps, b) == TotalIn(ps[..i] + ps[i + 1..], b) + InOf(ps[i], b)
    ensures TotalOut(ps, b) == TotalOut(ps[..i] + ps[i + 1..], b) + OutOf(ps[i], b)
  {
    assert ps == ps[..i] + [ps[i]] + ps[i + 1..];
    TotalsOverConcat(ps[..i] + [ps[i]], ps[i + 1..], b);
    TotalsOverConcat(ps[..i], [ps[i]], b);
    TotalsOverConcat(ps[..i], ps[i + 1..], b);
    assert [ps[i]][..0] == [];
  }

  lemma {:induction false} MultisetWithout(a: seq<Posting>, p: Posting, c: seq<Posting>)
    ensures multiset(a + c) == multiset(a + [p] + c) - multiset{p}
  {
    assert multiset(a + [p] + c) == multiset(a) + multiset{p} + multiset(c);
    assert multiset(a + c) == multiset(a) + multiset(c);
  }

  lemma {:induction false} MultisetWithoutLast(ps: seq<Posting>, p: Posting)
    ensures multiset(ps) == multiset(ps + [p]) - multiset{p}
  {
    assert multiset(ps + [p]) == multiset(ps) + multiset{p};
  }

  /** A list ending in `p` and a permutation of it, with that `p` taken out of both. */
  lemma {:induction false} PermutedRest(ps: seq<Posting>, p: Posting, qs: seq<Posting>, i: nat)
    requires multiset(ps + [p]) == multiset(qs) && i < |qs| && qs[i] == p
    ensures multiset(ps) == multiset(qs[..i] + qs[i + 1..])
  {
    MultisetWithoutLast(ps, p);
    MultisetWithout(qs[..i], p, qs[i + 1..]);
    assert qs == qs[..i] + [p] + qs[i + 1..];
  }

  lemma {:induction false} TotalsOfPermuted(ps: seq<Posting>, qs: seq<Posting>, b: Bucket)
    requires multiset(ps) == multiset(qs)
    ensures TotalIn(ps, b) == TotalIn(qs, b) && TotalOut(ps, b) == TotalOut(qs, b)
  {
    if ps == [] {
      assert |qs| == |multiset(qs)| == 0;
    } else {
      var n := |ps| - 1;
      assert ps == ps[..n] + [ps[n]];
      assert ps[n] in multiset(ps);
      var i :| 0 <= i < |qs| && qs[i] == ps[n];
      PermutedRest(ps[..n], ps[n], qs, i);
      TotalsWithout(qs, i, b);
      TotalsOfPermuted(ps[..n], qs[..i] + qs[i + 1..], b);
    }
  }

  /** The verdict does not depend on the order of the postings. */
  lemma {:induction false} OrderDoesNotMatter(l: Ledger, s: State, ps: seq<Posting>, qs: seq<Posting>)
    requires multiset(ps) == multiset(qs)
    ensures FundsCover(l, s, ps) <==> FundsCover(l, s, qs)
  {
    assert forall p :: p in ps <==> p in multiset(ps);
    assert forall p :: p in qs <==> p in multiset(qs);
    assert Debited(ps) == Debited(qs);
    forall b | b in Debited(ps)
      ensures TotalIn(ps, b) == TotalIn(qs, b) && TotalOut(ps, b) == TotalOut(qs, b)
    {
      TotalsOfPermuted(ps, qs, b);
    }
  }

  /** It is whether, once posted, every debited bucket that is no issuer's has funds left or none owed. */
  lemma {:induction false} VerdictIsOutcome(l: Ledger, s: State, op: Op, e: Env)
    requires op.Post?
    ensures FundsCover(l, s, op.postings) <==>
      forall b | b in Debited(op.postings) :: IsIssuer(l, b.account) || Available(Committed(s, op, e), b) >= 0
  {
    forall b | b in Debited(op.postings)
      ensures Available(Committed(s, op, e), b)
              == Available(s, b) + TotalIn(op.postings, b) - TotalOut(op.postings, b)
    {
      AvailableAfter(s, op, e, b);
    }
  }
}
