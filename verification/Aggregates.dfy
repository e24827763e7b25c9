/**
 * Balances per asset over the accounts an address pattern selects, as of a valid and a system
 * time: they are the sums of the accounts' own balances, and over all accounts they are zero.
 */
module Aggregates {
  import opened Wrappers
  import opened LedgerState
  import opened Transitions
  import opened Effects
  import opened Balances
  import opened Glob

  /** An empty pattern selects every account. */
  ghost predicate Selects(pattern: string, account: Account) { pattern == "" || GlobMatches(pattern, account) }

  /** The WHERE clause on accounts; no clause for an empty pattern. */
  function Where(rows: seq<VolumeDelta>, like: Option<string>): seq<VolumeDelta> {
    if rows == [] then []
    else
      var d := rows[|rows| - 1];
      Where(rows[..|rows| - 1], like) + if like.None? || Like(like.value, d.account) then [d] else []
  }

  ghost function Selected(rows: seq<VolumeDelta>, pattern: string): seq<VolumeDelta> {
    if rows == [] then []
    else
      var d := rows[|rows| - 1];
      Selected(rows[..|rows| - 1], pattern) + if Selects(pattern, d.account) then [d] else []
  }

  lemma {:induction false} WhereSelects(rows: seq<VolumeDelta>, pattern: string)
    ensures Where(rows, if pattern == "" then None else Some(Rewrite(pattern))) == Selected(rows, pattern)
  {
    if rows != [] {
      WhereSelects(rows[..|rows| - 1], pattern);
      LikeIsGlob(pattern, rows[|rows| - 1].account);
    }
  }

  ghost predicate HasAsset(rows: seq<VolumeDelta>, a: Asset) { exists i :: 0 <= i < |rows| && rows[i].asset == a }

  /** GROUP BY asset: each asset of the rows once. */
  function Assets(rows: seq<VolumeDelta>): (r: seq<Asset>)
    ensures forall a :: a in r <==> HasAsset(rows, a)
  {
    if rows == [] then []
    else
      var n := |rows| - 1;
      var before := Assets(rows[..n]);
      assert forall i :: 0 <= i < n ==> rows[..n][i] == rows[i];
      assert forall a :: HasAsset(rows, a) <==> HasAsset(rows[..n], a) || rows[n].asset == a;
      if rows[n].asset in before then before else before + [rows[n].asset]
  }

  /** A row is seen up to and including each bound that is given, its valid time by the first and its system time by the second. */
  lemma {:induction false} SeenIff(rows: seq<VolumeDelta>, valid: Option<Time>, system: Option<Time>, d: VolumeDelta)
    ensures d in Visible(rows, AsOf(valid, system)) <==>
      && d in rows
      && (match valid case Some(t) => d.validTime <= t case None => true)
      && (match system case Some(t) => d.systemTime <= t case None => true)
  {
    if rows != [] {
      SeenIff(rows[..|rows| - 1], valid, system, d);
    }
  }

  function AssetNet(rows: seq<VolumeDelta>, a: Asset): int { AssetInput(rows, a) - AssetOutput(rows, a) }

  /** One entry an asset of the rows that the pattern and the times select, with their net balance. */
  method GetAggregatedBalances(rows: seq<VolumeDelta>, addressPattern: string, asOf: AsOf)
    returns (result: map<Asset, int>)
    ensures forall a :: a in result <==> HasAsset(Selected(Visible(rows, asOf), addressPattern), a)
    ensures forall a :: a in result ==> result[a] == AssetNet(Selected(Visible(rows, asOf), addressPattern), a)
  {
    var like: Option<string> := None;
    if addressPattern != "" {
      var likePattern := ToLike(addressPattern);
      like := Some(likePattern);
    }
    WhereSelects(Visible(rows, asOf), addressPattern);
    var selected := Where(Visible(rows, asOf), like);
    var groups := Assets(selected);
    result := map[];
    for i := 0 to |groups|
      invariant forall a :: a in result <==> a in groups[..i]
      invariant forall a :: a in result ==> result[a] == AssetNet(selected, a)
    {
      assert groups[..i + 1] == groups[..i] + [groups[i]];
      result := result[groups[i] := AssetInput(selected, groups[i]) - AssetOutput(selected, groups[i])];
    }
    assert groups[..|groups|] == groups;
  }

  // ----- the whole ledger -----

  lemma {:induction false} VisibleConcat(xs: seq<VolumeDelta>, ys: seq<VolumeDelta>, asOf: AsOf)
    ensures Visible(xs + ys, asOf) == Visible(xs, asOf) + Visible(ys, asOf)
  {
    if ys == [] {
      assert xs + ys == xs;
    } else {
      assert (xs + ys)[..|xs + ys| - 1] == xs + ys[..|ys| - 1];
      VisibleConcat(xs, ys[..|ys| - 1], asOf);
    }
  }

  /** Rows with the same times are seen all or none. */
  lemma {:induction false} SeenTogether(rows: seq<VolumeDelta>, asOf: AsOf, sees: bool)
    requires forall i :: 0 <= i < |rows| ==> asOf.Sees(rows[i]) == sees
    ensures Visible(rows, asOf) == if sees then rows else []
  {
    if rows != [] {
      var n := |rows| - 1;
      SeenTogether(rows[..n], asOf, sees);
      assert asOf.Sees(rows[n]) == sees;
      assert rows[..n] + [rows[n]] == rows;
    }
  }

  /** What one operation writes is seen whole or not at all, and balances per asset. */
  lemma {:induction false} WrittenBalances(ps: seq<Posting>, eventId: Id, validTime: Time, now: Time, asOf: AsOf, a: Asset)
    ensures AssetNet(Visible(Legs(ps, eventId, validTime, now), asOf), a) == 0
  {
    var rows := Legs(ps, eventId, validTime, now);
    LegsShareEvent(ps, eventId, validTime, now);
    assert forall i :: 0 <= i < |rows| ==> rows[i] in rows;
    SeenTogether(rows, asOf, asOf.Sees(VolumeDelta("", "", "", validTime, now, 0, 0)));
    LegsBalance(ps, eventId, validTime, now, a);
  }

  lemma {:induction false} NetOverConcat(xs: seq<VolumeDelta>, ys: seq<VolumeDelta>, asOf: AsOf, a: Asset)
    ensures AssetNet(Visible(xs + ys, asOf), a) == AssetNet(Visible(xs, asOf), a) + AssetNet(Visible(ys, asOf), a)
  {
    VisibleConcat(xs, ys, asOf);
    AssetSumsOverConcat(Visible(xs, asOf), Visible(ys, asOf), a);
  }

  /** In every history and as of any pair of times, the balances of all accounts sum to zero per asset. */
  lemma {:induction false} TrialBalance(l: Ledger, calls: seq<Call>, asOf: AsOf, a: Asset)
    ensures AssetNet(Visible(Run(l, calls).deltas, asOf), a) == 0
  {
    if calls != [] {
      var s, c := Run(l, calls[..|calls| - 1]), calls[|calls| - 1];
      TrialBalance(l, calls[..|calls| - 1], asOf, a);
      StepShape(l, s, c);
      if Commits(l, s, c) {
        NetOverConcat(s.deltas, AppendedRows(s, c.op, c.env), asOf, a);
        WrittenBalances(Moves(s, c.op), c.env.eventId, EventTime(s, c.op, c.env), c.env.now, asOf, a);
      }
    }
  }

  // ----- the sum of the accounts' balances -----

  function SumOfBalances(rows: seq<VolumeDelta>, accounts: seq<Account>, a: Asset): int {
    if accounts == [] then 0
    else SumOfBalances(rows, accounts[..|accounts| - 1], a) + Net(rows, Bucket(accounts[|accounts| - 1], a))
  }

  predicate DistinctAccounts(xs: seq<Account>) { forall i, j :: 0 <= i < j < |xs| ==> xs[i] != xs[j] }

  lemma {:induction false} SumAfterRow(rows: seq<VolumeDelta>, d: VolumeDelta, accounts: seq<Account>, a: Asset)
    requires DistinctAccounts(accounts)
    ensures SumOfBalances(rows + [d], accounts, a)
            == SumOfBalances(rows, accounts, a) + if d.asset == a && d.account in accounts then d.input - d.output else 0
  {
    if accounts != [] {
      var n := |accounts| - 1;
      SumAfterRow(rows, d, accounts[..n], a);
      assert (rows + [d])[..|rows|] == rows;
      assert d.account in accounts <==> d.account in accounts[..n] || d.account == accounts[n];
    }
  }

  lemma {:induction false} SumOfNothing(accounts: seq<Account>, a: Asset)
    ensures SumOfBalances([], accounts, a) == 0
  {
    if accounts != [] {
      SumOfNothing(accounts[..|accounts| - 1], a);
    }
  }

  lemma {:induction false} SelectedAfterRow(rows: seq<VolumeDelta>, d: VolumeDelta, pattern: string, a: Asset)
    ensures AssetNet(Selected(rows + [d], pattern), a)
            == AssetNet(Selected(rows, pattern), a) + if d.asset == a && Selects(pattern, d.account) then d.input - d.output else 0
  {
    assert (rows + [d])[..|rows|] == rows;
    var before := Selected(rows, pattern);
    assert (before + [d])[..|before|] == before && before + [] == before;
  }

  /** Over any list of the selected accounts, the aggregate is the sum of their own balances. */
  lemma {:induction false} AggregateIsSum(rows: seq<VolumeDelta>, pattern: string, accounts: seq<Account>, a: Asset)
    requires DistinctAccounts(accounts)
    requires forall d :: d in rows ==> (d.account in accounts <==> Selects(pattern, d.account))
    ensures AssetNet(Selected(rows, pattern), a) == SumOfBalances(rows, accounts, a)
  {
    if rows == [] {
      SumOfNothing(accounts, a);
    } else {
      var n := |rows| - 1;
      var d := rows[n];
      assert rows == rows[..n] + [d];
      AggregateIsSum(rows[..n], pattern, accounts, a);
      SumAfterRow(rows[..n], d, accounts, a);
      SelectedAfterRow(rows[..n], d, pattern, a);
    }
  }
}
