/** Double-entry batches over the ledger and the register. */
module Ledger {
  import opened Common

  datatype Asset = Cash(currency: string) | Units(product: string)

  datatype AccountKind = INVESTOR | ISSUER | TREASURY | CASH_CLEARING | FEE

  datatype Account = Account(product: string, owner: string, asset: Asset, kind: AccountKind)

  datatype Entry = Entry(account: Account, asset: Asset, delta: int)

  datatype Batch = Batch(id: string, transaction: Option<string>, entries: seq<Entry>)

  /** The sum of deltas a selection picks out of some entries. */
  function Sum(entries: seq<Entry>, f: Entry -> bool): int {
    if entries == [] then 0 else Sum(entries[..|entries| - 1], f) + if f(entries[|entries| - 1]) then entries[|entries| - 1].delta else 0
  }

  function Total(batches: seq<Batch>, f: Entry -> bool): int {
    if batches == [] then 0 else Total(batches[..|batches| - 1], f) + Sum(batches[|batches| - 1].entries, f)
  }

  function OfAsset(a: Asset): Entry -> bool {
    (e: Entry) => e.asset == a
  }

  function OfAccount(a: Account): Entry -> bool {
    (e: Entry) => e.account == a
  }

  /** All accounts of one kind in an asset. */
  function OfKind(a: Asset, k: AccountKind): Entry -> bool {
    (e: Entry) => e.asset == a && e.account.kind == k
  }

  /** `accountBalance`: the sum of an account's entries. */
  function Balance(batches: seq<Batch>, account: Account): int {
    Total(batches, OfAccount(account))
  }

  lemma TotalMore(batches: seq<Batch>, b: Batch, f: Entry -> bool)
    ensures Total(batches + [b], f) == Total(batches, f) + Sum(b.entries, f)
  {
    assert (batches + [b])[..|batches|] == batches;
  }

  lemma SumMore(entries: seq<Entry>, e: Entry, f: Entry -> bool)
    ensures Sum(entries + [e], f) == Sum(entries, f) + if f(e) then e.delta else 0
  {
    assert (entries + [e])[..|entries|] == entries;
  }

  lemma {:induction false} SumNone(entries: seq<Entry>, f: Entry -> bool)
    requires forall i :: 0 <= i < |entries| ==> !f(entries[i])
    ensures Sum(entries, f) == 0
  {
    if entries != [] {
      SumNone(entries[..|entries| - 1], f);
    }
  }

  /** At least two entries, none of them zero, and every asset sums to zero. */
  ghost predicate Balanced(entries: seq<Entry>) {
    && |entries| >= 2
    && (forall i :: 0 <= i < |entries| ==> entries[i].delta != 0)
    && forall a :: Sum(entries, OfAsset(a)) == 0
  }

  predicate HasZero(entries: seq<Entry>) {
    exists i :: 0 <= i < |entries| && entries[i].delta == 0
  }

  function BatchError(entries: seq<Entry>): (r: Option<string>) {
    if |entries| < 2 then Some("INVALID_LEDGER_BATCH")
    else if HasZero(entries) then Some("INVALID_LEDGER_ENTRY")
    else if exists i :: 0 <= i < |entries| && Sum(entries, OfAsset(entries[i].asset)) != 0 then Some("UNBALANCED_LEDGER_BATCH")
    else None
  }

  /** The check passes exactly the balanced batches: an asset without entries sums to zero anyway. */
  lemma AcceptedMeansBalanced(entries: seq<Entry>)
    ensures BatchError(entries).None? <==> Balanced(entries)
  {
    if BatchError(entries).None? {
      forall a ensures Sum(entries, OfAsset(a)) == 0 {
        if i :| 0 <= i < |entries| && entries[i].asset == a {
        } else {
          SumNone(entries, OfAsset(a));
        }
      }
    }
  }

  function TotalOf(totals: map<Asset, int>, a: Asset): int {
    if a in totals then totals[a] else 0
  }

  ghost predicate Tallied(totals: map<Asset, int>, entries: seq<Entry>) {
    && (forall a :: TotalOf(totals, a) == Sum(entries, OfAsset(a)))
    && forall k :: 0 <= k < |entries| ==> entries[k].asset in totals
  }

  lemma TallyMore(totals: map<Asset, int>, entries: seq<Entry>, e: Entry)
    requires Tallied(totals, entries)
    ensures Tallied(totals[e.asset := TotalOf(totals, e.asset) + e.delta], entries + [e])
  {
    forall a ensures Sum(entries + [e], OfAsset(a)) == Sum(entries, OfAsset(a)) + if e.asset == a then e.delta else 0 {
      SumMore(entries, e, OfAsset(a));
    }
    hide Sum;
  }

  /** `assertBalancedEntries`: totals per asset in one pass, then a look at each total. */
  method AssertBalancedEntries(entries: seq<Entry>) returns (error: Option<string>)
    ensures error == BatchError(entries) && (error.None? <==> Balanced(entries))
  {
    AcceptedMeansBalanced(entries);
    hide Balanced, Tallied, Sum;
    if |entries| < 2 {
      return Some("INVALID_LEDGER_BATCH");
    }
    var totals: map<Asset, int> := map[];
    NothingTallied();
    for i := 0 to |entries|
      invariant Tallied(totals, entries[..i]) && forall k :: 0 <= k < i ==> entries[k].delta != 0
    {
      var e := entries[i];
      if e.delta == 0 {
        return Some("INVALID_LEDGER_ENTRY");
      }
      TallyMore(totals, entries[..i], e);
      assert entries[..i + 1] == entries[..i] + [e];
      totals := totals[e.asset := (if e.asset in totals then totals[e.asset] else 0) + e.delta];
    }
    assert entries[..|entries|] == entries;
    error := FirstUnbalanced(entries, totals);
  }

  lemma NothingTallied()
    ensures Tallied(map[], [])
  {
  }

  method FirstUnbalanced(entries: seq<Entry>, totals: map<Asset, int>) returns (error: Option<string>)
    requires |entries| >= 2 && !HasZero(entries) && Tallied(totals, entries)
    ensures error == BatchError(entries)
  {
    hide Sum;
    var rest := totals.Keys;
    while rest != {}
      invariant rest <= totals.Keys && forall a :: a in totals && a !in rest ==> totals[a] == 0
      decreases |rest|
    {
      var a :| a in rest;
      if totals[a] != 0 {
        assert Sum(entries, OfAsset(a)) == TotalOf(totals, a);
        if forall i :: 0 <= i < |entries| ==> entries[i].asset != a {
          SumNone(entries, OfAsset(a));
          assert false;
        }
        return Some("UNBALANCED_LEDGER_BATCH");
      }
      rest := rest - {a};
    }
    forall i | 0 <= i < |entries| ensures Sum(entries, OfAsset(entries[i].asset)) == 0 {
      assert TotalOf(totals, entries[i].asset) == 0;
    }
    return None;
  }
}
