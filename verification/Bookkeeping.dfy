/** Posting a transaction, in place, is what applying its writes says. */
module Bookkeeping {
  import opened Prelude
  import opened Money
  import opened Ledger
  import opened Tables
  import opened Operations
  import opened InterleavingPosting
  import opened InterleavingPlace
  import opened Guarantees

  /** Enough to post: known accounts, each moving one way, and every guarded balance covered. */
  lemma CoveredPosts(balances: Balances, ps: seq<Posting>)
    requires Balanced(ps) && Known(balances, ps) && OneWay(ps) && Covered(balances, ps)
    ensures Posted(balances, ps).Ok?
  {
    var sorted := Sorted(ps);
    assert multiset(sorted) == multiset(ps) by { SortedIsAPermutation(ps, Mint); }
    forall i | 0 <= i < |sorted| ensures sorted[i] in ps {
      assert sorted[i] in multiset(sorted);
    }
    hide Balanced, Sorted;
    assert Known(balances, sorted);
    assert OneWay(sorted) by { PermutedOneWay(ps, sorted); }
    forall a | a in balances && Guarded(a) ensures balances[a] >= 0 && balances[a] + Net(sorted, a) >= 0 {
      SortedIsAPermutation(ps, a);
    }
    CoveredPostingsApply(balances, sorted);
  }

  lemma PermutedOneWay(ps: seq<Posting>, qs: seq<Posting>)
    requires OneWay(ps) && forall i | 0 <= i < |qs| :: qs[i] in ps
    ensures OneWay(qs)
  {
    forall i, j | 0 <= i < |qs| && 0 <= j < |qs| && qs[i].account == qs[j].account
      ensures qs[i].amount >= 0 <==> qs[j].amount >= 0
    {
      var k :| 0 <= k < |ps| && ps[k] == qs[i];
      var m :| 0 <= m < |ps| && ps[m] == qs[j];
    }
  }

  /** One more transaction moves the applied balances by its postings. */
  lemma AppliedBalances(db: Db, w: Writes, tx: Transaction, more: Writes)
    requires w.users == map[] && more.users == map[] && more.journal == w.journal + [tx]
    ensures Apply(db, more).balances ==
            map a | a in Apply(db, w).balances :: Apply(db, w).balances[a] + Net(tx.postings, a)
  {
    forall a ensures EntrySum(more.journal, a) == EntrySum(w.journal, a) + Net(tx.postings, a) {
      EntrySumAppend(w.journal, [tx], a);
      EntrySumOne(tx, a);
    }
  }

  lemma NothingApplied(db: Db)
    requires BalancesMatchJournal(db)
    ensures Apply(db, NO_WRITES) == db
  {
    assert db.balances == map a | a in AccountsAfter(db, map[]) :: BaseBalance(db, a) + EntrySum([], a);
  }

  /** The trigger's condition over the balances after some writes. */
  ghost predicate GuardsHold(db: Db) {
    forall a | a in db.balances && Guarded(a) :: db.balances[a] >= 0
  }

  /** Between two states whose guards hold, a transaction of one-way postings posts and lands on the second. */
  lemma PostLands(db: Db, w: Writes, tx: Transaction, more: Writes)
    requires w.users == map[] && more.users == map[] && more.journal == w.journal + [tx]
    requires GuardsHold(Apply(db, w)) && GuardsHold(Apply(db, more))
    requires Balanced(tx.postings) && OneWay(tx.postings) && Known(Apply(db, w).balances, tx.postings)
    ensures Posted(Apply(db, w).balances, tx.postings) == Ok(Apply(db, more).balances)
  {
    AppliedBalances(db, w, tx, more);
    hide Balanced, OneWay, Apply, Posted;
    CoveredPosts(Apply(db, w).balances, tx.postings);
    PostedAddsNet(Apply(db, w).balances, tx.postings);
  }

  lemma SettlementsAreOneWay(id: nat, b: Bet)
    requires Payable(b)
    ensures OneWay(SettlementOf(id, b)[0].postings)
  {
  }

  lemma PlacementIsOneWay(id: nat, b: Bet)
    ensures OneWay(PlacedTx(id, b).postings)
  {
  }

  lemma ConsistentGuardsHold(db: Db)
    requires Consistent(db)
    ensures GuardsHold(db) && BalancesMatchJournal(db)
  {
    EscrowBalanceNonNegative(db);
    hide JournalMatchesRows, BetsFit, RoundsFit, AllBalanced;
  }

  /** After any part of a batch no guarded balance is negative: escrow still holds the stakes left in it. */
  lemma BatchGuardsHold(db: Db, rows: map<nat, Bet>, ids: seq<nat>)
    requires Consistent(db) && BatchFits(db, rows, ids)
    ensures GuardsHold(Apply(db, BatchWrites(rows, ids, map[])))
  {
    ConsistentGuardsHold(db);
    EscrowCoversBatch(db, rows, ids);
    hide Consistent;
    var w := BatchWrites(rows, ids, map[]);
    forall a | a in Apply(db, w).balances && Guarded(a) ensures Apply(db, w).balances[a] >= 0 {
      if a.Wallet? {
        BatchIsPayable(db, rows, ids);
        BatchBalances(rows, ids, a);
      }
    }
  }

  lemma BatchIsPayable(db: Db, rows: map<nat, Bet>, ids: seq<nat>)
    requires BatchFits(db, rows, ids)
    ensures forall b | b in ids :: b in rows && Payable(rows[b])
  {
    hide Payable, SamePlacement;
  }

  /** Settling one more bet of a batch posts, and lands where the larger batch does. */
  lemma NextSettlementLands(db: Db, rows: map<nat, Bet>, ids: seq<nat>, more: map<nat, Bet>, id: nat)
    requires Consistent(db) && BatchFits(db, rows, ids) && BatchFits(db, more, ids + [id])
    requires BatchWrites(more, ids + [id], map[]).journal ==
             BatchWrites(rows, ids, map[]).journal + SettlementOf(id, more[id])
    ensures |SettlementOf(id, more[id])| == 1
    ensures Posted(Apply(db, BatchWrites(rows, ids, map[])).balances, SettlementOf(id, more[id])[0].postings) ==
            Ok(Apply(db, BatchWrites(more, ids + [id], map[])).balances)
  {
    hide Consistent, BatchFits, Payable, Apply, GuardsHold, OneWay, Balanced, SettlementOf, BatchWrites, Known, Posted,
         SamePlacement;
    NextIsInBatch(db, rows, ids, more, id);
    SettlementsAreBalanced(id, more[id]);
    SettlementsAreOneWay(id, more[id]);
    BatchGuardsHold(db, rows, ids);
    BatchGuardsHold(db, more, ids + [id]);
    SettlementAccountsKnown(db, more[id], id);
    var tx := SettlementOf(id, more[id])[0];
    assert SettlementOf(id, more[id]) == [tx];
    KnownStays(db, BatchWrites(rows, ids, map[]), tx.postings);
    PostLands(db, BatchWrites(rows, ids, map[]), tx, BatchWrites(more, ids + [id], map[]));
  }

  lemma NextIsInBatch(db: Db, rows: map<nat, Bet>, ids: seq<nat>, more: map<nat, Bet>, id: nat)
    requires BatchFits(db, rows, ids) && BatchFits(db, more, ids + [id])
    ensures (forall b | b in ids :: b in rows) && (forall b | b in ids + [id] :: b in more) && id in more && id in db.bets
    ensures Payable(more[id]) && SamePlacement(db.bets[id], more[id])
    ensures BatchWrites(rows, ids, map[]).users == map[] && BatchWrites(more, ids + [id], map[]).users == map[]
  {
    hide Payable, SamePlacement, BatchJournal, Distinct;
    assert id in ids + [id];
  }

  lemma KnownStays(db: Db, w: Writes, ps: seq<Posting>)
    requires Known(db.balances, ps)
    ensures Known(Apply(db, w).balances, ps)
  {
  }

  lemma SettlementAccountsKnown(db: Db, row: Bet, id: nat)
    requires Consistent(db) && Payable(row) && id in db.bets && SamePlacement(db.bets[id], row)
    ensures Known(db.balances, SettlementOf(id, row)[0].postings)
  {
    BettorsExist(db);
    NoWalletForStrangers(db, row.user);
    hide Consistent;
  }
}
