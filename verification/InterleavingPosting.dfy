/** Applying queued postings: nothing is lost, and no trigger ever refuses. */
module InterleavingPosting {
  import opened Prelude
  import opened Money
  import opened Ledger
  import opened Tables
  import opened Operations
  import opened Interleaving
  import opened InterleavingState

  /** The balance the next UPDATE reads: the transaction's own, or the committed one. */
  function Current(db: Db, t: Tx, a: Account): int {
    if a in t.balances then t.balances[a] else BaseBalance(db, a)
  }

  predicate HeadCovered(db: Db, t: Tx)
    requires t.queue != []
  {
    Guarded(t.queue[0].account) ==> Current(db, t, t.queue[0].account) + t.queue[0].amount >= 0
  }

  function PostedTx(db: Db, t: Tx): Tx
    requires t.queue != []
  {
    var p := t.queue[0];
    t.(balances := t.balances[p.account := Current(db, t, p.account) + p.amount], queue := t.queue[1..])
  }

  lemma PostOneSucceeds(db: Db, t: Tx)
    requires t.queue != [] && BalanceLock(t.queue[0].account) in t.locks
    requires RowsLocked(db, t) && AccountsKnown(db, t) && MoneyTracked(db, t) && HeadCovered(db, t)
    ensures PostOne(db, t) == Go(PostedTx(db, t))
    ensures RowsLocked(db, PostedTx(db, t)) && AccountsKnown(db, PostedTx(db, t)) && MoneyTracked(db, PostedTx(db, t))
  {
    var next := PostedTx(db, t);
    forall a ensures Buffered(db, next, a) + Net(next.queue, a) == EntrySum(next.w.journal, a) {
      assert Buffered(db, t, a) + Net(t.queue, a) == EntrySum(t.w.journal, a);
    }
    forall i | 0 <= i < |next.queue|
      ensures next.queue[i].account in db.balances || next.queue[i].account in next.balances
    {
      assert next.queue[i] == t.queue[i + 1];
    }
  }

  predicate PostingsKnown(db: Db, t: Tx, ps: seq<Posting>) {
    forall i | 0 <= i < |ps| :: ps[i].account in db.balances || ps[i].account in t.balances
  }

  lemma SortedKeepsKnown(db: Db, t: Tx, ps: seq<Posting>)
    requires PostingsKnown(db, t, ps)
    ensures PostingsKnown(db, t, Sorted(ps))
  {
    SortedIsAPermutation(ps, Mint);
    forall i | 0 <= i < |Sorted(ps)|
      ensures Sorted(ps)[i].account in db.balances || Sorted(ps)[i].account in t.balances
    {
      assert Sorted(ps)[i] in multiset(ps);
    }
  }

  lemma EnqueueTracks(db: Db, t: Tx, tx: Transaction)
    requires Balanced(tx.postings) && t.queue == [] && PostingsKnown(db, t, tx.postings)
    requires RowsLocked(db, t) && AccountsKnown(db, t) && MoneyTracked(db, t)
    ensures Enqueue(t, tx).Go?
    ensures var next := Enqueue(t, tx).next;
            next == t.(w := t.w.(journal := t.w.journal + [tx]), queue := Sorted(tx.postings)) &&
            RowsLocked(db, next) && AccountsKnown(db, next) && MoneyTracked(db, next)
  {
    var next := Enqueue(t, tx).next;
    SortedKeepsKnown(db, t, tx.postings);
    forall a ensures Buffered(db, next, a) + Net(next.queue, a) == EntrySum(next.w.journal, a) {
      assert Buffered(db, t, a) + Net(t.queue, a) == EntrySum(t.w.journal, a);
      EntrySumAppend(t.w.journal, [tx], a);
      EntrySumOne(tx, a);
      SortedIsAPermutation(tx.postings, a);
    }
  }

  // ---------------------------------------------------------------------------
  // The queues that arise
  // ---------------------------------------------------------------------------

  lemma SortedPair(p: Posting, q: Posting)
    ensures Sorted([p, q]) == if AtOrBefore(p.account, q.account) then [p, q] else [q, p]
  {
    assert [p, q][1..] == [q];
    assert [q][1..] == [];
    assert Sorted([q]) == [q];
    assert Insert(p, [q]) == if AtOrBefore(p.account, q.account) then [p] + [q] else [q] + Insert(p, [q][1..]);
  }

  lemma SortedPayout(user: nat, stake: nat, payout: int)
    ensures Sorted(PayoutPostings(user, stake, payout)) ==
            [Posting(Escrow, Negate(stake))] +
            (if payout - stake > 0 then
               [Posting(House, -(payout - stake)), Posting(Wallet(user), stake), Posting(Wallet(user), payout - stake)]
             else [Posting(Wallet(user), stake)])
  {
    var e, w := Posting(Escrow, Negate(stake)), Posting(Wallet(user), stake);
    if payout - stake > 0 {
      var h, x := Posting(House, -(payout - stake)), Posting(Wallet(user), payout - stake);
      var ps := PayoutPostings(user, stake, payout);
      assert ps == [e, w, h, x];
      assert ps[1..] == [w, h, x] && ps[1..][1..] == [h, x];
      SortedPair(h, x);
      assert Insert(w, [h, x]) == [h] + Insert(w, [h, x][1..]);
      assert [h, x][1..] == [x];
      assert Insert(w, [x]) == [w, x];
      assert Insert(e, [h, w, x]) == [e] + [h, w, x];
    } else {
      assert PayoutPostings(user, stake, payout) == [e, w];
      SortedPair(e, w);
    }
  }

  /** The queue of any settlement: escrow debited first, then the house, then the wallet credited. */
  lemma SettlementQueue(db: Db, id: nat, b: Bet)
    requires Payable(b) && b.user in db.users
    ensures var q := Sorted(SettlementOf(id, b)[0].postings);
            PayoutQueue(db, q) && PaysOnly(q, b.user) && q != [] && q[0] == Posting(Escrow, Negate(b.stake))
  {
    match b.status
    case Won => SortedPayout(b.user, b.stake, b.payout.value);
    case Lost => SortedPair(Posting(Escrow, Negate(b.stake)), Posting(House, b.stake));
    case Refunded => SortedPair(Posting(Escrow, Negate(b.stake)), Posting(Wallet(b.user), b.stake));
  }

  lemma SettlementPostingsKnown(db: Db, t: Tx, id: nat, b: Bet)
    requires Payable(b) && b.user in db.users && BalancesMatchJournal(db)
    ensures PostingsKnown(db, t, SettlementOf(id, b)[0].postings)
  {
  }

  // ---------------------------------------------------------------------------
  // Why a pay-out is never refused
  // ---------------------------------------------------------------------------

  lemma {:induction false} QueueWithoutEscrow(q: seq<Posting>)
    requires forall i | 0 <= i < |q| :: !q[i].account.Escrow?
    ensures Net(q, Escrow) == 0
  {
    if q != [] { QueueWithoutEscrow(q[1..]); }
  }

  /** With the batch's rows in place the journal still matches, so escrow still holds a sum of stakes. */
  lemma EscrowCoversBatch(db: Db, rows: map<nat, Bet>, ids: seq<nat>)
    requires Consistent(db) && BatchFits(db, rows, ids)
    ensures BaseBalance(db, Escrow) + EntrySum(BatchJournal(rows, ids), Escrow) >= 0
  {
    var w := BatchWrites(rows, ids, map[]);
    BatchJournalFits(db, rows, ids, map[]);
    ApplyKeepsJournal(db, w);
    FittingAmounts(db);
    hide JournalMatchesRows, JournalFits, BetsFit, RoundsFit;
    var post := Apply(db, w);
    assert AmountsFit(post);
    EscrowIsNonNegative(post);
    EntrySumAppend(db.journal, w.journal, Escrow);
    assert Escrow in db.balances;
  }

  lemma PayoutHeadCovered(db: Db, t: Tx, rows: map<nat, Bet>)
    requires Consistent(db) && BatchFits(db, rows, t.ids)
    requires t.w.journal == BatchJournal(rows, t.ids)
    requires t.queue != [] && PayoutQueue(db, t.queue)
    requires AccountsKnown(db, t) && MoneyTracked(db, t)
    ensures HeadCovered(db, t)
  {
    var a := t.queue[0].account;
    if a == Escrow {
      EscrowCoversBatch(db, rows, t.ids);
      forall i | 0 <= i < |t.queue[1..]| ensures !t.queue[1..][i].account.Escrow? {
        assert t.queue[1..][i] == t.queue[i + 1];
      }
      QueueWithoutEscrow(t.queue[1..]);
      hide JournalMatchesRows, BetsFit, RoundsFit, BatchFits;
      assert Buffered(db, t, Escrow) + Net(t.queue, Escrow) == EntrySum(t.w.journal, Escrow);
    }
  }
}
