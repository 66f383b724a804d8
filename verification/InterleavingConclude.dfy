/** The statements of `settleRound` and `voidRound`. */
module InterleavingConclude {
  import opened Prelude
  import opened Money
  import opened Roulette
  import opened Ledger
  import opened Tables
  import opened Operations
  import opened Interleaving
  import opened InterleavingState
  import opened InterleavingPosting
  import opened InterleavingMoves
  import opened InterleavingPlace
  import opened InterleavingPayouts

  /** A snapshot, when one is taken, lists exactly the round's active bets. */
  ghost predicate OrderOk(s: System, t: Tx, order: seq<nat>)
    requires t.program.Conclude?
  {
    t.stage.Snapshot? ==> ActiveBetsOf(s.db, t.program.round, order)
  }

  ghost predicate ConcludeMoveOk(s: System, t: Tx, order: seq<nat>)
    requires t.program.Conclude?
  {
    MoveOk(s.db, s.now, s.nextBet, s.limits, t.program, ActConclude(s.db, s.now, LockGranted(s, t), order))
  }

  lemma ConcludeWent(s: System, t: Tx, order: seq<nat>, next: Tx)
    requires t.program.Conclude? && ActConclude(s.db, s.now, LockGranted(s, t), order) == Go(next)
    requires next.program == t.program && ConcludeOk(s.db, s.limits, next) && LocksKnown(s.db, s.nextBet, next)
    requires RowsLocked(s.db, next) && AccountsKnown(s.db, next) && MoneyTracked(s.db, next)
    ensures ConcludeMoveOk(s, t, order)
  {
    hide ActConclude, ConcludeOk, LocksKnown, RowsLocked, AccountsKnown, MoneyTracked;
  }

  lemma ConcludeStopped(s: System, t: Tx, order: seq<nat>, a: Answer)
    requires t.program.Conclude? && ActConclude(s.db, s.now, LockGranted(s, t), order) == Stop(a)
    requires ConcludeAnswer(s.db, s.limits, t.program, a)
    ensures ConcludeMoveOk(s, t, order)
  {
    hide ActConclude, ConcludeAnswer;
  }

  lemma ConcludeStarts(s: System, t: Tx, order: seq<nat>)
    requires Common(s, t) && t.program.Conclude? && ConcludeOk(s.db, s.limits, t) && t.stage.Start?
    ensures ConcludeMoveOk(s, t, order)
  {
    hide CommittedOk, MoneyTracked, AccountsKnown, RowsLocked, ConcludeMoveOk;
    var m := ActConclude(s.db, s.now, LockGranted(s, t), order);
    if m.Go? {
      NoBuffers(s.db, m.next);
      ConcludeWent(s, t, order, m.next);
    } else {
      ConcludeStopped(s, t, order, m.answer);
    }
  }

  lemma ConcludeSnapshots(s: System, t: Tx, order: seq<nat>)
    requires Common(s, t) && t.program.Conclude? && ConcludeOk(s.db, s.limits, t)
    requires t.stage.Snapshot? && OrderOk(s, t, order)
    ensures ConcludeMoveOk(s, t, order)
  {
    hide CommittedOk, MoneyTracked, AccountsKnown, RowsLocked, ConcludeMoveOk;
    assert LockGranted(s, t) == t;
    var next := t.(stage := Locking(order, []));
    assert [] + order == order;
    assert BetLocks([]) == {};
    assert ConcludeLocking(s.db, next, order, []);
    NoBuffers(s.db, next);
    ConcludeWent(s, t, order, next);
  }

  lemma ConcludeLocks(s: System, t: Tx, order: seq<nat>)
    requires Common(s, t) && t.program.Conclude? && ConcludeOk(s.db, s.limits, t)
    requires t.stage.Locking? && t.stage.todo != []
    ensures ConcludeMoveOk(s, t, order)
  {
    hide CommittedOk, MoneyTracked, AccountsKnown, RowsLocked, ConcludeMoveOk, ConcludeLocking, MayStart;
    var next := ActConclude(s.db, s.now, LockGranted(s, t), order).next;
    LockOne(s, t, next);
    NoBuffers(s.db, next);
    ConcludeWent(s, t, order, next);
  }

  lemma LockOne(s: System, t: Tx, next: Tx)
    requires t.program.Conclude? && t.stage.Locking? && t.stage.todo != []
    requires ConcludeLocking(s.db, t, t.stage.todo, t.stage.got)
    requires ActConclude(s.db, s.now, LockGranted(s, t), []) == Go(next)
    ensures next.stage.Locking? && ConcludeLocking(s.db, next, next.stage.todo, next.stage.got)
    ensures next.locks <= LockGranted(s, t).locks && next.shared <= LockGranted(s, t).shared
    ensures next.w == NO_WRITES && next.balances == map[] && next.queue == []
  {
    var todo, got := t.stage.todo, t.stage.got;
    var id := todo[0];
    assert todo == [id] + todo[1..];
    NotAmongTheFirst(got, todo);
    assert BetLocks(got + [id]) == BetLocks(got) + {BetLock(id)};
    assert next.stage.todo == todo[1..];
    if next.stage.got == got {
      DropOne(got, todo);
      assert BetLock(id) !in BetLocks(got);
    } else {
      assert (got + [id]) + todo[1..] == got + todo;
    }
  }

  lemma NotAmongTheFirst(first: seq<nat>, rest: seq<nat>)
    requires Distinct(first + rest) && rest != []
    ensures rest[0] !in first
  {
    var all := first + rest;
    assert all[|first|] == rest[0];
    forall k | 0 <= k < |first| ensures first[k] != rest[0] {
      assert all[k] == first[k];
    }
  }

  lemma DropOne(got: seq<nat>, todo: seq<nat>)
    requires todo != [] && Distinct(got + todo)
    ensures Distinct(got + todo[1..])
  {
    var ids, all := got + todo[1..], got + todo;
    forall i, j | 0 <= i < j < |ids| ensures ids[i] != ids[j] {
      assert ids[i] == all[if i < |got| then i else i + 1];
      assert ids[j] == all[if j < |got| then j else j + 1];
    }
  }

  lemma ConcludeTurnsToSettling(s: System, t: Tx, order: seq<nat>)
    requires Common(s, t) && t.program.Conclude? && ConcludeOk(s.db, s.limits, t)
    requires t.stage.Locking? && t.stage.todo == []
    ensures ConcludeMoveOk(s, t, order)
  {
    hide CommittedOk, MoneyTracked, AccountsKnown, RowsLocked, ConcludeMoveOk, MayStart, LocksKnown, Distinct, Decide;
    var got, r := t.stage.got, t.program.round;
    var next := t.(stage := Settling(got));
    assert LockGranted(s, t) == t;
    assert [] + got == got && got + [] == got;
    assert ActiveBetsOf(s.db, r, got);
    assert Distinct([]) by { NoneDistinct(); }
    assert DecidedRows(t.program.voiding, s.db, r, []) == map[];
    assert BatchWrites(map[], [], map[]) == NO_WRITES;
    assert ConcludeSettling(s.db, next, got);
    LocksKnownSame(s.db, s.nextBet, t, next);
    NoBuffers(s.db, next);
    ConcludeWent(s, t, order, next);
  }

  lemma NoneDistinct()
    ensures Distinct([])
  {
  }

  lemma ConcludePosts(s: System, t: Tx, order: seq<nat>)
    requires Common(s, t) && t.program.Conclude? && ConcludeOk(s.db, s.limits, t) && t.stage.Settling? && t.queue != []
    ensures ConcludeMoveOk(s, t, order)
  {
    hide Common, CommittedOk, Consistent, RowsLocked, AccountsKnown, MoneyTracked, LocksKnown, BatchFits, BetsFit,
         ConcludeMoveOk, MayStart, PayoutQueue, EscrowFirst, Decidable, ActiveBetsOf, PaysLast;
    var voiding, r := t.program.voiding, t.program.round;
    CommonCommitted(s, t);
    ConsistentBets(s.db);
    DecidedRowsFit(voiding, s.db, r, t.ids);
    DecidableIsDefined(voiding, s.db, r, t.ids);
    PayoutPosts(s, t, DecidedRows(voiding, s.db, r, t.ids));
    PaysLastAfterOne(s, t);
    var next := PostedTx(s.db, LockGranted(s, t));
    assert ConcludeSettling(s.db, next, t.stage.left);
    ConcludeWent(s, t, order, next);
  }

  lemma PaysLastAfterOne(s: System, t: Tx)
    requires t.queue != [] && PaysLast(s.db, t)
    ensures LockGranted(s, t).queue == t.queue && PaysLast(s.db, PostedTx(s.db, LockGranted(s, t)))
  {
    hide PaysOnly;
    PaysOnlyAfterOne(t.queue, s.db.bets[t.ids[|t.ids| - 1]].user);
  }

  lemma ConsistentBets(db: Db)
    requires Consistent(db)
    ensures BetsFit(db.users, db.bets, db.rounds) && RoundsFit(db.rounds)
  {
  }

  lemma DecidableIsDefined(voiding: bool, db: Db, r: nat, ids: seq<nat>)
    requires Decidable(voiding, db, r, ids)
    ensures r in db.rounds && forall b | b in ids :: b in db.bets && Decide(voiding, db.bets[b], db.rounds[r]).Ok?
  {
  }

  // ---------------------------------------------------------------------------
  // Settling one bet
  // ---------------------------------------------------------------------------

  /** Deciding a stored bet fails only when its payout is beyond the safe integers. */
  lemma DecisionErrors(voiding: bool, b: Bet, users: map<nat, nat>, rounds: map<nat, Round>)
    requires BetFits(b, users, rounds)
    ensures var d := Decide(voiding, b, rounds[b.round]);
            d.Err? ==> !voiding && d.error == MoneyFailure(Unsafe)
    ensures var d := Decide(voiding, b, rounds[b.round]);
            d.Ok? && b.status == Active ==> BetChecks(d.value) && d.value.user in users
  {
    if b.odds.Some? {
      OnlyUnsafe(b.stake, b.odds.value);
    }
  }

  /** A settlement that cannot be paid means that the stake limit admits one. */
  lemma UnsafeDecisionMeansOverflow(limits: Limits, b: Bet, users: map<nat, nat>, rounds: map<nat, Round>)
    requires BetFits(b, users, rounds) && b.stake <= limits.maxStake && SettleRow(b, rounds[b.round]).Err?
    ensures MayOverflow(limits, Odds(Straight))
  {
    hide Scale;
    ScaleMonotone(b.stake, limits.maxStake, b.odds.value, Odds(Straight));
  }

  lemma {:induction false} BatchDependsOnItsRows(rows: map<nat, Bet>, more: map<nat, Bet>, ids: seq<nat>)
    requires forall b | b in ids :: b in rows && b in more && rows[b] == more[b]
    ensures BatchJournal(rows, ids) == BatchJournal(more, ids)
  {
    if ids != [] {
      BatchDependsOnItsRows(rows, more, ids[..|ids| - 1]);
    }
  }

  /** One more decided bet extends the batch by its row and its settlement. */
  lemma BatchGrows(voiding: bool, db: Db, r: nat, ids: seq<nat>, id: nat)
    requires Decidable(voiding, db, r, ids) && id !in ids && ActiveIn(db, r, id)
    requires Decide(voiding, db.bets[id], db.rounds[r]).Ok?
    ensures Decidable(voiding, db, r, ids + [id])
    ensures var row := Decide(voiding, db.bets[id], db.rounds[r]).value;
            var w := BatchWrites(DecidedRows(voiding, db, r, ids), ids, map[]);
            BatchWrites(DecidedRows(voiding, db, r, ids + [id]), ids + [id], map[]) ==
            w.(bets := w.bets[id := row], journal := w.journal + SettlementOf(id, row)) &&
            id !in w.bets
  {
    hide Decide, SettlementOf;
    var rows, more := DecidedRows(voiding, db, r, ids), DecidedRows(voiding, db, r, ids + [id]);
    BatchDependsOnItsRows(more, rows, ids);
    assert (ids + [id])[..|ids|] == ids;
    assert more == rows[id := Decide(voiding, db.bets[id], db.rounds[r]).value];
  }

  /** The transaction after the UPDATE of one bet, before its posting. */
  function BetWritten(s: System, t: Tx, row: Bet): Tx
    requires t.stage.Settling? && t.stage.left != []
  {
    t.(stage := Settling(t.stage.left[1..]), ids := t.ids + [t.stage.left[0]],
       w := UpdateIfActive(s.db, t.w, t.stage.left[0], row))
  }

  lemma NextIsActive(db: Db, t: Tx, left: seq<nat>)
    requires t.program.Conclude? && ConcludeSettling(db, t, left) && left != []
    ensures ActiveIn(db, t.program.round, left[0]) && left[0] !in t.ids && BetLock(left[0]) in t.locks
    ensures (t.ids + [left[0]]) + left[1..] == t.ids + left
  {
    hide Decidable, Decide, PayoutQueue, EscrowFirst;
    var all := t.ids + left;
    assert all[|t.ids|] == left[0];
    assert left[0] in all;
    NotAmongTheFirst(t.ids, left);
  }

  lemma ConcludeDecides(s: System, t: Tx, order: seq<nat>)
    requires Common(s, t) && t.program.Conclude? && ConcludeOk(s.db, s.limits, t)
    requires t.stage.Settling? && t.queue == [] && t.stage.left != []
    ensures ConcludeMoveOk(s, t, order)
  {
    hide Common, CommittedOk, Consistent, RowsLocked, AccountsKnown, MoneyTracked, LocksKnown, BetFits, BetChecks,
         ConcludeMoveOk, MayStart, ConcludeSettling, SettleRow, MayOverflow;
    var voiding, r, id := t.program.voiding, t.program.round, t.stage.left[0];
    CommonCommitted(s, t);
    NextIsActive(s.db, t, t.stage.left);
    CommittedBetFits(s.db, id);
    DecisionErrors(voiding, s.db.bets[id], s.db.users, s.db.rounds);
    assert LockGranted(s, t) == t;
    var decided := Decide(voiding, s.db.bets[id], s.db.rounds[r]);
    if decided.Err? {
      CommittedStake(s, id);
      UnsafeDecisionMeansOverflow(s.limits, s.db.bets[id], s.db.users, s.db.rounds);
      ConcludeStopped(s, t, order, Refused(decided.error));
    } else {
      DecidesOne(s, t, decided.value);
      ConcludeWent(s, t, order, Enqueue(BetWritten(s, t, decided.value), DecisionTx(id, decided.value)).next);
    }
  }

  lemma DecisionTxIsSettlement(id: nat, row: Bet)
    requires Payable(row)
    ensures SettlementOf(id, row) == [DecisionTx(id, row)]
  {
  }

  /** The UPDATE always matches its row, so the posting that follows is never unmatched. */
  lemma DecidesOne(s: System, t: Tx, row: Bet)
    requires Common(s, t) && t.program.Conclude? && ConcludeOk(s.db, s.limits, t)
    requires t.stage.Settling? && t.queue == [] && t.stage.left != []
    requires ActiveIn(s.db, t.program.round, t.stage.left[0])
    requires Decide(t.program.voiding, s.db.bets[t.stage.left[0]], s.db.rounds[t.program.round]) == Ok(row)
    requires row.user in s.db.users
    ensures var t2 := BetWritten(s, t, row);
            t2.w == t.w.(bets := t.w.bets[t.stage.left[0] := row]) &&
            Enqueue(t2, DecisionTx(t.stage.left[0], row)).Go? &&
            var next := Enqueue(t2, DecisionTx(t.stage.left[0], row)).next;
            RowsLocked(s.db, next) && AccountsKnown(s.db, next) && MoneyTracked(s.db, next) &&
            LocksKnown(s.db, s.nextBet, next) && ConcludeOk(s.db, s.limits, next)
  {
    hide Common, CommittedOk, Consistent, RowsLocked, AccountsKnown, MoneyTracked, LocksKnown, BetFits, Payable,
         ConcludeSettling, Decide, DecisionTx, PayoutQueue, EscrowFirst, MayStart, Enqueue;
    var db, id := s.db, t.stage.left[0];
    CommonCommitted(s, t);
    NextIsActive(db, t, t.stage.left);
    CommittedBetFits(db, id);
    DecisionFits(t.program.voiding, db.bets[id], db.users, db.rounds);
    SettlingMatches(s, t, row);
    SettlingTracks(s, t, row);
    SettlingContinues(s, t, row);
  }

  lemma SettlingMatches(s: System, t: Tx, row: Bet)
    requires t.program.Conclude? && t.stage.Settling? && t.stage.left != []
    requires ConcludeSettling(s.db, t, t.stage.left) && t.stage.left[0] !in t.ids
    requires ActiveIn(s.db, t.program.round, t.stage.left[0])
    ensures BetWritten(s, t, row).w == t.w.(bets := t.w.bets[t.stage.left[0] := row])
  {
    hide Decide, ActiveBetsOf, PayoutQueue, EscrowFirst;
  }

  /** Writing the bet's row touches no account. */
  lemma SettlingBuffers(s: System, t: Tx, row: Bet)
    requires t.stage.Settling? && t.stage.left != [] && t.queue == []
    requires BetWritten(s, t, row).w == t.w.(bets := t.w.bets[t.stage.left[0] := row])
    requires BetLock(t.stage.left[0]) in t.locks
    requires RowsLocked(s.db, t) && AccountsKnown(s.db, t) && MoneyTracked(s.db, t)
    ensures var t2 := BetWritten(s, t, row);
            RowsLocked(s.db, t2) && AccountsKnown(s.db, t2) && MoneyTracked(s.db, t2)
  {
    hide UpdateIfActive;
    var t2 := BetWritten(s, t, row);
    forall a ensures Buffered(s.db, t2, a) + Net(t2.queue, a) == EntrySum(t2.w.journal, a) {
      assert Buffered(s.db, t, a) + Net(t.queue, a) == EntrySum(t.w.journal, a);
    }
  }

  lemma SettlingTracks(s: System, t: Tx, row: Bet)
    requires Common(s, t) && t.program.Conclude? && t.stage.Settling? && t.stage.left != [] && t.queue == []
    requires BetWritten(s, t, row).w == t.w.(bets := t.w.bets[t.stage.left[0] := row])
    requires BetLock(t.stage.left[0]) in t.locks && Payable(row) && row.user in s.db.users
    ensures var t2, tx := BetWritten(s, t, row), DecisionTx(t.stage.left[0], row);
            var next := t2.(w := t2.w.(journal := t2.w.journal + [tx]), queue := Sorted(tx.postings));
            Enqueue(t2, tx) == Go(next) && next.queue != [] && next.queue[0].account == Escrow &&
            RowsLocked(s.db, next) && AccountsKnown(s.db, next) && MoneyTracked(s.db, next) &&
            LocksKnown(s.db, s.nextBet, next) && PayoutQueue(s.db, next.queue) && PaysOnly(next.queue, row.user)
  {
    hide Common, CommittedOk, Consistent, LocksKnown, Payable, SettlementOf, PostingsKnown, DecisionTx,
         BalancesMatchJournal, PayoutQueue, PaysOnly, UpdateIfActive, RowsLocked, AccountsKnown, MoneyTracked, Balanced;
    var id, t2 := t.stage.left[0], BetWritten(s, t, row);
    CommonCommitted(s, t);
    CommonKnows(s, t);
    SettlingBuffers(s, t, row);
    DecisionTxIsSettlement(id, row);
    SettlementsAreBalanced(id, row);
    SettlementQueue(s.db, id, row);
    SettlementPostingsKnown(s.db, t2, id, row);
    EnqueueTracks(s.db, t2, DecisionTx(id, row));
    LocksKnownSame(s.db, s.nextBet, t, Enqueue(t2, DecisionTx(id, row)).next);
  }

  lemma SettlingContinues(s: System, t: Tx, row: Bet)
    requires t.program.Conclude? && t.stage.Settling? && t.stage.left != [] && t.queue == []
    requires ConcludeSettling(s.db, t, t.stage.left) && t.stage.left[0] !in t.ids
    requires ActiveIn(s.db, t.program.round, t.stage.left[0]) && Payable(row)
    requires t.program.round in s.db.rounds
    requires Decide(t.program.voiding, s.db.bets[t.stage.left[0]], s.db.rounds[t.program.round]) == Ok(row)
    requires (t.ids + [t.stage.left[0]]) + t.stage.left[1..] == t.ids + t.stage.left
    requires BetWritten(s, t, row).w == t.w.(bets := t.w.bets[t.stage.left[0] := row])
    ensures var t2, tx := BetWritten(s, t, row), DecisionTx(t.stage.left[0], row);
            var next := t2.(w := t2.w.(journal := t2.w.journal + [tx]), queue := Sorted(tx.postings));
            PayoutQueue(s.db, next.queue) && PaysOnly(next.queue, s.db.bets[t.stage.left[0]].user) &&
            next.queue != [] && next.queue[0].account == Escrow ==>
              ConcludeSettling(s.db, next, t.stage.left[1..])
  {
    hide Decide, ConcludeSettling, ActiveBetsOf, Decidable, PayoutQueue, PaysOnly, Payable, SettlementOf, DecisionTx,
         UpdateIfActive, DecidedRows, BatchWrites, Sorted;
    var id, ids, r, voiding := t.stage.left[0], t.ids, t.program.round, t.program.voiding;
    var t2, tx := BetWritten(s, t, row), DecisionTx(id, row);
    var next := t2.(w := t2.w.(journal := t2.w.journal + [tx]), queue := Sorted(tx.postings));
    DecisionTxIsSettlement(id, row);
    SettlingSoFar(s.db, t, t.stage.left);
    BatchGrows(voiding, s.db, r, ids, id);
    DecidableIsDefined(voiding, s.db, r, next.ids);
    if PayoutQueue(s.db, next.queue) && PaysOnly(next.queue, s.db.bets[id].user) && next.queue != [] &&
       next.queue[0].account == Escrow
    {
      SettlingExtends(s.db, t, next);
    }
  }

  lemma SettlingSoFar(db: Db, t: Tx, left: seq<nat>)
    requires t.program.Conclude? && ConcludeSettling(db, t, left)
    ensures Decidable(t.program.voiding, db, t.program.round, t.ids)
    ensures forall b | b in t.ids :: b in db.bets && Decide(t.program.voiding, db.bets[b], db.rounds[t.program.round]).Ok?
    ensures t.w == BatchWrites(DecidedRows(t.program.voiding, db, t.program.round, t.ids), t.ids, map[])
  {
    hide Decide, ActiveBetsOf, PayoutQueue, EscrowFirst, BatchWrites, DecidedRows;
  }

  /** Moving one bet from the undecided to the decided ones, with its row and posting in place. */
  lemma SettlingExtends(db: Db, t: Tx, next: Tx)
    requires t.program.Conclude? && t.stage.Settling? && t.stage.left != [] && ConcludeSettling(db, t, t.stage.left)
    requires (t.ids + [t.stage.left[0]]) + t.stage.left[1..] == t.ids + t.stage.left
    requires next == t.(stage := next.stage, ids := t.ids + [t.stage.left[0]], w := next.w, queue := next.queue)
    requires Decidable(t.program.voiding, db, t.program.round, next.ids)
    requires forall b | b in next.ids ::
               b in db.bets && Decide(t.program.voiding, db.bets[b], db.rounds[t.program.round]).Ok?
    requires next.w == BatchWrites(DecidedRows(t.program.voiding, db, t.program.round, next.ids), next.ids, map[])
    requires PayoutQueue(db, next.queue) && next.queue != [] && next.queue[0].account == Escrow
    requires t.stage.left[0] in db.bets && PaysOnly(next.queue, db.bets[t.stage.left[0]].user)
    ensures ConcludeSettling(db, next, t.stage.left[1..])
  {
    hide Decide, ActiveBetsOf, Decidable, PayoutQueue, PaysOnly, DecidedRows, BatchWrites;
  }

  // ---------------------------------------------------------------------------
  // Committing
  // ---------------------------------------------------------------------------

  /** The transaction with the round row written too. */
  function RoundWritten(s: System, t: Tx): Tx
    requires t.program.Conclude? && t.program.round in s.db.rounds
  {
    var r := t.program.round;
    t.(w := t.w.(rounds := t.w.rounds[r := Concluded(t.program.voiding, s.db.rounds[r], s.now)]))
  }

  lemma ConcludedRowFits(voiding: bool, r: Round, now: int)
    requires MayStart(voiding, r) && RoundChecks(r) && TimesFit(r, now)
    ensures var row := Concluded(voiding, r, now);
            TimesFit(row, now) &&
            (RoundChecks(row) ==> MayConclude(voiding, r) && SameTerms(r, row)) &&
            (!RoundChecks(row) ==> voiding && HasResolved(r))
  {
  }

  lemma ConcludeCommits(s: System, t: Tx, order: seq<nat>)
    requires Common(s, t) && t.program.Conclude? && ConcludeOk(s.db, s.limits, t)
    requires t.stage.Settling? && t.queue == [] && t.stage.left == []
    ensures ConcludeMoveOk(s, t, order)
  {
    hide Common, CommittedOk, Consistent, RoundChecks, TimesFit, CommitOk, MoveOk, ConcludeSettling, MayStart,
         Concluded;
    var r := t.program.round;
    CommonCommitted(s, t);
    CommittedRoundFits(s, r);
    ConcludedRowFits(t.program.voiding, s.db.rounds[r], s.now);
    assert LockGranted(s, t) == t;
    if RoundChecks(Concluded(t.program.voiding, s.db.rounds[r], s.now)) {
      ConcludeCommitOk(s, t);
      CommittedMove(s.db, s.now, s.nextBet, s.limits, RoundWritten(s, t), Committed);
    } else {
      ConcludeStopped(s, t, order, Refused(CheckViolation));
    }
  }

  lemma ConcludeCommitOk(s: System, t: Tx)
    requires Common(s, t) && t.program.Conclude? && t.program.round in s.db.rounds
    requires t.stage.Settling? && t.queue == [] && t.stage.left == [] && ConcludeSettling(s.db, t, [])
    requires MayConclude(t.program.voiding, s.db.rounds[t.program.round])
    requires var row := Concluded(t.program.voiding, s.db.rounds[t.program.round], s.now);
             TimesFit(row, s.now) && SameTerms(s.db.rounds[t.program.round], row)
    ensures CommitOk(s.db, s.now, s.nextBet, s.limits, RoundWritten(s, t))
  {
    hide Common, CommittedOk, Consistent, MayConclude, TimesFit, SameTerms, Concluded, Decide, EffectsLocked,
         MoneyTracked, AccountsKnown, RowsLocked, ConcludeSettling, BetsWrittenFit, ClockOk, CommitOk;
    var voiding, r, last := t.program.voiding, t.program.round, RoundWritten(s, t);
    CommonCommitted(s, t);
    SettledWrites(s, t);
    ConcludeKeeps(voiding, s.db, r, t.ids, s.now);
    ConcludeEffectsLocked(s, t);
    ConcludeWritesFit(s, t);
    RoundWrittenTracks(s, t);
    ReadyToCommit(s, last);
  }

  /** Settling never pays a crash bet: its winners cashed out before. */
  lemma OnlyRouletteWins(voiding: bool, b: Bet, r: Round)
    requires Decide(voiding, b, r).Ok?
    ensures Decide(voiding, b, r).value.status == Won ==> r.game != CrashGame
    ensures Decide(voiding, b, r).value.stake == b.stake && Decide(voiding, b, r).value.round == b.round
  {
  }

  lemma ConcludeWritesFit(s: System, t: Tx)
    requires CommittedOk(s) && t.program.Conclude? && t.program.round in s.db.rounds && ConcludeSettling(s.db, t, [])
    requires forall b: nat | BetLock(b) in t.locks :: b < s.nextBet
    requires SameTerms(s.db.rounds[t.program.round],
                       Concluded(t.program.voiding, s.db.rounds[t.program.round], s.now))
    ensures BetsWrittenFit(s, RoundWritten(s, t).w)
  {
    hide CommittedOk, Decide, PayoutQueue, EscrowFirst, PaysLast, BatchJournal, ShownBy, Concluded, Distinct;
    var voiding, r, w := t.program.voiding, t.program.round, RoundWritten(s, t).w;
    assert t.ids + [] == t.ids;
    forall b | b in w.bets
      ensures b < s.nextBet && w.bets[b].stake <= s.limits.maxStake
      ensures w.bets[b].round in s.db.rounds + w.rounds &&
              PaidInTime(w.bets[b], (s.db.rounds + w.rounds)[w.bets[b].round], s.now)
    {
      assert BetLock(b) in t.locks;
      CommittedStake(s, b);
      OnlyRouletteWins(voiding, s.db.bets[b], s.db.rounds[r]);
    }
  }

  lemma RoundWrittenTracks(s: System, t: Tx)
    requires t.program.Conclude? && t.program.round in s.db.rounds
    requires MoneyTracked(s.db, t) && AccountsKnown(s.db, t)
    ensures MoneyTracked(s.db, RoundWritten(s, t)) && AccountsKnown(s.db, RoundWritten(s, t))
  {
    var last := RoundWritten(s, t);
    forall a ensures Buffered(s.db, last, a) + Net(last.queue, a) == EntrySum(last.w.journal, a) {
      assert Buffered(s.db, t, a) + Net(t.queue, a) == EntrySum(t.w.journal, a);
    }
  }

  lemma SettledWrites(s: System, t: Tx)
    requires t.program.Conclude? && t.program.round in s.db.rounds && ConcludeSettling(s.db, t, [])
    ensures Decidable(t.program.voiding, s.db, t.program.round, t.ids)
    ensures ActiveBetsOf(s.db, t.program.round, t.ids)
    ensures forall b | b in t.ids ::
              b in s.db.bets && Decide(t.program.voiding, s.db.bets[b], s.db.rounds[t.program.round]).Ok?
    ensures RoundWritten(s, t).w == ConcludeWrites(t.program.voiding, s.db, t.program.round, t.ids, s.now)
  {
    hide Decide, PayoutQueue, EscrowFirst, BatchJournal;
    assert t.ids + [] == t.ids;
  }

  lemma ConcludeEffectsLocked(s: System, t: Tx)
    requires Common(s, t) && t.program.Conclude? && t.program.round in s.db.rounds && ConcludeSettling(s.db, t, [])
    requires SameTerms(s.db.rounds[t.program.round],
                       Concluded(t.program.voiding, s.db.rounds[t.program.round], s.now))
    ensures EffectsLocked(s.db, RoundWritten(s, t))
    ensures forall b | b in t.w.bets :: b < s.nextBet
  {
    hide Common, CommittedOk, Consistent, ConcludeSettling, BetsFit, RoundsFit, AccountsKnown, MoneyTracked, SameTerms,
         Concluded, SamePlacement, DecidedRows, Decide, BatchJournal, ClockOk;
    CommonCommitted(s, t);
    ConsistentBets(s.db);
    SettledWrites(s, t);
    SettledBetsLocked(s.db, t);
    SettledChangesFit(s.db, t);
    assert RoundLock(t.program.round) in t.locks by { ConcludeHoldsRound(s.db, t); }
  }

  lemma ConcludeHoldsRound(db: Db, t: Tx)
    requires t.program.Conclude? && ConcludeSettling(db, t, [])
    ensures RoundLock(t.program.round) in t.locks && t.w.users == map[] && t.w.rounds == map[]
  {
    hide Decide, PayoutQueue, EscrowFirst, PaysLast, BatchJournal, ActiveBetsOf, Decidable, DecidedRows;
  }

  lemma SettledBetsLocked(db: Db, t: Tx)
    requires t.program.Conclude? && ConcludeSettling(db, t, [])
    ensures forall b | b in t.w.bets :: b in db.bets && BetLock(b) in t.locks
    ensures t.w.users == map[] && t.w.rounds == map[]
  {
    hide Decide, PayoutQueue, EscrowFirst, PaysLast, BatchJournal, Distinct;
    assert t.ids + [] == t.ids;
  }

  lemma SettledChangesFit(db: Db, t: Tx)
    requires t.program.Conclude? && ConcludeSettling(db, t, []) && BetsFit(db.users, db.bets, db.rounds)
    ensures forall b | b in t.w.bets :: BetChangeFits(db.bets, t.w, b)
  {
    hide Decide, PayoutQueue, EscrowFirst, PaysLast, BatchJournal, BetsFit, ActiveBetsOf, Payable, SamePlacement,
         Distinct;
    DecidedRowsFit(t.program.voiding, db, t.program.round, t.ids);
    forall b | b in t.w.bets ensures BetChangeFits(db.bets, t.w, b) {
      PayableIsSettled(t.w.bets[b]);
    }
  }

  lemma ConcludeMove(s: System, t: Tx, order: seq<nat>)
    requires Common(s, t) && t.program.Conclude? && !t.stage.Done? && ConcludeOk(s.db, s.limits, t)
    requires OrderOk(s, t, order)
    ensures ConcludeMoveOk(s, t, order)
  {
    hide Common, ConcludeMoveOk, ConcludeSettling, ConcludeLocking;
    match t.stage
    case Start => ConcludeStarts(s, t, order);
    case Snapshot => ConcludeSnapshots(s, t, order);
    case Locking(todo, _) => if todo == [] { ConcludeTurnsToSettling(s, t, order); } else { ConcludeLocks(s, t, order); }
    case Settling(left) =>
      if t.queue != [] { ConcludePosts(s, t, order); }
      else if left != [] { ConcludeDecides(s, t, order); }
      else { ConcludeCommits(s, t, order); }
    case _ => assert false;
  }
}
