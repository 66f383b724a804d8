/** What one transaction knows survives whatever the others commit. */
module InterleavingRely {
  import opened Prelude
  import opened Money
  import opened CrashCurve
  import opened Roulette
  import opened Ledger
  import opened Tables
  import opened Operations
  import opened Interleaving
  import opened InterleavingState

  lemma PlaceSurvives(db: Db, after: Db, limits: Limits, t: Tx)
    requires t.program.PlaceBet? && PlaceOk(db, limits, t) && Steady(db, after, t)
    ensures PlaceOk(after, limits, t)
  {
    hide PlaceDraining, PriceSelection;
    var p := t.program;
    match t.stage
    case Draining => PlaceDrainingSurvives(db, after, t);
    case ReadBack =>
      var b: nat :| HasKey(db, p.user, p.key, b);
      assert HasKey(after, p.user, p.key, b);
    case _ =>
  }

  lemma PlaceDrainingSurvives(db: Db, after: Db, t: Tx)
    requires t.program.PlaceBet? && PlaceDraining(db, t) && Steady(db, after, t)
    ensures PlaceDraining(after, t)
  {
    hide PriceSelection, PlaceQueue, NewBet;
    var p := t.program;
    var id := t.ids[0];
    var row := t.w.bets[id];
    assert BalanceLock(Wallet(p.user)) in t.locks && KeyLock(p.user, p.key) in t.locks && BetLock(id) in t.locks;
    forall c | c in after.bets ensures after.bets[c].user != row.user || after.bets[c].key != row.key {
    }
    assert MayPlace(after, id, row);
  }

  lemma CashSurvives(db: Db, after: Db, now: int, limits: Limits, t: Tx)
    requires t.program.CashOut? && CashOk(db, now, limits, t) && Steady(db, after, t)
    ensures CashOk(after, now, limits, t)
  {
    hide CashOutRow, BatchWrites, EscrowFirst, AccountsSteady, MultiplierAtElapsed, MayOverflow;
    match t.stage
    case Paying(_) =>
      assert BetLock(t.program.bet) in t.locks;
      PayoutQueueSurvives(db, after, t);
    case _ =>
  }

  lemma PayoutQueueSurvives(db: Db, after: Db, t: Tx)
    requires PayoutQueue(db, t.queue) && Steady(db, after, t)
    ensures PayoutQueue(after, t.queue)
  {
  }

  lemma ConcludeSurvives(db: Db, after: Db, limits: Limits, t: Tx)
    requires t.program.Conclude? && ConcludeOk(db, limits, t) && Steady(db, after, t)
    ensures ConcludeOk(after, limits, t)
  {
    hide MayOverflow, ConcludeSettling, ConcludeLocking;
    match t.stage
    case Locking(todo, got) => LockingSurvives(db, after, t, todo, got);
    case Settling(left) => SettlingSurvives(db, after, t, left);
    case _ =>
  }

  lemma LockingSurvives(db: Db, after: Db, t: Tx, todo: seq<nat>, got: seq<nat>)
    requires t.program.Conclude? && ConcludeLocking(db, t, todo, got) && Steady(db, after, t)
    ensures ConcludeLocking(after, t, todo, got) && RoundLock(t.program.round) in t.locks
  {
    hide AccountsSteady, Distinct;
    var r := t.program.round;
    assert RoundLock(r) in t.locks;
    forall b | b in got ensures ActiveIn(after, r, b) {
      assert BetLock(b) in t.locks;
    }
    forall b | ActiveIn(after, r, b) ensures b in got || b in todo {
      assert ActiveIn(db, r, b);
    }
  }

  lemma SettlingSurvives(db: Db, after: Db, t: Tx, left: seq<nat>)
    requires t.program.Conclude? && ConcludeSettling(db, t, left) && Steady(db, after, t)
    requires t.program.round in db.rounds
    ensures ConcludeSettling(after, t, left) && RoundLock(t.program.round) in t.locks
  {
    hide ConcludeSettling, Steady, Decidable, Decide, BatchWrites, DecidedRows, EscrowFirst, PayoutQueue, Distinct,
         ActiveBetsOf, PaysLast;
    SettlingBetsSurvive(db, after, t, left);
    DecidableSurvives(db, after, t, left);
    PayoutQueueSurvives(db, after, t);
    PaysLastSurvives(db, after, t, left);
    SettlingFields(db, after, t, left);
  }

  lemma SettlingBetsSurvive(db: Db, after: Db, t: Tx, left: seq<nat>)
    requires t.program.Conclude? && ConcludeSettling(db, t, left) && Steady(db, after, t)
    requires t.program.round in db.rounds
    ensures RoundLock(t.program.round) in t.locks && PayoutQueue(db, t.queue)
    ensures t.program.round in after.rounds && after.rounds[t.program.round] == db.rounds[t.program.round]
    ensures forall b | b in t.ids + left :: b in db.bets && b in after.bets && after.bets[b] == db.bets[b]
    ensures ActiveBetsOf(after, t.program.round, t.ids + left)
  {
    hide AccountsSteady, Decide, BatchWrites, EscrowFirst, PayoutQueue, Distinct, PaysLast, Decidable;
    var r := t.program.round;
    forall b | b in t.ids + left ensures b in db.bets && b in after.bets && after.bets[b] == db.bets[b] {
      assert BetLock(b) in t.locks;
    }
    forall b ensures b in t.ids + left <==>
                     b in after.bets && after.bets[b].round == r && after.bets[b].status == Active {
    }
  }

  lemma DecidableSurvives(db: Db, after: Db, t: Tx, left: seq<nat>)
    requires t.program.Conclude? && ConcludeSettling(db, t, left)
    requires t.program.round in after.rounds && t.program.round in db.rounds
    requires after.rounds[t.program.round] == db.rounds[t.program.round]
    requires forall b | b in t.ids + left :: b in db.bets && b in after.bets && after.bets[b] == db.bets[b]
    ensures Decidable(t.program.voiding, after, t.program.round, t.ids)
    ensures Decidable(t.program.voiding, db, t.program.round, t.ids)
    ensures forall b | b in t.ids ::
              Decide(t.program.voiding, after.bets[b], after.rounds[t.program.round]).Ok? &&
              Decide(t.program.voiding, db.bets[b], db.rounds[t.program.round]).Ok?
    ensures DecidedRows(t.program.voiding, after, t.program.round, t.ids) ==
            DecidedRows(t.program.voiding, db, t.program.round, t.ids)
  {
    hide Decide, BatchWrites, EscrowFirst, PayoutQueue, Distinct, PaysLast, ActiveBetsOf;
    forall b | b in t.ids ensures after.bets[b] == db.bets[b] {
      assert b in t.ids + left;
    }
  }

  lemma PaysLastSurvives(db: Db, after: Db, t: Tx, left: seq<nat>)
    requires t.program.Conclude? && ConcludeSettling(db, t, left)
    requires forall b | b in t.ids + left :: b in db.bets && b in after.bets && after.bets[b] == db.bets[b]
    ensures PaysLast(after, t)
  {
    hide Decide, BatchWrites, EscrowFirst, PayoutQueue, Distinct, ActiveBetsOf, PaysOnly, Decidable;
    if t.ids != [] {
      assert t.ids[|t.ids| - 1] in t.ids + left;
    }
  }

  lemma SettlingFields(db: Db, after: Db, t: Tx, left: seq<nat>)
    requires t.program.Conclude? && ConcludeSettling(db, t, left)
    requires t.program.round in after.rounds && t.program.round in db.rounds
    requires ActiveBetsOf(after, t.program.round, t.ids + left)
    requires Decidable(t.program.voiding, after, t.program.round, t.ids)
    requires forall b | b in t.ids ::
               b in after.bets && Decide(t.program.voiding, after.bets[b], after.rounds[t.program.round]).Ok? &&
               b in db.bets && Decide(t.program.voiding, db.bets[b], db.rounds[t.program.round]).Ok?
    requires DecidedRows(t.program.voiding, after, t.program.round, t.ids) ==
             DecidedRows(t.program.voiding, db, t.program.round, t.ids)
    requires PayoutQueue(after, t.queue) && PaysLast(after, t)
    ensures ConcludeSettling(after, t, left)
  {
    hide Decide, BatchWrites, EscrowFirst, PayoutQueue, Distinct, PaysLast, Decidable, DecidedRows;
  }

  lemma StageSurvives(db: Db, after: Db, now: int, limits: Limits, t: Tx)
    requires StageOk(db, now, limits, t) && Steady(db, after, t)
    ensures StageOk(after, now, limits, t)
  {
    hide PlaceOk, CashOk, ConcludeOk;
    match t.program
    case PlaceBet(_, _, _, _, _) => PlaceSurvives(db, after, limits, t);
    case CashOut(_, _) => CashSurvives(db, after, now, limits, t);
    case Conclude(_, _) => ConcludeSurvives(db, after, limits, t);
    case Register(u, _) => assert t.stage.Draining? ==> BalanceLock(Wallet(u)) in t.locks;
    case Advance(r, _) => assert t.stage.Draining? ==> RoundLock(r) in t.locks;
    case OpenRound(_, _, _, _, _, _) =>
  }

  /** Everything known about a transaction is stable under the others' commits. */
  lemma TxSurvives(db: Db, after: Db, now: int, nextBet: nat, limits: Limits, t: Tx)
    requires TxOk(db, now, nextBet, limits, t) && Steady(db, after, t)
    ensures TxOk(after, now, nextBet, limits, t)
  {
    StageSurvives(db, after, now, limits, t);
    hide StageOk;
    forall u | u in t.w.users ensures u !in after.users {
      assert BalanceLock(Wallet(u)) in t.locks;
    }
    forall a ensures Buffered(after, t, a) == Buffered(db, t, a) {
      if a in t.balances {
        assert BalanceLock(a) in t.locks;
      }
    }
    forall a | a in t.balances ensures a in after.balances || (a.Wallet? && a.owner in t.w.users) {
    }
    assert MoneyTracked(after, t) by {
      forall a ensures Buffered(after, t, a) + Net(t.queue, a) == EntrySum(t.w.journal, a) {
        assert Buffered(db, t, a) + Net(t.queue, a) == EntrySum(t.w.journal, a);
      }
    }
  }

  /** Time passing and bet ids being handed out change nothing a transaction relies on. */
  lemma TxSurvivesTime(db: Db, now: int, later: int, nextBet: nat, next: nat, limits: Limits, t: Tx)
    requires TxOk(db, now, nextBet, limits, t) && now <= later && nextBet <= next
    ensures TxOk(db, later, next, limits, t)
  {
    hide PlaceOk, CashDraining, HeldBet, SameRace, CashAnswer, ConcludeOk, RegisterOk, MoneyTracked, AccountsKnown,
         RowsLocked;
  }
}
