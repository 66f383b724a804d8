/** The statements of `placeBet`. */
module InterleavingPlace {
  import opened Prelude
  import opened Money
  import opened Roulette
  import opened Ledger
  import opened Tables
  import opened Operations
  import opened Interleaving
  import opened InterleavingState
  import opened InterleavingPosting
  import opened InterleavingMoves

  /** A transaction with locks but no writes yet has nothing to track. */
  lemma NoBuffers(db: Db, t: Tx)
    requires t.w == NO_WRITES && t.balances == map[] && t.queue == []
    ensures RowsLocked(db, t) && AccountsKnown(db, t) && MoneyTracked(db, t)
  {
  }

  ghost predicate PlaceMoveOk(s: System, nextBet: nat, t: Tx)
    requires t.program.PlaceBet?
  {
    MoveOk(s.db, s.now, nextBet, s.limits, t.program, ActPlaceBet(s.db, s.limits, s.nextBet, LockGranted(s, t)))
  }

  lemma PlaceWent(s: System, nextBet: nat, t: Tx, next: Tx)
    requires t.program.PlaceBet? && ActPlaceBet(s.db, s.limits, s.nextBet, LockGranted(s, t)) == Go(next)
    requires next.program == t.program && PlaceOk(s.db, s.limits, next) && LocksKnown(s.db, nextBet, next)
    requires RowsLocked(s.db, next) && AccountsKnown(s.db, next) && MoneyTracked(s.db, next)
    ensures PlaceMoveOk(s, nextBet, t)
  {
    hide ActPlaceBet, PlaceOk, LocksKnown, RowsLocked, AccountsKnown, MoneyTracked;
  }

  lemma PlaceReads(s: System, t: Tx)
    requires Common(s, t) && t.program.PlaceBet? && PlaceOk(s.db, s.limits, t)
    requires t.stage.Start? || t.stage.Checked? || t.stage.ReadBack?
    ensures PlaceMoveOk(s, s.nextBet, t)
  {
    hide Consistent, ClockOk, MoneyTracked, AccountsKnown, RowsLocked, MoveOk, PriceSelection;
    var m := ActPlaceBet(s.db, s.limits, s.nextBet, LockGranted(s, t));
    if m.Go? {
      NoBuffers(s.db, m.next);
      PlaceWent(s, s.nextBet, t, m.next);
    } else {
      if t.program.round in s.db.rounds {
        PricingErrors(s.db.rounds[t.program.round].game, t.program.selection);
      }
      PlaceStopped(s, t, m.answer);
    }
  }

  lemma PricingErrors(game: Game, s: Option<Selection>)
    ensures PriceSelection(game, s).Err? ==> PriceSelection(game, s).error == InvalidSelection
  {
  }

  lemma PlaceStopped(s: System, t: Tx, a: Answer)
    requires t.program.PlaceBet? && ActPlaceBet(s.db, s.limits, s.nextBet, LockGranted(s, t)) == Stop(a)
    requires PlaceAnswer(s.db, t.program, a)
    ensures PlaceMoveOk(s, s.nextBet, t)
  {
    hide ActPlaceBet, PlaceAnswer;
  }

  lemma PlaceFunds(s: System, t: Tx)
    requires Common(s, t) && t.program.PlaceBet? && PlaceOk(s.db, s.limits, t) && t.stage.RoundHeld?
    ensures PlaceMoveOk(s, s.nextBet, t)
  {
    hide Consistent, ClockOk, MoneyTracked, AccountsKnown, RowsLocked, MoveOk, OpenFor;
    var m := ActPlaceBet(s.db, s.limits, s.nextBet, LockGranted(s, t));
    if m.Go? {
      NoBuffers(s.db, m.next);
      PlaceWent(s, s.nextBet, t, m.next);
    } else {
      PlaceStopped(s, t, m.answer);
    }
  }

  lemma PricedRowPassesChecks(limits: Limits, p: Program, game: Game, odds: Option<nat>)
    requires p.PlaceBet? && InLimits(limits, p) && limits.minStake > 0
    requires PriceSelection(game, p.selection) == Ok(odds)
    ensures BetChecks(NewBet(p.user, p.round, p.stake, p.key, p.selection, odds))
  {
  }

  /** The row about to be inserted, with the key free and its lock held. */
  lemma RowMayBePlaced(s: System, t: Tx, odds: Option<nat>)
    requires CommittedOk(s) && t.program.PlaceBet? && InLimits(s.limits, t.program)
    requires OpenFor(s.db, t.program, odds) && Funded(s.db, t.program)
    requires FindKey(s.db, t.program.user, t.program.key).None?
    ensures var p := t.program;
            MayPlace(s.db, s.nextBet, NewBet(p.user, p.round, p.stake, p.key, p.selection, odds))
  {
    hide Consistent, ClockOk, PriceSelection;
    var p := t.program;
    forall c | c in s.db.bets ensures s.db.bets[c].user != p.user || s.db.bets[c].key != p.key {
      assert !HasKey(s.db, p.user, p.key, c);
    }
  }

  lemma PlaceInserts(s: System, t: Tx)
    requires Common(s, t) && t.program.PlaceBet? && PlaceOk(s.db, s.limits, t) && t.stage.FundsHeld?
    ensures PlaceMoveOk(s, s.nextBet + 1, t)
  {
    hide MoneyTracked, AccountsKnown, Consistent;
    var p, id := t.program, s.nextBet;
    var found := FindKey(s.db, p.user, p.key);
    if found.Some? {
      hide Common, MoveOk, OpenFor, Funded;
      assert HasKey(s.db, p.user, p.key, found.value);
      NoBuffers(s.db, Blank(p, ReadBack));
      PlaceWent(s, s.nextBet + 1, t, Blank(p, ReadBack));
    } else {
      PlaceInsertsNew(s, t, NewBet(p.user, p.round, p.stake, p.key, p.selection, t.stage.odds));
    }
  }

  /** The transaction after the INSERT of the bet, before its posting. */
  function Inserted(s: System, t: Tx, row: Bet): Tx {
    var id := s.nextBet;
    LockGranted(s, t).(stage := Draining, ids := [id], locks := LockGranted(s, t).locks + {BetLock(id)},
                       w := NO_WRITES.(bets := map[id := row]))
  }

  lemma PlaceInsertsNew(s: System, t: Tx, row: Bet)
    requires Common(s, t) && t.program.PlaceBet? && PlaceOk(s.db, s.limits, t) && t.stage.FundsHeld?
    requires FindKey(s.db, t.program.user, t.program.key).None?
    requires var p := t.program; row == NewBet(p.user, p.round, p.stake, p.key, p.selection, t.stage.odds)
    ensures PlaceMoveOk(s, s.nextBet + 1, t)
  {
    hide Common, Consistent, ClockOk, MoveOk, MayPlace, BetChecks, OpenFor, Funded, PlaceDraining, PlaceMoveOk, FindKey,
         MoneyTracked, AccountsKnown, RowsLocked, Balanced, PriceSelection, LocksKnown;
    var next := InsertedPosting(s, t, row);
    InsertIsAllowed(s, t, row);
    InsertTracks(s, t, row);
    InsertedIsDraining(s, t, row);
    InsertGoes(s, t, row);
    PlaceWent(s, s.nextBet + 1, t, next);
  }

  /** The transaction with the posting of the new bet queued, in account order. */
  function InsertedPosting(s: System, t: Tx, row: Bet): Tx
    requires t.program.PlaceBet?
  {
    var t2 := Inserted(s, t, row);
    t2.(w := t2.w.(journal := t2.w.journal + [PlacedTx(s.nextBet, row)]), queue := PlaceQueue(t.program))
  }

  lemma InsertIsAllowed(s: System, t: Tx, row: Bet)
    requires Common(s, t) && t.program.PlaceBet? && PlaceOk(s.db, s.limits, t) && t.stage.FundsHeld?
    requires FindKey(s.db, t.program.user, t.program.key).None?
    requires var p := t.program; row == NewBet(p.user, p.round, p.stake, p.key, p.selection, t.stage.odds)
    ensures MayPlace(s.db, s.nextBet, row) && BetChecks(row) && HasPlacement(row, t.program) && row.stake > 0
    ensures BalancesMatchJournal(s.db)
  {
    hide Consistent, ClockOk, MoneyTracked, AccountsKnown, RowsLocked, FindKey;
    CommonKnows(s, t);
    RowMayBePlaced(s, t, t.stage.odds);
    PricedRowPassesChecks(s.limits, t.program, s.db.rounds[t.program.round].game, t.stage.odds);
  }

  lemma InsertTracks(s: System, t: Tx, row: Bet)
    requires Common(s, t) && t.program.PlaceBet? && PlaceOk(s.db, s.limits, t) && t.stage.FundsHeld?
    requires MayPlace(s.db, s.nextBet, row) && HasPlacement(row, t.program) && row.stake > 0
    requires BalancesMatchJournal(s.db)
    ensures var next := InsertedPosting(s, t, row);
            Enqueue(Inserted(s, t, row), PlacedTx(s.nextBet, row)) == Go(next) &&
            RowsLocked(s.db, next) && AccountsKnown(s.db, next) && MoneyTracked(s.db, next)
  {
    hide Common, Consistent, MoneyTracked, AccountsKnown, Balanced, RowsLocked, PriceSelection, FindKey;
    var p, t2 := t.program, Inserted(s, t, row);
    NoBuffersButABet(s, t2);
    PlacementIsBalanced(s.nextBet, row);
    SortedPair(Posting(Wallet(p.user), Negate(p.stake)), Posting(Escrow, p.stake));
    EnqueueTracks(s.db, t2, PlacedTx(s.nextBet, row));
  }

  lemma InsertGoes(s: System, t: Tx, row: Bet)
    requires Common(s, t) && t.program.PlaceBet? && PlaceOk(s.db, s.limits, t) && t.stage.FundsHeld?
    requires FindKey(s.db, t.program.user, t.program.key).None? && BetChecks(row)
    requires var p := t.program; row == NewBet(p.user, p.round, p.stake, p.key, p.selection, t.stage.odds)
    requires Enqueue(Inserted(s, t, row), PlacedTx(s.nextBet, row)) == Go(InsertedPosting(s, t, row))
    ensures ActPlaceBet(s.db, s.limits, s.nextBet, LockGranted(s, t)) == Go(InsertedPosting(s, t, row))
    ensures InsertedPosting(s, t, row).program == t.program
    ensures LocksKnown(s.db, s.nextBet + 1, InsertedPosting(s, t, row))
  {
    hide CommittedOk, MoneyTracked, AccountsKnown, RowsLocked, FindKey, BetChecks, NewBet, Enqueue, PlacedTx,
         PlaceQueue, OpenFor, Funded;
    assert map[][s.nextBet := row] == map[s.nextBet := row];
  }

  lemma NoBuffersButABet(s: System, t: Tx)
    requires t.w == NO_WRITES.(bets := t.w.bets) && t.balances == map[] && t.queue == []
    requires forall b | b in t.w.bets :: BetLock(b) in t.locks
    ensures RowsLocked(s.db, t) && AccountsKnown(s.db, t) && MoneyTracked(s.db, t)
  {
  }

  lemma InsertedIsDraining(s: System, t: Tx, row: Bet)
    requires t.program.PlaceBet? && PlaceOk(s.db, s.limits, t) && t.stage.FundsHeld?
    requires MayPlace(s.db, s.nextBet, row) && HasPlacement(row, t.program)
    ensures var t2 := Inserted(s, t, row);
            PlaceDraining(s.db, t2.(w := t2.w.(journal := t2.w.journal + [PlacedTx(s.nextBet, row)]),
                                    queue := PlaceQueue(t.program)))
  {
    hide MayPlace, OpenFor, Funded;
  }

  lemma PlacePosts(s: System, t: Tx)
    requires Common(s, t) && t.program.PlaceBet? && t.stage.Draining? && PlaceOk(s.db, s.limits, t) && t.queue != []
    ensures PlaceMoveOk(s, s.nextBet, t)
  {
    hide Common, Consistent, CommittedOk, MoveOk, MayPlace, HeadCovered, MoneyTracked, AccountsKnown, RowsLocked,
         PlaceMoveOk, PlaceDraining, Wants, PlaceWrites;
    var db, t1 := s.db, LockGranted(s, t);
    CommonCommitted(s, t);
    PlaceHeadCovered(s, t);
    PostingGranted(s, t);
    SameMoney(db, t, t1);
    PostOneSucceeds(db, t1);
    PlaceDrains(db, t, t1);
    PlaceWent(s, s.nextBet, t, PostedTx(db, t1));
  }

  lemma PlaceDrains(db: Db, t: Tx, t1: Tx)
    requires t.program.PlaceBet? && PlaceDraining(db, t) && t.queue != []
    requires t1 == t.(locks := t.locks + {BalanceLock(t.queue[0].account)})
    ensures PlaceDraining(db, PostedTx(db, t1))
  {
    hide MayPlace, PlaceWrites;
    var next, p := PostedTx(db, t1), t.program;
    assert t.queue == PlaceQueue(p) ==> next.queue == PlaceQueue(p)[1..];
  }

  lemma EscrowBalanceNonNegative(db: Db)
    requires Consistent(db)
    ensures BaseBalance(db, Escrow) >= 0
  {
    FittingAmounts(db);
    EscrowIsNonNegative(db);
  }

  /** The wallet was found to cover the stake under its lock, and escrow is only credited. */
  lemma PlaceHeadCovered(s: System, t: Tx)
    requires Common(s, t) && t.program.PlaceBet? && PlaceDraining(s.db, t) && t.queue != []
    ensures HeadCovered(s.db, LockGranted(s, t))
  {
    var db, p := s.db, t.program;
    EscrowBalanceNonNegative(db);
    hide Consistent, ClockOk;
    if t.queue == PlaceQueue(p) {
    } else {
      var w := Wallet(p.user);
      PlacedNet(t.ids[0], t.w.bets[t.ids[0]], w);
      EntrySumOne(PlacedTx(t.ids[0], t.w.bets[t.ids[0]]), w);
      assert Buffered(db, t, w) + Net(t.queue, w) == EntrySum(t.w.journal, w);
      assert t.queue == [Posting(w, Negate(p.stake))];
      assert Net(t.queue, w) == Negate(p.stake) + Net(t.queue[1..], w);
    }
  }

  lemma PlaceCommits(s: System, t: Tx)
    requires Common(s, t) && t.program.PlaceBet? && t.stage.Draining? && PlaceOk(s.db, s.limits, t) && t.queue == []
    ensures PlaceMoveOk(s, s.nextBet, t)
  {
    hide Common, MoveOk, CommitOk;
    PlaceCommitOk(s, t);
    var id := t.ids[0];
    hide MayPlace;
    assert HasKey(Apply(s.db, t.w), t.program.user, t.program.key, id);
    hide PlaceDraining, Apply;
    CommittedMove(s.db, s.now, s.nextBet, s.limits, t, Answered(id));
  }

  lemma PlaceCommitOk(s: System, t: Tx)
    requires Common(s, t) && t.program.PlaceBet? && t.stage.Draining? && PlaceOk(s.db, s.limits, t) && t.queue == []
    ensures CommitOk(s.db, s.now, s.nextBet, s.limits, t) && |t.ids| == 1
  {
    hide MayPlace, Common, CommittedOk, MoneyTracked, AccountsKnown, Consistent, EffectsLocked, RowsLocked, ClockOk,
         BetsWrittenFit;
    CommonCommitted(s, t);
    PlaceEffectsLocked(s.db, t);
    PlaceWritesFit(s, t);
    PlaceKeeps(s.db, t.ids[0], t.w.bets[t.ids[0]]);
    ReadyToCommit(s, t);
  }

  lemma PlaceWritesFit(s: System, t: Tx)
    requires t.program.PlaceBet? && InLimits(s.limits, t.program) && PlaceDraining(s.db, t)
    requires forall b: nat | BetLock(b) in t.locks :: b < s.nextBet
    ensures BetsWrittenFit(s, t.w) && t.w.rounds == map[]
  {
    hide PriceSelection, ShownBy;
    assert BetLock(t.ids[0]) in t.locks;
  }

  lemma PlaceEffectsLocked(db: Db, t: Tx)
    requires t.program.PlaceBet? && PlaceDraining(db, t) && t.queue == [] && RowsLocked(db, t)
    ensures EffectsLocked(db, t)
  {
    hide OpenFor, Funded, PriceSelection;
  }

  lemma PlaceMove(s: System, t: Tx)
    requires Common(s, t) && t.program.PlaceBet? && !t.stage.Done? && PlaceOk(s.db, s.limits, t)
    ensures PlaceMoveOk(s, if t.stage.FundsHeld? then s.nextBet + 1 else s.nextBet, t)
  {
    hide Common, PlaceMoveOk, PlaceDraining;
    match t.stage
    case RoundHeld(_) => PlaceFunds(s, t);
    case FundsHeld(_) => PlaceInserts(s, t);
    case Draining => if t.queue != [] { PlacePosts(s, t); } else { PlaceCommits(s, t); }
    case _ => PlaceReads(s, t);
  }
}
