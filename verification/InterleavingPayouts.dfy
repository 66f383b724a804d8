/** The statements of `cashOut`, and of `settleRound` and `voidRound`. */
module InterleavingPayouts {
  import opened Prelude
  import opened Money
  import opened CrashCurve
  import opened Roulette
  import opened Ledger
  import opened Tables
  import opened Operations
  import opened Interleaving
  import opened InterleavingState
  import opened InterleavingPosting
  import opened InterleavingMoves
  import opened InterleavingPlace

  // ---------------------------------------------------------------------------
  // Shared: one posting of a pay-out
  // ---------------------------------------------------------------------------

  lemma PayoutAfterOne(db: Db, t: Tx, t1: Tx)
    requires t.queue != [] && t1 == t.(locks := t.locks + {BalanceLock(t.queue[0].account)})
    requires PayoutQueue(db, t.queue) && EscrowFirst(t)
    ensures PayoutQueue(db, PostedTx(db, t1).queue) && EscrowFirst(PostedTx(db, t1))
  {
    forall i | 0 <= i < |t.queue[1..]| ensures t.queue[1..][i] == t.queue[i + 1] {
    }
  }

  lemma PaysOnlyAfterOne(q: seq<Posting>, owner: nat)
    requires q != [] && PaysOnly(q, owner)
    ensures PaysOnly(q[1..], owner)
  {
    forall i | 0 <= i < |q[1..]| ensures q[1..][i] == q[i + 1] {
    }
  }

  lemma PayoutPosts(s: System, t: Tx, rows: map<nat, Bet>)
    requires Common(s, t) && t.queue != [] && BatchFits(s.db, rows, t.ids)
    requires t.w.journal == BatchJournal(rows, t.ids)
    requires PayoutQueue(s.db, t.queue) && EscrowFirst(t)
    ensures var t1 := LockGranted(s, t);
            PostOne(s.db, t1) == Go(PostedTx(s.db, t1)) &&
            RowsLocked(s.db, PostedTx(s.db, t1)) && AccountsKnown(s.db, PostedTx(s.db, t1)) &&
            MoneyTracked(s.db, PostedTx(s.db, t1)) && LocksKnown(s.db, s.nextBet, PostedTx(s.db, t1)) &&
            PayoutQueue(s.db, PostedTx(s.db, t1).queue) && EscrowFirst(PostedTx(s.db, t1))
  {
    CommonCommitted(s, t);
    hide CommittedOk, BatchFits, PayoutQueue, EscrowFirst, Consistent;
    PayoutHeadCovered(s.db, t, rows);
    var t1 := LockGranted(s, t);
    assert t1 == t.(locks := t.locks + {BalanceLock(t.queue[0].account)});
    SameMoney(s.db, t, t1);
    hide MoneyTracked;
    PostOneSucceeds(s.db, t1);
    PayoutAfterOne(s.db, t, t1);
  }

  // ---------------------------------------------------------------------------
  // Cashing out
  // ---------------------------------------------------------------------------

  ghost predicate CashMoveOk(s: System, t: Tx)
    requires t.program.CashOut?
  {
    MoveOk(s.db, s.now, s.nextBet, s.limits, t.program, ActCashOut(s.db, s.now, LockGranted(s, t)))
  }

  lemma CashWent(s: System, t: Tx, next: Tx)
    requires t.program.CashOut? && ActCashOut(s.db, s.now, LockGranted(s, t)) == Go(next)
    requires next.program == t.program && CashOk(s.db, s.now, s.limits, next) && LocksKnown(s.db, s.nextBet, next)
    requires RowsLocked(s.db, next) && AccountsKnown(s.db, next) && MoneyTracked(s.db, next)
    ensures CashMoveOk(s, t)
  {
    hide ActCashOut, CashOk, LocksKnown, RowsLocked, AccountsKnown, MoneyTracked;
  }

  lemma CashStopped(s: System, t: Tx, a: Answer)
    requires t.program.CashOut? && ActCashOut(s.db, s.now, LockGranted(s, t)) == Stop(a)
    requires CashAnswer(s.db, s.limits, t.program, a)
    ensures CashMoveOk(s, t)
  {
    hide ActCashOut, CashAnswer;
  }

  lemma CommittedBetFits(db: Db, b: nat)
    requires Consistent(db) && b in db.bets
    ensures BetFits(db.bets[b], db.users, db.rounds) && db.bets[b].round in db.rounds
  {
    hide JournalMatchesRows, BalancesMatchJournal, RoundsFit, NoWalletOverdrawn, AllBalanced;
    assert BetFits(db.bets[b], db.users, db.rounds);
  }

  lemma CashLocks(s: System, t: Tx)
    requires Common(s, t) && t.program.CashOut? && CashOk(s.db, s.now, s.limits, t) && t.stage.Start?
    ensures CashMoveOk(s, t)
  {
    hide CommittedOk, Consistent, MoneyTracked, AccountsKnown, RowsLocked, MoveOk, BetFits;
    CommonCommitted(s, t);
    if t.program.bet in s.db.bets {
      CommittedBetFits(s.db, t.program.bet);
    }
    var m := ActCashOut(s.db, s.now, LockGranted(s, t));
    hide CashMoveOk;
    if m.Go? {
      NoBuffers(s.db, m.next);
      CashWent(s, t, m.next);
    } else {
      CashStopped(s, t, m.answer);
    }
  }

  lemma CashReadsRound(s: System, t: Tx)
    requires Common(s, t) && t.program.CashOut? && CashOk(s.db, s.now, s.limits, t) && t.stage.BetHeld?
    ensures CashMoveOk(s, t)
  {
    hide CommittedOk, MoneyTracked, AccountsKnown, RowsLocked, MoveOk;
    assert LockGranted(s, t) == t;
    var m := ActCashOut(s.db, s.now, t);
    if m.Go? {
      NoBuffers(s.db, m.next);
      CashWent(s, t, m.next);
    } else {
      CashStopped(s, t, m.answer);
    }
  }

  /** The price read from the round and the clock is one the bet may be cashed out at. */
  lemma QuoteFits(s: System, t: Tx)
    requires CommittedOk(s) && t.program.CashOut? && CashOk(s.db, s.now, s.limits, t) && t.stage.Quoted?
    requires t.stage.seen.crashPoint.Some? && PriceAt(t.stage.seen, s.now) < t.stage.seen.crashPoint.value
    ensures MayCashOut(s.db, t.program.bet, s.now)
    ensures PriceAt(s.db.rounds[s.db.bets[t.program.bet].round], s.now) == PriceAt(t.stage.seen, s.now)
    ensures var row := PaidRow(s.db, t.program.bet, s.now);
            BetChecks(row) && Payable(row) && row.status == Won && row.user == t.program.user && row.user in s.db.users
  {
    var b := t.program.bet;
    CommittedBetFits(s.db, b);
    hide Consistent, ClockOk, MultiplierAtElapsed, OnTheCurve;
    var r := s.db.rounds[s.db.bets[b].round];
    PriceIsOnTheCurve(r, s.now);
    CashOutRowFits(s.db.bets[b], PriceAt(r, s.now), s.db.users, s.db.rounds);
  }

  lemma OnlyUnsafe(amount: nat, bp: nat)
    ensures ApplyBasisPoints(amount, bp).Err? ==> ApplyBasisPoints(amount, bp).error == Unsafe
  {
  }

  /** An unsafe price means that the stake limit admits one. */
  lemma UnsafeMeansOverflow(limits: Limits, stake: nat, r: Round, at: int)
    requires stake <= limits.maxStake && ApplyBasisPoints(stake, PriceAt(r, at)).Err?
    ensures MayOverflow(limits, MaxMultiplierBp())
  {
    var tick := TickAtElapsed(if r.startedAt.Some? then at - r.startedAt.value else 0);
    CurveRises(tick, tick);
    hide Uncapped, Capped, MaxMultiplierBp, MultiplierAtTick;
    var top := MaxMultiplierBp();
    ScaleMonotone(stake, limits.maxStake, PriceAt(r, at), top);
  }

  lemma CashPays(s: System, t: Tx)
    requires Common(s, t) && t.program.CashOut? && CashOk(s.db, s.now, s.limits, t) && t.stage.Quoted?
    ensures CashMoveOk(s, t)
  {
    hide Common, MoveOk, PriceAt, CashMoveOk, CommittedOk, Consistent, SameRace, MayOverflow, MaxMultiplierBp;
    var seen, bet := t.stage.seen, s.db.bets[t.program.bet];
    QuotedHasStarted(s, t);
    CommonCommitted(s, t);
    var m := PriceAt(seen, s.now);
    OnlyUnsafe(bet.stake, m);
    if m < seen.crashPoint.value && ApplyBasisPoints(bet.stake, m).Ok? {
      QuoteFits(s, t);
      CashPaysAt(s, t);
    } else {
      assert LockGranted(s, t) == t;
      if m < seen.crashPoint.value {
        CommittedStake(s, t.program.bet);
        UnsafeMeansOverflow(s.limits, bet.stake, seen, s.now);
      }
      CashStopped(s, t, ActCashOut(s.db, s.now, t).answer);
    }
  }

  lemma CommittedStake(s: System, b: nat)
    requires CommittedOk(s) && b in s.db.bets
    ensures s.db.bets[b].stake <= s.limits.maxStake && b < s.nextBet
  {
    hide Consistent, ClockOk;
  }

  lemma QuotedHasStarted(s: System, t: Tx)
    requires t.program.CashOut? && CashOk(s.db, s.now, s.limits, t) && t.stage.Quoted?
    ensures t.stage.seen.startedAt.Some? && t.stage.seen.crashPoint.Some?
  {
  }

  /** The transaction after the UPDATE of the bet, before its posting. */
  function CashWritten(t: Tx, row: Bet, at: int): Tx
    requires t.program.CashOut?
  {
    t.(stage := Paying(at), ids := [t.program.bet], w := t.w.(bets := t.w.bets[t.program.bet := row]))
  }

  lemma CashPaysAt(s: System, t: Tx)
    requires Common(s, t) && t.program.CashOut? && CashOk(s.db, s.now, s.limits, t) && t.stage.Quoted?
    requires t.stage.seen.startedAt.Some? && t.stage.seen.crashPoint.Some?
    requires PriceAt(t.stage.seen, s.now) < t.stage.seen.crashPoint.value
    requires ApplyBasisPoints(s.db.bets[t.program.bet].stake, PriceAt(t.stage.seen, s.now)).Ok?
    requires MayCashOut(s.db, t.program.bet, s.now)
    requires PriceAt(s.db.rounds[s.db.bets[t.program.bet].round], s.now) == PriceAt(t.stage.seen, s.now)
    requires var row := PaidRow(s.db, t.program.bet, s.now);
             BetChecks(row) && Payable(row) && row.status == Won && row.user == t.program.user && row.user in s.db.users
    ensures CashMoveOk(s, t)
  {
    hide MoveOk, Common, PriceAt, BetChecks, Payable, CashMoveOk, MayCashOut, SameRace, Sorted, Balanced;
    var db, b := s.db, t.program.bet;
    var row := PaidRow(db, b, s.now);
    var t2 := CashWritten(t, row, s.now);
    var tx := Transaction(BetCashout, BetRef(b), PayoutPostings(db.bets[b].user, db.bets[b].stake, row.payout.value));
    assert SettlementOf(b, row) == [tx];
    CashTracked(s, t, row);
    assert LockGranted(s, t) == t;
    assert ActCashOut(db, s.now, t) == Enqueue(t2, tx);
    CashDrains(s, t);
    CashWent(s, t, Enqueue(t2, tx).next);
  }

  lemma CashTracked(s: System, t: Tx, row: Bet)
    requires Common(s, t) && t.program.CashOut? && CashOk(s.db, s.now, s.limits, t) && t.stage.Quoted?
    requires row.status == Won && Payable(row) && row.user == t.program.user && row.user in s.db.users
    ensures SettlementOf(t.program.bet, row) != []
    ensures var t2 := CashWritten(t, row, s.now);
            var tx := SettlementOf(t.program.bet, row)[0];
            var next := t2.(w := t2.w.(journal := t2.w.journal + [tx]), queue := Sorted(tx.postings));
            Enqueue(t2, tx) == Go(next) && RowsLocked(s.db, next) && AccountsKnown(s.db, next) &&
            MoneyTracked(s.db, next) && LocksKnown(s.db, s.nextBet, next) &&
            PayoutQueue(s.db, next.queue) && EscrowFirst(next) && PaysOnly(next.queue, t.program.user)
  {
    hide Payable, SettlementOf, PostingsKnown, Common, Consistent, ClockOk, Balanced, Sorted, PayoutQueue, PaysOnly,
         RowsLocked, AccountsKnown, MoneyTracked, HeldBet, SameRace, BalancesMatchJournal, LocksKnown;
    var b, t2 := t.program.bet, CashWritten(t, row, s.now);
    CommonKnows(s, t);
    SettlementsAreBalanced(b, row);
    SettlementQueue(s.db, b, row);
    SettlementPostingsKnown(s.db, t2, b, row);
    NoBuffersButABet(s, t2);
    EnqueueTracks(s.db, t2, SettlementOf(b, row)[0]);
    LocksKnownSame(s.db, s.nextBet, t, Enqueue(t2, SettlementOf(b, row)[0]).next);
  }

  lemma LocksKnownSame(db: Db, nextBet: nat, t: Tx, next: Tx)
    requires LocksKnown(db, nextBet, t) && next.locks == t.locks && next.shared == t.shared
    ensures LocksKnown(db, nextBet, next)
  {
  }

  lemma CashDrains(s: System, t: Tx)
    requires t.program.CashOut? && CashOk(s.db, s.now, s.limits, t) && t.stage.Quoted?
    requires MayCashOut(s.db, t.program.bet, s.now)
    requires SettlementOf(t.program.bet, PaidRow(s.db, t.program.bet, s.now)) != []
    ensures var row := PaidRow(s.db, t.program.bet, s.now);
            var t2 := CashWritten(t, row, s.now);
            var tx := SettlementOf(t.program.bet, row)[0];
            var next := t2.(w := t2.w.(journal := t2.w.journal + [tx]), queue := Sorted(tx.postings));
            PayoutQueue(s.db, next.queue) && EscrowFirst(next) && PaysOnly(next.queue, t.program.user) ==>
              CashDraining(s.db, next, s.now)
  {
    var b := t.program.bet;
    var row := PaidRow(s.db, b, s.now);
    hide SettlementOf, CashOutRow, Sorted, PayoutQueue, EscrowFirst, MayCashOut, PaysOnly, PriceAt, SameRace;
    BatchOfOne(b, row);
    assert map[][b := row] == map[b := row];
  }

  lemma BatchOfOne(id: nat, row: Bet)
    ensures BatchJournal(map[id := row], [id]) == SettlementOf(id, row)
    ensures |SettlementOf(id, row)| <= 1
  {
    assert [id][..0] == [];
    assert BatchJournal(map[id := row], [id]) == BatchJournal(map[id := row], [id][..0]) + SettlementOf(id, row);
  }

  lemma CashPosts(s: System, t: Tx)
    requires Common(s, t) && t.program.CashOut? && t.stage.Paying? && CashOk(s.db, s.now, s.limits, t) && t.queue != []
    ensures CashMoveOk(s, t)
  {
    hide Common, MoveOk, CommittedOk, Consistent, RowsLocked, AccountsKnown, MoneyTracked, LocksKnown, BatchFits,
         EscrowFirst, PayoutQueue, BetsFit, CashDraining, CashMoveOk, CashOutRow, LockGranted, PriceAt;
    CommonCommitted(s, t);
    CashSoFar(s, t);
    PayoutPosts(s, t, t.w.bets);
    CashDrainsOn(s, t);
    CashWent(s, t, PostedTx(s.db, LockGranted(s, t)));
  }

  lemma CashSoFar(s: System, t: Tx)
    requires Consistent(s.db) && t.program.CashOut? && t.stage.Paying? && CashDraining(s.db, t, t.stage.at)
    ensures BatchFits(s.db, t.w.bets, t.ids) && t.w.journal == BatchJournal(t.w.bets, t.ids)
    ensures PayoutQueue(s.db, t.queue) && EscrowFirst(t)
  {
    hide Consistent, BatchFits, BetsFit, CashOutRow, PayoutQueue, EscrowFirst, PriceAt, PaysOnly;
    CashOutFits(s.db, t.program.bet, t.stage.at);
  }

  lemma CashDrainsOn(s: System, t: Tx)
    requires t.program.CashOut? && t.stage.Paying? && CashDraining(s.db, t, t.stage.at) && t.queue != []
    requires PayoutQueue(s.db, PostedTx(s.db, LockGranted(s, t)).queue) && EscrowFirst(PostedTx(s.db, LockGranted(s, t)))
    ensures CashDraining(s.db, PostedTx(s.db, LockGranted(s, t)), t.stage.at)
    ensures PostedTx(s.db, LockGranted(s, t)).program == t.program
    ensures PostedTx(s.db, LockGranted(s, t)).stage == t.stage
    ensures LockGranted(s, t).queue == t.queue && LockGranted(s, t).stage == t.stage
    ensures LockGranted(s, t).program == t.program
  {
    hide MayCashOut, CashOutRow, PayoutQueue, EscrowFirst, BatchWrites, PriceAt, PaysOnly;
    PaysOnlyAfterOne(t.queue, t.program.user);
  }

  lemma CashCommits(s: System, t: Tx)
    requires Common(s, t) && t.program.CashOut? && t.stage.Paying? && CashOk(s.db, s.now, s.limits, t) && t.queue == []
    ensures CashMoveOk(s, t)
  {
    hide Common, MoveOk, CommitOk, CashDraining, Apply, CashMoveOk;
    CashCommitOk(s, t);
    CashAnswered(s, t);
    CommittedMove(s.db, s.now, s.nextBet, s.limits, t, Answered(t.program.bet));
    CashCommitMove(s, t);
  }

  lemma CashAnswered(s: System, t: Tx)
    requires t.program.CashOut? && t.stage.Paying? && CashDraining(s.db, t, t.stage.at)
    ensures CashAnswer(Apply(s.db, t.w), s.limits, t.program, Answered(t.program.bet))
  {
    hide MayCashOut, PayoutQueue, EscrowFirst, PriceAt, PaysOnly;
  }

  lemma CashCommitMove(s: System, t: Tx)
    requires t.program.CashOut? && t.stage.Paying? && t.queue == []
    requires MoveOk(s.db, s.now, s.nextBet, s.limits, t.program, Commit(t, Answered(t.program.bet)))
    ensures CashMoveOk(s, t)
  {
    hide MoveOk;
    assert LockGranted(s, t) == t;
  }

  lemma CashCommitOk(s: System, t: Tx)
    requires Common(s, t) && t.program.CashOut? && t.stage.Paying? && CashOk(s.db, s.now, s.limits, t) && t.queue == []
    ensures CommitOk(s.db, s.now, s.nextBet, s.limits, t)
  {
    hide Common, CommittedOk, MoneyTracked, AccountsKnown, MayCashOut, Consistent, EscrowFirst, PayoutQueue, PaysOnly,
         PriceAt, BetsWrittenFit, EffectsLocked, RowsLocked, CommitOk, ClockOk;
    CommonCommitted(s, t);
    CashEffectsLocked(s.db, t);
    CashWritesFit(s, t);
    CashOutKeeps(s.db, t.program.bet, t.stage.at);
    ReadyToCommit(s, t);
  }

  lemma CashEffectsLocked(db: Db, t: Tx)
    requires t.program.CashOut? && t.stage.Paying? && CashDraining(db, t, t.stage.at) && RowsLocked(db, t)
    ensures EffectsLocked(db, t)
  {
    hide MayCashOut, EscrowFirst, PayoutQueue, PaysOnly, PriceAt;
  }

  /** The curve had shown the quoted price when it was read, so it has by now. */
  lemma PriceWasShown(r: Round, at: int, now: int)
    requires r.startedAt.Some? && at <= now
    ensures ShownBy(PriceAt(r, at), now - r.startedAt.value)
  {
    hide MultiplierAtTick;
    var tick := TickAtElapsed(at - r.startedAt.value);
    assert tick <= TickAtElapsed(now - r.startedAt.value);
    assert PriceAt(r, at) == MultiplierAtTick(tick);
  }

  lemma CashWritesFit(s: System, t: Tx)
    requires CommittedOk(s) && t.program.CashOut? && t.stage.Paying? && CashDraining(s.db, t, t.stage.at)
    requires t.stage.at <= s.now
    ensures BetsWrittenFit(s, t.w)
  {
    var b := t.program.bet;
    CommittedStake(s, b);
    hide CommittedOk, EscrowFirst, PayoutQueue, PaysOnly, PriceAt, ShownBy, BatchJournal;
    PriceWasShown(s.db.rounds[s.db.bets[b].round], t.stage.at, s.now);
    assert s.db.rounds + map[] == s.db.rounds;
  }

  lemma CashMove(s: System, t: Tx)
    requires Common(s, t) && t.program.CashOut? && !t.stage.Done? && CashOk(s.db, s.now, s.limits, t)
    ensures CashMoveOk(s, t)
  {
    hide Common, CashMoveOk, CashDraining, HeldBet, SameRace, CashAnswer;
    match t.stage
    case Quoted(_) => CashPays(s, t);
    case Paying(_) => if t.queue != [] { CashPosts(s, t); } else { CashCommits(s, t); }
    case BetHeld => CashReadsRound(s, t);
    case _ => CashLocks(s, t);
  }
}
