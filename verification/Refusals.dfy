/** In the concurrent system a refusal names a reason that holds of the tables when it is given. */
module Refusals {
  import opened Prelude
  import opened Money
  import opened CrashCurve
  import opened Roulette
  import opened Ledger
  import opened Tables
  import opened Operations
  import opened Interleaving
  import opened InterleavingState
  import opened InterleavingMoves
  import opened InterleavingPlace
  import opened InterleavingPayouts
  import opened InterleavingConclude
  import opened InterleavingSafety
  import opened Rows

  /** The reason a placement is refused for, in the columns of the tables. */
  ghost predicate BetRefusedFor(db: Db, limits: Limits, p: Program, f: Failure)
    requires p.PlaceBet?
  {
    match f
    case StakeOutOfRange => p.stake < limits.minStake || p.stake > limits.maxStake
    case RoundNotFound => p.round !in db.rounds
    case RoundNotOpen(status) => p.round in db.rounds && db.rounds[p.round].status == status != Open
    case InvalidSelection =>
      p.round in db.rounds && db.rounds[p.round].status == Open &&
      forall odds :: !PricedAs(db.rounds[p.round].game, p.selection, odds)
    case LedgerFailure(e) => e == AccountNotFound(Wallet(p.user)) && p.user !in db.users
    case InsufficientFunds => p.user in db.users && BaseBalance(db, Wallet(p.user)) < p.stake
    case _ => false
  }

  /** The reason a cash-out is refused for. Its price is that of the clock at this statement. */
  ghost predicate CashOutRefusedFor(db: Db, now: int, p: Program, f: Failure)
    requires p.CashOut?
  {
    if f == NoBetOnRound then p.bet !in db.bets || db.bets[p.bet].user != p.user
    else
      p.bet in db.bets && db.bets[p.bet].user == p.user && db.bets[p.bet].round in db.rounds &&
      var b, r := db.bets[p.bet], db.rounds[db.bets[p.bet].round];
      match f
      case BetAlreadySettled(status) => b.status == status && (status == Lost || status == Refunded)
      case GameDoesNotSupportCashOut => b.status == Active && r.game != CrashGame
      case RoundNotRunning(status) => b.status == Active && r.status == status != Running
      case CashOutTooLate(crash) =>
        b.status == Active && r.crashPoint == Some(crash) && r.startedAt.Some? && Shown(r.startedAt.value, now) >= crash
      case MoneyFailure(e) =>
        b.status == Active && e == Unsafe && r.startedAt.Some? &&
        b.stake * Shown(r.startedAt.value, now) / 10_000 > 9_007_199_254_740_991
      case _ => false
  }

  /** The reason any request is refused for. */
  ghost predicate RefusedFor(s: System, p: Program, f: Failure) {
    match p
    case PlaceBet(_, _, _, _, _) => BetRefusedFor(s.db, s.limits, p, f)
    case CashOut(_, _) => CashOutRefusedFor(s.db, s.now, p, f)
    case Conclude(voiding, r) =>
      r in s.db.rounds &&
      if voiding then f == CheckViolation && (s.db.rounds[r].status == Resolved || s.db.rounds[r].status == Settled)
      else f == MoneyFailure(Unsafe) && exists b :: ActiveIn(s.db, r, b) && !Affordable(s.db.bets[b], s.db.rounds[r])
    case Register(user, grant) =>
      (f == EmailTaken && user in s.db.users) || (f == LedgerFailure(Unbalanced) && grant == 0)
    case Advance(_, _) => false
    case OpenRound(r, _, game, crashPoint, pocket, _) =>
      (f == UniqueViolation && r in s.db.rounds) ||
      (f == CheckViolation &&
       !(if game == CrashGame then crashPoint.Some? && crashPoint.value >= 10_000 && pocket == None
         else pocket.Some? && pocket.value <= 36 && crashPoint == None))
  }

  /** Only the ledger refuses a posting, and on an account it knows only for its balance. */
  lemma PostingRefusals(db: Db, t: Tx)
    requires t.queue != []
    ensures PostOne(db, t).Stop? ==> PostOne(db, t).answer.Refused? && PostOne(db, t).answer.why.LedgerFailure?
    ensures !PostOne(db, t).Commit?
  {
  }

  lemma KnownPosting(db: Db, t: Tx)
    requires t.queue != [] && AccountsKnown(db, t)
    ensures PostOne(db, t).Stop? ==> PostOne(db, t).answer == Refused(LedgerFailure(Overdrawn(t.queue[0].account)))
    ensures !PostOne(db, t).Commit?
  {
  }

  lemma BetRefusalIsTrue(s: System, t: Tx, f: Failure)
    requires t.program.PlaceBet? && PlaceOk(s.db, s.limits, t) && PlaceAnswer(s.db, t.program, Refused(f))
    requires AccountsKnown(s.db, t)
    requires ActPlaceBet(s.db, s.limits, s.nextBet, LockGranted(s, t)) == Stop(Refused(f))
    ensures BetRefusedFor(s.db, s.limits, t.program, f)
  {
    hide PriceSelection, PricedAs, BetChecks, FindKey, Balanced, Sorted, PlaceDraining, PostOne;
    if LockGranted(s, t).queue != [] { KnownPosting(s.db, LockGranted(s, t)); }
    if t.program.round in s.db.rounds {
      PricingAsListed(s.db.rounds[t.program.round].game, t.program.selection);
    }
  }

  lemma CashOutRefusalIsTrue(s: System, t: Tx, f: Failure)
    requires CommittedOk(s) && t.program.CashOut? && CashOk(s.db, s.now, s.limits, t)
    requires CashAnswer(s.db, s.limits, t.program, Refused(f))
    requires ActCashOut(s.db, s.now, LockGranted(s, t)) == Stop(Refused(f))
    ensures CashOutRefusedFor(s.db, s.now, t.program, f)
  {
    hide PriceAt, Shown, BetChecks, Balanced, Sorted, CashDraining, Consistent, ClockOk, MayOverflow, BetFits, PostOne;
    if LockGranted(s, t).queue != [] { PostingRefusals(s.db, LockGranted(s, t)); }
    if t.program.bet in s.db.bets {
      CommittedBetFits(s.db, t.program.bet);
      CommittedRoundFits(s, s.db.bets[t.program.bet].round);
    }
    if t.stage.Quoted? {
      ShownIsPriced(t.stage.seen, s.now);
    }
  }

  lemma ConclusionRefusalIsTrue(s: System, t: Tx, order: seq<nat>, f: Failure)
    requires Common(s, t) && t.program.Conclude? && ConcludeOk(s.db, s.limits, t)
    requires ConcludeAnswer(s.db, s.limits, t.program, Refused(f))
    requires ActConclude(s.db, s.now, LockGranted(s, t), order) == Stop(Refused(f))
    ensures RefusedFor(s, t.program, f)
  {
    hide Common, ConcludeSettling, MayOverflow, Affordable, Decide, SettleRow, BetFits, PostOne;
    if !t.program.voiding {
      OnlyDecisionsAreUnsafe(s, t, order);
      CommonCommitted(s, t);
      NextIsActive(s.db, t, t.stage.left);
      CommittedBetFits(s.db, t.stage.left[0]);
      DecidedIffAffordable(s.db.bets[t.stage.left[0]], s.db.users, s.db.rounds);
    }
  }

  /** A settlement can only be refused for a payout while it decides a bet. */
  lemma OnlyDecisionsAreUnsafe(s: System, t: Tx, order: seq<nat>)
    requires t.program.Conclude? && !t.program.voiding
    requires ActConclude(s.db, s.now, LockGranted(s, t), order) == Stop(Refused(MoneyFailure(Unsafe)))
    ensures t.stage.Settling? && t.queue == [] && t.stage.left != [] && t.program.round in s.db.rounds
    ensures t.stage.left[0] in s.db.bets
    ensures Decide(false, s.db.bets[t.stage.left[0]], s.db.rounds[t.program.round]).Err?
  {
    hide BetChecks, RoundChecks, Balanced, Sorted, Decide, DecisionTx, Concluded, UpdateIfActive;
  }

  lemma OtherRefusalIsTrue(s: System, t: Tx, order: seq<nat>, f: Failure)
    requires StageOk(s.db, s.now, s.limits, Blank(t.program, Done(Refused(f))))
    requires t.program.Register? || t.program.Advance? || t.program.OpenRound?
    requires StageOk(s.db, s.now, s.limits, t) && Act(s, LockGranted(s, t), order) == Stop(Refused(f))
    ensures RefusedFor(s, t.program, f)
  {
    match t.program
    case Register(_, _) => RegisterRefusalIsTrue(s, t, f);
    case _ =>
      hide Advanced;
  }

  lemma RegisterRefusalIsTrue(s: System, t: Tx, f: Failure)
    requires t.program.Register? && RegisterOk(s.db, Blank(t.program, Done(Refused(f))))
    requires ActRegister(s.db, LockGranted(s, t)) == Stop(Refused(f))
    ensures RefusedFor(s, t.program, f)
  {
    hide Balanced, Sorted;
  }

  /** Whoever else is running, a refused request is told what is so: the reason holds of the tables it was judged by. */
  lemma RefusalsAreTrue(s: System, i: nat, order: seq<nat>, f: Failure)
    requires Safe(s) && Possible(s, Run(i, order)) && MoveOf(s, i, order) == Stop(Refused(f))
    ensures RefusedFor(s, s.txs[i].program, f)
  {
    hide CommittedOk, Compatible, TxOk, Common, Act, RefusedFor, ActiveBetsOf, Waiting, PlaceOk, CashOk, ConcludeOk,
         PlaceAnswer, CashAnswer, ConcludeAnswer;
    var t := s.txs[i];
    TxIsCommon(s, t);
    RunnableFits(s, i, order);
    RefusalOf(s, t, order, f);
  }

  lemma RefusalOf(s: System, t: Tx, order: seq<nat>, f: Failure)
    requires Common(s, t) && StageOk(s.db, s.now, s.limits, t)
    requires StageOk(s.db, s.now, s.limits, Blank(t.program, Done(Refused(f))))
    requires Act(s, LockGranted(s, t), order) == Stop(Refused(f))
    ensures RefusedFor(s, t.program, f)
  {
    hide Common, PlaceOk, CashOk, ConcludeOk, ActPlaceBet, ActCashOut, ActConclude, ActRegister, ActAdvance,
         ActOpenRound, BetRefusedFor, CashOutRefusedFor, CommittedOk;
    AnswerOf(s.db, s.now, s.limits, t.program, Refused(f));
    match t.program
    case PlaceBet(_, _, _, _, _) => CommonCommitted(s, t); BetRefusalIsTrue(s, t, f);
    case CashOut(_, _) => CommonCommitted(s, t); CashOutRefusalIsTrue(s, t, f);
    case Conclude(_, _) => ConclusionRefusalIsTrue(s, t, order, f);
    case _ => OtherRefusalIsTrue(s, t, order, f);
  }

  lemma AnswerOf(db: Db, now: int, limits: Limits, p: Program, a: Answer)
    requires StageOk(db, now, limits, Blank(p, Done(a)))
    ensures p.PlaceBet? ==> PlaceAnswer(db, p, a)
    ensures p.CashOut? ==> CashAnswer(db, limits, p, a)
    ensures p.Conclude? ==> ConcludeAnswer(db, limits, p, a)
  {
    hide PlaceAnswer, CashAnswer, ConcludeAnswer;
  }

  /** There is nothing for the request to do: its round is missing, past it or not there yet, or another one is live. */
  ghost predicate NothingToDo(db: Db, p: Program) {
    match p
    case Conclude(voiding, r) =>
      r !in db.rounds ||
      (if voiding then db.rounds[r].status == Voided || db.rounds[r].status == Settled
       else db.rounds[r].status != Resolved)
    case Advance(r, from) =>
      r !in db.rounds || db.rounds[r].status != from || from == Resolved || from == Settled || from == Voided
    case OpenRound(_, _, game, _, _, _) =>
      exists q :: q in db.rounds && db.rounds[q].game == game &&
                  (db.rounds[q].status == Open || db.rounds[q].status == Locked || db.rounds[q].status == Running)
    case _ => false
  }

  lemma NoOpIsTrue(s: System, t: Tx, order: seq<nat>)
    requires Common(s, t) && StageOk(s.db, s.now, s.limits, t) && !t.stage.Done?
    requires Act(s, LockGranted(s, t), order) == Stop(NoOp)
    ensures NothingToDo(s.db, t.program)
  {
    hide Common, ActPlaceBet, ActCashOut, ActRegister, ActConclude, PlaceOk, CashOk, RegisterOk, ConcludeOk;
    match t.program
    case PlaceBet(_, _, _, _, _) => OthersDoSomething(s, t);
    case CashOut(_, _) => OthersDoSomething(s, t);
    case Register(_, _) => OthersDoSomething(s, t);
    case Conclude(_, _) => ConcludeNoOpIsTrue(s, t, order);
    case Advance(_, _) => hide RoundChecks, Advanced;
    case OpenRound(_, _, _, _, _, _) => hide RoundChecks, NewRound;
  }

  lemma ConcludeNoOpIsTrue(s: System, t: Tx, order: seq<nat>)
    requires t.program.Conclude? && ConcludeOk(s.db, s.limits, t) && !t.stage.Done?
    requires ActConclude(s.db, s.now, LockGranted(s, t), order) == Stop(NoOp)
    ensures NothingToDo(s.db, t.program)
  {
    hide ConcludeLocking, ConcludeSettling, RoundChecks, BetChecks, Decide, Balanced, Sorted, Concluded, DecisionTx,
         UpdateIfActive, MayStart;
    if t.stage.Settling? && t.stage.left != [] {
      NextIsActive(s.db, t, t.stage.left);
    }
  }

  lemma OthersDoSomething(s: System, t: Tx)
    requires StageOk(s.db, s.now, s.limits, t) && !t.stage.Done?
    ensures t.program.PlaceBet? ==> ActPlaceBet(s.db, s.limits, s.nextBet, LockGranted(s, t)) != Stop(NoOp)
    ensures t.program.CashOut? ==> ActCashOut(s.db, s.now, LockGranted(s, t)) != Stop(NoOp)
    ensures t.program.Register? ==> ActRegister(s.db, LockGranted(s, t)) != Stop(NoOp)
  {
    hide PriceSelection, BetChecks, FindKey, Balanced, Sorted, PriceAt, PlaceDraining, CashDraining, RegisterDraining;
  }

  /** A request answered NO-OP had nothing to do, at the statement that found so. */
  lemma NoOpsAreTrue(s: System, i: nat, order: seq<nat>)
    requires Safe(s) && Possible(s, Run(i, order)) && MoveOf(s, i, order) == Stop(NoOp)
    ensures NothingToDo(s.db, s.txs[i].program)
  {
    hide CommittedOk, Compatible, TxOk, Common, Act, StageOk, ActiveBetsOf, Waiting, NothingToDo;
    TxIsCommon(s, s.txs[i]);
    NoOpIsTrue(s, s.txs[i], order);
  }
}
