/** Every run keeps the system safe, whatever the interleaving. */
module InterleavingSafety {
  import opened Prelude
  import opened Ledger
  import opened Tables
  import opened Operations
  import opened Interleaving
  import opened InterleavingState
  import opened InterleavingRely
  import opened InterleavingMoves
  import opened InterleavingPlace
  import opened InterleavingPayouts
  import opened InterleavingConclude

  // ---------------------------------------------------------------------------
  // Locks
  // ---------------------------------------------------------------------------

  /** A lock is only ever asked for on a row that exists. */
  lemma GrantedLocksKnown(s: System, t: Tx)
    requires CommittedOk(s) && TxOk(s.db, s.now, s.nextBet, s.limits, t)
    ensures LocksKnown(s.db, s.nextBet, LockGranted(s, t))
  {
    hide Consistent, ClockOk, RowsLocked, AccountsKnown, MoneyTracked, PlaceOk, CashOk, RegisterOk, AdvanceOk,
         ConcludeSettling;
    if t.queue == [] && t.program.Conclude? && t.stage.Locking? && t.stage.todo != [] {
      LockingNamesBets(s.db, s.limits, t);
    }
    hide StageOk;
  }

  lemma LockingNamesBets(db: Db, limits: Limits, t: Tx)
    requires t.program.Conclude? && t.stage.Locking? && ConcludeOk(db, limits, t)
    ensures forall b | b in t.stage.todo :: b in db.bets
  {
    hide Distinct, ActiveIn;
  }

  lemma TxIsCommon(s: System, t: Tx)
    requires CommittedOk(s) && TxOk(s.db, s.now, s.nextBet, s.limits, t)
    ensures Common(s, t) && StageOk(s.db, s.now, s.limits, t)
  {
    hide CommittedOk, StageOk, RowsLocked, AccountsKnown, MoneyTracked, LocksKnown;
    GrantedLocksKnown(s, t);
  }

  /** The locks a statement leaves are those granted, and that of a bet it inserts. */
  predicate KeepsLocks(granted: Tx, nextBet: nat, t: Tx) {
    t.locks <= granted.locks + {BetLock(nextBet)} && t.shared <= granted.shared
  }

  predicate MoveKeepsLocks(granted: Tx, nextBet: nat, m: Move) {
    match m
    case Go(next) => KeepsLocks(granted, nextBet, next)
    case Commit(last, _) => KeepsLocks(granted, nextBet, last)
    case Stop(_) => true
  }

  lemma PlaceKeepsLocks(s: System, t: Tx)
    requires t.program.PlaceBet?
    ensures MoveKeepsLocks(t, s.nextBet, ActPlaceBet(s.db, s.limits, s.nextBet, t))
  {
    hide PriceSelection, BetChecks, FindKey, Balanced, Sorted;
  }

  lemma CashKeepsLocks(s: System, t: Tx)
    requires t.program.CashOut?
    ensures MoveKeepsLocks(t, s.nextBet, ActCashOut(s.db, s.now, t))
  {
    hide BetChecks, Balanced, Sorted;
  }

  lemma ConcludeKeepsLocks(s: System, t: Tx, order: seq<nat>)
    requires t.program.Conclude?
    ensures MoveKeepsLocks(t, s.nextBet, ActConclude(s.db, s.now, t, order))
  {
    hide BetChecks, RoundChecks, Balanced, Sorted, Decide, DecisionTx;
  }

  lemma ActKeepsLocks(s: System, t: Tx, order: seq<nat>)
    ensures MoveKeepsLocks(t, s.nextBet, Act(s, t, order))
  {
    hide BetChecks, RoundChecks, Balanced, Sorted, ActPlaceBet, ActCashOut, ActConclude, MoveKeepsLocks;
    match t.program
    case PlaceBet(_, _, _, _, _) => PlaceKeepsLocks(s, t);
    case CashOut(_, _) => CashKeepsLocks(s, t);
    case Conclude(_, _) => ConcludeKeepsLocks(s, t, order);
    case Register(_, _) => RegisterKeepsLocks(s, t);
    case Advance(_, _) => AdvanceKeepsLocks(s, t);
    case OpenRound(_, _, _, _, _, _) => OpenKeepsLocks(s, t);
  }

  lemma RegisterKeepsLocks(s: System, t: Tx)
    requires t.program.Register?
    ensures MoveKeepsLocks(t, s.nextBet, ActRegister(s.db, t))
  {
    hide Balanced, Sorted;
  }

  lemma AdvanceKeepsLocks(s: System, t: Tx)
    requires t.program.Advance?
    ensures MoveKeepsLocks(t, s.nextBet, ActAdvance(s.db, s.now, t))
  {
    hide RoundChecks, Advanced;
  }

  lemma OpenKeepsLocks(s: System, t: Tx)
    requires t.program.OpenRound?
    ensures MoveKeepsLocks(t, s.nextBet, ActOpenRound(s.db, t))
  {
    hide RoundChecks, NewRound;
  }

  /** A lock is granted only when no other transaction's locks refuse it. */
  lemma GrantedIsCompatible(s: System, t: Tx, next: Tx, other: Tx)
    requires Compatible(t, other) && !Conflicts(Wants(s.db, t), other)
    requires LocksKnown(s.db, s.nextBet, other) && KeepsLocks(LockGranted(s, t), s.nextBet, next)
    ensures Compatible(next, other)
  {
    hide Wants;
  }

  // ---------------------------------------------------------------------------
  // One step
  // ---------------------------------------------------------------------------

  lemma MoveFits(s: System, t: Tx, order: seq<nat>)
    requires Common(s, t) && StageOk(s.db, s.now, s.limits, t) && !t.stage.Done?
    requires t.program.Conclude? && t.stage.Snapshot? ==> ActiveBetsOf(s.db, t.program.round, order)
    ensures MoveOk(s.db, s.now, NextBetAfter(s, t), s.limits, t.program, Act(s, LockGranted(s, t), order))
  {
    hide Common, MoveOk, PlaceOk, CashOk, ConcludeOk, RegisterOk, AdvanceOk, ActPlaceBet, ActCashOut, ActConclude,
         ActAdvance, ActRegister, ActOpenRound, ActiveBetsOf;
    match t.program
    case PlaceBet(_, _, _, _, _) => PlaceMove(s, t);
    case CashOut(_, _) => CashMove(s, t);
    case Conclude(_, _) => ConcludeMove(s, t, order);
    case Register(_, _) => RegisterMove(s, t);
    case Advance(_, _) => AdvanceMove(s, t);
    case OpenRound(_, _, _, _, _, _) => OpenMove(s, t);
  }

  function NextBetAfter(s: System, t: Tx): nat {
    if t.program.PlaceBet? && t.stage.FundsHeld? then s.nextBet + 1 else s.nextBet
  }

  lemma FinishedIsOk(db: Db, now: int, nextBet: nat, limits: Limits, p: Program, stage: Stage)
    requires StageOk(db, now, limits, Blank(p, stage))
    ensures TxOk(db, now, nextBet, limits, Blank(p, stage))
    ensures forall other: Tx :: Compatible(Blank(p, stage), other)
  {
    hide StageOk;
    NoBuffers(db, Blank(p, stage));
  }

  /** The others are as they were, over the tables as they are now. */
  ghost predicate OthersOk(s: System, i: nat, db: Db, nextBet: nat, next: Tx) {
    i < |s.txs| &&
    forall j | 0 <= j < |s.txs| && j != i ::
      TxOk(db, s.now, nextBet, s.limits, s.txs[j]) && Compatible(next, s.txs[j])
  }

  lemma Reassemble(s: System, i: nat, db: Db, nextBet: nat, next: Tx)
    requires Safe(s) && OthersOk(s, i, db, nextBet, next) && TxOk(db, s.now, nextBet, s.limits, next)
    requires CommittedOk(s.(db := db, nextBet := nextBet))
    ensures Safe(s.(db := db, nextBet := nextBet, txs := s.txs[i := next]))
  {
    hide TxOk;
    var after := s.(db := db, nextBet := nextBet, txs := s.txs[i := next]);
    assert CommittedOk(after) by { hide Consistent, ClockOk; }
    hide CommittedOk;
    forall j | 0 <= j < |after.txs| ensures TxOk(after.db, after.now, after.nextBet, after.limits, after.txs[j]) {
    }
    forall j, k | 0 <= j < |after.txs| && 0 <= k < |after.txs| && j != k
      ensures Compatible(after.txs[j], after.txs[k])
    {
    }
  }

  lemma CommitKeepsCommitted(s: System, nextBet: nat, t: Tx)
    requires CommittedOk(s) && s.nextBet <= nextBet && CommitOk(s.db, s.now, nextBet, s.limits, t)
    ensures CommittedOk(s.(db := Overwrite(s.db, t), nextBet := nextBet))
  {
    hide Consistent, ClockOk, EffectsLocked;
  }

  /** What the others see of a statement that does not commit: nothing but the bet id it drew. */
  lemma OthersUndisturbed(s: System, i: nat, nextBet: nat, next: Tx)
    requires Safe(s) && i < |s.txs| && s.nextBet <= nextBet
    requires forall j | 0 <= j < |s.txs| && j != i :: Compatible(next, s.txs[j])
    ensures OthersOk(s, i, s.db, nextBet, next)
    ensures CommittedOk(s.(nextBet := nextBet))
  {
    hide Compatible, Consistent, ClockOk, TxOk;
    forall j | 0 <= j < |s.txs| && j != i ensures TxOk(s.db, s.now, nextBet, s.limits, s.txs[j]) {
      TxSurvivesTime(s.db, s.now, s.now, s.nextBet, nextBet, s.limits, s.txs[j]);
    }
  }

  lemma OthersSurviveCommit(s: System, i: nat, nextBet: nat, last: Tx, p: Program, stage: Stage)
    requires Safe(s) && i < |s.txs| && s.nextBet <= nextBet && CommitOk(s.db, s.now, nextBet, s.limits, last)
    requires forall j | 0 <= j < |s.txs| && j != i :: Compatible(last, s.txs[j])
    ensures OthersOk(s, i, Overwrite(s.db, last), nextBet, Blank(p, stage))
  {
    hide CommittedOk, Consistent, ClockOk;
    forall j | 0 <= j < |s.txs| && j != i
      ensures TxOk(Overwrite(s.db, last), s.now, nextBet, s.limits, s.txs[j])
    {
      OneSurvivesCommit(s, nextBet, last, s.txs[j]);
    }
  }

  lemma OneSurvivesCommit(s: System, nextBet: nat, last: Tx, other: Tx)
    requires TxOk(s.db, s.now, s.nextBet, s.limits, other) && s.nextBet <= nextBet
    requires CommitOk(s.db, s.now, nextBet, s.limits, last) && Compatible(last, other)
    ensures TxOk(Overwrite(s.db, last), s.now, nextBet, s.limits, other)
  {
    hide CommittedOk, Consistent, ClockOk, EffectsLocked, Steady, Overwrite, StageOk, Compatible, LocksKnown;
    CommitIsSteady(s.db, last, s.nextBet, other);
    TxSurvives(s.db, Overwrite(s.db, last), s.now, s.nextBet, s.limits, other);
    hide TxOk;
    TxSurvivesTime(Overwrite(s.db, last), s.now, s.now, s.nextBet, nextBet, s.limits, other);
  }

  lemma MoveLeavesOthersAlone(s: System, i: nat, order: seq<nat>, next: Tx)
    requires Safe(s) && Possible(s, Run(i, order))
    requires KeepsLocks(LockGranted(s, s.txs[i]), s.nextBet, next)
    ensures forall j | 0 <= j < |s.txs| && j != i :: Compatible(next, s.txs[j])
  {
    hide CommittedOk, StageOk, RowsLocked, AccountsKnown, MoneyTracked, Compatible, LocksKnown, KeepsLocks, Conflicts,
         Wants, LockGranted, ActiveBetsOf;
    forall j | 0 <= j < |s.txs| && j != i ensures Compatible(next, s.txs[j]) {
      assert !Waiting(s, i, j);
      GrantedIsCompatible(s, s.txs[i], next, s.txs[j]);
    }
  }

  lemma RunKeepsSafe(s: System, i: nat, order: seq<nat>)
    requires Safe(s) && Possible(s, Run(i, order))
    ensures Safe(Step(s, Run(i, order)))
  {
    var t := s.txs[i];
    hide CommittedOk, Possible, Compatible, StageOk, TxOk, Common, Act, CommitOk, Overwrite, KeepsLocks, OthersOk;
    var nextBet := NextBetAfter(s, t);
    RunnableFits(s, i, order);
    ActKeepsLocks(s, LockGranted(s, t), order);
    match MoveOf(s, i, order)
    case Go(next) =>
      MoveLeavesOthersAlone(s, i, order, next);
      OthersUndisturbed(s, i, nextBet, next);
      Reassemble(s, i, s.db, nextBet, next);
    case Stop(a) =>
      FinishedIsOk(s.db, s.now, nextBet, s.limits, t.program, Done(a));
      OthersUndisturbed(s, i, nextBet, Blank(t.program, Done(a)));
      Reassemble(s, i, s.db, nextBet, Blank(t.program, Done(a)));
    case Commit(last, a) =>
      MoveLeavesOthersAlone(s, i, order, last);
      CommittedIsApplied(s.db, s.now, nextBet, s.limits, last);
      CommitKeepsCommitted(s, nextBet, last);
      FinishedIsOk(Overwrite(s.db, last), s.now, nextBet, s.limits, t.program, Done(a));
      OthersSurviveCommit(s, i, nextBet, last, t.program, Done(a));
      Reassemble(s, i, Overwrite(s.db, last), nextBet, Blank(t.program, Done(a)));
  }

  lemma CommittedIsApplied(db: Db, now: int, nextBet: nat, limits: Limits, t: Tx)
    requires CommitOk(db, now, nextBet, limits, t)
    ensures Overwrite(db, t) == Apply(db, t.w)
  {
    hide Consistent, ClockOk, EffectsLocked, Overwrite, Apply;
  }

  lemma RunnableFits(s: System, i: nat, order: seq<nat>)
    requires Safe(s) && Possible(s, Run(i, order))
    ensures MoveOk(s.db, s.now, NextBetAfter(s, s.txs[i]), s.limits, s.txs[i].program, MoveOf(s, i, order))
  {
    hide CommittedOk, Compatible, StageOk, TxOk, Common, Act, MoveOk, Waiting;
    TxIsCommon(s, s.txs[i]);
    MoveFits(s, s.txs[i], order);
  }

  lemma BeginKeepsSafe(s: System, p: Program)
    requires Safe(s)
    ensures Safe(Step(s, Begin(p)))
  {
    hide CommittedOk, Compatible, TxOk;
    var t, after := Blank(p, Start), Step(s, Begin(p));
    FinishedIsOk(s.db, s.now, s.nextBet, s.limits, p, Start);
    assert CommittedOk(after) by { SameCommitted(s, after); }
    forall j, k | 0 <= j < |after.txs| && 0 <= k < |after.txs| && j != k
      ensures Compatible(after.txs[j], after.txs[k])
    {
      if k == |s.txs| { CompatibleEitherWay(after.txs[k], after.txs[j]); }
    }
  }

  lemma SameCommitted(s: System, after: System)
    requires CommittedOk(s) && after == s.(txs := after.txs)
    ensures CommittedOk(after)
  {
    hide Consistent, ClockOk;
  }

  lemma CompatibleEitherWay(t: Tx, u: Tx)
    requires Compatible(t, u)
    ensures Compatible(u, t)
  {
  }

  lemma ElapseKeepsSafe(s: System, ms: nat)
    requires Safe(s)
    ensures Safe(Step(s, Elapse(ms)))
  {
    hide TxOk, Compatible, Consistent;
    forall j | 0 <= j < |s.txs| ensures TxOk(s.db, s.now + ms, s.nextBet, s.limits, s.txs[j]) {
      TxSurvivesTime(s.db, s.now, s.now + ms, s.nextBet, s.nextBet, s.limits, s.txs[j]);
    }
  }

  /** An abort leaves the tables alone and lets every lock go. */
  lemma AbortKeepsSafe(s: System, i: nat)
    requires Safe(s) && i < |s.txs| && !s.txs[i].stage.Done?
    ensures Safe(Step(s, Abort(i)))
  {
    hide CommittedOk, Compatible, TxOk, OthersOk, StageOk;
    var gone := Blank(s.txs[i].program, Done(Aborted));
    AbortedIsOk(s.db, s.now, s.limits, s.txs[i].program);
    FinishedIsOk(s.db, s.now, s.nextBet, s.limits, s.txs[i].program, Done(Aborted));
    OthersUndisturbed(s, i, s.nextBet, gone);
    Reassemble(s, i, s.db, s.nextBet, gone);
  }

  lemma AbortedIsOk(db: Db, now: int, limits: Limits, p: Program)
    ensures StageOk(db, now, limits, Blank(p, Done(Aborted)))
  {
  }

  /** Any statement of any transaction, a new transaction, an abort, or time passing. */
  lemma StepKeepsSafe(s: System, e: Event)
    requires Safe(s) && Possible(s, e)
    ensures Safe(Step(s, e))
  {
    hide Safe, Possible, Step;
    match e
    case Begin(p) => BeginKeepsSafe(s, p);
    case Elapse(ms) => ElapseKeepsSafe(s, ms);
    case Run(i, order) => RunKeepsSafe(s, i, order);
    case Abort(i) => AbortIsPossible(s, i); AbortKeepsSafe(s, i);
  }

  lemma AbortIsPossible(s: System, i: nat)
    requires Possible(s, Abort(i))
    ensures i < |s.txs| && !s.txs[i].stage.Done?
  {
  }

  lemma {:induction false} RunsStaySafe(s: System, events: seq<Event>)
    requires Safe(s) && IsRun(s, events)
    ensures Safe(After(s, events))
    decreases |events|
  {
    hide Safe, Possible, Step;
    if events != [] {
      StepKeepsSafe(s, events[0]);
      RunsStaySafe(Step(s, events[0]), events[1..]);
    }
  }

  lemma InitialIsSafe(now: int, limits: Limits)
    requires limits.minStake > 0
    ensures Safe(Initial(now, limits))
  {
    hide Consistent;
    EmptyIsConsistent();
  }
}
