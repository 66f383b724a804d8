/**
 Which lock waits can close into a cycle. Postings are applied in account
 order, so ESCROW comes before any wallet; `placeBet` however takes its wallet
 first. A cycle exists exactly when those two meet on one user.
 */
module Deadlock {
  import opened Prelude
  import opened Money
  import opened Ledger
  import opened Tables
  import opened Operations
  import opened Interleaving
  import opened InterleavingState
  import opened InterleavingSafety

  predicate IsPayout(t: Tx) {
    t.program.CashOut? || t.program.Conclude?
  }

  /** How far along the common lock order the lock is that a transaction asks for next. */
  function Level(t: Tx): nat {
    if t.queue != [] then (if t.queue[0].account.Wallet? || t.queue[0].account.House? then 4 else 3)
    else
      match (t.program, t.stage)
      case (CashOut(_, _), Start) => 1
      case (PlaceBet(_, _, _, _, _), RoundHeld(_)) => 1
      case (PlaceBet(_, _, _, _, _), FundsHeld(_)) => 2
      case (Conclude(_, _), Locking(_, _)) => 2
      case _ => 0
  }

  /** The order inversion: a pay-out waits for a wallet that a placement already holds. */
  predicate Inverted(s: System, i: nat, j: nat)
    requires i < |s.txs| && j < |s.txs|
  {
    var t, u := s.txs[i], s.txs[j];
    IsPayout(t) && t.queue != [] && u.program.PlaceBet? && t.queue[0].account == Wallet(u.program.user) &&
    BalanceLock(Wallet(u.program.user)) in u.locks
  }

  /** An inversion that closes: the placement is about to post, and the pay-out holds ESCROW. */
  predicate Clash(s: System, i: nat, j: nat)
    requires i < |s.txs| && j < |s.txs|
  {
    var t, u := s.txs[i], s.txs[j];
    Inverted(s, i, j) && BalanceLock(Escrow) in t.locks && u.queue != [] && u.queue[0].account == Escrow
  }

  // ---------------------------------------------------------------------------
  // What a waiting lock holder waits for
  // ---------------------------------------------------------------------------

  lemma RoundHolderClimbs(db: Db, now: int, limits: Limits, u: Tx, r: nat)
    requires StageOk(db, now, limits, u) && (RoundLock(r) in u.locks || r in u.shared) && Wants(db, u) != Nothing
    ensures Level(u) > 0
  {
    hide OpenFor, Funded, MayPlace, Decidable, ActiveBetsOf, PayoutQueue, MayCashOut, BatchWrites, Distinct, IsAdvance,
         MayStart, SameRace, PlaceAnswer, CashAnswer, ConcludeAnswer, PaysOnly, PaysLast, PaidRow;
  }

  /** A bet that exists is locked only by its own cash-out or by its round's settlement. */
  lemma BetHolderClimbs(db: Db, now: int, limits: Limits, u: Tx, b: nat)
    requires StageOk(db, now, limits, u) && BetLock(b) in u.locks && b in db.bets && Wants(db, u) != Nothing
    ensures Level(u) > (if u.program.Conclude? then 1 else 2)
    ensures u.program.Conclude? ==> db.bets[b].round == u.program.round && RoundLock(u.program.round) in u.locks
  {
    hide OpenFor, Funded, Decidable, PayoutQueue, MayCashOut, BatchWrites, Distinct, IsAdvance,
         MayStart, SameRace, PlaceAnswer, CashAnswer, ConcludeAnswer, PaysOnly, PaysLast, PaidRow;
  }

  /** Who may hold a balance row, and how far along it then is. */
  lemma BalanceHolderClimbs(db: Db, now: int, limits: Limits, u: Tx, a: Account)
    requires StageOk(db, now, limits, u) && BalanceLock(a) in u.locks && Wants(db, u) != Nothing
    ensures match u.program
            case Register(user, _) => (a == Wallet(user) || a == Mint) && user !in db.users && u.queue != []
            case PlaceBet(user, _, _, _, _) =>
              (a == Wallet(user) || a == Escrow) && BalanceLock(Wallet(user)) in u.locks && Level(u) > 1 &&
              (a == Escrow ==> u.queue != [] && u.queue[0].account == Wallet(user))
            case CashOut(_, _) => u.queue != [] && BalanceLock(Escrow) in u.locks
            case Conclude(_, _) => u.queue != [] && BalanceLock(Escrow) in u.locks
            case _ => false
  {
    hide OpenFor, Funded, MayPlace, Decidable, ActiveBetsOf, PayoutQueue, MayCashOut, BatchWrites, Distinct, IsAdvance,
         MayStart, SameRace, PlaceAnswer, CashAnswer, ConcludeAnswer, PaysOnly, PaysLast, PaidRow;
  }

  /** What a transaction with postings left to apply holds already. */
  lemma PostingHolds(db: Db, now: int, limits: Limits, t: Tx)
    requires StageOk(db, now, limits, t) && t.queue != []
    ensures match t.program
            case Register(user, _) =>
              user !in db.users && BalanceLock(Wallet(user)) in t.locks &&
              (t.queue[0].account == Mint ||
               (t.queue[0].account == Wallet(user) && BalanceLock(Mint) in t.locks))
            case PlaceBet(user, _, _, _, _) =>
              BalanceLock(Wallet(user)) in t.locks &&
              (t.queue[0].account == Escrow || t.queue[0].account == Wallet(user))
            case _ =>
              IsPayout(t) && !t.queue[0].account.Mint? &&
              (t.queue[0].account == Escrow || BalanceLock(Escrow) in t.locks) &&
              (t.queue[0].account.Wallet? ==> t.queue[0].account.owner in db.users)
  {
    hide OpenFor, Funded, MayPlace, Decidable, ActiveBetsOf, MayCashOut, BatchWrites, Distinct, IsAdvance,
         MayStart, SameRace, PlaceAnswer, CashAnswer, ConcludeAnswer, PaysOnly, PaysLast, PaidRow;
  }

  lemma KeyHolderHoldsWallet(db: Db, now: int, limits: Limits, u: Tx, user: nat, key: nat)
    requires StageOk(db, now, limits, u) && KeyLock(user, key) in u.locks
    ensures BalanceLock(Wallet(user)) in u.locks
  {
    hide OpenFor, Funded, MayPlace, Decidable, ActiveBetsOf, PayoutQueue, MayCashOut, BatchWrites, Distinct, IsAdvance,
         MayStart, SameRace, PlaceAnswer, CashAnswer, ConcludeAnswer, PaysOnly, PaysLast, PaidRow;
  }

  /** A settlement still taking bet locks names bets of its own round. */
  lemma LockingHolds(db: Db, limits: Limits, t: Tx)
    requires t.program.Conclude? && t.stage.Locking? && t.stage.todo != [] && ConcludeOk(db, limits, t)
    ensures RoundLock(t.program.round) in t.locks
    ensures t.stage.todo[0] in db.bets && db.bets[t.stage.todo[0]].round == t.program.round
  {
    hide Distinct, ActiveIn;
  }

  lemma FundsHeldHolds(db: Db, limits: Limits, t: Tx)
    requires t.program.PlaceBet? && t.stage.FundsHeld? && PlaceOk(db, limits, t)
    ensures BalanceLock(Wallet(t.program.user)) in t.locks
  {
  }

  /** The next statement asks for a lock the transaction does not hold yet. */
  predicate Blocked(s: System, j: nat)
    requires j < |s.txs|
  {
    var need := Wants(s.db, s.txs[j]);
    need != Nothing && (need.Exclusive? ==> need.lock !in s.txs[j].locks)
  }

  lemma WaitingIsBlocked(s: System, j: nat, k: nat)
    requires Safe(s) && j < |s.txs| && k < |s.txs| && Waiting(s, j, k)
    ensures Blocked(s, j)
  {
    hide Safe, StageOk, Wants;
    PairFits(s, j, k);
  }

  lemma PairFits(s: System, i: nat, j: nat)
    requires Safe(s) && i < |s.txs| && j < |s.txs| && i != j
    ensures Compatible(s.txs[i], s.txs[j])
    ensures StageOk(s.db, s.now, s.limits, s.txs[i]) && StageOk(s.db, s.now, s.limits, s.txs[j])
  {
    hide CommittedOk, StageOk, LocksKnown, RowsLocked, AccountsKnown, MoneyTracked, Compatible;
  }

  // ---------------------------------------------------------------------------
  // Waits climb, except through an inversion
  // ---------------------------------------------------------------------------

  lemma PostingWaitClimbs(s: System, i: nat, j: nat)
    requires Safe(s) && i < |s.txs| && j < |s.txs| && Waiting(s, i, j) && Blocked(s, j)
    requires s.txs[i].queue != []
    ensures Level(s.txs[i]) < Level(s.txs[j]) || Inverted(s, i, j)
  {
    hide Safe, StageOk;
    var t, u := s.txs[i], s.txs[j];
    PairFits(s, i, j);
    PostingHolds(s.db, s.now, s.limits, t);
    BalanceHolderClimbs(s.db, s.now, s.limits, u, t.queue[0].account);
    if u.queue != [] {
      PostingHolds(s.db, s.now, s.limits, u);
    }
  }

  lemma WalletWaitClimbs(s: System, i: nat, j: nat)
    requires Safe(s) && i < |s.txs| && j < |s.txs| && Waiting(s, i, j) && Blocked(s, j)
    requires s.txs[i].queue == [] && Wants(s.db, s.txs[i]).Exclusive? && Wants(s.db, s.txs[i]).lock.BalanceLock?
    ensures Level(s.txs[i]) < Level(s.txs[j])
  {
    hide Safe, StageOk;
    var t, u := s.txs[i], s.txs[j];
    PairFits(s, i, j);
    BalanceHolderClimbs(s.db, s.now, s.limits, u, Wants(s.db, t).lock.account);
  }

  lemma BetWaitClimbs(s: System, i: nat, j: nat)
    requires Safe(s) && i < |s.txs| && j < |s.txs| && Waiting(s, i, j) && Blocked(s, j)
    requires s.txs[i].queue == [] && Wants(s.db, s.txs[i]).Exclusive? && Wants(s.db, s.txs[i]).lock.BetLock?
    ensures Level(s.txs[i]) < Level(s.txs[j])
  {
    hide Safe, StageOk, Wants, Level;
    PairFits(s, i, j);
    BetWanted(s, i);
    BetHolderClimbs(s.db, s.now, s.limits, s.txs[j], Wants(s.db, s.txs[i]).lock.bet);
  }

  lemma BetWanted(s: System, i: nat)
    requires i < |s.txs| && StageOk(s.db, s.now, s.limits, s.txs[i]) && s.txs[i].queue == []
    requires Wants(s.db, s.txs[i]).Exclusive? && Wants(s.db, s.txs[i]).lock.BetLock?
    ensures var t, b := s.txs[i], Wants(s.db, s.txs[i]).lock.bet;
            b in s.db.bets &&
            if t.program.Conclude? then
              Level(t) == 2 && RoundLock(t.program.round) in t.locks && s.db.bets[b].round == t.program.round
            else Level(t) == 1
  {
    hide PlaceOk, CashOk, ConcludeOk, RegisterOk, AdvanceOk;
    if s.txs[i].program.Conclude? {
      LockingHolds(s.db, s.limits, s.txs[i]);
    }
  }

  lemma KeyNeverWaits(s: System, i: nat, j: nat)
    requires Safe(s) && i < |s.txs| && j < |s.txs|
    requires s.txs[i].queue == [] && Wants(s.db, s.txs[i]).Exclusive? && Wants(s.db, s.txs[i]).lock.KeyLock?
    ensures !Waiting(s, i, j)
  {
    if Waiting(s, i, j) {
      var t := s.txs[i];
      PairFits(s, i, j);
      hide Safe, PlaceOk, CashOk, ConcludeOk, RegisterOk, AdvanceOk;
      FundsHeldHolds(s.db, s.limits, t);
      KeyHolderHoldsWallet(s.db, s.now, s.limits, s.txs[j], t.program.user, t.program.key);
      assert false;
    }
  }

  lemma RoundWaitClimbs(s: System, i: nat, j: nat)
    requires Safe(s) && i < |s.txs| && j < |s.txs| && Waiting(s, i, j) && Blocked(s, j)
    requires s.txs[i].queue == [] && (Wants(s.db, s.txs[i]).Exclusive? ==> Wants(s.db, s.txs[i]).lock.RoundLock?)
    ensures Level(s.txs[i]) < Level(s.txs[j])
  {
    hide Safe, StageOk;
    PairFits(s, i, j);
    var need := Wants(s.db, s.txs[i]);
    RoundHolderClimbs(s.db, s.now, s.limits, s.txs[j], if need.Shared? then need.round else need.lock.round);
  }

  /** If the one waited for waits too, it waits further along the lock order, or the order is inverted. */
  lemma WaitsClimb(s: System, i: nat, j: nat)
    requires Safe(s) && i < |s.txs| && j < |s.txs| && Waiting(s, i, j) && Blocked(s, j)
    ensures Level(s.txs[i]) < Level(s.txs[j]) || Inverted(s, i, j)
  {
    hide Safe, Level, Inverted;
    var need := Wants(s.db, s.txs[i]);
    if s.txs[i].queue != [] {
      PostingWaitClimbs(s, i, j);
    } else if need.Shared? || need.lock.RoundLock? {
      RoundWaitClimbs(s, i, j);
    } else if need.lock.BalanceLock? {
      WalletWaitClimbs(s, i, j);
    } else if need.lock.BetLock? {
      BetWaitClimbs(s, i, j);
    } else {
      KeyNeverWaits(s, i, j);
    }
  }

  /** An inversion whose placement waits is a clash: it can only be waiting for ESCROW. */
  lemma InversionClashes(s: System, i: nat, j: nat, k: nat)
    requires Safe(s) && i < |s.txs| && j < |s.txs| && k < |s.txs|
    requires Inverted(s, i, j) && Waiting(s, i, j) && Waiting(s, j, k)
    ensures Clash(s, i, j)
  {
    PairFits(s, i, j);
    PairFits(s, j, k);
    PostingHolds(s.db, s.now, s.limits, s.txs[i]);
    if s.txs[j].queue != [] {
      hide Safe, StageOk;
      PostingHolds(s.db, s.now, s.limits, s.txs[j]);
    } else {
      HolderWithoutPostings(s, j);
      KeyNeverWaits(s, j, k);
    }
  }

  lemma HolderWithoutPostings(s: System, j: nat)
    requires Safe(s) && j < |s.txs| && s.txs[j].program.PlaceBet? && s.txs[j].queue == []
    requires BalanceLock(Wallet(s.txs[j].program.user)) in s.txs[j].locks && Wants(s.db, s.txs[j]) != Nothing
    ensures Wants(s.db, s.txs[j]) == Exclusive(KeyLock(s.txs[j].program.user, s.txs[j].program.key))
  {
    assert PlaceOk(s.db, s.limits, s.txs[j]) by {
      hide CommittedOk, PlaceOk, LocksKnown, RowsLocked, AccountsKnown, MoneyTracked, Compatible;
    }
    hide Safe, OpenFor, Funded, MayPlace;
  }

  // ---------------------------------------------------------------------------
  // Cycles
  // ---------------------------------------------------------------------------

  function Next(c: seq<nat>, m: nat): nat
    requires m < |c|
  {
    c[if m + 1 < |c| then m + 1 else 0]
  }

  /** A circle of transactions each waiting for the next. */
  predicate Cycle(s: System, c: seq<nat>) {
    c != [] && (forall m | 0 <= m < |c| :: c[m] < |s.txs|) &&
    forall m | 0 <= m < |c| :: Waiting(s, c[m], Next(c, m))
  }

  lemma {:induction false} LevelsClimbAlong(s: System, c: seq<nat>, m: nat)
    requires Safe(s) && Cycle(s, c) && m < |c|
    requires forall k | 0 <= k < |c| :: !Inverted(s, c[k], Next(c, k))
    ensures c[m] < |s.txs| && c[0] < |s.txs|
    ensures Level(s.txs[c[m]]) >= Level(s.txs[c[0]]) + m
  {
    hide Safe, Level, Inverted, Waiting, Cycle;
    CycleInRange(s, c);
    if m > 0 {
      LevelsClimbAlong(s, c, m - 1);
      CycleWaitsTwice(s, c, m - 1);
    }
  }

  lemma CycleInRange(s: System, c: seq<nat>)
    requires Cycle(s, c)
    ensures forall m | 0 <= m < |c| :: c[m] < |s.txs|
  {
  }

  /** Around the cycle each wait climbs, or is inverted. */
  lemma CycleWaitsTwice(s: System, c: seq<nat>, m: nat)
    requires Safe(s) && Cycle(s, c) && m < |c|
    ensures c[m] < |s.txs| && Next(c, m) < |s.txs|
    ensures Level(s.txs[c[m]]) < Level(s.txs[Next(c, m)]) || Inverted(s, c[m], Next(c, m))
  {
    hide Safe, Level, Inverted, Waiting;
    var next := if m + 1 < |c| then m + 1 else 0;
    assert Waiting(s, c[m], Next(c, m)) && Waiting(s, c[next], Next(c, next));
    WaitingIsBlocked(s, c[next], Next(c, next));
    WaitsClimb(s, c[m], Next(c, m));
  }

  lemma CyclesAreInverted(s: System, c: seq<nat>)
    requires Safe(s) && Cycle(s, c)
    ensures exists m :: 0 <= m < |c| && c[m] < |s.txs| && Next(c, m) < |s.txs| && Inverted(s, c[m], Next(c, m))
  {
    hide Safe, Level, Inverted, Waiting;
    var last := |c| - 1;
    CycleWaitsTwice(s, c, last);
    if forall k | 0 <= k < |c| :: !Inverted(s, c[k], Next(c, k)) {
      LevelsClimbAlong(s, c, last);
    }
  }

  lemma ClashIsACycle(s: System, i: nat, j: nat)
    requires Safe(s) && i < |s.txs| && j < |s.txs| && Clash(s, i, j)
    ensures Cycle(s, [i, j])
  {
    hide Safe, Level;
    PostersAreNotDone(s, i);
    PostersAreNotDone(s, j);
    assert Waiting(s, i, j) && Waiting(s, j, i);
    var c := [i, j];
    assert Next(c, 0) == j && Next(c, 1) == i;
  }

  lemma PostersAreNotDone(s: System, i: nat)
    requires Safe(s) && i < |s.txs| && s.txs[i].queue != []
    ensures !s.txs[i].stage.Done?
  {
    assert StageOk(s.db, s.now, s.limits, s.txs[i]) by {
      hide CommittedOk, StageOk, LocksKnown, RowsLocked, AccountsKnown, MoneyTracked, Compatible;
    }
    hide Safe, PlaceDraining, CashDraining, ConcludeSettling, ConcludeLocking, AdvanceDraining, RegisterDraining,
         PlaceAnswer, CashAnswer, ConcludeAnswer;
  }

  /**
   Exactly when a safe state is deadlocked: some transactions wait in a circle
   if and only if a pay-out that holds ESCROW waits for the wallet of a user
   whose placement holds that wallet and has ESCROW to lock next.
   */
  lemma DeadlockIff(s: System)
    requires Safe(s)
    ensures (exists c :: Cycle(s, c)) <==> exists i, j :: 0 <= i < |s.txs| && 0 <= j < |s.txs| && Clash(s, i, j)
  {
    hide Safe, Clash, Inverted;
    if c :| Cycle(s, c) {
      CyclesAreInverted(s, c);
      var m :| 0 <= m < |c| && c[m] < |s.txs| && Next(c, m) < |s.txs| && Inverted(s, c[m], Next(c, m));
      var next := if m + 1 < |c| then m + 1 else 0;
      assert Waiting(s, c[next], Next(c, next));
      InversionClashes(s, c[m], Next(c, m), Next(c, next));
    }
    if i, j :| 0 <= i < |s.txs| && 0 <= j < |s.txs| && Clash(s, i, j) {
      ClashIsACycle(s, i, j);
    }
  }

  /** The request credits this user: their cash-out, or the closing of a round they have an active bet in. */
  ghost predicate Credits(db: Db, p: Program, user: nat) {
    match p
    case CashOut(u, _) => u == user
    case Conclude(_, r) => exists b :: ActiveIn(db, r, b) && db.bets[b].user == user
    case _ => false
  }

  /** The pay-out credits the user who places the bet, and does not close the very round bet on. */
  ghost predicate Meets(db: Db, payout: Program, place: Program)
    requires place.PlaceBet?
  {
    Credits(db, payout, place.user) && (payout.Conclude? ==> payout.round != place.round)
  }

  /** No user has a placement in flight while a pay-out that credits them, on another round, is. */
  ghost predicate Separate(s: System) {
    forall t, u | t in s.txs && u in s.txs && !t.stage.Done? && !u.stage.Done? && u.program.PlaceBet? ::
      !Meets(s.db, t.program, u.program)
  }

  /** A pay-out only ever posts to the wallets of those it credits. */
  lemma PostsToTheCredited(s: System, t: Tx)
    requires StageOk(s.db, s.now, s.limits, t) && IsPayout(t) && t.queue != [] && t.queue[0].account.Wallet?
    ensures Credits(s.db, t.program, t.queue[0].account.owner)
  {
    hide MayCashOut, PaidRow, BatchWrites, Decidable, DecidedRows, PayoutQueue, EscrowFirst, MayStart, SameRace,
         CashAnswer, ConcludeAnswer, Distinct;
    if t.program.Conclude? {
      var last := t.ids[|t.ids| - 1];
      assert last in t.ids + t.stage.left;
      assert ActiveIn(s.db, t.program.round, last);
    }
  }

  lemma ClashIsNotSeparate(s: System, i: nat, j: nat)
    requires Safe(s) && i < |s.txs| && j < |s.txs| && Clash(s, i, j)
    ensures !Separate(s)
  {
    hide Safe, StageOk, Credits;
    PostersAreNotDone(s, i);
    PostersAreNotDone(s, j);
    PairFits(s, i, j);
    PostsToTheCredited(s, s.txs[i]);
    RoundsHeld(s.db, s.now, s.limits, s.txs[i]);
    RoundsHeld(s.db, s.now, s.limits, s.txs[j]);
    assert s.txs[i] in s.txs && s.txs[j] in s.txs;
  }

  /** While it posts, a conclusion holds its round and a placement shares its own. */
  lemma RoundsHeld(db: Db, now: int, limits: Limits, t: Tx)
    requires StageOk(db, now, limits, t) && (t.queue != [] || t.stage.Settling? || t.stage.FundsHeld?)
    ensures t.program.Conclude? ==> RoundLock(t.program.round) in t.locks
    ensures t.program.PlaceBet? ==> t.program.round in t.shared
  {
    hide OpenFor, Funded, MayPlace, Decidable, ActiveBetsOf, PayoutQueue, MayCashOut, BatchWrites, Distinct, IsAdvance,
         MayStart, SameRace, PlaceAnswer, CashAnswer, ConcludeAnswer, PaysOnly, PaysLast, PaidRow, EscrowFirst;
  }

  /** As long as no user bets while being paid, nothing deadlocks, whatever else is in flight. */
  lemma SeparateIsDeadlockFree(s: System)
    requires Safe(s) && Separate(s)
    ensures forall c :: !Cycle(s, c)
  {
    hide Safe, Clash, Separate;
    DeadlockIff(s);
    forall i, j | 0 <= i < |s.txs| && 0 <= j < |s.txs| ensures !Clash(s, i, j) {
      if Clash(s, i, j) { ClashIsNotSeparate(s, i, j); }
    }
  }

  /** Any mix of cash-outs, settlements and voids, and separately any set of placements, is free of deadlock. */
  lemma UnmixedIsDeadlockFree(s: System)
    requires Safe(s)
    requires (forall t | t in s.txs :: t.program.PlaceBet? ==> t.stage.Done?) ||
             (forall t | t in s.txs :: IsPayout(t) ==> t.stage.Done?)
    ensures forall c :: !Cycle(s, c)
  {
    hide Safe, Cycle;
    assert Separate(s);
    SeparateIsDeadlockFree(s);
  }

  // ---------------------------------------------------------------------------
  // Someone can always run
  // ---------------------------------------------------------------------------

  /** The transaction has not finished, and no other holds a lock its next statement needs. */
  ghost predicate CanRun(s: System, i: nat) {
    i < |s.txs| && !s.txs[i].stage.Done? && forall j | 0 <= j < |s.txs| :: !Waiting(s, i, j)
  }

  lemma HoldersAreUnfinished(s: System, i: nat, j: nat)
    requires Safe(s) && i < |s.txs| && j < |s.txs| && Waiting(s, i, j)
    ensures !s.txs[j].stage.Done?
  {
    hide Safe, StageOk, Wants;
    PairFits(s, i, j);
    DoneHoldsNothing(s.db, s.now, s.limits, s.txs[j]);
  }

  lemma DoneHoldsNothing(db: Db, now: int, limits: Limits, t: Tx)
    requires StageOk(db, now, limits, t)
    ensures t.stage.Done? ==> t.locks == {} && t.shared == {}
  {
    hide PlaceDraining, CashDraining, ConcludeSettling, ConcludeLocking, AdvanceDraining, RegisterDraining,
         PlaceAnswer, CashAnswer, ConcludeAnswer, OpenFor, Funded;
  }

  lemma LevelsEnd(t: Tx)
    ensures Level(t) <= 4
  {
  }

  /** Following the waits from any unfinished transaction ends at one that can run. */
  lemma {:induction false} FollowTheWaits(s: System, i: nat) returns (k: nat)
    requires Safe(s) && i < |s.txs| && !s.txs[i].stage.Done?
    requires forall a, b | 0 <= a < |s.txs| && 0 <= b < |s.txs| :: !Clash(s, a, b)
    ensures CanRun(s, k)
    decreases 4 - Level(s.txs[i])
  {
    hide Safe, Level, Inverted, Waiting, Clash;
    k := i;
    if !CanRun(s, i) {
      var j :| 0 <= j < |s.txs| && Waiting(s, i, j);
      HoldersAreUnfinished(s, i, j);
      k := j;
      if !CanRun(s, j) {
        var m :| 0 <= m < |s.txs| && Waiting(s, j, m);
        WaitingIsBlocked(s, j, m);
        WaitsClimb(s, i, j);
        LevelsEnd(s.txs[j]);
        if Inverted(s, i, j) {
          InversionClashes(s, i, j, m);
        }
        k := FollowTheWaits(s, j);
      }
    }
  }

  /** Short of that one clash the system never stands still: while anything is in flight, something can run. */
  lemma SomeoneCanAlwaysRun(s: System)
    requires Safe(s) && exists t :: t in s.txs && !t.stage.Done?
    requires forall a, b | 0 <= a < |s.txs| && 0 <= b < |s.txs| :: !Clash(s, a, b)
    ensures exists i :: CanRun(s, i)
  {
    hide Safe, Clash, CanRun;
    var t :| t in s.txs && !t.stage.Done?;
    var i :| 0 <= i < |s.txs| && s.txs[i] == t;
    var k := FollowTheWaits(s, i);
  }
}
