/** What every reachable state guarantees, read off the invariant. */
module Guarantees {
  import opened Prelude
  import opened Money
  import opened CrashCurve
  import opened Fairness
  import opened Roulette
  import opened Ledger
  import opened Tables
  import opened Operations
  import opened Interleaving
  import opened InterleavingState
  import opened InterleavingPlace
  import opened InterleavingPayouts
  import opened InterleavingSafety

  /** Some interleaving of some transactions leads from the empty tables to this state. */
  ghost predicate Reachable(s: System) {
    exists now, limits: Limits, events ::
      limits.minStake > 0 && IsRun(Initial(now, limits), events) && s == After(Initial(now, limits), events)
  }

  lemma ReachableIsSafe(s: System)
    requires Reachable(s)
    ensures Safe(s) && Consistent(s.db)
  {
    hide Consistent, Safe, IsRun, After, Initial;
    var now, limits: Limits, events :|
      limits.minStake > 0 && IsRun(Initial(now, limits), events) && s == After(Initial(now, limits), events);
    InitialIsSafe(now, limits);
    RunsStaySafe(Initial(now, limits), events);
    SafeIsConsistent(s);
  }

  lemma SafeIsConsistent(s: System)
    requires Safe(s)
    ensures Consistent(s.db)
  {
    hide Consistent, ClockOk, TxOk, Compatible;
  }

  // ---------------------------------------------------------------------------
  // Each bet is debited once and settled once
  // ---------------------------------------------------------------------------

  function Count(j: Journal, kind: Kind, ref: Reference): nat {
    if j == [] then 0
    else
      var last := j[|j| - 1];
      Count(j[..|j| - 1], kind, ref) + (if last.kind == kind && last.reference == ref then 1 else 0)
  }

  lemma {:induction false} CountAppend(j: Journal, k: Journal, kind: Kind, ref: Reference)
    ensures Count(j + k, kind, ref) == Count(j, kind, ref) + Count(k, kind, ref)
  {
    if k == [] {
      assert j + k == j;
    } else {
      CountAppend(j, k[..|k| - 1], kind, ref);
      assert (j + k)[..|j + k| - 1] == j + k[..|k| - 1];
    }
  }

  lemma CountOne(t: Transaction, kind: Kind, ref: Reference)
    ensures Count([t], kind, ref) == if t.kind == kind && t.reference == ref then 1 else 0
  {
    assert [t][..0] == [];
  }

  lemma {:induction false} CountAbout(j: Journal, kind: Kind, ref: Reference)
    ensures Count(About(j, ref), kind, ref) == Count(j, kind, ref)
  {
    if j != [] {
      var last := j[|j| - 1];
      CountAbout(j[..|j| - 1], kind, ref);
      CountOne(last, kind, ref);
      CountAppend(About(j[..|j| - 1], ref), if last.reference == ref then [last] else [], kind, ref);
    }
  }

  /** How often one kind of posting names one bet. */
  function Tally(b: Bet, kind: Kind): nat {
    match kind
    case SignupGrant => 0
    case BetPlaced => 1
    case BetCashout => if b.status == Won then 1 else 0
    case BetLost => if b.status == Lost then 1 else 0
    case RoundVoidRefund => if b.status == Refunded then 1 else 0
  }

  lemma CountHistory(id: nat, b: Bet, kind: Kind)
    ensures Count(HistoryOf(id, b), kind, BetRef(id)) == Tally(b, kind)
  {
    CountAppend([PlacedTx(id, b)], SettlementOf(id, b), kind, BetRef(id));
    CountOne(PlacedTx(id, b), kind, BetRef(id));
    if b.status != Active {
      CountOne(SettlementOf(id, b)[0], kind, BetRef(id));
      assert SettlementOf(id, b) == [SettlementOf(id, b)[0]];
    }
  }

  /**
   Exactly once, in every reachable state: one debit per bet; no settlement
   while it is active and exactly one, of the kind its status names, once it
   is not. It is never both paid and written off. A bet that does not exist
   has left no posting behind.
   */
  lemma EachBetIsSettledExactlyOnce(s: System, b: nat)
    requires Reachable(s)
    ensures var n := (kind: Kind) => Count(s.db.journal, kind, BetRef(b));
            if b !in s.db.bets then forall kind :: n(kind) == 0
            else
              n(SignupGrant) == 0 && n(BetPlaced) == 1 &&
              n(BetCashout) == (if s.db.bets[b].status == Won then 1 else 0) &&
              n(BetLost) == (if s.db.bets[b].status == Lost then 1 else 0) &&
              n(RoundVoidRefund) == (if s.db.bets[b].status == Refunded then 1 else 0) &&
              n(BetCashout) + n(BetLost) + n(RoundVoidRefund) == (if s.db.bets[b].status == Active then 0 else 1)
  {
    hide Safe, Reachable, BetsFit, RoundsFit, BalancesMatchJournal, NoWalletOverdrawn, AllBalanced, BetJournalFits,
         Count;
    ReachableIsSafe(s);
    assert BetJournalFits(s.db.journal, s.db.bets, b);
    hide Consistent, JournalMatchesRows;
    forall kind { CountOfBet(s.db, b, kind); }
  }

  lemma CountOfBet(db: Db, b: nat, kind: Kind)
    requires BetJournalFits(db.journal, db.bets, b)
    ensures Count(db.journal, kind, BetRef(b)) == if b in db.bets then Tally(db.bets[b], kind) else 0
  {
    hide HistoryOf;
    CountAbout(db.journal, kind, BetRef(b));
    if b in db.bets { CountHistory(b, db.bets[b], kind); }
  }

  // ---------------------------------------------------------------------------
  // Balances
  // ---------------------------------------------------------------------------

  function ActiveStakes(bets: map<nat, Bet>, n: nat): int {
    if n == 0 then 0
    else ActiveStakes(bets, n - 1) +
         if n - 1 in bets && bets[n - 1].status == Active then bets[n - 1].stake else 0
  }

  /** Lost stakes, less what winners were paid above theirs. */
  function HouseTake(bets: map<nat, Bet>, n: nat): int {
    if n == 0 then 0
    else HouseTake(bets, n - 1) +
         if n - 1 !in bets then 0
         else
           match bets[n - 1].status
           case Lost => bets[n - 1].stake
           case Won => bets[n - 1].stake - (if bets[n - 1].payout.Some? then bets[n - 1].payout.value else 0)
           case _ => 0
  }

  /** A user's recorded payouts less their stakes. */
  function Winnings(bets: map<nat, Bet>, n: nat, u: nat): int {
    if n == 0 then 0
    else Winnings(bets, n - 1, u) +
         if n - 1 in bets && bets[n - 1].user == u then
           (if bets[n - 1].payout.Some? then bets[n - 1].payout.value else 0) - bets[n - 1].stake
         else 0
  }

  function Grants(users: map<nat, nat>, n: nat): int {
    if n == 0 then 0 else Grants(users, n - 1) + if n - 1 in users then users[n - 1] else 0
  }

  lemma {:induction false} HoldingsByAccount(db: Db, n: nat, u: nat)
    requires AmountsFit(db)
    ensures SumHoldings(db.bets, n, Escrow) == ActiveStakes(db.bets, n)
    ensures SumHoldings(db.bets, n, House) == HouseTake(db.bets, n)
    ensures SumHoldings(db.bets, n, Wallet(u)) == Winnings(db.bets, n, u)
    ensures SumHoldings(db.bets, n, Mint) == 0
  {
    if n > 0 { HoldingsByAccount(db, n - 1, u); }
  }

  lemma {:induction false} GrantsByAccount(users: map<nat, nat>, n: nat, u: nat)
    ensures Granted(users, n, Escrow) == 0 && Granted(users, n, House) == 0
    ensures Granted(users, n, Mint) == -Grants(users, n)
    ensures Granted(users, n, Wallet(u)) == if u < n && u in users then users[u] else 0
  {
    if n > 0 { GrantsByAccount(users, n - 1, u); }
  }

  lemma BalanceIsTheClosedForm(db: Db, n: nat, a: Account)
    requires Consistent(db) && Bounds(db, n) && a in db.balances
    ensures db.balances[a] == SumHoldings(db.bets, n, a) + Granted(db.users, n, a)
    ensures db.balances[a] == EntrySum(db.journal, a) && AmountsFit(db)
  {
    FittingAmounts(db);
    hide BetsFit, RoundsFit, NoWalletOverdrawn, AllBalanced, JournalMatchesRows;
    EntriesAreTheClosedForm(db, n, a);
  }

  lemma SystemAccountsExist(db: Db, u: nat)
    requires Consistent(db) && u in db.users
    ensures {Mint, Escrow, House, Wallet(u)} <= db.balances.Keys
  {
    hide BetsFit, RoundsFit, NoWalletOverdrawn, AllBalanced, JournalMatchesRows;
  }

  /** The four balances, in every reachable state, as sums over the rows. */
  lemma BalancesAreAClosedForm(s: System, n: nat, u: nat)
    requires Reachable(s) && Bounds(s.db, n) && u in s.db.users
    ensures {Mint, Escrow, House, Wallet(u)} <= s.db.balances.Keys
    ensures s.db.balances[Escrow] == ActiveStakes(s.db.bets, n)
    ensures s.db.balances[House] == HouseTake(s.db.bets, n)
    ensures s.db.balances[Wallet(u)] == s.db.users[u] + Winnings(s.db.bets, n, u)
    ensures s.db.balances[Mint] == -Grants(s.db.users, n)
  {
    hide Reachable, Safe, Consistent, AmountsFit;
    ReachableIsSafe(s);
    SystemAccountsExist(s.db, u);
    BalanceIsTheClosedForm(s.db, n, Escrow);
    BalanceIsTheClosedForm(s.db, n, House);
    BalanceIsTheClosedForm(s.db, n, Mint);
    BalanceIsTheClosedForm(s.db, n, Wallet(u));
    HoldingsByAccount(s.db, n, u);
    GrantsByAccount(s.db.users, n, u);
  }

  /** The global sum is zero, no balance has drifted from its entries, and no wallet is overdrawn. */
  lemma BooksAlwaysBalance(s: System)
    requires Reachable(s)
    ensures GlobalSum(s.db.journal) == 0
    ensures forall a | a in s.db.balances :: s.db.balances[a] == EntrySum(s.db.journal, a)
    ensures forall a | a in s.db.balances && Guarded(a) :: s.db.balances[a] >= 0
  {
    ReachableIsSafe(s);
    BalancedJournalSumsToZero(s.db.journal);
    EscrowBalanceNonNegative(s.db);
    hide Safe, Reachable, BetsFit, RoundsFit, AllBalanced, JournalMatchesRows;
  }

  function WalletTotal(db: Db, n: nat): int {
    if n == 0 then 0 else WalletTotal(db, n - 1) + BaseBalance(db, Wallet(n - 1))
  }

  /** A bet's holdings cancel out over the accounts it touches. */
  function AllWinnings(bets: map<nat, Bet>, n: nat, users: nat): int {
    if users == 0 then 0 else AllWinnings(bets, n, users - 1) + Winnings(bets, n, users - 1)
  }

  function WinningsOf(b: Bet): int {
    (if b.payout.Some? then b.payout.value else 0) - b.stake
  }

  lemma {:induction false} AllWinningsSteps(bets: map<nat, Bet>, n: nat, users: nat)
    requires n > 0
    ensures AllWinnings(bets, n, users) == AllWinnings(bets, n - 1, users) +
            if n - 1 in bets && bets[n - 1].user < users then WinningsOf(bets[n - 1]) else 0
  {
    if users > 0 { AllWinningsSteps(bets, n, users - 1); }
  }

  lemma {:induction false} NothingWonYet(bets: map<nat, Bet>, users: nat)
    ensures AllWinnings(bets, 0, users) == 0
  {
    if users > 0 { NothingWonYet(bets, users - 1); }
  }

  lemma {:induction false} BetsAreZeroSum(db: Db, n: nat, users: nat)
    requires AmountsFit(db) && forall b | b in db.bets :: db.bets[b].user < users
    ensures ActiveStakes(db.bets, n) + HouseTake(db.bets, n) + AllWinnings(db.bets, n, users) == 0
  {
    if n == 0 {
      NothingWonYet(db.bets, users);
    } else {
      BetsAreZeroSum(db, n - 1, users);
      AllWinningsSteps(db.bets, n, users);
    }
  }

  lemma {:induction false} WalletsSplit(db: Db, n: nat, k: nat)
    requires forall u: nat | u < k ::
               BaseBalance(db, Wallet(u)) == Winnings(db.bets, n, u) + (if u in db.users then db.users[u] else 0)
    ensures WalletTotal(db, k) == AllWinnings(db.bets, n, k) + Grants(db.users, k)
  {
    if k > 0 { WalletsSplit(db, n, k - 1); }
  }

  lemma {:induction false} StrangersWinNothing(db: Db, n: nat, u: nat)
    requires u !in db.users && forall b | b in db.bets :: db.bets[b].user in db.users
    ensures Winnings(db.bets, n, u) == 0
  {
    if n > 0 { StrangersWinNothing(db, n - 1, u); }
  }

  lemma WalletIsGrantPlusWinnings(db: Db, n: nat, u: nat)
    requires Consistent(db) && Bounds(db, n)
    ensures BaseBalance(db, Wallet(u)) == Winnings(db.bets, n, u) + (if u in db.users then db.users[u] else 0)
  {
    BettorsExist(db);
    NoWalletForStrangers(db, u);
    hide Consistent;
    if u in db.users {
      BalanceIsTheClosedForm(db, n, Wallet(u));
      HoldingsByAccount(db, n, u);
      GrantsByAccount(db.users, n, u);
    } else {
      StrangersWinNothing(db, n, u);
    }
  }

  lemma BettorsExist(db: Db)
    requires Consistent(db)
    ensures forall b | b in db.bets :: db.bets[b].user in db.users
  {
    forall b | b in db.bets ensures db.bets[b].user in db.users {
      CommittedBetFits(db, b);
    }
  }

  lemma NoWalletForStrangers(db: Db, u: nat)
    requires Consistent(db)
    ensures Wallet(u) in db.balances <==> u in db.users
    ensures Mint in db.balances && Escrow in db.balances && House in db.balances
  {
    hide BetsFit, RoundsFit, NoWalletOverdrawn, AllBalanced, JournalMatchesRows;
  }

  /** Conservation: all balances together are zero, however the bets stand. */
  lemma AllBalancesSumToZero(s: System, n: nat)
    requires Reachable(s) && Bounds(s.db, n)
    ensures BaseBalance(s.db, Mint) + BaseBalance(s.db, Escrow) + BaseBalance(s.db, House) + WalletTotal(s.db, n) == 0
  {
    hide Reachable, Safe, Consistent;
    var db := s.db;
    ReachableIsSafe(s);
    NoWalletForStrangers(db, 0);
    BalanceIsTheClosedForm(db, n, Escrow);
    BalanceIsTheClosedForm(db, n, House);
    BalanceIsTheClosedForm(db, n, Mint);
    HoldingsByAccount(db, n, 0);
    GrantsByAccount(db.users, n, 0);
    BettorsExist(db);
    BetsAreZeroSum(db, n, n);
    forall u: nat | u < n
      ensures BaseBalance(db, Wallet(u)) == Winnings(db.bets, n, u) + (if u in db.users then db.users[u] else 0)
    {
      WalletIsGrantPlusWinnings(db, n, u);
    }
    WalletsSplit(db, n, n);
  }

  // ---------------------------------------------------------------------------
  // Rounds
  // ---------------------------------------------------------------------------

  /** A settled or voided round has no active bet, and every outcome is one its round justifies. */
  lemma ConcludedRoundsHaveNoActiveBets(s: System, b: nat)
    requires Reachable(s) && b in s.db.bets
    ensures s.db.bets[b].round in s.db.rounds
    ensures var bet, r := s.db.bets[b], s.db.rounds[s.db.bets[b].round];
            (r.status == Settled || r.status == Voided ==> bet.status != Active) &&
            (bet.status == Refunded ==> r.status == Voided) && (bet.status == Lost ==> r.status == Settled)
  {
    ReachableIsSafe(s);
    hide Reachable, Safe, Consistent;
    CommittedBetFits(s.db, b);
  }

  /**
   Every win is one its round justifies, and is paid exactly its floored
   price. A crash win was paid at what the curve shows at some tick that has
   passed since its round started, below the crash point whatever the engine
   did meanwhile; a roulette win on a winning selection at the odds stored.
   */
  lemma WinsAreJustified(s: System, b: nat)
    requires Reachable(s) && b in s.db.bets && s.db.bets[b].status == Won
    ensures s.db.bets[b].round in s.db.rounds && s.db.bets[b].multiplier.Some?
    ensures var bet, r, m := s.db.bets[b], s.db.rounds[s.db.bets[b].round], s.db.bets[b].multiplier.value;
            m >= BASIS_POINTS_ONE && bet.payout == Some(Scale(bet.stake, m)) && Scale(bet.stake, m) >= bet.stake &&
            if r.game == CrashGame then
              r.crashPoint.Some? && m < r.crashPoint.value && r.startedAt.Some? && r.startedAt.value <= s.now &&
              exists tick: nat :: TICK_MS * tick <= s.now - r.startedAt.value && m == MultiplierAtTick(tick)
            else
              r.status == Settled && bet.odds == Some(m) && bet.selection.Some? && r.pocket.Some? &&
              SelectionWins(bet.selection.value, r.pocket.value) == Ok(true)
  {
    hide Reachable, Safe, Consistent, ClockOk, MultiplierAtTick, OnTheCurve;
    ReachableIsSafe(s);
    CommittedBetFits(s.db, b);
    PayoutCoversStake(s.db.bets[b].stake, s.db.bets[b].multiplier.value);
    WinWasShown(s, b);
    hide Wins;
    var r := s.db.rounds[s.db.bets[b].round];
    if r.game == CrashGame {
      var tick: nat :| tick <= TickAtElapsed(s.now - r.startedAt.value) &&
                       s.db.bets[b].multiplier.value == MultiplierAtTick(tick);
      assert TICK_MS * tick <= s.now - r.startedAt.value;
    }
  }

  lemma WinWasShown(s: System, b: nat)
    requires Safe(s) && b in s.db.bets && s.db.bets[b].round in s.db.rounds
    ensures PaidInTime(s.db.bets[b], s.db.rounds[s.db.bets[b].round], s.now)
    ensures TimesFit(s.db.rounds[s.db.bets[b].round], s.now)
  {
    hide Consistent, TxOk, Compatible, PaidInTime;
  }

  /** So the house bound covers every crash win: over all draws its price returns at most 99.99% of its stakes. */
  lemma EveryCrashWinIsHouseBounded(s: System, b: nat, space: nat)
    requires Reachable(s) && b in s.db.bets && s.db.bets[b].status == Won
    ensures s.db.bets[b].round in s.db.rounds && s.db.bets[b].multiplier.Some?
    ensures s.db.rounds[s.db.bets[b].round].game == CrashGame ==>
              BASIS_POINTS_ONE * TotalPaid(space, s.db.bets[b].multiplier.value, s.db.bets[b].stake, space)
              <= 9_999 * (space * s.db.bets[b].stake)
  {
    hide Reachable, MultiplierAtTick, Scale, TotalPaid, Wins;
    WinsAreJustified(s, b);
    var r := s.db.rounds[s.db.bets[b].round];
    if r.game == CrashGame {
      var tick: nat :| s.db.bets[b].multiplier.value == MultiplierAtTick(tick);
      HouseBound(space, tick, s.db.bets[b].stake);
    }
  }

  /** Once every round is settled or voided, escrow is empty. */
  lemma EscrowEmptiesOut(s: System)
    requires Reachable(s)
    requires forall r | r in s.db.rounds :: s.db.rounds[r].status == Settled || s.db.rounds[r].status == Voided
    ensures Escrow in s.db.balances && s.db.balances[Escrow] == 0
  {
    ReachableIsSafe(s);
    forall b | b in s.db.bets ensures s.db.bets[b].status != Active {
      hide Reachable, Safe, Consistent;
      ConcludedRoundsHaveNoActiveBets(s, b);
    }
    FittingAmounts(s.db);
    EscrowIsNonNegative(s.db);
  }

  /** At most one round per game is ever open, locked or running. */
  lemma OneLiveRoundPerGame(s: System, r: nat, q: nat)
    requires Reachable(s) && r in s.db.rounds && q in s.db.rounds && s.db.rounds[r].game == s.db.rounds[q].game
    requires Live(s.db.rounds[r].status) && Live(s.db.rounds[q].status)
    ensures r == q
  {
    ReachableIsSafe(s);
    hide Reachable, Safe, BetsFit, NoWalletOverdrawn, AllBalanced, JournalMatchesRows, BalancesMatchJournal;
  }

  // ---------------------------------------------------------------------------
  // Answers
  // ---------------------------------------------------------------------------

  /** The refusals only a trigger, a CHECK or an index can produce. */
  predicate RaisedByTheDatabase(f: Failure) {
    f.CheckViolation? || f.UniqueViolation? || (f.LedgerFailure? && (f.ledger.Overdrawn? || f.ledger.Unbalanced?))
  }

  lemma AnswersKnown(s: System, i: nat)
    requires Reachable(s) && i < |s.txs|
    ensures StageOk(s.db, s.now, s.limits, s.txs[i])
  {
    hide Reachable, CommittedOk, StageOk, LocksKnown, RowsLocked, AccountsKnown, MoneyTracked, Compatible;
    ReachableIsSafe(s);
  }

  /**
   The database's guards are never what refuses a bet, a cash-out, a
   settlement or a refund, nor is one refused for a missing account. The one
   exception is a void of a round that has resolved: its CHECK aborts it.
   */
  lemma GuardsNeverRefuse(s: System, i: nat, f: Failure)
    requires Reachable(s) && i < |s.txs| && s.txs[i].stage == Done(Refused(f))
    requires s.txs[i].program.PlaceBet? || s.txs[i].program.CashOut? || s.txs[i].program.Conclude?
    ensures RaisedByTheDatabase(f) ==>
              s.txs[i].program.Conclude? && s.txs[i].program.voiding && f == CheckViolation &&
              s.txs[i].program.round in s.db.rounds && HasResolved(s.db.rounds[s.txs[i].program.round])
  {
    hide Reachable, MayOverflow;
    AnswersKnown(s, i);
  }

  /** With a stake limit that thirty-six-fold is a safe integer, no settlement is ever refused. */
  lemma SettlementsNeverFail(s: System, i: nat)
    requires Reachable(s) && i < |s.txs| && s.txs[i].program.Conclude? && !s.txs[i].program.voiding
    requires 36 * s.limits.maxStake <= MAX_SAFE_INTEGER
    ensures s.txs[i].stage.Done? ==> !s.txs[i].stage.answer.Refused?
  {
    hide Reachable;
    AnswersKnown(s, i);
  }

  /** Nor is a cash-out refused for its price, when the limit at the top of the curve is a safe integer. */
  lemma CashOutsArePriceable(s: System, i: nat)
    requires Reachable(s) && i < |s.txs| && s.txs[i].program.CashOut?
    requires Scale(s.limits.maxStake, MaxMultiplierBp()) <= MAX_SAFE_INTEGER
    ensures s.txs[i].stage.Done? ==> s.txs[i].stage.answer != Refused(MoneyFailure(Unsafe))
  {
    hide Reachable, MaxMultiplierBp;
    AnswersKnown(s, i);
  }

  /** However many requests carry one user and key, those that succeed all answer with the same bet. */
  lemma PlacementIsIdempotent(s: System, i: nat, j: nat, b: nat, c: nat)
    requires Reachable(s) && i < |s.txs| && j < |s.txs|
    requires s.txs[i].program.PlaceBet? && s.txs[j].program.PlaceBet?
    requires s.txs[i].program.user == s.txs[j].program.user && s.txs[i].program.key == s.txs[j].program.key
    requires s.txs[i].stage == Done(Answered(b)) && s.txs[j].stage == Done(Answered(c))
    ensures b == c && HasKey(s.db, s.txs[i].program.user, s.txs[i].program.key, b)
    ensures Count(s.db.journal, BetPlaced, BetRef(b)) == 1
  {
    hide Reachable, Safe, Consistent, StageOk, HasKey;
    ReachableIsSafe(s);
    AnswersKnown(s, i);
    AnswersKnown(s, j);
    AnsweredHasKey(s, s.txs[i], b);
    AnsweredHasKey(s, s.txs[j], c);
    OneHolderPerKey(s.db, s.txs[i].program.user, s.txs[i].program.key, b, c);
    EachBetIsSettledExactlyOnce(s, b);
    assert b in s.db.bets by { KeyHolderExists(s.db, s.txs[i].program.user, s.txs[i].program.key, b); }
  }

  lemma AnsweredHasKey(s: System, t: Tx, b: nat)
    requires StageOk(s.db, s.now, s.limits, t) && t.program.PlaceBet? && t.stage == Done(Answered(b))
    ensures HasKey(s.db, t.program.user, t.program.key, b)
  {
  }

  lemma KeyHolderExists(db: Db, user: nat, key: nat, b: nat)
    requires HasKey(db, user, key, b)
    ensures b in db.bets
  {
  }

  lemma OneHolderPerKey(db: Db, user: nat, key: nat, b: nat, c: nat)
    requires Consistent(db) && HasKey(db, user, key, b) && HasKey(db, user, key, c)
    ensures b == c
  {
    hide RoundsFit, NoWalletOverdrawn, AllBalanced, JournalMatchesRows, BalancesMatchJournal, BetFits;
  }

  /** A cash-out that answered with a bet has been paid, exactly once and above or at its stake. */
  lemma PaidCashOutIsWon(s: System, i: nat, b: nat)
    requires Reachable(s) && i < |s.txs| && s.txs[i].program.CashOut? && s.txs[i].stage == Done(Answered(b))
    ensures b == s.txs[i].program.bet && b in s.db.bets && s.db.bets[b].status == Won
    ensures s.db.bets[b].payout.Some? && s.db.bets[b].payout.value >= s.db.bets[b].stake
    ensures Count(s.db.journal, BetCashout, BetRef(b)) == 1 && Count(s.db.journal, BetLost, BetRef(b)) == 0
  {
    hide Reachable, Safe, BetsFit, RoundsFit, BalancesMatchJournal, NoWalletOverdrawn, AllBalanced, JournalMatchesRows;
    ReachableIsSafe(s);
    FittingAmounts(s.db);
    hide Consistent;
    AnswersKnown(s, i);
    EachBetIsSettledExactlyOnce(s, b);
  }
}
