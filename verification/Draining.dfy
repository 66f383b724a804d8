/**
 When everything in flight can still finish. A cycle of waits is not the whole
 story: a pay-out may hold ESCROW and owe a wallet that a placement bound for
 ESCROW already holds, while neither waits yet. Exactly these pairs are what
 no schedule can finish.
 */
module Draining {
  import opened Prelude
  import opened Money
  import opened Ledger
  import opened Tables
  import opened Operations
  import opened Interleaving
  import opened InterleavingState
  import opened InterleavingPosting
  import opened InterleavingMoves
  import opened InterleavingPlace
  import opened InterleavingPayouts
  import opened InterleavingConclude
  import opened InterleavingSafety
  import opened Atomicity
  import opened Guarantees
  import opened Deadlock
  import opened Placing
  import opened Realised

  // ---------------------------------------------------------------------------
  // What a pay-out has yet to post
  // ---------------------------------------------------------------------------

  predicate CreditsUser(row: Bet, user: nat) {
    row.user == user && (row.status == Won || row.status == Refunded)
  }

  /** Deciding these bets in turn comes to one that credits the user, before any that cannot be decided. */
  predicate WillCredit(voiding: bool, db: Db, r: nat, left: seq<nat>, user: nat)
    decreases |left|
  {
    left != [] && left[0] in db.bets && r in db.rounds &&
    var decided := Decide(voiding, db.bets[left[0]], db.rounds[r]);
    decided.Ok? && (CreditsUser(decided.value, user) || WillCredit(voiding, db, r, left[1..], user))
  }

  predicate Queued(q: seq<Posting>, user: nat) {
    exists k :: 0 <= k < |q| && q[k].account == Wallet(user)
  }

  /** The pay-out will post to this user's wallet before it ends. */
  predicate Owes(db: Db, t: Tx, user: nat) {
    Queued(t.queue, user) ||
    (t.program.Conclude? && t.stage.Settling? &&
     WillCredit(t.program.voiding, db, t.program.round, t.stage.left, user))
  }

  /** The placement holds its wallet and will ask for ESCROW: its bet is inserted, or nothing stands in the way of it. */
  ghost predicate BoundForEscrow(db: Db, t: Tx) {
    t.program.PlaceBet? &&
    ((t.stage.FundsHeld? && !KeyTaken(db, t.program.user, t.program.key)) ||
     (t.stage.Draining? && t.queue == PlaceQueue(t.program)))
  }

  /** Each will need what the other holds until it ends. */
  ghost predicate Entangled(s: System, i: nat, j: nat) {
    i < |s.txs| && j < |s.txs| && IsPayout(s.txs[i]) && BalanceLock(Escrow) in s.txs[i].locks &&
    BoundForEscrow(s.db, s.txs[j]) && Owes(s.db, s.txs[i], s.txs[j].program.user)
  }

  predicate Settles(t: Tx) {
    (t.program.CashOut? && t.stage.Paying?) || (t.program.Conclude? && t.stage.Settling?)
  }

  /** What one statement of a pay-out does to its debts. */
  lemma PayoutStatement(s: System, t: Tx, order: seq<nat>)
    requires Settles(t) && Act(s, t, order).Go?
    ensures var next := Act(s, t, order).next;
            next.locks == t.locks && next.program == t.program && Settles(next) &&
            if t.queue != [] then next.queue == t.queue[1..] && next.stage == t.stage
            else
              t.stage.Settling? && t.stage.left != [] && t.stage.left[0] in s.db.bets && t.program.round in s.db.rounds &&
              var decided := Decide(t.program.voiding, s.db.bets[t.stage.left[0]], s.db.rounds[t.program.round]);
              decided.Ok? && next.stage == Settling(t.stage.left[1..]) &&
              next.queue == Sorted(DecisionTx(t.stage.left[0], decided.value).postings)
  {
    hide BetChecks, RoundChecks, Balanced, Sorted, Decide, DecisionTx, PriceAt, Concluded, UpdateIfActive;
  }

  lemma DecisionCredits(id: nat, row: Bet, user: nat)
    ensures Queued(Sorted(DecisionTx(id, row).postings), user) <==> CreditsUser(row, user)
  {
    hide Sorted;
    var q := Sorted(DecisionTx(id, row).postings);
    match row.status
    case Won =>
      var payout := if row.payout.Some? then row.payout.value else 0;
      SortedPayout(row.user, row.stake, payout);
      assert q[|q| - 1].account == Wallet(row.user);
    case Refunded =>
      SortedPair(Posting(Escrow, Negate(row.stake)), Posting(Wallet(row.user), row.stake));
      assert q[1].account == Wallet(row.user);
    case _ =>
      SortedPair(Posting(Escrow, Negate(row.stake)), Posting(House, row.stake));
  }

  lemma RestQueued(q: seq<Posting>, user: nat)
    requires q != []
    ensures Queued(q, user) <==> q[0].account == Wallet(user) || Queued(q[1..], user)
  {
    if Queued(q, user) && q[0].account != Wallet(user) {
      var k :| 0 <= k < |q| && q[k].account == Wallet(user);
      assert q[1..][k - 1] == q[k];
    }
    if k :| 0 <= k < |q[1..]| && q[1..][k].account == Wallet(user) {
      assert q[k + 1] == q[1..][k];
    }
  }

  /** A statement takes on no debt, and pays none but that at the head of the queue. */
  lemma DebtsFollow(s: System, t: Tx, order: seq<nat>, user: nat)
    requires Settles(t) && Act(s, t, order).Go?
    ensures var next := Act(s, t, order).next;
            (Owes(s.db, next, user) ==> Owes(s.db, t, user)) &&
            (Owes(s.db, t, user) ==>
               Owes(s.db, next, user) || (t.queue != [] && t.queue[0].account == Wallet(user)))
  {
    hide Act, Queued, Decide, CreditsUser, DecisionTx, Sorted;
    PayoutStatement(s, t, order);
    if t.queue != [] {
      RestQueued(t.queue, user);
    } else {
      NoneQueued(user);
      var row := Decide(t.program.voiding, s.db.bets[t.stage.left[0]], s.db.rounds[t.program.round]).value;
      DecisionCredits(t.stage.left[0], row, user);
    }
  }

  lemma NoneQueued(user: nat)
    ensures !Queued([], user)
  {
  }

  /** A pay-out with a debt left is never refused and does not end: its next statement goes on. */
  lemma DebtorGoesOn(s: System, t: Tx, order: seq<nat>, user: nat)
    requires Common(s, t) && StageOk(s.db, s.now, s.limits, t) && IsPayout(t) && Owes(s.db, t, user)
    ensures Settles(t) && Act(s, LockGranted(s, t), order).Go?
    ensures Settles(LockGranted(s, t)) && Owes(s.db, LockGranted(s, t), user)
    ensures LockGranted(s, t).queue == t.queue && t.locks <= LockGranted(s, t).locks
  {
    hide Common, StageOk, Act, Owes;
    DebtorSettles(s, t, user);
    if t.queue != [] {
      PayerPosts(s, t, order);
    } else {
      PayerDecides(s, t, order, user);
    }
  }

  lemma DebtorSettles(s: System, t: Tx, user: nat)
    requires StageOk(s.db, s.now, s.limits, t) && IsPayout(t) && Owes(s.db, t, user)
    ensures Settles(t) && Settles(LockGranted(s, t)) && Owes(s.db, LockGranted(s, t), user)
    ensures LockGranted(s, t).queue == t.queue && t.locks <= LockGranted(s, t).locks
    ensures t.queue == [] ==>
              t.stage.Settling? && WillCredit(t.program.voiding, s.db, t.program.round, t.stage.left, user)
  {
    hide CashDraining, ConcludeSettling, WillCredit, CashAnswer, ConcludeAnswer, MayStart, SameRace, ActiveIn, Distinct;
  }

  lemma PayerPosts(s: System, t: Tx, order: seq<nat>)
    requires Common(s, t) && StageOk(s.db, s.now, s.limits, t) && Settles(t) && t.queue != []
    ensures Act(s, LockGranted(s, t), order).Go?
  {
    hide Common, CommittedOk, Consistent, RowsLocked, AccountsKnown, MoneyTracked, LocksKnown, BatchFits, BetsFit,
         MayStart, PayoutQueue, EscrowFirst, Decidable, ActiveBetsOf, PaysLast, ConcludeSettling, CashDraining, PostOne;
    CommonCommitted(s, t);
    PostingGranted(s, t);
    if t.program.CashOut? {
      CashSoFar(s, t);
      PayoutPosts(s, t, t.w.bets);
    } else {
      ConsistentBets(s.db);
      SettlingSoFar(s.db, t, t.stage.left);
      SettlingPays(s.db, t);
      DecidedRowsFit(t.program.voiding, s.db, t.program.round, t.ids);
      PayoutPosts(s, t, DecidedRows(t.program.voiding, s.db, t.program.round, t.ids));
    }
  }

  lemma PayerDecides(s: System, t: Tx, order: seq<nat>, user: nat)
    requires Common(s, t) && StageOk(s.db, s.now, s.limits, t) && t.program.Conclude? && t.stage.Settling?
    requires t.queue == [] && WillCredit(t.program.voiding, s.db, t.program.round, t.stage.left, user)
    ensures Act(s, LockGranted(s, t), order).Go?
  {
    hide Common, CommittedOk, Consistent, RowsLocked, AccountsKnown, MoneyTracked, LocksKnown, BetFits, BetChecks,
         MayStart, ConcludeSettling, Decide, DecisionTx, Sorted, Balanced, ActiveBetsOf, CreditsUser;
    var voiding, r, id := t.program.voiding, t.program.round, t.stage.left[0];
    CommonCommitted(s, t);
    NextIsActive(s.db, t, t.stage.left);
    CommittedBetFits(s.db, id);
    DecisionErrors(voiding, s.db.bets[id], s.db.users, s.db.rounds);
    assert LockGranted(s, t) == t;
    var row := Decide(voiding, s.db.bets[id], s.db.rounds[r]).value;
    DecidesOne(s, t, row);
  }

  // ---------------------------------------------------------------------------
  // Entangled transactions stay entangled
  // ---------------------------------------------------------------------------

  /** What one statement of transaction k changes. */
  lemma RunShape(s: System, k: nat, order: seq<nat>)
    requires Safe(s) && Possible(s, Run(k, order))
    ensures k < |s.txs| && !s.txs[k].stage.Done? && forall j | 0 <= j < |s.txs| :: !Waiting(s, k, j)
    ensures MoveOf(s, k, order) == Act(s, LockGranted(s, s.txs[k]), order)
    ensures var after := Step(s, Run(k, order));
            |after.txs| == |s.txs| && (forall j | 0 <= j < |s.txs| && j != k :: after.txs[j] == s.txs[j]) &&
            after.txs[k].program == s.txs[k].program && after.limits == s.limits &&
            (MoveOf(s, k, order).Go? ==> after.txs[k] == MoveOf(s, k, order).next) &&
            (!MoveOf(s, k, order).Go? ==>
               after.txs[k].stage.Done? && after.txs[k].locks == {} && after.txs[k].shared == {}) &&
            (MoveOf(s, k, order).Commit? ==> after.db == Overwrite(s.db, MoveOf(s, k, order).last)) &&
            (!MoveOf(s, k, order).Commit? ==> after.db == s.db)
  {
    hide Safe, Act, Waiting, Overwrite, ActiveBetsOf;
    if MoveOf(s, k, order).Go? { NextIsTheSameRequest(s, k, order); }
  }

  lemma SafeAt(s: System, i: nat)
    requires Safe(s) && i < |s.txs|
    ensures Common(s, s.txs[i]) && StageOk(s.db, s.now, s.limits, s.txs[i]) && CommittedOk(s)
    ensures TxOk(s.db, s.now, s.nextBet, s.limits, s.txs[i])
  {
    hide CommittedOk, StageOk, TxOk, Compatible, Common;
    TxIsCommon(s, s.txs[i]);
  }

  lemma {:induction false} SameCredit(voiding: bool, db: Db, after: Db, r: nat, left: seq<nat>, user: nat)
    requires WillCredit(voiding, db, r, left, user)
    requires r in db.rounds ==> r in after.rounds && after.rounds[r] == db.rounds[r]
    requires forall b | b in left && b in db.bets :: b in after.bets && after.bets[b] == db.bets[b]
    ensures WillCredit(voiding, after, r, left, user)
    decreases |left|
  {
    hide Decide, CreditsUser;
    if !CreditsUser(Decide(voiding, db.bets[left[0]], db.rounds[r]).value, user) {
      SameCredit(voiding, db, after, r, left[1..], user);
    }
  }

  /** The rows a debt hangs on are locked, so no commit of another settles it. */
  lemma DebtStays(db: Db, after: Db, now: int, limits: Limits, t: Tx, user: nat)
    requires StageOk(db, now, limits, t) && Steady(db, after, t) && IsPayout(t) && Owes(db, t, user)
    ensures Owes(after, t, user)
  {
    hide Queued, WillCredit, CashAnswer, ConcludeAnswer, CashDraining, MayStart, SameRace, AccountsSteady, SameTerms,
         ActiveBetsOf, Decidable, BatchWrites, DecidedRows, PayoutQueue, EscrowFirst, PaysLast, SamePlacement;
    if !Queued(t.queue, user) {
      assert forall b | b in t.stage.left :: b in t.ids + t.stage.left;
      SameCredit(t.program.voiding, db, after, t.program.round, t.stage.left, user);
    }
  }

  lemma BoundHoldsWallet(db: Db, now: int, limits: Limits, t: Tx)
    requires StageOk(db, now, limits, t) && BoundForEscrow(db, t)
    ensures BalanceLock(Wallet(t.program.user)) in t.locks
  {
    hide KeyTaken, OpenFor, Funded, MayPlace, PlaceAnswer;
  }

  /** A commit that uses the user's key holds the user's wallet. */
  lemma KeyIsTakenUnderTheWallet(s: System, k: nat, order: seq<nat>, user: nat, key: nat)
    requires Safe(s) && Possible(s, Run(k, order)) && MoveOf(s, k, order).Commit?
    requires !KeyTaken(s.db, user, key) && KeyTaken(Step(s, Run(k, order)).db, user, key)
    ensures BalanceLock(Wallet(user)) in s.txs[k].locks && s.txs[k].program.PlaceBet?
  {
    var t := s.txs[k];
    assert s.txs[k].program.PlaceBet? && t.program.user == user by {
      hide Safe, Possible, MoveOf, Legal;
      var op := CommittingStep(s, k, order);
      RunShape(s, k, order);
      EffectTakesKeys(s.db, s.now, op, t.program, user, key);
    }
    SafeAt(s, k);
    hide Safe, Possible, StageOk, Common;
    RunShape(s, k, order);
    CommitsUnlocked(s, t, order);
    CommittingPlacementHolds(s, t, order);
  }

  lemma CommittingPlacementHolds(s: System, t: Tx, order: seq<nat>)
    requires t.program.PlaceBet? && StageOk(s.db, s.now, s.limits, t) && !t.stage.Done?
    requires Act(s, LockGranted(s, t), order).Commit?
    ensures BalanceLock(Wallet(t.program.user)) in t.locks
  {
    hide PriceSelection, BetChecks, MayPlace, FindKey, OpenFor, Funded, Balanced, Sorted;
  }

  lemma EffectTakesKeys(db: Db, now: int, op: Operation, p: Program, user: nat, key: nat)
    requires Legal(db, op) && Serves(db, now, p, op)
    requires !KeyTaken(db, user, key) && KeyTaken(Effect(db, op), user, key)
    ensures p.PlaceBet? && p.user == user
  {
    hide Legal, Serves;
    var b: nat :| HasKey(Effect(db, op), user, key, b);
    assert !HasKey(db, user, key, b);
    OnlyPlacementsAddKeys(db, op, b, user, key);
    ServesPlacement(db, now, p, op);
  }

  lemma ServesPlacement(db: Db, now: int, p: Program, op: Operation)
    requires op.Place? && Serves(db, now, p, op)
    ensures p.PlaceBet? && op.row.user == p.user
  {
  }

  lemma OnlyPlacementsAddKeys(db: Db, op: Operation, b: nat, user: nat, key: nat)
    requires Legal(db, op) && HasKey(Effect(db, op), user, key, b) && !HasKey(db, user, key, b)
    ensures op.Place? && op.row.user == user
  {
    hide RoundChecks, Advanced, MayConclude, ActiveBetsOf, PriceSelection, BatchJournal, PriceAt, Decide;
    if op.Close? { DecidedKeepKeys(db, op); }
  }

  lemma DecidedKeepKeys(db: Db, op: Operation)
    requires op.Close? && Decidable(op.voiding, db, op.round, op.ids)
    ensures forall b | b in DecidedRows(op.voiding, db, op.round, op.ids) ::
              b in db.bets && DecidedRows(op.voiding, db, op.round, op.ids)[b].user == db.bets[b].user &&
              DecidedRows(op.voiding, db, op.round, op.ids)[b].key == db.bets[b].key
  {
    hide Distinct;
  }

  lemma CommitLeavesEntangled(s: System, k: nat, order: seq<nat>, i: nat, j: nat)
    requires Safe(s) && Possible(s, Run(k, order)) && MoveOf(s, k, order).Commit? && Entangled(s, i, j)
    requires k != i && k != j
    ensures Entangled(Step(s, Run(k, order)), i, j)
  {
    hide Safe, Possible, Step, MoveOf, Owes, KeyTaken;
    var after := Step(s, Run(k, order));
    RunShape(s, k, order);
    SafeAt(s, i);
    OthersSeeItSteady(s, k, order, i);
    DebtStays(s.db, after.db, s.now, s.limits, s.txs[i], s.txs[j].program.user);
    SafeAt(s, j);
    BoundHoldsWallet(s.db, s.now, s.limits, s.txs[j]);
    var p := s.txs[j].program;
    if s.txs[j].stage.FundsHeld? && KeyTaken(after.db, p.user, p.key) {
      KeyIsTakenUnderTheWallet(s, k, order, p.user, p.key);
      PairFits(s, k, j);
    }
  }

  lemma OthersSeeItSteady(s: System, k: nat, order: seq<nat>, i: nat)
    requires Safe(s) && Possible(s, Run(k, order)) && MoveOf(s, k, order).Commit? && i < |s.txs| && i != k
    ensures Steady(s.db, Step(s, Run(k, order)).db, s.txs[i])
  {
    hide Safe, Possible, MoveOf, Steady, KeepsLocks, Act, TxOk, EffectsLocked, Overwrite, Compatible, Consistent,
         ClockOk;
    RunShape(s, k, order);
    RunnableFits(s, k, order);
    ActKeepsLocks(s, LockGranted(s, s.txs[k]), order);
    MoveLeavesOthersAlone(s, k, order, MoveOf(s, k, order).last);
    SafeAt(s, i);
    CommitIsSteady(s.db, MoveOf(s, k, order).last, s.nextBet, s.txs[i]);
  }

  /** The pay-out may go on, but not past its debt: the wallet is held. */
  lemma PayerStaysEntangled(s: System, i: nat, order: seq<nat>, j: nat)
    requires Safe(s) && Possible(s, Run(i, order)) && Entangled(s, i, j)
    ensures Entangled(Step(s, Run(i, order)), i, j)
  {
    hide Safe, Possible, Step, Act, Owes, KeyTaken, Common, StageOk;
    var t, user := s.txs[i], s.txs[j].program.user;
    RunShape(s, i, order);
    SafeAt(s, i);
    SafeAt(s, j);
    BoundHoldsWallet(s.db, s.now, s.limits, s.txs[j]);
    DebtorGoesOn(s, t, order, user);
    DebtsFollow(s, LockGranted(s, t), order, user);
    PayoutStatement(s, LockGranted(s, t), order);
    assert !Waiting(s, i, j);
  }

  /** The placement may insert its bet, but not get past ESCROW. */
  lemma PlacerStaysEntangled(s: System, j: nat, order: seq<nat>, i: nat)
    requires Safe(s) && Possible(s, Run(j, order)) && Entangled(s, i, j)
    ensures Entangled(Step(s, Run(j, order)), i, j)
  {
    hide Safe, Possible, Step, Act, Owes, Common, StageOk;
    RunShape(s, j, order);
    SafeAt(s, j);
    assert !Waiting(s, j, i);
    InsertsOn(s, s.txs[j], order);
  }

  lemma InsertsOn(s: System, t: Tx, order: seq<nat>)
    requires Common(s, t) && StageOk(s.db, s.now, s.limits, t) && BoundForEscrow(s.db, t) && t.stage.FundsHeld?
    ensures Act(s, LockGranted(s, t), order).Go?
    ensures var next := Act(s, LockGranted(s, t), order).next;
            next.program == t.program && next.stage.Draining? && next.queue == PlaceQueue(t.program)
  {
    hide Common, KeyTaken, PriceSelection, ActPlaceBet;
    PendingInserts(s, t);
    InsertNeverCommits(s, t);
    PlaceShape(s, LockGranted(s, t));
    SortedPair(Posting(Wallet(t.program.user), Negate(t.program.stake)), Posting(Escrow, t.program.stake));
  }

  lemma InsertNeverCommits(s: System, t: Tx)
    requires t.program.PlaceBet? && t.stage.FundsHeld?
    ensures !ActPlaceBet(s.db, s.limits, s.nextBet, LockGranted(s, t)).Commit?
  {
    hide FindKey, BetChecks, Balanced, Sorted;
  }

  lemma StepStaysEntangled(s: System, e: Event, i: nat, j: nat)
    requires Safe(s) && Possible(s, e) && Entangled(s, i, j) && e != Abort(i) && e != Abort(j)
    ensures Entangled(Step(s, e), i, j)
  {
    hide Safe, Owes, BoundForEscrow, MoveOf, Waiting, ActiveBetsOf;
    if e.Run? {
      if e.tx == i { PayerStaysEntangled(s, i, e.order, j); }
      else if e.tx == j { PlacerStaysEntangled(s, j, e.order, i); }
      else if MoveOf(s, e.tx, e.order).Commit? { CommitLeavesEntangled(s, e.tx, e.order, i, j); }
    }
  }

  lemma EntangledAreUnfinished(s: System, i: nat, j: nat)
    requires Safe(s) && Entangled(s, i, j)
    ensures !s.txs[i].stage.Done? && !s.txs[j].stage.Done?
  {
    hide Safe, Owes, KeyTaken, StageOk;
    SafeAt(s, i);
    DoneHoldsNothing(s.db, s.now, s.limits, s.txs[i]);
  }

  /** Short of aborting one of the two, no run of anything ever finishes either. */
  lemma {:induction false} EntangledForever(s: System, i: nat, j: nat, events: seq<Event>)
    requires Safe(s) && Entangled(s, i, j) && IsRun(s, events)
    requires Abort(i) !in events && Abort(j) !in events
    ensures Safe(After(s, events)) && Entangled(After(s, events), i, j)
    ensures !After(s, events).txs[i].stage.Done? && !After(s, events).txs[j].stage.Done?
    decreases |events|
  {
    hide Safe, Possible, Step, Entangled;
    if events == [] {
      EntangledAreUnfinished(s, i, j);
      EntangledInRange(s, i, j);
    } else {
      StepKeepsSafe(s, events[0]);
      StepStaysEntangled(s, events[0], i, j);
      EntangledForever(Step(s, events[0]), i, j, events[1..]);
    }
  }

  lemma EntangledInRange(s: System, i: nat, j: nat)
    requires Entangled(s, i, j)
    ensures i < |s.txs| && j < |s.txs|
  {
  }

  // ---------------------------------------------------------------------------
  // How much work is left
  // ---------------------------------------------------------------------------

  /** A bound on the statements a transaction has left, when no round ever has more bets than the bound. */
  function Remaining(bound: nat, t: Tx): nat {
    match t.stage
    case Done(_) => 0
    case Start => 20 + 10 * bound
    case Snapshot => 15 + 10 * bound
    case Locking(todo, got) => 3 + 10 * |todo| + 8 * |got|
    case Settling(left) => 2 + 8 * |left| + |t.queue|
    case Checked => 13
    case RoundHeld(_) => 12
    case FundsHeld(_) => 11
    case BetHeld => 12
    case Quoted(_) => 11
    case ReadBack => 1
    case Paying(_) => 1 + |t.queue|
    case Draining => 1 + |t.queue|
  }

  function Work(bound: nat, txs: seq<Tx>): nat {
    if txs == [] then 0 else Remaining(bound, txs[0]) + Work(bound, txs[1..])
  }

  /** The placements in flight: each may still add a bet. */
  function Placements(txs: seq<Tx>): nat {
    if txs == [] then 0
    else (if txs[0].program.PlaceBet? && !txs[0].stage.Done? then 1 else 0) + Placements(txs[1..])
  }

  lemma {:induction false} ReplaceOne(bound: nat, txs: seq<Tx>, k: nat, t: Tx)
    requires k < |txs|
    ensures Work(bound, txs[k := t]) == Work(bound, txs) - Remaining(bound, txs[k]) + Remaining(bound, t)
    ensures Placements(txs[k := t]) == Placements(txs) - Placements([txs[k]]) + Placements([t])
  {
    hide Remaining;
    var later := txs[k := t];
    if k > 0 {
      ReplaceOne(bound, txs[1..], k - 1, t);
      assert later[1..] == txs[1..][k - 1 := t];
    } else {
      assert later[1..] == txs[1..];
    }
  }

  lemma SortedLength(ps: seq<Posting>)
    ensures |Sorted(ps)| == |ps|
  {
    SortedIsAPermutation(ps, Mint);
    assert |multiset(Sorted(ps))| == |multiset(ps)|;
  }

  lemma PlacementCounts(s: System, t: Tx, bound: nat)
    requires t.program.PlaceBet? && ActPlaceBet(s.db, s.limits, s.nextBet, t).Go?
    ensures Remaining(bound, ActPlaceBet(s.db, s.limits, s.nextBet, t).next) < Remaining(bound, t)
  {
    hide PriceSelection, BetChecks, FindKey, Balanced, Sorted;
    var p := t.program;
    if t.stage.FundsHeld? {
      SortedLength(PlacedTx(s.nextBet, NewBet(p.user, p.round, p.stake, p.key, p.selection, t.stage.odds)).postings);
    }
  }

  lemma CashOutCounts(s: System, t: Tx, bound: nat)
    requires t.program.CashOut? && ActCashOut(s.db, s.now, t).Go?
    ensures Remaining(bound, ActCashOut(s.db, s.now, t).next) < Remaining(bound, t)
  {
    PayShape(s, t);
    if t.stage.Quoted? {
      var bet := s.db.bets[t.program.bet];
      var payout :| ActCashOut(s.db, s.now, t).next.queue == Sorted(PayoutPostings(bet.user, bet.stake, payout));
      ShortPayout(bet.user, bet.stake, payout);
    }
    hide PriceAt, BetChecks, Balanced, Sorted, PayoutPostings;
  }

  lemma ConclusionCounts(s: System, t: Tx, order: seq<nat>, bound: nat)
    requires t.program.Conclude? && ActConclude(s.db, s.now, t, order).Go?
    requires (t.stage.Snapshot? ==> |order| <= bound) && (t.stage.Locking? ==> t.queue == [])
    ensures Remaining(bound, ActConclude(s.db, s.now, t, order).next) < Remaining(bound, t)
  {
    hide BetChecks, RoundChecks, Balanced, Sorted, Decide, DecisionTx, Concluded, UpdateIfActive;
    if t.stage.Settling? && t.queue == [] {
      var id := t.stage.left[0];
      ShortSettlement(id, Decide(t.program.voiding, s.db.bets[id], s.db.rounds[t.program.round]).value);
    }
  }

  lemma RegistrationCounts(s: System, t: Tx, bound: nat)
    requires t.program.Register? && ActRegister(s.db, t).Go?
    ensures Remaining(bound, ActRegister(s.db, t).next) < Remaining(bound, t)
  {
    hide Balanced, Sorted;
    SortedLength(GrantTx(t.program.user, t.program.grant).postings);
  }

  lemma AdvanceCounts(s: System, t: Tx, bound: nat)
    requires t.program.Advance? && t.queue == [] && ActAdvance(s.db, s.now, t).Go?
    ensures Remaining(bound, ActAdvance(s.db, s.now, t).next) < Remaining(bound, t)
  {
    hide RoundChecks, Advanced;
  }

  lemma StatementCounts(s: System, t: Tx, order: seq<nat>, bound: nat)
    requires Act(s, t, order).Go? && (t.program.Advance? || t.stage.Locking? ==> t.queue == [])
    requires t.program.Conclude? && t.stage.Snapshot? ==> |order| <= bound
    ensures Remaining(bound, Act(s, t, order).next) < Remaining(bound, t)
  {
    hide ActPlaceBet, ActCashOut, ActConclude, ActAdvance, ActRegister, ActOpenRound, Remaining;
    match t.program
    case PlaceBet(_, _, _, _, _) => PlacementCounts(s, t, bound);
    case CashOut(_, _) => CashOutCounts(s, t, bound);
    case Conclude(_, _) => ConclusionCounts(s, t, order, bound);
    case Register(_, _) => RegistrationCounts(s, t, bound);
    case Advance(_, _) => AdvanceCounts(s, t, bound);
    case OpenRound(_, _, _, _, _, _) => OpeningNeverGoesOn(s, t);
  }

  lemma OpeningNeverGoesOn(s: System, t: Tx)
    requires t.program.OpenRound?
    ensures !ActOpenRound(s.db, t).Go?
  {
    hide RoundChecks, NewRound;
  }

  lemma QuietWhileLocking(db: Db, now: int, limits: Limits, t: Tx)
    requires StageOk(db, now, limits, t) && (t.program.Advance? || t.stage.Locking?)
    ensures t.queue == []
  {
    hide Distinct, ActiveIn, IsAdvance, RoundChecks, PlaceAnswer, CashAnswer, ConcludeAnswer;
  }

  lemma {:induction false} DistinctIsShort(ids: seq<nat>, among: set<nat>)
    requires Distinct(ids) && forall b | b in ids :: b in among
    ensures |ids| <= |among|
  {
    if ids != [] {
      LastIsNew(ids);
      DistinctIsShort(ids[..|ids| - 1], among - {ids[|ids| - 1]});
    }
  }

  lemma {:induction false} SomeOrder(db: Db, r: nat, among: set<nat>) returns (order: seq<nat>)
    requires forall b | b in among :: b in db.bets
    ensures Distinct(order)
    ensures forall b :: b in order <==> b in among && db.bets[b].round == r && db.bets[b].status == Active
  {
    order := [];
    if among != {} {
      var b :| b in among;
      order := SomeOrder(db, r, among - {b});
      if db.bets[b].round == r && db.bets[b].status == Active {
        order := order + [b];
      }
    }
  }

  /** No round can come to have more bets than the bound. */
  ghost predicate Roomy(bound: nat, s: System) {
    |s.db.bets| + Placements(s.txs) <= bound
  }

  lemma MoreKeys(a: map<nat, Bet>, b: map<nat, Bet>)
    requires b.Keys <= a.Keys
    ensures |b| <= |a|
  {
    SubsetIsSmaller(b.Keys, a.Keys);
  }

  lemma SubsetIsSmaller(small: set<nat>, large: set<nat>)
    requires small <= large
    ensures |small| <= |large|
  {
    assert large == small + (large - small);
  }

  /** An operation adds one bet if it is a placement, and none otherwise. */
  lemma EffectAddsOneBet(db: Db, now: int, p: Program, op: Operation)
    requires Consistent(db) && Legal(db, op) && Serves(db, now, p, op)
    ensures |Effect(db, op).bets| <= |db.bets| + (if p.PlaceBet? then 1 else 0)
  {
    hide Consistent, Legal, Effect, Serves;
    if op.Place? {
      ServesPlacement(db, now, p, op);
      PlacedBets(db, op);
    } else {
      EffectKeepsBets(db, op);
      MoreKeys(db.bets, Effect(db, op).bets);
    }
  }

  lemma PlacedBets(db: Db, op: Operation)
    requires Legal(db, op) && op.Place?
    ensures |Effect(db, op).bets| <= |db.bets| + 1
  {
    hide MayPlace;
    assert Effect(db, op).bets == db.bets[op.id := op.row];
  }

  lemma EffectKeepsBets(db: Db, op: Operation)
    requires Consistent(db) && Legal(db, op) && !op.Place?
    ensures Effect(db, op).bets.Keys <= db.bets.Keys
  {
    hide Consistent, RoundChecks, Advanced, BatchJournal, PriceAt, ConcludeWrites, Decidable, ActiveBetsOf, MayConclude,
         NewRound, Later;
    if op.Close? { CloseIsLater(db, op.voiding, op.round, op.ids, op.at); }
  }

  lemma CommitKeepsRoom(s: System, k: nat, order: seq<nat>)
    requires Safe(s) && Possible(s, Run(k, order)) && MoveOf(s, k, order).Commit?
    ensures |Step(s, Run(k, order)).db.bets| <= |s.db.bets| + (if s.txs[k].program.PlaceBet? then 1 else 0)
  {
    hide Safe, Possible, MoveOf, Consistent, Legal, Effect, Serves, Overwrite;
    RunShape(s, k, order);
    SafeIsConsistent(s);
    var op := CommittingStep(s, k, order);
    EffectAddsOneBet(s.db, s.now, s.txs[k].program, op);
  }

  /** Each statement leaves less work and as much room. */
  lemma RunComesCloser(s: System, k: nat, order: seq<nat>, bound: nat)
    requires Safe(s) && Possible(s, Run(k, order)) && Roomy(bound, s)
    ensures Roomy(bound, Step(s, Run(k, order)))
    ensures Work(bound, Step(s, Run(k, order)).txs) < Work(bound, s.txs)
  {
    hide Safe, MoveOf, Waiting, Overwrite, ActiveBetsOf, Remaining, Act, LockGranted;
    RunShape(s, k, order);
    var after, t := Step(s, Run(k, order)), s.txs[k];
    ReplaceOne(bound, s.txs, k, after.txs[k]);
    assert after.txs == s.txs[k := after.txs[k]];
    if MoveOf(s, k, order).Go? {
      GoesWithLess(s, k, order, bound);
    } else {
      UnfinishedHasWork(bound, t);
      FinishedHasNone(bound, after.txs[k]);
      if MoveOf(s, k, order).Commit? { CommitKeepsRoom(s, k, order); }
    }
  }

  lemma UnfinishedHasWork(bound: nat, t: Tx)
    requires !t.stage.Done?
    ensures Remaining(bound, t) > 0
  {
  }

  lemma FinishedHasNone(bound: nat, t: Tx)
    requires t.stage.Done?
    ensures Remaining(bound, t) == 0
  {
  }

  lemma GoesWithLess(s: System, k: nat, order: seq<nat>, bound: nat)
    requires Safe(s) && Possible(s, Run(k, order)) && Roomy(bound, s) && MoveOf(s, k, order).Go?
    ensures Remaining(bound, MoveOf(s, k, order).next) < Remaining(bound, s.txs[k])
    ensures !MoveOf(s, k, order).next.stage.Done?
  {
    hide Safe, Act, Remaining, StageOk, Common, TxOk;
    RunShape(s, k, order);
    SafeAt(s, k);
    var t, granted := s.txs[k], LockGranted(s, s.txs[k]);
    assert granted.stage == t.stage && granted.queue == t.queue && granted.program == t.program;
    StaysUnfinished(s, k, order);
    if t.program.Advance? || t.stage.Locking? { QuietWhileLocking(s.db, s.now, s.limits, t); }
    if t.program.Conclude? && t.stage.Snapshot? { DistinctIsShort(order, s.db.bets.Keys); }
    hide Wants;
    StatementCounts(s, granted, order, bound);
    SameRemaining(bound, t, granted);
  }

  lemma SameRemaining(bound: nat, t: Tx, u: Tx)
    requires t.stage == u.stage && t.queue == u.queue
    ensures Remaining(bound, t) == Remaining(bound, u)
  {
  }

  // ---------------------------------------------------------------------------
  // Who runs next
  // ---------------------------------------------------------------------------

  ghost predicate Untangled(s: System) {
    forall i, j :: !Entangled(s, i, j)
  }

  ghost predicate KeepsUntangled(s: System, k: nat) {
    forall order | Possible(s, Run(k, order)) :: Untangled(Step(s, Run(k, order)))
  }

  predicate PaysFromEscrow(t: Tx) {
    IsPayout(t) && BalanceLock(Escrow) in t.locks
  }

  /** Who may hold HOUSE or a wallet, while another holds ESCROW. */
  lemma HolderOf(db: Db, now: int, limits: Limits, u: Tx, a: Account)
    requires StageOk(db, now, limits, u) && BalanceLock(a) in u.locks && BalanceLock(Escrow) !in u.locks && !a.Mint?
    ensures match u.program
            case Register(user, _) => a == Wallet(user) && user !in db.users
            case PlaceBet(user, _, _, _, _) =>
              a == Wallet(user) &&
              ((u.stage.FundsHeld? && u.queue == []) || (u.stage.Draining? && u.queue == PlaceQueue(u.program)))
            case _ => false
  {
    hide OpenFor, Funded, MayPlace, Decidable, ActiveBetsOf, PayoutQueue, MayCashOut, BatchWrites, Distinct, IsAdvance,
         MayStart, SameRace, PlaceAnswer, CashAnswer, ConcludeAnswer, PaysOnly, PaysLast, PaidRow;
  }

  lemma EscrowHolderSettles(db: Db, now: int, limits: Limits, t: Tx)
    requires StageOk(db, now, limits, t) && PaysFromEscrow(t)
    ensures Settles(t) && (Wants(db, t) == Nothing || t.queue != [])
  {
    hide Decidable, ActiveBetsOf, PayoutQueue, MayCashOut, BatchWrites, Distinct, MayStart, SameRace, CashAnswer,
         ConcludeAnswer, PaysOnly, PaysLast, PaidRow;
  }

  /** Whoever a pay-out with ESCROW waits for is a placement that will find its key taken, and let go. */
  lemma BlockerYields(s: System, i: nat, j: nat)
    requires Safe(s) && Untangled(s) && i < |s.txs| && j < |s.txs| && PaysFromEscrow(s.txs[i]) && Waiting(s, i, j)
    ensures CanRun(s, j) && s.txs[j].program.PlaceBet? && s.txs[j].stage.FundsHeld?
    ensures KeyTaken(s.db, s.txs[j].program.user, s.txs[j].program.key)
  {
    hide Safe, StageOk, KeyTaken, Untangled, WillCredit, Queued, Waiting;
    HoldsTheWalletOwed(s, i, j);
    NotEntangled(s, i, j);
    forall m | 0 <= m < |s.txs| ensures !Waiting(s, j, m) { KeyNeverWaits(s, j, m); }
  }

  lemma HoldsTheWalletOwed(s: System, i: nat, j: nat)
    requires Safe(s) && i < |s.txs| && j < |s.txs| && PaysFromEscrow(s.txs[i]) && Waiting(s, i, j)
    ensures var u := s.txs[j];
            u.program.PlaceBet? && Queued(s.txs[i].queue, u.program.user) &&
            ((u.stage.FundsHeld? && u.queue == []) || (u.stage.Draining? && u.queue == PlaceQueue(u.program)))
  {
    hide Safe, StageOk, PlaceQueue;
    var t, u := s.txs[i], s.txs[j];
    PairFits(s, i, j);
    EscrowHolderSettles(s.db, s.now, s.limits, t);
    PostingHolds(s.db, s.now, s.limits, t);
    HolderOf(s.db, s.now, s.limits, u, t.queue[0].account);
    assert t.queue[0].account == Wallet(u.program.user);
  }

  lemma OneHolderOfEscrow(s: System, i: nat, j: nat)
    requires Safe(s) && i < |s.txs| && j < |s.txs| && PaysFromEscrow(s.txs[i]) && PaysFromEscrow(s.txs[j])
    ensures i == j
  {
    hide Safe, StageOk;
    if i != j { PairFits(s, i, j); }
  }

  /** A pay-out that holds ESCROW takes on no new debt. */
  lemma PayerKeepsUntangled(s: System, i: nat)
    requires Safe(s) && Untangled(s) && i < |s.txs| && PaysFromEscrow(s.txs[i])
    ensures KeepsUntangled(s, i)
  {
    hide Safe, Possible, Step, Untangled, Entangled;
    forall order, a: nat, b: nat | Possible(s, Run(i, order)) ensures !Entangled(Step(s, Run(i, order)), a, b) {
      if Entangled(Step(s, Run(i, order)), a, b) {
        WasEntangled(s, i, order, a, b);
        NotEntangled(s, i, b);
      }
    }
    EachUntangled(s, i);
  }

  lemma WasEntangled(s: System, i: nat, order: seq<nat>, a: nat, b: nat)
    requires Safe(s) && i < |s.txs| && PaysFromEscrow(s.txs[i]) && Possible(s, Run(i, order))
    requires Entangled(Step(s, Run(i, order)), a, b)
    ensures Entangled(s, i, b)
  {
    hide Safe, Possible, Step, Act, Owes, KeyTaken, Common, StageOk, Wants;
    RunShape(s, i, order);
    var user := Step(s, Run(i, order)).txs[b].program.user;
    if a != i { OneHolderOfEscrow(s, a, i); }
    SafeAt(s, i);
    EscrowHolderSettles(s.db, s.now, s.limits, s.txs[i]);
    SameDebts(s, s.txs[i], user);
    DebtsFollow(s, LockGranted(s, s.txs[i]), order, user);
  }

  lemma SameDebts(s: System, t: Tx, user: nat)
    ensures Owes(s.db, LockGranted(s, t), user) <==> Owes(s.db, t, user)
    ensures Settles(t) <==> Settles(LockGranted(s, t))
  {
    hide Queued, WillCredit, Wants;
  }

  lemma NotEntangled(s: System, i: nat, j: nat)
    requires Untangled(s)
    ensures !Entangled(s, i, j)
  {
    hide Entangled;
  }

  lemma EachUntangled(s: System, k: nat)
    requires forall order, a: nat, b: nat | Possible(s, Run(k, order)) :: !Entangled(Step(s, Run(k, order)), a, b)
    ensures KeepsUntangled(s, k)
  {
    hide Possible, Step, Entangled;
  }

  lemma YieldKeepsUntangled(s: System, j: nat)
    requires Safe(s) && Untangled(s) && j < |s.txs| && s.txs[j].program.PlaceBet? && s.txs[j].stage.FundsHeld?
    requires KeyTaken(s.db, s.txs[j].program.user, s.txs[j].program.key)
    ensures KeepsUntangled(s, j)
  {
    hide Safe, Possible, Step, Act, Owes, Untangled, Common, StageOk, Wants, KeyTaken;
    forall order, a: nat, b: nat | Possible(s, Run(j, order)) ensures !Entangled(Step(s, Run(j, order)), a, b) {
      RunShape(s, j, order);
      YieldsToKey(s, s.txs[j], order);
      NotEntangled(s, a, b);
    }
    EachUntangled(s, j);
  }

  lemma YieldsToKey(s: System, t: Tx, order: seq<nat>)
    requires t.program.PlaceBet? && t.stage.FundsHeld? && KeyTaken(s.db, t.program.user, t.program.key)
    ensures Act(s, LockGranted(s, t), order) == Go(Blank(t.program, ReadBack))
  {
    hide BetChecks, Balanced, Sorted;
  }

  ghost predicate EscrowUnpaid(s: System) {
    forall i | 0 <= i < |s.txs| :: !PaysFromEscrow(s.txs[i])
  }

  /** When no pay-out holds ESCROW, anything but a pay-out may run. */
  lemma OtherKeepsUntangled(s: System, k: nat)
    requires Safe(s) && EscrowUnpaid(s) && k < |s.txs| && !IsPayout(s.txs[k])
    ensures KeepsUntangled(s, k)
  {
    hide Safe, Possible, Step, MoveOf, Owes, BoundForEscrow;
    forall order, a: nat, b: nat | Possible(s, Run(k, order)) ensures !Entangled(Step(s, Run(k, order)), a, b) {
      RunShape(s, k, order);
    }
    EachUntangled(s, k);
  }

  /** When besides no placement holds its wallet, anything may. */
  lemma AnyKeepsUntangled(s: System, k: nat)
    requires Safe(s) && EscrowUnpaid(s) && k < |s.txs|
    requires forall j | 0 <= j < |s.txs| && s.txs[j].program.PlaceBet? ::
               BalanceLock(Wallet(s.txs[j].program.user)) !in s.txs[j].locks
    ensures KeepsUntangled(s, k)
  {
    hide Safe, Possible, Step, Entangled;
    forall order, a: nat, b: nat | Possible(s, Run(k, order)) ensures !Entangled(Step(s, Run(k, order)), a, b) {
      if Entangled(Step(s, Run(k, order)), a, b) {
        SomePlacerHolds(s, k, order, a, b);
      }
    }
    EachUntangled(s, k);
  }

  lemma SomePlacerHolds(s: System, k: nat, order: seq<nat>, a: nat, b: nat)
    requires Safe(s) && EscrowUnpaid(s) && k < |s.txs| && Possible(s, Run(k, order))
    requires Entangled(Step(s, Run(k, order)), a, b)
    ensures b < |s.txs| && s.txs[b].program.PlaceBet? && BalanceLock(Wallet(s.txs[b].program.user)) in s.txs[b].locks
  {
    hide Safe, Possible, Step, MoveOf, Owes, KeyTaken, StageOk, Common;
    RunShape(s, k, order);
    var after := Step(s, Run(k, order));
    StepKeepsSafe(s, Run(k, order));
    SafeAt(after, b);
    BoundHoldsWallet(after.db, after.now, after.limits, after.txs[b]);
  }

  /** A placement that holds ESCROW has nothing left to wait for. */
  lemma PlacerWithEscrowRuns(s: System, m: nat)
    requires Safe(s) && m < |s.txs| && s.txs[m].program.PlaceBet? && BalanceLock(Escrow) in s.txs[m].locks
    ensures CanRun(s, m)
  {
    hide Safe, StageOk;
    SafeAt(s, m);
    PlacerAfterEscrow(s.db, s.now, s.limits, s.txs[m]);
    forall j | 0 <= j < |s.txs| ensures !Waiting(s, m, j) {
      if j != m { PairFits(s, m, j); }
    }
  }

  lemma PlacerAfterEscrow(db: Db, now: int, limits: Limits, t: Tx)
    requires StageOk(db, now, limits, t) && t.program.PlaceBet? && BalanceLock(Escrow) in t.locks
    ensures !t.stage.Done?
    ensures Wants(db, t) == Nothing ||
            (Wants(db, t) == Exclusive(BalanceLock(Wallet(t.program.user))) && Wants(db, t).lock in t.locks)
  {
    hide OpenFor, Funded, MayPlace, PlaceAnswer;
  }

  lemma PlacerWaits(s: System, j: nat, m: nat)
    requires Safe(s) && EscrowUnpaid(s) && j < |s.txs| && m < |s.txs| && s.txs[j].program.PlaceBet?
    requires BalanceLock(Wallet(s.txs[j].program.user)) in s.txs[j].locks && Waiting(s, j, m)
    ensures s.txs[m].program.PlaceBet? && BalanceLock(Escrow) in s.txs[m].locks
  {
    hide Safe, StageOk;
    var t, u := s.txs[j], s.txs[m];
    PairFits(s, j, m);
    if t.queue != [] {
      PostingHolds(s.db, s.now, s.limits, t);
      EscrowHolders(s.db, s.now, s.limits, u);
    } else {
      HolderWithoutPostings(s, j);
      KeyNeverWaits(s, j, m);
    }
  }

  lemma EscrowHolders(db: Db, now: int, limits: Limits, u: Tx)
    requires StageOk(db, now, limits, u) && BalanceLock(Escrow) in u.locks
    ensures u.program.PlaceBet? || IsPayout(u)
  {
  }

  /** With ESCROW free of pay-outs, a placement that holds its wallet may run, or one that holds ESCROW may. */
  lemma PlacerRuns(s: System, j: nat) returns (k: nat)
    requires Safe(s) && EscrowUnpaid(s) && j < |s.txs| && s.txs[j].program.PlaceBet?
    requires BalanceLock(Wallet(s.txs[j].program.user)) in s.txs[j].locks
    ensures CanRun(s, k) && KeepsUntangled(s, k)
  {
    hide Safe, Waiting, KeepsUntangled, StageOk;
    k := j;
    SafeAt(s, j);
    DoneHoldsNothing(s.db, s.now, s.limits, s.txs[j]);
    if !CanRun(s, j) {
      var m :| 0 <= m < |s.txs| && Waiting(s, j, m);
      PlacerWaits(s, j, m);
      PlacerWithEscrowRuns(s, m);
      k := m;
    }
    OtherKeepsUntangled(s, k);
  }

  lemma PayerRuns(s: System, i: nat) returns (k: nat)
    requires Safe(s) && Untangled(s) && i < |s.txs| && PaysFromEscrow(s.txs[i])
    ensures CanRun(s, k) && KeepsUntangled(s, k)
  {
    hide Safe, Waiting, KeepsUntangled, StageOk, Untangled, KeyTaken;
    k := i;
    SafeAt(s, i);
    DoneHoldsNothing(s.db, s.now, s.limits, s.txs[i]);
    if CanRun(s, i) {
      PayerKeepsUntangled(s, i);
    } else {
      var j :| 0 <= j < |s.txs| && Waiting(s, i, j);
      BlockerYields(s, i, j);
      YieldKeepsUntangled(s, j);
      k := j;
    }
  }

  ghost predicate Unfinished(s: System) {
    exists i :: 0 <= i < |s.txs| && !s.txs[i].stage.Done?
  }

  /** While anything is in flight, something can run that entangles nothing. */
  lemma SomeoneRunsOn(s: System) returns (k: nat)
    requires Safe(s) && Untangled(s) && Unfinished(s)
    ensures CanRun(s, k) && KeepsUntangled(s, k)
  {
    hide Safe, Untangled, CanRun, KeepsUntangled;
    if i :| 0 <= i < |s.txs| && PaysFromEscrow(s.txs[i]) {
      k := PayerRuns(s, i);
    } else if j :| 0 <= j < |s.txs| && s.txs[j].program.PlaceBet? &&
                   BalanceLock(Wallet(s.txs[j].program.user)) in s.txs[j].locks {
      k := PlacerRuns(s, j);
    } else {
      var i :| 0 <= i < |s.txs| && !s.txs[i].stage.Done?;
      k := FollowTheWaits(s, i);
      CanRunInRange(s, k);
      AnyKeepsUntangled(s, k);
    }
  }

  lemma CanRunInRange(s: System, k: nat)
    requires CanRun(s, k)
    ensures k < |s.txs| && !s.txs[k].stage.Done?
  {
  }

  // ---------------------------------------------------------------------------
  // Exactly when everything can finish
  // ---------------------------------------------------------------------------

  /** Statements of the transactions in flight and nothing else: no new request, no abort, no waiting. */
  predicate OnlyStatements(events: seq<Event>) {
    forall e | e in events :: e.Run?
  }

  /** Some schedule of the transactions in flight finishes them all. */
  ghost predicate CanDrain(s: System) {
    exists events :: IsRun(s, events) && OnlyStatements(events) && !Unfinished(After(s, events))
  }

  lemma RunIsPossible(s: System, k: nat) returns (order: seq<nat>)
    requires CanRun(s, k)
    ensures Possible(s, Run(k, order))
  {
    hide Waiting;
    order := [];
    if s.txs[k].program.Conclude? {
      order := SomeOrder(s.db, s.txs[k].program.round, s.db.bets.Keys);
    }
  }

  lemma {:induction false} Drains(s: System, bound: nat)
    requires Safe(s) && Untangled(s) && Roomy(bound, s)
    ensures CanDrain(s)
    decreases Work(bound, s.txs)
  {
    hide Safe, Untangled, CanRun, Unfinished, Possible, Step, Roomy, Work;
    if !Unfinished(s) {
      assert IsRun(s, []) && After(s, []) == s;
    } else {
      var k := SomeoneRunsOn(s);
      var order := RunIsPossible(s, k);
      var e := Run(k, order);
      StepKeepsSafe(s, e);
      RunComesCloser(s, k, order, bound);
      Drains(Step(s, e), bound);
      var rest :| IsRun(Step(s, e), rest) && OnlyStatements(rest) && !Unfinished(After(Step(s, e), rest));
      assert ([e] + rest)[1..] == rest;
      assert IsRun(s, [e] + rest) && After(s, [e] + rest) == After(Step(s, e), rest);
    }
  }

  /**
   Exactly when the transactions in flight can all be run to their ends: some
   schedule of their statements finishes every one, without an abort, if and
   only if no pay-out holding ESCROW owes a wallet that a placement bound for
   ESCROW holds.
   */
  lemma DrainsIff(s: System)
    requires Safe(s)
    ensures CanDrain(s) <==> forall i, j :: !Entangled(s, i, j)
  {
    hide Safe, Unfinished, Entangled;
    if Untangled(s) {
      Drains(s, |s.db.bets| + Placements(s.txs));
    }
    if events :| IsRun(s, events) && OnlyStatements(events) && !Unfinished(After(s, events)) {
      forall i, j ensures !Entangled(s, i, j) {
        if Entangled(s, i, j) {
          hide IsRun, After;
          EntangledForever(s, i, j, events);
          EntangledInRange(After(s, events), i, j);
          StillInFlight(After(s, events), i);
        }
      }
    }
  }

  lemma StillInFlight(s: System, i: nat)
    requires i < |s.txs| && !s.txs[i].stage.Done?
    ensures Unfinished(s)
  {
  }

  // ---------------------------------------------------------------------------
  // A condition on the requests
  // ---------------------------------------------------------------------------

  lemma {:induction false} CreditedHasABet(voiding: bool, db: Db, r: nat, left: seq<nat>, user: nat)
    requires WillCredit(voiding, db, r, left, user)
    ensures exists b :: b in left && b in db.bets && db.bets[b].user == user
    decreases |left|
  {
    if CreditsUser(Decide(voiding, db.bets[left[0]], db.rounds[r]).value, user) {
      DecisionsKeepTheUser(voiding, db.bets[left[0]], db.rounds[r]);
      assert left[0] in left;
    } else {
      hide Decide, CreditsUser;
      CreditedHasABet(voiding, db, r, left[1..], user);
      var b :| b in left[1..] && b in db.bets && db.bets[b].user == user;
      assert b in left;
    }
  }

  lemma DecisionsKeepTheUser(voiding: bool, b: Bet, r: Round)
    ensures Decide(voiding, b, r).Ok? ==> Decide(voiding, b, r).value.user == b.user
  {
  }

  /** A pay-out only ever owes those its request credits. */
  lemma OwesTheCredited(s: System, t: Tx, user: nat)
    requires StageOk(s.db, s.now, s.limits, t) && IsPayout(t) && Owes(s.db, t, user)
    ensures Credits(s.db, t.program, user)
  {
    hide MayCashOut, PaidRow, BatchWrites, Decidable, DecidedRows, PayoutQueue, EscrowFirst, MayStart, SameRace,
         CashAnswer, ConcludeAnswer, Distinct, WillCredit;
    if t.program.Conclude? {
      if Queued(t.queue, user) {
        var last := t.ids[|t.ids| - 1];
        assert last in t.ids + t.stage.left;
        assert ActiveIn(s.db, t.program.round, last);
      } else {
        CreditedHasABet(t.program.voiding, s.db, t.program.round, t.stage.left, user);
        var b :| b in t.stage.left && b in s.db.bets && s.db.bets[b].user == user;
        assert b in t.ids + t.stage.left;
        assert ActiveIn(s.db, t.program.round, b);
      }
    }
  }

  lemma EntangledAreNotSeparate(s: System, i: nat, j: nat)
    requires Safe(s) && Entangled(s, i, j)
    ensures !Separate(s)
  {
    hide Safe, StageOk, Credits, Owes, KeyTaken, Common;
    EntangledAreUnfinished(s, i, j);
    SafeAt(s, i);
    SafeAt(s, j);
    OwesTheCredited(s, s.txs[i], s.txs[j].program.user);
    DebtorSettles(s, s.txs[i], s.txs[j].program.user);
    RoundsHeld(s.db, s.now, s.limits, s.txs[i]);
    RoundsHeld(s.db, s.now, s.limits, s.txs[j]);
    PairFits(s, i, j);
    assert s.txs[i] in s.txs && s.txs[j] in s.txs;
  }

  /** As long as no user bets while being paid on another round, everything in flight can finish. */
  lemma SeparateCanDrain(s: System)
    requires Safe(s) && Separate(s)
    ensures CanDrain(s)
  {
    hide Safe, Separate, Entangled, CanDrain;
    DrainsIff(s);
    forall i, j ensures !Entangled(s, i, j) {
      if Entangled(s, i, j) { EntangledAreNotSeparate(s, i, j); }
    }
  }
}
