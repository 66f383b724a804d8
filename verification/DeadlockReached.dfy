/**
 Schedules into a deadlock: a pay-out holds ESCROW and waits for a user's
 wallet, while the same user's next bet holds the wallet and waits for ESCROW.
 A run from the empty tables ends in one.
 */
module DeadlockReached {
  import opened Prelude
  import opened Money
  import opened CrashCurve
  import opened Roulette
  import opened Ledger
  import opened Tables
  import opened Operations
  import opened Interleaving
  import opened InterleavingState
  import opened InterleavingPosting
  import opened InterleavingMoves
  import opened InterleavingPlace
  import opened InterleavingSafety
  import opened Atomicity
  import opened Guarantees
  import opened Deadlock
  import opened Placing
  import opened Realised
  import opened Draining
  import opened Services

  // ---------------------------------------------------------------------------
  // A placement up to its first posting
  // ---------------------------------------------------------------------------

  /** The placement holds its wallet and is about to insert its bet, or has inserted it and is about to credit ESCROW. */
  ghost predicate AtEscrow(s: System, t: Tx, inserted: bool) {
    Fit(s, t) && t.program.PlaceBet? && BoundForEscrow(s.db, t) && t.stage.Draining? == inserted
  }

  lemma {:induction false} PlacementReachesEscrow(s: System, t: Tx, op: Operation, inserted: bool)
    returns (later: System, next: Tx)
    requires Unlocked(s) && Fit(s, t) && OnCourse(s, t, op) && op.Place? && !t.stage.Draining?
    ensures later == s.(nextBet := if inserted then op.id + 1 else op.id) && next.program == t.program
    ensures Leads(With(s, t), With(later, next)) && AtEscrow(later, next, inserted)
    decreases StepsLeft(t, op)
  {
    hide Safe, OnCourse, StepsLeft, Legal, Effect, ActPlaceBet, Leads, Wants, Overwrite, PlaceQueue, KeyTaken;
    CourseIsOpen(s, t, op);
    later, next := s, t;
    LeadsNowhere(With(s, t));
    if t.stage.FundsHeld? && !inserted {
      KeyIsFree(s, t, op);
    } else {
      assert LockGranted(s, t).program == t.program && LockGranted(s, t).stage == t.stage;
      var m := ActPlaceBet(s.db, s.limits, s.nextBet, LockGranted(s, t));
      AnyAdvances(s, t, op);
      UnlockedIsUnopposed(s, t);
      Turn(s, t, []);
      LeadsSafely(With(s, t), Moved(s, t, m));
      if m.Commit? {
        PlaceCommitShape(s, t);
      } else {
        PlaceShape(s, LockGranted(s, t));
        later, next := s.(nextBet := NextBetAfter(s, t)), m.next;
        CourseIsOpen(later, next, op);
        if next.stage.Draining? {
          SortedPair(Posting(Wallet(t.program.user), Negate(t.program.stake)), Posting(Escrow, t.program.stake));
          QueueIsPlaced(t.program, next);
          AboutToInsert(s, t, op);
        } else {
          later, next := PlacementReachesEscrow(later, next, op, inserted);
          LeadsOn(With(s, t), Moved(s, t, m), With(later, next));
        }
      }
    }
  }

  lemma QueueIsPlaced(p: Program, next: Tx)
    requires p.PlaceBet?
    requires next.queue == [Posting(Escrow, p.stake), Posting(Wallet(p.user), Negate(p.stake))]
    ensures next.queue == PlaceQueue(p)
  {
  }

  lemma AboutToInsert(s: System, t: Tx, op: Operation)
    requires OnCourse(s, t, op) && op.Place? && t.program.PlaceBet?
    ensures t.stage.FundsHeld? ==> s.nextBet == op.id
  {
    hide Legal, Askable;
  }

  lemma KeyIsFree(s: System, t: Tx, op: Operation)
    requires OnCourse(s, t, op) && op.Place? && t.program.PlaceBet?
    ensures !KeyTaken(s.db, t.program.user, t.program.key) && (t.stage.FundsHeld? ==> s.nextBet == op.id)
  {
    hide Askable, PriceSelection;
  }

  /** What it holds there: its wallet, its own round, a key, a new bet, and no other row. */
  lemma AtEscrowHolds(s: System, t: Tx, inserted: bool)
    requires AtEscrow(s, t, inserted)
    ensures BalanceLock(Wallet(t.program.user)) in t.locks && t.shared == {t.program.round}
    ensures forall l | l in t.locks ::
              l == BalanceLock(Wallet(t.program.user)) || l.KeyLock? || (l.BetLock? && l.bet !in s.db.bets)
  {
    FitIsCommon(s, t);
    hide Fit, Common, MayPlace, KeyTaken;
    PlaceHolds(s.db, s.limits, t);
  }

  lemma PlaceHolds(db: Db, limits: Limits, t: Tx)
    requires t.program.PlaceBet? && BoundForEscrow(db, t) && PlaceOk(db, limits, t)
    ensures BalanceLock(Wallet(t.program.user)) in t.locks && t.shared == {t.program.round}
    ensures forall l | l in t.locks ::
              l == BalanceLock(Wallet(t.program.user)) || l.KeyLock? || (l.BetLock? && l.bet !in db.bets)
  {
    hide PriceSelection, PlaceWrites, KeyTaken;
  }

  // ---------------------------------------------------------------------------
  // A pay-out up to a wallet
  // ---------------------------------------------------------------------------

  /** The operation pays this user: their cash-out, or a closing that decides a bet of theirs other than lost. */
  ghost predicate Pays(db: Db, op: Operation, user: nat)
    requires Legal(db, op)
  {
    match op
    case Pay(id, _) => db.bets[id].user == user
    case Close(voiding, r, ids, _) =>
      exists b :: b in ids && CreditsUser(Decide(voiding, db.bets[b], db.rounds[r]).value, user)
    case _ => false
  }

  /** The others hold nothing the pay-out needs but this one wallet. */
  ghost predicate OutOfTheWay(s: System, op: Operation, user: nat) {
    forall j | 0 <= j < |s.txs| ::
      (op.Close? ==> op.round !in s.txs[j].shared) &&
      forall l | l in s.txs[j].locks ::
        l == BalanceLock(Wallet(user)) || l.KeyLock? || (l.BetLock? && l.bet !in s.db.bets)
  }

  /** The pay-out has debited ESCROW and is about to credit the user's wallet. */
  ghost predicate AtWallet(s: System, t: Tx, user: nat) {
    Fit(s, t) && IsPayout(t) && t.queue != [] && t.queue[0].account == Wallet(user)
  }

  /** Once it is paying, the pay-out owes the user. */
  predicate Due(db: Db, t: Tx, user: nat) {
    Settles(t) ==> Owes(db, t, user)
  }

  lemma PayoutUnopposed(s: System, t: Tx, op: Operation, user: nat)
    requires Fit(s, t) && OnCourse(s, t, op) && (op.Pay? || op.Close?) && OutOfTheWay(s, op, user)
    requires !AtWallet(s, t, user)
    ensures Unopposed(s, t)
  {
    hide Safe, OnCourse, Common, Conflicts, OutOfTheWay, StageOk, Legal;
    PayoutOnCourse(s, t, op);
    hide RequestFor;
    if t.queue == [] {
      NeedsOwnRows(s.db, t, op);
    }
    hide Fit;
    NeedIsFree(s, Wants(s.db, t), op, user);
  }

  /** Its round, a bet that exists, or a balance other than the user's wallet. */
  predicate OwnNeed(db: Db, need: Need, op: Operation, user: nat) {
    match need
    case Nothing => true
    case Shared(_) => false
    case Exclusive(l) =>
      (l.BetLock? && l.bet in db.bets) || (op.Close? && l == RoundLock(op.round)) ||
      (l.BalanceLock? && l.account != Wallet(user))
  }

  lemma NeedIsFree(s: System, need: Need, op: Operation, user: nat)
    requires OutOfTheWay(s, op, user) && OwnNeed(s.db, need, op, user)
    ensures forall j | 0 <= j < |s.txs| :: !Conflicts(need, s.txs[j])
  {
  }

  /** What a pay-out on its course is like. */
  lemma PayoutOnCourse(s: System, t: Tx, op: Operation)
    requires OnCourse(s, t, op) && (op.Pay? || op.Close?)
    ensures IsPayout(t) && Legal(s.db, op) && t.program == RequestFor(s.db, op) && !t.stage.Done?
    ensures NextBetAfter(s, t) == s.nextBet
    ensures op.Close? && t.stage.Locking? ==> t.stage.got + t.stage.todo == op.ids
  {
    hide Legal, Askable;
  }

  /** Apart from balances it locks its round or bets that exist. */
  lemma NeedsOwnRows(db: Db, t: Tx, op: Operation)
    requires Legal(db, op) && (op.Pay? || op.Close?) && t.program == RequestFor(db, op) && t.queue == []
    requires op.Close? && t.stage.Locking? ==> t.stage.got + t.stage.todo == op.ids
    ensures forall user :: OwnNeed(db, Wants(db, t), op, user)
  {
    hide PriceAt, Decide, Distinct, ActiveBetsOf, MayConclude;
    if op.Close? && t.stage.Locking? && t.stage.todo != [] {
      assert op.ids[|t.stage.got|] == t.stage.todo[0];
    }
  }

  lemma {:induction false} PayoutReachesWallet(s: System, t: Tx, op: Operation, user: nat) returns (next: Tx)
    requires Fit(s, t) && OnCourse(s, t, op) && (op.Pay? || op.Close?) && OutOfTheWay(s, op, user)
    requires Legal(s.db, op) && Pays(s.db, op, user) && Due(s.db, t, user)
    ensures Leads(With(s, t), With(s, next)) && AtWallet(s, next, user) && next.program == t.program
    decreases StepsLeft(t, op)
  {
    hide Safe, OnCourse, StepsLeft, Legal, Effect, Act, Leads, Wants, Overwrite, OutOfTheWay, Unopposed, Pays, Due,
         AtWallet, ActiveBetsOf;
    next := t;
    LeadsNowhere(With(s, t));
    if !AtWallet(s, t, user) {
      PayoutOnCourse(s, t, op);
      CourseIsOpen(s, t, op);
      var m := Act(s, LockGranted(s, t), OrderFor(op));
      AnyAdvances(s, t, op);
      PayoutUnopposed(s, t, op, user);
      Turn(s, t, OrderFor(op));
      LeadsSafely(With(s, t), Moved(s, t, m));
      StillDue(s, t, op, user);
      CourseIsOpen(s, m.next, op);
      next := PayoutReachesWallet(s, m.next, op, user);
      LeadsOn(With(s, t), With(s, m.next), With(s, next));
    }
  }

  /** Short of the wallet the pay-out goes on, and whatever it owes it still owes. */
  lemma StillDue(s: System, t: Tx, op: Operation, user: nat)
    requires Fit(s, t) && OnCourse(s, t, op) && (op.Pay? || op.Close?) && !AtWallet(s, t, user)
    requires Legal(s.db, op) && Pays(s.db, op, user) && Due(s.db, t, user)
    requires Advances(s, t, op, Act(s, LockGranted(s, t), OrderFor(op)))
    ensures var m := Act(s, LockGranted(s, t), OrderFor(op));
            m.Go? && m.next.program == t.program && Due(s.db, m.next, user) && NextBetAfter(s, t) == s.nextBet
  {
    hide Fit, OnCourse, Legal, Effect, Act, Pays, Owes, Common, StageOk, Overwrite, StepsLeft;
    var order := OrderFor(op);
    PayoutOnCourse(s, t, op);
    FitIsCommon(s, t);
    if Settles(t) {
      DebtorGoesOn(s, t, order, user);
      PayoutStatement(s, LockGranted(s, t), order);
      DebtsFollow(s, LockGranted(s, t), order, user);
    } else {
      NotYetCommitting(s, t, order);
      StartsPaying(s, t, op, user);
    }
  }

  lemma NotYetCommitting(s: System, t: Tx, order: seq<nat>)
    requires IsPayout(t) && !Settles(t)
    ensures !Act(s, LockGranted(s, t), order).Commit?
  {
    hide BetChecks, RoundChecks, Balanced, Sorted, Decide, DecisionTx, PriceAt, Concluded;
  }

  /** When it starts to pay, it owes everyone it pays. */
  lemma StartsPaying(s: System, t: Tx, op: Operation, user: nat)
    requires IsPayout(t) && !Settles(t) && (op.Pay? || op.Close?)
    requires Legal(s.db, op) && Pays(s.db, op, user) && t.program == RequestFor(s.db, op)
    requires Act(s, LockGranted(s, t), OrderFor(op)).Go?
    requires op.Close? && t.stage.Locking? ==> t.stage.got + t.stage.todo == op.ids
    ensures var next := Act(s, LockGranted(s, t), OrderFor(op)).next;
            next.program == t.program && Due(s.db, next, user)
  {
    hide Legal, Act, Wants, Pays, Due;
    if op.Pay? {
      PayStartsPaying(s, t, op, user);
    } else {
      CloseStartsPaying(s, t, op, user);
    }
  }

  lemma PayStartsPaying(s: System, t: Tx, op: Operation, user: nat)
    requires Legal(s.db, op) && op.Pay? && Pays(s.db, op, user) && t.program == RequestFor(s.db, op) && !Settles(t)
    requires Act(s, LockGranted(s, t), OrderFor(op)).Go?
    ensures var next := Act(s, LockGranted(s, t), OrderFor(op)).next;
            next.program == t.program && Due(s.db, next, user)
  {
    hide ActCashOut, Sorted, PayoutPostings, PriceAt, MayCashOut, Wants;
    var next := Act(s, LockGranted(s, t), OrderFor(op)).next;
    PayShape(s, LockGranted(s, t));
    CashOutGoesOn(s, LockGranted(s, t));
    if t.stage.Quoted? {
      var bet := s.db.bets[t.program.bet];
      var payout :| next.queue == Sorted(PayoutPostings(bet.user, bet.stake, payout));
      PayoutIsQueued(bet.user, bet.stake, payout);
    }
  }

  lemma PayoutIsQueued(user: nat, stake: nat, payout: int)
    ensures Queued(Sorted(PayoutPostings(user, stake, payout)), user)
  {
    SortedPayout(user, stake, payout);
    var q := Sorted(PayoutPostings(user, stake, payout));
    assert q[|q| - 1].account == Wallet(user);
  }

  lemma CashOutGoesOn(s: System, t: Tx)
    requires t.program.CashOut? && ActCashOut(s.db, s.now, t).Go?
    ensures var next := ActCashOut(s.db, s.now, t).next;
            next.program == t.program && (Settles(next) ==> t.stage.Quoted? || t.stage.Paying?)
  {
    hide BetChecks, Balanced, Sorted, PriceAt, PayoutPostings;
  }

  lemma CloseStartsPaying(s: System, t: Tx, op: Operation, user: nat)
    requires Legal(s.db, op) && op.Close? && Pays(s.db, op, user) && t.program == RequestFor(s.db, op) && !Settles(t)
    requires Act(s, LockGranted(s, t), OrderFor(op)).Go?
    requires t.stage.Locking? ==> t.stage.got + t.stage.todo == op.ids
    ensures var next := Act(s, LockGranted(s, t), OrderFor(op)).next;
            next.program == t.program && Due(s.db, next, user)
  {
    hide ActConclude, Wants, Decide, CreditsUser, MayConclude, ActiveBetsOf, Queued, Distinct;
    ConcludeShape(s, LockGranted(s, t), OrderFor(op));
    if t.stage.Locking? && t.stage.todo == [] {
      assert t.stage.got + [] == t.stage.got;
      SomeoneIsCredited(op.voiding, s.db, op.round, op.ids, user);
    }
  }

  lemma ConcludeShape(s: System, t: Tx, order: seq<nat>)
    requires t.program.Conclude? && !t.stage.Settling? && ActConclude(s.db, s.now, t, order).Go?
    ensures var next := ActConclude(s.db, s.now, t, order).next;
            next.program == t.program &&
            (next.stage.Settling? ==> t.stage.Locking? && t.stage.todo == [] && next.stage.left == t.stage.got)
  {
  }

  lemma {:induction false} SomeoneIsCredited(voiding: bool, db: Db, r: nat, ids: seq<nat>, user: nat)
    requires r in db.rounds && forall b | b in ids :: b in db.bets && Decide(voiding, db.bets[b], db.rounds[r]).Ok?
    requires exists b :: b in ids && CreditsUser(Decide(voiding, db.bets[b], db.rounds[r]).value, user)
    ensures WillCredit(voiding, db, r, ids, user)
    decreases |ids|
  {
    hide Decide, CreditsUser;
    if !CreditsUser(Decide(voiding, db.bets[ids[0]], db.rounds[r]).value, user) {
      SomeoneIsCredited(voiding, db, r, ids[1..], user);
    }
  }

  // ---------------------------------------------------------------------------
  // The two together
  // ---------------------------------------------------------------------------

  /** A placement and a pay-out that credits the same user on another round, both of which may be asked for now. */
  ghost predicate MayMeet(s: System, place: Operation, payout: Operation) {
    Legal(s.db, place) && Askable(s, place) && place.Place? &&
    Legal(s.db, payout) && Askable(s, payout) && Pays(s.db, payout, place.row.user) &&
    (payout.Close? ==> payout.round != place.row.round)
  }

  /** Some schedule takes the placement to ESCROW, or to its INSERT, and the pay-out to the wallet it holds. */
  lemma TheyMeet(s: System, place: Operation, payout: Operation, inserted: bool)
    returns (later: System, placing: Tx, paying: Tx)
    requires Safe(s) && Unlocked(s) && MayMeet(s, place, payout)
    ensures Unlocked(later) && |later.txs| == |s.txs| && Leads(s, With(With(later, placing), paying))
    ensures AtEscrow(later, placing, inserted) && AtWallet(With(later, placing), paying, placing.program.user)
  {
    hide Safe, Legal, Effect, Leads, Askable, OnCourse, OutOfTheWay, AtEscrow, AtWallet, RequestFor, Pays, Due;
    var user := place.row.user;
    var now := s.(now := TimeOf(s.now, payout));
    PlacesOrPays(s.db, place, payout);
    Elapses(s, TimeOf(s.now, payout) - s.now);
    LeadsSafely(s, now);
    var t := Blank(RequestFor(s.db, place), Start);
    Begins(now, t.program);
    LeadsSafely(now, With(now, t));
    SetsOutNow(s, now, t, place);
    later, placing := PlacementReachesEscrow(now, t, place, inserted);
    var mid := With(later, placing);
    LeadsOn(s, now, With(now, t));
    LeadsOn(s, With(now, t), mid);
    var u := Blank(RequestFor(s.db, payout), Start);
    Begins(mid, u.program);
    LeadsSafely(s, mid);
    LeadsSafely(mid, With(mid, u));
    SetsOutAfter(s, mid, u, payout);
    LeavesTheWay(now, later, placing, payout, inserted);
    assert Due(mid.db, u, user) by { NotDueYet(mid.db, u, user); }
    paying := PayoutReachesWallet(mid, u, payout, user);
    LeadsOn(s, mid, With(mid, u));
    LeadsOn(s, With(mid, u), With(mid, paying));
  }

  lemma NotDueYet(db: Db, u: Tx, user: nat)
    requires u.stage.Start?
    ensures Due(db, u, user)
  {
  }

  /**
   From any safe state without locks in which one user may place a bet while a
   cash-out, a settlement or a void on another round may pay them, now or
   later and whatever the amount, some schedule deadlocks the two requests.
   */
  lemma PlacementMeetsPayout(s: System, place: Operation, payout: Operation) returns (end: System)
    requires Safe(s) && Unlocked(s) && MayMeet(s, place, payout)
    ensures Leads(s, end) && Safe(end) && Cycle(end, [|s.txs| + 1, |s.txs|])
  {
    hide Safe, Leads, Cycle, Clash, AtEscrow, AtWallet, MayMeet;
    var later, placing, paying := TheyMeet(s, place, payout, true);
    end := With(With(later, placing), paying);
    LeadsSafely(s, end);
    TheyClash(s, later, placing, paying);
    ClashIsACycle(end, |s.txs| + 1, |s.txs|);
  }

  /**
   A schedule of the same two requests to a state in which nothing waits in a
   circle yet, and which no schedule of what is in flight can finish.
   */
  lemma DoomedBeforeTheCycle(s: System, place: Operation, payout: Operation) returns (end: System)
    requires Safe(s) && Unlocked(s) && MayMeet(s, place, payout)
    ensures Leads(s, end) && Safe(end) && (forall c :: !Cycle(end, c)) && !CanDrain(end)
  {
    hide Safe, Leads, Cycle, Clash, AtEscrow, AtWallet, MayMeet, CanDrain, Entangled;
    var later, placing, paying := TheyMeet(s, place, payout, false);
    end := With(With(later, placing), paying);
    LeadsSafely(s, end);
    TheyEntangle(s, later, placing, paying, false);
    DrainsIff(end);
    DeadlockIff(end);
    forall i, j | 0 <= i < |end.txs| && 0 <= j < |end.txs| ensures !Clash(end, i, j) {
      NoClashYet(later, placing, paying, i, j);
    }
  }

  lemma NoClashYet(later: System, placing: Tx, paying: Tx, i: nat, j: nat)
    requires Unlocked(later) && AtEscrow(later, placing, false)
    requires AtWallet(With(later, placing), paying, placing.program.user)
    requires i < |later.txs| + 2 && j < |later.txs| + 2
    ensures !Clash(With(With(later, placing), paying), i, j)
  {
    hide Fit, KeyTaken;
    InsertHasNoPostings(later, placing);
    hide AtEscrow;
    var end := With(With(later, placing), paying);
    assert j < |later.txs| ==> end.txs[j] == later.txs[j];
  }

  lemma InsertHasNoPostings(s: System, t: Tx)
    requires AtEscrow(s, t, false)
    ensures t.queue == []
  {
    FitIsCommon(s, t);
    hide Fit, Common, KeyTaken, OpenFor, Funded;
  }

  lemma PlacesOrPays(db: Db, place: Operation, payout: Operation)
    requires Legal(db, place) && place.Place? && Legal(db, payout) && Pays(db, payout, place.row.user)
    ensures RequestFor(db, place).PlaceBet? && RequestFor(db, place).user == place.row.user
    ensures RequestFor(db, place).round == place.row.round && (payout.Pay? || payout.Close?)
  {
    hide MayPlace, PriceAt, Decide;
  }

  lemma SetsOutNow(s: System, now: System, t: Tx, op: Operation)
    requires Legal(s.db, op) && Askable(s, op) && op.Place? && now == s.(now := now.now)
    requires t == Blank(RequestFor(s.db, op), Start)
    ensures OnCourse(now, t, op)
  {
    hide Legal;
  }

  lemma SetsOutAfter(s: System, mid: System, u: Tx, op: Operation)
    requires Legal(s.db, op) && Askable(s, op) && (op.Pay? || op.Close?)
    requires mid.db == s.db && mid.now == TimeOf(s.now, op)
    requires u == Blank(RequestFor(s.db, op), Start)
    ensures OnCourse(mid, u, op)
  {
    hide Legal;
  }

  lemma LeavesTheWay(s: System, later: System, placing: Tx, payout: Operation, inserted: bool)
    requires Unlocked(s) && later == s.(nextBet := later.nextBet) && AtEscrow(later, placing, inserted)
    requires payout.Close? ==> payout.round != placing.program.round
    ensures OutOfTheWay(With(later, placing), payout, placing.program.user)
  {
    AtEscrowHolds(later, placing, inserted);
    hide AtEscrow;
  }

  lemma TheyEntangle(s: System, later: System, placing: Tx, paying: Tx, inserted: bool)
    requires AtEscrow(later, placing, inserted) && |later.txs| == |s.txs|
    requires AtWallet(With(later, placing), paying, placing.program.user)
    ensures Entangled(With(With(later, placing), paying), |s.txs| + 1, |s.txs|)
  {
    PayingHolds(With(later, placing), paying, placing.program.user);
    hide Fit, KeyTaken;
    assert Queued(paying.queue, placing.program.user);
  }

  lemma TheyClash(s: System, later: System, placing: Tx, paying: Tx)
    requires AtEscrow(later, placing, true) && |later.txs| == |s.txs|
    requires AtWallet(With(later, placing), paying, placing.program.user)
    ensures Clash(With(With(later, placing), paying), |s.txs| + 1, |s.txs|)
  {
    AtEscrowHolds(later, placing, true);
    PayingHolds(With(later, placing), paying, placing.program.user);
    hide Fit, KeyTaken;
  }

  lemma PayingHolds(s: System, t: Tx, user: nat)
    requires AtWallet(s, t, user)
    ensures BalanceLock(Escrow) in t.locks
  {
    FitIsCommon(s, t);
    hide Fit, Common, StageOk;
    PostingHolds(s.db, s.now, s.limits, t);
  }

  // ---------------------------------------------------------------------------
  // Such a state is reached
  // ---------------------------------------------------------------------------

  function CrashRow(): Round {
    NewRound(1, CrashGame, Some(20_000), None, 0)
  }

  function WheelRow(): Round {
    NewRound(2, RouletteGame, None, Some(0), 0)
  }

  function FirstBet(): Bet {
    NewBet(0, 0, 10, 0, None, None)
  }

  function SecondBet(): Bet {
    NewBet(0, 1, 10, 1, Some(Selection(Red, None)), Some(Odds(Red)))
  }

  /** What matters of the tables so far: the user's money, the bets, and the rounds. */
  ghost predicate Stands(db: Db, wallet: int, bets: map<nat, Bet>, rounds: map<nat, Round>) {
    Consistent(db) && db.users == map[0 := 100] && db.bets == bets && db.rounds == rounds &&
    BaseBalance(db, Wallet(0)) == wallet
  }

  lemma AfterGrant() returns (db: Db)
    ensures Does(EMPTY_DB, db, Operation.Grant(0, 100)) && Stands(db, 100, map[], map[])
  {
    hide Consistent, Net;
    EmptyIsConsistent();
    GrantIsAnOperation(EMPTY_DB, 0, 100);
    db := Apply(EMPTY_DB, RegisterWrites(0, 100));
    EffectKeepsConsistent(EMPTY_DB, Operation.Grant(0, 100));
    GrantNet(0, 100, Wallet(0));
    hide Legal, Effect;
    hide EntrySum;
    assert Wallet(0) in AccountsAfter(EMPTY_DB, map[0 := 100]);
  }

  lemma AfterBet(db: Db) returns (next: Db)
    requires Stands(db, 100, map[], map[0 := CrashRow()])
    ensures Does(db, next, Place(0, FirstBet())) && Stands(next, 90, map[0 := FirstBet()], map[0 := CrashRow()])
  {
    hide Consistent;
    var op := Place(0, FirstBet());
    assert MayPlace(db, 0, FirstBet());
    next := Effect(db, op);
    EffectKeepsConsistent(db, op);
    NoWalletForStrangers(db, 0);
    EntrySumOne(PlacedTx(0, FirstBet()), Wallet(0));
    PlacedNet(0, FirstBet(), Wallet(0));
    hide EntrySum, MayPlace, Net;
    assert next.bets == map[0 := FirstBet()];
  }

  /** Any way to write a round leaves the money as it stands. */
  lemma AfterMove(db: Db, wallet: int, bets: map<nat, Bet>, row: Round, next: Round) returns (after: Db)
    requires Stands(db, wallet, bets, map[0 := row]) && Live(row.status)
    requires next == Advanced(row, 0) && RoundChecks(next)
    ensures Does(db, after, Move(0, 0)) && Stands(after, wallet, bets, map[0 := next])
  {
    hide Consistent, Does, RoundChecks, Advanced, Live;
    after := db.(rounds := db.rounds[0 := next]);
    MovesRound(db, 0, 0);
    assert after.rounds == map[0 := next];
  }

  lemma AfterOpening(db: Db, wallet: int, bets: map<nat, Bet>, rounds: map<nat, Round>, r: nat, row: Round)
    returns (after: Db)
    requires Stands(db, wallet, bets, rounds) && r !in rounds && row.status == Open && RoundChecks(row)
    requires forall q | q in rounds :: rounds[q].game != row.game
    ensures Does(db, after, Create(r, row)) && Stands(after, wallet, bets, rounds[r := row])
  {
    hide Consistent, Does, RoundChecks;
    after := db.(rounds := db.rounds[r := row]);
    CreatesRound(db, r, row);
  }

  lemma OneMoreScheduled(db: Db, next: Db, nextBet: nat, limits: Limits, ops: seq<Operation>, end: Db)
    requires ops != [] && Does(db, next, ops[0]) && Askable(System(db, [], 0, nextBet, limits), ops[0])
    requires TimeOf(0, ops[0]) == 0
    requires if |ops| == 1 then next == end
             else
               Schedulable(next, 0, NextBetOnce(nextBet, ops[0]), limits, ops[1..]) && IsHistory(next, ops[1..]) &&
               Replayed(next, ops[1..]) == end && TimeAfter(0, ops[1..]) == 0 &&
               BetsAfter(NextBetOnce(nextBet, ops[0]), ops[1..]) == 1
    requires |ops| == 1 ==> NextBetOnce(nextBet, ops[0]) == 1
    ensures Schedulable(db, 0, nextBet, limits, ops) && IsHistory(db, ops) && Replayed(db, ops) == end
    ensures TimeAfter(0, ops) == 0 && BetsAfter(nextBet, ops) == 1
  {
    hide Legal, Effect, Askable;
  }

  /** Six operations: a user with a bet in a crash round that has just started, and an open roulette round. */
  lemma AUserMayDoBoth(limits: Limits) returns (ops: seq<Operation>, db: Db)
    requires limits == Limits(1, 1_000)
    ensures Schedulable(EMPTY_DB, 0, 0, limits, ops) && IsHistory(EMPTY_DB, ops) && db == Replayed(EMPTY_DB, ops)
    ensures TimeAfter(0, ops) == 0 && BetsAfter(0, ops) == 1
    ensures Stands(db, 90, map[0 := FirstBet()],
                   map[0 := CrashRow().(status := RoundStatus.Running, startedAt := Some(0)), 1 := WheelRow()])
  {
    hide Does, Stands, IsHistory, Replayed, Schedulable, TimeAfter, BetsAfter, Legal;
    var crash, wheel := CrashRow(), WheelRow();
    var locked, started := crash.(status := Locked), crash.(status := RoundStatus.Running, startedAt := Some(0));
    var db1 := AfterGrant();
    var db2 := AfterOpening(db1, 100, map[], map[], 0, crash);
    assert map[][0 := crash] == map[0 := crash];
    var db3 := AfterBet(db2);
    var db4 := AfterMove(db3, 90, map[0 := FirstBet()], crash, locked);
    var db5 := AfterMove(db4, 90, map[0 := FirstBet()], locked, started);
    db := AfterOpening(db5, 90, map[0 := FirstBet()], map[0 := started], 1, wheel);
    assert map[0 := started][1 := wheel] == map[0 := started, 1 := wheel];
    ops := [Operation.Grant(0, 100), Create(0, crash), Place(0, FirstBet()), Move(0, 0), Move(0, 0), Create(1, wheel)];
    DoesIsLegal(db5, db, ops[5]); DoesIsLegal(db4, db5, ops[4]); DoesIsLegal(db3, db4, ops[3]);
    DoesIsLegal(db2, db3, ops[2]); DoesIsLegal(db1, db2, ops[1]); DoesIsLegal(EMPTY_DB, db1, ops[0]);
    OneMoreScheduled(db5, db, 1, limits, ops[5..], db);
    OneMoreScheduled(db4, db5, 1, limits, ops[4..], db);
    OneMoreScheduled(db3, db4, 1, limits, ops[3..], db);
    OneMoreScheduled(db2, db3, 0, limits, ops[2..], db);
    OneMoreScheduled(db1, db2, 0, limits, ops[1..], db);
    assert ops[0..] == ops;
    OneMoreScheduled(EMPTY_DB, db1, 0, limits, ops, db);
  }

  lemma DoesIsLegal(db: Db, next: Db, op: Operation)
    requires Does(db, next, op)
    ensures Legal(db, op)
  {
    hide Legal, Effect;
  }

  /** In the state so reached both requests may be made. */
  lemma BothMayBeAsked(s: System)
    requires s.limits == Limits(1, 1_000) && s.now == 0 && s.nextBet == 1
    requires Stands(s.db, 90, map[0 := FirstBet()],
                    map[0 := CrashRow().(status := RoundStatus.Running, startedAt := Some(0)), 1 := WheelRow()])
    ensures Legal(s.db, Place(1, SecondBet())) && Askable(s, Place(1, SecondBet()))
    ensures Legal(s.db, Pay(0, 0)) && Askable(s, Pay(0, 0)) && s.db.bets[0].user == SecondBet().user
  {
    hide Consistent;
    CurveStartsAtOne();
    hide Uncapped;
    assert PriceAt(s.db.rounds[0], 0) == BASIS_POINTS_ONE;
    ScaleIsTheFloor(10, BASIS_POINTS_ONE, 10);
  }

  /** A run from the empty tables to a user who may cash out one bet and place another. */
  lemma TheTwoMayMeet() returns (s: System)
    ensures Reachable(s) && Safe(s) && Unlocked(s) && MayMeet(s, Place(1, SecondBet()), Pay(0, 0))
  {
    hide Safe, Unlocked, Leads, Schedulable, IsHistory, Replayed, TimeAfter, BetsAfter, Stands, Legal, Askable,
         Reachable;
    var limits := Limits(1, 1_000);
    var start := Initial(0, limits);
    InitialIsSafe(0, limits);
    assert Unlocked(start) by { NothingLocked(start); }
    InitialIsReachable(0, limits);
    var ops, db := AUserMayDoBoth(limits);
    s := HistoriesAreRealised(start, ops);
    BothMayBeAsked(s);
    LeadsFromReachable(start, s);
  }

  /** The lock order does not exclude deadlock: a run from the empty tables ends in a circle of two waits. */
  lemma TheCycleCanForm() returns (end: System, c: seq<nat>)
    ensures Reachable(end) && Cycle(end, c) && |c| == 2
  {
    hide Safe, Unlocked, Leads, Cycle, Reachable, MayMeet;
    var s := TheTwoMayMeet();
    end := PlacementMeetsPayout(s, Place(1, SecondBet()), Pay(0, 0));
    LeadsFromReachable(s, end);
    c := [|s.txs| + 1, |s.txs|];
  }

  /** Nor is the absence of a cycle enough: a reachable state without one that no schedule can finish. */
  lemma NoCycleIsNotEnough() returns (end: System)
    ensures Reachable(end) && (forall c :: !Cycle(end, c)) && !CanDrain(end)
  {
    hide Safe, Unlocked, Leads, Cycle, Reachable, MayMeet, CanDrain;
    var s := TheTwoMayMeet();
    end := DoomedBeforeTheCycle(s, Place(1, SecondBet()), Pay(0, 0));
    LeadsFromReachable(s, end);
  }

  lemma NothingLocked(s: System)
    requires s.txs == []
    ensures Unlocked(s)
  {
  }

  lemma InitialIsReachable(now: int, limits: Limits)
    requires limits.minStake > 0
    ensures Reachable(Initial(now, limits))
  {
    assert IsRun(Initial(now, limits), []) && After(Initial(now, limits), []) == Initial(now, limits);
  }
}
