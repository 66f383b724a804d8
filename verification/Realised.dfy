/**
 The converse of refinement: every legal operation that a request can ask for
 is what some run of statements does, from any state in which no lock is held.
 */
module Realised {
  import opened Prelude
  import opened Money
  import opened CrashCurve
  import opened Roulette
  import opened Ledger
  import opened Tables
  import opened Operations
  import opened Interleaving
  import opened InterleavingState
  import opened InterleavingPosting
  import opened InterleavingMoves
  import opened InterleavingPlace
  import opened InterleavingPayouts
  import opened InterleavingConclude
  import opened InterleavingSafety
  import opened Atomicity
  import opened Guarantees
  import opened Placing

  // ---------------------------------------------------------------------------
  // Building runs
  // ---------------------------------------------------------------------------

  ghost predicate Leads(s: System, end: System) {
    exists events :: IsRun(s, events) && After(s, events) == end
  }

  lemma {:induction false} RunsAppend(s: System, events: seq<Event>, more: seq<Event>)
    requires IsRun(s, events) && IsRun(After(s, events), more)
    ensures IsRun(s, events + more) && After(s, events + more) == After(After(s, events), more)
    decreases |events|
  {
    hide Possible, Step;
    if events == [] {
      assert events + more == more;
    } else {
      RunsAppend(Step(s, events[0]), events[1..], more);
      assert (events + more)[1..] == events[1..] + more;
    }
  }

  lemma LeadsOn(a: System, b: System, c: System)
    requires Leads(a, b) && Leads(b, c)
    ensures Leads(a, c)
  {
    hide IsRun, After;
    var e :| IsRun(a, e) && After(a, e) == b;
    var f :| IsRun(b, f) && After(b, f) == c;
    RunsAppend(a, e, f);
  }

  lemma LeadsNowhere(s: System)
    ensures Leads(s, s)
  {
    assert IsRun(s, []) && After(s, []) == s;
  }

  lemma OneEvent(s: System, e: Event)
    requires Possible(s, e)
    ensures Leads(s, Step(s, e))
  {
    hide Possible, Step;
    assert [e][1..] == [];
    assert IsRun(s, [e]) && After(s, [e]) == Step(s, e);
  }

  lemma LeadsSafely(s: System, end: System)
    requires Safe(s) && Leads(s, end)
    ensures Safe(end)
  {
    hide Safe, IsRun, After;
    var events :| IsRun(s, events) && After(s, events) == end;
    RunsStaySafe(s, events);
  }

  lemma LeadsFromReachable(s: System, end: System)
    requires Reachable(s) && Leads(s, end)
    ensures Reachable(end)
  {
    hide IsRun, After, Initial;
    var now, limits: Limits, events :|
      limits.minStake > 0 && IsRun(Initial(now, limits), events) && s == After(Initial(now, limits), events);
    var more :| IsRun(s, more) && After(s, more) == end;
    RunsAppend(Initial(now, limits), events, more);
  }

  /** The system with one more transaction, the one now running. */
  function With(s: System, t: Tx): System {
    s.(txs := s.txs + [t])
  }

  /** No lock is held. */
  ghost predicate Unlocked(s: System) {
    forall j | 0 <= j < |s.txs| :: s.txs[j].locks == {} && s.txs[j].shared == {}
  }

  ghost predicate Unopposed(s: System, t: Tx) {
    forall j | 0 <= j < |s.txs| :: !Conflicts(Wants(s.db, t), s.txs[j])
  }

  lemma UnlockedIsUnopposed(s: System, t: Tx)
    requires Unlocked(s)
    ensures Unopposed(s, t)
  {
    hide Wants;
  }

  lemma Begins(s: System, p: Program)
    ensures Leads(s, With(s, Blank(p, Start)))
  {
    OneEvent(s, Begin(p));
  }

  lemma Elapses(s: System, ms: nat)
    ensures Leads(s, s.(now := s.now + ms))
  {
    OneEvent(s, Elapse(ms));
  }

  /** The state after one statement of the running transaction. */
  ghost function Moved(s: System, t: Tx, m: Move): System {
    var later := s.(nextBet := NextBetAfter(s, t));
    match m
    case Go(next) => With(later, next)
    case Stop(a) => With(later, Blank(t.program, Done(a)))
    case Commit(last, a) => With(later.(db := Overwrite(s.db, last)), Blank(t.program, Done(a)))
  }

  /** The running transaction takes its next statement, when nothing opposes the lock it wants. */
  lemma Turn(s: System, t: Tx, order: seq<nat>)
    requires Unopposed(s, t) && !t.stage.Done?
    requires t.program.Conclude? && t.stage.Snapshot? ==> ActiveBetsOf(s.db, t.program.round, order)
    ensures Leads(With(s, t), Moved(s, t, Act(s, LockGranted(s, t), order)))
  {
    hide Wants, ActPlaceBet, ActCashOut, ActConclude, ActAdvance, ActRegister, ActOpenRound, Conflicts, ActiveBetsOf,
         Overwrite;
    var all, n := With(s, t), |s.txs|;
    forall j | 0 <= j < |all.txs| ensures !Waiting(all, n, j) {
      if j < n { assert all.txs[j] == s.txs[j]; }
    }
    OneEvent(all, Event.Run(n, order));
    var m := Act(s, LockGranted(s, t), order);
    assert MoveOf(all, n, order) == m;
    var next :=
      match m
      case Go(u) => u
      case Stop(a) => Blank(t.program, Done(a))
      case Commit(_, a) => Blank(t.program, Done(a));
    assert (s.txs + [t])[n := next] == s.txs + [next];
  }

  // ---------------------------------------------------------------------------
  // One transaction alone
  // ---------------------------------------------------------------------------

  /** The transaction runs in a safe system. */
  ghost predicate Fit(s: System, t: Tx) {
    Safe(With(s, t)) && !t.stage.Done?
  }

  lemma FitIsCommon(s: System, t: Tx)
    requires Fit(s, t)
    ensures Common(s, t) && StageOk(s.db, s.now, s.limits, t) && CommittedOk(s)
  {
    hide TxOk, Common, StageOk, Compatible, Consistent, ClockOk;
    assert With(s, t).txs[|s.txs|] == t;
    TxIsCommon(s, t);
  }

  /** What is asked for at this time: the clock has not passed the instant, and ids and limits fit. */
  ghost predicate Askable(s: System, op: Operation)
    requires Legal(s.db, op)
  {
    match op
    case Grant(_, _) => true
    case Place(id, row) => id == s.nextBet && s.limits.minStake <= row.stake <= s.limits.maxStake
    case Pay(id, at) =>
      s.now <= at && s.db.rounds[s.db.bets[id].round].status == RoundStatus.Running &&
      ApplyBasisPoints(s.db.bets[id].stake, PriceAt(s.db.rounds[s.db.bets[id].round], at)).Ok?
    case Close(_, _, _, at) => s.now <= at
    case Move(r, at) => s.db.rounds[r].status == Open || s.now <= at
    case Create(_, row) => row == NewRound(row.nonce, row.game, row.crashPoint, row.pocket, row.locksAt)
  }

  /** The request that asks for an operation. */
  ghost function RequestFor(db: Db, op: Operation): Program
    requires Legal(db, op)
  {
    match op
    case Grant(u, amount) => Register(u, amount)
    case Place(_, row) => PlaceBet(row.user, row.round, row.stake, row.key, row.selection)
    case Pay(id, _) => CashOut(db.bets[id].user, id)
    case Close(voiding, r, _, _) => Conclude(voiding, r)
    case Move(r, _) => Advance(r, db.rounds[r].status)
    case Create(r, row) => OpenRound(r, row.nonce, row.game, row.crashPoint, row.pocket, row.locksAt)
  }

  /** The instant an operation waits for. */
  function TimeOf(now: int, op: Operation): int {
    match op
    case Pay(_, at) => if now <= at then at else now
    case Close(_, _, _, at) => if now <= at then at else now
    case Move(_, at) => if now <= at then at else now
    case _ => now
  }

  // ---------------------------------------------------------------------------
  // Staying on course
  // ---------------------------------------------------------------------------

  /** The transaction is on its way to perform the operation, and nothing it may meet will stop it. */
  ghost predicate OnCourse(s: System, t: Tx, op: Operation) {
    Legal(s.db, op) && t.program == RequestFor(s.db, op) && Askable(s.(nextBet := OpenId(t, op, s.nextBet)), op) &&
    match op
    case Grant(_, _) => t.stage.Start? || t.stage.Draining?
    case Place(id, _) =>
      if t.stage.Draining? then t.ids == [id] && s.nextBet == id + 1
      else (t.stage.Start? || t.stage.Checked? || t.stage.RoundHeld? || t.stage.FundsHeld?) && s.nextBet == id
    case Pay(id, at) =>
      s.now == at &&
      (match t.stage
       case Start => true
       case BetHeld => true
       case Quoted(seen) => seen == s.db.rounds[s.db.bets[id].round]
       case Paying(when) => when == at
       case _ => false)
    case Close(_, r, ids, at) =>
      s.now == at &&
      (match t.stage
       case Start => true
       case Snapshot => true
       case Locking(todo, got) => got + todo == ids
       case Settling(left) => t.ids + left == ids
       case _ => false)
    case Move(r, at) =>
      if t.stage.Draining? then t.w == RoundWrites(r, Advanced(s.db.rounds[r], at))
      else t.stage.Start? && (s.db.rounds[r].status == Open || s.now == at)
    case Create(_, _) => t.stage.Start?
  }

  /** The id of a placement is drawn while it runs; before and after, it is the operation's. */
  function OpenId(t: Tx, op: Operation, nextBet: nat): nat {
    if op.Place? then op.id else nextBet
  }

  /** A bound on the statements left. */
  function StepsLeft(t: Tx, op: Operation): nat {
    if op.Place? then StatementsLeft(t)
    else
    match t.stage
    case Start => 10 + (if op.Close? then 8 * |op.ids| else 0)
    case BetHeld => 9
    case Quoted(_) => 8
    case Paying(_) => |t.queue|
    case Draining => |t.queue|
    case Snapshot => 9 + (if op.Close? then 8 * |op.ids| else 0)
    case Locking(todo, _) => 7 * (if op.Close? then |op.ids| else 0) + |todo| + 2
    case Settling(left) => 7 * |left| + |t.queue| + 1
    case _ => 0
  }

  /** The next statement goes on towards the operation, or commits exactly it. */
  ghost predicate Advances(s: System, t: Tx, op: Operation, m: Move) {
    match m
    case Go(next) => OnCourse(s.(nextBet := NextBetAfter(s, t)), next, op) && StepsLeft(next, op) < StepsLeft(t, op)
    case Commit(last, _) => Legal(s.db, op) && Overwrite(s.db, last) == Effect(s.db, op)
    case Stop(_) => false
  }

  // Registering

  lemma GrantStarts(s: System, t: Tx, op: Operation, order: seq<nat>)
    requires Fit(s, t) && OnCourse(s, t, op) && op.Grant? && t.stage.Start?
    ensures Advances(s, t, op, Act(s, LockGranted(s, t), order))
  {
    hide Safe, Balanced, Consistent;
    GrantIsBalanced(op.user, op.amount);
    SortedPair(Posting(Mint, Negate(op.amount)), Posting(Wallet(op.user), op.amount));
  }

  lemma GrantPostsOn(s: System, t: Tx, op: Operation, order: seq<nat>)
    requires Fit(s, t) && OnCourse(s, t, op) && op.Grant? && t.stage.Draining? && t.queue != []
    ensures Advances(s, t, op, Act(s, LockGranted(s, t), order))
  {
    hide Fit, Common, CommittedOk, Consistent, MoneyTracked, AccountsKnown, RowsLocked, RegisterDraining, LocksKnown,
         Wants, Legal;
    FitIsCommon(s, t);
    CommonCommitted(s, t);
    PostingGranted(s, t);
    SameMoney(s.db, t, LockGranted(s, t));
    RegisterDrains(s.db, t, LockGranted(s, t));
    PostOneSucceeds(s.db, LockGranted(s, t));
  }

  lemma GrantEnds(s: System, t: Tx, op: Operation, order: seq<nat>)
    requires Fit(s, t) && OnCourse(s, t, op) && op.Grant? && t.stage.Draining? && t.queue == []
    ensures Advances(s, t, op, Act(s, LockGranted(s, t), order))
  {
    hide Fit, Common, CommitOk, Apply, Overwrite, RegisterDraining, Legal;
    FitIsCommon(s, t);
    RegisterCommitOk(s, t);
    CommittedIsApplied(s.db, s.now, s.nextBet, s.limits, t);
    assert LockGranted(s, t) == t;
    assert t.w == RegisterWrites(op.user, op.amount) by { RegisterWritesKnown(s, t); }
  }

  lemma RegisterWritesKnown(s: System, t: Tx)
    requires t.program.Register? && RegisterDraining(s.db, t)
    ensures t.w == RegisterWrites(t.program.user, t.program.grant)
  {
  }

  // Opening and advancing a round

  lemma CreateEnds(s: System, t: Tx, op: Operation, order: seq<nat>)
    requires Fit(s, t) && OnCourse(s, t, op) && op.Create?
    ensures Advances(s, t, op, Act(s, LockGranted(s, t), order))
  {
    hide Fit, Common, CommitOk, Apply, Overwrite, NewRound, RoundChecks;
    FitIsCommon(s, t);
    assert LockGranted(s, t) == t;
    OpenCommitOk(s, t);
    CommittedIsApplied(s.db, s.now, s.nextBet, s.limits, ActOpenRound(s.db, t).last);
  }

  lemma MoveStarts(s: System, t: Tx, op: Operation, order: seq<nat>)
    requires Fit(s, t) && OnCourse(s, t, op) && op.Move? && t.stage.Start?
    ensures Advances(s, t, op, Act(s, LockGranted(s, t), order))
  {
    hide Safe, RoundChecks, Fit, Common;
    FitIsCommon(s, t);
    assert Idle(t);
    var row := Advanced(s.db.rounds[op.round], s.now);
    assert map[][op.round := row] == map[op.round := row];
    assert Advanced(s.db.rounds[op.round], s.now) == Advanced(s.db.rounds[op.round], op.at);
  }

  lemma MoveEnds(s: System, t: Tx, op: Operation, order: seq<nat>)
    requires Fit(s, t) && OnCourse(s, t, op) && op.Move? && t.stage.Draining?
    ensures Advances(s, t, op, Act(s, LockGranted(s, t), order))
  {
    hide Fit, Common, CommitOk, Apply, Overwrite, AdvanceDraining, Advanced, RoundChecks;
    FitIsCommon(s, t);
    AdvanceDrained(s, t);
    AdvanceCommitOk(s, t);
    CommittedIsApplied(s.db, s.now, s.nextBet, s.limits, t);
    assert LockGranted(s, t) == t;
  }

  // Placing a bet

  lemma OnCourseIsPending(s: System, t: Tx, op: Operation)
    requires Fit(s, t) && OnCourse(s, t, op) && op.Place?
    ensures Pending(s, t) && WalletOf(s.db, t.program.user) >= t.program.stake
  {
    FitIsCommon(s, t);
    hide Fit, Common, PlaceOk, PriceSelection;
  }

  /** The statements of a cash-out follow each other, and its queue is the sorted pay-out. */
  lemma PayShape(s: System, t: Tx)
    requires t.program.CashOut? && ActCashOut(s.db, s.now, t).Go?
    ensures var next := ActCashOut(s.db, s.now, t).next;
            match t.stage
            case Start => next.stage.BetHeld?
            case BetHeld => next.stage.Quoted?
            case Quoted(_) =>
              next.stage.Paying? && t.program.bet in s.db.bets &&
              exists payout :: next.queue ==
                Sorted(PayoutPostings(s.db.bets[t.program.bet].user, s.db.bets[t.program.bet].stake, payout))
            case Paying(_) => next.stage.Paying? && t.queue != [] && next.queue == t.queue[1..]
            case _ => true
  {
    hide BetChecks, Balanced, Sorted, PriceAt, PayoutPostings;
  }

  /** Each statement of a placement leads to the next, and the INSERT draws the next bet id. */
  lemma PlaceShape(s: System, t: Tx)
    requires t.program.PlaceBet? && ActPlaceBet(s.db, s.limits, s.nextBet, t).Go?
    ensures var next := ActPlaceBet(s.db, s.limits, s.nextBet, t).next;
            match t.stage
            case Start => next.stage.Checked?
            case Checked => next.stage.RoundHeld?
            case RoundHeld(_) => next.stage.FundsHeld?
            case FundsHeld(_) =>
              next.stage.ReadBack? ||
              (next.stage.Draining? && next.ids == [s.nextBet] &&
               next.queue == Sorted([Posting(Wallet(t.program.user), Negate(t.program.stake)),
                                     Posting(Escrow, t.program.stake)]))
            case Draining => next.stage.Draining? && next.ids == t.ids
            case _ => true
  {
    hide PriceSelection, BetChecks, FindKey, Balanced, Sorted;
  }

  lemma PlaceAdvances(s: System, t: Tx, op: Operation, order: seq<nat>)
    requires Fit(s, t) && OnCourse(s, t, op) && op.Place?
    ensures Advances(s, t, op, Act(s, LockGranted(s, t), order))
  {
    hide Fit, Pending, ActPlaceBet, Wants, Apply, Overwrite, MayPlace, HasPlacement;
    OnCourseIsPending(s, t, op);
    PendingMoves(s, t);
    var m := ActPlaceBet(s.db, s.limits, s.nextBet, LockGranted(s, t));
    match m
    case Go(next) =>
      PlaceShape(s, LockGranted(s, t));
    case Stop(_) =>
    case Commit(last, _) => PlaceEnds(s, t, op);
  }

  lemma PlaceEnds(s: System, t: Tx, op: Operation)
    requires Fit(s, t) && OnCourse(s, t, op) && op.Place?
    requires ActPlaceBet(s.db, s.limits, s.nextBet, LockGranted(s, t)).Commit?
    ensures Overwrite(s.db, ActPlaceBet(s.db, s.limits, s.nextBet, LockGranted(s, t)).last) == Effect(s.db, op)
  {
    hide Fit, Common, CommitOk, Apply, Overwrite, MayPlace, PlaceDraining;
    FitIsCommon(s, t);
    PlaceCommitShape(s, t);
    assert LockGranted(s, t) == t;
    PlaceCommitOk(s, t);
    CommittedIsApplied(s.db, s.now, s.nextBet, s.limits, t);
    PlacedAsAsked(s.db, t, op.id, op.row);
  }

  lemma PlaceCommitShape(s: System, t: Tx)
    requires t.program.PlaceBet? && ActPlaceBet(s.db, s.limits, s.nextBet, LockGranted(s, t)).Commit?
    ensures t.stage.Draining? && t.queue == []
    ensures ActPlaceBet(s.db, s.limits, s.nextBet, LockGranted(s, t)).last == LockGranted(s, t)
  {
    hide PriceSelection, BetChecks, FindKey, Balanced, Sorted;
  }

  /** The placement and the price leave no choice of row. */
  lemma PlacedAsAsked(db: Db, t: Tx, id: nat, row: Bet)
    requires t.program.PlaceBet? && PlaceDraining(db, t) && t.ids == [id] && MayPlace(db, id, row)
    requires t.program == PlaceBet(row.user, row.round, row.stake, row.key, row.selection)
    ensures t.w == PlaceWrites(id, row)
  {
    hide PriceSelection;
  }

  // Cashing out

  /** What being on course to pay means for the statements. */
  lemma PayableNow(s: System, t: Tx, op: Operation)
    requires OnCourse(s, t, op) && op.Pay?
    ensures s.now == op.at && op.id in s.db.bets && s.db.bets[op.id].round in s.db.rounds
    ensures t.program == CashOut(s.db.bets[op.id].user, op.id) && s.db.bets[op.id].status == Active
    ensures MayCashOut(s.db, op.id, op.at) && NextBetAfter(s, t) == s.nextBet
    ensures t.stage.Start? || t.stage.BetHeld? || t.stage.Quoted? || t.stage.Paying?
    ensures t.stage.Quoted? ==> t.stage.seen == s.db.rounds[s.db.bets[op.id].round]
    ensures t.stage.Paying? ==> t.stage.at == op.at
    ensures var r := s.db.rounds[s.db.bets[op.id].round];
            r.game == CrashGame && r.status == RoundStatus.Running && r.crashPoint.Some? && r.startedAt.Some? &&
            PriceAt(r, op.at) < r.crashPoint.value && ApplyBasisPoints(s.db.bets[op.id].stake, PriceAt(r, op.at)).Ok?
  {
    hide PriceAt;
  }

  lemma PayStays(s: System, t: Tx, op: Operation, next: Tx)
    requires OnCourse(s, t, op) && op.Pay? && next.program == t.program
    requires op.id in s.db.bets && s.db.bets[op.id].round in s.db.rounds
    requires next.stage == BetHeld || next.stage == Quoted(s.db.rounds[s.db.bets[op.id].round]) ||
             next.stage == Paying(op.at)
    ensures OnCourse(s.(nextBet := NextBetAfter(s, t)), next, op)
  {
    hide Legal, Askable;
  }

  lemma PayReads(s: System, t: Tx, op: Operation, order: seq<nat>)
    requires Fit(s, t) && OnCourse(s, t, op) && op.Pay? && (t.stage.Start? || t.stage.BetHeld?)
    ensures Advances(s, t, op, Act(s, LockGranted(s, t), order))
  {
    hide Fit, OnCourse, PriceAt, Common, MayCashOut, Legal, StageOk;
    PayableNow(s, t, op);
    PayReadsOn(s.db, s.now, t, op);
    hide ActCashOut, Wants;
    PayStays(s, t, op, ActCashOut(s.db, s.now, LockGranted(s, t)).next);
  }

  lemma PayReadsOn(db: Db, now: int, t: Tx, op: Operation)
    requires op.Pay? && op.id in db.bets && t.program == CashOut(db.bets[op.id].user, op.id)
    requires db.bets[op.id].status == Active && db.bets[op.id].round in db.rounds
    requires var r := db.rounds[db.bets[op.id].round];
             r.game == CrashGame && r.status == RoundStatus.Running && r.crashPoint.Some? && r.startedAt.Some?
    requires t.stage.Start? || t.stage.BetHeld?
    ensures var m := ActCashOut(db, now, WithLock(t, Wants(db, t)));
            m.Go? && m.next.program == t.program && StepsLeft(m.next, op) < StepsLeft(t, op) &&
            m.next.stage == (if t.stage.Start? then BetHeld else Quoted(db.rounds[db.bets[op.id].round]))
  {
  }

  lemma ShortPayout(user: nat, stake: nat, payout: int)
    ensures |Sorted(PayoutPostings(user, stake, payout))| <= 4
  {
    SortedPayout(user, stake, payout);
  }

  lemma PayQuotes(s: System, t: Tx, op: Operation, order: seq<nat>)
    requires Fit(s, t) && OnCourse(s, t, op) && op.Pay? && t.stage.Quoted?
    ensures Advances(s, t, op, Act(s, LockGranted(s, t), order))
  {
    hide Fit, OnCourse, PriceAt, Common, BetChecks, Payable, SameRace, Sorted, Balanced, Legal, MayCashOut, CommittedOk;
    PayableNow(s, t, op);
    FitIsCommon(s, t);
    QuoteFits(s, t);
    var db, b := s.db, op.id;
    var row := PaidRow(db, b, s.now);
    var tx := Transaction(BetCashout, BetRef(b), PayoutPostings(db.bets[b].user, db.bets[b].stake, row.payout.value));
    assert SettlementOf(b, row) == [tx];
    CashTracked(s, t, row);
    assert LockGranted(s, t) == t;
    assert ActCashOut(db, s.now, t) == Enqueue(CashWritten(t, row, s.now), tx);
    ShortPayout(db.bets[b].user, db.bets[b].stake, row.payout.value);
    PayStays(s, t, op, Enqueue(CashWritten(t, row, s.now), tx).next);
  }

  lemma PayPostsOn(s: System, t: Tx, op: Operation, order: seq<nat>)
    requires Fit(s, t) && OnCourse(s, t, op) && op.Pay? && t.stage.Paying? && t.queue != []
    ensures Advances(s, t, op, Act(s, LockGranted(s, t), order))
  {
    hide Fit, OnCourse, Common, CommittedOk, Consistent, RowsLocked, AccountsKnown, MoneyTracked, LocksKnown, BatchFits,
         Legal, EscrowFirst, PayoutQueue, BetsFit, CashDraining, PriceAt, MayCashOut, Wants;
    PayableNow(s, t, op);
    FitIsCommon(s, t);
    CommonCommitted(s, t);
    CashSoFar(s, t);
    PayoutPosts(s, t, t.w.bets);
    PostingGranted(s, t);
    PayStays(s, t, op, PostedTx(s.db, LockGranted(s, t)));
  }

  lemma PayEnds(s: System, t: Tx, op: Operation, order: seq<nat>)
    requires Fit(s, t) && OnCourse(s, t, op) && op.Pay? && t.stage.Paying? && t.queue == []
    ensures Advances(s, t, op, Act(s, LockGranted(s, t), order))
  {
    hide Fit, Common, CommitOk, Apply, Overwrite, CashDraining, Legal, BatchWrites, PaidRow;
    FitIsCommon(s, t);
    CashCommitOk(s, t);
    CommittedIsApplied(s.db, s.now, s.nextBet, s.limits, t);
    assert LockGranted(s, t) == t;
    PayableNow(s, t, op);
    assert t.w == BatchWrites(map[op.id := PaidRow(s.db, op.id, op.at)], [op.id], map[]) by { CashWritesKnown(s.db, t); }
  }

  lemma CashWritesKnown(db: Db, t: Tx)
    requires t.program.CashOut? && t.stage.Paying? && CashDraining(db, t, t.stage.at)
    ensures t.program.bet in db.bets && db.bets[t.program.bet].round in db.rounds
    ensures t.w == BatchWrites(map[t.program.bet := PaidRow(db, t.program.bet, t.stage.at)], [t.program.bet], map[])
  {
    hide PriceAt, BatchWrites, PaidRow, PayoutQueue, EscrowFirst, PaysOnly;
  }

  // Settling and voiding

  lemma CloseReads(s: System, t: Tx, op: Operation, order: seq<nat>)
    requires Fit(s, t) && OnCourse(s, t, op) && op.Close? && (t.stage.Start? || t.stage.Snapshot?)
    requires t.stage.Snapshot? ==> order == op.ids
    ensures Advances(s, t, op, Act(s, LockGranted(s, t), order))
  {
    hide Fit, OnCourse, Common, Decidable, Legal, ActiveBetsOf;
    ClosableNow(s, t, op);
    FitIsCommon(s, t);
    assert [] + order == order;
    CloseStays(s, t, op, ActConclude(s.db, s.now, LockGranted(s, t), order).next);
  }

  /** What being on course to close a round means for the statements. */
  lemma ClosableNow(s: System, t: Tx, op: Operation)
    requires OnCourse(s, t, op) && op.Close?
    ensures s.now == op.at && t.program == Conclude(op.voiding, op.round) && NextBetAfter(s, t) == s.nextBet
    ensures Decidable(op.voiding, s.db, op.round, op.ids) && op.round in s.db.rounds
    ensures MayConclude(op.voiding, s.db.rounds[op.round])
    ensures forall b | b in op.ids :: ActiveIn(s.db, op.round, b)
    ensures t.stage.Locking? ==> t.stage.got + t.stage.todo == op.ids
    ensures t.stage.Settling? ==> t.ids + t.stage.left == op.ids
  {
    hide Decide, Distinct;
  }

  lemma CloseStays(s: System, t: Tx, op: Operation, next: Tx)
    requires OnCourse(s, t, op) && op.Close? && next.program == t.program
    requires next.stage.Snapshot? || (next.stage.Locking? && next.stage.got + next.stage.todo == op.ids) ||
             (next.stage.Settling? && next.ids + next.stage.left == op.ids)
    ensures OnCourse(s.(nextBet := NextBetAfter(s, t)), next, op)
  {
    hide Legal, Askable;
  }

  lemma CloseLocks(s: System, t: Tx, op: Operation, order: seq<nat>)
    requires Fit(s, t) && OnCourse(s, t, op) && op.Close? && t.stage.Locking? && t.stage.todo != []
    ensures Advances(s, t, op, Act(s, LockGranted(s, t), order))
  {
    hide Fit, OnCourse, Common, Decidable, Distinct, MayConclude, Legal, ActiveBetsOf, StageOk;
    ClosableNow(s, t, op);
    assert t.queue == [] by { FitIsCommon(s, t); LockingIsBlank(s, t); }
    LocksOneBet(s.db, s.now, t, op, order);
    hide ActConclude, Wants;
    CloseStays(s, t, op, ActConclude(s.db, s.now, LockGranted(s, t), order).next);
  }

  lemma LocksOneBet(db: Db, now: int, t: Tx, op: Operation, order: seq<nat>)
    requires op.Close? && t.program == Conclude(op.voiding, op.round) && t.queue == []
    requires t.stage.Locking? && t.stage.todo != [] && t.stage.got + t.stage.todo == op.ids
    requires forall b | b in op.ids :: ActiveIn(db, op.round, b)
    ensures var m := ActConclude(db, now, WithLock(t, Wants(db, t)), order);
            m.Go? && m.next.program == t.program && StepsLeft(m.next, op) < StepsLeft(t, op) &&
            m.next.stage.Locking? && m.next.stage.got + m.next.stage.todo == op.ids
  {
    var todo, got := t.stage.todo, t.stage.got;
    assert op.ids[|got|] == todo[0];
    assert todo[0] in op.ids && ActiveIn(db, op.round, todo[0]);
    assert (got + [todo[0]]) + todo[1..] == got + todo;
  }

  lemma CloseHasLocked(s: System, t: Tx, op: Operation, order: seq<nat>)
    requires Fit(s, t) && OnCourse(s, t, op) && op.Close? && t.stage.Locking? && t.stage.todo == []
    ensures Advances(s, t, op, Act(s, LockGranted(s, t), order))
  {
    hide Fit, OnCourse, Common, Decidable, Distinct, MayConclude, Legal, ActiveBetsOf;
    ClosableNow(s, t, op);
    FitIsCommon(s, t);
    LockingIsBlank(s, t);
    hide StageOk;
    assert t.stage.got + [] == t.stage.got && [] + t.stage.got == t.stage.got;
    CloseStays(s, t, op, ActConclude(s.db, s.now, LockGranted(s, t), order).next);
  }

  lemma LockingIsBlank(s: System, t: Tx)
    requires t.program.Conclude? && t.stage.Locking? && StageOk(s.db, s.now, s.limits, t)
    ensures t.ids == [] && t.queue == []
  {
    hide Distinct, ActiveIn;
  }

  lemma ClosePostsOn(s: System, t: Tx, op: Operation, order: seq<nat>)
    requires Fit(s, t) && OnCourse(s, t, op) && op.Close? && t.stage.Settling? && t.queue != []
    ensures Advances(s, t, op, Act(s, LockGranted(s, t), order))
  {
    hide Fit, Common, CommittedOk, Consistent, RowsLocked, AccountsKnown, MoneyTracked, LocksKnown, BatchFits, BetsFit,
         MayStart, PayoutQueue, EscrowFirst, Decidable, ActiveBetsOf, PaysLast, Legal, ConcludeSettling, LockGranted;
    FitIsCommon(s, t);
    CommonCommitted(s, t);
    ConsistentBets(s.db);
    SettlingSoFar(s.db, t, t.stage.left);
    SettlingPays(s.db, t);
    DecidedRowsFit(op.voiding, s.db, op.round, t.ids);
    PayoutPosts(s, t, DecidedRows(op.voiding, s.db, op.round, t.ids));
    PostingGranted(s, t);
  }

  lemma SettlingPays(db: Db, t: Tx)
    requires t.program.Conclude? && t.stage.Settling? && ConcludeSettling(db, t, t.stage.left)
    ensures PayoutQueue(db, t.queue) && EscrowFirst(t)
  {
    hide PayoutQueue, EscrowFirst, Decide, ActiveBetsOf, BatchWrites, DecidedRows;
  }

  lemma ShortSettlement(id: nat, row: Bet)
    ensures |Sorted(DecisionTx(id, row).postings)| <= 4
  {
    hide Sorted;
    match row.status
    case Won => ShortPayout(row.user, row.stake, if row.payout.Some? then row.payout.value else 0);
    case Refunded => SortedPair(Posting(Escrow, Negate(row.stake)), Posting(Wallet(row.user), row.stake));
    case _ => SortedPair(Posting(Escrow, Negate(row.stake)), Posting(House, row.stake));
  }

  lemma CloseDecides(s: System, t: Tx, op: Operation, order: seq<nat>)
    requires Fit(s, t) && OnCourse(s, t, op) && op.Close? && t.stage.Settling? && t.queue == [] && t.stage.left != []
    ensures Advances(s, t, op, Act(s, LockGranted(s, t), order))
  {
    hide Fit, Common, CommittedOk, Consistent, RowsLocked, AccountsKnown, MoneyTracked, LocksKnown, BetFits, BetChecks,
         MayStart, ConcludeSettling, Decide, Legal, DecisionTx, Sorted, Balanced, ActiveBetsOf;
    var voiding, r, id := op.voiding, op.round, t.stage.left[0];
    FitIsCommon(s, t);
    CommonCommitted(s, t);
    NextIsActive(s.db, t, t.stage.left);
    CommittedBetFits(s.db, id);
    DecisionErrors(voiding, s.db.bets[id], s.db.users, s.db.rounds);
    NextIsDecidable(s.db, t, op);
    assert LockGranted(s, t) == t;
    var row := Decide(voiding, s.db.bets[id], s.db.rounds[r]).value;
    DecidesOne(s, t, row);
    ShortSettlement(id, row);
  }

  lemma NextIsDecidable(db: Db, t: Tx, op: Operation)
    requires op.Close? && Legal(db, op) && t.stage.Settling? && t.stage.left != [] && t.ids + t.stage.left == op.ids
    ensures op.round in db.rounds && t.stage.left[0] in db.bets
    ensures Decide(op.voiding, db.bets[t.stage.left[0]], db.rounds[op.round]).Ok?
  {
    hide Decide, ActiveBetsOf;
    assert op.ids[|t.ids|] == t.stage.left[0];
  }

  lemma CloseEnds(s: System, t: Tx, op: Operation, order: seq<nat>)
    requires Fit(s, t) && OnCourse(s, t, op) && op.Close? && t.stage.Settling? && t.queue == [] && t.stage.left == []
    ensures Advances(s, t, op, Act(s, LockGranted(s, t), order))
  {
    hide Fit, Common, CommittedOk, Consistent, RoundChecks, TimesFit, CommitOk, ConcludeSettling, MayStart, Apply,
         Overwrite, Concluded, BatchWrites, DecidedRows, Decidable, ActiveBetsOf, Decide, MayConclude, SameTerms;
    var r := op.round;
    FitIsCommon(s, t);
    CommonCommitted(s, t);
    CommittedRoundFits(s, r);
    assert LockGranted(s, t) == t;
    assert t.ids + [] == t.ids;
    ConcludedRowFits(op.voiding, s.db.rounds[r], s.now);
    ConclusionPasses(op.voiding, s.db.rounds[r], s.now);
    ConcludeCommitOk(s, t);
    SettledWrites(s, t);
    CommittedIsApplied(s.db, s.now, s.nextBet, s.limits, RoundWritten(s, t));
  }

  lemma ConclusionPasses(voiding: bool, r: Round, now: int)
    requires MayConclude(voiding, r) && RoundChecks(r)
    ensures RoundChecks(Concluded(voiding, r, now)) && MayStart(voiding, r)
  {
  }

  // ---------------------------------------------------------------------------
  // Every legal operation asked for is realised
  // ---------------------------------------------------------------------------

  /** What a snapshot lists, when one is taken, is the operation's own order of bets. */
  ghost function OrderFor(op: Operation): seq<nat> {
    if op.Close? then op.ids else []
  }

  lemma AnyAdvances(s: System, t: Tx, op: Operation)
    requires Fit(s, t) && OnCourse(s, t, op)
    ensures Advances(s, t, op, Act(s, LockGranted(s, t), OrderFor(op)))
  {
    hide Fit, Advances, Legal, Act, RequestFor;
    match op
    case Grant(_, _) =>
      if t.stage.Start? { GrantStarts(s, t, op, OrderFor(op)); }
      else if t.queue != [] { GrantPostsOn(s, t, op, OrderFor(op)); }
      else { GrantEnds(s, t, op, OrderFor(op)); }
    case Place(_, _) => PlaceAdvances(s, t, op, OrderFor(op));
    case Pay(_, _) =>
      if t.stage.Start? || t.stage.BetHeld? { PayReads(s, t, op, OrderFor(op)); }
      else if t.stage.Quoted? { PayQuotes(s, t, op, OrderFor(op)); }
      else if t.queue != [] { PayPostsOn(s, t, op, OrderFor(op)); }
      else { PayEnds(s, t, op, OrderFor(op)); }
    case Close(_, _, _, _) =>
      if t.stage.Start? || t.stage.Snapshot? { CloseReads(s, t, op, OrderFor(op)); }
      else if t.stage.Locking? {
        if t.stage.todo != [] { CloseLocks(s, t, op, OrderFor(op)); } else { CloseHasLocked(s, t, op, OrderFor(op)); }
      }
      else if t.queue != [] { ClosePostsOn(s, t, op, OrderFor(op)); }
      else if t.stage.left != [] { CloseDecides(s, t, op, OrderFor(op)); }
      else { CloseEnds(s, t, op, OrderFor(op)); }
    case Move(_, _) =>
      if t.stage.Start? { MoveStarts(s, t, op, OrderFor(op)); } else { MoveEnds(s, t, op, OrderFor(op)); }
    case Create(_, _) => CreateEnds(s, t, op, OrderFor(op));
  }

  lemma CourseIsOpen(s: System, t: Tx, op: Operation)
    requires OnCourse(s, t, op)
    ensures Legal(s.db, op) && !t.stage.Done? && t.program == RequestFor(s.db, op)
    ensures t.program.Conclude? && t.stage.Snapshot? ==> ActiveBetsOf(s.db, t.program.round, OrderFor(op))
    ensures op.Place? <==> t.program.PlaceBet?
    ensures op.Place? ==>
              t.stage.Start? || t.stage.Checked? || t.stage.RoundHeld? || t.stage.FundsHeld? || t.stage.Draining?
    ensures op.Place? && !t.stage.FundsHeld? && t.stage.Draining? ==> s.nextBet == op.id + 1
  {
    hide Decidable, MayPlace, MayCashOut, RoundChecks, Askable, ActiveBetsOf;
  }

  /** How many bet ids a state has handed out once the operation is done. */
  function NextBetOnce(nextBet: nat, op: Operation): nat {
    if op.Place? then op.id + 1 else nextBet
  }

  ghost predicate Realises(s: System, op: Operation, end: System) {
    Legal(s.db, op) && Safe(end) && Unlocked(end) && end.db == Effect(s.db, op) && end.limits == s.limits &&
    end.now == TimeOf(s.now, op) && end.nextBet == NextBetOnce(s.nextBet, op)
  }

  lemma {:induction false} Finishes(s: System, t: Tx, op: Operation) returns (end: System)
    requires Unlocked(s) && Fit(s, t) && OnCourse(s, t, op) && TimeOf(s.now, op) == s.now
    ensures Leads(With(s, t), end) && Realises(s, op, end)
    decreases StepsLeft(t, op)
  {
    hide Safe, OnCourse, StepsLeft, Legal, Effect, Act, Leads, Wants, Overwrite, ActiveBetsOf;
    CourseIsOpen(s, t, op);
    AnyAdvances(s, t, op);
    UnlockedIsUnopposed(s, t);
    Turn(s, t, OrderFor(op));
    var m := Act(s, LockGranted(s, t), OrderFor(op));
    var moved := Moved(s, t, m);
    LeadsSafely(With(s, t), moved);
    if m.Go? {
      var later := s.(nextBet := NextBetAfter(s, t));
      CourseIsOpen(later, m.next, op);
      end := Finishes(later, m.next, op);
      LeadsOn(With(s, t), moved, end);
    } else {
      end := moved;
      CommitsLast(s, t, op, m);
    }
  }

  lemma CommitsLast(s: System, t: Tx, op: Operation, m: Move)
    requires Fit(s, t) && OnCourse(s, t, op) && m.Commit? && m == Act(s, LockGranted(s, t), OrderFor(op))
    ensures Moved(s, t, m).nextBet == NextBetOnce(s.nextBet, op)
  {
    hide Legal, Askable, Fit, Act;
    if op.Place? {
      assert m == ActPlaceBet(s.db, s.limits, s.nextBet, LockGranted(s, t)) by { PlaceIsItsAct(s, t, OrderFor(op)); }
      hide ActPlaceBet;
      PlaceCommitShape(s, t);
    }
  }

  lemma PlaceIsItsAct(s: System, t: Tx, order: seq<nat>)
    requires t.program.PlaceBet?
    ensures Act(s, LockGranted(s, t), order) == ActPlaceBet(s.db, s.limits, s.nextBet, LockGranted(s, t))
  {
    hide ActPlaceBet;
  }

  /**
   The converse of refinement: from any safe state in which no lock is held,
   every legal operation that a request can ask for at this time is exactly
   what some run of statements commits.
   */
  lemma LegalIsRealised(s: System, op: Operation) returns (end: System)
    requires Safe(s) && Unlocked(s) && Legal(s.db, op) && Askable(s, op)
    ensures Leads(s, end) && Realises(s, op, end)
  {
    hide Safe, Legal, Effect, Leads, Askable, OnCourse;
    var later := s.(now := TimeOf(s.now, op));
    Elapses(s, TimeOf(s.now, op) - s.now);
    LeadsSafely(s, later);
    var t := Blank(RequestFor(s.db, op), Start);
    Begins(later, t.program);
    LeadsSafely(later, With(later, t));
    SetsOut(s, later, t, op);
    end := Finishes(later, t, op);
    LeadsOn(s, later, With(later, t));
    LeadsOn(s, With(later, t), end);
  }

  lemma SetsOut(s: System, later: System, t: Tx, op: Operation)
    requires Legal(s.db, op) && Askable(s, op) && later == s.(now := TimeOf(s.now, op))
    requires t == Blank(RequestFor(s.db, op), Start)
    ensures OnCourse(later, t, op)
  {
    hide Legal;
  }

  /** A history every step of which can be asked for when its turn comes. */
  ghost predicate Schedulable(db: Db, now: int, nextBet: nat, limits: Limits, ops: seq<Operation>)
    decreases |ops|
  {
    ops == [] ||
    (Legal(db, ops[0]) && Askable(System(db, [], now, nextBet, limits), ops[0]) &&
     Schedulable(Effect(db, ops[0]), TimeOf(now, ops[0]), NextBetOnce(nextBet, ops[0]), limits, ops[1..]))
  }

  function TimeAfter(now: int, ops: seq<Operation>): int
    decreases |ops|
  {
    if ops == [] then now else TimeAfter(TimeOf(now, ops[0]), ops[1..])
  }

  /** The next bet id once the history is done. */
  function BetsAfter(nextBet: nat, ops: seq<Operation>): nat
    decreases |ops|
  {
    if ops == [] then nextBet else BetsAfter(NextBetOnce(nextBet, ops[0]), ops[1..])
  }

  /** So a whole schedulable history is realised, one transaction after another. */
  lemma {:induction false} HistoriesAreRealised(s: System, ops: seq<Operation>) returns (end: System)
    requires Safe(s) && Unlocked(s) && Schedulable(s.db, s.now, s.nextBet, s.limits, ops)
    ensures IsHistory(s.db, ops) && Leads(s, end) && Safe(end) && Unlocked(end) && end.limits == s.limits
    ensures end.db == Replayed(s.db, ops) && end.now == TimeAfter(s.now, ops) && end.nextBet == BetsAfter(s.nextBet, ops)
    decreases |ops|
  {
    hide Safe, Unlocked, Legal, Effect, Leads;
    end := s;
    LeadsNowhere(s);
    if ops != [] {
      AskableAnyway(s, ops[0]);
      var next := LegalIsRealised(s, ops[0]);
      end := HistoriesAreRealised(next, ops[1..]);
      LeadsOn(s, next, end);
    }
  }

  lemma AskableAnyway(s: System, op: Operation)
    requires Legal(s.db, op) && Askable(System(s.db, [], s.now, s.nextBet, s.limits), op)
    ensures Askable(s, op)
  {
    hide Legal;
  }
}
