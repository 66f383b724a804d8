/** Each statement of each kind of transaction keeps what is known about it. */
module InterleavingMoves {
  import opened Prelude
  import opened Money
  import opened CrashCurve
  import opened Roulette
  import opened Ledger
  import opened Tables
  import opened Operations
  import opened Interleaving
  import opened InterleavingState
  import opened InterleavingPosting

  // ---------------------------------------------------------------------------
  // Commits
  // ---------------------------------------------------------------------------

  /** Every row a commit changes is one its transaction has locked, or a new one. */
  ghost predicate EffectsLocked(db: Db, t: Tx) {
    (forall b | b in t.w.bets :: BetLock(b) in t.locks && BetChangeFits(db.bets, t.w, b)) &&
    (forall b | b in t.w.bets && b !in db.bets ::
       t.w.bets[b].round in t.shared && KeyLock(t.w.bets[b].user, t.w.bets[b].key) in t.locks) &&
    (forall r | r in t.w.rounds && r in db.rounds ::
       RoundLock(r) in t.locks && SameTerms(db.rounds[r], t.w.rounds[r])) &&
    (forall a | a in t.balances :: BalanceLock(a) in t.locks) &&
    (forall u | u in t.w.users :: BalanceLock(Wallet(u)) in t.locks)
  }

  lemma CommitIsSteady(db: Db, t: Tx, nextBet: nat, other: Tx)
    requires EffectsLocked(db, t) && Compatible(t, other) && LocksKnown(db, nextBet, other)
    requires forall u | u in t.w.users :: Wallet(u) in t.balances
    ensures Steady(db, Overwrite(db, t), other)
  {
    var after := Overwrite(db, t);
    assert AccountsSteady(db, after, other) by {
      hide RoundsSteady, BetsSteady, BetChangeFits, SameTerms;
    }
    assert RoundsSteady(db, after, other) by {
      hide AccountsSteady, BetsSteady, BetChangeFits;
    }
    hide AccountsSteady, RoundsSteady, SameTerms;
    forall b | b in t.w.bets ensures BetLock(b) !in other.locks {
    }
  }

  /** With the queue drained, overwriting the rows is exactly applying the writes. */
  lemma DrainedOverwriteIsApply(db: Db, t: Tx)
    requires t.queue == [] && MoneyTracked(db, t) && AccountsKnown(db, t)
    requires forall u | u in t.w.users :: Wallet(u) in t.balances
    ensures Overwrite(db, t) == Apply(db, t.w)
  {
    var before, after := Overwrite(db, t).balances, Apply(db, t.w).balances;
    forall a ensures a in before <==> a in after {
    }
    forall a | a in before ensures before[a] == after[a] {
      assert Buffered(db, t, a) + Net(t.queue, a) == EntrySum(t.w.journal, a);
    }
  }

  /** A commit that is exactly one operation on the tables as they are now. */
  ghost predicate CommitOk(db: Db, now: int, nextBet: nat, limits: Limits, t: Tx) {
    Overwrite(db, t) == Apply(db, t.w) && Consistent(Apply(db, t.w)) && ClockOk(Apply(db, t.w), now) &&
    EffectsLocked(db, t) && (forall u | u in t.w.users :: Wallet(u) in t.balances) &&
    (forall b | b in t.w.bets :: b < nextBet && t.w.bets[b].stake <= limits.maxStake)
  }

  ghost predicate MoveOk(db: Db, now: int, nextBet: nat, limits: Limits, p: Program, m: Move) {
    match m
    case Go(next) => next.program == p && TxOk(db, now, nextBet, limits, next)
    case Stop(a) => StageOk(db, now, limits, Blank(p, Done(a)))
    case Commit(last, a) =>
      CommitOk(db, now, nextBet, limits, last) && StageOk(Apply(db, last.w), now, limits, Blank(p, Done(a)))
  }

  /** A finished transaction is idle, so its answer is all there is to check. */
  ghost predicate AnswerOk(db: Db, limits: Limits, p: Program, a: Answer) {
    match p
    case Register(_, _) => a == Committed
    case PlaceBet(_, _, _, _, _) => PlaceAnswer(db, p, a)
    case CashOut(_, _) => CashAnswer(db, limits, p, a)
    case Conclude(_, _) => ConcludeAnswer(db, limits, p, a)
    case Advance(_, _) => a == Committed
    case OpenRound(_, _, _, _, _, _) => true
  }

  lemma CommittedMove(db: Db, now: int, nextBet: nat, limits: Limits, t: Tx, a: Answer)
    requires CommitOk(db, now, nextBet, limits, t) && AnswerOk(Apply(db, t.w), limits, t.program, a)
    ensures MoveOk(db, now, nextBet, limits, t.program, Commit(t, a))
  {
    hide CommitOk, Apply, PlaceAnswer, CashAnswer, ConcludeAnswer;
  }

  /** What every statement may assume, apart from what its own stage says. */
  ghost predicate Common(s: System, t: Tx) {
    CommittedOk(s) && LocksKnown(s.db, s.nextBet, LockGranted(s, t)) &&
    RowsLocked(s.db, t) && AccountsKnown(s.db, t) && MoneyTracked(s.db, t)
  }

  /** Every bet written was paid, if cashed out, at a price shown by now, and is within the stake limit. */
  ghost predicate BetsWrittenFit(s: System, w: Writes) {
    forall b | b in w.bets ::
      b < s.nextBet && w.bets[b].stake <= s.limits.maxStake &&
      (w.bets[b].round in s.db.rounds + w.rounds ==>
         PaidInTime(w.bets[b], (s.db.rounds + w.rounds)[w.bets[b].round], s.now))
  }

  /** A drained transaction whose writes are one consistent operation on locked rows is ready to commit. */
  lemma ReadyToCommit(s: System, t: Tx)
    requires CommittedOk(s) && MoneyTracked(s.db, t) && AccountsKnown(s.db, t)
    requires t.queue == [] && Consistent(Apply(s.db, t.w)) && EffectsLocked(s.db, t)
    requires forall u | u in t.w.users :: Wallet(u) in t.balances
    requires forall r | r in t.w.rounds :: TimesFit(t.w.rounds[r], s.now)
    requires BetsWrittenFit(s, t.w)
    ensures CommitOk(s.db, s.now, s.nextBet, s.limits, t)
  {
    hide EffectsLocked, Apply, Overwrite, MoneyTracked, AccountsKnown, ClockOk, PaidInTime, Consistent;
    DrainedOverwriteIsApply(s.db, t);
    RoundsWrittenKeepTerms(s.db, t);
    ClockOkAfter(s, t.w);
  }

  lemma RoundsWrittenKeepTerms(db: Db, t: Tx)
    requires EffectsLocked(db, t)
    ensures forall r | r in t.w.rounds && r in db.rounds :: SameTerms(db.rounds[r], t.w.rounds[r])
  {
    hide SameTerms, BetChangeFits;
  }

  lemma ClockOkAfter(s: System, w: Writes)
    requires Consistent(s.db) && ClockOk(s.db, s.now) && BetsWrittenFit(s, w)
    requires forall r | r in w.rounds :: TimesFit(w.rounds[r], s.now)
    requires forall r | r in w.rounds && r in s.db.rounds :: SameTerms(s.db.rounds[r], w.rounds[r])
    ensures ClockOk(Apply(s.db, w), s.now)
  {
    hide PaidInTime, Consistent, SameTerms, TimesFit;
    var rounds, bets := s.db.rounds + w.rounds, s.db.bets + w.bets;
    forall b | b in bets && bets[b].round in rounds ensures PaidInTime(bets[b], rounds[bets[b].round], s.now) {
      if b !in w.bets {
        CommittedBetPaid(s, b);
        SameTermsAsBefore(s.db.rounds[bets[b].round]);
      }
    }
  }

  lemma SameTermsAsBefore(r: Round)
    ensures SameTerms(r, r)
  {
  }

  /** A cashed-out bet's round has started, so its price stays shown whatever becomes of the round. */
  lemma CommittedBetPaid(s: System, b: nat)
    requires Consistent(s.db) && ClockOk(s.db, s.now) && b in s.db.bets
    ensures s.db.bets[b].round in s.db.rounds
    ensures forall r: Round | SameTerms(s.db.rounds[s.db.bets[b].round], r) :: PaidInTime(s.db.bets[b], r, s.now)
  {
    hide JournalMatchesRows, BalancesMatchJournal, RoundsFit, NoWalletOverdrawn, AllBalanced, ShownBy, OnTheCurve;
    assert BetFits(s.db.bets[b], s.db.users, s.db.rounds);
    assert PaidInTime(s.db.bets[b], s.db.rounds[s.db.bets[b].round], s.now);
  }

  lemma CommonCommitted(s: System, t: Tx)
    requires Common(s, t)
    ensures CommittedOk(s) && Consistent(s.db)
    ensures RowsLocked(s.db, t) && AccountsKnown(s.db, t) && MoneyTracked(s.db, t)
    ensures forall u | u in t.w.users :: Wallet(u) in t.balances
    ensures forall b: nat | BetLock(b) in t.locks :: b < s.nextBet
    ensures ClockOk(s.db, s.now)
  {
    hide Consistent, ClockOk, MoneyTracked, AccountsKnown;
    forall b: nat | BetLock(b) in t.locks ensures b < s.nextBet {
      assert BetLock(b) in LockGranted(s, t).locks;
    }
  }

  /** The transaction once it has the lock it waited for. */
  function LockGranted(s: System, t: Tx): Tx {
    WithLock(t, Wants(s.db, t))
  }

  lemma CommonKnows(s: System, t: Tx)
    requires Common(s, t)
    ensures BalancesMatchJournal(s.db) && (t.queue == [] && LockGranted(s, t) == t ==> LocksKnown(s.db, s.nextBet, t))
  {
    hide JournalMatchesRows, BalancesMatchJournal, BetsFit, RoundsFit, NoWalletOverdrawn, AllBalanced, ClockOk,
         MoneyTracked, AccountsKnown, RowsLocked, LocksKnown;
  }

  lemma SameMoney(db: Db, t: Tx, t1: Tx)
    requires RowsLocked(db, t) && AccountsKnown(db, t) && MoneyTracked(db, t)
    requires t1 == t.(locks := t1.locks) && t.locks <= t1.locks
    ensures RowsLocked(db, t1) && AccountsKnown(db, t1) && MoneyTracked(db, t1)
  {
    forall a ensures Buffered(db, t1, a) + Net(t1.queue, a) == EntrySum(t1.w.journal, a) {
      assert Buffered(db, t, a) + Net(t.queue, a) == EntrySum(t.w.journal, a);
    }
  }

  lemma PostingGranted(s: System, t: Tx)
    requires Common(s, t) && t.queue != []
    ensures LockGranted(s, t) == t.(locks := t.locks + {BalanceLock(t.queue[0].account)})
    ensures LocksKnown(s.db, s.nextBet, PostedTx(s.db, LockGranted(s, t)))
  {
    hide CommittedOk, MoneyTracked, AccountsKnown, RowsLocked;
  }

  // ---------------------------------------------------------------------------
  // Advancing a round
  // ---------------------------------------------------------------------------

  lemma AdvancedRowFits(r: Round, at: int, now: int)
    requires RoundChecks(r) && TimesFit(r, now) && Live(r.status) && (r.status == Open || at <= now)
    ensures SameTerms(r, Advanced(r, at)) && TimesFit(Advanced(r, at), now)
    ensures at == now ==> RoundChecks(Advanced(r, at)) && IsAdvance(r, Advanced(r, at), now)
  {
  }

  lemma AdvanceMove(s: System, t: Tx)
    requires Common(s, t) && t.program.Advance? && !t.stage.Done? && AdvanceOk(s.db, s.now, t)
    ensures MoveOk(s.db, s.now, s.nextBet, s.limits, t.program, ActAdvance(s.db, s.now, LockGranted(s, t)))
  {
    hide MoveOk, Common, AdvanceDraining;
    if t.stage.Start? {
      AdvanceStarts(s, t);
    } else {
      AdvanceDrained(s, t);
      AdvanceCommit(s, t);
    }
  }

  lemma AdvanceDrained(s: System, t: Tx)
    requires t.program.Advance? && AdvanceDraining(s.db, s.now, t)
    ensures t.queue == []
  {
  }

  lemma AdvanceStarts(s: System, t: Tx)
    requires Common(s, t) && t.program.Advance? && t.stage.Start? && Idle(t)
    ensures MoveOk(s.db, s.now, s.nextBet, s.limits, t.program, ActAdvance(s.db, s.now, LockGranted(s, t)))
  {
    hide Common, CommittedOk, MoveOk, RoundChecks, TimesFit, Advanced, IsAdvance, SameTerms;
    var db, r := s.db, t.program.round;
    if r in db.rounds && db.rounds[r].status == t.program.from && Live(t.program.from) {
      CommonCommitted(s, t);
      CommittedRoundFits(s, r);
      AdvancedRowFits(db.rounds[r], s.now, s.now);
      AdvanceGoes(s, t, Advanced(db.rounds[r], s.now));
    } else {
      AdvanceStops(s, t);
    }
  }

  lemma AdvanceStops(s: System, t: Tx)
    requires t.program.Advance?
    ensures MoveOk(s.db, s.now, s.nextBet, s.limits, t.program, Stop(NoOp))
  {
  }

  lemma AdvanceGoes(s: System, t: Tx, row: Round)
    requires t.program.Advance? && t.stage.Start? && Idle(t) && t.program.round in s.db.rounds
    requires s.db.rounds[t.program.round].status == t.program.from && Live(t.program.from) && RoundChecks(row)
    requires row == Advanced(s.db.rounds[t.program.round], s.now) && IsAdvance(s.db.rounds[t.program.round], row, s.now)
    ensures MoveOk(s.db, s.now, s.nextBet, s.limits, t.program, ActAdvance(s.db, s.now, LockGranted(s, t)))
  {
    hide RoundChecks, Advanced, IsAdvance;
    var r := t.program.round;
    var next := Blank(t.program, Draining).(locks := {RoundLock(r)}, w := RoundWrites(r, row));
    assert map[][r := row] == map[r := row];
    assert ActAdvance(s.db, s.now, LockGranted(s, t)) == Go(next);
  }

  lemma CommittedRoundFits(s: System, r: nat)
    requires CommittedOk(s) && r in s.db.rounds
    ensures RoundChecks(s.db.rounds[r]) && TimesFit(s.db.rounds[r], s.now)
  {
  }

  lemma AdvanceCommit(s: System, t: Tx)
    requires Common(s, t) && t.program.Advance? && t.stage.Draining? && AdvanceDraining(s.db, s.now, t)
    requires t.queue == []
    ensures MoveOk(s.db, s.now, s.nextBet, s.limits, t.program, ActAdvance(s.db, s.now, LockGranted(s, t)))
  {
    hide CommitOk, MoveOk, Common, AdvanceDraining, Apply;
    AdvanceCommitOk(s, t);
    CommittedMove(s.db, s.now, s.nextBet, s.limits, t, Committed);
    assert Wants(s.db, t) == Nothing;
  }

  lemma AdvanceCommitOk(s: System, t: Tx)
    requires Common(s, t) && t.program.Advance? && t.stage.Draining? && AdvanceDraining(s.db, s.now, t)
    ensures CommitOk(s.db, s.now, s.nextBet, s.limits, t)
  {
    var r := t.program.round;
    hide Common, CommittedOk, MoneyTracked, AccountsKnown, RoundChecks, Consistent, SameTerms, TimesFit, ClockOk,
         Advanced, Apply, RowsLocked;
    CommonCommitted(s, t);
    CommittedRoundFits(s, r);
    AdvancedRowFits(s.db.rounds[r], Stamp(t.w.rounds[r]), s.now);
    AdvanceKeeps(s.db, r, Stamp(t.w.rounds[r]));
    AdvanceLocks(s, t);
    hide Stamp;
    ReadyToCommit(s, t);
  }

  lemma AdvanceLocks(s: System, t: Tx)
    requires t.program.Advance? && t.stage.Draining? && AdvanceDraining(s.db, s.now, t)
    requires SameTerms(s.db.rounds[t.program.round], t.w.rounds[t.program.round])
    ensures EffectsLocked(s.db, t) && BetsWrittenFit(s, t.w) && RowsLocked(s.db, t)
    ensures t.queue == [] && t.w.users == map[]
  {
    hide RoundChecks, SameTerms, IsAdvance;
  }

  // ---------------------------------------------------------------------------
  // Opening a round
  // ---------------------------------------------------------------------------

  lemma OpenMove(s: System, t: Tx)
    requires Common(s, t) && t.program.OpenRound? && !t.stage.Done? && OpenOk(t)
    ensures MoveOk(s.db, s.now, s.nextBet, s.limits, t.program, ActOpenRound(s.db, LockGranted(s, t)))
  {
    hide Common, MoveOk, NewRound, RoundChecks, CommitOk;
    assert LockGranted(s, t) == t;
    var m := ActOpenRound(s.db, t);
    if m.Commit? {
      OpenCommitOk(s, t);
      CommittedMove(s.db, s.now, s.nextBet, s.limits, m.last, Committed);
    } else {
      OpenStopped(s, t, m.answer);
    }
  }

  lemma OpenStopped(s: System, t: Tx, a: Answer)
    requires t.program.OpenRound?
    ensures MoveOk(s.db, s.now, s.nextBet, s.limits, t.program, Stop(a))
  {
  }

  lemma NewRoundFitsClock(nonce: int, game: Game, crashPoint: Option<nat>, pocket: Option<nat>, locksAt: int, now: int)
    ensures TimesFit(NewRound(nonce, game, crashPoint, pocket, locksAt), now)
    ensures NewRound(nonce, game, crashPoint, pocket, locksAt).status == Open
    ensures NewRound(nonce, game, crashPoint, pocket, locksAt).game == game
  {
  }

  lemma OpenCommitOk(s: System, t: Tx)
    requires Common(s, t) && t.program.OpenRound? && OpenOk(t) && ActOpenRound(s.db, t).Commit?
    ensures ActOpenRound(s.db, t).result == Committed && ActOpenRound(s.db, t).last.program == t.program
    ensures CommitOk(s.db, s.now, s.nextBet, s.limits, ActOpenRound(s.db, t).last)
  {
    hide Common, CommittedOk, Consistent, RoundChecks, NewRound, CommitOk, TimesFit, ClockOk;
    var db, p := s.db, t.program;
    var last := ActOpenRound(db, t).last;
    var row := NewRound(p.nonce, p.game, p.crashPoint, p.pocket, p.locksAt);
    CommonCommitted(s, t);
    NewRoundFitsClock(p.nonce, p.game, p.crashPoint, p.pocket, p.locksAt, s.now);
    assert last.w == RoundWrites(p.round, row);
    OpenKeeps(db, p.round, row);
    ReadyToCommit(s, last);
  }

  // ---------------------------------------------------------------------------
  // Registering
  // ---------------------------------------------------------------------------

  lemma RegisterMove(s: System, t: Tx)
    requires Common(s, t) && t.program.Register? && !t.stage.Done? && RegisterOk(s.db, t)
    ensures MoveOk(s.db, s.now, s.nextBet, s.limits, t.program, ActRegister(s.db, LockGranted(s, t)))
  {
    hide MoveOk, Common, RegisterDraining, ActRegister;
    if t.stage.Start? {
      RegisterStarts(s, t);
    } else if t.queue != [] {
      RegisterPosts(s, t);
    } else {
      RegisterCommits(s, t);
    }
  }

  lemma RegisterStarts(s: System, t: Tx)
    requires Common(s, t) && t.program.Register? && t.stage.Start? && Idle(t)
    ensures MoveOk(s.db, s.now, s.nextBet, s.limits, t.program, ActRegister(s.db, LockGranted(s, t)))
  {
    if t.program.user !in s.db.users && t.program.grant > 0 {
      RegisterEnqueues(s, t);
    } else {
      RegisterRefuses(s, t);
    }
  }

  lemma RegisterRefuses(s: System, t: Tx)
    requires t.program.Register? && t.stage.Start? && Idle(t)
    requires t.program.user in s.db.users || t.program.grant == 0
    ensures MoveOk(s.db, s.now, s.nextBet, s.limits, t.program, ActRegister(s.db, LockGranted(s, t)))
  {
    if t.program.grant == 0 {
      assert !Balanced(GrantTx(t.program.user, t.program.grant).postings);
    }
  }

  lemma RegisterEnqueues(s: System, t: Tx)
    requires Common(s, t) && t.program.Register? && t.stage.Start? && Idle(t)
    requires t.program.user !in s.db.users && t.program.grant > 0
    ensures MoveOk(s.db, s.now, s.nextBet, s.limits, t.program, ActRegister(s.db, LockGranted(s, t)))
  {
    var p := t.program;
    hide Common, CommittedOk, Consistent, MoneyTracked, AccountsKnown, RowsLocked, Balanced, Sorted;
    RegisterTracks(s, t);
    GrantIsBalanced(p.user, p.grant);
    EnqueueTracks(s.db, Registered(s, t), GrantTx(p.user, p.grant));
    SortedPair(Posting(Mint, Negate(p.grant)), Posting(Wallet(p.user), p.grant));
  }

  /** The transaction after the INSERT of the user and their balance row, before its posting. */
  function Registered(s: System, t: Tx): Tx
    requires t.program.Register?
  {
    var t1, u := LockGranted(s, t), t.program.user;
    t1.(stage := Draining, balances := t1.balances[Wallet(u) := 0], w := t1.w.(users := t1.w.users[u := t.program.grant]))
  }

  lemma RegisterTracks(s: System, t: Tx)
    requires Common(s, t) && t.program.Register? && t.stage.Start? && Idle(t) && t.program.user !in s.db.users
    ensures var t2 := Registered(s, t);
            RowsLocked(s.db, t2) && AccountsKnown(s.db, t2) && MoneyTracked(s.db, t2) &&
            LocksKnown(s.db, s.nextBet, t2) && PostingsKnown(s.db, t2, GrantTx(t.program.user, t.program.grant).postings)
  {
    assert BalancesMatchJournal(s.db);
    hide Consistent;
  }

  lemma RegisterPosts(s: System, t: Tx)
    requires Common(s, t) && t.program.Register? && t.stage.Draining? && RegisterDraining(s.db, t) && t.queue != []
    ensures MoveOk(s.db, s.now, s.nextBet, s.limits, t.program, ActRegister(s.db, LockGranted(s, t)))
  {
    hide Common, CommittedOk, Consistent, MoneyTracked, AccountsKnown, RowsLocked, RegisterDraining, LocksKnown, Wants;
    var t1 := LockGranted(s, t);
    CommonCommitted(s, t);
    PostingGranted(s, t);
    SameMoney(s.db, t, t1);
    RegisterDrains(s.db, t, t1);
    PostOneSucceeds(s.db, t1);
  }

  lemma RegisterDrains(db: Db, t: Tx, t1: Tx)
    requires t.program.Register? && t.stage.Draining? && RegisterDraining(db, t) && t.queue != []
    requires RowsLocked(db, t) && AccountsKnown(db, t)
    requires t1 == t.(locks := t.locks + {BalanceLock(t.queue[0].account)})
    ensures RegisterDraining(db, PostedTx(db, t1)) && PostedTx(db, t1).stage.Draining?
    ensures PostedTx(db, t1).program == t.program && t1.stage == t.stage && t1.program == t.program
    ensures HeadCovered(db, t1)
  {
    var next := PostedTx(db, t1);
    assert t.queue == GrantQueue(t.program) ==> next.queue == GrantQueue(t.program)[1..];
  }

  lemma RegisterCommits(s: System, t: Tx)
    requires Common(s, t) && t.program.Register? && t.stage.Draining? && RegisterDraining(s.db, t) && t.queue == []
    ensures MoveOk(s.db, s.now, s.nextBet, s.limits, t.program, ActRegister(s.db, LockGranted(s, t)))
  {
    hide CommitOk, MoveOk, Common, RegisterDraining, Apply;
    RegisterCommitOk(s, t);
    CommittedMove(s.db, s.now, s.nextBet, s.limits, t, Committed);
    assert Wants(s.db, t) == Nothing;
  }

  lemma RegisterCommitOk(s: System, t: Tx)
    requires Common(s, t) && t.program.Register? && t.stage.Draining? && RegisterDraining(s.db, t) && t.queue == []
    ensures CommitOk(s.db, s.now, s.nextBet, s.limits, t)
  {
    CommonCommitted(s, t);
    hide Common, CommittedOk, MoneyTracked, AccountsKnown, Consistent;
    RegisterKeeps(s.db, t.program.user, t.program.grant);
    ReadyToCommit(s, t);
  }
}
