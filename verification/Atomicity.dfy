/**
 The concurrent system refines a sequential one: its committed tables go
 through whole operations only, each legal at the moment it commits.
 */
module Atomicity {
  import opened Prelude
  import opened Money
  import opened Ledger
  import opened Tables
  import opened Operations
  import opened Interleaving
  import opened InterleavingState
  import opened InterleavingMoves
  import opened InterleavingPlace
  import opened InterleavingPayouts
  import opened InterleavingConclude
  import opened InterleavingSafety

  datatype Operation =
    | Grant(user: nat, amount: nat)
    | Place(id: nat, row: Bet)
    | Pay(id: nat, at: int)
    | Close(voiding: bool, round: nat, ids: seq<nat>, at: int)
    | Move(round: nat, at: int)
    | Create(round: nat, inserted: Round)

  /** What an operation demands of the tables. */
  ghost predicate Legal(db: Db, op: Operation) {
    match op
    case Grant(u, amount) => u !in db.users && amount > 0
    case Place(id, row) => MayPlace(db, id, row)
    case Pay(id, at) => MayCashOut(db, id, at)
    case Close(voiding, r, ids, _) =>
      Decidable(voiding, db, r, ids) && ActiveBetsOf(db, r, ids) && MayConclude(voiding, db.rounds[r])
    case Move(r, at) => r in db.rounds && Live(db.rounds[r].status) && RoundChecks(Advanced(db.rounds[r], at))
    case Create(r, row) =>
      r !in db.rounds && row.status == Open && RoundChecks(row) &&
      forall q | q in db.rounds && db.rounds[q].game == row.game :: !Live(db.rounds[q].status)
  }

  ghost function Effect(db: Db, op: Operation): Db
    requires Legal(db, op)
  {
    Apply(db, match op
              case Grant(u, amount) => RegisterWrites(u, amount)
              case Place(id, row) => PlaceWrites(id, row)
              case Pay(id, at) => BatchWrites(map[id := PaidRow(db, id, at)], [id], map[])
              case Close(voiding, r, ids, at) => ConcludeWrites(voiding, db, r, ids, at)
              case Move(r, at) => RoundWrites(r, Advanced(db.rounds[r], at))
              case Create(r, row) => RoundWrites(r, row))
  }

  ghost predicate IsHistory(db: Db, ops: seq<Operation>)
    decreases |ops|
  {
    ops == [] || (Legal(db, ops[0]) && IsHistory(Effect(db, ops[0]), ops[1..]))
  }

  ghost function Replayed(db: Db, ops: seq<Operation>): Db
    requires IsHistory(db, ops)
    decreases |ops|
  {
    if ops == [] then db else Replayed(Effect(db, ops[0]), ops[1..])
  }

  lemma EffectKeepsConsistent(db: Db, op: Operation)
    requires Consistent(db) && Legal(db, op)
    ensures Consistent(Effect(db, op))
  {
    hide Consistent, MayPlace, MayCashOut, Apply, RoundChecks, Advanced, Decidable, ActiveBetsOf, MayConclude,
         BatchWrites, PlaceWrites, RegisterWrites, RoundWrites, CashOutRow, PriceAt;
    match op
    case Grant(u, amount) => RegisterKeeps(db, u, amount);
    case Place(id, row) => PlaceKeeps(db, id, row);
    case Pay(id, at) => CashOutKeeps(db, id, at);
    case Close(voiding, r, ids, at) => CloseKeeps(db, voiding, r, ids, at);
    case Move(r, at) => AdvanceKeeps(db, r, at);
    case Create(r, row) => OpenKeeps(db, r, row);
  }

  lemma CloseKeeps(db: Db, voiding: bool, r: nat, ids: seq<nat>, at: int)
    requires Consistent(db) && Legal(db, Close(voiding, r, ids, at))
    ensures Consistent(Effect(db, Close(voiding, r, ids, at)))
  {
    hide Consistent, ActiveBetsOf, MayConclude, Decidable, Apply, BatchWrites, DecidedRows, Concluded;
    DecidableIsDefined(voiding, db, r, ids);
    ConcludeKeeps(voiding, db, r, ids, at);
  }

  // ---------------------------------------------------------------------------
  // Every commit is one legal operation
  // ---------------------------------------------------------------------------

  ghost predicate Does(db: Db, after: Db, op: Operation) {
    Legal(db, op) && after == Effect(db, op)
  }

  /** The operation is the one the request asked for, at an instant the clock has reached. */
  predicate Serves(db: Db, now: int, p: Program, op: Operation) {
    match p
    case Register(u, amount) => op == Grant(u, amount)
    case PlaceBet(_, _, _, _, _) => op.Place? && HasPlacement(op.row, p)
    case CashOut(u, b) => op.Pay? && op.id == b && b in db.bets && db.bets[b].user == u && op.at <= now
    case Conclude(voiding, r) => op.Close? && op.voiding == voiding && op.round == r && op.at == now
    case Advance(r, from) =>
      op.Move? && op.round == r && r in db.rounds && db.rounds[r].status == from && (from == Open || op.at <= now)
    case OpenRound(r, nonce, game, crashPoint, pocket, locksAt) =>
      op == Create(r, Round(nonce, game, Open, crashPoint, pocket, locksAt, None, None, None, false))
  }

  lemma PlaceCommitsOne(s: System, t: Tx) returns (op: Operation)
    requires t.program.PlaceBet? && PlaceOk(s.db, s.limits, t) && t.queue == []
    requires ActPlaceBet(s.db, s.limits, s.nextBet, t).Commit?
    ensures Does(s.db, Apply(s.db, ActPlaceBet(s.db, s.limits, s.nextBet, t).last.w), op)
    ensures Serves(s.db, s.now, t.program, op)
  {
    hide MayPlace, Apply, PriceSelection;
    op := Place(t.ids[0], t.w.bets[t.ids[0]]);
  }

  lemma CashCommitsOne(s: System, t: Tx) returns (op: Operation)
    requires t.program.CashOut? && CashOk(s.db, s.now, s.limits, t) && t.queue == []
    requires ActCashOut(s.db, s.now, t).Commit?
    ensures Does(s.db, Apply(s.db, ActCashOut(s.db, s.now, t).last.w), op)
    ensures Serves(s.db, s.now, t.program, op)
  {
    hide MayCashOut, Apply, BatchWrites, CashOutRow, PriceAt, PaysOnly, PayoutQueue;
    op := Pay(t.program.bet, t.stage.at);
  }

  lemma ConcludeCommitsOne(s: System, t: Tx, order: seq<nat>) returns (op: Operation)
    requires Common(s, t) && t.program.Conclude? && ConcludeOk(s.db, s.limits, t) && t.queue == []
    requires ActConclude(s.db, s.now, t, order).Commit?
    ensures Does(s.db, Apply(s.db, ActConclude(s.db, s.now, t, order).last.w), op)
    ensures Serves(s.db, s.now, t.program, op)
  {
    hide Apply, ConcludeWrites, Decidable, ActiveBetsOf, MayConclude, RoundChecks, Concluded, ConcludeSettling,
         ConcludeLocking, Common, Decide, MayStart, TimesFit, Consistent, CommittedOk, ActConclude;
    var voiding, r := t.program.voiding, t.program.round;
    ConcludeCommitShape(s, t, order);
    CommonCommitted(s, t);
    CommittedRoundFits(s, r);
    ConcludedRowFits(voiding, s.db.rounds[r], s.now);
    SettledWrites(s, t);
    op := Close(voiding, r, t.ids, s.now);
  }

  lemma ConcludeCommitShape(s: System, t: Tx, order: seq<nat>)
    requires t.program.Conclude? && t.queue == [] && ActConclude(s.db, s.now, t, order).Commit?
    ensures t.stage == Settling([]) && t.program.round in s.db.rounds
    ensures RoundChecks(Concluded(t.program.voiding, s.db.rounds[t.program.round], s.now))
    ensures ActConclude(s.db, s.now, t, order).last == RoundWritten(s, t)
  {
    hide RoundChecks, Concluded, Decide, BetChecks, Balanced;
  }

  lemma AdvanceCommitsOne(s: System, t: Tx) returns (op: Operation)
    requires t.program.Advance? && AdvanceOk(s.db, s.now, t) && ActAdvance(s.db, s.now, t).Commit?
    ensures Does(s.db, Apply(s.db, ActAdvance(s.db, s.now, t).last.w), op)
    ensures Serves(s.db, s.now, t.program, op)
  {
    hide Apply, Advanced, RoundChecks, Stamp;
    op := Move(t.program.round, Stamp(t.w.rounds[t.program.round]));
  }

  lemma RegisterCommitsOne(s: System, t: Tx) returns (op: Operation)
    requires t.program.Register? && RegisterOk(s.db, t) && t.queue == [] && ActRegister(s.db, t).Commit?
    ensures Does(s.db, Apply(s.db, ActRegister(s.db, t).last.w), op)
    ensures Serves(s.db, s.now, t.program, op)
  {
    hide Apply;
    op := Grant(t.program.user, t.program.grant);
  }

  lemma OpenCommitsOne(s: System, t: Tx) returns (op: Operation)
    requires t.program.OpenRound? && OpenOk(t) && ActOpenRound(s.db, t).Commit?
    ensures Does(s.db, Apply(s.db, ActOpenRound(s.db, t).last.w), op)
    ensures Serves(s.db, s.now, t.program, op)
  {
    hide Apply;
    var p := t.program;
    op := Create(p.round, NewRound(p.nonce, p.game, p.crashPoint, p.pocket, p.locksAt));
  }

  /** A transaction that commits has no lock left to wait for. */
  lemma CommitsUnlocked(s: System, t: Tx, order: seq<nat>)
    requires StageOk(s.db, s.now, s.limits, t) && !t.stage.Done? && Act(s, LockGranted(s, t), order).Commit?
    ensures LockGranted(s, t).program == t.program
    ensures t.program.OpenRound? || (t.queue == [] && LockGranted(s, t) == t)
  {
    hide PriceSelection, BetChecks, RoundChecks, Decide, MayPlace, CashDraining, ConcludeSettling, ConcludeLocking,
         PlaceDraining, OpenFor, Funded, FindKey;
  }

  lemma CommitIsOneOperation(s: System, t: Tx, order: seq<nat>) returns (op: Operation)
    requires Common(s, t) && StageOk(s.db, s.now, s.limits, t) && !t.stage.Done?
    requires Act(s, LockGranted(s, t), order).Commit?
    ensures Does(s.db, Apply(s.db, Act(s, LockGranted(s, t), order).last.w), op)
    ensures Serves(s.db, s.now, t.program, op)
  {
    hide Common, PlaceOk, CashOk, ConcludeOk, RegisterOk, AdvanceOk, ActPlaceBet, ActCashOut, ActConclude,
         ActAdvance, ActRegister, ActOpenRound, Does, Apply, LockGranted;
    CommitsUnlocked(s, t, order);
    match t.program
    case PlaceBet(_, _, _, _, _) => op := PlaceCommitsOne(s, t);
    case CashOut(_, _) => op := CashCommitsOne(s, t);
    case Conclude(_, _) => op := ConcludeCommitsOne(s, t, order);
    case Register(_, _) => op := RegisterCommitsOne(s, t);
    case Advance(_, _) => op := AdvanceCommitsOne(s, t);
    case OpenRound(_, _, _, _, _, _) => op := OpenStarts(s, t);
  }

  lemma OpenStarts(s: System, t: Tx) returns (op: Operation)
    requires t.program.OpenRound? && OpenOk(t) && ActOpenRound(s.db, LockGranted(s, t)).Commit?
    ensures Does(s.db, Apply(s.db, ActOpenRound(s.db, LockGranted(s, t)).last.w), op)
    ensures Serves(s.db, s.now, t.program, op)
  {
    hide Apply, Does, ActOpenRound;
    assert LockGranted(s, t) == t;
    op := OpenCommitsOne(s, t);
  }

  lemma CommittingStep(s: System, i: nat, order: seq<nat>) returns (op: Operation)
    requires Safe(s) && Possible(s, Run(i, order)) && MoveOf(s, i, order).Commit?
    ensures Legal(s.db, op) && Overwrite(s.db, MoveOf(s, i, order).last) == Effect(s.db, op)
    ensures Serves(s.db, s.now, s.txs[i].program, op)
  {
    hide CommittedOk, Compatible, StageOk, TxOk, Common, Act, ActiveBetsOf, Waiting, Legal, Effect, Apply, Overwrite,
         CommitOk, Serves;
    var t := s.txs[i];
    TxIsCommon(s, t);
    RunnableFits(s, i, order);
    CommittedIsApplied(s.db, s.now, NextBetAfter(s, t), s.limits, MoveOf(s, i, order).last);
    op := CommitIsOneOperation(s, t, order);
  }

  // ---------------------------------------------------------------------------
  // Requests and their answers
  // ---------------------------------------------------------------------------

  /** A request keeps what it asks for, and its answer once it has one. */
  ghost predicate RequestsKept(txs: seq<Tx>, later: seq<Tx>) {
    |txs| <= |later| &&
    forall i | 0 <= i < |txs| ::
      later[i].program == txs[i].program && (txs[i].stage.Done? ==> later[i].stage == txs[i].stage)
  }

  lemma StepKeepsRequests(s: System, e: Event)
    requires Safe(s) && Possible(s, e)
    ensures RequestsKept(s.txs, Step(s, e).txs) && s.now <= Step(s, e).now
  {
    hide Safe, MoveOf, ActiveBetsOf, Waiting, Overwrite;
    if e.Run? && MoveOf(s, e.tx, e.order).Go? { NextIsTheSameRequest(s, e.tx, e.order); }
  }

  lemma NextIsTheSameRequest(s: System, i: nat, order: seq<nat>)
    requires Safe(s) && Possible(s, Run(i, order)) && MoveOf(s, i, order).Go?
    ensures MoveOf(s, i, order).next.program == s.txs[i].program
  {
    hide Safe, Possible, MoveOf, TxOk;
    RunnableFits(s, i, order);
  }

  lemma {:induction false} RunsKeepRequests(s: System, events: seq<Event>)
    requires Safe(s) && IsRun(s, events)
    ensures RequestsKept(s.txs, After(s, events).txs) && s.now <= After(s, events).now
    decreases |events|
  {
    hide Safe, Possible, Step;
    if events != [] {
      StepKeepsSafe(s, events[0]);
      StepKeepsRequests(s, events[0]);
      RunsKeepRequests(Step(s, events[0]), events[1..]);
    }
  }

  /** The answer of a request that has finished in one state and not in the other. */
  ghost predicate FinishedSince(s: System, end: System, i: nat) {
    i < |end.txs| && end.txs[i].stage.Done? && (i < |s.txs| ==> !s.txs[i].stage.Done?)
  }

  predicate Succeeded(t: Tx) {
    t.stage.Done? && (t.stage.answer.Committed? || t.stage.answer.Answered?)
  }

  lemma OnlyCommitsAnswerCommitted(s: System, t: Tx, order: seq<nat>)
    ensures Act(s, t, order).Stop? ==> Act(s, t, order).answer != Committed
    ensures Act(s, t, order).Commit? ==> Act(s, t, order).result.Committed? || Act(s, t, order).result.Answered?
  {
    hide FindKey, PriceSelection, BetChecks, RoundChecks, Balanced, Sorted, Decide, DecisionTx, PriceAt, NewRound,
         Advanced, Concluded;
  }

  // ---------------------------------------------------------------------------
  // Refinement
  // ---------------------------------------------------------------------------

  /** One operation, the transaction that committed it, and the database time at which it did. */
  datatype Entry = Entry(op: Operation, tx: nat, at: int)

  function OperationsOf(log: seq<Entry>): seq<Operation> {
    seq(|log|, k requires 0 <= k < |log| => log[k].op)
  }

  /** Each operation is legal where it happens and is what its request asked for, at times that follow each other. */
  ghost predicate ServesAll(db: Db, from: int, until: int, txs: seq<Tx>, log: seq<Entry>)
    decreases |log|
  {
    if log == [] then from <= until
    else
      var e := log[0];
      from <= e.at && e.tx < |txs| && Legal(db, e.op) && Serves(db, e.at, txs[e.tx].program, e.op) &&
      ServesAll(Effect(db, e.op), e.at, until, txs, log[1..])
  }

  /** Each operation has a request of its own that succeeded, and each request answered COMMITTED has its operation. */
  ghost predicate EachOnce(s: System, end: System, log: seq<Entry>) {
    (forall k | 0 <= k < |log| :: FinishedSince(s, end, log[k].tx) && Succeeded(end.txs[log[k].tx])) &&
    (forall k, m | 0 <= k < m < |log| :: log[k].tx != log[m].tx) &&
    forall i: nat | FinishedSince(s, end, i) && end.txs[i].stage == Done(Committed) ::
      exists k :: 0 <= k < |log| && log[k].tx == i
  }

  /** The committed tables of `end` are those of `s` after the operations of the log, each the answer to one request. */
  ghost predicate Explains(s: System, end: System, log: seq<Entry>) {
    IsHistory(s.db, OperationsOf(log)) && Replayed(s.db, OperationsOf(log)) == end.db &&
    ServesAll(s.db, s.now, end.now, end.txs, log) && EachOnce(s, end, log)
  }

  lemma FirstOfLog(e: Entry, rest: seq<Entry>)
    ensures OperationsOf([e] + rest) == [e.op] + OperationsOf(rest) && ([e] + rest)[1..] == rest
  {
    assert OperationsOf([e] + rest) == [e.op] + OperationsOf(rest);
  }

  ghost predicate Commits(s: System, e: Event) {
    e.Run? && e.tx < |s.txs| && MoveOf(s, e.tx, e.order).Commit?
  }

  /** An event that commits nothing finishes at most a request that is not answered COMMITTED. */
  lemma QuietStep(s: System, e: Event)
    requires Safe(s) && Possible(s, e) && !Commits(s, e)
    ensures Step(s, e).db == s.db
    ensures forall i: nat | FinishedSince(s, Step(s, e), i) :: Step(s, e).txs[i].stage != Done(Committed)
  {
    hide Safe, MoveOf, ActiveBetsOf, Waiting;
    if e.Run? {
      assert MoveOf(s, e.tx, e.order).Stop? ==> MoveOf(s, e.tx, e.order).answer != Committed by {
        MoveAnswers(s, e.tx, e.order);
      }
      if MoveOf(s, e.tx, e.order).Go? { StaysUnfinished(s, e.tx, e.order); }
    }
  }

  lemma MoveAnswers(s: System, i: nat, order: seq<nat>)
    requires i < |s.txs|
    ensures MoveOf(s, i, order).Stop? ==> MoveOf(s, i, order).answer != Committed
    ensures MoveOf(s, i, order).Commit? ==>
              MoveOf(s, i, order).result.Committed? || MoveOf(s, i, order).result.Answered?
  {
    hide Act, Wants;
    OnlyCommitsAnswerCommitted(s, WithLock(s.txs[i], Wants(s.db, s.txs[i])), order);
  }

  lemma StaysUnfinished(s: System, i: nat, order: seq<nat>)
    requires i < |s.txs| && MoveOf(s, i, order).Go? && !s.txs[i].stage.Done?
    ensures !MoveOf(s, i, order).next.stage.Done?
  {
    hide FindKey, PriceSelection, BetChecks, RoundChecks, Balanced, Sorted, Decide, DecisionTx, PriceAt, NewRound,
         Advanced, Concluded, Wants;
  }

  lemma QuietStepFirst(s: System, e: Event, end: System, rest: seq<Entry>)
    requires Safe(s) && Possible(s, e) && !Commits(s, e)
    requires Explains(Step(s, e), end, rest) && RequestsKept(Step(s, e).txs, end.txs)
    ensures Explains(s, end, rest)
  {
    hide Safe, Possible, Step, Legal, Effect, Serves, MoveOf, OperationsOf;
    QuietStep(s, e);
    StepKeepsRequests(s, e);
  }

  lemma CommitFirst(s: System, i: nat, order: seq<nat>, end: System, rest: seq<Entry>) returns (log: seq<Entry>)
    requires Safe(s) && Possible(s, Run(i, order)) && MoveOf(s, i, order).Commit?
    requires Explains(Step(s, Run(i, order)), end, rest) && RequestsKept(Step(s, Run(i, order)).txs, end.txs)
    ensures Explains(s, end, log)
  {
    hide Safe, Possible, Legal, Effect, Serves, MoveOf, OperationsOf, EachOnce, Overwrite;
    var op := CommittingStep(s, i, order);
    var first := Entry(op, i, s.now);
    log := [first] + rest;
    FirstOfLog(first, rest);
    StepKeepsRequests(s, Run(i, order));
    CommitIsPossible(s, i, order);
    assert EachOnce(s, end, log) by { OneMoreOnce(s, i, order, end, first, rest); }
  }

  lemma CommitIsPossible(s: System, i: nat, order: seq<nat>)
    requires Possible(s, Run(i, order))
    ensures i < |s.txs| && !s.txs[i].stage.Done?
  {
    hide ActiveBetsOf, Waiting;
  }

  lemma OneMoreOnce(s: System, i: nat, order: seq<nat>, end: System, first: Entry, rest: seq<Entry>)
    requires Safe(s) && Possible(s, Run(i, order)) && MoveOf(s, i, order).Commit? && first.tx == i
    requires EachOnce(Step(s, Run(i, order)), end, rest) && RequestsKept(Step(s, Run(i, order)).txs, end.txs)
    ensures EachOnce(s, end, [first] + rest)
  {
    hide Safe, MoveOf, Overwrite, Waiting, ActiveBetsOf;
    var log, next := [first] + rest, Step(s, Run(i, order));
    MoveAnswers(s, i, order);
    assert FinishedSince(s, end, i) && Succeeded(end.txs[i]);
    assert log[0].tx == i;
    forall k | 1 <= k < |log|
      ensures FinishedSince(s, end, log[k].tx) && Succeeded(end.txs[log[k].tx]) && log[k].tx != i
    {
      assert log[k] == rest[k - 1] && FinishedSince(next, end, rest[k - 1].tx);
    }
    forall j: nat | FinishedSince(s, end, j) && end.txs[j].stage == Done(Committed)
      ensures exists k :: 0 <= k < |log| && log[k].tx == j
    {
      if j != i {
        assert FinishedSince(next, end, j);
        var k :| 0 <= k < |rest| && rest[k].tx == j;
        assert log[k + 1].tx == j;
      }
    }
  }

  /**
   Refinement: whatever the interleaving of statements, the committed tables
   are the result of some sequence of whole operations, each legal where it
   happens and each what one request asked for, at the time it committed: no
   request has two, and every one answered COMMITTED has its own. Nothing is
   half done, applied to stale rows, or applied twice, and no pay-out is
   priced at an instant that has not come.
   */
  lemma {:induction false} RunsRefineOperations(s: System, events: seq<Event>) returns (log: seq<Entry>)
    requires Safe(s) && IsRun(s, events)
    ensures Explains(s, After(s, events), log)
    decreases |events|
  {
    hide Safe, Possible, Step, Legal, Effect, Explains, MoveOf, RequestsKept;
    if events == [] {
      log := [];
      assert Explains(s, s, []) by { NothingHappened(s); }
    } else {
      var e, next, end := events[0], Step(s, events[0]), After(s, events);
      StepKeepsSafe(s, e);
      RunsKeepRequests(next, events[1..]);
      log := RunsRefineOperations(next, events[1..]);
      if Commits(s, e) {
        log := CommitFirst(s, e.tx, e.order, end, log);
      } else {
        QuietStepFirst(s, e, end, log);
      }
    }
  }

  lemma NothingHappened(s: System)
    ensures Explains(s, s, [])
  {
  }

  // ---------------------------------------------------------------------------
  // What a sequence of operations can never undo
  // ---------------------------------------------------------------------------

  /** One step along OPEN, LOCKED, RUNNING, RESOLVED, SETTLED, or from a live status into VOIDED. */
  predicate Follows(from: RoundStatus, to: RoundStatus) {
    match from
    case Open => to == Locked || to == Voided
    case Locked => to == Running || to == Voided
    case Running => to == Resolved || to == Voided
    case Resolved => to == Settled
    case Settled => false
    case Voided => false
  }

  /** Any number of such steps. */
  predicate Reaches(from: RoundStatus, to: RoundStatus) {
    from == to ||
    match from
    case Open => true
    case Locked => to != Open
    case Running => to == Resolved || to == Settled || to == Voided
    case Resolved => to == Settled
    case Settled => false
    case Voided => false
  }

  /** The outcome, the game and the nonce of a round are fixed; its status only moves forward. */
  predicate RoundLater(r: Round, q: Round) {
    q == r.(status := q.status, startedAt := q.startedAt, resolvedAt := q.resolvedAt, settledAt := q.settledAt,
            seedRevealed := q.seedRevealed) &&
    Reaches(r.status, q.status) &&
    (r.status == q.status ==> q == r) &&
    (r.startedAt.Some? && Reaches(Running, r.status) ==> q.startedAt == r.startedAt)
  }

  /** A bet keeps its placement, and once settled it never changes again. */
  predicate BetLater(b: Bet, c: Bet) {
    SamePlacement(b, c) && (b.status != Active ==> c == b) && (c.status == Active ==> c == b)
  }

  ghost predicate Later(db: Db, after: Db) {
    (forall r | r in db.rounds :: r in after.rounds && RoundLater(db.rounds[r], after.rounds[r])) &&
    (forall b | b in db.bets :: b in after.bets && BetLater(db.bets[b], after.bets[b])) &&
    (forall u | u in db.users :: u in after.users && after.users[u] == db.users[u]) &&
    db.journal <= after.journal
  }

  /** No bet joins a round that has left OPEN. */
  ghost predicate JoinsOnlyOpen(db: Db, after: Db) {
    forall b | b in after.bets && b !in db.bets && after.bets[b].round in db.rounds ::
      db.rounds[after.bets[b].round].status == Open
  }

  lemma RoundsAndBetsLater(db: Db, w: Writes)
    requires forall r | r in w.rounds && r in db.rounds :: RoundLater(db.rounds[r], w.rounds[r])
    requires forall b | b in w.bets && b in db.bets :: BetLater(db.bets[b], w.bets[b])
    requires forall u | u in w.users :: u !in db.users
    ensures Later(db, Apply(db, w))
  {
    forall r | r in db.rounds ensures RoundLater(db.rounds[r], (db.rounds + w.rounds)[r]) {
    }
  }

  lemma ConcludedIsLater(voiding: bool, r: Round, at: int)
    requires MayConclude(voiding, r)
    ensures RoundLater(r, Concluded(voiding, r, at))
    ensures Follows(r.status, Concluded(voiding, r, at).status)
  {
  }

  lemma AdvancedIsLater(r: Round, at: int)
    requires Live(r.status)
    ensures RoundLater(r, Advanced(r, at)) && Follows(r.status, Advanced(r, at).status)
  {
  }

  lemma CloseIsLater(db: Db, voiding: bool, r: nat, ids: seq<nat>, at: int)
    requires Consistent(db) && Legal(db, Close(voiding, r, ids, at))
    ensures Later(db, Effect(db, Close(voiding, r, ids, at)))
    ensures Effect(db, Close(voiding, r, ids, at)).bets.Keys == db.bets.Keys
  {
    ConsistentBets(db);
    hide Consistent, BetsFit, Later, Apply, ConcludeWrites, Decidable, ActiveBetsOf, MayConclude;
    CloseWritesAreLater(db, voiding, r, ids, at);
  }

  lemma CloseWritesAreLater(db: Db, voiding: bool, r: nat, ids: seq<nat>, at: int)
    requires BetsFit(db.users, db.bets, db.rounds) && Decidable(voiding, db, r, ids)
    requires MayConclude(voiding, db.rounds[r])
    ensures Later(db, Apply(db, ConcludeWrites(voiding, db, r, ids, at)))
    ensures Apply(db, ConcludeWrites(voiding, db, r, ids, at)).bets.Keys == db.bets.Keys
  {
    hide BetsFit, Decide, Distinct, Later, RoundLater, BetLater, Concluded, MayConclude, DecidedRows;
    ClosedBetsAreLater(db, voiding, r, ids);
    ConcludedIsLater(voiding, db.rounds[r], at);
    RoundsAndBetsLater(db, ConcludeWrites(voiding, db, r, ids, at));
  }

  lemma ClosedBetsAreLater(db: Db, voiding: bool, r: nat, ids: seq<nat>)
    requires BetsFit(db.users, db.bets, db.rounds) && Decidable(voiding, db, r, ids)
    ensures forall b | b in DecidedRows(voiding, db, r, ids) ::
              b in db.bets && BetLater(db.bets[b], DecidedRows(voiding, db, r, ids)[b])
  {
    hide BetsFit, Decide, Distinct;
    DecidedRowsFit(voiding, db, r, ids);
    forall b | b in DecidedRows(voiding, db, r, ids)
      ensures b in db.bets && BetLater(db.bets[b], DecidedRows(voiding, db, r, ids)[b])
    {
      PayableIsSettled(DecidedRows(voiding, db, r, ids)[b]);
    }
  }

  lemma OperationIsLater(db: Db, op: Operation)
    requires Consistent(db) && Legal(db, op)
    ensures Later(db, Effect(db, op)) && JoinsOnlyOpen(db, Effect(db, op))
  {
    hide Consistent, Later, RoundLater, Advanced, RoundChecks, PriceSelection;
    match op
    case Grant(u, amount) => RoundsAndBetsLater(db, RegisterWrites(u, amount));
    case Place(id, row) => RoundsAndBetsLater(db, PlaceWrites(id, row));
    case Pay(id, at) => RoundsAndBetsLater(db, BatchWrites(map[id := PaidRow(db, id, at)], [id], map[]));
    case Close(voiding, r, ids, at) => CloseIsLater(db, voiding, r, ids, at);
    case Move(r, at) =>
      AdvancedIsLater(db.rounds[r], at);
      RoundsAndBetsLater(db, RoundWrites(r, Advanced(db.rounds[r], at)));
    case Create(r, row) => RoundsAndBetsLater(db, RoundWrites(r, row));
  }

  lemma LaterIsTransitive(a: Db, b: Db, c: Db)
    requires Later(a, b) && Later(b, c)
    ensures Later(a, c)
  {
    forall r | r in a.rounds ensures r in c.rounds && RoundLater(a.rounds[r], c.rounds[r]) {
      RoundLaterIsTransitive(a.rounds[r], b.rounds[r], c.rounds[r]);
    }
  }

  lemma RoundLaterIsTransitive(a: Round, b: Round, c: Round)
    requires RoundLater(a, b) && RoundLater(b, c)
    ensures RoundLater(a, c)
  {
  }

  lemma LaterIsReflexive(db: Db)
    ensures Later(db, db)
  {
  }

  /**
   In every run: rounds only move forward, their outcomes never change,
   settled bets stay as they are, the journal is append-only.
   */
  lemma {:induction false} HistoryOnlyMovesForward(db: Db, ops: seq<Operation>)
    requires Consistent(db) && IsHistory(db, ops)
    ensures Consistent(Replayed(db, ops)) && Later(db, Replayed(db, ops)) && JoinsOnlyOpen(db, Replayed(db, ops))
    decreases |ops|
  {
    hide Consistent, Later, Legal, Effect, JoinsOnlyOpen;
    if ops == [] {
      LaterIsReflexive(db);
      assert JoinsOnlyOpen(db, db) by { NothingJoins(db); }
    } else {
      var next := Effect(db, ops[0]);
      EffectKeepsConsistent(db, ops[0]);
      OperationIsLater(db, ops[0]);
      HistoryOnlyMovesForward(next, ops[1..]);
      LaterIsTransitive(db, next, Replayed(db, ops));
      JoinsAreTransitive(db, next, Replayed(db, ops));
    }
  }

  lemma NothingJoins(db: Db)
    ensures JoinsOnlyOpen(db, db)
  {
  }

  lemma JoinsAreTransitive(a: Db, b: Db, c: Db)
    requires Later(a, b) && Later(b, c) && JoinsOnlyOpen(a, b) && JoinsOnlyOpen(b, c)
    ensures JoinsOnlyOpen(a, c)
  {
    forall x | x in c.bets && x !in a.bets && c.bets[x].round in a.rounds
      ensures a.rounds[c.bets[x].round].status == Open
    {
      var r := c.bets[x].round;
      assert RoundLater(a.rounds[r], b.rounds[r]);
      if x in b.bets { assert BetLater(b.bets[x], c.bets[x]); }
    }
  }

  /** The same over runs of interleaved statements. */
  lemma RunsOnlyMoveForward(s: System, events: seq<Event>)
    requires Safe(s) && IsRun(s, events)
    ensures Later(s.db, After(s, events).db) && JoinsOnlyOpen(s.db, After(s, events).db)
  {
    hide IsRun, After, IsHistory, Replayed, Later, JoinsOnlyOpen, Consistent, TxOk, Compatible;
    var log := RunsRefineOperations(s, events);
    HistoryOnlyMovesForward(s.db, OperationsOf(log));
  }
}
