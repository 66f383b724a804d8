/**
 The engine's tick: which transition is due, and that ticking concludes every
 round. A round ends SETTLED when ticks come on time, and is voided only when
 they do not.
 */
module Progress {
  import opened Prelude
  import opened Money
  import opened CrashCurve
  import opened Tables
  import opened Operations
  import opened InterleavingState

  datatype Config = Config(
    minStake: nat, maxStake: nat, windowMs: nat, intermissionMs: nat, spinMs: nat, graceMs: nat)

  datatype Task = Rest | LockRound | StartRound | ResolveRound | SettleRound | VoidRound

  /** How long a round runs: until the curve reaches its crash point, or a fixed spin. */
  function CrashAfter(r: Round, config: Config): nat {
    if r.game == CrashGame then ElapsedAt(if r.crashPoint.Some? then r.crashPoint.value else 0) else config.spinMs
  }

  /** What one tick does to the live round it finds. */
  function Due(r: Round, now: int, config: Config): Task {
    match r.status
    case Open => if now >= r.locksAt then LockRound else Rest
    case Locked => StartRound
    case Running =>
      if r.startedAt.None? then Rest
      else
        var elapsed := now - r.startedAt.value;
        if elapsed >= CrashAfter(r, config) + config.graceMs then VoidRound
        else if elapsed >= CrashAfter(r, config) then ResolveRound
        else Rest
    case Resolved => SettleRound
    case _ => Rest
  }

  /** The round row once the task is done, `at` being the database clock of the update. */
  function RowAfter(r: Round, task: Task, at: int): Round {
    match task
    case Rest => r
    case LockRound => Advanced(r, at)
    case StartRound => Advanced(r, at)
    case ResolveRound => Advanced(r, at)
    case SettleRound => Concluded(false, r, at)
    case VoidRound => Concluded(true, r, at)
  }

  function Ticked(r: Round, now: int, at: int, config: Config): Round {
    RowAfter(r, Due(r, now, config), at)
  }

  /**
   The tick in the row's own columns. An open round locks from its locking time
   on. A running one rests until its end, resolves from then on, and is voided
   once the grace period after its end has passed.
   */
  predicate TickedAs(r: Round, after: Round, now: int, at: int, config: Config) {
    match r.status
    case Open => after == if now < r.locksAt then r else r.(status := Locked)
    case Locked => after == r.(status := Running, startedAt := Some(at))
    case Running =>
      if r.startedAt.None? then after == r
      else
        var elapsed := now - r.startedAt.value;
        var end := EndOf(r, config);
        after == if elapsed < end then r
                 else if elapsed < end + config.graceMs then
                   r.(status := Resolved, resolvedAt := Some(at), seedRevealed := true)
                 else r.(status := Voided, seedRevealed := true, settledAt := Some(at))
    case Resolved => after == r.(status := Settled, settledAt := Some(at))
    case _ => after == r
  }

  /** When a running round ends: when the curve shows its crash point, or the spin is over. */
  function EndOf(r: Round, config: Config): nat {
    if r.game == RouletteGame then config.spinMs
    else if r.crashPoint.Some? then ElapsedAt(r.crashPoint.value)
    else ElapsedAt(0)
  }

  lemma TicksAsListed(r: Round, after: Round, now: int, at: int, config: Config)
    ensures after == Ticked(r, now, at, config) <==> TickedAs(r, after, now, at, config)
  {
    hide ElapsedAt;
  }

  predicate IsConcluded(r: Round) {
    r.status == Settled || r.status == Voided
  }

  /** Each tick reads the clock before it updates, and later than the tick before it did. */
  datatype Tick = Tick(now: int, at: int)

  ghost predicate Advancing(last: int, ticks: seq<Tick>)
    decreases |ticks|
  {
    ticks == [] ||
    (last < ticks[0].now <= ticks[0].at && Advancing(ticks[0].at, ticks[1..]))
  }

  function Run(r: Round, ticks: seq<Tick>, config: Config): Round
    decreases |ticks|
  {
    if ticks == [] then r else Run(Ticked(r, ticks[0].now, ticks[0].at, config), ticks[1..], config)
  }

  function Remaining(due: int, now: int): nat {
    if due <= now then 0 else due - now
  }

  /** Status rank plus the time to the next due instant: a bound on the ticks still needed. */
  function Distance(r: Round, last: int, config: Config): nat {
    match r.status
    case Open => Remaining(r.locksAt, last) + CrashAfter(r, config) + 4
    case Locked => CrashAfter(r, config) + 3
    case Running =>
      if r.startedAt.None? then 2 else Remaining(r.startedAt.value + CrashAfter(r, config), last) + 2
    case Resolved => 1
    case Settled => 0
    case Voided => 0
  }

  lemma TickComesCloser(r: Round, last: int, tick: Tick, config: Config)
    requires RoundChecks(r) && TimesFit(r, last) && !IsConcluded(r) && last < tick.now <= tick.at
    ensures Distance(Ticked(r, tick.now, tick.at, config), tick.at, config) < Distance(r, last, config)
  {
    hide ElapsedAt;
  }

  lemma TickKeepsRow(r: Round, last: int, tick: Tick, config: Config)
    requires RoundChecks(r) && TimesFit(r, last) && last < tick.now <= tick.at
    ensures RoundChecks(Ticked(r, tick.now, tick.at, config)) && TimesFit(Ticked(r, tick.now, tick.at, config), tick.at)
    ensures IsConcluded(r) ==> Ticked(r, tick.now, tick.at, config) == r
  {
    hide ElapsedAt;
  }

  /** Progress: enough ticks on an advancing clock settle or void any round, however they are spaced. */
  lemma {:induction false} EveryRoundConcludes(r: Round, last: int, ticks: seq<Tick>, config: Config)
    requires RoundChecks(r) && TimesFit(r, last) && Advancing(last, ticks)
    requires |ticks| >= Distance(r, last, config)
    ensures IsConcluded(Run(r, ticks, config))
    decreases |ticks|
  {
    hide RoundChecks, TimesFit, Ticked, Distance;
    if ticks != [] {
      TickKeepsRow(r, last, ticks[0], config);
      if !IsConcluded(r) {
        TickComesCloser(r, last, ticks[0], config);
      } else {
        ConcludedIsFar(Ticked(r, ticks[0].now, ticks[0].at, config), ticks[0].at, config);
      }
      EveryRoundConcludes(Ticked(r, ticks[0].now, ticks[0].at, config), ticks[0].at, ticks[1..], config);
    } else {
      NearIsConcluded(r, last, config);
    }
  }

  lemma NearIsConcluded(r: Round, last: int, config: Config)
    ensures Distance(r, last, config) == 0 ==> IsConcluded(r)
  {
  }

  lemma ConcludedIsFar(r: Round, last: int, config: Config)
    ensures IsConcluded(r) ==> Distance(r, last, config) == 0
  {
  }

  /** Each tick reads the clock less than the grace period after the tick before it did. */
  ghost predicate Timely(last: int, ticks: seq<Tick>, graceMs: nat)
    decreases |ticks|
  {
    ticks == [] ||
    (ticks[0].now < last + graceMs && ticks[0].now <= ticks[0].at && Timely(ticks[0].now, ticks[1..], graceMs))
  }

  /** At the last reading of the clock a running round had not passed its end. */
  predicate OnTime(r: Round, last: int, config: Config) {
    r.status != Voided &&
    (r.status == Running ==> r.startedAt.Some? && last <= r.startedAt.value + CrashAfter(r, config))
  }

  lemma TimelyTickIsOnTime(r: Round, last: int, tick: Tick, config: Config)
    requires OnTime(r, last, config) && tick.now < last + config.graceMs && tick.now <= tick.at
    ensures OnTime(Ticked(r, tick.now, tick.at, config), tick.now, config)
  {
    hide ElapsedAt;
  }

  lemma {:induction false} TimelyTicksNeverVoid(r: Round, last: int, ticks: seq<Tick>, config: Config)
    requires OnTime(r, last, config) && Timely(last, ticks, config.graceMs)
    ensures Run(r, ticks, config).status != Voided
    decreases |ticks|
  {
    hide Ticked, CrashAfter;
    if ticks != [] {
      TimelyTickIsOnTime(r, last, ticks[0], config);
      TimelyTicksNeverVoid(Ticked(r, ticks[0].now, ticks[0].at, config), ticks[0].now, ticks[1..], config);
    }
  }

  /** A round opened under an engine that ticks on time is played out: it settles, and is never voided. */
  lemma TimelyTicksSettle(r: Round, last: int, ticks: seq<Tick>, config: Config)
    requires r.status == Open && RoundChecks(r) && TimesFit(r, last)
    requires Advancing(last, ticks) && Timely(last, ticks, config.graceMs) && |ticks| >= Distance(r, last, config)
    ensures Run(r, ticks, config).status == Settled
  {
    hide RoundChecks, TimesFit, Run, Distance, Advancing, Timely;
    EveryRoundConcludes(r, last, ticks, config);
    TimelyTicksNeverVoid(r, last, ticks, config);
  }

  // ---------------------------------------------------------------------------
  // Ticks over the table of rounds
  // ---------------------------------------------------------------------------

  /** The round a tick of the game picks: the unconcluded one with the highest nonce. */
  ghost predicate Foremost(rounds: map<nat, Round>, game: Game, r: nat) {
    Unconcluded(rounds, game, r) &&
    forall q | Unconcluded(rounds, game, q) :: rounds[q].nonce <= rounds[r].nonce
  }

  ghost predicate Unconcluded(rounds: map<nat, Round>, game: Game, r: nat) {
    r in rounds && rounds[r].game == game && !IsConcluded(rounds[r])
  }

  ghost predicate Plays(rounds: map<nat, Round>, game: Game, r: nat) {
    r in rounds && rounds[r].game == game
  }

  /**
   One tick of a game that does not fail: the foremost round makes its due
   transition, and a round opens only when there is none. Rounds of the other
   game may change in any way.
   */
  ghost predicate TickStep(game: Game, rounds: map<nat, Round>, after: map<nat, Round>, tick: Tick, config: Config) {
    (forall r | Plays(rounds, game, r) ::
       Plays(after, game, r) &&
       after[r] == if Foremost(rounds, game, r) then Ticked(rounds[r], tick.now, tick.at, config) else rounds[r]) &&
    ((exists r :: Foremost(rounds, game, r)) ==> forall r | Plays(after, game, r) :: Plays(rounds, game, r))
  }

  ghost predicate TickRun(game: Game, tables: seq<map<nat, Round>>, ticks: seq<Tick>, config: Config) {
    |tables| == |ticks| + 1 &&
    forall k | 0 <= k < |ticks| :: TickStep(game, tables[k], tables[k + 1], ticks[k], config)
  }

  /** The rounds of the game satisfy their checks and their times have come. */
  ghost predicate WellKept(rounds: map<nat, Round>, game: Game, last: int) {
    forall r | Plays(rounds, game, r) :: RoundChecks(rounds[r]) && TimesFit(rounds[r], last)
  }

  /** The distances of all the game's rounds with ids below n, together. */
  ghost function Total(rounds: map<nat, Round>, game: Game, n: nat, last: int, config: Config): nat {
    if n == 0 then 0
    else
      Total(rounds, game, n - 1, last, config) +
      if Plays(rounds, game, n - 1) then Distance(rounds[n - 1], last, config) else 0
  }

  lemma WaitingComesNoFurther(r: Round, last: int, later: int, config: Config)
    requires last <= later
    ensures Distance(r, later, config) <= Distance(r, last, config)
  {
    hide ElapsedAt;
  }

  lemma {:induction false} TotalFalls(game: Game, rounds: map<nat, Round>, after: map<nat, Round>, r: nat, n: nat,
                                      last: int, tick: Tick, config: Config)
    requires WellKept(rounds, game, last) && last < tick.now <= tick.at
    requires Foremost(rounds, game, r) && TickStep(game, rounds, after, tick, config)
    ensures Total(after, game, n, tick.at, config) + (if r < n then 1 else 0) <= Total(rounds, game, n, last, config)
  {
    hide RoundChecks, TimesFit, Distance, Ticked;
    if n > 0 {
      TotalFalls(game, rounds, after, r, n - 1, last, tick, config);
      if Plays(rounds, game, n - 1) {
        WaitingComesNoFurther(rounds[n - 1], last, tick.at, config);
        if Foremost(rounds, game, n - 1) {
          TickComesCloser(rounds[n - 1], last, tick, config);
        } else {
          assert n - 1 != r;
        }
      }
    }
  }

  lemma {:induction false} NothingLeft(rounds: map<nat, Round>, game: Game, n: nat, last: int, config: Config, r: nat)
    requires Total(rounds, game, n, last, config) == 0 && Plays(rounds, game, r) && r < n
    ensures IsConcluded(rounds[r])
  {
    hide Distance;
    if r == n - 1 {
      NearIsConcluded(rounds[r], last, config);
    } else {
      NothingLeft(rounds, game, n - 1, last, config, r);
    }
  }

  /** While some round of the game is unconcluded, some round is foremost. */
  lemma {:induction false} ForemostBelow(rounds: map<nat, Round>, game: Game, q: nat, n: nat) returns (r: nat)
    requires Unconcluded(rounds, game, q)
    ensures Unconcluded(rounds, game, r) && rounds[q].nonce <= rounds[r].nonce
    ensures forall p: nat | Unconcluded(rounds, game, p) && p < n :: rounds[p].nonce <= rounds[r].nonce
  {
    hide IsConcluded;
    if n == 0 {
      r := q;
    } else {
      r := ForemostBelow(rounds, game, q, n - 1);
      if Unconcluded(rounds, game, n - 1) && rounds[n - 1].nonce > rounds[r].nonce {
        r := n - 1;
      }
    }
  }

  lemma TickKeepsTable(game: Game, rounds: map<nat, Round>, after: map<nat, Round>, last: int, tick: Tick, config: Config)
    requires WellKept(rounds, game, last) && last < tick.now <= tick.at
    requires TickStep(game, rounds, after, tick, config) && exists r :: Foremost(rounds, game, r)
    ensures WellKept(after, game, tick.at)
  {
    hide RoundChecks, TimesFit, Ticked, Foremost;
    forall r | Plays(after, game, r) ensures RoundChecks(after[r]) && TimesFit(after[r], tick.at) {
      TickKeepsRow(rounds[r], last, tick, config);
      LaterStillFits(rounds[r], last, tick.at);
    }
  }

  lemma LaterStillFits(r: Round, last: int, later: int)
    requires TimesFit(r, last) && last <= later
    ensures TimesFit(r, later)
  {
  }

  lemma {:induction false} ConcludedStay(
    game: Game, tables: seq<map<nat, Round>>, ticks: seq<Tick>, config: Config, r: nat)
    requires TickRun(game, tables, ticks, config) && Plays(tables[0], game, r) && IsConcluded(tables[0][r])
    ensures Plays(tables[|ticks|], game, r) && IsConcluded(tables[|ticks|][r])
    decreases |ticks|
  {
    hide Ticked, IsConcluded;
    if ticks != [] {
      assert TickStep(game, tables[0], tables[1], ticks[0], config);
      assert !Foremost(tables[0], game, r);
      ConcludedStay(game, tables[1..], ticks[1..], config, r);
    }
  }

  /**
   Progress over the whole table: enough ticks of a game conclude every round
   of it that existed at the start, newest first, whatever the other game does
   and however many rounds wait resolved beside a live one.
   */
  lemma {:induction false} EveryRoundOfTheTableConcludes(
    game: Game, tables: seq<map<nat, Round>>, ticks: seq<Tick>, last: int, n: nat, config: Config, r: nat)
    requires TickRun(game, tables, ticks, config) && Advancing(last, ticks) && WellKept(tables[0], game, last)
    requires forall q: nat | Plays(tables[0], game, q) :: q < n
    requires |ticks| >= Total(tables[0], game, n, last, config)
    requires Plays(tables[0], game, r)
    ensures Plays(tables[|ticks|], game, r) && IsConcluded(tables[|ticks|][r])
    decreases |ticks|
  {
    hide WellKept, Total, TickStep, IsConcluded, Foremost;
    if IsConcluded(tables[0][r]) {
      ConcludedStay(game, tables, ticks, config, r);
    } else if ticks == [] {
      NothingLeft(tables[0], game, n, last, config, r);
    } else {
      var front := ForemostBelow(tables[0], game, r, n);
      assert Foremost(tables[0], game, front) by { FrontIsForemost(tables[0], game, front, n); }
      assert TickStep(game, tables[0], tables[1], ticks[0], config);
      TotalFalls(game, tables[0], tables[1], front, n, last, ticks[0], config);
      TickKeepsTable(game, tables[0], tables[1], last, ticks[0], config);
      NothingNew(game, tables[0], tables[1], ticks[0], config);
      assert Plays(tables[0], game, front) && front < n;
      assert tables[1..][0] == tables[1] && |ticks[1..]| == |ticks| - 1;
      EveryRoundOfTheTableConcludes(game, tables[1..], ticks[1..], ticks[0].at, n, config, r);
    }
  }

  lemma FrontIsForemost(rounds: map<nat, Round>, game: Game, r: nat, n: nat)
    requires Unconcluded(rounds, game, r) && forall q: nat | Plays(rounds, game, q) :: q < n
    requires forall p: nat | Unconcluded(rounds, game, p) && p < n :: rounds[p].nonce <= rounds[r].nonce
    ensures Foremost(rounds, game, r)
  {
    hide IsConcluded;
    forall q | Unconcluded(rounds, game, q) ensures rounds[q].nonce <= rounds[r].nonce {
      assert Plays(rounds, game, q);
    }
  }

  lemma NothingNew(game: Game, rounds: map<nat, Round>, after: map<nat, Round>, tick: Tick, config: Config)
    requires TickStep(game, rounds, after, tick, config) && exists r :: Foremost(rounds, game, r)
    ensures forall r :: Plays(rounds, game, r) <==> Plays(after, game, r)
  {
    hide Foremost, Ticked;
  }

  /** A tick leaves the foremost round in front until it is concluded. */
  lemma FrontStaysInFront(game: Game, rounds: map<nat, Round>, after: map<nat, Round>, tick: Tick, config: Config, r: nat)
    requires TickStep(game, rounds, after, tick, config) && Foremost(rounds, game, r)
    ensures Plays(after, game, r) && after[r] == Ticked(rounds[r], tick.now, tick.at, config)
    ensures IsConcluded(after[r]) || Foremost(after, game, r)
  {
    NothingNew(game, rounds, after, tick, config);
    forall q | Plays(rounds, game, q)
      ensures after[q].nonce == rounds[q].nonce && (IsConcluded(rounds[q]) ==> IsConcluded(after[q]))
    {
      TickKeepsNonce(rounds[q], tick, config);
    }
  }

  lemma TickKeepsNonce(r: Round, tick: Tick, config: Config)
    ensures Ticked(r, tick.now, tick.at, config).nonce == r.nonce
  {
    hide CrashAfter;
  }

  /** So over a run of ticks the foremost round's row goes through exactly the ticks. */
  lemma {:induction false} FrontRowRuns(
    game: Game, tables: seq<map<nat, Round>>, ticks: seq<Tick>, config: Config, r: nat)
    requires TickRun(game, tables, ticks, config) && Plays(tables[0], game, r)
    requires IsConcluded(tables[0][r]) || Foremost(tables[0], game, r)
    ensures Plays(tables[|ticks|], game, r) && tables[|ticks|][r] == Run(tables[0][r], ticks, config)
    decreases |ticks|
  {
    hide Foremost, IsConcluded, Ticked;
    if ticks != [] {
      assert TickStep(game, tables[0], tables[1], ticks[0], config);
      if IsConcluded(tables[0][r]) {
        ConcludedIsAtRest(game, tables[0], tables[1], ticks[0], config, r);
      } else {
        FrontStaysInFront(game, tables[0], tables[1], ticks[0], config, r);
      }
      FrontRowRuns(game, tables[1..], ticks[1..], config, r);
    }
  }

  lemma ConcludedIsAtRest(
    game: Game, rounds: map<nat, Round>, after: map<nat, Round>, tick: Tick, config: Config, r: nat)
    requires TickStep(game, rounds, after, tick, config) && Plays(rounds, game, r) && IsConcluded(rounds[r])
    ensures Plays(after, game, r) && after[r] == rounds[r] && after[r] == Ticked(rounds[r], tick.now, tick.at, config)
  {
    hide CrashAfter;
  }

  /** A round just opened, under ticks that come on time, is settled and not voided, on the table as on its row. */
  lemma TimelyTicksSettleTheNewestRound(
    game: Game, tables: seq<map<nat, Round>>, ticks: seq<Tick>, last: int, config: Config, r: nat)
    requires TickRun(game, tables, ticks, config) && Foremost(tables[0], game, r) && tables[0][r].status == Open
    requires RoundChecks(tables[0][r]) && TimesFit(tables[0][r], last)
    requires Advancing(last, ticks) && Timely(last, ticks, config.graceMs)
    requires |ticks| >= Distance(tables[0][r], last, config)
    ensures Plays(tables[|ticks|], game, r) && tables[|ticks|][r].status == Settled
  {
    hide RoundChecks, TimesFit, Advancing, Timely, Distance, Run, TickStep;
    FrontRowRuns(game, tables, ticks, config, r);
    TimelyTicksSettle(tables[0][r], last, ticks, config);
  }

  /**
   The engine and cash-outs read one clock the same way: on a running crash
   round a tick rests exactly while the curve is below the crash point, so it
   never resolves at an instant at which a cash-out would still be priced.
   */
  lemma TickRestsIffCashOutIsOpen(r: Round, now: int, config: Config)
    requires r.status == Running && r.game == CrashGame && r.startedAt.Some? && r.crashPoint.Some?
    requires BASIS_POINTS_ONE <= r.crashPoint.value <= MaxMultiplierBp() && r.startedAt.value <= now
    ensures Due(r, now, config) == Rest <==> MultiplierAtElapsed(now - r.startedAt.value) < r.crashPoint.value
  {
    hide MultiplierAtElapsed, ElapsedAt;
    WindowMatchesResolver(r.crashPoint.value, now - r.startedAt.value);
  }
}
