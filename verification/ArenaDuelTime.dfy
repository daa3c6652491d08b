/**
 How long a duel can last. `lag` is how late the loop may be at any one wake-up; with lag 0
 the timers fire exactly at NextWake.
 */
module ArenaDuelTime {
  import opened Options
  import opened ArenaRules
  import opened ArenaDuel
  import opened ArenaSeatMoves
  import opened ArenaDuelRuns

  // ---------------------------------------------------------------- remaining work

  function SeatWork(s: Seat, n: nat): int {
    match s.state
    case Waiting => 2 * n + 1
    case Active => 2 * (n - s.index)
    case Reveal => 2 * (n - s.index) - 1
    case Done => 0
  }

  function Work(d: Duel): int {
    if d.phase == Finished then 0 else SeatWork(d.a, |d.questions|) + SeatWork(d.b, |d.questions|)
  }

  predicate Progresses(move: Move) { move.Resolved? || move.Dealt? || move.Ended? }

  lemma MoveWork(qs: seq<Question>, s: Seat, move: Move, now: int)
    requires 1 <= |qs| && SeatShape(s, |qs|) && CanMove(qs, s, move)
    ensures 0 <= SeatWork(ApplyMove(qs, s, move, now), |qs|) <= SeatWork(s, |qs|)
    ensures Progresses(move) ==> SeatWork(ApplyMove(qs, s, move, now), |qs|) < SeatWork(s, |qs|)
  {}

  lemma WorkNeverGrows(d: Duel, now: int, ev: Event)
    requires Valid(d)
    ensures 0 <= Work(Handle(d, now, ev)) <= Work(d) || d.phase == Finished
    ensures d.phase != Finished && (Progresses(MoveOf(d, now, ev, A)) || Progresses(MoveOf(d, now, ev, B)))
            ==> Work(Handle(d, now, ev)) < Work(d)
  {
    HandleIsMoves(d, now, ev, A);
    HandleIsMoves(d, now, ev, B);
    MoveWork(d.questions, d.a, MoveOf(d, now, ev, A), now);
    MoveWork(d.questions, d.b, MoveOf(d, now, ev, B), now);
  }

  lemma EndingIsProgress(d: Duel, now: int, drawA: Chance, drawB: Chance)
    requires Valid(d) && d.phase == Running && OnTimer(d, now, drawA, drawB).phase == Finished
    ensures Work(OnTimer(d, now, drawA, drawB)) < Work(d)
  {}

  /** An unfinished duel always has a next wake, and a timer fired then or later makes progress. */
  lemma DueTimerMakesProgress(d: Duel, now: int, drawA: Chance, drawB: Chance)
    requires Valid(d) && d.phase != Finished
    ensures NextWake(d).Some?
    ensures NextWake(d).value <= now ==> 0 <= Work(Handle(d, now, Timer(drawA, drawB))) < Work(d)
  {
    if NextWake(d).value <= now {
      var ev := Timer(drawA, drawB);
      WorkNeverGrows(d, now, ev);
      if d.phase == Running {
        if TimerSeat(d, A, now, drawA).phase == Finished {
          EndingIsProgress(d, now, drawA, drawB);
        } else {
          assert SeatDue(d.a, now) || SeatDue(d.b, now);
        }
      }
    }
  }

  // ---------------------------------------------------------------- the deadline

  function PerQuestion(lag: nat): int { PER_QUESTION + 2 * lag }

  /** The instant by which a duel of n questions is over. */
  function Limit(startAt: int, n: nat, lag: nat): int { startAt + lag + n * PerQuestion(lag) }

  /** The latest instant at which the seat can still reach its finish line. */
  function Horizon(s: Seat, n: nat, lag: nat): int
    requires SeatWake(s).Some?
  {
    SeatWake(s).value + lag + (n - s.index - 1) * PerQuestion(lag)
    + if s.state == Active then REVEAL_FOR + lag else 0
  }

  ghost predicate SeatOnTime(s: Seat, n: nat, lag: nat, limit: int) {
    SeatWake(s).Some? ==> Horizon(s, n, lag) <= limit
  }

  lemma OneQuestionLess(k: int, lag: nat)
    ensures (k - 1) * PerQuestion(lag) + PerQuestion(lag) == k * PerQuestion(lag)
  {}

  lemma MoveStaysOnTime(qs: seq<Question>, s: Seat, move: Move, now: int, lag: nat, startAt: int)
    requires 1 <= |qs| && SeatShape(s, |qs|) && CanMove(qs, s, move)
    requires SeatOnTime(s, |qs|, lag, Limit(startAt, |qs|, lag))
    requires SeatWake(s).Some? ==> now <= SeatWake(s).value + lag
    requires s.state == Waiting && move.Dealt? ==> now <= startAt + lag
    ensures SeatOnTime(ApplyMove(qs, s, move, now), |qs|, lag, Limit(startAt, |qs|, lag))
  {
    if move.Dealt? {
      BotDelayInsideWindow(move.draw.delay, Q_TIME);
      var k := if s.state == Waiting then |qs| else |qs| - s.index - 1;
      OneQuestionLess(k, lag);
    }
  }

  ghost predicate OnTime(d: Duel, lag: nat) {
    && SeatOnTime(d.a, |d.questions|, lag, Limit(d.startAt, |d.questions|, lag))
    && SeatOnTime(d.b, |d.questions|, lag, Limit(d.startAt, |d.questions|, lag))
  }

  lemma HandleStaysOnTime(d: Duel, now: int, ev: Event, lag: nat, side: Side)
    requires Valid(d) && d.phase != Finished && OnTime(d, lag)
    requires NextWake(d).Some? ==> now <= NextWake(d).value + lag
    ensures SeatOnTime(At(Handle(d, now, ev), side), |d.questions|, lag, Limit(d.startAt, |d.questions|, lag))
  {
    HandleIsMoves(d, now, ev, side);
    MoveStaysOnTime(d.questions, At(d, side), MoveOf(d, now, ev, side), now, lag, d.startAt);
  }

  lemma HandleKeepsPlan(d: Duel, now: int, ev: Event)
    requires Valid(d)
    ensures Handle(d, now, ev).questions == d.questions && Handle(d, now, ev).startAt == d.startAt
  {
    HandleIsMoves(d, now, ev, A);
  }

  lemma {:induction false} RunStaysOnTime(w: World, acts: seq<Act>, lag: nat)
    requires Starts(w) && IsRun(w, acts) && Timely(w, acts, lag)
    ensures OnTime(After(w, acts).duel, lag)
    ensures After(w, acts).duel.startAt == w.duel.startAt
    ensures After(w, acts).duel.questions == w.duel.questions
  {
    if acts != [] {
      var act := acts[|acts|-1];
      var d := After(w, acts[..|acts|-1]).duel;
      RunStaysOnTime(w, acts[..|acts|-1], lag);
      HandleStaysOnTime(d, act.at, act.event, lag, A);
      HandleStaysOnTime(d, act.at, act.event, lag, B);
      HandleKeepsPlan(d, act.at, act.event);
    }
  }

  lemma NoNegativeProduct(k: int, lag: nat)
    requires 0 <= k
    ensures 0 <= k * PerQuestion(lag)
  {}

  lemma WakeWithinLimit(d: Duel, lag: nat)
    requires Valid(d) && d.phase != Finished && OnTime(d, lag)
    ensures NextWake(d).Some? && NextWake(d).value + lag <= Limit(d.startAt, |d.questions|, lag)
  {
    NoNegativeProduct(|d.questions|, lag);
    if SeatWake(d.a).Some? { NoNegativeProduct(|d.questions| - d.a.index - 1, lag); }
    if SeatWake(d.b).Some? { NoNegativeProduct(|d.questions| - d.b.index - 1, lag); }
  }

  /**
   Bounded duel: whatever the players do, no event is handled later than
   startAt + lag + n * (question time + grace + reveal + 2 * lag), so past that instant the
   duel is over.
   */
  lemma BoundedDuel(w: World, acts: seq<Act>, lag: nat)
    requires Starts(w) && IsRun(w, acts) && Timely(w, acts, lag) && acts != []
    ensures acts[|acts|-1].at <= Limit(w.duel.startAt, |w.duel.questions|, lag)
  {
    RunStaysOnTime(w, acts[..|acts|-1], lag);
    WakeWithinLimit(After(w, acts[..|acts|-1]).duel, lag);
  }

  /** The instant w stands at is not later than its next wake plus lag. */
  ghost predicate Ahead(d: Duel, now: int, lag: nat) {
    d.phase != Finished ==> NextWake(d).Some? && now <= NextWake(d).value + lag
  }

  lemma MoveWakes(qs: seq<Question>, s: Seat, move: Move, now: int)
    requires 1 <= |qs| && SeatShape(s, |qs|) && CanMove(qs, s, move)
    ensures var r := ApplyMove(qs, s, move, now);
            SeatWake(r).Some? ==> SeatWake(r) == SeatWake(s) || now <= SeatWake(r).value
  {
    if move.Dealt? { BotDelayInsideWindow(move.draw.delay, Q_TIME); }
  }

  /** No event leaves a wake behind: a seat's wake stays as it was or lies ahead. */
  lemma HandleStaysAhead(d: Duel, now: int, ev: Event, lag: nat)
    requires Valid(d) && d.phase != Finished && Ahead(d, now, lag)
    ensures Ahead(Handle(d, now, ev), now, lag)
  {
    var r := Handle(d, now, ev);
    HandleIsMoves(d, now, ev, A);
    HandleIsMoves(d, now, ev, B);
    MoveWakes(d.questions, d.a, MoveOf(d, now, ev, A), now);
    MoveWakes(d.questions, d.b, MoveOf(d, now, ev, B), now);
    if r.phase != Finished {
      HandleKeepsPlan(d, now, ev);
      DueTimerMakesProgress(r, now, Chance(0.0, 0), Chance(0.0, 0));
      if r.phase == Running {
        if d.phase == Running { WakesAhead(d, r, now, lag); } else { FreshWakes(d, now, ev); }
      }
    }
  }

  lemma WakesAhead(d: Duel, r: Duel, now: int, lag: nat)
    requires d.phase == Running && r.phase == Running && NextWake(r).Some? && Ahead(d, now, lag)
    requires SeatWake(r.a).Some? ==> SeatWake(r.a) == SeatWake(d.a) || now <= SeatWake(r.a).value
    requires SeatWake(r.b).Some? ==> SeatWake(r.b) == SeatWake(d.b) || now <= SeatWake(r.b).value
    ensures now <= NextWake(r).value + lag
  {}

  /** The countdown's end deals both seats their first question. */
  lemma FreshWakes(d: Duel, now: int, ev: Event)
    requires Valid(d) && d.phase == Pending && Handle(d, now, ev).phase == Running
    ensures NextWake(Handle(d, now, ev)).Some? && now <= NextWake(Handle(d, now, ev)).value
  {
    BotDelayInsideWindow(ev.drawA.delay, Q_TIME);
    BotDelayInsideWindow(ev.drawB.delay, Q_TIME);
  }

  lemma {:induction false} RunStaysAhead(w: World, acts: seq<Act>, lag: nat)
    requires Starts(w) && IsRun(w, acts) && Timely(w, acts, lag)
    ensures Ahead(After(w, acts).duel, After(w, acts).now, lag)
  {
    if acts != [] {
      var u, act := After(w, acts[..|acts|-1]), acts[|acts|-1];
      RunStaysAhead(w, acts[..|acts|-1], lag);
      HandleStaysAhead(u.duel, act.at, act.event, lag);
    }
  }

  function Later(x: int, y: int): int { if x <= y then y else x }

  /** The run in which only timers fire, each at its wake (or at once, when overdue); draws(k) is drawn at tick k. */
  function TimersOnly(w: World, draws: nat -> (Chance, Chance), k: nat): (r: World)
    requires Valid(w.duel)
    ensures Valid(r.duel)
    decreases Work(w.duel)
  {
    if w.duel.phase == Finished then w
    else
      var (drawA, drawB) := draws(k);
      DueTimerMakesProgress(w.duel, 0, drawA, drawB);
      var at := Later(NextWake(w.duel).value, w.now);
      DueTimerMakesProgress(w.duel, at, drawA, drawB);
      TimersOnly(WorldStep(w, Act(at, Timer(drawA, drawB))), draws, k + 1)
  }

  lemma {:induction false} TimersFinishFrom(w: World, draws: nat -> (Chance, Chance), k: nat, lag: nat)
    requires Valid(w.duel) && Ahead(w.duel, w.now, lag)
    requires w.duel.phase != Finished ==> OnTime(w.duel, lag)
    ensures TimersOnly(w, draws, k).duel.phase == Finished
    ensures w.duel.phase != Finished ==>
              TimersOnly(w, draws, k).now <= Limit(w.duel.startAt, |w.duel.questions|, lag)
    decreases Work(w.duel)
  {
    if w.duel.phase != Finished {
      var at := Later(NextWake(w.duel).value, w.now);
      var ev := Timer(draws(k).0, draws(k).1);
      DueTimerMakesProgress(w.duel, at, draws(k).0, draws(k).1);
      WakeWithinLimit(w.duel, lag);
      HandleKeepsPlan(w.duel, at, ev);
      HandleStaysAhead(w.duel, at, ev, lag);
      HandleStaysOnTime(w.duel, at, ev, lag, A);
      HandleStaysOnTime(w.duel, at, ev, lag, B);
      TimersFinishFrom(WorldStep(w, Act(at, ev)), draws, k + 1, lag);
    }
  }

  /**
   Left alone at any moment of any timely run, a duel is finished by its timers, whatever the bot draws at each
   tick, and by the same limit.
   */
  lemma TimersAloneFinish(w: World, acts: seq<Act>, lag: nat, draws: nat -> (Chance, Chance))
    requires Starts(w) && IsRun(w, acts) && Timely(w, acts, lag)
    ensures TimersOnly(After(w, acts), draws, 0).duel.phase == Finished
    ensures TimersOnly(After(w, acts), draws, 0).now <= Limit(w.duel.startAt, |w.duel.questions|, lag)
  {
    RunStaysOnTime(w, acts, lag);
    RunStaysAhead(w, acts, lag);
    TimersFinishFrom(After(w, acts), draws, 0, lag);
    if acts != [] {
      BoundedDuel(w, acts, lag);
      NowIsLast(w, acts);
    }
  }

  lemma NowIsLast(w: World, acts: seq<Act>)
    requires Valid(w.duel) && acts != []
    ensures After(w, acts).now == acts[|acts|-1].at
  {}

  /** With the stock timing a duel is over before the Redis pointers set for it expire. */
  lemma FinishedBeforePointerExpiry(w: World, acts: seq<Act>, lag: nat, pointerSetAt: int)
    requires Starts(w) && IsRun(w, acts) && Timely(w, acts, lag) && acts != []
    requires |w.duel.questions| == 10 && w.duel.startAt <= pointerSetAt + 3_000 * MS
    requires 21 * lag <= 100_000 * MS
    ensures acts[|acts|-1].at <= pointerSetAt + POINTER_TTL && POINTER_TTL == 269_000 * MS
  {
    BoundedDuel(w, acts, lag);
  }
}
