/**
 One duel as a state machine over values: the two seats, their private clocks and
 the handlers of the match loop. Every function takes the instant `now` at which the
 loop acts; instants and durations are nanoseconds. The bot's random draws are
 parameters. Frames sent to the players are not part of the state.
 */
module ArenaDuel {
  import opened Options
  import opened ArenaRules

  type Id = int

  const MS: int := 1_000_000
  const QUESTION_COUNT: int := 10
  const Q_TIME: int := 15_000 * MS
  const ANSWER_GRACE: int := 400 * MS
  const REVEAL_FOR: int := 1_200 * MS
  const RECONNECT_GRACE: int := 20_000 * MS
  const COUNTDOWN: int := 3_000 * MS
  const PER_QUESTION: int := Q_TIME + ANSWER_GRACE + REVEAL_FOR
  // Lifetime of the Redis pointer from player to match.
  const POINTER_TTL: int := COUNTDOWN + QUESTION_COUNT * PER_QUESTION + 2 * RECONNECT_GRACE + 60_000 * MS

  datatype Phase = Pending | Running | Finished
  datatype EndReason = Completed | Forfeit | BothDisconnected | ServerShutdown

  /** valid == None: no option list is known and any answer id is accepted. */
  datatype Question = Question(correct: Id, valid: Option<set<Id>>)

  datatype Verdict = Verdict(answered: bool, answerId: Id, correct: bool, responseMs: int, points: int, at: int)

  const NO_VERDICT: Verdict := Verdict(false, 0, false, 0, 0, 0)

  datatype SeatState = Waiting | Active | Reveal | Done

  datatype Seat = Seat(
    id: Id, bot: bool,
    index: nat, state: SeatState,
    deadline: int, nextAt: int, botAt: int,
    answers: seq<Verdict>, score: int, correctN: int, responseSum: int,
    disconnected: bool, discGen: nat)

  datatype Side = A | B

  datatype Duel = Duel(
    ranked: bool, questions: seq<Question>,
    a: Seat, b: Seat,
    phase: Phase, startAt: int,
    endReason: Option<EndReason>, quitter: Option<Id>)

  datatype Chance = Chance(delay: real, pick: Id)

  datatype Event =
    | Timer(drawA: Chance, drawB: Chance)
    | Answer(pid: Id, index: int, answerId: Id)
    | Disconnect(pid: Id)
    | ForfeitCheck(pid: Id, gen: nat)
    | Reconnect(pid: Id)
    | Leave(pid: Id)
    | Abort

  function Opposite(side: Side): Side { if side == A then B else A }

  function At(d: Duel, side: Side): Seat { if side == A then d.a else d.b }

  function Put(d: Duel, side: Side, s: Seat): Duel { if side == A then d.(a := s) else d.(b := s) }

  function SideOf(d: Duel, pid: Id): Option<Side> {
    if d.a.id == pid then Some(A) else if d.b.id == pid then Some(B) else None
  }

  ghost predicate SeatShape(s: Seat, n: nat) {
    && |s.answers| == n
    && (s.state == Waiting ==> s.index == 0)
    && (s.state == Active || s.state == Reveal ==> s.index < n)
    && (s.state == Done ==> s.index == n)
  }

  /** Structural well-formedness, kept by every step. */
  ghost predicate Valid(d: Duel) {
    && 1 <= |d.questions| && d.a.id != d.b.id
    && SeatShape(d.a, |d.questions|) && SeatShape(d.b, |d.questions|)
    && (d.phase == Pending ==> d.a.state == Waiting && d.b.state == Waiting)
    && (d.phase == Running ==> d.a.state != Waiting && d.b.state != Waiting)
    && (d.phase == Running ==> !(d.a.state == Done && d.b.state == Done))
    && (d.phase == Finished <==> d.endReason.Some?)
  }

  function FreshSeat(id: Id, bot: bool, n: nat): Seat {
    Seat(id, bot, 0, Waiting, 0, 0, 0, seq(n, _ => NO_VERDICT), 0, 0, 0, false, 0)
  }

  function NewDuel(ranked: bool, questions: seq<Question>, a: Id, b: Id, botB: bool, startAt: int): (d: Duel)
    requires a != b && 1 <= |questions|
    ensures Valid(d) && d.phase == Pending
  {
    Duel(ranked, questions, FreshSeat(a, false, |questions|), FreshSeat(b, botB, |questions|),
         Pending, startAt, None, None)
  }

  // ---------------------------------------------------------------- seat operations

  function Clamp(x: int, lo: int, hi: int): int { if x < lo then lo else if x > hi then hi else x }

  /** Whole milliseconds, truncated toward zero. */
  function Millis(x: int): int { if x >= 0 then x / MS else -((-x) / MS) }

  function ScoreAnswer(q: Question, answerId: Id, resp: int, at: int): Verdict {
    var window := Millis(Q_TIME);
    var r := Clamp(resp, 0, window);
    Verdict(true, answerId, q.correct == answerId, r, AnswerPoints(q.correct == answerId, r, window), at)
  }

  function Resolve(s: Seat, v: Verdict, now: int): Seat
    requires s.index < |s.answers|
  {
    s.(answers := s.answers[s.index := v],
       score := s.score + v.points,
       correctN := s.correctN + (if v.correct then 1 else 0),
       responseSum := s.responseSum + (if v.answered then v.responseMs else 0),
       state := Reveal,
       nextAt := now + REVEAL_FOR)
  }

  function StartQuestion(s: Seat, index: nat, now: int, draw: Chance): Seat {
    s.(index := index, state := Active, deadline := now + Q_TIME,
       botAt := if s.bot then now + BotDelay(draw.delay, Q_TIME) else s.botAt)
  }

  function ResponseOf(s: Seat, now: int): int { Millis(now - (s.deadline - Q_TIME)) }

  /** Any option of the question may be picked; without one the bot answers correctly. */
  function BotVerdict(q: Question, s: Seat, now: int, draw: Chance): Verdict {
    var pick := if q.valid.Some? && draw.pick in q.valid.value then draw.pick else q.correct;
    ScoreAnswer(q, pick, ResponseOf(s, now), now)
  }

  /** Questions that have a verdict for this seat. */
  function ResolvedCount(s: Seat): nat {
    if s.state == Reveal then s.index + 1
    else if s.state == Done then |s.answers|
    else s.index
  }

  // ---------------------------------------------------------------- match operations

  function Finish(d: Duel, reason: EndReason): Duel {
    if d.phase == Finished then d else d.(phase := Finished, endReason := Some(reason))
  }

  /** A verdict goes off screen: its seat gets the next question, or is done. */
  function Advance(d: Duel, side: Side, now: int, draw: Chance): (r: Duel)
    requires Valid(d) && d.phase == Running && At(d, side).state == Reveal
    ensures Valid(r)
  {
    var s := At(d, side);
    if s.index + 1 < |d.questions| then
      Put(d, side, StartQuestion(s, s.index + 1, now, draw))
    else
      var d' := Put(d, side, s.(index := s.index + 1, state := Done));
      if At(d, Opposite(side)).state == Done then Finish(d', Completed) else d'
  }

  predicate SeatDue(s: Seat, now: int) {
    match s.state
    case Active => if s.bot then now >= s.botAt else now >= s.deadline + ANSWER_GRACE
    case Reveal => now >= s.nextAt
    case _ => false
  }

  function TimerSeat(d: Duel, side: Side, now: int, draw: Chance): (r: Duel)
    requires Valid(d) && d.phase == Running
    ensures Valid(r)
  {
    var s := At(d, side);
    if !SeatDue(s, now) then d
    else if s.state == Reveal then Advance(d, side, now, draw)
    else
      var v := if s.bot then BotVerdict(d.questions[s.index], s, now, draw) else NO_VERDICT;
      Put(d, side, Resolve(s, v, now))
  }

  function OnTimer(d: Duel, now: int, drawA: Chance, drawB: Chance): (r: Duel)
    requires Valid(d)
    ensures Valid(r)
  {
    match d.phase
    case Pending =>
      if now < d.startAt then d
      else d.(phase := Running, a := StartQuestion(d.a, 0, now, drawA), b := StartQuestion(d.b, 0, now, drawB))
    case Finished => d
    case Running =>
      var d' := TimerSeat(d, A, now, drawA);
      if d'.phase == Finished then d' else TimerSeat(d', B, now, drawB)
  }

  predicate AnswerAccepted(d: Duel, side: Side, now: int, index: int, answerId: Id)
    requires Valid(d)
  {
    var s := At(d, side);
    && d.phase == Running && s.state == Active && index == s.index
    && now <= s.deadline + ANSWER_GRACE
    && var q := d.questions[s.index];
    q.valid.Some? ==> answerId in q.valid.value
  }

  function OnAnswer(d: Duel, side: Side, now: int, index: int, answerId: Id): (r: Duel)
    requires Valid(d)
    ensures Valid(r)
  {
    var s := At(d, side);
    if AnswerAccepted(d, side, now, index, answerId) then
      Put(d, side, Resolve(s, ScoreAnswer(d.questions[s.index], answerId, ResponseOf(s, now), now), now))
    else d
  }

  function OnDisconnect(d: Duel, side: Side): (r: Duel)
    requires Valid(d)
    ensures Valid(r)
  {
    var s := At(d, side);
    if s.disconnected then d
    else
      var d' := Put(d, side, s.(disconnected := true, discGen := s.discGen + 1));
      var opp := At(d, Opposite(side));
      if opp.disconnected && !opp.bot then Finish(d', BothDisconnected) else d'
  }

  function Handle(d: Duel, now: int, ev: Event): (r: Duel)
    requires Valid(d)
    ensures Valid(r)
  {
    match ev
    case Timer(drawA, drawB) => OnTimer(d, now, drawA, drawB)
    case Abort => Finish(d, ServerShutdown)
    case _ =>
      var side := SideOf(d, ev.pid);
      if side.None? || At(d, side.value).bot then d
      else HandlePlayer(d, now, ev, side.value)
  }

  function HandlePlayer(d: Duel, now: int, ev: Event, side: Side): (r: Duel)
    requires Valid(d) && !ev.Timer? && !ev.Abort?
    ensures Valid(r)
  {
    var s := At(d, side);
    match ev
    case Answer(_, index, answerId) => OnAnswer(d, side, now, index, answerId)
    case Disconnect(_) => OnDisconnect(d, side)
    case ForfeitCheck(_, gen) =>
      if s.disconnected && s.discGen == gen && d.phase != Finished
      then Finish(d.(quitter := Some(s.id)), Forfeit) else d
    case Reconnect(_) => Put(d, side, s.(disconnected := false))
    case Leave(_) => Finish(d.(quitter := Some(s.id)), Forfeit)
  }

  // ---------------------------------------------------------------- the wake-up clock

  function SeatWake(s: Seat): Option<int> {
    match s.state
    case Active => Some(if s.bot then s.botAt else s.deadline + ANSWER_GRACE)
    case Reveal => Some(s.nextAt)
    case _ => None
  }

  function Earlier(x: Option<int>, y: Option<int>): Option<int> {
    if x.None? then y else if y.None? || x.value <= y.value then x else y
  }

  /** When the loop has something to do next. */
  function NextWake(d: Duel): Option<int> {
    match d.phase
    case Pending => Some(d.startAt)
    case Running => Earlier(SeatWake(d.a), SeatWake(d.b))
    case Finished => None
  }

  // ---------------------------------------------------------------- the verdict

  function Outcomes(d: Duel): (Outcome, Outcome) {
    match d.endReason
    case Some(BothDisconnected) => (Draw, Draw)
    case Some(ServerShutdown) => (Draw, Draw)
    case Some(Forfeit) =>
      if d.quitter == Some(d.a.id) then (Lost, Won)
      else if d.quitter == Some(d.b.id) then (Won, Lost)
      else OutcomeFromScores(d.a.score, d.b.score)
    case _ => OutcomeFromScores(d.a.score, d.b.score)
  }

  predicate Rated(d: Duel) {
    d.ranked && (d.endReason == Some(Completed) || d.endReason == Some(Forfeit))
  }

  /** The pair of scores handed to the rating store: a quitter scores as a loss. */
  function RatingScores(d: Duel): (int, int) {
    if d.endReason == Some(Forfeit) && d.quitter == Some(d.a.id) then (0, 1)
    else if d.endReason == Some(Forfeit) && d.quitter == Some(d.b.id) then (1, 0)
    else (d.a.score, d.b.score)
  }
}
