/**
 What one loop event can do to one seat. Every handler moves a seat by one of six moves,
 which is the shape all reasoning about runs follows.
 */
module ArenaSeatMoves {
  import opened Options
  import opened ArenaRules
  import opened ArenaDuel

  datatype Move = Stay | Resolved(verdict: Verdict) | Dealt(draw: Chance) | Ended | Dropped | Returned

  /** A recorded verdict says what the rules say about the answer it records. */
  ghost predicate Honest(q: Question, v: Verdict) {
    if v.answered then
      && v.correct == (v.answerId == q.correct)
      && 0 <= v.responseMs <= Millis(Q_TIME)
      && v.points == AnswerPoints(v.correct, v.responseMs, Millis(Q_TIME))
    else v == NO_VERDICT
  }

  ghost predicate CanMove(qs: seq<Question>, s: Seat, move: Move) {
    match move
    case Stay => true
    case Resolved(v) => s.state == Active && s.index < |qs| && Honest(qs[s.index], v)
    case Dealt(_) => s.state == Waiting || (s.state == Reveal && s.index + 1 < |qs|)
    case Ended => s.state == Reveal && s.index + 1 == |qs|
    case Dropped => !s.disconnected && !s.bot
    case Returned => !s.bot
  }

  ghost function ApplyMove(qs: seq<Question>, s: Seat, move: Move, now: int): (r: Seat)
    requires SeatShape(s, |qs|) && CanMove(qs, s, move)
    ensures s.state != Waiting || 1 <= |qs| ==> SeatShape(r, |qs|)
  {
    match move
    case Stay => s
    case Resolved(v) => Resolve(s, v, now)
    case Dealt(draw) => StartQuestion(s, if s.state == Waiting then 0 else s.index + 1, now, draw)
    case Ended => s.(index := |qs|, state := Done)
    case Dropped => s.(disconnected := true, discGen := s.discGen + 1)
    case Returned => s.(disconnected := false)
  }

  /** The move a due timer makes of a seat. */
  function DueMove(qs: seq<Question>, s: Seat, now: int, draw: Chance): Move
    requires SeatShape(s, |qs|)
  {
    if !SeatDue(s, now) then Stay
    else if s.state == Reveal then (if s.index + 1 < |qs| then Dealt(draw) else Ended)
    else Resolved(if s.bot then BotVerdict(qs[s.index], s, now, draw) else NO_VERDICT)
  }

  function TimerMove(d: Duel, now: int, drawA: Chance, drawB: Chance, side: Side): Move
    requires Valid(d)
  {
    var draw := if side == A then drawA else drawB;
    match d.phase
    case Pending => if now < d.startAt then Stay else Dealt(draw)
    case Finished => Stay
    case Running =>
      if side == B && TimerSeat(d, A, now, drawA).phase == Finished then Stay
      else DueMove(d.questions, At(d, side), now, draw)
  }

  function PlayerMove(d: Duel, now: int, ev: Event, side: Side): Move
    requires Valid(d) && !ev.Timer? && !ev.Abort?
  {
    var s := At(d, side);
    match ev
    case Answer(_, index, answerId) =>
      if AnswerAccepted(d, side, now, index, answerId)
      then Resolved(ScoreAnswer(d.questions[s.index], answerId, ResponseOf(s, now), now)) else Stay
    case Disconnect(_) => if s.disconnected then Stay else Dropped
    case Reconnect(_) => Returned
    case _ => Stay
  }

  function MoveOf(d: Duel, now: int, ev: Event, side: Side): Move
    requires Valid(d)
  {
    match ev
    case Timer(drawA, drawB) => TimerMove(d, now, drawA, drawB, side)
    case Abort => Stay
    case _ => if SideOf(d, ev.pid) == Some(side) && !At(d, side).bot then PlayerMove(d, now, ev, side) else Stay
  }

  lemma DueMoveIsPossible(qs: seq<Question>, s: Seat, now: int, draw: Chance)
    requires SeatShape(s, |qs|)
    ensures CanMove(qs, s, DueMove(qs, s, now, draw))
  {}

  lemma TimerSeatMoves(d: Duel, side: Side, now: int, draw: Chance)
    requires Valid(d) && d.phase == Running
    ensures CanMove(d.questions, At(d, side), DueMove(d.questions, At(d, side), now, draw))
    ensures var r := TimerSeat(d, side, now, draw);
            && r.questions == d.questions
            && At(r, Opposite(side)) == At(d, Opposite(side))
            && At(r, side) == ApplyMove(d.questions, At(d, side), DueMove(d.questions, At(d, side), now, draw), now)
            && (r.phase == Running || r.phase == Finished)
  {
    DueMoveIsPossible(d.questions, At(d, side), now, draw);
  }

  lemma TimerIsMoves(d: Duel, now: int, drawA: Chance, drawB: Chance, side: Side)
    requires Valid(d)
    ensures var r, move := OnTimer(d, now, drawA, drawB), TimerMove(d, now, drawA, drawB, side);
            && CanMove(d.questions, At(d, side), move)
            && At(r, side) == ApplyMove(d.questions, At(d, side), move, now)
            && r.questions == d.questions
  {
    if d.phase == Running {
      TimerSeatMoves(d, A, now, drawA);
      var d' := TimerSeat(d, A, now, drawA);
      if d'.phase == Running { TimerSeatMoves(d', B, now, drawB); }
    }
  }

  lemma PlayerIsMoves(d: Duel, now: int, ev: Event, actor: Side, side: Side)
    requires Valid(d) && !ev.Timer? && !ev.Abort? && !At(d, actor).bot
    ensures var move := if side == actor then PlayerMove(d, now, ev, side) else Stay;
            var r := HandlePlayer(d, now, ev, actor);
            && CanMove(d.questions, At(d, side), move)
            && At(r, side) == ApplyMove(d.questions, At(d, side), move, now)
            && r.questions == d.questions
  {}

  /** Every handler is a pair of seat moves. */
  lemma HandleIsMoves(d: Duel, now: int, ev: Event, side: Side)
    requires Valid(d)
    ensures var r, move := Handle(d, now, ev), MoveOf(d, now, ev, side);
            && CanMove(d.questions, At(d, side), move)
            && At(r, side) == ApplyMove(d.questions, At(d, side), move, now)
            && r.questions == d.questions
  {
    match ev
    case Timer(drawA, drawB) => TimerIsMoves(d, now, drawA, drawB, side);
    case Abort =>
    case _ =>
      var actor := SideOf(d, ev.pid);
      if actor.Some? && !At(d, actor.value).bot { PlayerIsMoves(d, now, ev, actor.value, side); }
  }
}
