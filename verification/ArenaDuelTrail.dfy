/**
 Where the state of a duel comes from: every verdict goes back to the answer that was sent or to the timer that
 ran out, every question to the moment it was dealt, every end to the event that brought it about. The guards and
 the stock times are written out here once more, so that these laws do not lean on the handlers they are about.
 */
module ArenaDuelTrail {
  import opened Options
  import opened ArenaRules
  import opened ArenaDuel
  import opened ArenaSeatMoves
  import opened ArenaDuelRuns

  const SECOND: int := 1_000_000_000

  // ---------------------------------------------------------------- one answer

  /** `ms` are the whole milliseconds from the dealing of the question to `now`, between 0 and 15000. */
  ghost predicate Elapsed(deadline: int, now: int, ms: int) {
    var since := now - (deadline - 15 * SECOND);
    && 0 <= ms <= 15_000
    && (since <= 0 ==> ms == 0)
    && (0 <= since <= 15 * SECOND ==> ms * 1_000_000 <= since < (ms + 1) * 1_000_000)
    && (15 * SECOND <= since ==> ms == 15_000)
  }

  /** The verdict v says what was sent, whether it was right, and how fast and well paid it was. */
  ghost predicate Scored(q: Question, s: Seat, answerId: Id, now: int, v: Verdict) {
    && v.answered && v.answerId == answerId && v.at == now
    && (v.correct <==> answerId == q.correct)
    && Elapsed(s.deadline, now, v.responseMs)
    && v.points == AnswerPoints(v.correct, v.responseMs, 15_000)
  }

  /** The seat is open for this answer: its question, in time, and one of the options. */
  ghost predicate OpenFor(d: Duel, s: Seat, now: int, index: int, answerId: Id) {
    && d.phase == Running && s.state == Active && index == s.index && s.index < |d.questions|
    && now <= s.deadline + 400 * 1_000_000
    && (d.questions[s.index].valid.None? || answerId in d.questions[s.index].valid.value)
  }

  lemma ResponseIsElapsed(s: Seat, now: int)
    ensures Elapsed(s.deadline, now, Clamp(ResponseOf(s, now), 0, Millis(Q_TIME)))
  {}

  lemma ScoreIsScored(q: Question, s: Seat, answerId: Id, now: int)
    ensures Scored(q, s, answerId, now, ScoreAnswer(q, answerId, ResponseOf(s, now), now))
  {
    ResponseIsElapsed(s, now);
  }

  /** An answer to an open question is recorded as it was sent, once, for its seat alone; any other changes nothing. */
  lemma AnswerIsRecorded(d: Duel, side: Side, now: int, index: int, answerId: Id)
    requires Valid(d) && !At(d, side).bot
    ensures var s, r := At(d, side), Handle(d, now, Answer(At(d, side).id, index, answerId));
            if !OpenFor(d, s, now, index, answerId) then r == d
            else
              && |At(r, side).answers| == |s.answers| && Scored(d.questions[s.index], s, answerId, now, At(r, side).answers[s.index])
              && (forall k :: 0 <= k < |s.answers| && k != s.index ==> At(r, side).answers[k] == s.answers[k])
              && At(r, side).state == Reveal && At(r, side).index == s.index && At(r, side).nextAt == now + 1_200 * 1_000_000
              && At(r, Opposite(side)) == At(d, Opposite(side)) && r.phase == Running
  {
    var s := At(d, side);
    PlayerIsHandled(d, now, Answer(s.id, index, answerId), side);
    if OpenFor(d, s, now, index, answerId) { ScoreIsScored(d.questions[s.index], s, answerId, now); }
  }

  lemma PlayerIsHandled(d: Duel, now: int, event: Event, side: Side)
    requires Valid(d) && !At(d, side).bot && !event.Timer? && !event.Abort? && event.pid == At(d, side).id
    ensures Handle(d, now, event) == HandlePlayer(d, now, event, side)
  {}

  // ---------------------------------------------------------------- how a seat got where it is

  /** A verdict that act brought about for the seat s of duel d: the answer sent, the time run out, or the bot's turn. */
  ghost predicate ResolvedBy(d: Duel, act: Act, s: Seat, v: Verdict) {
    && d.phase == Running && s.state == Active && s.index < |d.questions|
    && if act.event.Answer? then
         && !s.bot && act.event.pid == s.id
         && OpenFor(d, s, act.at, act.event.index, act.event.answerId)
         && Scored(d.questions[s.index], s, act.event.answerId, act.at, v)
       else if s.bot then
         && act.event.Timer? && s.botAt <= act.at
         && (v.answerId == d.questions[s.index].correct || (d.questions[s.index].valid.Some? && v.answerId in d.questions[s.index].valid.value))
         && Scored(d.questions[s.index], s, v.answerId, act.at, v)
       else
         && act.event.Timer? && s.deadline + 400 * 1_000_000 <= act.at
         && v == Verdict(false, 0, false, 0, 0, 0)
  }

  /** A question that act dealt to the seat, which then had 15 seconds: the first at the start, the others when a reveal was over. */
  ghost predicate DealtBy(d: Duel, act: Act, s: Seat, r: Seat) {
    && act.event.Timer? && r.state == Active && r.deadline == act.at + 15 * SECOND
    && (r.bot ==> act.at <= r.botAt <= act.at + 15 * SECOND)
    && if r.index == 0 then d.phase == Pending && d.startAt <= act.at
       else d.phase == Running && s.state == Reveal && s.index + 1 == r.index && s.nextAt <= act.at
  }

  /** The finish line: the last reveal was over. */
  ghost predicate DoneBy(d: Duel, act: Act, s: Seat, r: Seat) {
    act.event.Timer? && d.phase == Running && s.state == Reveal && s.index + 1 == |d.questions| && s.nextAt <= act.at && r.index == |d.questions|
  }

  /** What act did to the play of a seat: nothing, a verdict, a question, or the finish line. */
  ghost predicate PlayedBy(d: Duel, act: Act, s: Seat, r: Seat) {
    || (r.state == s.state && r.index == s.index && r.answers == s.answers && r.deadline == s.deadline && r.nextAt == s.nextAt && r.botAt == s.botAt)
    || (&& r.state == Reveal && r.index == s.index && r.nextAt == act.at + 1_200 * 1_000_000 && s.index < |s.answers| && |r.answers| == |s.answers|
        && (forall k :: 0 <= k < |s.answers| && k != s.index ==> r.answers[k] == s.answers[k])
        && ResolvedBy(d, act, s, r.answers[s.index]))
    || (DealtBy(d, act, s, r) && r.answers == s.answers)
    || (r.state == Done && DoneBy(d, act, s, r) && r.answers == s.answers)
  }

  lemma TimerPlays(d: Duel, now: int, drawA: Chance, drawB: Chance, side: Side)
    requires Valid(d)
    ensures PlayedBy(d, Act(now, Timer(drawA, drawB)), At(d, side), At(Handle(d, now, Timer(drawA, drawB)), side))
  {
    var draw := if side == A then drawA else drawB;
    HandleIsMoves(d, now, Timer(drawA, drawB), side);
    BotTurnIsInTime(draw.delay);
    if d.phase == Running { DuePlays(d, Act(now, Timer(drawA, drawB)), side, draw); }
  }

  /** What a due timer does to a seat. */
  lemma DuePlays(d: Duel, act: Act, side: Side, draw: Chance)
    requires Valid(d) && d.phase == Running && act.event.Timer? && CanMove(d.questions, At(d, side), DueMove(d.questions, At(d, side), act.at, draw))
    ensures PlayedBy(d, act, At(d, side), ApplyMove(d.questions, At(d, side), DueMove(d.questions, At(d, side), act.at, draw), act.at))
  {
    var s := At(d, side);
    BotTurnIsInTime(draw.delay);
    if s.state == Active && s.bot { BotTurnIsScored(d.questions[s.index], s, act.at, draw); }
  }

  lemma BotTurnIsInTime(delay: real)
    ensures 0 <= BotDelay(delay, Q_TIME) <= 15 * SECOND
  {
    BotDelayInsideWindow(delay, Q_TIME);
  }

  lemma BotTurnIsScored(q: Question, s: Seat, now: int, draw: Chance)
    ensures var v := BotVerdict(q, s, now, draw);
            && (v.answerId == q.correct || (q.valid.Some? && v.answerId in q.valid.value))
            && Scored(q, s, v.answerId, now, v)
  {
    ScoreIsScored(q, s, BotVerdict(q, s, now, draw).answerId, now);
  }

  lemma PlayerPlays(d: Duel, act: Act, side: Side)
    requires Valid(d) && !act.event.Timer?
    ensures PlayedBy(d, act, At(d, side), At(Handle(d, act.at, act.event), side))
  {
    var s := At(d, side);
    HandleIsMoves(d, act.at, act.event, side);
    if act.event.Answer? && act.event.pid == s.id && !s.bot {
      AnswerIsRecorded(d, side, act.at, act.event.index, act.event.answerId);
    }
  }

  lemma EventPlays(d: Duel, act: Act, side: Side)
    requires Valid(d)
    ensures PlayedBy(d, act, At(d, side), At(Handle(d, act.at, act.event), side))
  {
    if act.event.Timer? { TimerPlays(d, act.at, act.event.drawA, act.event.drawB, side); } else { PlayerPlays(d, act, side); }
  }

  // ---------------------------------------------------------------- over whole runs

  lemma SeatIsSame(w: World, acts: seq<Act>, act: Act, side: Side)
    requires Valid(w.duel)
    ensures var s, r := At(After(w, acts).duel, side), At(After(w, acts + [act]).duel, side);
            r.id == s.id && r.bot == s.bot && |r.answers| == |s.answers|
  {
    assert (acts + [act])[..|acts|] == acts;
    HandleExtends(After(w, acts).duel, act.at, act.event, side);
  }

  /** The last step of a run, as play. */
  lemma LastStepPlays(w: World, acts: seq<Act>, side: Side)
    requires Valid(w.duel) && acts != []
    ensures var d := After(w, acts[..|acts|-1]).duel;
            PlayedBy(d, acts[|acts|-1], At(d, side), At(After(w, acts).duel, side))
  {
    EventPlays(After(w, acts[..|acts|-1]).duel, acts[|acts|-1], side);
  }

  ghost predicate Resolves(w: World, acts: seq<Act>, i: nat, side: Side, k: nat, v: Verdict)
    requires Valid(w.duel)
  {
    && i < |acts|
    && At(After(w, acts[..i]).duel, side).index == k
    && ResolvedBy(After(w, acts[..i]).duel, acts[i], At(After(w, acts[..i]).duel, side), v)
  }

  lemma ResolvesInPrefix(w: World, acts: seq<Act>, i: nat, side: Side, k: nat, v: Verdict)
    requires Valid(w.duel) && acts != [] && Resolves(w, acts[..|acts|-1], i, side, k, v)
    ensures Resolves(w, acts, i, side, k, v)
  {
    assert acts[..|acts|-1][..i] == acts[..i];
  }

  /** A step resolves question k of a seat, or the verdict on it was there before. */
  lemma VerdictStep(d: Duel, act: Act, side: Side, k: nat)
    requires Valid(d) && k < ResolvedCount(At(Handle(d, act.at, act.event), side))
    ensures var s, r := At(d, side), At(Handle(d, act.at, act.event), side);
            k < |r.answers| &&
            if k < ResolvedCount(s) then k < |s.answers| && r.answers[k] == s.answers[k]
            else s.index == k && ResolvedBy(d, act, s, r.answers[k])
  {
    EventPlays(d, act, side);
    HandleExtends(d, act.at, act.event, side);
  }

  /**
   In every run, every verdict of every seat goes back to one step: for a player, the answer they sent to that
   question, by its id, in time and paid by the clock, or the timer 400 milliseconds after the deadline; for the
   bot, its turn.
   */
  lemma {:induction false} VerdictTrail(w: World, acts: seq<Act>, side: Side, k: nat) returns (i: nat)
    requires Starts(w) && k < ResolvedCount(At(After(w, acts).duel, side))
    ensures k < |At(After(w, acts).duel, side).answers|
    ensures Resolves(w, acts, i, side, k, At(After(w, acts).duel, side).answers[k])
  {
    var front, act := acts[..|acts|-1], acts[|acts|-1];
    var d := After(w, front).duel;
    VerdictStep(d, act, side, k);
    if k < ResolvedCount(At(d, side)) {
      i := VerdictTrail(w, front, side, k);
      ResolvesInPrefix(w, acts, i, side, k, At(d, side).answers[k]);
    } else {
      i := |front|;
    }
  }

  ghost predicate Deals(w: World, acts: seq<Act>, i: nat, side: Side, r: Seat)
    requires Valid(w.duel)
  {
    i < |acts| && DealtBy(After(w, acts[..i]).duel, acts[i], At(After(w, acts[..i]).duel, side), r)
  }

  lemma QuestionStep(d: Duel, act: Act, side: Side)
    requires Valid(d) && At(Handle(d, act.at, act.event), side).state == Active
    ensures var s, r := At(d, side), At(Handle(d, act.at, act.event), side);
            SameQuestion(s, r) || DealtBy(d, act, s, r)
  {
    EventPlays(d, act, side);
    HandleExtends(d, act.at, act.event, side);
  }

  ghost predicate SameQuestion(s: Seat, r: Seat) {
    s.state == Active && s.index == r.index && s.deadline == r.deadline && s.botAt == r.botAt && s.bot == r.bot
  }

  lemma LastQuestionStep(w: World, acts: seq<Act>, side: Side)
    requires Starts(w) && At(After(w, acts).duel, side).state == Active
    ensures acts != []
    ensures var r := At(After(w, acts).duel, side);
            SameQuestion(At(After(w, acts[..|acts|-1]).duel, side), r) || Deals(w, acts, |acts| - 1, side, r)
  {
    QuestionStep(After(w, acts[..|acts|-1]).duel, acts[|acts|-1], side);
  }

  lemma DealIsKept(w: World, acts: seq<Act>, i: nat, side: Side)
    requires Valid(w.duel) && acts != [] && Deals(w, acts[..|acts|-1], i, side, At(After(w, acts[..|acts|-1]).duel, side))
    requires SameQuestion(At(After(w, acts[..|acts|-1]).duel, side), At(After(w, acts).duel, side)) && At(After(w, acts).duel, side).state == Active
    ensures Deals(w, acts, i, side, At(After(w, acts).duel, side))
  {
    assert acts[..|acts|-1][..i] == acts[..i];
  }

  /** In every run, an open question was dealt exactly 15 seconds before its deadline: at the start, or after the last reveal. */
  lemma {:induction false} QuestionTrail(w: World, acts: seq<Act>, side: Side) returns (i: nat)
    requires Starts(w) && At(After(w, acts).duel, side).state == Active
    ensures Deals(w, acts, i, side, At(After(w, acts).duel, side))
  {
    LastQuestionStep(w, acts, side);
    if Deals(w, acts, |acts| - 1, side, At(After(w, acts).duel, side)) {
      i := |acts| - 1;
    } else {
      i := QuestionTrail(w, acts[..|acts|-1], side);
      DealIsKept(w, acts, i, side);
    }
  }

  // ---------------------------------------------------------------- how a duel ends

  /** The player pid sits at `side`, connected, and the other player is gone. */
  ghost predicate LastToDrop(d: Duel, side: Side, pid: Id) {
    && At(d, side).id == pid && !At(d, side).bot && !At(d, side).disconnected
    && At(d, Opposite(side)).disconnected && !At(d, Opposite(side)).bot
  }

  /** The player pid sits at `side` and leaves, or is still away in the absence that the check is about. */
  ghost predicate Quits(d: Duel, side: Side, event: Event) {
    && (event.Leave? || event.ForfeitCheck?) && At(d, side).id == event.pid && !At(d, side).bot
    && (event.ForfeitCheck? ==> At(d, side).disconnected && At(d, side).discGen == event.gen)
  }

  /** The event that ends an unfinished duel d, with this reason and this quitter. */
  ghost predicate EndedBy(d: Duel, act: Act, reason: EndReason, quitter: Option<Id>) {
    && d.phase != Finished
    && match reason
       case ServerShutdown => act.event.Abort?
       case Completed => act.event.Timer? && d.phase == Running && quitter.None?
       case BothDisconnected => act.event.Disconnect? && (LastToDrop(d, A, act.event.pid) || LastToDrop(d, B, act.event.pid))
       case Forfeit => (Quits(d, A, act.event) || Quits(d, B, act.event)) && quitter == Some(act.event.pid)
  }

  lemma EndStep(d: Duel, act: Act)
    requires Valid(d) && d.phase != Finished && Handle(d, act.at, act.event).phase == Finished
    ensures var r := Handle(d, act.at, act.event);
            r.endReason.Some? && (d.quitter.None? ==> EndedBy(d, act, r.endReason.value, r.quitter))
  {
    if act.event.Timer? {
      TimerEnds(d, act.at, act.event.drawA, act.event.drawB);
    } else if !act.event.Abort? {
      PlayerEnds(d, act);
    }
  }

  lemma SeatTimerEnds(d: Duel, side: Side, now: int, draw: Chance)
    requires Valid(d) && d.phase == Running
    ensures var r := TimerSeat(d, side, now, draw); r.quitter == d.quitter && (r.phase == Running || r.endReason == Some(Completed))
  {}

  lemma TimerEnds(d: Duel, now: int, drawA: Chance, drawB: Chance)
    requires Valid(d) && d.phase != Finished && OnTimer(d, now, drawA, drawB).phase == Finished
    ensures d.phase == Running && OnTimer(d, now, drawA, drawB).endReason == Some(Completed) && OnTimer(d, now, drawA, drawB).quitter == d.quitter
  {
    SeatTimerEnds(d, A, now, drawA);
    var d' := TimerSeat(d, A, now, drawA);
    if d'.phase == Running { SeatTimerEnds(d', B, now, drawB); }
  }

  lemma PlayerEnds(d: Duel, act: Act)
    requires Valid(d) && d.phase != Finished && !act.event.Timer? && !act.event.Abort? && Handle(d, act.at, act.event).phase == Finished
    ensures var r := Handle(d, act.at, act.event);
            r.endReason.Some? && (d.quitter.None? ==> EndedBy(d, act, r.endReason.value, r.quitter))
  {
    var side := SideOf(d, act.event.pid).value;
    assert At(d, side).id == act.event.pid && !At(d, side).bot;
    assert Handle(d, act.at, act.event) == HandlePlayer(d, act.at, act.event, side);
  }

  /** The last event of these ended the duel as it is after them. */
  ghost predicate LastEnds(w: World, acts: seq<Act>)
    requires Valid(w.duel)
  {
    var d := After(w, acts).duel;
    acts != [] && d.endReason.Some? && EndedBy(After(w, acts[..|acts|-1]).duel, acts[|acts|-1], d.endReason.value, d.quitter)
  }

  lemma LastStepEnds(w: World, acts: seq<Act>)
    requires Valid(w.duel) && acts != [] && After(w, acts).duel.phase == Finished
    requires After(w, acts[..|acts|-1]).duel.phase != Finished && After(w, acts[..|acts|-1]).duel.quitter.None?
    ensures LastEnds(w, acts)
  {
    EndStep(After(w, acts[..|acts|-1]).duel, acts[|acts|-1]);
  }

  lemma RunGoesOnUnfinished(w: World, acts: seq<Act>)
    requires Starts(w) && IsRun(w, acts) && acts != []
    ensures IsRun(w, acts[..|acts|-1]) && After(w, acts[..|acts|-1]).duel.phase != Finished
  {}

  /** Every finished duel was ended by the last event of its run, of the kind its reason names, and a forfeit by its quitter alone. */
  lemma EndTrail(w: World, acts: seq<Act>)
    requires Starts(w) && IsRun(w, acts) && After(w, acts).duel.phase == Finished
    ensures LastEnds(w, acts)
  {
    RunGoesOnUnfinished(w, acts);
    CompletedMeansBothDone(w, acts[..|acts|-1]);
    LastStepEnds(w, acts);
  }

  /** And these events do end it: a shutdown at once, a player who leaves, the second player to drop. */
  lemma EndingEvents(d: Duel, now: int, side: Side)
    requires Valid(d) && d.phase != Finished && !At(d, side).bot
    ensures Handle(d, now, Abort).endReason == Some(ServerShutdown)
    ensures var r := Handle(d, now, Leave(At(d, side).id)); r.endReason == Some(Forfeit) && r.quitter == Some(At(d, side).id)
    ensures !At(d, side).disconnected && At(d, Opposite(side)).disconnected && !At(d, Opposite(side)).bot ==>
              Handle(d, now, Disconnect(At(d, side).id)).endReason == Some(BothDisconnected)
    ensures !At(d, side).disconnected && !At(d, Opposite(side)).disconnected ==>
              var r := Handle(d, now, Disconnect(At(d, side).id));
              r.phase == d.phase && At(r, side).disconnected && At(r, side).discGen == At(d, side).discGen + 1
    ensures At(d, side).disconnected ==>
              && Handle(d, now, ForfeitCheck(At(d, side).id, At(d, side).discGen)).quitter == Some(At(d, side).id)
              && Handle(d, now, ForfeitCheck(At(d, side).id, At(d, side).discGen)).endReason == Some(Forfeit)
    ensures !At(Handle(d, now, Reconnect(At(d, side).id)), side).disconnected
  {}

  // ---------------------------------------------------------------- how an absence ends

  /** The check for the present absence of a seat, due 20 seconds after the drop at `dropped`. */
  function CheckFor(s: Seat, dropped: int): Check { Check(s.id, s.discGen, dropped + 20 * SECOND) }

  /** A player who is offline in an unfinished duel was so before the step, or drops in it and is given a check. */
  lemma AbsenceStep(d: Duel, act: Act, side: Side)
    requires Valid(d) && Handle(d, act.at, act.event).phase != Finished && At(Handle(d, act.at, act.event), side).disconnected
    ensures var s, r := At(d, side), At(Handle(d, act.at, act.event), side);
            && d.phase != Finished && r.id == s.id
            && ((s.disconnected && s.discGen == r.discGen)
                || (act.event == Disconnect(s.id) && CheckFor(r, act.at) in Scheduled(d, act)))
  {
    HandleIsMoves(d, act.at, act.event, side);
    if !At(d, side).disconnected { DropIsChecked(d, act, side); }
  }

  lemma DropIsChecked(d: Duel, act: Act, side: Side)
    requires Valid(d) && !At(d, side).disconnected
    requires Handle(d, act.at, act.event).phase != Finished && At(Handle(d, act.at, act.event), side).disconnected
    ensures act.event == Disconnect(At(d, side).id) && CheckFor(At(Handle(d, act.at, act.event), side), act.at) in Scheduled(d, act)
  {
    HandleIsMoves(d, act.at, act.event, side);
    assert MoveOf(d, act.at, act.event, side).Dropped?;
    assert SideOf(d, act.event.pid) == Some(side);
  }

  /** At step j the player of the check dropped, and the check of that absence is still to come. */
  ghost predicate PendingSince(w: World, acts: seq<Act>, j: nat, c: Check)
    requires Valid(w.duel)
  {
    j < |acts| && acts[j].event == Disconnect(c.pid) && c.due == acts[j].at + 20 * SECOND && c in After(w, acts).checks
  }

  ghost predicate Away(w: World, acts: seq<Act>, side: Side)
    requires Valid(w.duel)
  {
    After(w, acts).duel.phase != Finished && At(After(w, acts).duel, side).disconnected
  }

  lemma LastAbsenceStep(w: World, acts: seq<Act>, side: Side)
    requires Starts(w) && Away(w, acts, side)
    ensures acts != []
    ensures var s, r := At(After(w, acts[..|acts|-1]).duel, side), At(After(w, acts).duel, side);
            || PendingSince(w, acts, |acts| - 1, CheckFor(r, acts[|acts|-1].at))
            || (Away(w, acts[..|acts|-1], side) && s.id == r.id && s.discGen == r.discGen)
  {
    AbsenceStep(After(w, acts[..|acts|-1]).duel, acts[|acts|-1], side);
  }

  /** In every run, whoever is offline in an unfinished duel dropped at some step, and the check of that absence is pending. */
  lemma {:induction false} AbsenceIsChecked(w: World, acts: seq<Act>, side: Side) returns (j: nat, c: Check)
    requires Starts(w) && Away(w, acts, side)
    ensures PendingSince(w, acts, j, c)
    ensures c.pid == At(After(w, acts).duel, side).id && c.gen == At(After(w, acts).duel, side).discGen
  {
    LastAbsenceStep(w, acts, side);
    j, c := |acts| - 1, CheckFor(At(After(w, acts).duel, side), acts[|acts|-1].at);
    if !PendingSince(w, acts, j, c) {
      j, c := AbsenceIsChecked(w, acts[..|acts|-1], side);
      CheckIsKept(w, acts, j, c);
    }
  }

  lemma CheckIsKept(w: World, acts: seq<Act>, j: nat, c: Check)
    requires Valid(w.duel) && acts != [] && PendingSince(w, acts[..|acts|-1], j, c)
    ensures PendingSince(w, acts, j, c)
  {}

  /** In every run, a player who stays away for 20 seconds can be made to forfeit from then on: the check may come and ends the duel. */
  lemma LongAbsenceForfeits(w: World, acts: seq<Act>, side: Side, at: int) returns (j: nat)
    requires Starts(w) && IsRun(w, acts) && Away(w, acts, side) && !At(After(w, acts).duel, side).bot && After(w, acts).now <= at
    ensures j < |acts| && acts[j].event == Disconnect(At(After(w, acts).duel, side).id)
    ensures acts[j].at + 20 * SECOND <= at ==>
              var d := After(w, acts).duel;
              var check := ForfeitCheck(At(d, side).id, At(d, side).discGen);
              && Possible(After(w, acts), Act(at, check))
              && Handle(d, at, check).endReason == Some(Forfeit) && Handle(d, at, check).quitter == Some(At(d, side).id)
  {
    var c: Check;
    j, c := AbsenceIsChecked(w, acts, side);
    EndingEvents(After(w, acts).duel, at, side);
  }
}
