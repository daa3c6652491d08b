/**
 Whole runs of a duel: what holds after every sequence of loop events, whatever the
 players, the network and the clock do.
 */
module ArenaDuelRuns {
  import opened Options
  import opened ArenaRules
  import opened ArenaDuel
  import opened ArenaSeatMoves

  /** A forfeit check put to sleep when a player dropped; it may be delivered from `due` on. */
  datatype Check = Check(pid: Id, gen: nat, due: int)

  datatype World = World(duel: Duel, checks: set<Check>, now: int)

  datatype Act = Act(at: int, event: Event)

  predicate Offline(d: Duel, pid: Id) {
    var side := SideOf(d, pid);
    side.Some? && At(d, side.value).disconnected
  }

  /** The check scheduled by a disconnect that did not end the duel. */
  function Scheduled(d: Duel, act: Act): set<Check>
    requires Valid(d)
  {
    var d' := Handle(d, act.at, act.event);
    if act.event.Disconnect? && !Offline(d, act.event.pid) && Offline(d', act.event.pid) && d'.phase != Finished
    then {Check(act.event.pid, At(d', SideOf(d', act.event.pid).value).discGen, act.at + RECONNECT_GRACE)}
    else {}
  }

  function WorldStep(w: World, act: Act): (r: World)
    requires Valid(w.duel)
    ensures Valid(r.duel)
  {
    World(Handle(w.duel, act.at, act.event), w.checks + Scheduled(w.duel, act), act.at)
  }

  function After(w: World, acts: seq<Act>): (r: World)
    requires Valid(w.duel)
    ensures Valid(r.duel)
  {
    if acts == [] then w else WorldStep(After(w, acts[..|acts|-1]), acts[|acts|-1])
  }

  /**
   What the environment may do next: the loop has not returned, the clock does not run
   backwards, and a forfeit check arrives only after its sleep.
   */
  ghost predicate Possible(w: World, act: Act) {
    && w.duel.phase != Finished
    && w.now <= act.at
    && (act.event.ForfeitCheck? ==>
          exists c :: c in w.checks && c.pid == act.event.pid && c.gen == act.event.gen && c.due <= act.at)
  }

  ghost predicate IsRun(w: World, acts: seq<Act>)
    requires Valid(w.duel)
  {
    acts != [] ==>
      IsRun(w, acts[..|acts|-1]) && Possible(After(w, acts[..|acts|-1]), acts[|acts|-1])
  }

  /** The loop is never more than `lag` late: no event is handled past the next wake plus lag. */
  ghost predicate Timely(w: World, acts: seq<Act>, lag: nat)
    requires Valid(w.duel)
  {
    acts != [] ==>
      && Timely(w, acts[..|acts|-1], lag)
      && (var wake := NextWake(After(w, acts[..|acts|-1]).duel);
          wake.Some? ==> acts[|acts|-1].at <= wake.value + lag)
  }

  ghost predicate Starts(w: World) {
    && Valid(w.duel) && w.duel.phase == Pending && w.checks == {}
    && w.duel.a == FreshSeat(w.duel.a.id, w.duel.a.bot, |w.duel.questions|)
    && w.duel.b == FreshSeat(w.duel.b.id, w.duel.b.bot, |w.duel.questions|)
    && w.duel.quitter == None
    && w.now <= w.duel.startAt
  }

  // ---------------------------------------------------------------- the seat ledger

  function PointsOf(vs: seq<Verdict>): int {
    if vs == [] then 0 else PointsOf(vs[..|vs|-1]) + vs[|vs|-1].points
  }

  function CorrectIn(vs: seq<Verdict>): int {
    if vs == [] then 0 else CorrectIn(vs[..|vs|-1]) + (if vs[|vs|-1].correct then 1 else 0)
  }

  function ResponseIn(vs: seq<Verdict>): int {
    if vs == [] then 0
    else ResponseIn(vs[..|vs|-1]) + (if vs[|vs|-1].answered then vs[|vs|-1].responseMs else 0)
  }

  ghost predicate Ledger(qs: seq<Question>, s: Seat)
    requires SeatShape(s, |qs|)
  {
    var n := ResolvedCount(s);
    var done := s.answers[..n];
    && s.score == PointsOf(done)
    && s.correctN == CorrectIn(done)
    && s.responseSum == ResponseIn(done)
    && (forall k :: 0 <= k < n ==> Honest(qs[k], s.answers[k]))
    && (forall k :: n <= k < |s.answers| ==> s.answers[k] == NO_VERDICT)
  }

  lemma ScoreWithinCorrect(qs: seq<Question>, vs: seq<Verdict>)
    requires |vs| <= |qs| && forall k :: 0 <= k < |vs| ==> Honest(qs[k], vs[k])
    ensures 0 <= PointsOf(vs) <= 100 * CorrectIn(vs)
  {
    if vs != [] {
      var v := vs[|vs|-1];
      ScoreWithinCorrect(qs, vs[..|vs|-1]);
      AnswerPointsLaws(v.correct, v.responseMs, v.responseMs, Millis(Q_TIME));
    }
  }

  lemma ResolveKeepsLedger(qs: seq<Question>, s: Seat, v: Verdict, now: int)
    requires SeatShape(s, |qs|) && s.state == Active && Ledger(qs, s) && Honest(qs[s.index], v)
    ensures Ledger(qs, Resolve(s, v, now))
  {
    var s' := Resolve(s, v, now);
    var done := s'.answers[..s.index + 1];
    assert done[..|done|-1] == s.answers[..s.index];
  }

  lemma MoveKeepsLedger(qs: seq<Question>, s: Seat, move: Move, now: int)
    requires 1 <= |qs| && SeatShape(s, |qs|) && CanMove(qs, s, move) && Ledger(qs, s)
    ensures Ledger(qs, ApplyMove(qs, s, move, now))
  {
    if move.Resolved? { ResolveKeepsLedger(qs, s, move.verdict, now); }
  }

  ghost predicate Ledgers(d: Duel)
    requires Valid(d)
  {
    Ledger(d.questions, d.a) && Ledger(d.questions, d.b)
  }

  lemma HandleKeepsLedgers(d: Duel, now: int, ev: Event)
    requires Valid(d) && Ledgers(d)
    ensures Ledgers(Handle(d, now, ev))
  {
    HandleIsMoves(d, now, ev, A);
    HandleIsMoves(d, now, ev, B);
    MoveKeepsLedger(d.questions, d.a, MoveOf(d, now, ev, A), now);
    MoveKeepsLedger(d.questions, d.b, MoveOf(d, now, ev, B), now);
  }

  /**
   In every reachable state each seat's totals are exactly the folds over the verdicts it
   recorded, every recorded verdict is what the rules say, and later entries are untouched.
   */
  lemma {:induction false} SeatLedger(w: World, acts: seq<Act>)
    requires Starts(w)
    ensures Ledgers(After(w, acts).duel)
  {
    if acts != [] {
      SeatLedger(w, acts[..|acts|-1]);
      var act := acts[|acts|-1];
      HandleKeepsLedgers(After(w, acts[..|acts|-1]).duel, act.at, act.event);
    }
  }

  /** No seat ever scores more than 100 per correct answer, or below zero. */
  lemma ScoreBound(w: World, acts: seq<Act>, side: Side)
    requires Starts(w)
    ensures var s := At(After(w, acts).duel, side); 0 <= s.score <= 100 * s.correctN
  {
    SeatLedger(w, acts);
    var d := After(w, acts).duel;
    var s := At(d, side);
    ScoreWithinCorrect(d.questions, s.answers[..ResolvedCount(s)]);
  }

  /** The verdicts of s are a prefix of those of s'. */
  ghost predicate Extends(s: Seat, s': Seat) {
    && |s.answers| == |s'.answers| && s.id == s'.id && s.bot == s'.bot
    && ResolvedCount(s) <= ResolvedCount(s') <= |s'.answers|
    && s.answers[..ResolvedCount(s)] == s'.answers[..ResolvedCount(s)]
  }

  lemma MoveExtends(qs: seq<Question>, s: Seat, move: Move, now: int)
    requires 1 <= |qs| && SeatShape(s, |qs|) && CanMove(qs, s, move)
    ensures Extends(s, ApplyMove(qs, s, move, now))
  {}

  lemma HandleExtends(d: Duel, now: int, ev: Event, side: Side)
    requires Valid(d)
    ensures Extends(At(d, side), At(Handle(d, now, ev), side))
  {
    HandleIsMoves(d, now, ev, side);
    MoveExtends(d.questions, At(d, side), MoveOf(d, now, ev, side), now);
  }

  lemma ExtendsIsTransitive(s: Seat, s': Seat, s'': Seat)
    requires Extends(s, s') && Extends(s', s'')
    ensures Extends(s, s'')
  {
    assert s''.answers[..ResolvedCount(s)] == s''.answers[..ResolvedCount(s')][..ResolvedCount(s)];
    assert s'.answers[..ResolvedCount(s)] == s'.answers[..ResolvedCount(s')][..ResolvedCount(s)];
  }

  /** A recorded verdict is never rewritten, removed or reordered by anything that follows. */
  lemma {:induction false} VerdictsAreFinal(w: World, acts: seq<Act>, more: seq<Act>, side: Side)
    requires Valid(w.duel)
    ensures Extends(At(After(w, acts).duel, side), At(After(w, acts + more).duel, side))
  {
    if more == [] {
      assert acts + more == acts;
      assert Valid(After(w, acts).duel);
    } else {
      var act := more[|more|-1];
      assert (acts + more)[..|acts + more|-1] == acts + more[..|more|-1];
      VerdictsAreFinal(w, acts, more[..|more|-1], side);
      var d := After(w, acts + more[..|more|-1]).duel;
      HandleExtends(d, act.at, act.event, side);
      ExtendsIsTransitive(At(After(w, acts).duel, side), At(d, side), At(After(w, acts + more).duel, side));
    }
  }

  // ---------------------------------------------------------------- why a duel ended

  ghost predicate AllResolved(d: Duel) {
    ResolvedCount(d.a) == |d.questions| && ResolvedCount(d.b) == |d.questions|
  }

  ghost predicate BothDone(d: Duel) { d.a.state == Done && d.b.state == Done }

  ghost predicate EndFits(d: Duel) {
    && (d.endReason == Some(Completed) <==> BothDone(d))
    && (d.endReason == Some(Forfeit) ==> d.quitter == Some(d.a.id) || d.quitter == Some(d.b.id))
    && (d.endReason.None? || d.endReason == Some(Completed) ==> d.quitter == None)
    && !(d.a.disconnected && d.a.bot) && !(d.b.disconnected && d.b.bot)
    && (d.phase != Finished ==> !(d.a.disconnected && d.b.disconnected))
  }

  lemma TimerSeatKeepsEnd(d: Duel, side: Side, now: int, draw: Chance)
    requires Valid(d) && d.phase == Running && EndFits(d)
    ensures EndFits(TimerSeat(d, side, now, draw))
  {
    TimerSeatMoves(d, side, now, draw);
  }

  lemma TimerKeepsEnd(d: Duel, now: int, drawA: Chance, drawB: Chance)
    requires Valid(d) && d.phase != Finished && EndFits(d)
    ensures EndFits(OnTimer(d, now, drawA, drawB))
  {
    if d.phase == Running {
      TimerSeatKeepsEnd(d, A, now, drawA);
      TimerSeatMoves(d, A, now, drawA);
      var d' := TimerSeat(d, A, now, drawA);
      if d'.phase == Running { TimerSeatKeepsEnd(d', B, now, drawB); }
    }
  }

  lemma PlayerKeepsEnd(d: Duel, now: int, ev: Event, side: Side)
    requires Valid(d) && d.phase != Finished && EndFits(d) && !ev.Timer? && !ev.Abort? && !At(d, side).bot
    ensures EndFits(HandlePlayer(d, now, ev, side))
  {}

  lemma HandleKeepsEnd(d: Duel, now: int, ev: Event)
    requires Valid(d) && d.phase != Finished && EndFits(d)
    ensures EndFits(Handle(d, now, ev))
  {
    match ev
    case Timer(drawA, drawB) => TimerKeepsEnd(d, now, drawA, drawB);
    case Abort =>
    case _ =>
      var actor := SideOf(d, ev.pid);
      if actor.Some? && !At(d, actor.value).bot { PlayerKeepsEnd(d, now, ev, actor.value); }
  }

  /**
   A duel ends as "completed" exactly when both seats walked past their last reveal, and no
   running duel ever has both players offline.
   */
  lemma {:induction false} CompletedMeansBothDone(w: World, acts: seq<Act>)
    requires Starts(w) && IsRun(w, acts)
    ensures EndFits(After(w, acts).duel)
    ensures var d := After(w, acts).duel;
            && (d.endReason == Some(Completed) <==> d.a.state == Done && d.b.state == Done)
            && (d.endReason == Some(Completed) ==> AllResolved(d))
            && (d.phase != Finished ==> !(d.a.disconnected && d.b.disconnected))
  {
    if acts != [] {
      var act := acts[|acts|-1];
      CompletedMeansBothDone(w, acts[..|acts|-1]);
      HandleKeepsEnd(After(w, acts[..|acts|-1]).duel, act.at, act.event);
    }
  }

  /** A duel of one question, at the instant at, with both seats as far as they say. */
  ghost predicate OneQuestion(u: World, at: int) {
    && u.now == at && u.duel.questions == [Question(1, None)] && u.duel.phase == Running
    && u.duel.a.id == 10 && !u.duel.a.bot && u.duel.a.index == 0
    && u.duel.b.id == 20 && !u.duel.b.bot && u.duel.b.index == 0
  }

  lemma DuelRunning(draw: Chance) returns (w: World, acts: seq<Act>)
    ensures Starts(w) && IsRun(w, acts) && OneQuestion(After(w, acts), 0)
    ensures var d := After(w, acts).duel;
            d.a.state == Active && d.b.state == Active && d.a.deadline == Q_TIME && d.b.deadline == Q_TIME
  {
    w := World(NewDuel(true, [Question(1, None)], 10, 20, false, 0), {}, 0);
    var w1 := Snoc(w, [], Act(0, Timer(draw, draw)));
    acts := [] + [Act(0, Timer(draw, draw))];
  }

  lemma FirstAnswers(draw: Chance) returns (w: World, acts: seq<Act>)
    ensures Starts(w) && IsRun(w, acts) && OneQuestion(After(w, acts), 0)
    ensures var d := After(w, acts).duel;
            d.a.state == Reveal && d.a.nextAt == REVEAL_FOR && d.b.state == Active && d.b.deadline == Q_TIME
  {
    w, acts := DuelRunning(draw);
    var u := Snoc(w, acts, Act(0, Answer(10, 0, 1)));
    acts := acts + [Act(0, Answer(10, 0, 1))];
  }

  lemma SecondAnswers(draw: Chance) returns (w: World, acts: seq<Act>)
    ensures Starts(w) && IsRun(w, acts) && OneQuestion(After(w, acts), 1_000 * MS)
    ensures var d := After(w, acts).duel;
            d.a.state == Reveal && d.a.nextAt == REVEAL_FOR && d.b.state == Reveal && d.b.nextAt == 1_000 * MS + REVEAL_FOR
  {
    w, acts := FirstAnswers(draw);
    var u := Snoc(w, acts, Act(1_000 * MS, Answer(20, 0, 1)));
    acts := acts + [Act(1_000 * MS, Answer(20, 0, 1))];
  }

  lemma FirstIsDone(draw: Chance) returns (w: World, acts: seq<Act>)
    ensures Starts(w) && IsRun(w, acts)
    ensures var u := After(w, acts);
            && u.now == REVEAL_FOR && u.duel.phase == Running && |u.duel.questions| == 1
            && u.duel.a.id == 10 && !u.duel.a.bot && u.duel.a.state == Done && u.duel.b.state == Reveal && u.duel.b.index == 0
  {
    w, acts := SecondAnswers(draw);
    var u := Snoc(w, acts, Act(REVEAL_FOR, Timer(draw, draw)));
    acts := acts + [Act(REVEAL_FOR, Timer(draw, draw))];
  }

  /**
   "Completed" is not the same as "every question has a verdict". Both players answer the only
   question; A's verdict goes off screen, B's is still on, and A leaves: a forfeit.
   */
  lemma AllResolvedNeedNotBeCompleted() returns (w: World, acts: seq<Act>)
    ensures Starts(w) && IsRun(w, acts)
    ensures AllResolved(After(w, acts).duel) && After(w, acts).duel.endReason == Some(Forfeit)
  {
    var early;
    w, early := FirstIsDone(Chance(0.0, 0));
    var u := Snoc(w, early, Act(REVEAL_FOR, Leave(10)));
    acts := early + [Act(REVEAL_FOR, Leave(10))];
    LeavingKeepsVerdicts(After(w, early).duel);
  }

  lemma LeavingKeepsVerdicts(d: Duel)
    requires Valid(d) && d.phase == Running && |d.questions| == 1 && d.a.id == 10 && !d.a.bot
    requires d.a.state == Done && d.b.state == Reveal && d.b.index == 0
    ensures AllResolved(Handle(d, REVEAL_FOR, Leave(10))) && Handle(d, REVEAL_FOR, Leave(10)).endReason == Some(Forfeit)
  {}

  lemma Snoc(w: World, acts: seq<Act>, act: Act) returns (r: World)
    requires Valid(w.duel) && IsRun(w, acts) && Possible(After(w, acts), act)
    ensures IsRun(w, acts + [act])
    ensures r == After(w, acts + [act]) == WorldStep(After(w, acts), act)
  {
    var all := acts + [act];
    assert all[..|all|-1] == acts;
    r := After(w, all);
  }

  /** The exact family: everything resolved without completion means someone still had a reveal open. */
  lemma AllResolvedButNotCompleted(w: World, acts: seq<Act>)
    requires Starts(w) && IsRun(w, acts)
    ensures var d := After(w, acts).duel;
            AllResolved(d) ==> (d.endReason == Some(Completed) <==> !(d.a.state == Reveal || d.b.state == Reveal))
  {
    CompletedMeansBothDone(w, acts);
  }

  // ---------------------------------------------------------------- forfeits are earned

  /** pid is offline in the state after the first i steps. */
  ghost predicate OfflineAfter(w: World, acts: seq<Act>, i: nat, pid: Id)
    requires Valid(w.duel) && i <= |acts|
  {
    Offline(After(w, acts[..i]).duel, pid)
  }

  /** pid dropped at step j, at least the reconnect grace before `now`, and was offline in every state since. */
  ghost predicate OfflineSince(w: World, acts: seq<Act>, pid: Id, j: nat, due: int)
    requires Valid(w.duel)
  {
    && j < |acts|
    && acts[j].event == Disconnect(pid)
    && acts[j].at + RECONNECT_GRACE == due
    && forall i :: j < i <= |acts| ==> OfflineAfter(w, acts, i, pid)
  }

  /** The same absence, followed back from its last state. */
  ghost predicate AbsentSince(w: World, acts: seq<Act>, pid: Id, j: nat, due: int)
    requires Valid(w.duel)
  {
    && j < |acts| && acts[j].event == Disconnect(pid) && acts[j].at + RECONNECT_GRACE == due
    && Offline(After(w, acts).duel, pid)
    && (j + 1 < |acts| ==> AbsentSince(w, acts[..|acts|-1], pid, j, due))
  }

  lemma {:induction false} AbsentAfter(w: World, acts: seq<Act>, pid: Id, j: nat, due: int, i: nat)
    requires Valid(w.duel) && AbsentSince(w, acts, pid, j, due) && j < i <= |acts|
    ensures OfflineAfter(w, acts, i, pid)
  {
    if i == |acts| {
      assert acts[..i] == acts;
    } else {
      AbsentAfter(w, acts[..|acts|-1], pid, j, due, i);
      assert acts[..|acts|-1][..i] == acts[..i];
    }
  }

  lemma AbsentIsOffline(w: World, acts: seq<Act>, pid: Id, j: nat, due: int)
    requires Valid(w.duel) && AbsentSince(w, acts, pid, j, due)
    ensures OfflineSince(w, acts, pid, j, due)
  {
    forall i | j < i <= |acts| ensures OfflineAfter(w, acts, i, pid) { AbsentAfter(w, acts, pid, j, due, i); }
  }

  /** The check c, if it could still fire, belongs to the current, unbroken absence. */
  ghost predicate CheckFits(w: World, acts: seq<Act>, c: Check)
    requires Valid(w.duel)
  {
    var u := After(w, acts).duel;
    var side := SideOf(u, c.pid);
    && side.Some?
    && c.gen <= At(u, side.value).discGen
    && (c.gen == At(u, side.value).discGen && At(u, side.value).disconnected ==>
          exists j :: AbsentSince(w, acts, c.pid, j, c.due))
  }

  ghost predicate ChecksFit(w: World, acts: seq<Act>)
    requires Valid(w.duel)
  {
    forall c :: c in After(w, acts).checks ==> CheckFits(w, acts, c)
  }

  lemma AbsenceGoesOn(w: World, acts: seq<Act>, act: Act, pid: Id, j: nat, due: int)
    requires Valid(w.duel) && AbsentSince(w, acts, pid, j, due) && Offline(After(w, acts + [act]).duel, pid)
    ensures AbsentSince(w, acts + [act], pid, j, due)
  {
    assert (acts + [act])[..|acts|] == acts;
  }

  lemma CheckStaysFit(w: World, acts: seq<Act>, act: Act, c: Check)
    requires Valid(w.duel) && ChecksFit(w, acts) && Possible(After(w, acts), act)
    requires c in After(w, acts + [act]).checks
    ensures CheckFits(w, acts + [act], c)
  {
    var all := acts + [act];
    assert all[..|all|-1] == acts && all[|all|-1] == act;
    var u, v := After(w, acts).duel, After(w, all).duel;
    HandleExtends(u, act.at, act.event, A);
    HandleExtends(u, act.at, act.event, B);
    if c in Scheduled(u, act) {
      assert AbsentSince(w, all, c.pid, |acts|, c.due);
    } else {
      var side := SideOf(u, c.pid).value;
      DisconnectCounts(u, act, side);
      assert CheckFits(w, acts, c);
      if c.gen == At(v, side).discGen && At(v, side).disconnected {
        var j :| AbsentSince(w, acts, c.pid, j, c.due);
        AbsenceGoesOn(w, acts, act, c.pid, j, c.due);
      }
    }
  }

  /** The generation counter only grows, and a seat goes offline only together with a new generation. */
  lemma DisconnectCounts(d: Duel, act: Act, side: Side)
    requires Valid(d)
    ensures var s, s' := At(d, side), At(Handle(d, act.at, act.event), side);
            s.discGen <= s'.discGen && (s'.disconnected && s'.discGen == s.discGen ==> s.disconnected)
  {
    HandleIsMoves(d, act.at, act.event, side);
  }

  lemma {:induction false} ChecksAlwaysFit(w: World, acts: seq<Act>)
    requires Starts(w) && IsRun(w, acts)
    ensures ChecksFit(w, acts)
  {
    if acts != [] {
      var before, act := acts[..|acts|-1], acts[|acts|-1];
      assert acts == before + [act];
      ChecksAlwaysFit(w, before);
      ChecksStayFit(w, before, act);
    }
  }

  lemma ChecksStayFit(w: World, acts: seq<Act>, act: Act)
    requires Valid(w.duel) && ChecksFit(w, acts) && Possible(After(w, acts), act)
    ensures ChecksFit(w, acts + [act])
  {
    forall c | c in After(w, acts + [act]).checks ensures CheckFits(w, acts + [act], c) { CheckStaysFit(w, acts, act, c); }
  }

  /**
   A forfeit check ends a duel only against a player who dropped at least the reconnect grace
   ago and was offline in every state since: a reconnect voids every earlier check.
   */
  lemma TimeoutForfeitIsEarned(w: World, acts: seq<Act>, act: Act)
    requires Starts(w) && IsRun(w, acts + [act]) && act.event.ForfeitCheck?
    requires After(w, acts + [act]).duel.phase == Finished
    ensures exists j, due :: OfflineSince(w, acts, act.event.pid, j, due) && due <= act.at
    ensures After(w, acts + [act]).duel.quitter == Some(act.event.pid)
  {
    var all := acts + [act];
    assert all[..|all|-1] == acts && all[|all|-1] == act;
    ChecksAlwaysFit(w, acts);
    var u := After(w, acts);
    assert Possible(u, act);
    var c :| c in u.checks && c.pid == act.event.pid && c.gen == act.event.gen && c.due <= act.at;
    assert CheckFits(w, acts, c);
    var j :| AbsentSince(w, acts, c.pid, j, c.due);
    AbsentIsOffline(w, acts, c.pid, j, c.due);
  }
}
