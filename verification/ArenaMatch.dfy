/**
 The match loop as it is written: two seat objects mutated in place by one writer. Every method
 is proved to do to the fields what the duel state machine does to values.
 */
module ArenaMatch {
  import opened Options
  import opened ArenaRules
  import opened ArenaDuel
  import opened ArenaDuelRuns

  datatype Mark = Correct | Wrong | Skipped

  function MarkOf(v: Verdict): Mark { if !v.answered then Skipped else if v.correct then Correct else Wrong }

  class SeatObject {
    const id: Id
    const bot: bool
    const answers: array<Verdict>
    var index: nat
    var state: SeatState
    var deadline: int
    var nextAt: int
    var botAt: int
    var score: int
    var correctN: int
    var responseSum: int
    var disconnected: bool
    var discGen: nat

    constructor (id: Id, bot: bool, n: nat)
      ensures View() == FreshSeat(id, bot, n) && fresh(answers)
    {
      this.id, this.bot := id, bot;
      answers := new Verdict[n](_ => NO_VERDICT);
      index, state := 0, Waiting;
      deadline, nextAt, botAt := 0, 0, 0;
      score, correctN, responseSum := 0, 0, 0;
      disconnected, discGen := false, 0;
      new;
      assert answers[..] == seq(n, _ => NO_VERDICT);
    }

    ghost function View(): Seat
      reads this, answers
    {
      Seat(id, bot, index, state, deadline, nextAt, botAt, answers[..], score, correctN, responseSum,
           disconnected, discGen)
    }

    method StartQuestion(index: nat, now: int, draw: Chance)
      modifies this
      ensures View() == ArenaDuel.StartQuestion(old(View()), index, now, draw)
    {
      this.index := index;
      state := Active;
      deadline := now + Q_TIME;
      if bot {
        botAt := now + BotDelay(draw.delay, Q_TIME);
      }
    }

    method Resolve(v: Verdict, now: int)
      requires index < answers.Length
      modifies this, answers
      ensures View() == ArenaDuel.Resolve(old(View()), v, now)
    {
      answers[index] := v;
      assert answers[..] == old(answers[..])[index := v];
      score := score + v.points;
      if v.correct {
        correctN := correctN + 1;
      }
      if v.answered {
        responseSum := responseSum + v.responseMs;
      }
      state := Reveal;
      nextAt := now + REVEAL_FOR;
    }

    /** One mark for each verdict so far, oldest first. */
    method Marks(total: nat) returns (out: seq<Mark>)
      requires ResolvedCount(View()) <= answers.Length
      ensures |out| == (if ResolvedCount(View()) > total then total else ResolvedCount(View()))
      ensures forall i :: 0 <= i < |out| ==> out[i] == MarkOf(answers[i])
    {
      var n := if state == Reveal then index + 1 else if state == Done then answers.Length else index;
      if n > total {
        n := total;
      }
      out := [];
      for i := 0 to n
        invariant |out| == i
        invariant forall k :: 0 <= k < i ==> out[k] == MarkOf(answers[k])
      {
        out := out + [MarkOf(answers[i])];
      }
    }
  }

  class Match {
    const ranked: bool
    const questions: seq<Question>
    const a: SeatObject
    const b: SeatObject
    var phase: Phase
    const startAt: int
    var endReason: Option<EndReason>
    var quitter: Option<Id>

    ghost const Repr: set<object> := {this, a, b, a.answers, b.answers}

    ghost predicate Separate() { a != b && a.answers != b.answers }

    ghost function View(): Duel
      reads Repr
    {
      Duel(ranked, questions, a.View(), b.View(), phase, startAt, endReason, quitter)
    }

    ghost predicate Ok()
      reads Repr
    {
      Separate() && Valid(View())
    }

    constructor (ranked: bool, questions: seq<Question>, idA: Id, idB: Id, botB: bool, startAt: int)
      requires idA != idB && 1 <= |questions|
      ensures Ok() && fresh(Repr)
      ensures View() == NewDuel(ranked, questions, idA, idB, botB, startAt)
    {
      this.ranked, this.questions, this.startAt := ranked, questions, startAt;
      var seatA := new SeatObject(idA, false, |questions|);
      var seatB := new SeatObject(idB, botB, |questions|);
      a, b := seatA, seatB;
      phase, endReason, quitter := Pending, None, None;
    }

    function SeatOf(side: Side): SeatObject { if side == A then a else b }

    method Finish(reason: EndReason)
      modifies this
      ensures View() == ArenaDuel.Finish(old(View()), reason)
    {
      if phase == Finished {
        return;
      }
      phase := Finished;
      endReason := Some(reason);
    }

    method Advance(side: Side, now: int, draw: Chance)
      requires Ok() && phase == Running && SeatOf(side).state == Reveal
      modifies this, a, b
      ensures Ok() && View() == ArenaDuel.Advance(old(View()), side, now, draw)
    {
      var s := SeatOf(side);
      var opp := SeatOf(Opposite(side));
      s.index := s.index + 1;
      if s.index < |questions| {
        s.StartQuestion(s.index, now, draw);
        return;
      }
      s.state := Done;
      if opp.state == Done {
        Finish(Completed);
      }
    }

    method BotAnswer(side: Side, now: int, draw: Chance)
      requires Ok() && phase == Running && At(View(), side).state == Active
      modifies Repr
      ensures Ok()
      ensures var s := old(At(View(), side));
              View() == Put(old(View()), side, ArenaDuel.Resolve(s, BotVerdict(questions[s.index], s, now, draw), now))
    {
      var s := SeatOf(side);
      var q := questions[s.index];
      var pick := if q.valid.Some? && draw.pick in q.valid.value then draw.pick else q.correct;
      var resp := Millis(now - (s.deadline - Q_TIME));
      var v := ScoreAnswer(q, pick, resp, now);
      assert v == BotVerdict(q, At(View(), side), now, draw);
      s.Resolve(v, now);
    }

    method TimerSeat(side: Side, now: int, draw: Chance)
      requires Ok() && phase == Running
      modifies Repr
      ensures Ok() && View() == ArenaDuel.TimerSeat(old(View()), side, now, draw)
    {
      var s := SeatOf(side);
      match s.state
      case Active =>
        if s.bot && now >= s.botAt {
          BotAnswer(side, now, draw);
        } else if !s.bot && now >= s.deadline + ANSWER_GRACE {
          s.Resolve(NO_VERDICT, now);
        }
      case Reveal =>
        if now >= s.nextAt {
          Advance(side, now, draw);
        }
      case _ =>
    }

    method OnTimer(now: int, drawA: Chance, drawB: Chance)
      requires Ok()
      modifies Repr
      ensures Ok() && View() == ArenaDuel.OnTimer(old(View()), now, drawA, drawB)
    {
      if phase == Pending {
        if now < startAt {
          return;
        }
        phase := Running;
        a.StartQuestion(0, now, drawA);
        b.StartQuestion(0, now, drawB);
        return;
      }
      if phase != Running {
        return;
      }
      TimerSeat(A, now, drawA);
      if phase == Finished {
        return;
      }
      TimerSeat(B, now, drawB);
    }

    method OnAnswer(side: Side, now: int, index: int, answerId: Id)
      requires Ok()
      modifies Repr
      ensures Ok() && View() == ArenaDuel.OnAnswer(old(View()), side, now, index, answerId)
    {
      var s := SeatOf(side);
      if phase != Running || s.state != Active {
        return;
      }
      if index != s.index {
        return;
      }
      if now > s.deadline + ANSWER_GRACE {
        return;
      }
      var q := questions[s.index];
      if q.valid.Some? && answerId !in q.valid.value {
        return;
      }
      var resp := Millis(now - (s.deadline - Q_TIME));
      s.Resolve(ScoreAnswer(q, answerId, resp, now), now);
    }

    method OnDisconnect(side: Side)
      requires Ok()
      modifies this, a, b
      ensures Ok() && View() == ArenaDuel.OnDisconnect(old(View()), side)
    {
      var s := SeatOf(side);
      var opp := SeatOf(Opposite(side));
      if s.disconnected {
        return;
      }
      s.disconnected := true;
      s.discGen := s.discGen + 1;
      if opp.disconnected && !opp.bot {
        Finish(BothDisconnected);
      }
    }

    method HandlePlayer(now: int, ev: Event, side: Side)
      requires Ok() && !ev.Timer? && !ev.Abort?
      modifies Repr
      ensures Ok() && View() == ArenaDuel.HandlePlayer(old(View()), now, ev, side)
    {
      var s := SeatOf(side);
      match ev
      case Answer(_, index, answerId) =>
        OnAnswer(side, now, index, answerId);
      case Disconnect(_) =>
        OnDisconnect(side);
      case ForfeitCheck(_, gen) =>
        if s.disconnected && s.discGen == gen && phase != Finished {
          quitter := Some(s.id);
          Finish(Forfeit);
        }
      case Reconnect(_) =>
        if s.disconnected {
          s.disconnected := false;
        }
      case Leave(_) =>
        quitter := Some(s.id);
        Finish(Forfeit);
    }

    method Handle(now: int, ev: Event)
      requires Ok()
      modifies Repr
      ensures Ok() && View() == ArenaDuel.Handle(old(View()), now, ev)
    {
      match ev
      case Timer(drawA, drawB) =>
        OnTimer(now, drawA, drawB);
      case Abort =>
        Finish(ServerShutdown);
      case _ =>
        if a.id == ev.pid {
          if !a.bot {
            HandlePlayer(now, ev, A);
          }
        } else if b.id == ev.pid {
          if !b.bot {
            HandlePlayer(now, ev, B);
          }
        }
    }

    /** The event loop: handles events until the match is finished or none is left. */
    method Run(inbox: seq<Act>) returns (handled: nat)
      requires Ok()
      modifies Repr
      ensures Ok() && handled <= |inbox|
      ensures View() == After(World(old(View()), {}, 0), inbox[..handled]).duel
      ensures phase == Finished || handled == |inbox|
    {
      ghost var w := World(View(), {}, 0);
      handled := 0;
      while phase != Finished && handled < |inbox|
        invariant Ok() && handled <= |inbox|
        invariant View() == After(w, inbox[..handled]).duel
        decreases |inbox| - handled
      {
        assert inbox[..handled + 1][..handled] == inbox[..handled];
        Handle(inbox[handled].at, inbox[handled].event);
        handled := handled + 1;
      }
    }
  }
}
