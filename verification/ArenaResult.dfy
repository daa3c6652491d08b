/** From a finished duel to the rating store: the numbers handed over tell the recorded verdict. */
module ArenaResult {
  import opened Options
  import opened ArenaRules
  import opened ArenaDuel
  import opened ArenaDuelRuns
  import ArenaRating

  /** A rated duel's recorded outcomes are the outcomes of the scores it reports, forfeits included. */
  lemma ReportedScoresTellOutcome(d: Duel)
    requires Valid(d) && EndFits(d) && Rated(d)
    ensures Outcomes(d) == OutcomeFromScores(RatingScores(d).0, RatingScores(d).1)
  {}

  /** What the finish of duel d hands to the rating store. */
  function Reported(d: Duel): ArenaRating.Game {
    ArenaRating.Game(d.a.id, d.b.id, RatingScores(d).0, RatingScores(d).1)
  }

  /**
   Whatever ratings the transaction read, a rated duel's deltas are opposite, bounded by K, and
   the recorded winner never loses points nor the recorded loser gains any.
   */
  lemma RatingFollowsOutcome(w: World, acts: seq<Act>, u: ArenaRating.Setup, id: int, ra: int, rb: int, bound: int)
    requires Starts(w) && IsRun(w, acts) && Rated(After(w, acts).duel)
    requires ArenaRating.Sound(u) && Factor(u.k) <= bound as real
    requires u.game(id) == Reported(After(w, acts).duel)
    ensures u.p(rb - ra) > 0.0 && u.p(ra - rb) > 0.0
    ensures var d := ArenaRating.Deltas(u, u.game(id), ra, rb);
            var (outA, outB) := Outcomes(After(w, acts).duel);
            && d.deltaA + d.deltaB == 0 && -bound <= d.deltaA <= bound
            && (outA == Won ==> d.deltaA >= 0 >= d.deltaB) && (outA == Lost ==> d.deltaA <= 0 <= d.deltaB)
            && (outB == Won ==> d.deltaB >= 0 >= d.deltaA) && (outB == Lost ==> d.deltaB <= 0 <= d.deltaA)
  {
    CompletedMeansBothDone(w, acts);
    ReportedScoresTellOutcome(After(w, acts).duel);
    ArenaRating.DeltasAreFair(u, id, ra, rb, bound);
  }

  /** Who won: the higher score of a completed duel, the one who stayed, nobody when both dropped or the server stopped. */
  ghost predicate RightOutcome(d: Duel) {
    && (d.endReason == Some(Completed) ==>
          && (Outcomes(d) == (Won, Lost) <==> d.a.score > d.b.score)
          && (Outcomes(d) == (Lost, Won) <==> d.a.score < d.b.score)
          && (Outcomes(d) == (Draw, Draw) <==> d.a.score == d.b.score))
    && (d.endReason == Some(Forfeit) ==>
          && (Outcomes(d) == (Lost, Won) <==> d.quitter == Some(d.a.id))
          && (Outcomes(d) == (Won, Lost) <==> d.quitter == Some(d.b.id)))
    && (d.endReason == Some(BothDisconnected) || d.endReason == Some(ServerShutdown) ==> Outcomes(d) == (Draw, Draw))
    && (Rated(d) <==> d.ranked && d.endReason != Some(BothDisconnected) && d.endReason != Some(ServerShutdown))
  }

  lemma OutcomeIsRight(d: Duel)
    requires Valid(d) && EndFits(d) && d.phase == Finished
    ensures RightOutcome(d)
  {
    match d.endReason.value
    case Completed =>
    case Forfeit =>
    case BothDisconnected =>
    case ServerShutdown =>
  }

  /** The outcome of every finished run is the right one. */
  lemma OutcomesAreRight(w: World, acts: seq<Act>)
    requires Starts(w) && IsRun(w, acts) && After(w, acts).duel.phase == Finished
    ensures RightOutcome(After(w, acts).duel)
  {
    CompletedMeansBothDone(w, acts);
    OutcomeIsRight(After(w, acts).duel);
  }

  /** The numbers a rated duel hands to the rating store: its scores, or 1 to 0 against a quitter. */
  lemma ReportedNumbers(w: World, acts: seq<Act>)
    requires Starts(w) && IsRun(w, acts) && Rated(After(w, acts).duel)
    ensures var d := After(w, acts).duel;
            RatingScores(d) == if d.endReason == Some(Completed) then (d.a.score, d.b.score)
                               else if d.quitter == Some(d.a.id) then (0, 1) else (1, 0)
  {
    CompletedMeansBothDone(w, acts);
  }
}
