/**
 What reuse detection reaches. Its one statement revokes the rows of a snapshot, one after another; a rotation that
 gets to a row first replaces it by a row the statement does not know.
 */
module RefreshRevocation {
  import opened RefreshTable
  import opened RefreshRotation

  /** A live token of p that goes back to a sign-in already in db0. */
  ghost predicate Survives(db0: Db, db: Db, t: Token, p: Profile) {
    Live(db, t) && Owned(db, t, p) && db.born[t].root in db0.born
  }

  /** The revocation w of p still has t before it, or holds it. */
  ghost predicate Reaches(db: Db, w: Sweeper, t: Token) {
    w in db.sweeps && (t in db.sweeps[w].left || LockedBy(db, t, w))
  }

  /** r, of the snapshot, was rotated, and its chain is that of root. */
  ghost predicate RotatedRow(db0: Db, db: Db, p: Profile, r: Token, root: Token) {
    r in SnapshotOf(db0, p) && r in db.successor && r in db.born && db.born[r].root == root
  }

  ghost predicate Missed(db0: Db, db: Db, p: Profile, root: Token) { exists r :: RotatedRow(db0, db, p, r, root) }

  /** Since w began on table db0, each survivor is still to be revoked by w, or its chain slipped away. */
  ghost predicate Window(db0: Db, db: Db, w: Sweeper, p: Profile) {
    && (w in db.sweeps ==> db.sweeps[w].left <= SnapshotOf(db0, p))
    && (forall t :: Survives(db0, db, t, p) ==> Reaches(db, w, t) || Missed(db0, db, p, db.born[t].root))
  }

  lemma SnapshotIsBorn(db0: Db, p: Profile, t: Token)
    requires DbInv(db0) && t in SnapshotOf(db0, p)
    ensures Owned(db0, t, p) && db0.born[t].root in db0.born && db0.born[db0.born[t].root].profile == p
  {
    assert RowFits(db0, t) && RootFits(db0, t);
  }

  lemma WindowOpens(db0: Db, w: Sweeper, p: Profile)
    requires DbInv(db0) && w !in db0.sweeps
    ensures Window(db0, ApplyMove(db0, Snapshot(w, p)), w, p)
  {
    var r := ApplyMove(db0, Snapshot(w, p));
    forall t | Survives(db0, r, t, p) ensures Reaches(r, w, t) { assert RowFits(db0, t); }
  }

  /** Survivors come from survivors: a token stays, or is the successor of one. */
  lemma SurvivorWas(db0: Db, db: Db, move: DbMove, t: Token, p: Profile)
    requires DbInv(db) && MoveFits(db, move) && Grows(db0, db) && DbInv(db0) && Survives(db0, ApplyMove(db, move), t, p)
    ensures || Survives(db0, db, t, p)
            || (&& move.Commit? && move.raw in db.open && Survives(db0, db, move.raw, p)
                && t == db.open[move.raw].pair.refresh && ApplyMove(db, move).born[t].root == db.born[move.raw].root)
  {
    if move.Commit? {
      if move.raw in db.open { CommittedSurvivorWas(db0, db, move.raw, t, p); }
    } else {
      QuietSurvivorWas(db0, db, move, t, p);
    }
  }

  lemma CommittedSurvivorWas(db0: Db, db: Db, raw: Token, t: Token, p: Profile)
    requires DbInv(db) && raw in db.open && raw in db.rows && Survives(db0, CommitRow(db, raw), t, p)
    ensures || Survives(db0, db, t, p)
            || (&& Survives(db0, db, raw, p) && t == db.open[raw].pair.refresh
                && CommitRow(db, raw).born[t].root == db.born[raw].root)
  {
    assert OpenFits(db, raw) && RowFits(db, raw);
  }

  lemma QuietSurvivorWas(db0: Db, db: Db, move: DbMove, t: Token, p: Profile)
    requires DbInv(db) && DbInv(db0) && Grows(db0, db) && !move.Commit? && Survives(db0, ApplyMove(db, move), t, p)
    ensures Survives(db0, db, t, p)
  {
    if move.Insert? {
      if t in db.rows { assert RowFits(db, t); }
    } else if t in db.rows {
      LiveWas(db, move, t);
    } else {
      OnlyInsertAdds(db, move, t);
    }
  }

  lemma LiveWas(db: Db, move: DbMove, t: Token)
    requires !move.Commit? && !move.Insert? && t in db.rows && Live(ApplyMove(db, move), t)
    ensures Live(db, t) && ApplyMove(db, move).born == db.born
  {
    if move.EndSweep? { EndRevokesOnly(db, move.w, move.ok, t); }
  }

  lemma EndRevokesOnly(db: Db, w: Sweeper, ok: bool, t: Token)
    requires t in db.rows
    ensures t in EndedSweep(db, w, ok).rows && (db.rows[t].revoked ==> EndedSweep(db, w, ok).rows[t].revoked)
  {}

  lemma OnlyInsertAdds(db: Db, move: DbMove, t: Token)
    requires !move.Commit? && t !in db.rows && t in ApplyMove(db, move).rows
    ensures move.Insert? && t == db.next && ApplyMove(db, move).born[t].root == db.next
  {}

  lemma MissedStays(db0: Db, db: Db, r: Db, p: Profile, root: Token)
    requires Grows(db, r) && Missed(db0, db, p, root)
    ensures Missed(db0, r, p, root)
  {
    var x :| RotatedRow(db0, db, p, x, root);
    assert RotatedRow(db0, r, p, x, root);
  }

  /** A row that w is to revoke stays so until it is revoked. */
  lemma ReachesStays(db: Db, move: DbMove, w: Sweeper, t: Token)
    requires DbInv(db) && Reaches(db, w, t) && Live(ApplyMove(db, move), t) && move != EndSweep(w, false)
    ensures Reaches(ApplyMove(db, move), w, t)
  {}

  lemma CommitMisses(db0: Db, db: Db, raw: Token, w: Sweeper, p: Profile)
    requires DbInv(db) && Window(db0, db, w, p) && raw in db.open && Survives(db0, db, raw, p)
    ensures raw in db.rows && Grows(db, CommitRow(db, raw))
    ensures Missed(db0, CommitRow(db, raw), p, db.born[raw].root)
  {
    assert OpenFits(db, raw);
    CommitGrows(db, raw);
    if Missed(db0, db, p, db.born[raw].root) {
      MissedStays(db0, db, CommitRow(db, raw), p, db.born[raw].root);
    } else {
      assert RotatedRow(db0, CommitRow(db, raw), p, raw, db.born[raw].root);
    }
  }

  lemma SurvivorInWindow(db0: Db, db: Db, move: DbMove, w: Sweeper, p: Profile, t: Token)
    requires DbInv(db0) && DbInv(db) && MoveFits(db, move) && Grows(db0, db) && Window(db0, db, w, p)
    requires move != EndSweep(w, false) && Survives(db0, ApplyMove(db, move), t, p)
    ensures Reaches(ApplyMove(db, move), w, t) || Missed(db0, ApplyMove(db, move), p, ApplyMove(db, move).born[t].root)
  {
    var r := ApplyMove(db, move);
    MoveKeepsDb(db, move);
    SurvivorWas(db0, db, move, t, p);
    if Survives(db0, db, t, p) {
      if Reaches(db, w, t) { ReachesStays(db, move, w, t); } else { MissedStays(db0, db, r, p, db.born[t].root); }
    } else {
      CommitMisses(db0, db, move.raw, w, p);
    }
  }

  lemma MoveKeepsWindow(db0: Db, db: Db, move: DbMove, w: Sweeper, p: Profile)
    requires DbInv(db0) && DbInv(db) && MoveFits(db, move) && Grows(db0, db) && Window(db0, db, w, p)
    requires move != EndSweep(w, false) && (w in db.sweeps || !(move.Snapshot? && move.w == w))
    ensures Window(db0, ApplyMove(db, move), w, p)
  {
    var r := ApplyMove(db, move);
    forall t | Survives(db0, r, t, p) ensures Reaches(r, w, t) || Missed(db0, r, p, r.born[t].root) {
      SurvivorInWindow(db0, db, move, w, p, t);
    }
  }

  // ---------------------------------------------------------------- one revocation, from snapshot to commit

  /** Caller c is about to revoke everything of p. */
  ghost predicate AboutToRevoke(s: State, c: Caller, p: Profile) { c in s.calls && s.calls[c].pc == RevokeAll(p) }

  /** The statement begins in s, `during` happens, and the statement has come to the end of its snapshot. */
  ghost predicate Completes(s: State, c: Caller, p: Profile, begin: Ending, during: seq<Act>, end: Ending) {
    && AboutToRevoke(s, c, p) && begin != DbError && end != DbError
    && MayEnd(Run(Step(s, Do(c, begin)), during).db, OfCall(c), true)
  }

  ghost function Ended(s: State, c: Caller, begin: Ending, during: seq<Act>, end: Ending): State {
    Step(Run(Step(s, Do(c, begin)), during), Do(c, end))
  }

  lemma Begins(s: State, c: Caller, p: Profile, begin: Ending)
    requires Inv(s) && AboutToRevoke(s, c, p) && begin != DbError
    ensures OfCall(c) !in s.db.sweeps
    ensures Step(s, Do(c, begin)).db == ApplyMove(s.db, Snapshot(OfCall(c), p))
    ensures c in Step(s, Do(c, begin)).calls && Step(s, Do(c, begin)).calls[c].pc == Sweeping(p)
  {}

  ghost predicate PastSnapshot(s: State, c: Caller) { c in s.calls && (s.calls[c].pc.Sweeping? || Returned(s.calls[c].pc)) }

  lemma PastStays(s: State, act: Act, c: Caller)
    requires PastSnapshot(s, c)
    ensures PastSnapshot(Step(s, act), c) && !(MoveOf(s, act).Snapshot? && MoveOf(s, act).w == OfCall(c))
  {}

  /** Only c itself ends its revocation, and after a rollback it is over for good. */
  lemma SweepGoesOn(s: State, act: Act, c: Caller)
    requires Inv(s) && PastSnapshot(s, c) && OfCall(c) in Step(s, act).db.sweeps
    ensures OfCall(c) in s.db.sweeps && !(MoveOf(s, act).EndSweep? && MoveOf(s, act).w == OfCall(c) && !MoveOf(s, act).ok)
  {
    PastStays(s, act, c);
    StepIsMove(s, act);
    SweepIsOldOrNew(s.db, MoveOf(s, act), OfCall(c));
  }

  lemma {:induction false} WindowDuring(s: State, c: Caller, p: Profile, begin: Ending, during: seq<Act>)
    requires Inv(s) && AboutToRevoke(s, c, p) && begin != DbError
    ensures var u := Run(Step(s, Do(c, begin)), during);
            && Inv(u) && Grows(s.db, u.db) && PastSnapshot(u, c)
            && (OfCall(c) in u.db.sweeps ==> Window(s.db, u.db, OfCall(c), p))
  {
    var s1 := Step(s, Do(c, begin));
    if during == [] {
      Begins(s, c, p, begin);
      StepKeepsInv(s, Do(c, begin));
      WindowOpens(s.db, OfCall(c), p);
    } else {
      var before, act := Run(s1, during[..|during|-1]), during[|during|-1];
      WindowDuring(s, c, p, begin, during[..|during|-1]);
      WindowStep(s.db, before, act, c, p);
    }
  }

  lemma WindowStep(db0: Db, s: State, act: Act, c: Caller, p: Profile)
    requires DbInv(db0) && Inv(s) && Grows(db0, s.db) && PastSnapshot(s, c)
    requires OfCall(c) in s.db.sweeps ==> Window(db0, s.db, OfCall(c), p)
    ensures Inv(Step(s, act)) && Grows(db0, Step(s, act).db) && PastSnapshot(Step(s, act), c)
    ensures OfCall(c) in Step(s, act).db.sweeps ==> Window(db0, Step(s, act).db, OfCall(c), p)
  {
    StepKeepsInv(s, act);
    PastStays(s, act, c);
    if OfCall(c) in Step(s, act).db.sweeps {
      SweepGoesOn(s, act, c);
      StepIsMove(s, act);
      MoveKeepsWindow(db0, s.db, MoveOf(s, act), OfCall(c), p);
    }
  }

  lemma EndMove(u: State, c: Caller, end: Ending)
    requires Inv(u) && MayEnd(u.db, OfCall(c), true) && end != DbError
    ensures c in u.calls && MoveOf(u, Do(c, end)) == EndSweep(OfCall(c), true)
  {}

  /** When the statement commits, what survives of p are chains with a snapshot row that was rotated before its visit. */
  lemma SurvivorsWereMissed(s: State, c: Caller, p: Profile, begin: Ending, during: seq<Act>, end: Ending)
    requires Inv(s) && Completes(s, c, p, begin, during, end)
    ensures var fin := Ended(s, c, begin, during, end);
            && Inv(fin) && Grows(s.db, fin.db)
            && forall t :: Survives(s.db, fin.db, t, p) ==> Missed(s.db, fin.db, p, fin.db.born[t].root)
  {
    WindowDuring(s, c, p, begin, during);
    WindowCloses(s.db, Run(Step(s, Do(c, begin)), during), c, p, end);
  }

  lemma WindowCloses(db0: Db, u: State, c: Caller, p: Profile, end: Ending)
    requires DbInv(db0) && Inv(u) && Grows(db0, u.db) && MayEnd(u.db, OfCall(c), true) && end != DbError
    requires Window(db0, u.db, OfCall(c), p)
    ensures var fin := Step(u, Do(c, end));
            && Inv(fin) && Grows(db0, fin.db)
            && forall t :: Survives(db0, fin.db, t, p) ==> Missed(db0, fin.db, p, fin.db.born[t].root)
  {
    EndMove(u, c, end);
    StepIsMove(u, Do(c, end));
    StepKeepsInv(u, Do(c, end));
    ClosedWindow(db0, u.db, OfCall(c), p);
  }

  lemma ClosedWindow(db0: Db, db: Db, w: Sweeper, p: Profile)
    requires DbInv(db0) && DbInv(db) && Grows(db0, db) && MayEnd(db, w, true) && Window(db0, db, w, p)
    ensures var r := ApplyMove(db, EndSweep(w, true));
            forall t :: Survives(db0, r, t, p) ==> Missed(db0, r, p, r.born[t].root)
  {
    MoveKeepsWindow(db0, db, EndSweep(w, true), w, p);
  }

  // ---------------------------------------------------------------- for good

  ghost predicate NoneSurvive(db0: Db, db: Db, p: Profile) { forall t :: !Survives(db0, db, t, p) }

  lemma {:induction false} NoneSurviveEver(db0: Db, s: State, more: seq<Act>, p: Profile)
    requires DbInv(db0) && Inv(s) && Grows(db0, s.db) && NoneSurvive(db0, s.db, p)
    ensures NoneSurvive(db0, Run(s, more).db, p)
  {
    if more != [] {
      var before, act := Run(s, more[..|more|-1]), more[|more|-1];
      RunKeepsInv(s, more[..|more|-1]);
      NoneSurviveEver(db0, s, more[..|more|-1], p);
      StepIsMove(before, act);
      forall t ensures !Survives(db0, Step(before, act).db, t, p) {
        if Survives(db0, Step(before, act).db, t, p) { SurvivorWas(db0, before.db, MoveOf(before, act), t, p); }
      }
    }
  }

  /** In every continuation, every live token of p goes back to a sign-in made after the statement began. */
  ghost predicate FinalFor(db0: Db, fin: State, p: Profile) { forall more :: NoneSurvive(db0, Run(fin, more).db, p) }

  lemma FinalIsNow(db0: Db, fin: State, p: Profile)
    requires DbInv(db0) && Inv(fin) && Grows(db0, fin.db)
    ensures FinalFor(db0, fin, p) <==> NoneSurvive(db0, fin.db, p)
  {
    assert Run(fin, []) == fin;
    if NoneSurvive(db0, fin.db, p) {
      forall more ensures NoneSurvive(db0, Run(fin, more).db, p) { NoneSurviveEver(db0, fin, more, p); }
    }
  }

  /** No row of the snapshot was rotated before the statement came to it. */
  ghost predicate NoneRotated(db0: Db, db: Db, p: Profile) { forall r :: r in SnapshotOf(db0, p) ==> r !in db.successor }

  /** Under every interleaving: if no row of its snapshot is rotated before its visit, reuse detection is final. */
  lemma FinalIfNoneRotated(acts: seq<Act>, c: Caller, p: Profile, begin: Ending, during: seq<Act>, end: Ending)
    requires Completes(Run(EMPTY, acts), c, p, begin, during, end)
    requires NoneRotated(Run(EMPTY, acts).db, Ended(Run(EMPTY, acts), c, begin, during, end).db, p)
    ensures FinalFor(Run(EMPTY, acts).db, Ended(Run(EMPTY, acts), c, begin, during, end), p)
  {
    var s := Run(EMPTY, acts);
    RunKeepsInv(EMPTY, acts);
    SurvivorsWereMissed(s, c, p, begin, during, end);
    FinalIsNow(s.db, Ended(s, c, begin, during, end), p);
  }

  // ---------------------------------------------------------------- exactly

  /** The newest token of r's chain is live. */
  ghost predicate ChainLives(db: Db, r: Token) {
    r in db.born && db.born[r].root in db.head && Live(db, db.head[db.born[r].root])
  }

  lemma LiveChainSurvives(db0: Db, db: Db, r: Token, p: Profile)
    requires DbInv(db0) && DbInv(db) && Grows(db0, db) && r in SnapshotOf(db0, p) && ChainLives(db, r)
    ensures Survives(db0, db, db.head[db.born[r].root], p)
  {
    SnapshotIsBorn(db0, p, r);
    assert HeadFits(db, db.born[r].root);
    assert RootFits(db, db.head[db.born[r].root]) && RootFits(db, r);
  }

  lemma SurvivorHeadsChain(db: Db, t: Token)
    requires DbInv(db) && Live(db, t)
    ensures t in db.born && db.born[t].root in db.head && db.head[db.born[t].root] == t
  {
    assert RowFits(db, t);
  }

  ghost predicate MissedChainsDead(db0: Db, db: Db, p: Profile) {
    forall r :: r in SnapshotOf(db0, p) && r in db.successor ==> !ChainLives(db, r)
  }

  lemma SurvivorsAreMissedChains(db0: Db, db: Db, p: Profile)
    requires DbInv(db0) && DbInv(db) && Grows(db0, db)
    requires forall t :: Survives(db0, db, t, p) ==> Missed(db0, db, p, db.born[t].root)
    ensures NoneSurvive(db0, db, p) <==> MissedChainsDead(db0, db, p)
  {
    forall r | r in SnapshotOf(db0, p) && r in db.successor && ChainLives(db, r) ensures !NoneSurvive(db0, db, p) {
      LiveChainSurvives(db0, db, r, p);
    }
    forall t | Survives(db0, db, t, p) ensures !MissedChainsDead(db0, db, p) {
      SurvivorHeadsChain(db, t);
      var r :| RotatedRow(db0, db, p, r, db.born[t].root);
      assert ChainLives(db, r);
    }
  }

  /**
   Reuse detection is final if and only if, when it commits, every snapshot row that was rotated before its visit
   has lost its whole chain since, by a logout or another revocation.
   */
  lemma FinalExactly(acts: seq<Act>, c: Caller, p: Profile, begin: Ending, during: seq<Act>, end: Ending)
    requires Completes(Run(EMPTY, acts), c, p, begin, during, end)
    ensures var fin := Ended(Run(EMPTY, acts), c, begin, during, end);
            FinalFor(Run(EMPTY, acts).db, fin, p) <==> MissedChainsDead(Run(EMPTY, acts).db, fin.db, p)
  {
    var s := Run(EMPTY, acts);
    var fin := Ended(s, c, begin, during, end);
    RunKeepsInv(EMPTY, acts);
    SurvivorsWereMissed(s, c, p, begin, during, end);
    FinalIsNow(s.db, fin, p);
    SurvivorsAreMissedChains(s.db, fin.db, p);
  }

  // ---------------------------------------------------------------- and with nobody else at work on the profile

  /** w is the only revocation of p under way. */
  ghost predicate Alone(db: Db, w: Sweeper, p: Profile) { forall v :: v in db.sweeps && db.sweeps[v].profile == p ==> v == w }

  /** No logout of p's tokens and no other revocation of p begins. */
  ghost predicate Calm(db: Db, move: DbMove, p: Profile) {
    !(move.Snapshot? && move.p == p) && !(move.Delete? && Owned(db, move.t, p))
  }

  ghost predicate Undisturbed(s: State, during: seq<Act>, p: Profile) {
    forall i :: 0 <= i < |during| ==> Calm(Run(s, during[..i]).db, MoveOf(Run(s, during[..i]), during[i]), p)
  }

  /** r's chain has gone on to a live token that came after db0 and that nobody holds for revocation. */
  ghost predicate GotAway(db0: Db, db: Db, r: Token) {
    && ChainLives(db, r)
    && db.head[db.born[r].root] !in db0.born && db.head[db.born[r].root] !in db.locked
  }

  ghost predicate AllGotAway(db0: Db, db: Db, p: Profile) {
    forall r :: r in SnapshotOf(db0, p) && r in db.successor ==> GotAway(db0, db, r)
  }

  lemma AloneStays(db: Db, move: DbMove, w: Sweeper, p: Profile)
    requires Alone(db, w, p) && Calm(db, move, p)
    ensures Alone(ApplyMove(db, move), w, p)
  {}

  /** The new token of a commit is live, came after db0, and nobody holds it. */
  lemma CommitHandsOn(db0: Db, db: Db, raw: Token)
    requires DbInv(db) && Grows(db0, db) && raw in db.open
    ensures raw in db.rows && raw in db.born
    ensures var r, n := CommitRow(db, raw), db.open[raw].pair.refresh;
            && db.born[raw].root in r.head && r.head[db.born[raw].root] == n
            && Live(r, n) && n !in db0.born && n !in r.locked
  {
    assert OpenFits(db, raw) && RowFits(db, raw);
    forall t | t in db.locked ensures t in db.born { assert LockFits(db, t) && RowFits(db, t); }
  }

  /** A commit hands its chain on to its new token and leaves the others. */
  lemma CommitGetsAway(db0: Db, db: Db, raw: Token, r: Token)
    requires DbInv(db) && Grows(db0, db) && raw in db.open && r in db.born
    requires raw == r || GotAway(db0, db, r)
    ensures raw in db.rows && GotAway(db0, CommitRow(db, raw), r)
  {
    CommitHandsOn(db0, db, raw);
    CommitGrows(db, raw);
    if db.born[raw].root != db.born[r].root { OtherHeadStays(db0, db, raw, r); }
  }

  lemma OtherHeadStays(db0: Db, db: Db, raw: Token, r: Token)
    requires DbInv(db) && raw in db.open && raw in db.rows && raw in db.born && r in db.born && GotAway(db0, db, r)
    requires db.born[raw].root != db.born[r].root
    ensures GotAway(db0, CommitRow(db, raw), r)
  {
    assert HeadFits(db, db.born[r].root) && OpenFits(db, raw);
  }

  /** Visits come to snapshot rows of this revocation, or to other profiles. */
  lemma VisitSparesHead(db0: Db, db: Db, w: Sweeper, v: Sweeper, t: Token, p: Profile, r: Token)
    requires DbInv(db0) && DbInv(db) && Grows(db0, db) && Window(db0, db, w, p) && Alone(db, w, p)
    requires r in SnapshotOf(db0, p) && GotAway(db0, db, r) && MayVisit(db, v, t)
    ensures t != db.head[db.born[r].root]
  {
    LiveChainSurvives(db0, db, r, p);
    assert SweepFits(db, v);
    if v == w && t in SnapshotOf(db0, p) { SnapshotIsBorn(db0, p, t); }
  }

  lemma LiveStays(db: Db, move: DbMove, h: Token)
    requires Live(db, h) && h !in db.locked && !move.Commit? && move != Delete(h)
    requires move.Visit? && MayVisit(db, move.w, move.t) ==> move.t != h
    requires h < db.next
    ensures Live(ApplyMove(db, move), h) && h !in ApplyMove(db, move).locked
  {}

  lemma HeadIsSame(db: Db, move: DbMove, root: Token)
    requires root in db.head && root < db.next && !move.Commit?
    ensures root in ApplyMove(db, move).head && ApplyMove(db, move).head[root] == db.head[root]
  {}

  lemma HeadStaysLive(db0: Db, db: Db, move: DbMove, w: Sweeper, p: Profile, r: Token)
    requires DbInv(db0) && DbInv(db) && Grows(db0, db) && MoveFits(db, move) && Window(db0, db, w, p) && Alone(db, w, p) && Calm(db, move, p)
    requires r in SnapshotOf(db0, p) && GotAway(db0, db, r)
    ensures GotAway(db0, ApplyMove(db, move), r)
  {
    if move.Commit? {
      if move.raw in db.open { CommitGetsAway(db0, db, move.raw, r); }
    } else {
      var root := db.born[r].root;
      LiveChainSurvives(db0, db, r, p);
      MoveKeepsDb(db, move);
      assert HeadFits(db, root);
      HeadIsSame(db, move, root);
      if move.Visit? && MayVisit(db, move.w, move.t) { VisitSparesHead(db0, db, w, move.w, move.t, p, r); }
      LiveStays(db, move, db.head[root]);
    }
  }

  lemma MoveKeepsAway(db0: Db, db: Db, move: DbMove, w: Sweeper, p: Profile)
    requires DbInv(db0) && DbInv(db) && Grows(db0, db) && MoveFits(db, move) && Window(db0, db, w, p) && Alone(db, w, p) && Calm(db, move, p)
    requires AllGotAway(db0, db, p)
    ensures AllGotAway(db0, ApplyMove(db, move), p)
  {
    var r := ApplyMove(db, move);
    forall x | x in SnapshotOf(db0, p) && x in r.successor ensures GotAway(db0, r, x) {
      if x in db.successor {
        HeadStaysLive(db0, db, move, w, p, x);
      } else {
        SnapshotIsBorn(db0, p, x);
        OnlyCommitRotates(db, move, x);
        CommitGetsAway(db0, db, x, x);
      }
    }
  }

  lemma OnlyCommitRotates(db: Db, move: DbMove, x: Token)
    requires x !in db.successor && x in ApplyMove(db, move).successor
    ensures move == Commit(x) && x in db.open && x in db.rows
  {}

  lemma {:induction false} AwayDuring(s: State, c: Caller, p: Profile, begin: Ending, during: seq<Act>)
    requires Inv(s) && AboutToRevoke(s, c, p) && begin != DbError
    requires Alone(Step(s, Do(c, begin)).db, OfCall(c), p) && Undisturbed(Step(s, Do(c, begin)), during, p)
    requires OfCall(c) in Run(Step(s, Do(c, begin)), during).db.sweeps
    ensures var u := Run(Step(s, Do(c, begin)), during); AllGotAway(s.db, u.db, p) && Alone(u.db, OfCall(c), p)
  {
    var s1 := Step(s, Do(c, begin));
    if during == [] {
      Begins(s, c, p, begin);
      forall r | r in SnapshotOf(s.db, p) ensures r !in s.db.successor { LiveIsUnrotated(s.db, r); }
    } else {
      var front, act := during[..|during|-1], during[|during|-1];
      var before := Run(s1, front);
      WindowDuring(s, c, p, begin, front);
      SweepGoesOn(before, act, c);
      CalmFront(s1, during, p);
      AwayDuring(s, c, p, begin, front);
      StepIsMove(before, act);
      MoveKeepsAway(s.db, before.db, MoveOf(before, act), OfCall(c), p);
      AloneStays(before.db, MoveOf(before, act), OfCall(c), p);
    }
  }

  lemma LiveIsUnrotated(db: Db, t: Token)
    requires DbInv(db) && Live(db, t)
    ensures t !in db.successor
  {
    assert RowFits(db, t);
    forall u | u in db.successor ensures u in db.everRevoked { assert Succeeds(db, u, db.successor[u]); }
  }

  lemma CalmFront(s: State, during: seq<Act>, p: Profile)
    requires during != [] && Undisturbed(s, during, p)
    ensures Undisturbed(s, during[..|during|-1], p)
    ensures Calm(Run(s, during[..|during|-1]).db, MoveOf(Run(s, during[..|during|-1]), during[|during|-1]), p)
  {
    var front := during[..|during|-1];
    forall i | 0 <= i < |front| ensures Calm(Run(s, front[..i]).db, MoveOf(Run(s, front[..i]), front[i]), p) {
      assert front[..i] == during[..i];
    }
  }

  lemma AwayAtTheEnd(s: State, c: Caller, p: Profile, begin: Ending, during: seq<Act>, end: Ending)
    requires Inv(s) && Completes(s, c, p, begin, during, end)
    requires Alone(Step(s, Do(c, begin)).db, OfCall(c), p) && Undisturbed(Step(s, Do(c, begin)), during, p)
    ensures AllGotAway(s.db, Ended(s, c, begin, during, end).db, p)
  {
    var u := Run(Step(s, Do(c, begin)), during);
    WindowDuring(s, c, p, begin, during);
    AwayDuring(s, c, p, begin, during);
    EndMove(u, c, end);
    StepIsMove(u, Do(c, end));
    MoveKeepsAway(s.db, u.db, EndSweep(OfCall(c), true), OfCall(c), p);
  }

  /**
   With no logout and no other revocation of the profile meanwhile, reuse detection is final if and only if no row
   of its snapshot is rotated before the statement comes to it.
   */
  lemma ReuseDetectionIsFinal(acts: seq<Act>, c: Caller, p: Profile, begin: Ending, during: seq<Act>, end: Ending)
    requires Completes(Run(EMPTY, acts), c, p, begin, during, end)
    requires var s1 := Step(Run(EMPTY, acts), Do(c, begin)); Alone(s1.db, OfCall(c), p) && Undisturbed(s1, during, p)
    ensures var fin := Ended(Run(EMPTY, acts), c, begin, during, end);
            FinalFor(Run(EMPTY, acts).db, fin, p) <==> NoneRotated(Run(EMPTY, acts).db, fin.db, p)
  {
    var s := Run(EMPTY, acts);
    var fin := Ended(s, c, begin, during, end);
    RunKeepsInv(EMPTY, acts);
    AwayAtTheEnd(s, c, p, begin, during, end);
    FinalExactly(acts, c, p, begin, during, end);
  }

  // ---------------------------------------------------------------- a run that escapes

  lemma {:induction false} RunOn(s: State, acts: seq<Act>, more: seq<Act>)
    ensures Run(s, acts + more) == Run(Run(s, acts), more)
  {
    if more == [] {
      assert acts + more == acts;
    } else {
      assert (acts + more)[..|acts + more|-1] == acts + more[..|more|-1];
      RunOn(s, acts, more[..|more|-1]);
    }
  }

  lemma RunOne(s: State, act: Act)
    ensures Run(s, [act]) == Step(s, act)
  {
    assert [act][..0] == [];
    assert Run(s, []) == s;
  }

  /** s with caller c at pc. */
  ghost function At(s: State, c: Caller, raw: Token, pc: Pc): State { s.(calls := s.calls[c := Call(raw, pc)]) }

  lemma MoveOn(s: State, c: Caller, raw: Token, pc: Pc, ending: Ending)
    requires !pc.RevokeAll? && !pc.Sweeping? && !pc.Rotate? && !pc.Committing? && !pc.WriteGrace? && (pc.TryClaim? ==> ending != Fine)
    ensures Step(At(s, c, raw, pc), Do(c, ending)) == At(s, c, raw, NextPc(s, c, Call(raw, pc), ending))
  {
    assert s.calls[c := Call(raw, pc)][c := Call(raw, NextPc(s, c, Call(raw, pc), ending))] == s.calls[c := Call(raw, NextPc(s, c, Call(raw, pc), ending))];
  }

  lemma Then(s: State, acts: seq<Act>, act: Act)
    ensures Run(s, acts + [act]) == Step(Run(s, acts), act)
  {
    RunOn(s, acts, [act]);
    RunOne(Run(s, acts), act);
  }

  /** Without Redis, a caller comes to look its token up. */
  lemma ReachesLookup(s: State, c: Caller, raw: Token) returns (acts: seq<Act>)
    requires c !in s.calls
    ensures Run(s, acts) == At(s, c, raw, Lookup)
  {
    acts := [Present(c, raw)];
    RunOne(s, Present(c, raw));
    Then(s, acts, Do(c, RedisError));
    acts := acts + [Do(c, RedisError)];
    MoveOn(s, c, raw, Enter, RedisError);
  }

  /** Without Redis, a caller with a live token reaches the rotation's first write. */
  lemma ReachesRotation(s: State, c: Caller, raw: Token) returns (acts: seq<Act>)
    requires c !in s.calls && Rotatable(s.db, raw) && s.db.rows[raw].profile !in s.inactive
    ensures Run(s, acts) == At(s, c, raw, Rotate(s.db.rows[raw].profile))
  {
    var p := s.db.rows[raw].profile;
    acts := ReachesLookup(s, c, raw);
    Then(s, acts, Do(c, Fine));
    acts := acts + [Do(c, Fine)];
    MoveOn(s, c, raw, Lookup, Fine);
    Then(s, acts, Do(c, RedisError));
    acts := acts + [Do(c, RedisError)];
    MoveOn(s, c, raw, TryClaim(p), RedisError);
    Then(s, acts, Do(c, Fine));
    acts := acts + [Do(c, Fine)];
    MoveOn(s, c, raw, LoadProfile(p), Fine);
  }

  /** Without Redis, a caller with a revoked token reaches the revocation. */
  lemma ReachesRevocation(s: State, c: Caller, raw: Token) returns (acts: seq<Act>)
    requires c !in s.calls && raw in s.db.rows && s.db.rows[raw].revoked
    ensures Run(s, acts) == At(s, c, raw, RevokeAll(s.db.rows[raw].profile))
  {
    var p := s.db.rows[raw].profile;
    acts := ReachesLookup(s, c, raw);
    Then(s, acts, Do(c, Fine));
    acts := acts + [Do(c, Fine)];
    MoveOn(s, c, raw, Lookup, Fine);
    Then(s, acts, Do(c, RedisError));
    acts := acts + [Do(c, RedisError)];
    MoveOn(s, c, raw, SawRevoked(p), RedisError);
    Then(s, acts, Do(c, RedisError));
    acts := acts + [Do(c, RedisError)];
    MoveOn(s, c, raw, AskClaim(p), RedisError);
  }

  /** A caller that rotates up to its write: the rotation is under way. */
  lemma ReachesWrite(s: State, c: Caller, raw: Token) returns (acts: seq<Act>)
    requires c !in s.calls && Rotatable(s.db, raw) && s.db.rows[raw].profile !in s.inactive
    ensures var p := s.db.rows[raw].profile;
            Run(s, acts) == At(s, c, raw, Committing(NextPair(s.db, p))).(db := WriteRow(s.db, c, raw, p))
  {
    var p := s.db.rows[raw].profile;
    acts := ReachesRotation(s, c, raw);
    Then(s, acts, Do(c, Fine));
    acts := acts + [Do(c, Fine)];
    assert s.calls[c := Call(raw, Rotate(p))][c := Call(raw, Committing(NextPair(s.db, p)))] == s.calls[c := Call(raw, Committing(NextPair(s.db, p)))];
  }

  /** Profile 9 has signed in and rotated once: token 0 is revoked, token 1 live. */
  lemma RotatedOnce() returns (acts: seq<Act>)
    ensures var s := Run(EMPTY, acts);
            && s.calls.Keys == {1} && s.inactive == {} && s.db.open == map[] && s.db.sweeps == map[] && s.db.locked == map[] && s.db.now == 0
            && s.db.rows == map[0 := Row(9, true, REFRESH_TTL), 1 := Row(9, false, REFRESH_TTL)]
            && 1 in s.db.born && s.db.born[1].profile == 9
  {
    var signedIn := Run(EMPTY, [Other(Insert(9))]);
    RunOne(EMPTY, Other(Insert(9)));
    assert signedIn.db.rows == map[0 := Row(9, false, REFRESH_TTL)];
    var more := ReachesWrite(signedIn, 1, 0);
    RunOn(EMPTY, [Other(Insert(9))], more);
    acts := [Other(Insert(9))] + more + [Do(1, Fine)];
    Then(EMPTY, [Other(Insert(9))] + more, Do(1, Fine));
    RotatedOnceTables(signedIn, Run(EMPTY, [Other(Insert(9))] + more));
  }

  lemma RotatedOnceTables(signedIn: State, s: State)
    requires signedIn == Step(EMPTY, Other(Insert(9)))
    requires s == At(signedIn, 1, 0, Committing(NextPair(signedIn.db, 9))).(db := WriteRow(signedIn.db, 1, 0, 9))
    ensures var r := Step(s, Do(1, Fine));
            && r.calls.Keys == {1} && r.inactive == {} && r.db.open == map[] && r.db.sweeps == map[] && r.db.locked == map[] && r.db.now == 0
            && r.db.rows == map[0 := Row(9, true, REFRESH_TTL), 1 := Row(9, false, REFRESH_TTL)]
            && 1 in r.db.born && r.db.born[1].profile == 9
  {
    var r := Step(s, Do(1, Fine));
    assert r.db == CommitRow(s.db, 0);
  }

  lemma HolderCommits(s: State, raw: Token)
    requires Inv(s) && raw in s.db.open
    ensures var d := s.db.open[raw].holder;
            raw in s.db.rows && d in s.calls && s.calls[d].pc.Committing? && s.calls[d].raw == raw
  {
    assert HeldBy(s.db, s.calls, raw) && OpenFits(s.db, raw);
  }

  lemma CommittingCommits(s: State, d: Caller, raw: Token, c: Caller)
    requires d in s.calls && s.calls[d].pc.Committing? && s.calls[d].raw == raw && c in s.calls && c != d
    ensures Step(s, Do(d, Fine)).db == ApplyMove(s.db, Commit(raw))
    ensures c in Step(s, Do(d, Fine)).calls && Step(s, Do(d, Fine)).calls[c] == s.calls[c]
  {}

  lemma SkipStep(s: State, c: Caller, p: Profile, raw: Token)
    requires c in s.calls && s.calls[c].pc == Sweeping(p) && MayVisit(s.db, OfCall(c), raw)
    requires raw in s.db.rows && s.db.rows[raw].revoked
    ensures Step(s, Reach(c, raw)) ==
              s.(db := s.db.(sweeps := s.db.sweeps[OfCall(c) := Sweep(s.db.sweeps[OfCall(c)].profile, s.db.sweeps[OfCall(c)].left - {raw})]))
  {}

  lemma EndStep(s: State, c: Caller, p: Profile)
    requires c in s.calls && s.calls[c].pc == Sweeping(p) && MayEnd(s.db, OfCall(c), true) && s.db.locked == map[]
    ensures Step(s, Do(c, Fine)).db.rows == s.db.rows && Step(s, Do(c, Fine)).db.born == s.db.born
  {
    assert Step(s, Do(c, Fine)).db == EndedSweep(s.db, OfCall(c), true);
  }

  lemma SkipThenEnd(s: State, c: Caller, p: Profile, raw: Token)
    requires c in s.calls && s.calls[c].pc == Sweeping(p)
    requires OfCall(c) in s.db.sweeps && s.db.sweeps[OfCall(c)].left == {raw} && s.db.locked == map[] && raw !in s.db.open
    requires raw in s.db.rows && s.db.rows[raw].revoked
    ensures MayEnd(Step(s, Reach(c, raw)).db, OfCall(c), true)
    ensures Step(Step(s, Reach(c, raw)), Do(c, Fine)).db.rows == s.db.rows
    ensures Step(Step(s, Reach(c, raw)), Do(c, Fine)).db.born == s.db.born
  {
    SkipStep(s, c, p, raw);
    EndStep(Step(s, Reach(c, raw)), c, p);
  }

  lemma CommitAdds(db0: Db, db: Db, raw: Token, p: Profile)
    requires DbInv(db0) && DbInv(db) && Grows(db0, db) && raw in db.open && raw in SnapshotOf(db0, p)
    ensures raw in db.rows && Survives(db0, CommitRow(db, raw), db.open[raw].pair.refresh, p)
    ensures raw !in CommitRow(db, raw).open && CommitRow(db, raw).rows[raw].revoked
  {
    SnapshotIsBorn(db0, p, raw);
    assert OpenFits(db, raw) && RowFits(db, raw);
  }

  /** The rotation has committed; the statement finds the row revoked and skips it. */
  lemma SkipsRotatedRow(db0: Db, db: Db, s: State, c: Caller, p: Profile, raw: Token)
    requires DbInv(db0) && DbInv(db) && Grows(db0, db) && raw in db.open && raw in SnapshotOf(db0, p)
    requires OfCall(c) in db.sweeps && db.sweeps[OfCall(c)].left == {raw} && db.locked == map[]
    requires s.db == ApplyMove(db, Commit(raw)) && c in s.calls && s.calls[c].pc == Sweeping(p)
    ensures MayEnd(Step(s, Reach(c, raw)).db, OfCall(c), true)
    ensures Survives(db0, Step(Step(s, Reach(c, raw)), Do(c, Fine)).db, db.open[raw].pair.refresh, p)
  {
    CommitAdds(db0, db, raw, p);
    SkipThenEnd(s, c, p, raw);
  }

  /** From the state after the snapshot: the rotation commits, and the statement goes through its one row. */
  lemma RotationOvertakes(db0: Db, s: State, c: Caller, p: Profile, raw: Token) returns (during: seq<Act>)
    requires DbInv(db0) && Inv(s) && Grows(db0, s.db) && c in s.calls && s.calls[c].pc == Sweeping(p)
    requires raw in s.db.open && raw in SnapshotOf(db0, p)
    requires OfCall(c) in s.db.sweeps && s.db.sweeps[OfCall(c)].left == {raw} && s.db.locked == map[]
    ensures MayEnd(Run(s, during).db, OfCall(c), true)
    ensures Survives(db0, Step(Run(s, during), Do(c, Fine)).db, s.db.open[raw].pair.refresh, p)
  {
    var d := s.db.open[raw].holder;
    HolderCommits(s, raw);
    CommittingCommits(s, d, raw, c);
    SkipsRotatedRow(db0, s.db, Step(s, Do(d, Fine)), c, p, raw);
    during := [Do(d, Fine)] + [Reach(c, raw)];
    RunOne(s, Do(d, Fine));
    Then(s, [Do(d, Fine)], Reach(c, raw));
  }

  lemma EscapesFrom(s: State, c: Caller, p: Profile, raw: Token) returns (during: seq<Act>, t: Token)
    requires Inv(s) && AboutToRevoke(s, c, p) && raw in s.db.open && SnapshotOf(s.db, p) == {raw} && s.db.locked == map[]
    ensures Completes(s, c, p, Fine, during, Fine)
    ensures Survives(s.db, Ended(s, c, Fine, during, Fine).db, t, p)
  {
    Begins(s, c, p, Fine);
    StepKeepsInv(s, Do(c, Fine));
    during := RotationOvertakes(s.db, Step(s, Do(c, Fine)), c, p, raw);
    t := s.db.open[raw].pair.refresh;
  }

  /** Token 1 is being rotated when the theft of token 0 is noticed: the rotation commits, and its token outlives the revocation. */
  lemma EscapingRun() returns (acts: seq<Act>, during: seq<Act>, t: Token)
    ensures Completes(Run(EMPTY, acts), 3, 9, Fine, during, Fine)
    ensures Survives(Run(EMPTY, acts).db, Ended(Run(EMPTY, acts), 3, Fine, during, Fine).db, t, 9)
  {
    acts := TheftNoticed();
    RunKeepsInv(EMPTY, acts);
    during, t := EscapesFrom(Run(EMPTY, acts), 3, 9, 1);
  }

  lemma TheftNoticed() returns (acts: seq<Act>)
    ensures var s := Run(EMPTY, acts);
            AboutToRevoke(s, 3, 9) && 1 in s.db.open && SnapshotOf(s.db, 9) == {1} && s.db.locked == map[]
  {
    var first := RotatedOnce();
    var s1 := Run(EMPTY, first);
    var second := ReachesWrite(s1, 2, 1);
    RunOn(EMPTY, first, second);
    var s2 := Run(EMPTY, first + second);
    var third := ReachesRevocation(s2, 3, 0);
    RunOn(EMPTY, first + second, third);
    acts := first + second + third;
    assert Run(EMPTY, acts).db == WriteRow(s1.db, 2, 1, 9);
  }
}
