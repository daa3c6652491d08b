/**
 Where the answers of Refresh come from: every pair was given to an active account, every rotation was of a live,
 unexpired token, every revocation of a token reused without excuse; and an undisturbed Refresh does succeed.
 */
module RefreshTrail {
  import opened RefreshTable
  import opened RefreshRotation
  import opened RefreshRevocation

  // ---------------------------------------------------------------- only active accounts

  /** At step i caller c, with the pair of profile p before it or about to rotate for p, found p active. */
  ghost predicate FoundActive(acts: seq<Act>, i: nat, c: Caller, p: Profile) {
    && i < |acts| && acts[i].Do? && acts[i].c == c
    && var s := Run(EMPTY, acts[..i]);
       && c in s.calls && p !in s.inactive
       && ((s.calls[c].pc.CheckPair? && s.calls[c].pc.pair.profile == p) || s.calls[c].pc == LoadProfile(p))
  }

  /** The profile a call is past the account check for. */
  function Cleared(pc: Pc): Profile
    requires pc.Rotate? || pc.Committing? || pc.WriteGrace? || pc.Success?
  {
    if pc.Rotate? then pc.profile else pc.pair.profile
  }

  predicate PastCheck(pc: Pc) { pc.Rotate? || pc.Committing? || pc.WriteGrace? || pc.Success? }

  /** A step that takes a call past the check, or leaves it there. */
  lemma CheckStep(s: State, c: Caller, call: Call, ending: Ending)
    requires PastCheck(NextPc(s, c, call, ending))
    ensures || (PastCheck(call.pc) && Cleared(call.pc) == Cleared(NextPc(s, c, call, ending)))
            || (&& Cleared(NextPc(s, c, call, ending)) !in s.inactive
                && ((call.pc.CheckPair? && call.pc.pair.profile == Cleared(NextPc(s, c, call, ending)))
                    || call.pc == LoadProfile(Cleared(NextPc(s, c, call, ending)))))
  {}

  lemma OnlyOwnStepMovesCall(s: State, act: Act, c: Caller)
    requires c in Step(s, act).calls
    ensures || (c in s.calls && Step(s, act).calls[c] == s.calls[c])
            || (act.Do? && act.c == c && c in s.calls && Step(s, act).calls[c] == NextCall(s, c, act.ending))
            || (act.Present? && act.c == c && c !in s.calls && Step(s, act).calls[c] == Call(act.raw, Enter))
  {}

  /** In every run, whoever gets a pair, from the grace entry or by rotating, was found active by a step of its own call. */
  lemma {:induction false} OnlyActiveAccounts(acts: seq<Act>, c: Caller) returns (i: nat)
    requires c in Run(EMPTY, acts).calls && PastCheck(Run(EMPTY, acts).calls[c].pc)
    ensures FoundActive(acts, i, c, Cleared(Run(EMPTY, acts).calls[c].pc))
  {
    var front, act := acts[..|acts|-1], acts[|acts|-1];
    var s := Run(EMPTY, front);
    OnlyOwnStepMovesCall(s, act, c);
    if act.Do? && act.c == c && c in s.calls { CheckStep(s, c, s.calls[c], act.ending); }
    if PastCheck(s.calls[c].pc) && Cleared(s.calls[c].pc) == Cleared(Run(EMPTY, acts).calls[c].pc) {
      i := OnlyActiveAccounts(front, c);
      assert front[..i] == acts[..i];
    } else {
      i := |front|;
    }
  }

  // ---------------------------------------------------------------- only live, unexpired tokens

  /** At step i a call with raw token t wrote its rotation, and the row was committed, unrevoked and unexpired. */
  ghost predicate WroteRotation(acts: seq<Act>, i: nat, t: Token) {
    && i < |acts| && acts[i].Do?
    && var s := Run(EMPTY, acts[..i]);
       && acts[i].c in s.calls && s.calls[acts[i].c].raw == t && s.calls[acts[i].c].pc.Rotate?
       && t in s.db.rows && !s.db.rows[t].revoked && s.db.now < s.db.rows[t].expiresAt
  }

  lemma RotationStep(s: State, act: Act, t: Token)
    requires t in Step(s, act).db.open || t in Step(s, act).db.successor
    ensures || t in s.db.open || t in s.db.successor
            || (&& act.Do? && act.c in s.calls && s.calls[act.c].raw == t && s.calls[act.c].pc.Rotate?
                && t in s.db.rows && !s.db.rows[t].revoked && s.db.now < s.db.rows[t].expiresAt)
  {
    StepMoves(s, act);
    OnlyWriteOpens(s.db, MoveOf(s, act), t);
    if MoveOf(s, act).Write? { WriteIsOwn(s, act); }
  }

  lemma OnlyWriteOpens(db: Db, move: DbMove, t: Token)
    requires t in ApplyMove(db, move).open || t in ApplyMove(db, move).successor
    ensures || t in db.open || t in db.successor
            || (move.Write? && move.raw == t && t in db.rows && !db.rows[t].revoked && db.now < db.rows[t].expiresAt)
  {}

  lemma WriteIsOwn(s: State, act: Act)
    requires MoveOf(s, act).Write?
    ensures act.Do? && act.c in s.calls && s.calls[act.c].raw == MoveOf(s, act).raw && s.calls[act.c].pc.Rotate?
  {}

  lemma StepMoves(s: State, act: Act)
    ensures Step(s, act).db == ApplyMove(s.db, MoveOf(s, act))
  {}

  /** In every run, a token was rotated only by a call that presented it, while its row was live and not expired. */
  lemma {:induction false} OnlyLiveTokensRotate(acts: seq<Act>, t: Token) returns (i: nat)
    requires t in Run(EMPTY, acts).db.open || t in Run(EMPTY, acts).db.successor
    ensures WroteRotation(acts, i, t)
  {
    var front, act := acts[..|acts|-1], acts[|acts|-1];
    var s := Run(EMPTY, front);
    RotationStep(s, act, t);
    if t in s.db.open || t in s.db.successor {
      i := OnlyLiveTokensRotate(front, t);
      assert front[..i] == acts[..i];
    } else {
      i := |front|;
    }
  }

  /** At step i the row of t appeared, unrevoked and good for thirty days. */
  ghost predicate BornAt(acts: seq<Act>, i: nat, t: Token, expiresAt: int) {
    && i < |acts| && t in Run(EMPTY, acts[..i + 1]).db.rows && !Run(EMPTY, acts[..i + 1]).db.rows[t].revoked
    && expiresAt == Run(EMPTY, acts[..i]).db.now + 30 * 24 * 60 * 60
  }

  lemma RowStep(s: State, act: Act, t: Token)
    requires t in Step(s, act).db.rows
    ensures || (t in s.db.rows && s.db.rows[t].expiresAt == Step(s, act).db.rows[t].expiresAt)
            || (!Step(s, act).db.rows[t].revoked && Step(s, act).db.rows[t].expiresAt == s.db.now + 30 * 24 * 60 * 60)
  {
    StepMoves(s, act);
    RowMove(s.db, MoveOf(s, act), t);
  }

  lemma RowMove(db: Db, move: DbMove, t: Token)
    requires t in ApplyMove(db, move).rows
    ensures || (t in db.rows && db.rows[t].expiresAt == ApplyMove(db, move).rows[t].expiresAt)
            || (!ApplyMove(db, move).rows[t].revoked && ApplyMove(db, move).rows[t].expiresAt == db.now + 30 * 24 * 60 * 60)
  {}

  lemma {:induction false} TokensLastThirtyDays(acts: seq<Act>, t: Token) returns (i: nat)
    requires t in Run(EMPTY, acts).db.rows
    ensures BornAt(acts, i, t, Run(EMPTY, acts).db.rows[t].expiresAt)
  {
    var front, act := acts[..|acts|-1], acts[|acts|-1];
    var s := Run(EMPTY, front);
    RowStep(s, act, t);
    if t in s.db.rows && s.db.rows[t].expiresAt == Run(EMPTY, acts).db.rows[t].expiresAt {
      i := TokensLastThirtyDays(front, t);
      assert front[..i] == acts[..i] && front[..i + 1] == acts[..i + 1];
    } else {
      i := |front|;
      assert acts[..i + 1] == acts;
    }
  }

  // ---------------------------------------------------------------- when a reuse is not excused

  /**
   A call goes over to revoking everything only from a token it found revoked, and only if it could not see a
   rotation of that token still under way, or waited for one in vain.
   */
  lemma RevokesOnlyUnexcused(s: State, c: Caller, call: Call, ending: Ending)
    requires NextPc(s, c, call, ending).RevokeAll? && !call.pc.RevokeAll?
    ensures || (call.pc.AskClaim? && !(ending == Fine && call.raw in s.claims))
            || (call.pc.WaitReuse? && ending == Timeout)
    ensures NextPc(s, c, call, ending).profile == call.pc.profile
  {}

  /** What the token's row decides: unknown or expired is invalid, revoked is looked into, and only a live one goes on. */
  lemma LookupDecides(s: State, c: Caller, raw: Token)
    ensures var next := NextPc(s, c, Call(raw, Lookup), Fine);
            && (next.Invalid? <==> raw !in s.db.rows || (!s.db.rows[raw].revoked && s.db.now > s.db.rows[raw].expiresAt))
            && (next.SawRevoked? <==> raw in s.db.rows && s.db.rows[raw].revoked)
            && (next.TryClaim? <==> raw in s.db.rows && !s.db.rows[raw].revoked && s.db.now <= s.db.rows[raw].expiresAt)
  {}

  /** A revoked token is excused by a grace entry or by a rotation seen under way; a wait for one that ends in vain is reuse. */
  lemma ReuseDecides(s: State, c: Caller, raw: Token, p: Profile)
    ensures NextPc(s, c, Call(raw, SawRevoked(p)), Fine) == if raw in s.grace then CheckPair(s.grace[raw]) else AskClaim(p)
    ensures NextPc(s, c, Call(raw, AskClaim(p)), Fine) == if raw in s.claims then WaitReuse(p) else RevokeAll(p)
    ensures NextPc(s, c, Call(raw, AskClaim(p)), RedisError) == RevokeAll(p)
    ensures NextPc(s, c, Call(raw, WaitReuse(p)), Fine) == if raw in s.grace then CheckPair(s.grace[raw]) else WaitReuse(p)
    ensures NextPc(s, c, Call(raw, WaitReuse(p)), Timeout) == RevokeAll(p)
  {}

  /** Of two callers with a live token the one who finds the claim taken waits; without Redis both go on. */
  lemma ClaimDecides(s: State, c: Caller, raw: Token, p: Profile, ending: Ending)
    requires c in s.calls && s.calls[c] == Call(raw, TryClaim(p)) && ending != DbError
    ensures var r := Step(s, Do(c, ending));
            && c in r.calls
            && (ending == Fine && raw in s.claims ==> r.calls[c].pc == WaitSoft && r.claims == s.claims)
            && (ending == Fine && raw !in s.claims ==> r.calls[c].pc == LoadProfile(p) && r.claims == s.claims + {raw})
            && (ending != Fine ==> r.calls[c].pc == LoadProfile(p) && r.claims == s.claims)
            && r.db == s.db
  {}

  /** A caller who waits for the winner gets its pair, or gives up softly: it never revokes anything. */
  lemma WaitDecides(s: State, c: Caller, raw: Token)
    ensures NextPc(s, c, Call(raw, WaitSoft), Fine) == if raw in s.grace then CheckPair(s.grace[raw]) else WaitSoft
    ensures NextPc(s, c, Call(raw, WaitSoft), Timeout) == Invalid
    ensures NextPc(s, c, Call(raw, WaitSoft), RedisError) == WaitSoft
  {}

  /** A caller whose row was rotated or revoked under its hands waits; one whose row is held waits for the row. */
  lemma RotateDecides(s: State, c: Caller, raw: Token, p: Profile)
    ensures var next := NextPc(s, c, Call(raw, Rotate(p)), Fine);
            if raw in s.db.open || raw in s.db.locked then next == Rotate(p)
            else if raw in s.db.rows && !s.db.rows[raw].revoked && s.db.now < s.db.rows[raw].expiresAt
            then next == Committing(Pair(s.db.next, s.db.next, p))
            else next == WaitSoft
  {}

  /** A pair whose rotation is committed is returned whether or not Redis takes its grace entry. */
  lemma CommittedPairIsReturned(s: State, c: Caller, raw: Token, pair: Pair, ending: Ending)
    requires c in s.calls && s.calls[c] == Call(raw, WriteGrace(pair)) && ending != DbError
    ensures var r := Step(s, Do(c, ending));
            && c in r.calls && r.calls[c].pc == Success(pair)
            && r.grace == if ending == Fine then s.grace[raw := pair] else s.grace
  {}

  /** What Redis forgets is gone, an account is as it was last set, and time passes; the table is untouched. */
  lemma OutsideActs(s: State, t: Token, p: Profile, d: nat)
    ensures Step(s, LoseGrace(t)) == s.(grace := s.grace - {t}) && Step(s, LoseClaim(t)) == s.(claims := s.claims - {t})
    ensures p !in Step(s, SetActive(p, true)).inactive && p in Step(s, SetActive(p, false)).inactive
    ensures Step(s, Other(Pass(d))).db == s.db.(now := s.db.now + d)
  {}

  /** A logout removes the token's row, once nobody holds it, and no other. */
  lemma LogoutRemoves(s: State, t: Token)
    requires t !in s.db.open && t !in s.db.locked
    ensures Step(s, Other(Delete(t))).db.rows == s.db.rows - {t}
  {}

  // ---------------------------------------------------------------- what does succeed

  /** A lone call with a live token rotates it and returns a new pair, whose grace entry serves whoever comes late. */
  lemma LoneRefreshSucceeds(s: State, c: Caller, raw: Token) returns (acts: seq<Act>)
    requires Inv(s) && c !in s.calls
    requires raw in s.db.rows && !s.db.rows[raw].revoked && s.db.now < s.db.rows[raw].expiresAt && s.db.rows[raw].profile !in s.inactive
    requires raw !in s.db.open && raw !in s.db.locked
    ensures var p, r := s.db.rows[raw].profile, Run(s, acts);
            && c in r.calls && r.calls[c] == Call(raw, Success(Pair(s.db.next, s.db.next, p)))
            && raw in r.grace && r.grace[raw] == Pair(s.db.next, s.db.next, p)
            && raw in r.db.rows && r.db.rows[raw].revoked && Live(r.db, s.db.next) && r.db.rows[s.db.next].profile == p
            && r.inactive == s.inactive && forall d :: d != c ==> (d in r.calls <==> d in s.calls)
  {
    var p := s.db.rows[raw].profile;
    acts := ReachesWrite(s, c, raw);
    var written := Run(s, acts);
    Then(s, acts, Do(c, Fine));
    Commits(s, written, c, raw, p);
    acts := acts + [Do(c, Fine)];
    Then(s, acts, Do(c, Fine));
    GraceIsWritten(s, Run(s, acts), c, raw, NextPair(s.db, p));
    acts := acts + [Do(c, Fine)];
    NextIsFresh(s.db, raw);
  }

  lemma NextIsFresh(db: Db, raw: Token)
    requires DbInv(db) && raw in db.rows
    ensures raw != db.next
  {
    assert RowFits(db, raw);
  }

  lemma GraceIsWritten(s: State, committed: State, c: Caller, raw: Token, pair: Pair)
    requires committed == At(s, c, raw, WriteGrace(pair)).(db := committed.db)
    ensures var r := Step(committed, Do(c, Fine));
            && c in r.calls && r.calls[c] == Call(raw, Success(pair)) && raw in r.grace && r.grace[raw] == pair
            && r.db == committed.db && r.inactive == s.inactive && forall d :: d != c ==> (d in r.calls <==> d in s.calls)
  {}

  lemma Commits(s: State, written: State, c: Caller, raw: Token, p: Profile)
    requires Rotatable(s.db, raw) && p == s.db.rows[raw].profile
    requires written == At(s, c, raw, Committing(NextPair(s.db, p))).(db := WriteRow(s.db, c, raw, p))
    ensures var r := Step(written, Do(c, Fine));
            && r == At(s, c, raw, WriteGrace(NextPair(s.db, p))).(db := r.db)
            && raw in r.db.rows && (raw != s.db.next ==> r.db.rows[raw].revoked)
            && Live(r.db, s.db.next) && r.db.rows[s.db.next].profile == p
  {
    assert s.calls[c := Call(raw, Committing(NextPair(s.db, p)))][c := Call(raw, WriteGrace(NextPair(s.db, p)))]
        == s.calls[c := Call(raw, WriteGrace(NextPair(s.db, p)))];
  }

  /** Whoever presents a token with a grace entry gets its pair, if the account is active, and nothing if it is not. */
  lemma GraceServesLateCallers(s: State, c: Caller, raw: Token)
    requires c !in s.calls && raw in s.grace
    ensures var r := Run(s, [Present(c, raw)] + [Do(c, Fine)] + [Do(c, Fine)]);
            && c in r.calls && r.db == s.db
            && r.calls[c].pc == if s.grace[raw].profile in s.inactive then Failed else Success(s.grace[raw])
  {
    RunOne(s, Present(c, raw));
    Then(s, [Present(c, raw)], Do(c, Fine));
    MoveOn(s, c, raw, Enter, Fine);
    Then(s, [Present(c, raw)] + [Do(c, Fine)], Do(c, Fine));
    MoveOn(s, c, raw, CheckPair(s.grace[raw]), Fine);
  }
}
