/**
 Refresh-token rotation under any interleaving of callers. Each statement of a transaction and each Redis
 command is one step; Redis may fail or lose any key at any time, the claim lock fails open, and a commit may
 succeed with its reply lost.
 */
module RefreshRotation {
  import opened RefreshTable

  datatype Pc =
    | Enter
    | CheckPair(pair: Pair)
    | Lookup
    | SawRevoked(profile: Profile)
    | AskClaim(profile: Profile)
    | WaitReuse(profile: Profile)
    | RevokeAll(profile: Profile)
    | Sweeping(profile: Profile)
    | TryClaim(profile: Profile)
    | WaitSoft
    | LoadProfile(profile: Profile)
    | Rotate(profile: Profile)
    | Committing(pair: Pair)
    | WriteGrace(pair: Pair)
    | Success(pair: Pair)
    | Invalid
    | Reused
    | Failed

  datatype Call = Call(raw: Token, pc: Pc)

  datatype State = State(db: Db, grace: map<Token, Pair>, claims: set<Token>, inactive: set<Profile>, calls: map<Caller, Call>)

  /** How the next operation of a call ends. Timeout ends a poll; CommitLost commits without a reply. */
  datatype Ending = Fine | RedisError | Timeout | CommitLost | DbError

  /**
   Do is the next operation of a call, Reach the next row its revocation comes to. Other is every other writer of
   the table: sign-ins, logouts, revocations, and the clock.
   */
  datatype Act =
    | Present(c: Caller, raw: Token)
    | Do(c: Caller, ending: Ending)
    | Reach(c: Caller, t: Token)
    | Other(move: DbMove)
    | SetActive(profile: Profile, active: bool)
    | LoseGrace(t: Token)
    | LoseClaim(t: Token)

  const EMPTY: State := State(NO_ROWS, map[], {}, {}, map[])

  predicate Returned(pc: Pc) { pc.Success? || pc.Invalid? || pc.Reused? || pc.Failed? }

  /** A grace read: a hit leads to the account check, a miss or a Redis error to `miss`. */
  function AfterGraceRead(s: State, raw: Token, ending: Ending, miss: Pc): Pc {
    if ending == Fine && raw in s.grace then CheckPair(s.grace[raw]) else miss
  }

  /** Where one operation takes a call. */
  function NextPc(s: State, c: Caller, call: Call, ending: Ending): Pc {
    var raw, pc := call.raw, call.pc;
    if Returned(pc) then pc
    else if ending == DbError then Failed
    else match pc
      case Enter => AfterGraceRead(s, raw, ending, Lookup)
      case CheckPair(pair) => if pair.profile in s.inactive then Failed else Success(pair)
      case Lookup =>
        if raw !in s.db.rows then Invalid
        else if s.db.rows[raw].revoked then SawRevoked(s.db.rows[raw].profile)
        else if s.db.now > s.db.rows[raw].expiresAt then Invalid
        else TryClaim(s.db.rows[raw].profile)
      case SawRevoked(p) => AfterGraceRead(s, raw, ending, AskClaim(p))
      case AskClaim(p) => if ending == Fine && raw in s.claims then WaitReuse(p) else RevokeAll(p)
      case WaitReuse(p) => if ending == Timeout then RevokeAll(p) else AfterGraceRead(s, raw, ending, pc)
      case RevokeAll(p) => Sweeping(p)
      case Sweeping(_) =>
        if !MayEnd(s.db, OfCall(c), true) then pc else if ending == CommitLost then Failed else Reused
      case TryClaim(p) => if ending == Fine && raw in s.claims then WaitSoft else LoadProfile(p)
      case WaitSoft => if ending == Timeout then Invalid else AfterGraceRead(s, raw, ending, pc)
      case LoadProfile(p) => if p in s.inactive then Failed else Rotate(p)
      case Rotate(p) =>
        if Held(s.db, raw) then pc
        else if !Rotatable(s.db, raw) then WaitSoft
        else Committing(NextPair(s.db, p))
      case Committing(pair) => if ending == CommitLost then Failed else WriteGrace(pair)
      case WriteGrace(pair) => Success(pair)
      case _ => pc
  }

  /** What one operation of a call does to the table. */
  function CallMove(c: Caller, call: Call, ending: Ending): DbMove {
    if call.pc.Committing? then (if ending == DbError then Rollback(call.raw) else Commit(call.raw))
    else if call.pc.Sweeping? then EndSweep(OfCall(c), ending != DbError)
    else if ending == DbError then Nothing
    else if call.pc.RevokeAll? then Snapshot(OfCall(c), call.pc.profile)
    else if call.pc.Rotate? then Write(c, call.raw, call.pc.profile)
    else Nothing
  }

  function StepCall(s: State, c: Caller, ending: Ending): State
    requires c in s.calls
  {
    var call := s.calls[c];
    State(ApplyMove(s.db, CallMove(c, call, ending)),
          if call.pc.WriteGrace? && ending == Fine then s.grace[call.raw := call.pc.pair] else s.grace,
          if call.pc.TryClaim? && ending == Fine then s.claims + {call.raw} else s.claims,
          s.inactive,
          s.calls[c := call.(pc := NextPc(s, c, call, ending))])
  }

  /** What the rest of the program does: no rotations, and revocations of its own. */
  predicate ByOthers(move: DbMove) {
    && !move.Write? && !move.Commit? && !move.Rollback?
    && (move.Snapshot? || move.Visit? || move.EndSweep? ==> move.w.Elsewhere?)
  }

  /** Every step is one move of the table. */
  function MoveOf(s: State, act: Act): DbMove {
    match act
    case Do(c, ending) => if c in s.calls then CallMove(c, s.calls[c], ending) else Nothing
    case Reach(c, t) => if c in s.calls && s.calls[c].pc.Sweeping? then Visit(OfCall(c), t) else Nothing
    case Other(move) => if ByOthers(move) then move else Nothing
    case _ => Nothing
  }

  function Step(s: State, act: Act): State {
    match act
    case Present(c, raw) => if c in s.calls then s else s.(calls := s.calls[c := Call(raw, Enter)])
    case Do(c, ending) => if c in s.calls then StepCall(s, c, ending) else s
    case Reach(_, _) => s.(db := ApplyMove(s.db, MoveOf(s, act)))
    case Other(_) => s.(db := ApplyMove(s.db, MoveOf(s, act)))
    case SetActive(p, active) => s.(inactive := if active then s.inactive - {p} else s.inactive + {p})
    case LoseGrace(t) => s.(grace := s.grace - {t})
    case LoseClaim(t) => s.(claims := s.claims - {t})
  }

  function Run(s: State, acts: seq<Act>): State {
    if acts == [] then s else Step(Run(s, acts[..|acts|-1]), acts[|acts|-1])
  }

  // ---------------------------------------------------------------- what the callers know

  ghost predicate Got(db: Db, t: Token, pair: Pair) { t in db.successor && db.successor[t] == pair }

  ghost predicate ReuseSeen(db: Db, t: Token, p: Profile) { t in db.everRevoked && Owned(db, t, p) }

  /** The rotation of t that c has written. */
  ghost predicate Writes(db: Db, c: Caller, t: Token, pair: Pair) {
    t in db.open && db.open[t].holder == c && db.open[t].pair == pair
  }

  /** The revocation of p that c has under way. */
  ghost predicate Sweeps(db: Db, c: Caller, p: Profile) { OfCall(c) in db.sweeps && db.sweeps[OfCall(c)].profile == p }

  ghost predicate CallFits(db: Db, c: Caller, call: Call) {
    match call.pc
    case CheckPair(pair) => Got(db, call.raw, pair)
    case WriteGrace(pair) => Got(db, call.raw, pair)
    case Success(pair) => Got(db, call.raw, pair)
    case SawRevoked(p) => ReuseSeen(db, call.raw, p)
    case AskClaim(p) => ReuseSeen(db, call.raw, p)
    case WaitReuse(p) => ReuseSeen(db, call.raw, p)
    case RevokeAll(p) => ReuseSeen(db, call.raw, p)
    case Sweeping(p) => ReuseSeen(db, call.raw, p) && Sweeps(db, c, p)
    case TryClaim(p) => Owned(db, call.raw, p)
    case LoadProfile(p) => Owned(db, call.raw, p)
    case Rotate(p) => Owned(db, call.raw, p)
    case Committing(pair) => Writes(db, c, call.raw, pair)
    case _ => true
  }

  ghost predicate CallsFit(db: Db, calls: map<Caller, Call>) { forall c :: c in calls ==> CallFits(db, c, calls[c]) }

  ghost predicate GraceFits(db: Db, grace: map<Token, Pair>) { forall t :: t in grace ==> Got(db, t, grace[t]) }

  /** Every open rotation has its caller. */
  ghost predicate HeldBy(db: Db, calls: map<Caller, Call>, raw: Token)
    requires raw in db.open
  {
    var o := db.open[raw];
    o.holder in calls && calls[o.holder] == Call(raw, Committing(o.pair))
  }

  ghost predicate OpensHeld(db: Db, calls: map<Caller, Call>) { forall raw :: raw in db.open ==> HeldBy(db, calls, raw) }

  /** Every revocation of a call has its caller. */
  ghost predicate SweepsHeld(db: Db, calls: map<Caller, Call>) {
    forall c :: OfCall(c) in db.sweeps ==> c in calls && calls[c].pc.Sweeping?
  }

  ghost predicate Inv(s: State) {
    DbInv(s.db) && CallsFit(s.db, s.calls) && GraceFits(s.db, s.grace) && OpensHeld(s.db, s.calls) && SweepsHeld(s.db, s.calls)
  }

  /** Only its own commit or rollback ends a rotation, and only its own end a revocation. */
  lemma OpenStays(db: Db, move: DbMove, raw: Token)
    requires raw in db.open && move != Commit(raw) && move != Rollback(raw)
    ensures raw in ApplyMove(db, move).open && ApplyMove(db, move).open[raw] == db.open[raw]
  {}

  lemma OpenIsOldOrNew(db: Db, move: DbMove, raw: Token)
    requires raw in ApplyMove(db, move).open
    ensures raw in db.open || (move.Write? && move.raw == raw && Rotatable(db, raw))
  {}

  lemma SweepStaysOpen(db: Db, move: DbMove, w: Sweeper)
    requires w in db.sweeps && !(move.EndSweep? && move.w == w)
    ensures w in ApplyMove(db, move).sweeps && ApplyMove(db, move).sweeps[w].profile == db.sweeps[w].profile
  {}

  lemma SweepIsOldOrNew(db: Db, move: DbMove, w: Sweeper)
    requires w in ApplyMove(db, move).sweeps
    ensures w in db.sweeps || (move.Snapshot? && move.w == w)
  {}

  /** What a move must leave alone so that call c keeps what it has under way. */
  ghost predicate Spares(move: DbMove, c: Caller, call: Call) {
    && (call.pc.Committing? ==> move != Commit(call.raw) && move != Rollback(call.raw))
    && (call.pc.Sweeping? ==> !(move.EndSweep? && move.w == OfCall(c)))
  }

  lemma GrowthKeepsGrace(db: Db, db': Db, grace: map<Token, Pair>)
    requires Grows(db, db') && GraceFits(db, grace)
    ensures GraceFits(db', grace)
  {
    forall t | t in grace ensures Got(db', t, grace[t]) { assert Got(db, t, grace[t]); }
  }

  lemma LookupFits(s: State, c: Caller, call: Call, ending: Ending)
    requires Inv(s) && call.pc.Lookup?
    ensures CallFits(s.db, c, call.(pc := NextPc(s, c, call, ending)))
  {
    if call.raw in s.db.rows { assert RowFits(s.db, call.raw); }
  }

  lemma GraceReadFits(s: State, c: Caller, call: Call, ending: Ending)
    requires GraceFits(s.db, s.grace) && CallFits(s.db, c, call)
    requires call.pc.Enter? || call.pc.SawRevoked? || call.pc.WaitReuse? || call.pc.WaitSoft?
    ensures CallFits(s.db, c, call.(pc := NextPc(s, c, call, ending)))
  {
    if call.raw in s.grace { assert Got(s.db, call.raw, s.grace[call.raw]); }
  }

  lemma PlainPcFits(s: State, c: Caller, call: Call, ending: Ending)
    requires CallFits(s.db, c, call)
    requires || call.pc.CheckPair? || call.pc.AskClaim? || call.pc.TryClaim? || call.pc.LoadProfile? || call.pc.WriteGrace?
             || Returned(call.pc)
    ensures CallFits(s.db, c, call.(pc := NextPc(s, c, call, ending)))
  {}

  lemma QuietPcFits(s: State, c: Caller, call: Call, ending: Ending)
    requires Inv(s) && CallFits(s.db, c, call) && !call.pc.Rotate? && !call.pc.Committing? && !call.pc.RevokeAll? && !call.pc.Sweeping?
    ensures CallFits(s.db, c, call.(pc := NextPc(s, c, call, ending)))
  {
    if call.pc.Lookup? {
      LookupFits(s, c, call, ending);
    } else if call.pc.Enter? || call.pc.SawRevoked? || call.pc.WaitReuse? || call.pc.WaitSoft? {
      GraceReadFits(s, c, call, ending);
    } else {
      PlainPcFits(s, c, call, ending);
    }
  }

  lemma CallMoveFits(s: State, c: Caller, ending: Ending)
    requires Inv(s) && c in s.calls
    ensures MoveFits(s.db, CallMove(c, s.calls[c], ending))
  {
    var call := s.calls[c];
    assert CallFits(s.db, c, call);
    if call.raw in s.db.rows { assert RowFits(s.db, call.raw); }
  }

  /** The call c after its next operation. */
  function NextCall(s: State, c: Caller, ending: Ending): Call
    requires c in s.calls
  {
    s.calls[c].(pc := NextPc(s, c, s.calls[c], ending))
  }

  /** A step leaves its own caller with knowledge that is true of the table after it. */
  lemma NextPcFits(s: State, c: Caller, ending: Ending)
    requires Inv(s) && c in s.calls
    ensures CallFits(ApplyMove(s.db, CallMove(c, s.calls[c], ending)), c, NextCall(s, c, ending))
  {
    var call := s.calls[c];
    assert CallFits(s.db, c, call);
    if call.pc.Committing? {
      CommittingFits(s, c, ending);
    } else if call.pc.Rotate? {
      RotateFits(s, c, ending);
    } else if call.pc.RevokeAll? {
      RevokeAllFits(s, c, ending);
    } else if call.pc.Sweeping? {
      SweepingFits(s, c, ending);
    } else {
      QuietPcFits(s, c, call, ending);
    }
  }

  lemma CommittingFits(s: State, c: Caller, ending: Ending)
    requires Inv(s) && c in s.calls && s.calls[c].pc.Committing?
    ensures CallFits(ApplyMove(s.db, CallMove(c, s.calls[c], ending)), c, NextCall(s, c, ending))
  {
    assert CallFits(s.db, c, s.calls[c]) && OpenFits(s.db, s.calls[c].raw);
  }

  lemma RotateFits(s: State, c: Caller, ending: Ending)
    requires Inv(s) && c in s.calls && s.calls[c].pc.Rotate?
    ensures CallFits(ApplyMove(s.db, CallMove(c, s.calls[c], ending)), c, NextCall(s, c, ending))
  {
    assert CallFits(s.db, c, s.calls[c]);
  }

  lemma RevokeAllFits(s: State, c: Caller, ending: Ending)
    requires Inv(s) && c in s.calls && s.calls[c].pc.RevokeAll?
    ensures CallFits(ApplyMove(s.db, CallMove(c, s.calls[c], ending)), c, NextCall(s, c, ending))
  {
    assert CallFits(s.db, c, s.calls[c]);
    assert OfCall(c) !in s.db.sweeps;
  }

  lemma SweepingFits(s: State, c: Caller, ending: Ending)
    requires Inv(s) && c in s.calls && s.calls[c].pc.Sweeping?
    ensures CallFits(ApplyMove(s.db, CallMove(c, s.calls[c], ending)), c, NextCall(s, c, ending))
  {
    assert CallFits(s.db, c, s.calls[c]);
  }

  lemma SparedCallFits(s: State, move: DbMove, c: Caller)
    requires Inv(s) && MoveFits(s.db, move) && c in s.calls && Spares(move, c, s.calls[c])
    ensures CallFits(ApplyMove(s.db, move), c, s.calls[c])
  {
    var call := s.calls[c];
    assert CallFits(s.db, c, call);
    MoveKeepsDb(s.db, move);
    if call.pc.Committing? { OpenStays(s.db, move, call.raw); }
    if call.pc.Sweeping? { SweepStaysOpen(s.db, move, OfCall(c)); }
  }

  lemma StepKeepsCalls(s: State, c: Caller, ending: Ending)
    requires Inv(s) && c in s.calls
    ensures CallsFit(StepCall(s, c, ending).db, StepCall(s, c, ending).calls)
  {
    var call, r := s.calls[c], StepCall(s, c, ending);
    CallMoveFits(s, c, ending);
    forall d | d in r.calls ensures CallFits(r.db, d, r.calls[d]) {
      if d == c {
        NextPcFits(s, c, ending);
      } else {
        MoveSparesOthers(s, c, ending, d);
        SparedCallFits(s, CallMove(c, call, ending), d);
      }
    }
  }

  /** A call ends its own transactions only. */
  lemma MoveSparesOthers(s: State, c: Caller, ending: Ending, d: Caller)
    requires Inv(s) && c in s.calls && d in s.calls && c != d
    ensures Spares(CallMove(c, s.calls[c], ending), d, s.calls[d])
  {
    assert CallFits(s.db, c, s.calls[c]) && CallFits(s.db, d, s.calls[d]);
  }

  /** A rotation whose caller comes to its end is no longer open. */
  lemma OwnRotationEnds(s: State, c: Caller, ending: Ending)
    requires Inv(s) && c in s.calls && s.calls[c].pc.Committing?
    ensures s.calls[c].raw !in StepCall(s, c, ending).db.open
  {
    assert CallFits(s.db, c, s.calls[c]) && OpenFits(s.db, s.calls[c].raw);
  }

  lemma MoveSparesRotation(c: Caller, call: Call, ending: Ending, raw: Token)
    requires call.pc.Committing? ==> call.raw != raw
    ensures CallMove(c, call, ending) != Commit(raw) && CallMove(c, call, ending) != Rollback(raw)
  {}

  lemma HeldStays(db: Db, calls: map<Caller, Call>, r: Db, c: Caller, call: Call, raw: Token)
    requires raw in db.open && HeldBy(db, calls, raw) && db.open[raw].holder != c
    requires raw in r.open && r.open[raw] == db.open[raw]
    ensures HeldBy(r, calls[c := call], raw)
  {}

  /** A rotation still open after a step was not the stepping caller's to end. */
  lemma OpenLeft(s: State, c: Caller, ending: Ending, raw: Token)
    requires Inv(s) && c in s.calls && raw in s.db.open && raw in StepCall(s, c, ending).db.open
    ensures HeldBy(StepCall(s, c, ending).db, StepCall(s, c, ending).calls, raw)
  {
    assert HeldBy(s.db, s.calls, raw);
    if s.calls[c].pc.Committing? { OwnRotationEnds(s, c, ending); }
    MoveSparesRotation(c, s.calls[c], ending, raw);
    OpenStays(s.db, CallMove(c, s.calls[c], ending), raw);
    HeldStays(s.db, s.calls, StepCall(s, c, ending).db, c, NextCall(s, c, ending), raw);
  }

  lemma StepKeepsHeld(s: State, c: Caller, ending: Ending)
    requires Inv(s) && c in s.calls
    ensures OpensHeld(StepCall(s, c, ending).db, StepCall(s, c, ending).calls)
  {
    var call, r := s.calls[c], StepCall(s, c, ending);
    var move := CallMove(c, call, ending);
    assert CallFits(s.db, c, call);
    forall raw | raw in r.db.open ensures HeldBy(r.db, r.calls, raw) {
      OpenIsOldOrNew(s.db, move, raw);
      if raw in s.db.open { OpenLeft(s, c, ending, raw); }
    }
  }

  lemma StepKeepsSweepers(s: State, c: Caller, ending: Ending)
    requires Inv(s) && c in s.calls
    ensures SweepsHeld(StepCall(s, c, ending).db, StepCall(s, c, ending).calls)
  {
    var call, r := s.calls[c], StepCall(s, c, ending);
    assert CallFits(s.db, c, call);
    forall d | OfCall(d) in r.db.sweeps ensures d in r.calls && r.calls[d].pc.Sweeping? {
      SweepIsOldOrNew(s.db, CallMove(c, call, ending), OfCall(d));
    }
  }

  lemma StepCallKeepsInv(s: State, c: Caller, ending: Ending)
    requires Inv(s) && c in s.calls
    ensures Inv(StepCall(s, c, ending)) && Grows(s.db, StepCall(s, c, ending).db)
  {
    var call, r := s.calls[c], StepCall(s, c, ending);
    CallMoveFits(s, c, ending);
    MoveKeepsDb(s.db, CallMove(c, call, ending));
    StepKeepsCalls(s, c, ending);
    StepKeepsHeld(s, c, ending);
    StepKeepsSweepers(s, c, ending);
    GrowthKeepsGrace(s.db, r.db, s.grace);
    assert CallFits(s.db, c, call);
  }

  /** A move that belongs to no call's own next operation. */
  lemma OutsideKeepsInv(s: State, move: DbMove)
    requires Inv(s) && MoveFits(s.db, move) && forall c :: c in s.calls ==> Spares(move, c, s.calls[c])
    requires !move.Write? && !move.Commit? && !move.Rollback? && (move.Snapshot? || move.EndSweep? ==> move.w.Elsewhere?)
    ensures Inv(s.(db := ApplyMove(s.db, move))) && Grows(s.db, ApplyMove(s.db, move))
  {
    var db := ApplyMove(s.db, move);
    MoveKeepsDb(s.db, move);
    GrowthKeepsGrace(s.db, db, s.grace);
    forall c | c in s.calls ensures CallFits(db, c, s.calls[c]) { SparedCallFits(s, move, c); }
    forall raw | raw in db.open ensures HeldBy(db, s.calls, raw) {
      OpenIsOldOrNew(s.db, move, raw);
      assert HeldBy(s.db, s.calls, raw);
      OpenStays(s.db, move, raw);
    }
    forall d | OfCall(d) in db.sweeps ensures d in s.calls && s.calls[d].pc.Sweeping? {
      SweepIsOldOrNew(s.db, move, OfCall(d));
    }
  }

  lemma PresentKeepsInv(s: State, c: Caller, raw: Token)
    requires Inv(s) && c !in s.calls
    ensures Inv(s.(calls := s.calls[c := Call(raw, Enter)]))
  {
    var r := s.(calls := s.calls[c := Call(raw, Enter)]);
    forall d | d in r.calls ensures CallFits(r.db, d, r.calls[d]) {
      if d != c { assert CallFits(s.db, d, s.calls[d]); }
    }
    forall t | t in r.db.open ensures HeldBy(r.db, r.calls, t) { assert HeldBy(s.db, s.calls, t); }
  }

  lemma StepKeepsInv(s: State, act: Act)
    requires Inv(s)
    ensures Inv(Step(s, act)) && Grows(s.db, Step(s, act).db)
  {
    match act
    case Present(c, raw) => if c !in s.calls { PresentKeepsInv(s, c, raw); }
    case Do(c, ending) => if c in s.calls { StepCallKeepsInv(s, c, ending); }
    case Reach(_, _) => OutsideKeepsInv(s, MoveOf(s, act));
    case Other(_) => OutsideKeepsInv(s, MoveOf(s, act));
    case _ =>
  }

  lemma StepIsMove(s: State, act: Act)
    requires Inv(s)
    ensures Step(s, act).db == ApplyMove(s.db, MoveOf(s, act)) && MoveFits(s.db, MoveOf(s, act))
  {
    if act.Do? && act.c in s.calls { CallMoveFits(s, act.c, act.ending); }
  }

  lemma {:induction false} RunKeepsInv(s: State, acts: seq<Act>)
    requires Inv(s)
    ensures Inv(Run(s, acts)) && Grows(s.db, Run(s, acts).db)
  {
    if acts != [] {
      RunKeepsInv(s, acts[..|acts|-1]);
      StepKeepsInv(Run(s, acts[..|acts|-1]), acts[|acts|-1]);
    }
  }

  // ---------------------------------------------------------------- main results

  /** All calls that succeed with the same raw token return the same pair, under every interleaving. */
  lemma CallersAgree(acts: seq<Act>, c1: Caller, c2: Caller, pair1: Pair, pair2: Pair)
    requires var s := Run(EMPTY, acts);
             && c1 in s.calls && c2 in s.calls && s.calls[c1].raw == s.calls[c2].raw
             && s.calls[c1].pc == Success(pair1) && s.calls[c2].pc == Success(pair2)
    ensures pair1 == pair2
  {
    RunKeepsInv(EMPTY, acts);
    var s := Run(EMPTY, acts);
    assert CallFits(s.db, c1, s.calls[c1]) && CallFits(s.db, c2, s.calls[c2]);
  }

  /** A sign-in's chain never holds two unrevoked tokens. */
  lemma OneLiveTokenPerSignIn(acts: seq<Act>, t: Token, t': Token)
    requires var db := Run(EMPTY, acts).db;
             Live(db, t) && Live(db, t') && t in db.born && t' in db.born && db.born[t].root == db.born[t'].root
    ensures t == t'
  {
    RunKeepsInv(EMPTY, acts);
    var db := Run(EMPTY, acts).db;
    assert RowFits(db, t) && RowFits(db, t');
  }

  /**
   A token gets at most one successor, for good: once rotated it never gets another one, it is
   never live again, and no two tokens share a successor.
   */
  lemma OneSuccessor(acts: seq<Act>, more: seq<Act>, t: Token, t': Token)
    requires t in Run(EMPTY, acts).db.successor
    ensures var db, db' := Run(EMPTY, acts).db, Run(Run(EMPTY, acts), more).db;
            && t in db'.successor && db'.successor[t] == db.successor[t]
            && !Live(db', t)
            && (t' in db'.successor && t' != t ==> db'.successor[t'].refresh != db'.successor[t].refresh)
  {
    RunKeepsInv(EMPTY, acts);
    RunKeepsInv(Run(EMPTY, acts), more);
    var db' := Run(Run(EMPTY, acts), more).db;
    assert Succeeds(db', t, db'.successor[t]);
    if t in db'.rows { assert RowFits(db', t); }
    if t' in db'.successor { assert Succeeds(db', t', db'.successor[t']); }
  }

  /** Revoke-all fires only for a token whose row had already been revoked, and hits its owner. */
  lemma RevokeAllNeedsReuse(acts: seq<Act>, c: Caller, p: Profile)
    requires var s := Run(EMPTY, acts); c in s.calls && s.calls[c].pc == RevokeAll(p)
    ensures var s := Run(EMPTY, acts);
            ReuseSeen(s.db, s.calls[c].raw, p) && !Live(s.db, s.calls[c].raw)
  {
    RunKeepsInv(EMPTY, acts);
    var s := Run(EMPTY, acts);
    assert CallFits(s.db, c, s.calls[c]);
    if s.calls[c].raw in s.db.rows { assert RowFits(s.db, s.calls[c].raw); }
  }
}
