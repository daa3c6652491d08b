/**
 The optimistic, idempotent rating transaction: any number of callers, each retrying its own
 rated duel, interleaved one Redis command at a time. WATCH is modelled by key versions: EXEC
 applies exactly when no watched key was written since.
 */
module ArenaRating {
  import opened ArenaRules

  type Player = int
  type MatchId = int
  type CallId = int

  const START_RATING: int := 1000
  const MAX_ATTEMPTS: nat := 8

  /** What the finish of a duel hands to the rating store; the same on every retry. */
  datatype Game = Game(a: Player, b: Player, scoreA: int, scoreB: int)

  datatype Setup = Setup(p: int -> real, k: real, game: MatchId -> Game)

  datatype Applied = Applied(deltaA: int, deltaB: int)

  datatype Key = RatingKey(player: Player) | ResultKey(id: MatchId)

  /** Versions of the watched keys at WATCH time. */
  datatype Snap = Snap(result: nat, a: nat, b: nat)

  /** life (history): how often the result key had lapsed when the call returned. */
  datatype Pc =
    | Ready(attempts: nat)
    | Watching(attempts: nat, snap: Snap)
    | Missed(attempts: nat, snap: Snap)
    | GotA(attempts: nat, snap: Snap, ra: int)
    | GotB(attempts: nat, snap: Snap, ra: int, rb: int)
    | Returned(applied: Applied, life: nat)
    | Errored

  datatype Call = Call(id: MatchId, pc: Pc)

  /** `log` and `expired` are history: every EXEC that applied, every result key that lapsed. */
  datatype Store = Store(
    ratings: map<Player, int>, results: map<MatchId, Applied>, versions: map<Key, nat>,
    calls: map<CallId, Call>, log: seq<(MatchId, Applied)>, expired: multiset<MatchId>)

  /** The Redis commands of one call; Fault is any error reply. */
  datatype Command = Watch | GetResult | GetA | GetB | Exec(replyLost: bool) | Fault

  datatype Act = Begin(c: CallId, id: MatchId) | Do(c: CallId, command: Command) | Expire(id: MatchId)

  const EMPTY: Store := Store(map[], map[], map[], map[], [], multiset{})

  function Rating(s: Store, x: Player): int { if x in s.ratings then s.ratings[x] else START_RATING }

  function Version(s: Store, key: Key): nat { if key in s.versions then s.versions[key] else 0 }

  function Bump(versions: map<Key, nat>, key: Key): map<Key, nat> {
    versions[key := (if key in versions then versions[key] else 0) + 1]
  }

  ghost predicate Sound(u: Setup) {
    IsPowerTable(u.p) && forall id :: u.game(id).a != u.game(id).b
  }

  /** 1, 0 or a half: the ELO score of the first player. */
  function EloScore(scoreA: int, scoreB: int): real {
    if scoreA > scoreB then 1.0 else if scoreA < scoreB then 0.0 else 0.5
  }

  function Deltas(u: Setup, g: Game, ra: int, rb: int): Applied
    requires u.p(rb - ra) > 0.0 && u.p(ra - rb) > 0.0
  {
    Applied(EloDelta(u.p, ra, rb, EloScore(g.scoreA, g.scoreB), u.k),
            EloDelta(u.p, rb, ra, EloScore(g.scoreB, g.scoreA), u.k))
  }

  function SnapOf(s: Store, u: Setup, id: MatchId): Snap {
    Snap(Version(s, ResultKey(id)), Version(s, RatingKey(u.game(id).a)), Version(s, RatingKey(u.game(id).b)))
  }

  function SetPc(s: Store, c: CallId, pc: Pc): Store
    requires c in s.calls
  {
    s.(calls := s.calls[c := s.calls[c].(pc := pc)])
  }

  function Commit(s: Store, u: Setup, id: MatchId, ra: int, rb: int): Store
    requires u.p(rb - ra) > 0.0 && u.p(ra - rb) > 0.0
  {
    var g := u.game(id);
    var d := Deltas(u, g, ra, rb);
    s.(ratings := s.ratings[g.a := ra + d.deltaA][g.b := rb + d.deltaB],
       results := s.results[id := d],
       versions := Bump(Bump(Bump(s.versions, RatingKey(g.a)), RatingKey(g.b)), ResultKey(id)),
       log := s.log + [(id, d)])
  }

  function StepExec(s: Store, u: Setup, c: CallId, replyLost: bool): Store
    requires c in s.calls && s.calls[c].pc.GotB? && Sound(u)
  {
    var id, pc := s.calls[c].id, s.calls[c].pc;
    assert u.p(pc.rb - pc.ra) > 0.0 && u.p(pc.ra - pc.rb) > 0.0;
    if SnapOf(s, u, id) == pc.snap then
      SetPc(Commit(s, u, id, pc.ra, pc.rb), c,
            if replyLost then Errored else Returned(Deltas(u, u.game(id), pc.ra, pc.rb), s.expired[id]))
    else SetPc(s, c, if pc.attempts + 1 < MAX_ATTEMPTS then Ready(pc.attempts + 1) else Errored)
  }

  /** One command of one call; a command that does not fit its position changes nothing. */
  function StepCall(s: Store, u: Setup, c: CallId, command: Command): Store
    requires Sound(u) && c in s.calls
  {
    var id, pc := s.calls[c].id, s.calls[c].pc;
    match command
    case Watch => if pc.Ready? then SetPc(s, c, Watching(pc.attempts, SnapOf(s, u, id))) else s
    case GetResult =>
      if !pc.Watching? then s
      else SetPc(s, c, if id in s.results then Returned(s.results[id], s.expired[id]) else Missed(pc.attempts, pc.snap))
    case GetA => if pc.Missed? then SetPc(s, c, GotA(pc.attempts, pc.snap, Rating(s, u.game(id).a))) else s
    case GetB => if pc.GotA? then SetPc(s, c, GotB(pc.attempts, pc.snap, pc.ra, Rating(s, u.game(id).b))) else s
    case Exec(replyLost) => if pc.GotB? then StepExec(s, u, c, replyLost) else s
    case Fault => if pc.Returned? then s else SetPc(s, c, Errored)
  }

  function Step(s: Store, u: Setup, act: Act): Store
    requires Sound(u)
  {
    match act
    case Begin(c, id) => if c in s.calls then s else s.(calls := s.calls[c := Call(id, Ready(0))])
    case Expire(id) =>
      if id in s.results then s.(results := s.results - {id}, expired := s.expired + multiset{id}) else s
    case Do(c, command) => if c in s.calls then StepCall(s, u, c, command) else s
  }

  function Run(s: Store, u: Setup, acts: seq<Act>): Store
    requires Sound(u)
  {
    if acts == [] then s else Step(Run(s, u, acts[..|acts|-1]), u, acts[|acts|-1])
  }

  // ---------------------------------------------------------------- what the log says

  function TimesApplied(log: seq<(MatchId, Applied)>, id: MatchId): nat {
    if log == [] then 0
    else TimesApplied(log[..|log|-1], id) + (if log[|log|-1].0 == id then 1 else 0)
  }

  /** The deltas of the n-th time the duel was applied, counted from 0. */
  function Nth(log: seq<(MatchId, Applied)>, id: MatchId, n: nat): Applied
    requires n < TimesApplied(log, id)
  {
    var front := log[..|log|-1];
    if n < TimesApplied(front, id) then Nth(front, id, n) else log[|log|-1].1
  }

  lemma NthStays(log: seq<(MatchId, Applied)>, e: (MatchId, Applied), id: MatchId, n: nat)
    requires n < TimesApplied(log, id)
    ensures n < TimesApplied(log + [e], id) && Nth(log + [e], id, n) == Nth(log, id, n)
  {
    assert (log + [e])[..|log|] == log;
  }

  /** What the applied results did to one player's rating. */
  function Gained(u: Setup, log: seq<(MatchId, Applied)>, x: Player): int {
    if log == [] then 0
    else
      var (id, d) := log[|log|-1];
      Gained(u, log[..|log|-1], x)
      + (if u.game(id).a == x then d.deltaA else if u.game(id).b == x then d.deltaB else 0)
  }

  /** Opposite, bounded, and never against the score. */
  ghost predicate Fair(u: Setup, bound: int, id: MatchId, d: Applied) {
    && d.deltaB == -d.deltaA
    && -bound <= d.deltaA <= bound
    && (u.game(id).scoreA > u.game(id).scoreB ==> d.deltaA >= 0)
    && (u.game(id).scoreA < u.game(id).scoreB ==> d.deltaA <= 0)
  }

  lemma DeltasAreFair(u: Setup, id: MatchId, ra: int, rb: int, bound: int)
    requires Sound(u) && Factor(u.k) <= bound as real
    ensures u.p(rb - ra) > 0.0 && u.p(ra - rb) > 0.0
    ensures Fair(u, bound, id, Deltas(u, u.game(id), ra, rb))
  {
    var g := u.game(id);
    var score := EloScore(g.scoreA, g.scoreB);
    EloDeltaLaws(u.p, ra, rb, score, u.k, bound);
    assert EloScore(g.scoreB, g.scoreA) == 1.0 - score;
  }

  // ---------------------------------------------------------------- the invariant

  ghost predicate SnapPast(s: Store, u: Setup, id: MatchId, snap: Snap) {
    var now := SnapOf(s, u, id);
    snap.result <= now.result && snap.a <= now.a && snap.b <= now.b
  }

  /** What a caller has read is still true as long as its watched keys were not written. */
  ghost predicate CallFits(s: Store, u: Setup, call: Call) {
    var id, pc := call.id, call.pc;
    match pc
    case Watching(_, snap) => SnapPast(s, u, id, snap)
    case Missed(_, snap) =>
      SnapPast(s, u, id, snap) && (SnapOf(s, u, id).result == snap.result ==> id !in s.results)
    case GotA(_, snap, ra) =>
      && SnapPast(s, u, id, snap) && (SnapOf(s, u, id).result == snap.result ==> id !in s.results)
      && (SnapOf(s, u, id).a == snap.a ==> Rating(s, u.game(id).a) == ra)
    case GotB(_, snap, ra, rb) =>
      && SnapPast(s, u, id, snap) && (SnapOf(s, u, id).result == snap.result ==> id !in s.results)
      && (SnapOf(s, u, id).a == snap.a ==> Rating(s, u.game(id).a) == ra)
      && (SnapOf(s, u, id).b == snap.b ==> Rating(s, u.game(id).b) == rb)
    case Returned(d, life) => (id, d) in s.log && life < TimesApplied(s.log, id) && Nth(s.log, id, life) == d
    case _ => true
  }

  ghost predicate CallsFit(s: Store, u: Setup) { forall c :: c in s.calls ==> CallFits(s, u, s.calls[c]) }

  ghost predicate CountsFit(s: Store) {
    && (forall id :: TimesApplied(s.log, id) == s.expired[id] + (if id in s.results then 1 else 0))
    && (forall id :: id in s.results ==> (id, s.results[id]) in s.log && Nth(s.log, id, s.expired[id]) == s.results[id])
  }

  ghost predicate RatingsFit(s: Store, u: Setup) {
    forall x :: Rating(s, x) == START_RATING + Gained(u, s.log, x)
  }

  ghost predicate LogFair(s: Store, u: Setup, bound: int) {
    forall i :: 0 <= i < |s.log| ==> Fair(u, bound, s.log[i].0, s.log[i].1)
  }

  ghost predicate Inv(s: Store, u: Setup, bound: int) {
    CallsFit(s, u) && CountsFit(s) && RatingsFit(s, u) && LogFair(s, u, bound)
  }

  lemma CommitKeepsCall(s: Store, u: Setup, id: MatchId, ra: int, rb: int, call: Call)
    requires Sound(u) && u.p(rb - ra) > 0.0 && u.p(ra - rb) > 0.0 && CallFits(s, u, call)
    ensures CallFits(Commit(s, u, id, ra, rb), u, call)
  {
    var g := u.game(id);
    assert g.a != g.b && RatingKey(g.a) != RatingKey(g.b);
    if call.pc.Returned? { NthStays(s.log, (id, Deltas(u, g, ra, rb)), call.id, call.pc.life); }
  }

  lemma CommitKeepsRatings(s: Store, u: Setup, id: MatchId, ra: int, rb: int)
    requires Sound(u) && u.p(rb - ra) > 0.0 && u.p(ra - rb) > 0.0 && RatingsFit(s, u)
    requires Rating(s, u.game(id).a) == ra && Rating(s, u.game(id).b) == rb
    ensures RatingsFit(Commit(s, u, id, ra, rb), u)
  {
    var r := Commit(s, u, id, ra, rb);
    assert r.log[..|r.log|-1] == s.log;
    assert u.game(id).a != u.game(id).b;
  }

  lemma CommitKeepsRest(s: Store, u: Setup, id: MatchId, ra: int, rb: int, bound: int)
    requires Sound(u) && Inv(s, u, bound) && Factor(u.k) <= bound as real
    requires u.p(rb - ra) > 0.0 && u.p(ra - rb) > 0.0
    requires id !in s.results && Rating(s, u.game(id).a) == ra && Rating(s, u.game(id).b) == rb
    ensures var r := Commit(s, u, id, ra, rb);
            CountsFit(r) && RatingsFit(r, u) && LogFair(r, u, bound)
  {
    DeltasAreFair(u, id, ra, rb, bound);
    CommitKeepsRatings(s, u, id, ra, rb);
    var r := Commit(s, u, id, ra, rb);
    assert r.log[..|r.log|-1] == s.log;
    forall x | x in r.results ensures (x, r.results[x]) in r.log && TimesApplied(r.log, x) > r.expired[x] && Nth(r.log, x, r.expired[x]) == r.results[x] {
      if x != id { NthStays(s.log, (id, r.results[id]), x, s.expired[x]); } else { assert r.log[|s.log|] == (id, r.results[id]); }
    }
  }

  lemma CommitKeepsCalls(s: Store, u: Setup, id: MatchId, ra: int, rb: int)
    requires Sound(u) && u.p(rb - ra) > 0.0 && u.p(ra - rb) > 0.0 && CallsFit(s, u)
    ensures CallsFit(Commit(s, u, id, ra, rb), u)
  {
    forall x | x in s.calls ensures CallFits(Commit(s, u, id, ra, rb), u, s.calls[x]) {
      CommitKeepsCall(s, u, id, ra, rb, s.calls[x]);
    }
  }

  /** Only the moved caller needs a look: nothing else in the store depends on positions. */
  lemma SetPcKeepsInv(s: Store, u: Setup, c: CallId, pc: Pc, bound: int)
    requires c in s.calls && Inv(s, u, bound) && CallFits(s, u, s.calls[c].(pc := pc))
    ensures Inv(SetPc(s, c, pc), u, bound)
  {
    var r := SetPc(s, c, pc);
    forall x | x in r.calls ensures CallFits(r, u, r.calls[x]) {
      assert CallFits(s, u, s.calls[x]);
      SameStoreSameFit(s, r, u, r.calls[x]);
    }
    assert forall x :: Rating(r, x) == Rating(s, x);
  }

  lemma SameStoreSameFit(s: Store, r: Store, u: Setup, call: Call)
    requires r == s.(calls := r.calls)
    ensures CallFits(r, u, call) == CallFits(s, u, call)
  {}

  /** What a commit logs is the application of the key's current life. */
  lemma CommitIsLast(s: Store, u: Setup, id: MatchId, ra: int, rb: int)
    requires u.p(rb - ra) > 0.0 && u.p(ra - rb) > 0.0 && CountsFit(s) && id !in s.results
    ensures var r, d := Commit(s, u, id, ra, rb), Deltas(u, u.game(id), ra, rb);
            (id, d) in r.log && s.expired[id] < TimesApplied(r.log, id) && Nth(r.log, id, s.expired[id]) == d
  {
    var r, d := Commit(s, u, id, ra, rb), Deltas(u, u.game(id), ra, rb);
    assert r.log[|s.log|] == (id, d) && r.log[..|s.log|] == s.log;
  }

  lemma CommitKeepsInv(s: Store, u: Setup, id: MatchId, ra: int, rb: int, bound: int)
    requires Sound(u) && Inv(s, u, bound) && Factor(u.k) <= bound as real
    requires u.p(rb - ra) > 0.0 && u.p(ra - rb) > 0.0
    requires id !in s.results && Rating(s, u.game(id).a) == ra && Rating(s, u.game(id).b) == rb
    ensures Inv(Commit(s, u, id, ra, rb), u, bound)
  {
    CommitKeepsRest(s, u, id, ra, rb, bound);
    CommitKeepsCalls(s, u, id, ra, rb);
  }

  lemma ExecKeepsInv(s: Store, u: Setup, c: CallId, replyLost: bool, bound: int)
    requires Sound(u) && Inv(s, u, bound) && Factor(u.k) <= bound as real
    requires c in s.calls && s.calls[c].pc.GotB?
    ensures Inv(StepExec(s, u, c, replyLost), u, bound)
  {
    var call := s.calls[c];
    assert CallFits(s, u, call);
    if SnapOf(s, u, call.id) == call.pc.snap {
      var ra, rb := call.pc.ra, call.pc.rb;
      assert u.p(rb - ra) > 0.0 && u.p(ra - rb) > 0.0;
      CommitKeepsInv(s, u, call.id, ra, rb, bound);
      CommitIsLast(s, u, call.id, ra, rb);
      SetPcKeepsInv(Commit(s, u, call.id, ra, rb), u, c,
                    if replyLost then Errored else Returned(Deltas(u, u.game(call.id), ra, rb), s.expired[call.id]), bound);
    } else {
      SetPcKeepsInv(s, u, c, if call.pc.attempts + 1 < MAX_ATTEMPTS then Ready(call.pc.attempts + 1) else Errored, bound);
    }
  }

  lemma StepCallKeepsInv(s: Store, u: Setup, c: CallId, command: Command, bound: int)
    requires Sound(u) && Inv(s, u, bound) && Factor(u.k) <= bound as real
    requires c in s.calls
    ensures Inv(StepCall(s, u, c, command), u, bound)
  {
    assert CallFits(s, u, s.calls[c]);
    if command.Exec? {
      if s.calls[c].pc.GotB? { ExecKeepsInv(s, u, c, command.replyLost, bound); }
    } else {
      var r := StepCall(s, u, c, command);
      if r != s { SetPcKeepsInv(s, u, c, r.calls[c].pc, bound); }
    }
  }

  lemma ExpireKeepsInv(s: Store, u: Setup, id: MatchId, bound: int)
    requires Sound(u) && Inv(s, u, bound)
    ensures Inv(Step(s, u, Expire(id)), u, bound)
  {
    if id in s.results {
      var r := Step(s, u, Expire(id));
      forall x | x in r.calls ensures CallFits(r, u, r.calls[x]) { ExpireKeepsCall(s, u, id, s.calls[x]); }
      forall x ensures Rating(r, x) == Rating(s, x) {}
      ExpireKeepsCounts(s, id);
    }
  }

  lemma ExpireKeepsCall(s: Store, u: Setup, id: MatchId, call: Call)
    requires CallFits(s, u, call)
    ensures CallFits(s.(results := s.results - {id}, expired := s.expired + multiset{id}), u, call)
  {}

  lemma ExpireKeepsCounts(s: Store, id: MatchId)
    requires CountsFit(s) && id in s.results
    ensures CountsFit(s.(results := s.results - {id}, expired := s.expired + multiset{id}))
  {
    var r := s.(results := s.results - {id}, expired := s.expired + multiset{id});
    forall x ensures r.expired[x] == s.expired[x] + if x == id then 1 else 0 {}
  }

  lemma StepKeepsInv(s: Store, u: Setup, act: Act, bound: int)
    requires Sound(u) && Inv(s, u, bound) && Factor(u.k) <= bound as real
    ensures Inv(Step(s, u, act), u, bound)
  {
    match act
    case Begin(c, id) =>
      var r := Step(s, u, act);
      forall x | x in r.calls ensures CallFits(r, u, r.calls[x]) {
        if x in s.calls { assert CallFits(s, u, s.calls[x]); SameStoreSameFit(s, r, u, r.calls[x]); }
      }
      assert forall x :: Rating(r, x) == Rating(s, x);
    case Expire(id) => ExpireKeepsInv(s, u, id, bound);
    case Do(c, command) => if c in s.calls { StepCallKeepsInv(s, u, c, command, bound); }
  }

  lemma {:induction false} RunKeepsInv(u: Setup, acts: seq<Act>, bound: int)
    requires Sound(u) && Factor(u.k) <= bound as real
    ensures Inv(Run(EMPTY, u, acts), u, bound)
  {
    if acts != [] {
      RunKeepsInv(u, acts[..|acts|-1], bound);
      StepKeepsInv(Run(EMPTY, u, acts[..|acts|-1]), u, acts[|acts|-1], bound);
    }
  }

  // ---------------------------------------------------------------- main results

  ghost predicate Succeeded(s: Store, c: CallId, id: MatchId) {
    c in s.calls && s.calls[c].id == id && s.calls[c].pc.Returned?
  }

  /**
   A duel moves the ratings exactly once for each life of its result key: as often as the key has lapsed, and
   once more if it is there. So it is rated at most once while the key never lapses.
   */
  lemma RatedAtMostOnce(u: Setup, acts: seq<Act>, id: MatchId)
    requires Sound(u)
    ensures var s := Run(EMPTY, u, acts);
            && TimesApplied(s.log, id) == s.expired[id] + (if id in s.results then 1 else 0)
            && (s.expired[id] == 0 ==> TimesApplied(s.log, id) <= 1)
  {
    RunKeepsInv(u, acts, Factor(u.k).Floor + 1);
  }

  /**
   Every successful call returns fair deltas that were applied. Two of them differ only if the result key
   lapsed between their answers.
   */
  lemma CallsAgreeInOneLife(u: Setup, acts: seq<Act>, bound: int, id: MatchId, c1: CallId, c2: CallId)
    requires Sound(u) && Factor(u.k) <= bound as real
    requires Succeeded(Run(EMPTY, u, acts), c1, id) && Succeeded(Run(EMPTY, u, acts), c2, id)
    ensures var s := Run(EMPTY, u, acts);
            var r1, r2 := s.calls[c1].pc, s.calls[c2].pc;
            && Fair(u, bound, id, r1.applied) && (id, r1.applied) in s.log
            && (r1.life == r2.life ==> r1.applied == r2.applied)
            && (r1.applied != r2.applied ==> r1.life != r2.life && s.expired[id] >= 1)
  {
    RunKeepsInv(u, acts, bound);
    var s := Run(EMPTY, u, acts);
    assert CallFits(s, u, s.calls[c1]) && CallFits(s, u, s.calls[c2]);
  }

  function Total(s: Store, roster: seq<Player>): int {
    if roster == [] then 0 else Total(s, roster[..|roster|-1]) + Rating(s, roster[|roster|-1])
  }

  ghost predicate Distinct(roster: seq<Player>) {
    forall i, j :: 0 <= i < j < |roster| ==> roster[i] != roster[j]
  }

  function GainedBy(u: Setup, log: seq<(MatchId, Applied)>, roster: seq<Player>): int {
    if roster == [] then 0 else GainedBy(u, log, roster[..|roster|-1]) + Gained(u, log, roster[|roster|-1])
  }

  function GainOf(u: Setup, e: (MatchId, Applied), x: Player): int {
    if u.game(e.0).a == x then e.1.deltaA else if u.game(e.0).b == x then e.1.deltaB else 0
  }

  function RosterGain(u: Setup, e: (MatchId, Applied), roster: seq<Player>): int {
    if roster == [] then 0 else RosterGain(u, e, roster[..|roster|-1]) + GainOf(u, e, roster[|roster|-1])
  }

  lemma GainedBySnoc(u: Setup, log: seq<(MatchId, Applied)>, e: (MatchId, Applied), roster: seq<Player>)
    ensures GainedBy(u, log + [e], roster) == GainedBy(u, log, roster) + RosterGain(u, e, roster)
  {
    if roster != [] {
      GainedBySnoc(u, log, e, roster[..|roster|-1]);
      assert (log + [e])[..|log + [e]|-1] == log;
    }
  }

  lemma GainOnRoster(u: Setup, e: (MatchId, Applied), roster: seq<Player>)
    requires Distinct(roster) && u.game(e.0).a != u.game(e.0).b
    ensures RosterGain(u, e, roster) == (if u.game(e.0).a in roster then e.1.deltaA else 0)
                                    + (if u.game(e.0).b in roster then e.1.deltaB else 0)
  {
    if roster != [] {
      var front, last := roster[..|roster|-1], roster[|roster|-1];
      assert roster == front + [last];
      GainOnRoster(u, e, front);
    }
  }

  lemma NothingGained(u: Setup, bound: int, log: seq<(MatchId, Applied)>, roster: seq<Player>)
    requires Sound(u) && Distinct(roster)
    requires forall id :: u.game(id).a in roster && u.game(id).b in roster
    requires forall i :: 0 <= i < |log| ==> Fair(u, bound, log[i].0, log[i].1)
    ensures GainedBy(u, log, roster) == 0
  {
    if log == [] {
      NoLogNoGain(u, roster);
    } else {
      var front, e := log[..|log|-1], log[|log|-1];
      assert log == front + [e];
      NothingGained(u, bound, front, roster);
      GainedBySnoc(u, front, e, roster);
      GainOnRoster(u, e, roster);
    }
  }

  lemma NoLogNoGain(u: Setup, roster: seq<Player>)
    ensures GainedBy(u, [], roster) == 0
  {}

  lemma TotalFromGains(s: Store, u: Setup, roster: seq<Player>)
    requires RatingsFit(s, u)
    ensures Total(s, roster) == START_RATING * |roster| + GainedBy(u, s.log, roster)
  {}

  /** The sum of all ratings never changes, whatever is interleaved, retried, lost or expired. */
  lemma TotalRatingConserved(u: Setup, acts: seq<Act>, roster: seq<Player>)
    requires Sound(u) && Distinct(roster)
    requires forall id :: u.game(id).a in roster && u.game(id).b in roster
    ensures Total(Run(EMPTY, u, acts), roster) == START_RATING * |roster|
  {
    var bound := Factor(u.k).Floor + 1;
    RunKeepsInv(u, acts, bound);
    var s := Run(EMPTY, u, acts);
    NothingGained(u, bound, s.log, roster);
    TotalFromGains(s, u, roster);
  }

  /** The score handed to the rating formula: 1 for the higher, 0 for the lower, a half each for a draw. */
  lemma EloScoreIs(a: int, b: int)
    ensures (EloScore(a, b) == 1.0 <==> a > b) && (EloScore(a, b) == 0.0 <==> a < b) && (EloScore(a, b) == 0.5 <==> a == b)
  {}

  /** A call gives up on conflicts only at its eighth attempt, and an error reply ends it without a change. */
  lemma GivesUpAfterEight(s: Store, u: Setup, c: CallId, replyLost: bool)
    requires Sound(u) && c in s.calls && s.calls[c].pc.GotB? && SnapOf(s, u, s.calls[c].id) != s.calls[c].pc.snap
    ensures var r := Step(s, u, Do(c, Exec(replyLost)));
            && r.ratings == s.ratings && r.results == s.results && r.log == s.log && c in r.calls
            && r.calls[c].pc == if s.calls[c].pc.attempts < 7 then Ready(s.calls[c].pc.attempts + 1) else Errored
  {}

  // ---------------------------------------------------------------- a duel rated twice

  lemma {:induction false} RunOn(s: Store, u: Setup, acts: seq<Act>, more: seq<Act>)
    requires Sound(u)
    ensures Run(s, u, acts + more) == Run(Run(s, u, acts), u, more)
  {
    if more == [] {
      assert acts + more == acts;
    } else {
      assert (acts + more)[..|acts + more|-1] == acts + more[..|more|-1];
      RunOn(s, u, acts, more[..|more|-1]);
    }
  }

  lemma Then(s: Store, u: Setup, acts: seq<Act>, act: Act)
    requires Sound(u)
    ensures Run(s, u, acts + [act]) == Step(Run(s, u, acts), u, act)
  {
    assert (acts + [act])[..|acts|] == acts;
  }

  /** s with call c for duel id at pc. */
  ghost function CallAt(s: Store, c: CallId, id: MatchId, pc: Pc): Store { s.(calls := s.calls[c := Call(id, pc)]) }

  lemma MovesOn(s: Store, c: CallId, id: MatchId, pc: Pc, pc': Pc)
    ensures SetPc(CallAt(s, c, id, pc), c, pc') == CallAt(s, c, id, pc')
  {
    assert s.calls[c := Call(id, pc)][c := Call(id, pc')] == s.calls[c := Call(id, pc')];
  }

  lemma ReadsAlone(s: Store, u: Setup, c: CallId, id: MatchId) returns (acts: seq<Act>)
    requires Sound(u) && c !in s.calls && id !in s.results
    ensures Run(s, u, acts) == CallAt(s, c, id, GotB(0, SnapOf(s, u, id), Rating(s, u.game(id).a), Rating(s, u.game(id).b)))
  {
    var snap, ra, rb := SnapOf(s, u, id), Rating(s, u.game(id).a), Rating(s, u.game(id).b);
    acts := [] + [Begin(c, id)];
    Then(s, u, [], Begin(c, id));
    Then(s, u, acts, Do(c, Watch));
    MovesOn(s, c, id, Ready(0), Watching(0, snap));
    acts := acts + [Do(c, Watch)];
    Then(s, u, acts, Do(c, GetResult));
    MovesOn(s, c, id, Watching(0, snap), Missed(0, snap));
    acts := acts + [Do(c, GetResult)];
    Then(s, u, acts, Do(c, GetA));
    MovesOn(s, c, id, Missed(0, snap), GotA(0, snap, ra));
    acts := acts + [Do(c, GetA)];
    Then(s, u, acts, Do(c, GetB));
    MovesOn(s, c, id, GotA(0, snap, ra), GotB(0, snap, ra, rb));
    acts := acts + [Do(c, GetB)];
  }

  /** A call that nobody disturbs applies the duel to the ratings as they are. */
  lemma RatesAlone(s: Store, u: Setup, c: CallId, id: MatchId) returns (acts: seq<Act>)
    requires Sound(u) && c !in s.calls && id !in s.results
    ensures var ra, rb := Rating(s, u.game(id).a), Rating(s, u.game(id).b);
            && u.p(rb - ra) > 0.0 && u.p(ra - rb) > 0.0
            && Run(s, u, acts) ==
                 CallAt(Commit(s, u, id, ra, rb), c, id, Returned(Deltas(u, u.game(id), ra, rb), s.expired[id]))
  {
    var ra, rb := Rating(s, u.game(id).a), Rating(s, u.game(id).b);
    assert u.p(rb - ra) > 0.0 && u.p(ra - rb) > 0.0;
    acts := ReadsAlone(s, u, c, id);
    var ready := GotB(0, SnapOf(s, u, id), ra, rb);
    Then(s, u, acts, Do(c, Exec(false)));
    acts := acts + [Do(c, Exec(false))];
    ExecAlone(s, u, c, id, ready);
    MovesOn(Commit(s, u, id, ra, rb), c, id, ready, Returned(Deltas(u, u.game(id), ra, rb), s.expired[id]));
  }

  lemma ExecAlone(s: Store, u: Setup, c: CallId, id: MatchId, pc: Pc)
    requires Sound(u) && pc.GotB? && pc.snap == SnapOf(s, u, id)
    ensures u.p(pc.rb - pc.ra) > 0.0 && u.p(pc.ra - pc.rb) > 0.0
    ensures StepExec(CallAt(s, c, id, pc), u, c, false) ==
              SetPc(CallAt(Commit(s, u, id, pc.ra, pc.rb), c, id, pc), c, Returned(Deltas(u, u.game(id), pc.ra, pc.rb), s.expired[id]))
  {
    assert u.p(pc.rb - pc.ra) > 0.0 && u.p(pc.ra - pc.rb) > 0.0;
    assert SnapOf(CallAt(s, c, id, pc), u, id) == pc.snap;
  }

  lemma PowerOfZero(p: int -> real)
    requires IsPowerTable(p)
    ensures p(0) == 1.0
  {
    assert p(0) > 0.0 && p(0) * p(-0) == 1.0;
    SquareOfOne(p(0));
  }

  lemma SquareOfOne(x: real)
    requires x > 0.0 && x * x == 1.0
    ensures x == 1.0
  {
    assert (x - 1.0) * (x + 1.0) == 0.0;
  }

  lemma FavouriteExpectsMore(x: real)
    requires 0.0 < x <= 0.9
    ensures 1.0 / (1.0 + x) >= 10.0 / 19.0
  {
    var e := 1.0 / (1.0 + x);
    assert e * (1.0 + x) == 1.0;
    if e < 10.0 / 19.0 { SmallerProduct(e, 1.0 + x); }
  }

  lemma SmallerProduct(e: real, y: real)
    requires 0.0 < y <= 1.9 && e < 10.0 / 19.0
    ensures e * y < 1.0
  {
    assert (10.0 / 19.0 - e) * y > 0.0;
    assert (10.0 / 19.0 - e) * y == 10.0 / 19.0 * y - e * y;
  }

  lemma EvenWinShare()
    ensures Share(32.0, 0.5) == 16
  {}

  lemma ExpectedWinShare(e: real)
    requires e >= 10.0 / 19.0
    ensures Share(32.0, 1.0 - e) <= 15
  {
    assert 32.0 * (1.0 - e) < 15.5;
    RoundIsMonotone(32.0 * (1.0 - e), 15.4);
  }

  /** A first win between equals is worth 16; repeated at the ratings it led to, it is worth less. */
  lemma SecondWinIsWorthLess(u: Setup, g: Game)
    requires Sound(u) && u.k == 32.0 && u.p(-32) <= 0.9 && g.scoreA > g.scoreB
    ensures u.p(0) > 0.0 && u.p(-32) > 0.0 && u.p(32) > 0.0
    ensures Deltas(u, g, 1000, 1000) == Applied(16, -16)
    ensures Deltas(u, g, 1016, 984).deltaA <= 15
  {
    PowerOfZero(u.p);
    EvenWinShare();
    EloDeltaLaws(u.p, 1000, 1000, 1.0, 32.0, 32);
    assert u.p(-32) > 0.0 && u.p(32) > 0.0;
    FavouriteExpectsMore(u.p(-32));
    ExpectedWinShare(ExpectedScore(u.p, 1016, 984));
  }

  lemma RatedAgain(s: Store, u: Setup, id: MatchId, c: CallId) returns (acts: seq<Act>)
    requires Sound(u) && u.k == 32.0 && u.p(-32) <= 0.9 && u.game(id).scoreA > u.game(id).scoreB
    requires c !in s.calls && id !in s.results && Rating(s, u.game(id).a) == 1016 && Rating(s, u.game(id).b) == 984
    ensures var r := Run(s, u, acts);
            && Succeeded(r, c, id) && r.calls[c].pc.applied.deltaA <= 15
            && id in r.results && r.expired == s.expired
            && forall d :: d in s.calls && d != c ==> d in r.calls && r.calls[d] == s.calls[d]
  {
    SecondWinIsWorthLess(u, u.game(id));
    acts := RatesAlone(s, u, c, id);
  }

  lemma RatedFirst(u: Setup, id: MatchId) returns (acts: seq<Act>)
    requires Sound(u) && u.k == 32.0 && u.p(-32) <= 0.9 && u.game(id).scoreA > u.game(id).scoreB
    ensures var s := Run(EMPTY, u, acts);
            && Succeeded(s, 1, id) && s.calls.Keys == {1} && s.calls[1].pc.applied == Applied(16, -16)
            && id !in s.results && s.expired[id] == 1
            && Rating(s, u.game(id).a) == 1016 && Rating(s, u.game(id).b) == 984
  {
    SecondWinIsWorthLess(u, u.game(id));
    var rated := RatesAlone(EMPTY, u, 1, id);
    Then(EMPTY, u, rated, Expire(id));
    acts := rated + [Expire(id)];
  }

  /**
   With the stock K factor, any table on which 32 points more make a favourite (ten to the power -32/400 is 0.83)
   and any duel that was won: its result key lapses, the finish is tried again, the duel is rated twice, and the
   two calls return different deltas.
   */
  lemma LapsedKeyRatesTwice(u: Setup, id: MatchId) returns (acts: seq<Act>)
    requires Sound(u) && u.k == 32.0 && u.p(-32) <= 0.9 && u.game(id).scoreA > u.game(id).scoreB
    ensures var s := Run(EMPTY, u, acts);
            && TimesApplied(s.log, id) == 2
            && Succeeded(s, 1, id) && Succeeded(s, 2, id) && s.calls[1].pc.applied != s.calls[2].pc.applied
  {
    var first := RatedFirst(u, id);
    var second := RatedAgain(Run(EMPTY, u, first), u, id, 2);
    RunOn(EMPTY, u, first, second);
    acts := first + second;
    RatedAtMostOnce(u, acts, id);
  }
}
