/**
 The claim protocol that keeps a player in at most one duel. Any number of starts and finishes
 interleave; the service mutex is explicit, every access to the claim map is a step of its own,
 and the finish of a match clears its players without holding the mutex.
 */
module ArenaClaims {
  import opened Options

  type Player = int
  type Tid = int

  /** Start t's placeholder id, and the id of the match row it inserted. */
  datatype Ref = Placeholder(t: Tid) | Real(t: Tid)

  // ---------------------------------------------------------------- the claim map, sequentially

  /** m with every listed player pointing at ref. */
  function ClaimAll(m: map<Player, Ref>, ref: Ref, ids: seq<Player>): map<Player, Ref> {
    if ids == [] then m else ClaimAll(m, ref, ids[..|ids|-1])[ids[|ids|-1] := ref]
  }

  /** m without the listed players that point at ref. */
  function ReleaseAll(m: map<Player, Ref>, ref: Ref, ids: seq<Player>): map<Player, Ref> {
    map x | x in m && !(x in ids && m[x] == ref) :: m[x]
  }

  lemma ClaimAllIs(m: map<Player, Ref>, ref: Ref, ids: seq<Player>)
    ensures forall x :: x in ClaimAll(m, ref, ids) <==> x in m || x in ids
    ensures forall x :: x in ids ==> ClaimAll(m, ref, ids)[x] == ref
    ensures forall x :: x in m && x !in ids ==> ClaimAll(m, ref, ids)[x] == m[x]
  {
    if ids != [] {
      var front, last := ids[..|ids|-1], ids[|ids|-1];
      assert ids == front + [last];
      ClaimAllIs(m, ref, front);
    }
  }

  /** Undoing a claim that did not start gives back exactly the map before it. */
  lemma ReleaseUndoesClaim(m: map<Player, Ref>, ref: Ref, ids: seq<Player>)
    requires forall x :: x in ids ==> x !in m
    ensures ReleaseAll(ClaimAll(m, ref, ids), ref, ids) == m
  {
    ClaimAllIs(m, ref, ids);
    var r := ReleaseAll(ClaimAll(m, ref, ids), ref, ids);
    assert forall x :: x in r <==> x in m;
    assert forall x :: x in m ==> r[x] == m[x];
  }

  class Hub {
    var inMatch: map<Player, Ref>

    constructor ()
      ensures inMatch == map[]
    {
      inMatch := map[];
    }

    method SetMatch(id: Player, ref: Ref)
      modifies this
      ensures inMatch == old(inMatch)[id := ref]
    {
      inMatch := inMatch[id := ref];
    }

    method ClearMatch(id: Player)
      modifies this
      ensures inMatch == old(inMatch) - {id}
    {
      inMatch := inMatch - {id};
    }

    /** Claims all listed players, or none if any of them is already claimed. */
    method Claim(ref: Ref, ids: seq<Player>) returns (ok: bool)
      modifies this
      ensures ok <==> forall k :: 0 <= k < |ids| ==> ids[k] !in old(inMatch)
      ensures inMatch == if ok then ClaimAll(old(inMatch), ref, ids) else old(inMatch)
    {
      for i := 0 to |ids|
        invariant inMatch == old(inMatch)
        invariant forall k :: 0 <= k < i ==> ids[k] !in inMatch
      {
        if ids[i] in inMatch {
          return false;
        }
      }
      for i := 0 to |ids|
        invariant inMatch == ClaimAll(old(inMatch), ref, ids[..i])
      {
        assert ids[..i + 1][..i] == ids[..i];
        SetMatch(ids[i], ref);
      }
      assert ids[..|ids|] == ids;
      return true;
    }

    /** Frees the listed players that are still held by ref, and nobody else. */
    method Release(ref: Ref, ids: seq<Player>)
      modifies this
      ensures inMatch == ReleaseAll(old(inMatch), ref, ids)
    {
      for i := 0 to |ids|
        invariant inMatch == ReleaseAll(old(inMatch), ref, ids[..i])
      {
        assert ids[..i + 1] == ids[..i] + [ids[i]];
        if ids[i] in inMatch && inMatch[ids[i]] == ref {
          ClearMatch(ids[i]);
        }
      }
      assert ids[..|ids|] == ids;
    }
  }

  // ---------------------------------------------------------------- the protocol

  /** Where one start is. i counts the players already dealt with in the current loop. */
  datatype Pc =
    | Idle | Checking(i: nat) | Setting(i: nat) | Refused
    | Claimed | Releasing(i: nat) | Failed
    | Installing(i: nat) | Playing | Cleaning(i: nat) | Over

  datatype Start = Start(humans: seq<Player>, pc: Pc)

  datatype World = World(inMatch: map<Player, Ref>, holder: Option<Tid>, starts: map<Tid, Start>, matches: set<Tid>)

  /** Go on is the next step of a start's own code; Fail and Install are how the slow work between can end. */
  datatype Act = Begin(t: Tid, humans: seq<Player>) | GoOn(t: Tid) | Fail(t: Tid) | Install(t: Tid) | EndDuel(t: Tid)

  const EMPTY: World := World(map[], None, map[], {})

  predicate Distinct(ids: seq<Player>) { forall i, j :: 0 <= i < j < |ids| ==> ids[i] != ids[j] }

  function Goto(w: World, t: Tid, pc: Pc): World
    requires t in w.starts
  {
    w.(starts := w.starts[t := w.starts[t].(pc := pc)])
  }

  function Unlock(w: World): World { w.(holder := None) }

  function StepGoOn(w: World, t: Tid): World
    requires t in w.starts
  {
    var h := w.starts[t].humans;
    match w.starts[t].pc
    case Idle => if w.holder.None? then Goto(w.(holder := Some(t)), t, Checking(0)) else w
    case Checking(i) =>
      if i >= |h| then Goto(w, t, Setting(0))
      else if h[i] in w.inMatch then Goto(Unlock(w), t, Refused)
      else Goto(w, t, Checking(i + 1))
    case Setting(i) =>
      if i >= |h| then Goto(Unlock(w), t, Claimed)
      else Goto(w.(inMatch := w.inMatch[h[i] := Placeholder(t)]), t, Setting(i + 1))
    case Releasing(i) =>
      if i >= |h| then Goto(Unlock(w), t, Failed)
      else if h[i] in w.inMatch && w.inMatch[h[i]] == Placeholder(t)
      then Goto(w.(inMatch := w.inMatch - {h[i]}), t, Releasing(i + 1))
      else Goto(w, t, Releasing(i + 1))
    case Installing(i) =>
      if i >= |h| then Goto(Unlock(w), t, Playing)
      else Goto(w.(inMatch := w.inMatch[h[i] := Real(t)]), t, Installing(i + 1))
    case Cleaning(i) =>
      if i < |h| then Goto(w.(inMatch := w.inMatch - {h[i]}), t, Cleaning(i + 1))
      else if w.holder.None? then Goto(w.(matches := w.matches - {t}), t, Over)
      else w
    case _ => w
  }

  function Step(w: World, act: Act): World {
    match act
    case Begin(t, humans) =>
      if t in w.starts || !Distinct(humans) then w else w.(starts := w.starts[t := Start(humans, Idle)])
    case GoOn(t) => if t in w.starts then StepGoOn(w, t) else w
    case Fail(t) =>
      if t in w.starts && w.starts[t].pc == Claimed && w.holder.None?
      then Goto(w.(holder := Some(t)), t, Releasing(0)) else w
    case Install(t) =>
      if t in w.starts && w.starts[t].pc == Claimed && w.holder.None?
      then Goto(w.(holder := Some(t), matches := w.matches + {t}), t, Installing(0)) else w
    case EndDuel(t) =>
      if t in w.starts && w.starts[t].pc == Playing then Goto(w, t, Cleaning(0)) else w
  }

  function Run(w: World, acts: seq<Act>): World {
    if acts == [] then w else Step(Run(w, acts[..|acts|-1]), acts[|acts|-1])
  }

  // ---------------------------------------------------------------- the invariant

  predicate UnderLock(pc: Pc) { pc.Checking? || pc.Setting? || pc.Releasing? || pc.Installing? }

  /** What a start at pc holds its j-th player with. */
  function Holds(t: Tid, pc: Pc, j: nat): Option<Ref> {
    match pc
    case Setting(i) => if j < i then Some(Placeholder(t)) else None
    case Claimed => Some(Placeholder(t))
    case Releasing(i) => if j >= i then Some(Placeholder(t)) else None
    case Installing(i) => if j < i then Some(Real(t)) else Some(Placeholder(t))
    case Playing => Some(Real(t))
    case Cleaning(i) => if j >= i then Some(Real(t)) else None
    case _ => None
  }

  /** Players a lock holder has seen free or has just freed. */
  predicate SeenFree(pc: Pc, j: nat) {
    match pc
    case Checking(i) => j < i
    case Setting(i) => j >= i
    case Releasing(i) => j < i
    case _ => false
  }

  ghost predicate StartFits(w: World, t: Tid)
    requires t in w.starts
  {
    var h, pc := w.starts[t].humans, w.starts[t].pc;
    && Distinct(h)
    && (UnderLock(pc) <==> w.holder == Some(t))
    && (pc.Checking? || UnderLock(pc) || pc.Cleaning? ==> pc.i <= |h|)
    && (forall j :: 0 <= j < |h| && Holds(t, pc, j).Some? ==>
          h[j] in w.inMatch && w.inMatch[h[j]] == Holds(t, pc, j).value)
    && (forall j :: 0 <= j < |h| && SeenFree(pc, j) ==> h[j] !in w.inMatch)
    && (t in w.matches <==> pc.Installing? || pc.Playing? || pc.Cleaning?)
  }

  /** x's claim belongs to a start that holds it. */
  ghost predicate ClaimOwned(w: World, x: Player)
    requires x in w.inMatch
  {
    var ref := w.inMatch[x];
    && ref.t in w.starts
    && exists j :: 0 <= j < |w.starts[ref.t].humans| && w.starts[ref.t].humans[j] == x
                   && Holds(ref.t, w.starts[ref.t].pc, j) == Some(ref)
  }

  ghost predicate Inv(w: World) {
    && (forall t :: t in w.starts ==> StartFits(w, t))
    && (forall x :: x in w.inMatch ==> ClaimOwned(w, x))
    && (w.holder.Some? ==> w.holder.value in w.starts)
    && w.matches <= w.starts.Keys
  }

  /** A start other than the stepping one keeps its facts when the map changes only at a player it neither holds nor saw free. */
  lemma OthersKeepFit(w: World, r: World, t: Tid, u: Tid)
    requires Inv(w) && t in w.starts && u in w.starts && t != u && u in r.starts
    requires r.starts[u] == w.starts[u] && (u in r.matches <==> u in w.matches)
    requires UnderLock(w.starts[u].pc) <==> r.holder == Some(u)
    requires forall x :: x in w.inMatch && w.inMatch[x].t == u ==> x in r.inMatch && r.inMatch[x] == w.inMatch[x]
    requires UnderLock(w.starts[u].pc) ==> r.inMatch.Keys <= w.inMatch.Keys
    ensures StartFits(r, u)
  {
    assert StartFits(w, u);
    var h, pc := w.starts[u].humans, w.starts[u].pc;
    forall j | 0 <= j < |h| && Holds(u, pc, j).Some?
      ensures h[j] in r.inMatch && r.inMatch[h[j]] == Holds(u, pc, j).value
    {
      var x := h[j];
      assert x in w.inMatch && w.inMatch[x].t == u;
    }
  }

  lemma ClaimStaysOwned(w: World, r: World, t: Tid, x: Player)
    requires Inv(w) && x in w.inMatch && x in r.inMatch && r.inMatch[x] == w.inMatch[x]
    requires w.inMatch[x].t != t && w.inMatch[x].t in r.starts
    requires r.starts[w.inMatch[x].t] == w.starts[w.inMatch[x].t]
    ensures ClaimOwned(r, x)
  {
    assert ClaimOwned(w, x);
  }

  lemma SettingFacts(w: World, t: Tid)
    requires Inv(w) && t in w.starts && w.starts[t].pc.Setting?
    ensures StartFits(StepGoOn(w, t), t)
  {
    assert StartFits(w, t);
  }

  lemma InstallingFacts(w: World, t: Tid)
    requires Inv(w) && t in w.starts && w.starts[t].pc.Installing?
    ensures StartFits(StepGoOn(w, t), t)
  {
    assert StartFits(w, t);
  }

  lemma ReleasingFacts(w: World, t: Tid)
    requires Inv(w) && t in w.starts && w.starts[t].pc.Releasing?
    ensures StartFits(StepGoOn(w, t), t)
  {
    assert StartFits(w, t);
  }

  lemma CleaningFacts(w: World, t: Tid)
    requires Inv(w) && t in w.starts && w.starts[t].pc.Cleaning?
    ensures StartFits(StepGoOn(w, t), t)
  {
    assert StartFits(w, t);
  }

  lemma GoOnOwnFacts(w: World, t: Tid)
    requires Inv(w) && t in w.starts
    ensures StartFits(StepGoOn(w, t), t)
  {
    assert StartFits(w, t);
    match w.starts[t].pc
    case Setting(_) => SettingFacts(w, t);
    case Installing(_) => InstallingFacts(w, t);
    case Releasing(_) => ReleasingFacts(w, t);
    case Cleaning(_) => CleaningFacts(w, t);
    case _ =>
  }

  /** The claims that are the stepping start's own afterwards. */
  lemma GoOnOwnClaims(w: World, t: Tid, x: Player)
    requires Inv(w) && t in w.starts && x in StepGoOn(w, t).inMatch && StepGoOn(w, t).inMatch[x].t == t
    ensures ClaimOwned(StepGoOn(w, t), x)
  {
    var r := StepGoOn(w, t);
    if x in w.inMatch && w.inMatch[x] == r.inMatch[x] { OldClaimStaysOwn(w, t, x); } else { NewClaimIsOwn(w, t, x); }
  }

  lemma OldClaimStaysOwn(w: World, t: Tid, x: Player)
    requires Inv(w) && t in w.starts && x in w.inMatch && w.inMatch[x].t == t
    requires x in StepGoOn(w, t).inMatch && StepGoOn(w, t).inMatch[x] == w.inMatch[x]
    ensures ClaimOwned(StepGoOn(w, t), x)
  {
    assert StartFits(w, t) && ClaimOwned(w, x);
    var r := StepGoOn(w, t);
    var h, pc := w.starts[t].humans, w.starts[t].pc;
    var j :| 0 <= j < |h| && h[j] == x && Holds(t, pc, j) == Some(w.inMatch[x]);
    HoldGoesOn(w, t, j);
    assert Holds(t, r.starts[t].pc, j) == Some(r.inMatch[x]) && r.starts[t].humans == h;
  }

  /** What a start holds of its j-th player it still holds after its next step, if the map still says so. */
  lemma HoldGoesOn(w: World, t: Tid, j: nat)
    requires t in w.starts && StartFits(w, t) && j < |w.starts[t].humans| && Holds(t, w.starts[t].pc, j).Some?
    requires var x := w.starts[t].humans[j];
             x in StepGoOn(w, t).inMatch && StepGoOn(w, t).inMatch[x] == Holds(t, w.starts[t].pc, j).value
    ensures t in StepGoOn(w, t).starts && StepGoOn(w, t).starts[t].humans == w.starts[t].humans
    ensures Holds(t, StepGoOn(w, t).starts[t].pc, j) == Holds(t, w.starts[t].pc, j)
  {}

  lemma NewClaimIsOwn(w: World, t: Tid, x: Player)
    requires t in w.starts && x in StepGoOn(w, t).inMatch && StepGoOn(w, t).inMatch[x].t == t
    requires x !in w.inMatch || w.inMatch[x] != StepGoOn(w, t).inMatch[x]
    ensures ClaimOwned(StepGoOn(w, t), x)
  {
    var r, h, pc := StepGoOn(w, t), w.starts[t].humans, w.starts[t].pc;
    assert h[pc.i] == x && Holds(t, r.starts[t].pc, pc.i) == Some(r.inMatch[x]);
  }

  lemma GoOnKeepsInv(w: World, t: Tid)
    requires Inv(w) && t in w.starts
    ensures Inv(StepGoOn(w, t))
  {
    assert StartFits(w, t);
    var r := StepGoOn(w, t);
    GoOnOwnFacts(w, t);
    forall u | u in r.starts ensures StartFits(r, u) {
      if u != t { GoOnOthers(w, t, u); }
    }
    forall x | x in r.inMatch ensures ClaimOwned(r, x) {
      if r.inMatch[x].t == t { GoOnOwnClaims(w, t, x); } else { ClaimStaysOwned(w, r, t, x); }
    }
  }

  lemma GoOnOthers(w: World, t: Tid, u: Tid)
    requires Inv(w) && t in w.starts && u in w.starts && u != t
    ensures StartFits(StepGoOn(w, t), u)
  {
    assert StartFits(w, t) && StartFits(w, u);
    OthersKeepFit(w, StepGoOn(w, t), t, u);
  }

  /** Moving one start to a place where it holds the same players keeps everything. */
  lemma GotoKeepsInv(w: World, t: Tid, r: World, pc: Pc)
    requires Inv(w) && t in w.starts
    requires r == Goto(w.(holder := r.holder, matches := r.matches), t, pc) && StartFits(r, t)
    requires forall j: nat :: Holds(t, pc, j) == Holds(t, w.starts[t].pc, j)
    requires r.holder == w.holder || (w.holder.None? && r.holder == Some(t))
    requires r.matches - {t} == w.matches - {t}
    ensures Inv(r)
  {
    forall u | u in r.starts ensures StartFits(r, u) {
      if u != t {
        assert StartFits(w, u);
        assert u in r.matches - {t} <==> u in w.matches - {t};
        OthersKeepFit(w, r, t, u);
      }
    }
    forall x | x in r.inMatch ensures ClaimOwned(r, x) {
      assert ClaimOwned(w, x);
    }
    assert forall u :: u in r.matches && u != t ==> u in r.matches - {t};
  }

  lemma BeginKeepsInv(w: World, t: Tid, humans: seq<Player>)
    requires Inv(w)
    ensures Inv(Step(w, Begin(t, humans)))
  {
    var r := Step(w, Begin(t, humans));
    forall u | u in r.starts ensures StartFits(r, u) {
      if u in w.starts { assert StartFits(w, u); }
    }
    forall x | x in r.inMatch ensures ClaimOwned(r, x) {
      assert ClaimOwned(w, x);
    }
  }

  lemma StepKeepsInv(w: World, act: Act)
    requires Inv(w)
    ensures Inv(Step(w, act))
  {
    if act.Begin? {
      BeginKeepsInv(w, act.t, act.humans);
    } else if act.t in w.starts {
      if act.GoOn? {
        GoOnKeepsInv(w, act.t);
      } else {
        TurnKeepsInv(w, act);
      }
    }
  }

  lemma TurnFits(w: World, act: Act)
    requires (act.Fail? || act.Install? || act.EndDuel?) && act.t in w.starts && StartFits(w, act.t) && Step(w, act) != w
    ensures var r := Step(w, act); StartFits(r, act.t) && forall j: nat :: Holds(act.t, r.starts[act.t].pc, j) == Holds(act.t, w.starts[act.t].pc, j)
  {}

  /** The turns a start takes from outside: its slow work fails or succeeds, its duel ends. */
  lemma TurnKeepsInv(w: World, act: Act)
    requires Inv(w) && (act.Fail? || act.Install? || act.EndDuel?) && act.t in w.starts
    ensures Inv(Step(w, act))
  {
    var r := Step(w, act);
    assert StartFits(w, act.t);
    if r != w {
      TurnFits(w, act);
      GotoKeepsInv(w, act.t, r, r.starts[act.t].pc);
    }
  }

  lemma {:induction false} RunKeepsInv(acts: seq<Act>)
    ensures Inv(Run(EMPTY, acts))
  {
    if acts != [] {
      RunKeepsInv(acts[..|acts|-1]);
      StepKeepsInv(Run(EMPTY, acts[..|acts|-1]), acts[|acts|-1]);
    }
  }

  // ---------------------------------------------------------------- main results

  /** Between a successful claim and the end of the duel it led to. */
  predicate Live(pc: Pc) { pc.Claimed? || pc.Installing? || pc.Playing? }

  /**
   For every interleaving: a running duel's players all point at it, and no player is in two
   claimed or running duels.
   */
  lemma NoPlayerInTwoDuels(acts: seq<Act>, t: Tid, u: Tid)
    ensures var w := Run(EMPTY, acts);
            && (t in w.starts && w.starts[t].pc.Playing? ==>
                  forall x :: x in w.starts[t].humans ==> x in w.inMatch && w.inMatch[x] == Real(t))
            && (t in w.starts && u in w.starts && t != u && Live(w.starts[t].pc) && Live(w.starts[u].pc) ==>
                  forall x :: x in w.starts[t].humans ==> x !in w.starts[u].humans)
  {
    RunKeepsInv(acts);
    var w := Run(EMPTY, acts);
    if t in w.starts { assert StartFits(w, t); }
    if t in w.starts && u in w.starts && t != u && Live(w.starts[t].pc) && Live(w.starts[u].pc) {
      forall x | x in w.starts[t].humans ensures x !in w.starts[u].humans {
        LiveHolds(w, t, x);
        if x in w.starts[u].humans { LiveHolds(w, u, x); }
      }
    }
  }

  lemma LiveHolds(w: World, t: Tid, x: Player)
    requires Inv(w) && t in w.starts && Live(w.starts[t].pc) && x in w.starts[t].humans
    ensures x in w.inMatch && w.inMatch[x].t == t
  {
    assert StartFits(w, t);
    var j :| 0 <= j < |w.starts[t].humans| && w.starts[t].humans[j] == x;
    assert Holds(t, w.starts[t].pc, j).Some?;
  }

  /**
   A start that does not lead to a duel holds nobody afterwards, and at the moment a failed start
   lets go of the mutex its players are free.
   */
  lemma FailedStartLeavesPlayersFree(acts: seq<Act>, t: Tid)
    requires t in Run(EMPTY, acts).starts
    ensures var w := Run(EMPTY, acts);
            var pc := w.starts[t].pc;
            && (pc.Refused? || pc.Failed? || pc.Over? ==> forall x :: x in w.inMatch ==> w.inMatch[x].t != t)
            && (pc == Releasing(|w.starts[t].humans|) ==>
                  && Step(w, GoOn(t)).starts[t].pc == Failed
                  && forall x :: x in w.starts[t].humans ==> x !in Step(w, GoOn(t)).inMatch)
  {
    RunKeepsInv(acts);
    var w := Run(EMPTY, acts);
    assert StartFits(w, t);
    forall x | x in w.inMatch && w.inMatch[x].t == t
      ensures !(w.starts[t].pc.Refused? || w.starts[t].pc.Failed? || w.starts[t].pc.Over?)
    {
      assert ClaimOwned(w, x);
    }
  }

  /** A start is refused only when it meets one of its players claimed, and then leaves the map as it was. */
  lemma RefusedOnlyForClaimed(w: World, act: Act, t: Tid)
    requires t in w.starts && !w.starts[t].pc.Refused? && t in Step(w, act).starts && Step(w, act).starts[t].pc.Refused?
    ensures w.starts[t].pc.Checking? && Step(w, act).inMatch == w.inMatch
    ensures exists j :: 0 <= j < |w.starts[t].humans| && w.starts[t].humans[j] in w.inMatch
  {
    var h, i := w.starts[t].humans, w.starts[t].pc.i;
    assert i < |h| && h[i] in w.inMatch;
  }
}
