/**
 A start of a duel that nobody disturbs: step by step it does to the claim map what the sequential operations do,
 it leads to its duel whenever its players are free, and it leaves nothing behind.
 */
module ArenaStart {
  import opened Options
  import opened ArenaClaims

  /** n steps of t's own code, one after the other. */
  ghost function Alone(w: World, t: Tid, n: nat): World
    decreases n
  {
    if n == 0 then w else Alone(Step(w, GoOn(t)), t, n - 1)
  }

  /** w with t somewhere else, another claim map, mutex and set of matches. */
  ghost function Moved(w: World, t: Tid, m: map<Player, Ref>, holder: Option<Tid>, matches: set<Tid>, pc: Pc): World
    requires t in w.starts
  {
    World(m, holder, w.starts[t := Start(w.starts[t].humans, pc)], matches)
  }

  lemma MovedTwice(w: World, t: Tid, u: World, m: map<Player, Ref>, holder: Option<Tid>, matches: set<Tid>, pc: Pc)
    requires t in w.starts && t in u.starts && u == Moved(w, t, u.inMatch, u.holder, u.matches, u.starts[t].pc)
    ensures Moved(u, t, m, holder, matches, pc) == Moved(w, t, m, holder, matches, pc)
  {
    assert w.starts[t := u.starts[t]][t := Start(w.starts[t].humans, pc)] == w.starts[t := Start(w.starts[t].humans, pc)];
  }

  ghost predicate AllFree(w: World, h: seq<Player>) { forall x :: x in h ==> x !in w.inMatch }

  // ---------------------------------------------------------------- the loops

  lemma CheckStep(w: World, t: Tid, i: nat)
    requires t in w.starts && w.starts[t].pc == Checking(i) && AllFree(w, w.starts[t].humans)
    ensures Step(w, GoOn(t)) == if i < |w.starts[t].humans| then Moved(w, t, w.inMatch, w.holder, w.matches, Checking(i + 1))
                                else Moved(w, t, w.inMatch, w.holder, w.matches, Setting(0))
  {
    var h := w.starts[t].humans;
    if i < |h| {
      var x := h[i];
      assert x in h && x !in w.inMatch;
    }
  }

  lemma {:induction false} Checks(w: World, t: Tid, i: nat)
    requires t in w.starts && w.starts[t].pc == Checking(i) && AllFree(w, w.starts[t].humans) && i <= |w.starts[t].humans|
    ensures Alone(w, t, |w.starts[t].humans| - i + 1) == Moved(w, t, w.inMatch, w.holder, w.matches, Setting(0))
    decreases |w.starts[t].humans| - i
  {
    CheckStep(w, t, i);
    var u := Step(w, GoOn(t));
    if i < |w.starts[t].humans| {
      Checks(u, t, i + 1);
      MovedTwice(w, t, u, w.inMatch, w.holder, w.matches, Setting(0));
    } else {
      assert Alone(u, t, 0) == u;
    }
  }

  lemma ClaimFirst(m: map<Player, Ref>, ref: Ref, h: seq<Player>, i: nat)
    requires i < |h|
    ensures ClaimAll(m[h[i] := ref], ref, h[i + 1..]) == ClaimAll(m, ref, h[i..])
  {
    ClaimAllIs(m[h[i] := ref], ref, h[i + 1..]);
    ClaimAllIs(m, ref, h[i..]);
    assert h[i..] == [h[i]] + h[i + 1..];
    var a, b := ClaimAll(m[h[i] := ref], ref, h[i + 1..]), ClaimAll(m, ref, h[i..]);
    assert forall x :: x in a <==> x in b;
    assert forall x :: x in a ==> a[x] == b[x];
  }

  lemma ReleaseFirst(m: map<Player, Ref>, ref: Ref, h: seq<Player>, i: nat)
    requires i < |h|
    ensures ReleaseAll(if h[i] in m && m[h[i]] == ref then m - {h[i]} else m, ref, h[i + 1..]) == ReleaseAll(m, ref, h[i..])
  {
    assert h[i..] == [h[i]] + h[i + 1..];
  }

  /** m without the listed players. */
  ghost function Without(m: map<Player, Ref>, ids: seq<Player>): map<Player, Ref> { map x | x in m && x !in ids :: m[x] }

  lemma WithoutFirst(m: map<Player, Ref>, h: seq<Player>, i: nat)
    requires i < |h|
    ensures Without(m - {h[i]}, h[i + 1..]) == Without(m, h[i..])
  {
    assert h[i..] == [h[i]] + h[i + 1..];
  }

  lemma SetStep(w: World, t: Tid, i: nat)
    requires t in w.starts && w.starts[t].pc == Setting(i)
    ensures var h := w.starts[t].humans;
            Step(w, GoOn(t)) == if i < |h| then Moved(w, t, w.inMatch[h[i] := Placeholder(t)], w.holder, w.matches, Setting(i + 1))
                                else Moved(w, t, w.inMatch, None, w.matches, Claimed)
  {}

  lemma {:induction false} Sets(w: World, t: Tid, i: nat)
    requires t in w.starts && w.starts[t].pc == Setting(i) && i <= |w.starts[t].humans|
    ensures var h := w.starts[t].humans;
            Alone(w, t, |h| - i + 1) == Moved(w, t, ClaimAll(w.inMatch, Placeholder(t), h[i..]), None, w.matches, Claimed)
    decreases |w.starts[t].humans| - i
  {
    var h, u := w.starts[t].humans, Step(w, GoOn(t));
    SetStep(w, t, i);
    if i < |h| {
      Sets(u, t, i + 1);
      ClaimFirst(w.inMatch, Placeholder(t), h, i);
      MovedTwice(w, t, u, ClaimAll(w.inMatch, Placeholder(t), h[i..]), None, w.matches, Claimed);
    } else {
      assert ClaimAll(w.inMatch, Placeholder(t), h[i..]) == w.inMatch;
      assert Alone(u, t, 0) == u;
    }
  }

  lemma InstallStep(w: World, t: Tid, i: nat)
    requires t in w.starts && w.starts[t].pc == Installing(i)
    ensures var h := w.starts[t].humans;
            Step(w, GoOn(t)) == if i < |h| then Moved(w, t, w.inMatch[h[i] := Real(t)], w.holder, w.matches, Installing(i + 1))
                                else Moved(w, t, w.inMatch, None, w.matches, Playing)
  {}

  lemma {:induction false} Installs(w: World, t: Tid, i: nat)
    requires t in w.starts && w.starts[t].pc == Installing(i) && i <= |w.starts[t].humans|
    ensures var h := w.starts[t].humans;
            Alone(w, t, |h| - i + 1) == Moved(w, t, ClaimAll(w.inMatch, Real(t), h[i..]), None, w.matches, Playing)
    decreases |w.starts[t].humans| - i
  {
    var h, u := w.starts[t].humans, Step(w, GoOn(t));
    InstallStep(w, t, i);
    if i < |h| {
      Installs(u, t, i + 1);
      ClaimFirst(w.inMatch, Real(t), h, i);
      MovedTwice(w, t, u, ClaimAll(w.inMatch, Real(t), h[i..]), None, w.matches, Playing);
    } else {
      assert ClaimAll(w.inMatch, Real(t), h[i..]) == w.inMatch;
      assert Alone(u, t, 0) == u;
    }
  }

  lemma ReleaseStep(w: World, t: Tid, i: nat)
    requires t in w.starts && w.starts[t].pc == Releasing(i)
    ensures var h := w.starts[t].humans;
            var own := i < |h| && h[i] in w.inMatch && w.inMatch[h[i]] == Placeholder(t);
            Step(w, GoOn(t)) == if i < |h| then Moved(w, t, if own then w.inMatch - {h[i]} else w.inMatch, w.holder, w.matches, Releasing(i + 1))
                                else Moved(w, t, w.inMatch, None, w.matches, Failed)
  {}

  lemma {:induction false} Releases(w: World, t: Tid, i: nat)
    requires t in w.starts && w.starts[t].pc == Releasing(i) && i <= |w.starts[t].humans|
    ensures var h := w.starts[t].humans;
            Alone(w, t, |h| - i + 1) == Moved(w, t, ReleaseAll(w.inMatch, Placeholder(t), h[i..]), None, w.matches, Failed)
    decreases |w.starts[t].humans| - i
  {
    var h, u := w.starts[t].humans, Step(w, GoOn(t));
    ReleaseStep(w, t, i);
    if i < |h| {
      Releases(u, t, i + 1);
      ReleaseFirst(w.inMatch, Placeholder(t), h, i);
      MovedTwice(w, t, u, ReleaseAll(w.inMatch, Placeholder(t), h[i..]), None, w.matches, Failed);
    } else {
      assert ReleaseAll(w.inMatch, Placeholder(t), h[i..]) == w.inMatch;
      assert Alone(u, t, 0) == u;
    }
  }

  lemma CleanStep(w: World, t: Tid, i: nat)
    requires t in w.starts && w.starts[t].pc == Cleaning(i) && w.holder.None?
    ensures var h := w.starts[t].humans;
            Step(w, GoOn(t)) == if i < |h| then Moved(w, t, w.inMatch - {h[i]}, w.holder, w.matches, Cleaning(i + 1))
                                else Moved(w, t, w.inMatch, w.holder, w.matches - {t}, Over)
  {}

  lemma {:induction false} Cleans(w: World, t: Tid, i: nat)
    requires t in w.starts && w.starts[t].pc == Cleaning(i) && i <= |w.starts[t].humans| && w.holder.None?
    ensures var h := w.starts[t].humans;
            Alone(w, t, |h| - i + 1) == Moved(w, t, Without(w.inMatch, h[i..]), w.holder, w.matches - {t}, Over)
    decreases |w.starts[t].humans| - i
  {
    var h, u := w.starts[t].humans, Step(w, GoOn(t));
    CleanStep(w, t, i);
    if i < |h| {
      Cleans(u, t, i + 1);
      WithoutFirst(w.inMatch, h, i);
      MovedTwice(w, t, u, Without(w.inMatch, h[i..]), w.holder, w.matches - {t}, Over);
    } else {
      assert Without(w.inMatch, h[i..]) == w.inMatch;
      assert Alone(u, t, 0) == u;
    }
  }

  // ---------------------------------------------------------------- the operations

  lemma {:induction false} AloneOn(w: World, t: Tid, m: nat, n: nat)
    ensures Alone(w, t, m + n) == Alone(Alone(w, t, m), t, n)
    decreases m
  {
    if m > 0 { AloneOn(Step(w, GoOn(t)), t, m - 1, n); }
  }

  lemma LockStep(w: World, t: Tid)
    requires t in w.starts && w.starts[t].pc.Idle? && w.holder.None?
    ensures Step(w, GoOn(t)) == Moved(w, t, w.inMatch, Some(t), w.matches, Checking(0))
  {}

  /** With its players free, the start claims them all, as Claim does, and lets go of the mutex. */
  lemma ClaimsAlone(w: World, t: Tid)
    requires t in w.starts && w.starts[t].pc.Idle? && w.holder.None? && AllFree(w, w.starts[t].humans)
    ensures var h := w.starts[t].humans;
            Alone(w, t, 2 * |h| + 3) == Moved(w, t, ClaimAll(w.inMatch, Placeholder(t), h), None, w.matches, Claimed)
  {
    var h := w.starts[t].humans;
    LockStep(w, t);
    var locked := Moved(w, t, w.inMatch, Some(t), w.matches, Checking(0));
    Checks(locked, t, 0);
    var setting := Moved(w, t, w.inMatch, Some(t), w.matches, Setting(0));
    MovedTwice(w, t, locked, w.inMatch, Some(t), w.matches, Setting(0));
    Sets(setting, t, 0);
    MovedTwice(w, t, setting, ClaimAll(w.inMatch, Placeholder(t), h), None, w.matches, Claimed);
    assert h[0..] == h;
    AloneOn(locked, t, |h| + 1, |h| + 1);
  }

  /** The duel installed: its players point at it, and it is among the matches. */
  lemma InstallsAlone(w: World, t: Tid)
    requires t in w.starts && w.starts[t].pc.Claimed? && w.holder.None?
    ensures var h := w.starts[t].humans;
            Alone(Step(w, Install(t)), t, |h| + 1) == Moved(w, t, ClaimAll(w.inMatch, Real(t), h), None, w.matches + {t}, Playing)
  {
    var h, u := w.starts[t].humans, Step(w, Install(t));
    assert u == Moved(w, t, w.inMatch, Some(t), w.matches + {t}, Installing(0)) && h[0..] == h;
    Installs(u, t, 0);
    MovedTwice(w, t, u, ClaimAll(w.inMatch, Real(t), h), None, w.matches + {t}, Playing);
  }

  /** The slow work failed: the claim is taken back, as Release does. */
  lemma FailsAlone(w: World, t: Tid)
    requires t in w.starts && w.starts[t].pc.Claimed? && w.holder.None?
    ensures var h := w.starts[t].humans;
            Alone(Step(w, Fail(t)), t, |h| + 1) == Moved(w, t, ReleaseAll(w.inMatch, Placeholder(t), h), None, w.matches, Failed)
  {
    var h, u := w.starts[t].humans, Step(w, Fail(t));
    assert u == Moved(w, t, w.inMatch, Some(t), w.matches, Releasing(0)) && h[0..] == h;
    Releases(u, t, 0);
    MovedTwice(w, t, u, ReleaseAll(w.inMatch, Placeholder(t), h), None, w.matches, Failed);
  }

  /** The duel over: its players are free and it is no match any more. */
  lemma EndsAlone(w: World, t: Tid)
    requires t in w.starts && w.starts[t].pc.Playing? && w.holder.None?
    ensures var h := w.starts[t].humans;
            Alone(Step(w, EndDuel(t)), t, |h| + 1) == Moved(w, t, Without(w.inMatch, h), None, w.matches - {t}, Over)
  {
    var h, u := w.starts[t].humans, Step(w, EndDuel(t));
    assert u == Moved(w, t, w.inMatch, None, w.matches, Cleaning(0)) && h[0..] == h;
    Cleans(u, t, 0);
    MovedTwice(w, t, u, Without(w.inMatch, h), None, w.matches - {t}, Over);
  }

  // ---------------------------------------------------------------- a whole life

  /** The world after a start of t by itself has claimed its players. */
  ghost function AfterClaim(w: World, t: Tid, h: seq<Player>): World { Alone(Step(w, Begin(t, h)), t, 2 * |h| + 3) }

  lemma BeginsAndClaims(w: World, t: Tid, h: seq<Player>)
    requires t !in w.starts && w.holder.None? && Distinct(h) && AllFree(w, h)
    ensures AfterClaim(w, t, h) == World(ClaimAll(w.inMatch, Placeholder(t), h), None, w.starts[t := Start(h, Claimed)], w.matches)
  {
    ClaimsAlone(Step(w, Begin(t, h)), t);
    assert w.starts[t := Start(h, Idle)][t := Start(h, Claimed)] == w.starts[t := Start(h, Claimed)];
  }

  /** Free players get their duel, and when it is over the map is what it was before. */
  lemma FreePlayersPlay(w: World, t: Tid, h: seq<Player>)
    requires t !in w.starts && w.holder.None? && Distinct(h) && AllFree(w, h)
    ensures var playing := Alone(Step(AfterClaim(w, t, h), Install(t)), t, |h| + 1);
            var over := Alone(Step(playing, EndDuel(t)), t, |h| + 1);
            && t in playing.starts && playing.starts[t].pc == Playing && playing.matches == w.matches + {t} && playing.holder.None?
            && (forall x :: x in h ==> x in playing.inMatch && playing.inMatch[x] == Real(t))
            && (forall x :: x in w.inMatch ==> x in playing.inMatch && playing.inMatch[x] == w.inMatch[x])
            && over.inMatch == w.inMatch && over.matches == w.matches - {t} && over.holder.None?
  {
    BeginsAndClaims(w, t, h);
    InstallsAlone(AfterClaim(w, t, h), t);
    EndsAlone(Alone(Step(AfterClaim(w, t, h), Install(t)), t, |h| + 1), t);
    ClaimedTwice(w, t, h);
    assert w.matches + {t} - {t} == w.matches - {t};
  }

  lemma ClaimedTwice(w: World, t: Tid, h: seq<Player>)
    requires AllFree(w, h)
    ensures var m := ClaimAll(ClaimAll(w.inMatch, Placeholder(t), h), Real(t), h);
            && (forall x :: x in h ==> x in m && m[x] == Real(t))
            && (forall x :: x in w.inMatch ==> x in m && m[x] == w.inMatch[x])
            && Without(m, h) == w.inMatch
  {
    ClaimAllIs(w.inMatch, Placeholder(t), h);
    ClaimAllIs(ClaimAll(w.inMatch, Placeholder(t), h), Real(t), h);
    var m := Without(ClaimAll(ClaimAll(w.inMatch, Placeholder(t), h), Real(t), h), h);
    assert forall x :: x in m <==> x in w.inMatch;
    assert forall x :: x in m ==> m[x] == w.inMatch[x];
  }

  /** A start whose slow work fails leaves the map as it found it. */
  lemma FailedStartUndone(w: World, t: Tid, h: seq<Player>)
    requires t !in w.starts && w.holder.None? && Distinct(h) && AllFree(w, h)
    ensures var failed := Alone(Step(AfterClaim(w, t, h), Fail(t)), t, |h| + 1);
            && failed.inMatch == w.inMatch && failed.matches == w.matches && failed.holder.None?
            && t in failed.starts && failed.starts[t].pc == Failed
  {
    BeginsAndClaims(w, t, h);
    FailsAlone(AfterClaim(w, t, h), t);
    ReleaseUndoesClaim(w.inMatch, Placeholder(t), h);
  }
}
