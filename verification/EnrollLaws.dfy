/**
 What the statements of an enrolment decide, written out: which licences count, which codes and stations are
 accepted, whose seat is chosen, and what a commit leaves behind.
 */
module EnrollLaws {
  import opened Options
  import opened Enroll

  // ---------------------------------------------------------------- which licences count

  /** The licence is the school's and in force at that time. */
  ghost predicate InForce(l: Licence, o: Org, now: nat) { l.org == o && l.starts <= now && now < l.ends }

  lemma SeatsOfOne(l: Licence, o: Org, now: nat)
    ensures SeatsAt([l], o, now) == if InForce(l, o, now) then l.seats else 0
  {
    assert [l][..0] == [];
    assert SeatsAt([], o, now) == 0;
  }

  lemma {:induction false} SeatsAdd(a: seq<Licence>, b: seq<Licence>, o: Org, now: nat)
    ensures SeatsAt(a + b, o, now) == SeatsAt(a, o, now) + SeatsAt(b, o, now)
  {
    if b == [] {
      assert a + b == a;
    } else {
      assert (a + b)[..|a + b| - 1] == a + b[..|b| - 1];
      SeatsAdd(a, b[..|b| - 1], o, now);
    }
  }

  /** There are seats if and only if a licence in force has some. */
  lemma {:induction false} SeatsNeedLicence(licences: seq<Licence>, o: Org, now: nat)
    ensures SeatsAt(licences, o, now) > 0 <==> exists i :: 0 <= i < |licences| && InForce(licences[i], o, now) && licences[i].seats > 0
  {
    if licences != [] {
      var front, l := licences[..|licences| - 1], licences[|licences| - 1];
      SeatsNeedLicence(front, o, now);
      assert forall i :: 0 <= i < |front| ==> licences[i] == front[i];
    }
  }

  ghost predicate Licensed(s: State, t: nat)
    requires t < |s.txs|
  {
    InLock(s.txs[t].pc) &&
    exists i :: 0 <= i < |s.licences| && InForce(s.licences[i], s.txs[t].pc.org, s.txs[t].began) && s.licences[i].seats > 0
  }

  /** Without a licence in force when it began, an enrolment or a reactivation is refused. */
  lemma UnlicensedIsRefused(s: State, t: nat)
    requires t < |s.txs| && s.txs[t].pc.Checked? && !Licensed(s, t)
    ensures Step(s, CheckSeats(t)).txs[t].pc == Refused
  {
    SeatsNeedLicence(s.licences, s.txs[t].pc.org, s.txs[t].began);
  }

  /** The licence check, counted: refused without seats, ready with a free one, else full for an enrolment and refused for a reactivation. */
  lemma SeatsDecide(s: State, t: nat)
    requires t < |s.txs| && s.txs[t].pc.Checked?
    ensures var o, pc := s.txs[t].pc.org, Step(s, CheckSeats(t)).txs[t].pc;
            var seats, active := SeatsAt(s.licences, o, s.txs[t].began), ActiveIn(s.stations, o);
            && (pc == Ready(o, None, false) <==> active < seats)
            && (pc == Full(o) <==> 0 < seats <= active && s.txs[t].task.Join?)
            && (pc == Refused <==> seats == 0 || (seats <= active && s.txs[t].task.Restore?))
  {}

  lemma {:induction false} ReadyWasChecked(s: State, acts: seq<Action>, t: nat)
    requires Initial(s) && t < |Run(s, acts).txs| && (Run(s, acts).txs[t].pc.Full? || Run(s, acts).txs[t].pc.Ready?)
    ensures SeatsAt(s.licences, Run(s, acts).txs[t].pc.org, Run(s, acts).txs[t].began) > 0
  {
    var n := |acts| - 1;
    var u := Run(s, acts[..n]);
    RunKeepsTxs(s, acts[..n]);
    ReadyStep(u, acts[n], t);
    if t < |u.txs| && (u.txs[t].pc.Full? || u.txs[t].pc.Ready?) { ReadyWasChecked(s, acts[..n], t); }
  }

  lemma ReadyStep(s: State, a: Action, t: nat)
    requires t < |Step(s, a).txs| && (Step(s, a).txs[t].pc.Full? || Step(s, a).txs[t].pc.Ready?)
    ensures t < |s.txs| && Step(s, a).txs[t].began == s.txs[t].began && InLock(s.txs[t].pc) && Step(s, a).txs[t].pc.org == s.txs[t].pc.org
    ensures s.txs[t].pc.Full? || s.txs[t].pc.Ready? || (a == CheckSeats(t) && SeatsAt(s.licences, s.txs[t].pc.org, s.txs[t].began) > 0)
  {
    if !ActsAs(a, t) || !Enabled(s, a) {
      OtherTxStays(s, a, t);
    } else if a.CheckSeats? {
      CheckedGoesOn(s, t);
    } else if a.Reclaim? {
      FullGoesOn(s, t, a.v);
    } else {
      OtherTurns(s, a, t);
    }
  }

  predicate ActsAs(a: Action, t: nat) {
    (a.ReadCode? || a.Lock? || a.Recheck? || a.CheckSeats? || a.Reclaim? || a.Commit? || a.Abort?) && a.t == t
  }

  lemma OtherTxStays(s: State, a: Action, t: nat)
    requires t < |Step(s, a).txs| && (!ActsAs(a, t) || !Enabled(s, a))
    ensures (t < |s.txs| && Step(s, a).txs[t] == s.txs[t]) || Step(s, a).txs[t].pc.Started?
  {
    if Enabled(s, a) {
      if a.Commit? {
        CommitMovesOnly(s, a.t, t);
      } else if a.ReadCode? || a.Lock? || a.Recheck? || a.CheckSeats? || a.Reclaim? || a.Abort? {
        OwnStepMovesOnly(s, a);
      }
    }
  }

  lemma CommitMovesOnly(s: State, t: nat, i: nat)
    requires t < |s.txs| && s.txs[t].pc.Ready? && i < |DoCommit(s, t).txs| && i != t
    ensures i < |s.txs| && DoCommit(s, t).txs[i] == s.txs[i]
  {}

  lemma CheckedGoesOn(s: State, t: nat)
    requires t < |s.txs| && s.txs[t].pc.Checked? && !DoCheckSeats(s, t).txs[t].pc.Refused?
    ensures var x := DoCheckSeats(s, t).txs[t];
            x.began == s.txs[t].began && (x.pc.Full? || x.pc.Ready?) && x.pc.org == s.txs[t].pc.org
            && SeatsAt(s.licences, s.txs[t].pc.org, s.txs[t].began) > 0
  {}

  lemma FullGoesOn(s: State, t: nat, v: nat)
    requires t < |s.txs| && s.txs[t].pc.Full? && s.txs[t].task.Join?
    ensures var x := DoReclaim(s, t, v).txs[t];
            x.began == s.txs[t].began && (x.pc.Refused? || ((x.pc.Full? || x.pc.Ready?) && x.pc.org == s.txs[t].pc.org))
  {}

  /** Reading, locking and re-checking come before the seats are counted, a commit and an abort after. */
  lemma OtherTurns(s: State, a: Action, t: nat)
    requires ActsAs(a, t) && Enabled(s, a) && !a.CheckSeats? && !a.Reclaim?
    ensures !Step(s, a).txs[t].pc.Full? && !Step(s, a).txs[t].pc.Ready?
  {
    match a
    case ReadCode(_) => ReadTurns(s, t);
    case Lock(_) => LockTurns(s, t);
    case Recheck(_) => RecheckTurns(s, t);
    case Commit(_) => CommitTurns(s, t);
    case Abort(_) =>
  }

  lemma ReadTurns(s: State, t: nat)
    requires t < |s.txs|
    ensures t < |DoRead(s, t).txs| && (DoRead(s, t).txs[t].pc.Queued? || DoRead(s, t).txs[t].pc.Refused?)
  {}

  lemma LockTurns(s: State, t: nat)
    requires t < |s.txs| && s.txs[t].pc.Queued?
    ensures t < |DoLock(s, t).txs|
    ensures var pc := DoLock(s, t).txs[t].pc;
            || pc == s.txs[t].pc || pc.Refused?
            || (pc == Locked(s.txs[t].pc.org) && pc.org in s.orgs && s.orgs[pc.org])
  {}

  lemma RecheckTurns(s: State, t: nat)
    requires t < |s.txs| && s.txs[t].pc.Locked?
    ensures t < |DoRecheck(s, t).txs|
    ensures DoRecheck(s, t).txs[t].pc == Checked(s.txs[t].pc.org) || DoRecheck(s, t).txs[t].pc.Refused?
  {}

  lemma CommitTurns(s: State, t: nat)
    requires t < |s.txs| && s.txs[t].pc.Ready?
    ensures t < |DoCommit(s, t).txs|
    ensures var pc := DoCommit(s, t).txs[t].pc; pc.Joined? || pc.Restored? || pc.Refused?
  {}

  /** In every run, a transaction that may still commit has a licence of its school that was in force when it began. */
  lemma ReadyIsLicensed(s: State, acts: seq<Action>, t: nat)
    requires Initial(s) && t < |Run(s, acts).txs| && Run(s, acts).txs[t].pc.Ready?
    ensures Licensed(Run(s, acts), t)
  {
    RunKeepsTxs(s, acts);
    ReadyWasChecked(s, acts, t);
    SeatsNeedLicence(s.licences, Run(s, acts).txs[t].pc.org, Run(s, acts).txs[t].began);
  }

  // ---------------------------------------------------------------- which stations count

  lemma ActiveOfOne(x: Station, o: Org)
    ensures ActiveIn([x], o) == if x.org == o && x.status == Active then 1 else 0
  {
    assert [x][..0] == [];
    assert ActiveIn([], o) == 0;
  }

  lemma {:induction false} ActiveAdd(a: seq<Station>, b: seq<Station>, o: Org)
    ensures ActiveIn(a + b, o) == ActiveIn(a, o) + ActiveIn(b, o)
  {
    if b == [] {
      assert a + b == a;
    } else {
      assert (a + b)[..|a + b| - 1] == a + b[..|b| - 1];
      ActiveAdd(a, b[..|b| - 1], o);
    }
  }

  // ---------------------------------------------------------------- codes, schools and stations

  /** The first read: a code that exists, is not revoked and has not expired leads to its school. */
  lemma CodeDecides(s: State, t: nat)
    requires t < |s.txs| && s.txs[t].pc.Started? && s.txs[t].task.Join?
    ensures var c, pc := s.txs[t].task.code, Step(s, ReadCode(t)).txs[t].pc;
            if c < |s.codes| && !s.codes[c].revoked && s.txs[t].began < s.codes[c].expires then pc == Queued(s.codes[c].org)
            else pc == Refused
  {}

  /** A reactivation queues for the school it names. */
  lemma RestoreQueues(s: State, t: nat)
    requires t < |s.txs| && s.txs[t].pc.Started? && s.txs[t].task.Restore?
    ensures Step(s, ReadCode(t)).txs[t].pc == Queued(s.txs[t].task.org)
  {}

  /** The lock of a school: refused if it does not exist, waited for while it is held, and then refused if the school is suspended. */
  lemma LockDecides(s: State, t: nat)
    requires t < |s.txs| && s.txs[t].pc.Queued?
    ensures var o, r := s.txs[t].pc.org, Step(s, Lock(t));
            && (r.txs[t].pc == Locked(o) <==> o in s.orgs && o !in s.lock && s.orgs[o])
            && (r.txs[t].pc == Refused <==> o !in s.orgs || (o !in s.lock && !s.orgs[o]))
            && (r.txs[t].pc == Queued(o) <==> o in s.orgs && o in s.lock)
            && (r.txs[t].pc == Locked(o) ==> r.lock == s.lock[o := t]) && (r.txs[t].pc != Locked(o) ==> r.lock == s.lock)
  {}

  /** Under the lock, a reactivation goes on only for a revoked station of that very school. */
  lemma RestoreDecides(s: State, t: nat)
    requires t < |s.txs| && s.txs[t].pc.Locked? && s.txs[t].task.Restore?
    ensures var v, o, pc := s.txs[t].task.station, s.txs[t].pc.org, Step(s, Recheck(t)).txs[t].pc;
            if v < |s.stations| && s.stations[v].org == o && s.stations[v].status == Revoked then pc == Checked(o) else pc == Refused
  {}

  /** At step i transaction t took the lock of a school that was not suspended. */
  ghost predicate LockedActive(s: State, acts: seq<Action>, i: nat, t: nat, o: Org) {
    i < |acts| && acts[i] == Lock(t) && o in Run(s, acts[..i]).orgs && Run(s, acts[..i]).orgs[o]
  }

  lemma LockStep(s: State, a: Action, t: nat)
    requires t < |Step(s, a).txs| && InLock(Step(s, a).txs[t].pc)
    ensures || (t < |s.txs| && InLock(s.txs[t].pc) && s.txs[t].pc.org == Step(s, a).txs[t].pc.org)
            || (a == Lock(t) && Step(s, a).txs[t].pc.org in s.orgs && s.orgs[Step(s, a).txs[t].pc.org])
  {
    if !ActsAs(a, t) || !Enabled(s, a) {
      OtherTxStays(s, a, t);
    } else {
      match a
      case ReadCode(_) => ReadTurns(s, t);
      case Lock(_) => LockTurns(s, t);
      case Recheck(_) => RecheckTurns(s, t);
      case CheckSeats(_) => CheckedGoesOn(s, t);
      case Reclaim(_, v) => FullGoesOn(s, t, v);
      case Commit(_) => CommitTurns(s, t);
      case Abort(_) =>
    }
  }

  /** In every run, whoever holds a school's lock took it while the school was active. */
  lemma {:induction false} LockNeedsActiveSchool(s: State, acts: seq<Action>, t: nat) returns (i: nat)
    requires Initial(s) && t < |Run(s, acts).txs| && InLock(Run(s, acts).txs[t].pc)
    ensures LockedActive(s, acts, i, t, Run(s, acts).txs[t].pc.org)
  {
    var front := acts[..|acts| - 1];
    var u := Run(s, front);
    LockStep(u, acts[|acts| - 1], t);
    if t < |u.txs| && InLock(u.txs[t].pc) && u.txs[t].pc.org == Run(s, acts).txs[t].pc.org {
      i := LockNeedsActiveSchool(s, front, t);
      assert front[..i] == acts[..i];
    } else {
      i := |front|;
    }
  }

  // ---------------------------------------------------------------- whose seat

  /** Silent for more than thirty minutes before `now`, on this hardware, in this school, and active. */
  ghost predicate Silent(x: Station, o: Org, hwid: nat, now: nat) {
    && x.org == o && x.hwid == hwid && x.status == Active
    && x.seen + 30 * 60 < now && x.activated + 30 * 60 < now
  }

  function Latest(x: Station): nat { if x.seen >= x.activated then x.seen else x.activated }

  /** The seat taken back is that of the least recent of the silent stations, and none is taken when there is none. */
  lemma ReclaimDecides(s: State, t: nat, v: nat)
    requires t < |s.txs| && s.txs[t].pc.Full? && s.txs[t].task.Join?
    ensures var o, hwid, now, pc := s.txs[t].pc.org, s.txs[t].task.hwid, s.txs[t].began, Step(s, Reclaim(t, v)).txs[t].pc;
            && (pc.Ready? ==>
                  && pc.victim == Some(v) && v < |s.stations| && Silent(s.stations[v], o, hwid, now)
                  && forall w :: 0 <= w < |s.stations| && Silent(s.stations[w], o, hwid, now) ==> Latest(s.stations[v]) <= Latest(s.stations[w]))
            && (pc == Refused <==> forall w :: 0 <= w < |s.stations| ==> !Silent(s.stations[w], o, hwid, now))
            && (v < |s.stations| && Silent(s.stations[v], o, hwid, now)
                && (forall w :: 0 <= w < |s.stations| && Silent(s.stations[w], o, hwid, now) ==> Latest(s.stations[v]) <= Latest(s.stations[w]))
                ==> pc.Ready?)
  {
    SilentIsStale(s.stations, s.txs[t].pc.org, s.txs[t].task.hwid, s.txs[t].began);
  }

  lemma SilentIsStale(stations: seq<Station>, o: Org, hwid: nat, now: nat)
    ensures forall w :: 0 <= w < |stations| ==> (Silent(stations[w], o, hwid, now) <==> Stale(stations[w], o, hwid, now))
    ensures forall w :: 0 <= w < |stations| ==> Latest(stations[w]) == LastSign(stations[w])
  {}

  // ---------------------------------------------------------------- what a commit leaves behind

  /** An enrolment adds one active station of its school and hardware, revokes its victim, counts one use, and touches nothing else. */
  lemma JoinCommits(s: State, t: nat)
    requires t < |s.txs| && s.txs[t].pc.Ready? && s.txs[t].task.Join? && s.txs[t].task.code < |s.codes| && Enabled(s, Commit(t))
    requires s.txs[t].pc.victim.Some? ==> s.txs[t].pc.victim.value < |s.stations|
    ensures var x, r := s.txs[t], Step(s, Commit(t));
            && r.txs[t].pc == Joined && |r.stations| == |s.stations| + 1
            && r.stations[|s.stations|] == Station(x.pc.org, x.task.hwid, Active, x.began, x.began, None)
            && (forall w :: 0 <= w < |s.stations| ==>
                  r.stations[w] == if x.pc.victim == Some(w) then s.stations[w].(status := Revoked) else s.stations[w])
            && |r.codes| == |s.codes|
            && (forall c :: 0 <= c < |s.codes| ==> r.codes[c] == if c == x.task.code then s.codes[c].(used := s.codes[c].used + 1) else s.codes[c])
  {}

  /** A reactivation makes its station active from the transaction's time on, and touches no other. */
  lemma RestoreCommits(s: State, t: nat)
    requires t < |s.txs| && s.txs[t].pc.Ready? && s.txs[t].task.Restore? && Enabled(s, Commit(t))
    ensures var x, r := s.txs[t], Step(s, Commit(t));
            && r.txs[t].pc == Restored && |r.stations| == |s.stations| && r.codes == s.codes
            && (forall w :: 0 <= w < |s.stations| ==>
                  r.stations[w] == if w == x.task.station && s.stations[w].org == x.pc.org && s.stations[w].status == Revoked
                                   then s.stations[w].(status := Active, activated := x.began) else s.stations[w])
  {}

  // ---------------------------------------------------------------- what the school's staff and the stations do

  /** A station that staff revoke or remove gives its seat back at once, and no other station is touched. */
  lemma StaffFreesSeat(s: State, v: nat, removed: bool, o: Org)
    requires var a := if removed then Remove(v) else Revoke(v); Enabled(s, a)
    ensures var r := Step(s, if removed then Remove(v) else Revoke(v));
            && |r.stations| == |s.stations| && r.stations[v] == s.stations[v].(status := if removed then Removed else Revoked)
            && (forall w :: 0 <= w < |s.stations| && w != v ==> r.stations[w] == s.stations[w])
            && ActiveIn(r.stations, o) == ActiveIn(s.stations, o) - if s.stations[v].org == o && s.stations[v].status == Active then 1 else 0
  {
    ActiveAfterSet(s.stations, v, s.stations[v].(status := if removed then Removed else Revoked), o);
  }

  /** A renewal that commits shows the station alive from its own start, one that is rolled back leaves it as it was; neither changes a seat. */
  lemma RenewalShowsLife(s: State, v: nat, wait: nat, ok: bool)
    requires Enabled(s, Renew(v))
    ensures var r := Step(Step(Step(s, Renew(v)), Tick(wait)), EndRenewal(v, ok));
            && |r.stations| == |s.stations| && r.clock == s.clock + wait
            && r.stations[v] == (if ok then s.stations[v].(seen := s.clock) else s.stations[v])
            && forall w :: 0 <= w < |s.stations| && w != v ==> r.stations[w] == s.stations[w]
  {}

  /** A transaction's time is the clock when it began, and a revoked code or a suspended school shows in the next read. */
  lemma OfficeActs(s: State, task: Task, c: nat, o: Org, active: bool)
    ensures Step(s, Begin(task)).txs == s.txs + [Tx(task, s.clock, Started)]
    ensures c < |s.codes| ==> Step(s, RevokeCode(c)).codes == s.codes[c := s.codes[c].(revoked := true)]
    ensures o in Step(s, SetOrg(o, active)).orgs && Step(s, SetOrg(o, active)).orgs[o] == active
  {}

  /** The reactivation of station w commits in this step. */
  ghost predicate Reactivates(s: State, a: Action, w: nat) {
    a.Commit? && a.t < |s.txs| && s.txs[a.t].pc.Ready? && s.txs[a.t].task.Restore? && s.txs[a.t].task.station == w
  }

  /** What one step may do to a station: only a reactivation gives a revoked one its seat back, and a removed one stays removed. */
  ghost predicate StatusGoes(s: State, a: Action, u: State, w: nat) {
    && w < |s.stations| && w < |u.stations|
    && (s.stations[w].status != Active && u.stations[w].status == Active ==> s.stations[w].status == Revoked && Reactivates(s, a, w))
    && (s.stations[w].status == Removed ==> u.stations[w].status == Removed)
  }

  lemma StatusStep(s: State, a: Action, w: nat)
    requires TxsOk(s) && w < |s.stations|
    ensures StatusGoes(s, a, Step(s, a), w)
  {
    if Enabled(s, a) && a.Commit? { assert TxOk(s, a.t); }
  }

  lemma LastStatusStep(s: State, acts: seq<Action>, w: nat)
    requires Initial(s) && acts != [] && w < |Run(s, acts[..|acts| - 1]).stations|
    ensures StatusGoes(Run(s, acts[..|acts| - 1]), acts[|acts| - 1], Run(s, acts), w)
  {
    RunKeepsTxs(s, acts[..|acts| - 1]);
    StatusStep(Run(s, acts[..|acts| - 1]), acts[|acts| - 1], w);
  }

  /** In every run a removed station stays removed. */
  lemma {:induction false} RemovedIsFinal(s: State, acts: seq<Action>, k: nat, w: nat)
    requires Initial(s) && k <= |acts| && w < |Run(s, acts[..k]).stations|
    ensures w < |Run(s, acts).stations|
    ensures Run(s, acts[..k]).stations[w].status == Removed ==> Run(s, acts).stations[w].status == Removed
  {
    if k == |acts| {
      assert acts[..k] == acts;
    } else {
      assert acts[..|acts| - 1][..k] == acts[..k];
      RemovedIsFinal(s, acts[..|acts| - 1], k, w);
      LastStatusStep(s, acts, w);
    }
  }

  /** In every run, a station that lost its seat and has one later was reactivated in between. */
  lemma {:induction false} BackOnlyByReactivation(s: State, acts: seq<Action>, k: nat, w: nat) returns (i: nat)
    requires Initial(s) && k <= |acts| && w < |Run(s, acts[..k]).stations| && Run(s, acts[..k]).stations[w].status != Active
    requires w < |Run(s, acts).stations| && Run(s, acts).stations[w].status == Active
    ensures k <= i < |acts| && Reactivates(Run(s, acts[..i]), acts[i], w)
    ensures w < |Run(s, acts[..i]).stations| && Run(s, acts[..i]).stations[w].status == Revoked
  {
    assert acts[..|acts|] == acts;
    var front := acts[..|acts| - 1];
    assert front[..k] == acts[..k];
    RemovedIsFinal(s, front, k, w);
    LastStatusStep(s, acts, w);
    if Run(s, front).stations[w].status == Active {
      i := BackOnlyByReactivation(s, front, k, w);
      assert front[..i] == acts[..i];
    } else {
      i := |front|;
    }
  }
}
