/**
 Seats on a school's licence. Enrolment and reactivation are transactions that read, queue for the
 school's row lock, check under it and commit; token renewals, revocations, deletions and code
 revocations run beside them without that lock. A statement is one step, and a transaction's writes
 become visible at its commit and hold their rows until then. In PostgreSQL now() is the time the
 transaction began, and a statement that has waited for a row does not choose it anew.
 */
module Enroll {
  import opened Options

  type Org = nat

  datatype Status = Active | Revoked | Removed

  /** `renewing` is the time a token renewal has written but not committed as the last sign. */
  datatype Station = Station(org: Org, hwid: nat, status: Status, seen: nat, activated: nat, renewing: Option<nat>)
  datatype Code = Code(org: Org, maxUses: nat, used: nat, revoked: bool, expires: nat)
  datatype Licence = Licence(org: Org, seats: nat, starts: nat, ends: nat)

  const STALE_SEAT_AFTER: nat := 1800 // seconds

  datatype Task = Join(code: nat, hwid: nat) | Restore(org: Org, station: nat)

  /** raced (history): the victim's row was held by a renewal when it was chosen. */
  datatype Pc =
    | Started
    | Queued(org: Org)
    | Locked(org: Org)
    | Checked(org: Org)
    | Full(org: Org)
    | Ready(org: Org, victim: Option<nat>, raced: bool)
    | Joined
    | Restored
    | Refused

  datatype Tx = Tx(task: Task, began: nat, pc: Pc)

  datatype State = State(
    clock: nat,
    orgs: map<Org, bool>,
    lock: map<Org, nat>,
    stations: seq<Station>,
    codes: seq<Code>,
    licences: seq<Licence>,
    txs: seq<Tx>)

  datatype Action =
    | Tick(d: nat)
    | Begin(task: Task)
    | ReadCode(t: nat)
    | Lock(t: nat)
    | Recheck(t: nat)
    | CheckSeats(t: nat)
    | Reclaim(t: nat, v: nat)
    | Commit(t: nat)
    | Abort(t: nat)
    | Renew(v: nat)
    | EndRenewal(v: nat, ok: bool)
    | Revoke(v: nat)
    | Remove(v: nat)
    | RevokeCode(c: nat)
    | SetOrg(o: Org, active: bool)

  // ---------------------------------------------------------------- what the statements read

  function SeatsAt(licences: seq<Licence>, o: Org, now: nat): nat
  {
    if licences == [] then 0
    else
      var l := licences[|licences| - 1];
      SeatsAt(licences[..|licences| - 1], o, now) + if l.org == o && l.starts <= now < l.ends then l.seats else 0
  }

  function ActiveIn(stations: seq<Station>, o: Org): nat
  {
    if stations == [] then 0
    else ActiveIn(stations[..|stations| - 1], o) + Occupies(stations[|stations| - 1], o)
  }

  function Occupies(x: Station, o: Org): nat { if x.org == o && x.status.Active? then 1 else 0 }

  function LastSign(x: Station): nat { if x.seen < x.activated then x.activated else x.seen }

  /** An active station of the school with this hardware, silent for the whole grace period before `now`. */
  predicate Stale(x: Station, o: Org, hwid: nat, now: nat)
  {
    x.org == o && x.hwid == hwid && x.status.Active? && LastSign(x) + STALE_SEAT_AFTER < now
  }

  predicate Stalest(stations: seq<Station>, v: nat, o: Org, hwid: nat, now: nat)
  {
    && v < |stations| && Stale(stations[v], o, hwid, now)
    && forall w :: 0 <= w < |stations| && Stale(stations[w], o, hwid, now) ==> LastSign(stations[v]) <= LastSign(stations[w])
  }

  predicate CodeLive(codes: seq<Code>, c: nat, now: nat)
  {
    c < |codes| && !codes[c].revoked && now < codes[c].expires
  }

  predicate InLock(pc: Pc) { pc.Locked? || pc.Checked? || pc.Full? || pc.Ready? }

  /** The update that revokes a victim holds its row until the commit, or is next to get it. */
  ghost predicate RowLocked(s: State, v: nat) { exists t: nat :: HasVictim(s, t, v) }

  predicate HasVictim(s: State, t: nat, v: nat) { t < |s.txs| && s.txs[t].pc.Ready? && s.txs[t].pc.victim == Some(v) }

  predicate MustWait(s: State, victim: Option<nat>) {
    victim.Some? && victim.value < |s.stations| && s.stations[victim.value].renewing.Some?
  }

  function Renewed(x: Station, ok: bool): Station
    requires x.renewing.Some?
  {
    x.(seen := if ok then x.renewing.value else x.seen, renewing := None)
  }

  // ---------------------------------------------------------------- the steps

  function At(s: State, t: nat, pc: Pc): State
    requires t < |s.txs|
  {
    s.(txs := s.txs[t := s.txs[t].(pc := pc)])
  }

  /** The transaction ends and gives up the lock if it has it. */
  function End(s: State, t: nat, pc: Pc): State
    requires t < |s.txs|
  {
    if InLock(s.txs[t].pc) then At(s, t, pc).(lock := s.lock - {s.txs[t].pc.org}) else At(s, t, pc)
  }

  function DoRead(s: State, t: nat): State
    requires t < |s.txs|
  {
    match s.txs[t].task
    case Join(c, _) => if CodeLive(s.codes, c, s.txs[t].began) then At(s, t, Queued(s.codes[c].org)) else At(s, t, Refused)
    case Restore(o, _) => At(s, t, Queued(o))
  }

  function DoLock(s: State, t: nat): State
    requires t < |s.txs| && s.txs[t].pc.Queued?
  {
    var o := s.txs[t].pc.org;
    if o !in s.orgs then At(s, t, Refused)
    else if o in s.lock then s
    else if !s.orgs[o] then At(s, t, Refused)
    else At(s, t, Locked(o)).(lock := s.lock[o := t])
  }

  function DoRecheck(s: State, t: nat): State
    requires t < |s.txs| && s.txs[t].pc.Locked?
  {
    var o := s.txs[t].pc.org;
    var ok := match s.txs[t].task
      case Join(c, _) => CodeLive(s.codes, c, s.txs[t].began) && s.codes[c].used < s.codes[c].maxUses
      case Restore(_, v) => v < |s.stations| && s.stations[v].org == o && s.stations[v].status.Revoked?;
    if ok then At(s, t, Checked(o)) else End(s, t, Refused)
  }

  function DoCheckSeats(s: State, t: nat): State
    requires t < |s.txs| && s.txs[t].pc.Checked?
  {
    var o := s.txs[t].pc.org;
    var seats := SeatsAt(s.licences, o, s.txs[t].began);
    if seats == 0 then End(s, t, Refused)
    else if ActiveIn(s.stations, o) < seats then At(s, t, Ready(o, None, false))
    else if s.txs[t].task.Join? then At(s, t, Full(o))
    else End(s, t, Refused)
  }

  /** Which of several equally silent stations the database picks is not determined: v is its pick. */
  function DoReclaim(s: State, t: nat, v: nat): State
    requires t < |s.txs| && s.txs[t].pc.Full? && s.txs[t].task.Join?
  {
    var o, hwid, now := s.txs[t].pc.org, s.txs[t].task.hwid, s.txs[t].began;
    if Stalest(s.stations, v, o, hwid, now) then At(s, t, Ready(o, Some(v), s.stations[v].renewing.Some?))
    else if forall w :: 0 <= w < |s.stations| ==> !Stale(s.stations[w], o, hwid, now) then End(s, t, Refused)
    else s
  }

  function WithStatus(stations: seq<Station>, v: nat, status: Status): seq<Station>
  {
    if v < |stations| then stations[v := stations[v].(status := status)] else stations
  }

  function AfterReclaim(stations: seq<Station>, victim: Option<nat>): seq<Station>
  {
    if victim.Some? then WithStatus(stations, victim.value, Revoked) else stations
  }

  function NewStation(o: Org, hwid: nat, now: nat): Station { Station(o, hwid, Active, now, now, None) }

  function DoCommit(s: State, t: nat): State
    requires t < |s.txs| && s.txs[t].pc.Ready?
  {
    var o, now := s.txs[t].pc.org, s.txs[t].began;
    match s.txs[t].task
    case Join(c, hwid) =>
      if c < |s.codes| then
        End(s, t, Joined).(
          stations := AfterReclaim(s.stations, s.txs[t].pc.victim) + [NewStation(o, hwid, now)],
          codes := s.codes[c := s.codes[c].(used := s.codes[c].used + 1)])
      else End(s, t, Refused)
    case Restore(_, v) =>
      if v < |s.stations| && s.stations[v].org == o && s.stations[v].status.Revoked? then
        End(s, t, Restored).(stations := s.stations[v := s.stations[v].(status := Active, activated := now)])
      else End(s, t, Restored)
  }

  ghost predicate Enabled(s: State, a: Action)
  {
    match a
    case Tick(_) => true
    case Begin(_) => true
    case ReadCode(t) => t < |s.txs| && s.txs[t].pc.Started?
    case Lock(t) => t < |s.txs| && s.txs[t].pc.Queued?
    case Recheck(t) => t < |s.txs| && s.txs[t].pc.Locked?
    case CheckSeats(t) => t < |s.txs| && s.txs[t].pc.Checked?
    case Reclaim(t, _) => t < |s.txs| && s.txs[t].pc.Full? && s.txs[t].task.Join?
    case Commit(t) => t < |s.txs| && s.txs[t].pc.Ready? && !MustWait(s, s.txs[t].pc.victim)
    case Abort(t) => t < |s.txs| && !s.txs[t].pc.Joined? && !s.txs[t].pc.Restored?
    case Renew(v) => v < |s.stations| && s.stations[v].renewing.None? && !RowLocked(s, v)
    case EndRenewal(v, _) => v < |s.stations| && s.stations[v].renewing.Some?
    case Revoke(v) => v < |s.stations| && s.stations[v].status.Active? && s.stations[v].renewing.None? && !RowLocked(s, v)
    case Remove(v) => v < |s.stations| && s.stations[v].renewing.None? && !RowLocked(s, v)
    case RevokeCode(c) => c < |s.codes|
    case SetOrg(_, _) => true
  }

  /** One step; an action that is not enabled changes nothing. */
  ghost function Step(s: State, a: Action): State
  {
    if !Enabled(s, a) then s else
    match a
    case Tick(d) => s.(clock := s.clock + d)
    case Begin(task) => s.(txs := s.txs + [Tx(task, s.clock, Started)])
    case ReadCode(t) => DoRead(s, t)
    case Lock(t) => DoLock(s, t)
    case Recheck(t) => DoRecheck(s, t)
    case CheckSeats(t) => DoCheckSeats(s, t)
    case Reclaim(t, v) => DoReclaim(s, t, v)
    case Commit(t) => DoCommit(s, t)
    case Abort(t) => End(s, t, Refused)
    case Renew(v) => s.(stations := s.stations[v := s.stations[v].(renewing := Some(s.clock))])
    case EndRenewal(v, ok) => s.(stations := s.stations[v := Renewed(s.stations[v], ok)])
    case Revoke(v) => s.(stations := WithStatus(s.stations, v, Revoked))
    case Remove(v) => s.(stations := WithStatus(s.stations, v, Removed))
    case RevokeCode(c) => s.(codes := s.codes[c := s.codes[c].(revoked := true)])
    case SetOrg(o, active) => s.(orgs := s.orgs[o := active])
  }

  ghost function Run(s: State, acts: seq<Action>): State
  {
    if acts == [] then s else Step(Run(s, acts[..|acts| - 1]), acts[|acts| - 1])
  }

  // ---------------------------------------------------------------- counting seats

  lemma {:induction false} ActiveAfterSet(stations: seq<Station>, v: nat, x: Station, o: Org)
    requires v < |stations|
    ensures ActiveIn(stations[v := x], o) == ActiveIn(stations, o) - Occupies(stations[v], o) + Occupies(x, o)
  {
    var front := stations[..|stations| - 1];
    if v == |stations| - 1 {
      assert stations[v := x][..|stations| - 1] == front;
    } else {
      ActiveAfterSet(front, v, x, o);
      assert stations[v := x][..|stations| - 1] == front[v := x];
    }
  }

  lemma ActiveAfterAppend(stations: seq<Station>, x: Station, o: Org)
    ensures ActiveIn(stations + [x], o) == ActiveIn(stations, o) + Occupies(x, o)
  {
    assert (stations + [x])[..|stations|] == stations;
  }

  // ---------------------------------------------------------------- the invariant

  /** What a transaction has established and the lock keeps true until it ends. */
  ghost predicate TxOk(s: State, t: nat)
    requires t < |s.txs|
  {
    var x := s.txs[t];
    && x.began <= s.clock
    && (InLock(x.pc) ==> x.pc.org in s.lock && s.lock[x.pc.org] == t)
    && (x.task.Join? && (x.pc.Queued? || InLock(x.pc)) ==>
         x.task.code < |s.codes| && s.codes[x.task.code].org == x.pc.org && x.began < s.codes[x.task.code].expires)
    && (x.task.Join? && (x.pc.Checked? || x.pc.Full? || x.pc.Ready?) ==> s.codes[x.task.code].used < s.codes[x.task.code].maxUses)
    && (x.pc.Full? ==> x.task.Join?)
    && (x.pc.Ready? && x.pc.victim.None? ==> ActiveIn(s.stations, x.pc.org) < SeatsAt(s.licences, x.pc.org, x.began))
    && (x.pc.Ready? && x.pc.victim.Some? ==>
         && x.task.Join? && x.pc.victim.value < |s.stations|
         && Reclaimable(s.stations[x.pc.victim.value], x.pc.org, x.task.hwid, x.began)
         && (!x.pc.raced ==>
              && s.stations[x.pc.victim.value].renewing.None?
              && Stale(s.stations[x.pc.victim.value], x.pc.org, x.task.hwid, x.began)))
  }

  /** What stays true of a victim while its transaction waits for the row and holds it. */
  predicate Reclaimable(x: Station, o: Org, hwid: nat, now: nat)
  {
    x.org == o && x.hwid == hwid && x.status.Active? && x.activated + STALE_SEAT_AFTER < now
  }

  ghost predicate TxsOk(s: State) { forall t :: 0 <= t < |s.txs| ==> TxOk(s, t) }

  /** Transactions that only move their own program counter. */
  lemma MoveKeepsOthers(s: State, t: nat, u: State, i: nat)
    requires TxsOk(s) && t < |s.txs| && |u.txs| == |s.txs| && i < |s.txs| && i != t && u.txs[i] == s.txs[i]
    requires u.clock == s.clock && u.stations == s.stations && u.codes == s.codes && u.licences == s.licences
    requires forall o :: o in s.lock && s.lock[o] == i ==> o in u.lock && u.lock[o] == i
    ensures TxOk(u, i)
  {
    assert TxOk(s, i);
  }

  lemma EndKeepsTxs(s: State, t: nat, pc: Pc)
    requires TxsOk(s) && t < |s.txs| && !InLock(pc) && !pc.Queued?
    ensures TxsOk(End(s, t, pc))
  {
    var u := End(s, t, pc);
    assert TxOk(s, t);
    forall i | 0 <= i < |u.txs| ensures TxOk(u, i) {
      if i != t { MoveKeepsOthers(s, t, u, i); }
    }
  }

  lemma AtKeepsTxs(s: State, t: nat, pc: Pc)
    requires TxsOk(s) && t < |s.txs| && TxOk(At(s, t, pc), t)
    ensures TxsOk(At(s, t, pc))
  {
    var u := At(s, t, pc);
    forall i | 0 <= i < |u.txs| ensures TxOk(u, i) {
      if i != t { MoveKeepsOthers(s, t, u, i); }
    }
  }

  lemma LockKeepsTxs(s: State, t: nat)
    requires TxsOk(s) && t < |s.txs| && s.txs[t].pc.Queued?
    ensures TxsOk(DoLock(s, t))
  {
    var u := DoLock(s, t);
    assert TxOk(s, t);
    forall i | 0 <= i < |u.txs| ensures TxOk(u, i) {
      if i != t && u != s { MoveKeepsOthers(s, t, u, i); }
    }
  }

  lemma ReadKeepsTxs(s: State, t: nat)
    requires TxsOk(s) && t < |s.txs| && s.txs[t].pc.Started?
    ensures TxsOk(DoRead(s, t))
  {
    assert TxOk(s, t);
    AtKeepsTxs(s, t, DoRead(s, t).txs[t].pc);
  }

  lemma RecheckKeepsTxs(s: State, t: nat)
    requires TxsOk(s) && t < |s.txs| && s.txs[t].pc.Locked?
    ensures TxsOk(DoRecheck(s, t))
  {
    assert TxOk(s, t);
    if DoRecheck(s, t).txs[t].pc.Refused? { EndKeepsTxs(s, t, Refused); } else { AtKeepsTxs(s, t, Checked(s.txs[t].pc.org)); }
  }

  lemma CheckSeatsKeepsTxs(s: State, t: nat)
    requires TxsOk(s) && t < |s.txs| && s.txs[t].pc.Checked?
    ensures TxsOk(DoCheckSeats(s, t))
  {
    assert TxOk(s, t);
    if DoCheckSeats(s, t).txs[t].pc.Refused? { EndKeepsTxs(s, t, Refused); } else { AtKeepsTxs(s, t, DoCheckSeats(s, t).txs[t].pc); }
  }

  lemma ReclaimKeepsTxs(s: State, t: nat, v: nat)
    requires TxsOk(s) && t < |s.txs| && s.txs[t].pc.Full? && s.txs[t].task.Join?
    ensures TxsOk(DoReclaim(s, t, v))
  {
    assert TxOk(s, t);
    var r := DoReclaim(s, t, v);
    if r.txs[t].pc.Refused? { EndKeepsTxs(s, t, Refused); } else if r != s { AtKeepsTxs(s, t, r.txs[t].pc); }
  }

  lemma OwnStepKeepsTxs(s: State, a: Action)
    requires TxsOk(s) && Enabled(s, a) && (a.ReadCode? || a.Lock? || a.Recheck? || a.CheckSeats? || a.Reclaim?)
    ensures TxsOk(Step(s, a))
  {
    match a
    case ReadCode(t) => ReadKeepsTxs(s, t);
    case Lock(t) => LockKeepsTxs(s, t);
    case Recheck(t) => RecheckKeepsTxs(s, t);
    case CheckSeats(t) => CheckSeatsKeepsTxs(s, t);
    case Reclaim(t, v) => ReclaimKeepsTxs(s, t, v);
  }

  /** Unlocked writes to one station that no transaction has claimed as its victim. */
  lemma StationWriteKeepsTxs(s: State, v: nat, x: Station)
    requires TxsOk(s) && v < |s.stations| && !RowLocked(s, v)
    requires x.org == s.stations[v].org && Occupies(x, x.org) <= Occupies(s.stations[v], x.org)
    ensures TxsOk(s.(stations := s.stations[v := x]))
  {
    var u := s.(stations := s.stations[v := x]);
    forall i | 0 <= i < |u.txs| ensures TxOk(u, i) {
      assert TxOk(s, i);
      var pc := s.txs[i].pc;
      if pc.Ready? {
        ActiveAfterSet(s.stations, v, x, pc.org);
        if pc.victim.Some? { assert HasVictim(s, i, pc.victim.value); }
      }
    }
  }

  lemma EndRenewalKeepsTxs(s: State, v: nat, ok: bool)
    requires TxsOk(s) && v < |s.stations| && s.stations[v].renewing.Some?
    ensures TxsOk(s.(stations := s.stations[v := Renewed(s.stations[v], ok)]))
  {
    var x := Renewed(s.stations[v], ok);
    var u := s.(stations := s.stations[v := x]);
    forall i | 0 <= i < |u.txs| ensures TxOk(u, i) {
      assert TxOk(s, i);
      if s.txs[i].pc.Ready? { ActiveAfterSet(s.stations, v, x, s.txs[i].pc.org); }
    }
  }

  lemma OutsideStepKeepsTxs(s: State, a: Action)
    requires TxsOk(s) && Enabled(s, a)
    requires a.Tick? || a.Begin? || a.Renew? || a.EndRenewal? || a.Revoke? || a.Remove? || a.RevokeCode? || a.SetOrg?
    ensures TxsOk(Step(s, a))
  {
    var u := Step(s, a);
    if a.Renew? || a.Revoke? || a.Remove? {
      StationWriteKeepsTxs(s, a.v, u.stations[a.v]);
    } else if a.EndRenewal? {
      EndRenewalKeepsTxs(s, a.v, a.ok);
    } else {
      forall i | 0 <= i < |u.txs| ensures TxOk(u, i) {
        if i < |s.txs| { assert TxOk(s, i); }
      }
    }
  }

  /** A commit in one school changes nothing that another school's lock protects. */
  lemma OtherSchoolUnchanged(s: State, t: nat, o: Org)
    requires t < |s.txs| && s.txs[t].pc.Ready? && TxOk(s, t) && o != s.txs[t].pc.org
    ensures ActiveIn(DoCommit(s, t).stations, o) == ActiveIn(s.stations, o)
    ensures |s.stations| <= |DoCommit(s, t).stations|
    ensures forall w :: 0 <= w < |s.stations| && s.stations[w].org == o ==> DoCommit(s, t).stations[w] == s.stations[w]
  {
    var x := s.txs[t];
    match x.task
    case Join(c, hwid) =>
      if x.pc.victim.Some? { ActiveAfterSet(s.stations, x.pc.victim.value, s.stations[x.pc.victim.value].(status := Revoked), o); }
      ActiveAfterAppend(AfterReclaim(s.stations, x.pc.victim), NewStation(x.pc.org, hwid, x.began), o);
    case Restore(_, v) =>
      if v < |s.stations| { ActiveAfterSet(s.stations, v, s.stations[v].(status := Active, activated := x.began), o); }
  }

  lemma CommitKeepsCodes(s: State, t: nat, c: nat)
    requires t < |s.txs| && s.txs[t].pc.Ready? && TxOk(s, t) && c < |s.codes|
    ensures |DoCommit(s, t).codes| == |s.codes|
    ensures var d := DoCommit(s, t).codes[c];
            && d.org == s.codes[c].org && d.expires == s.codes[c].expires && d.maxUses == s.codes[c].maxUses
            && d.revoked == s.codes[c].revoked
            && (d.used == s.codes[c].used || (d.used == s.codes[c].used + 1 <= d.maxUses && d.org == s.txs[t].pc.org))
  {}

  lemma CommitKeepsTxs(s: State, t: nat)
    requires TxsOk(s) && t < |s.txs| && s.txs[t].pc.Ready?
    ensures TxsOk(DoCommit(s, t))
  {
    var u := DoCommit(s, t);
    assert TxOk(s, t);
    forall i | 0 <= i < |u.txs| ensures TxOk(u, i) {
      if i != t { CommitKeepsOther(s, t, i); }
    }
  }

  /** Its code keeps what the transaction read of it, and the count while it holds the code's school. */
  lemma CommitKeepsOthersCode(s: State, t: nat, i: nat)
    requires t < |s.txs| && s.txs[t].pc.Ready? && i < |s.txs| && TxOk(s, t) && TxOk(s, i)
    requires s.txs[i].task.Join? && (s.txs[i].pc.Queued? || InLock(s.txs[i].pc))
    ensures var c, u := s.txs[i].task.code, DoCommit(s, t);
            && c < |u.codes| && u.codes[c].org == s.codes[c].org && u.codes[c].expires == s.codes[c].expires
            && u.codes[c].maxUses == s.codes[c].maxUses
            && (s.txs[i].pc.org != s.txs[t].pc.org ==> u.codes[c].used == s.codes[c].used)
  {
    CommitKeepsCodes(s, t, s.txs[i].task.code);
  }

  lemma CommitKeepsOther(s: State, t: nat, i: nat)
    requires t < |s.txs| && s.txs[t].pc.Ready? && i < |s.txs| && i != t && TxOk(s, t) && TxOk(s, i)
    ensures TxOk(DoCommit(s, t), i)
  {
    var x, u := s.txs[i], DoCommit(s, t);
    CommitMovesOne(s, t, i);
    if x.task.Join? && (x.pc.Queued? || InLock(x.pc)) { CommitKeepsOthersCode(s, t, i); }
    if InLock(x.pc) {
      OtherSchoolUnchanged(s, t, x.pc.org);
    }
  }

  lemma CommitMovesOne(s: State, t: nat, i: nat)
    requires t < |s.txs| && s.txs[t].pc.Ready? && i < |s.txs| && i != t && TxOk(s, t) && TxOk(s, i)
    ensures var x, u := s.txs[i], DoCommit(s, t);
            && u.txs[i] == x && u.clock == s.clock && u.licences == s.licences
            && (InLock(x.pc) ==> x.pc.org != s.txs[t].pc.org && x.pc.org in u.lock && u.lock[x.pc.org] == i)
  {}

  lemma StepKeepsTxs(s: State, a: Action)
    requires TxsOk(s)
    ensures TxsOk(Step(s, a))
  {
    if !Enabled(s, a) { return; }
    if a.Commit? {
      CommitKeepsTxs(s, a.t);
    } else if a.Abort? {
      EndKeepsTxs(s, a.t, Refused);
    } else if a.ReadCode? || a.Lock? || a.Recheck? || a.CheckSeats? || a.Reclaim? {
      OwnStepKeepsTxs(s, a);
    } else {
      OutsideStepKeepsTxs(s, a);
    }
  }

  ghost predicate Initial(s: State) { s.txs == [] && s.lock == map[] }

  lemma {:induction false} RunKeepsTxs(s: State, acts: seq<Action>)
    requires TxsOk(s)
    ensures TxsOk(Run(s, acts))
    ensures Run(s, acts).licences == s.licences
  {
    if acts != [] {
      RunKeepsTxs(s, acts[..|acts| - 1]);
      StepKeepsTxs(Run(s, acts[..|acts| - 1]), acts[|acts| - 1]);
    }
  }

  // ---------------------------------------------------------------- the seat cap

  /** The stations after an enrolment's commit. */
  lemma SeatsAfterJoin(stations: seq<Station>, victim: Option<nat>, x: Station, o: Org)
    requires x.org == o && x.status.Active?
    requires victim.Some? ==> victim.value < |stations| && stations[victim.value].org == o && stations[victim.value].status.Active?
    ensures ActiveIn(AfterReclaim(stations, victim) + [x], o) == ActiveIn(stations, o) + if victim.Some? then 0 else 1
  {
    if victim.Some? { ActiveAfterSet(stations, victim.value, stations[victim.value].(status := Revoked), o); }
    ActiveAfterAppend(AfterReclaim(stations, victim), x, o);
  }

  /** A commit fills at most the seat it found free or the seat it took back. */
  lemma CommitKeepsCap(s: State, t: nat, o: Org, cap: nat)
    requires t < |s.txs| && s.txs[t].pc.Ready? && TxOk(s, t)
    requires ActiveIn(s.stations, o) <= cap && SeatsAt(s.licences, o, s.txs[t].began) <= cap
    ensures ActiveIn(DoCommit(s, t).stations, o) <= cap
  {
    var x := s.txs[t];
    if o != x.pc.org {
      OtherSchoolUnchanged(s, t, o);
    } else if x.task.Join? {
      SeatsAfterJoin(s.stations, x.pc.victim, NewStation(o, x.task.hwid, x.began), o);
    } else if x.task.station < |s.stations| {
      ActiveAfterSet(s.stations, x.task.station, s.stations[x.task.station].(status := Active, activated := x.began), o);
    }
  }

  lemma StepKeepsCap(s: State, a: Action, o: Org, cap: nat)
    requires TxsOk(s) && ActiveIn(s.stations, o) <= cap && forall now: nat :: SeatsAt(s.licences, o, now) <= cap
    ensures ActiveIn(Step(s, a).stations, o) <= cap
  {
    if !Enabled(s, a) { return; }
    if a.Commit? {
      CommitKeepsCap(s, a.t, o, cap);
    } else if a.Renew? || a.EndRenewal? || a.Revoke? || a.Remove? {
      ActiveAfterSet(s.stations, a.v, Step(s, a).stations[a.v], o);
    }
  }

  /**
   Under every interleaving a school never has more active stations than it had licensed seats at the
   most generous moment of its (fixed) licences, or than it started with if that was more.
   */
  lemma {:induction false} SeatCap(s: State, acts: seq<Action>, o: Org, cap: nat)
    requires Initial(s) && ActiveIn(s.stations, o) <= cap && forall now: nat :: SeatsAt(s.licences, o, now) <= cap
    ensures ActiveIn(Run(s, acts).stations, o) <= cap
  {
    if acts != [] {
      var front := acts[..|acts| - 1];
      SeatCap(s, front, o, cap);
      RunKeepsTxs(s, front);
      StepKeepsCap(Run(s, front), acts[|acts| - 1], o, cap);
    }
  }

  // ---------------------------------------------------------------- uses of a code

  function JoinedWith(txs: seq<Tx>, c: nat): nat
  {
    if txs == [] then 0 else JoinedWith(txs[..|txs| - 1], c) + IsJoin(txs[|txs| - 1], c)
  }

  function IsJoin(x: Tx, c: nat): nat { if x.pc.Joined? && x.task.Join? && x.task.code == c then 1 else 0 }

  lemma {:induction false} JoinedAfterSet(txs: seq<Tx>, t: nat, x: Tx, c: nat)
    requires t < |txs|
    ensures JoinedWith(txs[t := x], c) == JoinedWith(txs, c) - IsJoin(txs[t], c) + IsJoin(x, c)
  {
    var front := txs[..|txs| - 1];
    if t == |txs| - 1 {
      assert txs[t := x][..|txs| - 1] == front;
    } else {
      JoinedAfterSet(front, t, x, c);
      assert txs[t := x][..|txs| - 1] == front[t := x];
    }
  }

  /** Every step that is not a commit leaves the counters and the enrolled transactions alone. */
  lemma StepCountsUses(s: State, a: Action, c: nat)
    requires TxsOk(s) && c < |s.codes|
    ensures |Step(s, a).codes| == |s.codes| && Step(s, a).codes[c].maxUses == s.codes[c].maxUses
    ensures Step(s, a).codes[c].used - s.codes[c].used == JoinedWith(Step(s, a).txs, c) - JoinedWith(s.txs, c)
    ensures s.codes[c].used <= s.codes[c].maxUses ==> Step(s, a).codes[c].used <= s.codes[c].maxUses
  {
    var u := Step(s, a);
    if !Enabled(s, a) { return; }
    if a.Commit? {
      assert TxOk(s, a.t);
      CommitShape(s, a.t);
      CommitKeepsCodes(s, a.t, c);
      JoinedAfterSet(s.txs, a.t, u.txs[a.t], c);
    } else if a.Begin? {
      assert u.txs[..|s.txs|] == s.txs;
    } else if a.ReadCode? || a.Lock? || a.Recheck? || a.CheckSeats? || a.Reclaim? || a.Abort? {
      OwnStepMovesOnly(s, a);
      MovingAddsNoUse(s, u, a.t, c);
    }
  }

  lemma MovingAddsNoUse(s: State, u: State, t: nat, c: nat)
    requires t < |s.txs| && MovesOnly(s, u, t) && (u != s ==> !s.txs[t].pc.Joined?)
    ensures u.codes == s.codes && JoinedWith(u.txs, c) == JoinedWith(s.txs, c)
  {
    if u != s {
      var pc: Pc :| !pc.Joined? && u.txs == s.txs[t := s.txs[t].(pc := pc)];
      JoinedAfterSet(s.txs, t, s.txs[t].(pc := pc), c);
    }
  }

  /** u is s with transaction t moved on, short of enrolling. */
  ghost predicate MovesOnly(s: State, u: State, t: nat)
    requires t < |s.txs|
  {
    u.codes == s.codes && (u == s || exists pc: Pc :: !pc.Joined? && u.txs == s.txs[t := s.txs[t].(pc := pc)])
  }

  lemma EndMovesOnly(s: State, t: nat, pc: Pc)
    requires t < |s.txs| && !pc.Joined?
    ensures MovesOnly(s, At(s, t, pc), t) && MovesOnly(s, End(s, t, pc), t)
  {
    assert At(s, t, pc).txs == s.txs[t := s.txs[t].(pc := pc)];
  }

  lemma ReadMovesOnly(s: State, t: nat)
    requires t < |s.txs|
    ensures MovesOnly(s, DoRead(s, t), t)
  {
    EndMovesOnly(s, t, DoRead(s, t).txs[t].pc);
  }

  lemma LockMovesOnly(s: State, t: nat)
    requires t < |s.txs| && s.txs[t].pc.Queued?
    ensures MovesOnly(s, DoLock(s, t), t)
  {
    EndMovesOnly(s, t, DoLock(s, t).txs[t].pc);
  }

  lemma RecheckMovesOnly(s: State, t: nat)
    requires t < |s.txs| && s.txs[t].pc.Locked?
    ensures MovesOnly(s, DoRecheck(s, t), t)
  {
    EndMovesOnly(s, t, DoRecheck(s, t).txs[t].pc);
  }

  lemma CheckSeatsMovesOnly(s: State, t: nat)
    requires t < |s.txs| && s.txs[t].pc.Checked?
    ensures MovesOnly(s, DoCheckSeats(s, t), t)
  {
    EndMovesOnly(s, t, DoCheckSeats(s, t).txs[t].pc);
  }

  lemma ReclaimMovesOnly(s: State, t: nat, v: nat)
    requires t < |s.txs| && s.txs[t].pc.Full? && s.txs[t].task.Join?
    ensures MovesOnly(s, DoReclaim(s, t, v), t)
  {
    EndMovesOnly(s, t, DoReclaim(s, t, v).txs[t].pc);
  }

  lemma OwnStepMovesOnly(s: State, a: Action)
    requires Enabled(s, a) && (a.ReadCode? || a.Lock? || a.Recheck? || a.CheckSeats? || a.Reclaim? || a.Abort?)
    ensures MovesOnly(s, Step(s, a), a.t)
  {
    match a
    case ReadCode(t) => ReadMovesOnly(s, t);
    case Lock(t) => LockMovesOnly(s, t);
    case Recheck(t) => RecheckMovesOnly(s, t);
    case CheckSeats(t) => CheckSeatsMovesOnly(s, t);
    case Reclaim(t, v) => ReclaimMovesOnly(s, t, v);
    case Abort(t) => EndMovesOnly(s, t, Refused);
  }

  lemma CommitShape(s: State, t: nat)
    requires t < |s.txs| && s.txs[t].pc.Ready? && TxOk(s, t)
    ensures DoCommit(s, t).txs == s.txs[t := s.txs[t].(pc := if s.txs[t].task.Join? then Joined else Restored)]
  {}

  /** Each successful enrolment adds exactly one use to its code, and no code is used beyond its limit. */
  lemma {:induction false} UsesAreCounted(s: State, acts: seq<Action>, c: nat)
    requires Initial(s) && c < |s.codes| && s.codes[c].used <= s.codes[c].maxUses
    ensures var u := Run(s, acts);
            && |u.codes| == |s.codes| && u.codes[c].maxUses == s.codes[c].maxUses
            && u.codes[c].used == s.codes[c].used + JoinedWith(u.txs, c)
            && u.codes[c].used <= u.codes[c].maxUses
  {
    if acts != [] {
      var front := acts[..|acts| - 1];
      UsesAreCounted(s, front, c);
      RunKeepsTxs(s, front);
      StepCountsUses(Run(s, front), acts[|acts| - 1], c);
    }
  }

  // ---------------------------------------------------------------- whose seat is taken

  ghost predicate TakenByStaff(a: Action, v: nat) { (a.Revoke? || a.Remove?) && a.v == v }

  /**
   The commit of an enrolment in the station's school on its hardware. The station has been silent, unless a
   renewal held its row when the enrolment chose it.
   */
  ghost predicate TakenByEnrolment(s: State, a: Action, v: nat)
    requires v < |s.stations|
  {
    && a.Commit? && HasVictim(s, a.t, v) && s.txs[a.t].task.Join?
    && s.txs[a.t].task.code < |s.codes|
    && Reclaimable(s.stations[v], s.codes[s.txs[a.t].task.code].org, s.txs[a.t].task.hwid, s.txs[a.t].began)
    && (!s.txs[a.t].pc.raced ==> LastSign(s.stations[v]) + STALE_SEAT_AFTER < s.txs[a.t].began <= s.clock)
  }

  /** The transaction counts every licensed seat of its school as taken. */
  ghost predicate CountsFull(s: State, a: Action, t: nat)
  {
    && a == CheckSeats(t) && t < |s.txs| && s.txs[t].pc.Checked?
    && ActiveIn(s.stations, s.txs[t].pc.org) >= SeatsAt(s.licences, s.txs[t].pc.org, s.txs[t].began) > 0
  }

  ghost predicate SawFull(s: State, acts: seq<Action>, t: nat)
  {
    exists i: nat :: i < |acts| && CountsFull(Run(s, acts[..i]), acts[i], t)
  }

  predicate WantsSeat(s: State, t: nat)
  {
    t < |s.txs| && (s.txs[t].pc.Full? || (s.txs[t].pc.Ready? && s.txs[t].pc.victim.Some?))
  }

  lemma WantsSeatStep(s: State, a: Action, t: nat)
    requires WantsSeat(Step(s, a), t)
    ensures WantsSeat(s, t) || CountsFull(s, a, t)
  {
    if Enabled(s, a) {
      if a.Commit? {
        CommitTakesNoSeat(s, a.t, t);
      } else if a.ReadCode? || a.Lock? || a.Recheck? || a.CheckSeats? || a.Reclaim? || a.Abort? {
        OwnStepMovesOnly(s, a);
      }
    }
  }

  lemma CommitTakesNoSeat(s: State, t: nat, i: nat)
    requires t < |s.txs| && s.txs[t].pc.Ready? && WantsSeat(DoCommit(s, t), i)
    ensures WantsSeat(s, i)
  {}

  lemma {:induction false} WantsSeatMeansFull(s: State, acts: seq<Action>, t: nat)
    requires Initial(s) && WantsSeat(Run(s, acts), t)
    ensures SawFull(s, acts, t)
  {
    assert acts != [];
    var n := |acts| - 1;
    WantsSeatStep(Run(s, acts[..n]), acts[n], t);
    if WantsSeat(Run(s, acts[..n]), t) {
      WantsSeatMeansFull(s, acts[..n], t);
      var i: nat :| i < n && CountsFull(Run(s, acts[..n][..i]), acts[..n][i], t);
      assert acts[..n][..i] == acts[..i];
    }
  }

  lemma OnlyCommitTakes(s: State, a: Action, v: nat)
    requires v < |s.stations| && s.stations[v].status.Active? && v < |Step(s, a).stations| && !Step(s, a).stations[v].status.Active?
    ensures a.Commit? || TakenByStaff(a, v)
  {}

  /**
   In every run, a station loses its seat only to an administrator, or to an enrolment of the same school
   on the same hardware that found every seat taken, and only when the station has given no sign for more
   than half an hour or a renewal held its row when the enrolment chose it.
   */
  lemma SeatIsTakenOnlyWhenStale(s: State, acts: seq<Action>, a: Action, v: nat)
    requires Initial(s)
    requires var u := Run(s, acts);
             v < |u.stations| && u.stations[v].status.Active? && v < |Step(u, a).stations| && !Step(u, a).stations[v].status.Active?
    ensures TakenByStaff(a, v) || (TakenByEnrolment(Run(s, acts), a, v) && SawFull(s, acts, a.t))
  {
    RunKeepsTxs(s, acts);
    var u := Run(s, acts);
    if a.Commit? {
      assert TxOk(u, a.t);
      WantsSeatMeansFull(s, acts, a.t);
    } else {
      OnlyCommitTakes(u, a, v);
    }
  }

  // ---------------------------------------------------------------- a renewal that comes too late

  /** Three steps: the enrolment picks v while a renewal from x holds its row, the renewal commits, the enrolment commits. */
  function Overtake(t: nat, v: nat): seq<Action> { [Reclaim(t, v), EndRenewal(v, true), Commit(t)] }

  lemma Unroll3(s: State, a: Action, b: Action, c: Action)
    ensures Run(s, [a, b, c]) == Step(Step(Step(s, a), b), c)
  {
    assert [a, b, c][..2] == [a, b] && [a, b][..1] == [a] && [a][..0] == [];
    assert Run(s, [a]) == Step(Run(s, []), a);
    assert Run(s, [a, b]) == Step(Run(s, [a]), b);
  }

  lemma PickAndRenew(s: State, t: nat, v: nat)
    requires t < |s.txs| && s.txs[t].pc.Full? && s.txs[t].task.Join? && s.txs[t].task.code < |s.codes|
    requires Stalest(s.stations, v, s.txs[t].pc.org, s.txs[t].task.hwid, s.txs[t].began) && s.stations[v].renewing.Some?
    ensures var u := Step(Step(s, Reclaim(t, v)), EndRenewal(v, true));
            && |u.stations| == |s.stations| && u.stations[v] == Renewed(s.stations[v], true)
            && |u.txs| == |s.txs| && u.codes == s.codes && u.clock == s.clock
            && u.txs[t] == s.txs[t].(pc := Ready(s.txs[t].pc.org, Some(v), true))
  {}

  /**
   The exact gap: whenever the chosen row is held by a renewal, the enrolment still takes the seat after the
   renewal's sign is recorded, even if that sign is from this very moment.
   */
  lemma RenewalComesTooLate(s: State, t: nat, v: nat)
    requires t < |s.txs| && s.txs[t].pc.Full? && s.txs[t].task.Join? && s.txs[t].task.code < |s.codes|
    requires Stalest(s.stations, v, s.txs[t].pc.org, s.txs[t].task.hwid, s.txs[t].began) && s.stations[v].renewing.Some?
    ensures var u := Run(s, Overtake(t, v));
            v < |u.stations| && u.stations[v].status.Revoked? && u.stations[v].seen == s.stations[v].renewing.value && u.clock == s.clock
  {
    Unroll3(s, Reclaim(t, v), EndRenewal(v, true), Commit(t));
    PickAndRenew(s, t, v);
  }

  // ---------------------------------------------------------------- the grace of an activation

  predicate ActiveAt(stations: seq<Station>, v: nat) { v < |stations| && stations[v].status.Active? }

  lemma OnlyCommitActivates(s: State, a: Action, v: nat)
    requires ActiveAt(Step(s, a).stations, v) && !ActiveAt(s.stations, v)
    ensures a.Commit? && Enabled(s, a)
  {}

  lemma CommitStamps(s: State, t: nat, v: nat)
    requires t < |s.txs| && s.txs[t].pc.Ready?
    requires ActiveAt(DoCommit(s, t).stations, v) && !ActiveAt(s.stations, v)
    ensures DoCommit(s, t).stations[v].activated == s.txs[t].began
  {}

  lemma ActiveKeepsStamp(s: State, a: Action, v: nat)
    requires ActiveAt(s.stations, v) && ActiveAt(Step(s, a).stations, v)
    ensures Step(s, a).stations[v].activated == s.stations[v].activated
  {}

  ghost predicate StaysActive(s: State, more: seq<Action>, v: nat)
  {
    forall i :: 0 <= i <= |more| ==> ActiveAt(Run(s, more[..i]).stations, v)
  }

  lemma {:induction false} StampLasts(s: State, more: seq<Action>, v: nat)
    requires StaysActive(s, more, v)
    ensures ActiveAt(s.stations, v) && ActiveAt(Run(s, more).stations, v)
    ensures Run(s, more).stations[v].activated == s.stations[v].activated
  {
    assert more[..|more|] == more && more[..0] == [];
    if more != [] {
      var front := more[..|more| - 1];
      forall i | 0 <= i <= |front| ensures ActiveAt(Run(s, front[..i]).stations, v) { assert front[..i] == more[..i]; }
      StampLasts(s, front, v);
      ActiveKeepsStamp(Run(s, front), more[|more| - 1], v);
    }
  }

  /**
   A station comes onto the licence only by a commit. From then on, for as long as it stays on it, no enrolment
   that began within the grace period after that transaction began takes its seat, however long the station had been silent.
   */
  lemma ActivationEarnsGrace(s: State, acts: seq<Action>, a: Action, v: nat, more: seq<Action>, t: nat)
    requires Initial(s)
    requires !ActiveAt(Run(s, acts).stations, v) && StaysActive(Step(Run(s, acts), a), more, v)
    requires HasVictim(Run(Step(Run(s, acts), a), more), t, v)
    ensures a.Commit? && a.t < |Run(s, acts).txs|
    ensures Run(s, acts).txs[a.t].began + STALE_SEAT_AFTER < Run(Step(Run(s, acts), a), more).txs[t].began
  {
    var u := Run(s, acts);
    var w := Step(u, a);
    RunKeepsTxs(s, acts);
    StepKeepsTxs(u, a);
    RunKeepsTxs(w, more);
    StampLasts(w, more, v);
    OnlyCommitActivates(u, a, v);
    CommitStamps(u, a.t, v);
    assert TxOk(Run(w, more), t);
  }

  // ---------------------------------------------------------------- the re-check of the code

  /**
   A transaction that has queued for the lock keeps the time it began, so the expiry half of the re-check
   always passes: what the re-check can catch is a revoked or a used-up code.
   */
  lemma RecheckCatchesRevocationOnly(s: State, acts: seq<Action>, t: nat)
    requires Initial(s)
    requires var u := Run(s, acts); t < |u.txs| && u.txs[t].task.Join? && u.txs[t].pc.Locked?
    ensures var u := Run(s, acts);
            var c := u.txs[t].task.code;
            && c < |u.codes|
            && (Step(u, Recheck(t)).txs[t].pc.Refused? <==> u.codes[c].revoked || u.codes[c].maxUses <= u.codes[c].used)
  {
    RunKeepsTxs(s, acts);
    assert TxOk(Run(s, acts), t);
  }

  lemma Snoc(s: State, acts: seq<Action>, a: Action)
    ensures Run(s, acts + [a]) == Step(Run(s, acts), a)
  {
    assert (acts + [a])[..|acts|] == acts;
  }

  lemma {:induction false} RunOn(s: State, acts: seq<Action>, more: seq<Action>)
    ensures Run(s, acts + more) == Run(Run(s, acts), more)
  {
    if more == [] {
      assert acts + more == acts;
    } else {
      assert (acts + more)[..|acts + more| - 1] == acts + more[..|more| - 1];
      RunOn(s, acts, more[..|more| - 1]);
    }
  }

  /** A transaction that began at 5 and waits at 100, with a code that ran out at 10. */
  ghost function Late(pc: Pc, lock: map<Org, nat>): State
  {
    State(100, map[0 := true], lock, [], [Code(0, 1, 0, false, 10)], [Licence(0, 1, 0, 1000)], [Tx(Join(0, 7), 5, pc)])
  }

  lemma LateTransactionWaits() returns (s: State, waiting: seq<Action>)
    ensures Initial(s) && Run(s, waiting) == Late(Queued(0), map[])
  {
    s := State(5, map[0 := true], map[], [], [Code(0, 1, 0, false, 10)], [Licence(0, 1, 0, 1000)], []);
    var a1 := [Begin(Join(0, 7))];
    var a2 := a1 + [ReadCode(0)];
    waiting := a2 + [Tick(95)];
    Snoc(s, [], Begin(Join(0, 7)));
    assert [] + [Begin(Join(0, 7))] == a1;
    Snoc(s, a1, ReadCode(0));
    Snoc(s, a2, Tick(95));
  }

  lemma LateTransactionPasses()
    ensures Step(Late(Queued(0), map[]), Lock(0)) == Late(Locked(0), map[0 := 0])
    ensures Step(Late(Locked(0), map[0 := 0]), Recheck(0)) == Late(Checked(0), map[0 := 0])
    ensures Step(Late(Checked(0), map[0 := 0]), CheckSeats(0)) == Late(Ready(0, None, false), map[0 := 0])
  {
    var licences := [Licence(0, 1, 0, 1000)];
    assert licences[..0] == [];
    assert SeatsAt(licences, 0, 5) == 1;
  }

  /** So a code that has expired while its transaction waited for the lock still enrols a station. */
  lemma ExpiredCodeStillEnrols() returns (s: State, waiting: seq<Action>)
    ensures Initial(s) && Run(s, waiting) == Late(Queued(0), map[])
    ensures Run(s, waiting).codes[0].expires < Run(s, waiting).clock
    ensures var u := Run(s, waiting + [Lock(0)] + [Recheck(0)] + [CheckSeats(0)] + [Commit(0)]);
            |u.txs| == 1 && u.txs[0].pc.Joined? && |u.stations| == 1 && u.stations[0].status.Active?
  {
    s, waiting := LateTransactionWaits();
    LateTransactionPasses();
    Snoc(s, waiting, Lock(0));
    Snoc(s, waiting + [Lock(0)], Recheck(0));
    Snoc(s, waiting + [Lock(0)] + [Recheck(0)], CheckSeats(0));
    Snoc(s, waiting + [Lock(0)] + [Recheck(0)] + [CheckSeats(0)], Commit(0));
  }

  /** A school with one seat, held since 0 by a station with hardware 7, and an enrolment of hardware 7 that began at 2000. */
  ghost function Room(pc: Pc, lock: map<Org, nat>, renewing: Option<nat>): State
  {
    State(2000, map[0 := true], lock, [Station(0, 7, Active, 0, 0, renewing)],
          [Code(0, 1, 0, false, 9000)], [Licence(0, 1, 0, 9000)], [Tx(Join(0, 7), 2000, pc)])
  }

  lemma RoomFills() returns (s: State, acts: seq<Action>)
    ensures Initial(s) && s == Room(Started, map[], None).(txs := []) && Run(s, acts) == Room(Queued(0), map[], None)
  {
    s := Room(Started, map[], None).(txs := []);
    acts := [Begin(Join(0, 7))] + [ReadCode(0)];
    Snoc(s, [], Begin(Join(0, 7)));
    assert [] + [Begin(Join(0, 7))] == [Begin(Join(0, 7))];
    Snoc(s, [Begin(Join(0, 7))], ReadCode(0));
  }

  lemma RoomIsFull()
    ensures Step(Room(Queued(0), map[], None), Lock(0)) == Room(Locked(0), map[0 := 0], None)
    ensures Step(Room(Locked(0), map[0 := 0], None), Recheck(0)) == Room(Checked(0), map[0 := 0], None)
    ensures Step(Room(Checked(0), map[0 := 0], None), CheckSeats(0)) == Room(Full(0), map[0 := 0], None)
  {
    var licences, stations := [Licence(0, 1, 0, 9000)], [Station(0, 7, Active, 0, 0, None)];
    assert licences[..0] == [] && stations[..0] == [];
    assert SeatsAt(licences, 0, 2000) == 1;
    assert ActiveIn(stations, 0) == 1;
  }

  lemma RoomRenews()
    ensures Step(Room(Full(0), map[0 := 0], None), Renew(0)) == Room(Full(0), map[0 := 0], Some(2000))
  {
    var s := Room(Full(0), map[0 := 0], None);
    assert !RowLocked(s, 0);
  }

  /** A station that has just given a sign loses its seat: the sign was not committed when the enrolment chose it. */
  lemma FreshStationLosesSeat() returns (s: State, acts: seq<Action>)
    ensures Initial(s)
    ensures var u := Run(s, acts);
            && |u.stations| > 0 && u.stations[0].status.Revoked?
            && u.stations[0].seen == u.clock == 2000 && |s.stations| > 0 && s.stations[0].status.Active?
  {
    var first;
    s, first := RoomFills();
    RoomIsFull();
    RoomRenews();
    Snoc(s, first, Lock(0));
    Snoc(s, first + [Lock(0)], Recheck(0));
    Snoc(s, first + [Lock(0)] + [Recheck(0)], CheckSeats(0));
    var full := first + [Lock(0)] + [Recheck(0)] + [CheckSeats(0)];
    Snoc(s, full, Renew(0));
    acts := full + [Renew(0)] + Overtake(0, 0);
    RunOn(s, full + [Renew(0)], Overtake(0, 0));
    OvertakenInRoom();
  }

  lemma OvertakenInRoom()
    ensures var u := Run(Room(Full(0), map[0 := 0], Some(2000)), Overtake(0, 0));
            |u.stations| > 0 && u.stations[0].status.Revoked? && u.stations[0].seen == 2000 && u.clock == 2000
  {
    RenewalComesTooLate(Room(Full(0), map[0 := 0], Some(2000)), 0, 0);
  }
}
