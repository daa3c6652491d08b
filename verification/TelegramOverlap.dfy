/**
 Two commands of one Telegram user that run at the same time. Opening a login link and opening a reset link
 are transactions over two tables: each first sweeps what waits in the other table, as far as it is committed,
 and then arms its own row. Seen statement by statement, one waiting flow per user is no longer a matter of course.
 */
module TelegramOverlap {
  import opened Options

  datatype Kind = LoginTable | ResetTable

  function Other(kind: Kind): Kind { if kind == LoginTable then ResetTable else LoginTable }

  /** Swept: the transaction whose row it found waiting in the other table, and will disarm; at, when. */
  datatype Pc = Opened | Swept(seen: Option<nat>, at: nat) | Armed(at: nat, committed: nat) | Ended

  /** asked: the row's yes-or-no question is open, so that a tap answers it and no contact. */
  datatype Tx = Tx(kind: Kind, pc: Pc, asked: bool)

  /** waiting: the committed waiting row of each table, by the transaction that armed it; an index keeps it unique. */
  datatype State = State(waiting: map<Kind, nat>, txs: seq<Tx>, time: nat)

  const START: State := State(map[], [], 0)

  /** Disarm is everything else that ends a wait: an answer, a refusal, an expiry, a link made elsewhere. */
  datatype Act =
    | Open(kind: Kind, asked: bool)
    | Sweep(t: nat)
    | Commit(t: nat)
    | Rollback(t: nat)
    | Disarm(kind: Kind)
    | Contact

  function Found(s: State, kind: Kind): Option<nat> { if kind in s.waiting then Some(s.waiting[kind]) else None }

  function At(s: State, t: nat, pc: Pc): State
    requires t < |s.txs|
  {
    s.(txs := s.txs[t := s.txs[t].(pc := pc)])
  }

  function DoCommit(s: State, t: nat): State
    requires t < |s.txs| && s.txs[t].pc.Swept?
  {
    var x := s.txs[t];
    var left := if x.pc.seen.Some? && Found(s, Other(x.kind)) == x.pc.seen then s.waiting - {Other(x.kind)} else s.waiting;
    At(s, t, Armed(x.pc.at, s.time)).(waiting := left[x.kind := t])
  }

  /** Who gets a shared number: a login that waits for one is asked first, and passes on what it has no use for. */
  function ContactGoesTo(s: State): Option<nat> {
    if LoginTable in s.waiting && s.waiting[LoginTable] < |s.txs| && !s.txs[s.waiting[LoginTable]].asked
    then Some(s.waiting[LoginTable])
    else Found(s, ResetTable)
  }

  /** Whoever gets it asks its question. */
  function AfterContact(s: State): State {
    var t := ContactGoesTo(s);
    if t.Some? && t.value < |s.txs| then s.(txs := s.txs[t.value := s.txs[t.value].(asked := true)]) else s
  }

  function Apply(s: State, act: Act): State {
    match act
    case Open(kind, asked) => s.(txs := s.txs + [Tx(kind, Opened, asked)])
    case Sweep(t) =>
      if t < |s.txs| && s.txs[t].pc.Opened? then At(s, t, Swept(Found(s, Other(s.txs[t].kind)), s.time)) else s
    case Commit(t) => if t < |s.txs| && s.txs[t].pc.Swept? then DoCommit(s, t) else s
    case Rollback(t) => if t < |s.txs| && !s.txs[t].pc.Armed? then At(s, t, Ended) else s
    case Disarm(kind) => s.(waiting := s.waiting - {kind})
    case Contact => AfterContact(s)
  }

  function Step(s: State, act: Act): State { Apply(s, act).(time := s.time + 1) }

  function Run(s: State, acts: seq<Act>): State {
    if acts == [] then s else Step(Run(s, acts[..|acts|-1]), acts[|acts|-1])
  }

  // ---------------------------------------------------------------- the invariant

  ghost predicate WaitingFits(s: State, kind: Kind) {
    kind in s.waiting ==>
      var t := s.waiting[kind];
      && t < |s.txs| && s.txs[t].kind == kind && s.txs[t].pc.Armed?
      && s.txs[t].pc.at < s.txs[t].pc.committed < s.time
  }

  /** A transaction that has swept knows what waits in the other table, or that came after its sweep. */
  ghost predicate SweepFits(s: State, t: nat)
    requires t < |s.txs|
  {
    s.txs[t].pc.Swept? ==>
      var other := Other(s.txs[t].kind);
      && s.txs[t].pc.at < s.time
      && (s.txs[t].pc.seen.Some? ==> s.txs[t].pc.seen.value < |s.txs| && s.txs[s.txs[t].pc.seen.value].pc.Armed?)
      && (other in s.waiting ==>
            && s.waiting[other] < |s.txs| && s.txs[s.waiting[other]].pc.Armed?
            && (s.txs[t].pc.seen == Some(s.waiting[other]) || s.txs[t].pc.at < s.txs[s.waiting[other]].pc.committed))
  }

  /** Each swept before the other committed. */
  ghost predicate Overlapped(s: State, a: nat, b: nat) {
    && a < |s.txs| && b < |s.txs| && s.txs[a].pc.Armed? && s.txs[b].pc.Armed?
    && s.txs[a].pc.at < s.txs[b].pc.committed && s.txs[b].pc.at < s.txs[a].pc.committed
  }

  ghost predicate BothWait(s: State) { LoginTable in s.waiting && ResetTable in s.waiting }

  ghost predicate Inv(s: State) {
    && WaitingFits(s, LoginTable) && WaitingFits(s, ResetTable)
    && (forall t :: 0 <= t < |s.txs| ==> SweepFits(s, t))
    && (BothWait(s) ==> Overlapped(s, s.waiting[LoginTable], s.waiting[ResetTable]))
  }

  lemma SweepKeepsInv(s: State, t: nat)
    requires Inv(s) && t < |s.txs| && s.txs[t].pc.Opened?
    ensures Inv(Step(s, Sweep(t)))
  {
    var r := Step(s, Sweep(t));
    forall i | 0 <= i < |r.txs| ensures SweepFits(r, i) { assert SweepFits(s, i); }
  }

  lemma CommitKeepsInv(s: State, t: nat)
    requires Inv(s) && t < |s.txs| && s.txs[t].pc.Swept?
    ensures Inv(Step(s, Commit(t)))
  {
    var r := Step(s, Commit(t));
    assert SweepFits(s, t);
    forall i | 0 <= i < |r.txs| ensures SweepFits(r, i) { assert SweepFits(s, i); }
  }

  lemma StepKeepsInv(s: State, act: Act)
    requires Inv(s)
    ensures Inv(Step(s, act))
  {
    var r := Step(s, act);
    if act.Sweep? && act.t < |s.txs| && s.txs[act.t].pc.Opened? {
      SweepKeepsInv(s, act.t);
    } else if act.Commit? && act.t < |s.txs| && s.txs[act.t].pc.Swept? {
      CommitKeepsInv(s, act.t);
    } else if act.Contact? {
      ContactKeepsInv(s);
    } else {
      forall i | 0 <= i < |r.txs| ensures SweepFits(r, i) {
        if i < |s.txs| { assert SweepFits(s, i); }
      }
    }
  }

  lemma ContactKeepsInv(s: State)
    requires Inv(s)
    ensures Inv(Step(s, Contact))
  {
    var r := Step(s, Contact);
    assert |r.txs| == |s.txs| && forall i :: 0 <= i < |s.txs| ==> r.txs[i].pc == s.txs[i].pc && r.txs[i].kind == s.txs[i].kind;
    forall i | 0 <= i < |r.txs| ensures SweepFits(r, i) { assert SweepFits(s, i); }
  }

  lemma {:induction false} RunKeepsInv(acts: seq<Act>)
    ensures Inv(Run(START, acts))
  {
    if acts != [] {
      RunKeepsInv(acts[..|acts|-1]);
      StepKeepsInv(Run(START, acts[..|acts|-1]), acts[|acts|-1]);
    }
  }

  // ---------------------------------------------------------------- exactly the overlaps

  /** In every run, a login and a reset both wait for one user only if each was opened while the other was: they overlapped. */
  lemma BothWaitOnlyAfterOverlap(acts: seq<Act>)
    requires BothWait(Run(START, acts))
    ensures var s := Run(START, acts); Overlapped(s, s.waiting[LoginTable], s.waiting[ResetTable])
  {
    RunKeepsInv(acts);
  }

  ghost predicate ReadyToCommit(s: State, t: nat, kind: Kind) { t < |s.txs| && s.txs[t].kind == kind && s.txs[t].pc.Swept? }

  /** And whenever a login and a reset have both swept, committing both, in either order, makes both wait. */
  lemma OverlapArmsBoth(acts: seq<Act>, kind: Kind, a: nat, b: nat)
    requires ReadyToCommit(Run(START, acts), a, kind) && ReadyToCommit(Run(START, acts), b, Other(kind))
    ensures var s := Step(Step(Run(START, acts), Commit(a)), Commit(b));
            BothWait(s) && s.waiting[kind] == a && s.waiting[Other(kind)] == b
  {
    RunKeepsInv(acts);
    var s := Run(START, acts);
    assert SweepFits(s, b);
    var after := Step(s, Commit(a));
    assert after.waiting[kind] == a && after.txs[b] == s.txs[b];
    assert s.txs[b].pc.seen != Some(a);
  }

  /** One after the other, in either order, the later one alone waits. */
  lemma SerialArmsOne(acts: seq<Act>, kind: Kind, a: nat, b: nat)
    requires ReadyToCommit(Run(START, acts), a, kind)
    requires var s := Run(START, acts); b < |s.txs| && s.txs[b].kind == Other(kind) && s.txs[b].pc.Opened?
    ensures var s := Step(Step(Step(Run(START, acts), Commit(a)), Sweep(b)), Commit(b));
            kind !in s.waiting && Other(kind) in s.waiting && s.waiting[Other(kind)] == b
  {
    var s := Run(START, acts);
    var first := Step(s, Commit(a));
    var swept := Step(first, Sweep(b));
    assert first.waiting[kind] == a;
    assert swept.txs[b].pc.seen == Some(a);
  }

  // ---------------------------------------------------------------- whose contact it is

  /** A number shared while a reset waits goes astray only if a login overlapped with that reset. */
  lemma ContactStraysOnlyAfterOverlap(acts: seq<Act>)
    requires var s := Run(START, acts); ResetTable in s.waiting && ContactGoesTo(s) != Some(s.waiting[ResetTable])
    ensures var s := Run(START, acts);
            && BothWait(s) && ContactGoesTo(s) == Some(s.waiting[LoginTable])
            && Overlapped(s, s.waiting[LoginTable], s.waiting[ResetTable])
  {
    RunKeepsInv(acts);
  }

  /**
   And after every overlap of a login l and a reset r, in either order of commit: the next number reaches the
   login if and only if the login still waits for one, and the one after it reaches the reset.
   */
  lemma OverlapStraysContact(acts: seq<Act>, kind: Kind, a: nat, b: nat)
    requires ReadyToCommit(Run(START, acts), a, kind) && ReadyToCommit(Run(START, acts), b, Other(kind))
    ensures var s := Step(Step(Run(START, acts), Commit(a)), Commit(b));
            var l, r := if kind == LoginTable then a else b, if kind == LoginTable then b else a;
            && l < |s.txs| && ContactGoesTo(s) == Some(if s.txs[l].asked then r else l)
            && (!s.txs[l].asked ==> ContactGoesTo(Step(s, Contact)) == Some(r))
  {
    OverlapArmsBoth(acts, kind, a, b);
  }

  lemma Snoc(s: State, acts: seq<Act>, act: Act)
    ensures Run(s, acts + [act]) == Step(Run(s, acts), act)
  {
    assert (acts + [act])[..|acts|] == acts;
  }

  /** A run of both commands at once that leaves both waiting, and the number meant for the reset going to the login. */
  lemma BothCanWait() returns (acts: seq<Act>)
    ensures BothWait(Run(START, acts))
    ensures ContactGoesTo(Run(START, acts)) == Some(Run(START, acts).waiting[LoginTable])
  {
    var open := [] + [Open(LoginTable, false)] + [Open(ResetTable, false)] + [Sweep(0)] + [Sweep(1)];
    Snoc(START, [], Open(LoginTable, false));
    Snoc(START, [] + [Open(LoginTable, false)], Open(ResetTable, false));
    Snoc(START, [] + [Open(LoginTable, false)] + [Open(ResetTable, false)], Sweep(0));
    Snoc(START, [] + [Open(LoginTable, false)] + [Open(ResetTable, false)] + [Sweep(0)], Sweep(1));
    Snoc(START, open, Commit(0));
    Snoc(START, open + [Commit(0)], Commit(1));
    OverlapArmsBoth(open, LoginTable, 0, 1);
    acts := open + [Commit(0)] + [Commit(1)];
  }

  /**
   Whatever ends a wait ends it for its own table alone, and a command that is rolled back has disarmed nobody and
   arms nothing.
   */
  lemma WaitEnds(s: State, kind: Kind, t: nat)
    ensures var r := Step(s, Disarm(kind)); kind !in r.waiting && Found(r, Other(kind)) == Found(s, Other(kind)) && r.txs == s.txs
    ensures t < |s.txs| && !s.txs[t].pc.Armed? ==>
              var r := Step(s, Rollback(t));
              && r.waiting == s.waiting && r.txs == s.txs[t := s.txs[t].(pc := Ended)] && Step(r, Commit(t)).waiting == s.waiting
  {}
}
