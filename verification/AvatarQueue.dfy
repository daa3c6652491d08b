/**
 The avatar job queue: requests for one profile are folded into the work of the one goroutine that
 serves it, and at most four passes run at a time. The mutex-guarded sections are methods of a class;
 the goroutines around them are a state machine over those sections and the semaphore.
 */
module AvatarQueue {

  type Profile = nat

  // NONE = 0, RECONCILE = 1, LAZY = 2, FETCH = 3: a greater kind is the stronger request.
  type Kind = k: nat | k <= 3
  const NONE: Kind := 0
  const RECONCILE: Kind := 1
  const LAZY: Kind := 2
  const FETCH: Kind := 3

  type Request = k: Kind | 1 <= k witness 1

  const MAX_PARALLEL: nat := 4

  // ---------------------------------------------------------------- the guarded sections

  function Fold(pending: map<Profile, Kind>, p: Profile, k: Request): map<Profile, Kind>
  {
    if p in pending && k <= pending[p] then pending else pending[p := k]
  }

  /** Go's map read: a missing entry reads as NONE. */
  function KindOf(pending: map<Profile, Kind>, p: Profile): Kind { if p in pending then pending[p] else NONE }

  function TakeFrom(pending: map<Profile, Kind>, p: Profile): map<Profile, Kind>
  {
    if KindOf(pending, p) == NONE then pending - {p} else pending[p := NONE]
  }

  class Queue {
    var pending: map<Profile, Kind>

    constructor ()
      ensures pending == map[]
    {
      pending := map[];
    }

    /** The section of enqueue; `start` says that a goroutine must be started for the profile. */
    method Enqueue(p: Profile, k: Request) returns (start: bool)
      modifies this
      ensures pending == Fold(old(pending), p, k)
      ensures start == (p !in old(pending))
    {
      if p in pending {
        if k > pending[p] { pending := pending[p := k]; }
        return false;
      }
      pending := pending[p := k];
      return true;
    }

    /** The section at the top of run's loop; NONE tells the goroutine to return. */
    method Take(p: Profile) returns (kind: Kind)
      modifies this
      ensures kind == KindOf(old(pending), p)
      ensures pending == TakeFrom(old(pending), p)
    {
      kind := KindOf(pending, p);
      if kind == NONE {
        pending := pending - {p};
        return;
      }
      pending := pending[p := NONE];
    }
  }

  // ---------------------------------------------------------------- what a pass does

  datatype Plan = Nothing | ClearPhoto | FetchPhoto

  /** What a pass finds in the database: a learner with a verified link, and whether the last check is recent. */
  datatype Found = Found(exists_: bool, linkedLearner: bool, recentlyChecked: bool)

  function Decide(k: Kind, f: Found, photosConfigured: bool): Plan
  {
    if !f.exists_ then Nothing
    else if !f.linkedLearner then ClearPhoto
    else if k == RECONCILE || !photosConfigured then Nothing
    else if k == LAZY && f.recentlyChecked then Nothing
    else FetchPhoto
  }

  /** A pass of kind `done` does all that one of kind `asked` would, whatever it finds. */
  ghost predicate Suffices(done: Kind, asked: Kind)
  {
    forall f, configured :: Decide(asked, f, configured) != Nothing ==> Decide(done, f, configured) == Decide(asked, f, configured)
  }

  /** Among requests, the stronger kind suffices exactly where the order of the kinds says so. */
  lemma StrongerSuffices(done: Request, asked: Request)
    ensures asked <= done <==> Suffices(done, asked)
  {
    if done < asked {
      var stale := Found(true, true, false);
      var recent := Found(true, true, true);
      assert Decide(asked, stale, true) == FetchPhoto;
      if done == LAZY { assert Decide(asked, recent, true) == FetchPhoto; }
    }
  }

  // ---------------------------------------------------------------- the goroutines

  datatype Pc = Top | Waiting(kind: Request) | Running(kind: Request) | Gone
  datatype Worker = Worker(profile: Profile, pc: Pc)
  datatype Event = Asked(profile: Profile, kind: Request) | Began(profile: Profile, kind: Request)

  /** `owner` and `log` are history: who serves a profile, and accepted requests and begun passes in order. */
  datatype State = State(
    pending: map<Profile, Kind>,
    workers: seq<Worker>,
    used: nat,
    stopped: bool,
    owner: map<Profile, nat>,
    log: seq<Event>)

  const START := State(map[], [], 0, false, map[], [])

  datatype Action =
    | Enqueue(p: Profile, k: Request)
    | Take(w: nat)
    | Acquire(w: nat)
    | Abandon(w: nat)
    | Finish(w: nat)
    | Stop

  predicate Enabled(s: State, a: Action)
  {
    match a
    case Enqueue(_, _) => !s.stopped
    case Take(w) => w < |s.workers| && s.workers[w].pc.Top?
    case Acquire(w) => w < |s.workers| && s.workers[w].pc.Waiting? && s.used < MAX_PARALLEL
    case Abandon(w) => w < |s.workers| && s.workers[w].pc.Waiting? && s.stopped
    case Finish(w) => w < |s.workers| && s.workers[w].pc.Running? && 0 < s.used
    case Stop => true
  }

  function Moved(s: State, w: nat, pc: Pc): seq<Worker>
    requires w < |s.workers|
  {
    s.workers[w := s.workers[w].(pc := pc)]
  }

  function DoEnqueue(s: State, p: Profile, k: Request): State
  {
    var t := s.(pending := Fold(s.pending, p, k), log := s.log + [Asked(p, k)]);
    if p in s.pending then t
    else t.(workers := s.workers + [Worker(p, Top)], owner := s.owner[p := |s.workers|])
  }

  function DoTake(s: State, w: nat): State
    requires Enabled(s, Take(w))
  {
    var p := s.workers[w].profile;
    var kind := KindOf(s.pending, p);
    if kind == NONE then s.(pending := TakeFrom(s.pending, p), workers := Moved(s, w, Gone), owner := s.owner - {p})
    else s.(pending := TakeFrom(s.pending, p), workers := Moved(s, w, Waiting(kind)))
  }

  /** One step; an action that is not enabled changes nothing. */
  function Step(s: State, a: Action): State
  {
    if !Enabled(s, a) then s else
    match a
    case Enqueue(p, k) => DoEnqueue(s, p, k)
    case Take(w) => DoTake(s, w)
    case Acquire(w) =>
      var x := s.workers[w];
      s.(workers := Moved(s, w, Running(x.pc.kind)), used := s.used + 1, log := s.log + [Began(x.profile, x.pc.kind)])
    case Abandon(w) =>
      var p := s.workers[w].profile;
      s.(workers := Moved(s, w, Gone), pending := s.pending - {p}, owner := s.owner - {p})
    case Finish(w) => s.(workers := Moved(s, w, Top), used := s.used - 1)
    case Stop => s.(stopped := true)
  }

  function Run(s: State, acts: seq<Action>): State
  {
    if acts == [] then s else Step(Run(s, acts[..|acts| - 1]), acts[|acts| - 1])
  }

  // ---------------------------------------------------------------- one goroutine a profile

  ghost predicate Owns(s: State, w: nat, p: Profile)
  {
    w < |s.workers| && !s.workers[w].pc.Gone? && s.workers[w].profile == p
  }

  ghost predicate OwnerInv(s: State)
  {
    && s.pending.Keys == s.owner.Keys
    && (forall p :: p in s.owner ==> Owns(s, s.owner[p], p))
    && (forall w :: 0 <= w < |s.workers| && !s.workers[w].pc.Gone? ==>
         s.workers[w].profile in s.owner && s.owner[s.workers[w].profile] == w)
  }

  lemma EnqueueKeepsOwners(s: State, p: Profile, k: Request)
    requires OwnerInv(s)
    ensures OwnerInv(DoEnqueue(s, p, k))
  {
    var t := DoEnqueue(s, p, k);
    forall q | q in t.owner ensures Owns(t, t.owner[q], q) {
      if q in s.owner { assert Owns(s, s.owner[q], q); }
    }
  }

  /** A goroutine that changes its program counter but stays keeps what it owns. */
  lemma MoveKeepsOwners(s: State, w: nat, pc: Pc, t: State)
    requires OwnerInv(s) && w < |s.workers| && !s.workers[w].pc.Gone? && !pc.Gone?
    requires t.workers == Moved(s, w, pc) && t.owner == s.owner && t.pending.Keys == s.pending.Keys
    ensures OwnerInv(t)
  {
    forall q | q in t.owner ensures Owns(t, t.owner[q], q) { assert Owns(s, s.owner[q], q); }
  }

  /** One that returns gives up its profile. */
  lemma LeaveKeepsOwners(s: State, w: nat, t: State)
    requires OwnerInv(s) && w < |s.workers| && !s.workers[w].pc.Gone?
    requires t.workers == Moved(s, w, Gone)
    requires t.owner == s.owner - {s.workers[w].profile} && t.pending == s.pending - {s.workers[w].profile}
    ensures OwnerInv(t)
  {
    forall q | q in t.owner ensures Owns(t, t.owner[q], q) { assert Owns(s, s.owner[q], q); }
  }

  lemma StepKeepsOwners(s: State, a: Action)
    requires OwnerInv(s)
    ensures OwnerInv(Step(s, a))
  {
    if !Enabled(s, a) { return; }
    var t := Step(s, a);
    match a
    case Enqueue(p, k) => EnqueueKeepsOwners(s, p, k);
    case Take(w) =>
      var kind := KindOf(s.pending, s.workers[w].profile);
      if kind == NONE { LeaveKeepsOwners(s, w, t); } else { MoveKeepsOwners(s, w, Waiting(kind), t); }
    case Acquire(w) => MoveKeepsOwners(s, w, Running(s.workers[w].pc.kind), t);
    case Abandon(w) => LeaveKeepsOwners(s, w, t);
    case Finish(w) => MoveKeepsOwners(s, w, Top, t);
    case Stop =>
  }

  // ---------------------------------------------------------------- four at a time

  function CountRunning(ws: seq<Worker>): nat
  {
    if ws == [] then 0 else CountRunning(ws[..|ws| - 1]) + if ws[|ws| - 1].pc.Running? then 1 else 0
  }

  lemma {:induction false} CountAfterMove(ws: seq<Worker>, w: nat, x: Worker)
    requires w < |ws|
    ensures CountRunning(ws[w := x]) ==
              CountRunning(ws) - (if ws[w].pc.Running? then 1 else 0) + (if x.pc.Running? then 1 else 0)
  {
    var front := ws[..|ws| - 1];
    if w == |ws| - 1 {
      assert ws[w := x][..|ws| - 1] == front;
    } else {
      CountAfterMove(front, w, x);
      assert ws[w := x][..|ws| - 1] == front[w := x];
    }
  }

  ghost predicate SlotInv(s: State) { s.used == CountRunning(s.workers) <= MAX_PARALLEL }

  lemma StepKeepsSlots(s: State, a: Action)
    requires SlotInv(s)
    ensures SlotInv(Step(s, a))
  {
    if !Enabled(s, a) { return; }
    match a
    case Enqueue(p, k) => assert (s.workers + [Worker(p, Top)])[..|s.workers|] == s.workers;
    case Take(w) =>
      CountAfterMove(s.workers, w, s.workers[w].(pc := Gone));
      var kind := KindOf(s.pending, s.workers[w].profile);
      if kind != NONE {
        CountAfterMove(s.workers, w, s.workers[w].(pc := Waiting(kind)));
      }
    case Acquire(w) => CountAfterMove(s.workers, w, s.workers[w].(pc := Running(s.workers[w].pc.kind)));
    case Abandon(w) => CountAfterMove(s.workers, w, s.workers[w].(pc := Gone));
    case Finish(w) => CountAfterMove(s.workers, w, s.workers[w].(pc := Top));
    case Stop =>
  }

  // ---------------------------------------------------------------- no request is lost

  /** Pass j began after request i, for the same profile, and is at least as strong. */
  ghost predicate ServedBy(log: seq<Event>, i: nat, j: nat)
  {
    && i < j < |log| && log[i].Asked? && log[j].Began?
    && log[j].profile == log[i].profile && log[i].kind <= log[j].kind
  }

  ghost predicate Served(log: seq<Event>, i: nat) { exists j :: ServedBy(log, i, j) }

  /** A request of kind k for p is still to come: it is pending, or its goroutine waits for a slot to begin it. */
  ghost predicate Held(s: State, p: Profile, k: Request)
  {
    && p in s.pending
    && (k <= s.pending[p]
        || (&& p in s.owner && s.owner[p] < |s.workers|
            && s.workers[s.owner[p]].pc.Waiting? && k <= s.workers[s.owner[p]].pc.kind))
  }

  ghost predicate Covered(s: State)
  {
    !s.stopped ==> forall i :: 0 <= i < |s.log| && s.log[i].Asked? ==> Served(s.log, i) || Held(s, s.log[i].profile, s.log[i].kind)
  }

  lemma ServedStays(log: seq<Event>, e: Event, i: nat)
    requires Served(log, i)
    ensures Served(log + [e], i)
  {
    var j :| ServedBy(log, i, j);
    assert ServedBy(log + [e], i, j);
  }

  lemma BeganServes(log: seq<Event>, p: Profile, k: Request, i: nat)
    requires i < |log| && log[i].Asked? && log[i].profile == p && log[i].kind <= k
    ensures Served(log + [Began(p, k)], i)
  {
    assert ServedBy(log + [Began(p, k)], i, |log|);
  }

  lemma TakeKeepsHeld(s: State, w: nat, p: Profile, k: Request)
    requires OwnerInv(s) && Enabled(s, Take(w)) && Held(s, p, k)
    ensures Held(Step(s, Take(w)), p, k)
  {
    if p == s.workers[w].profile {
      assert s.owner[p] == w;
    } else {
      assert Owns(s, s.owner[p], p);
    }
  }

  lemma EnqueueKeepsHeld(s: State, q: Profile, r: Request, p: Profile, k: Request)
    requires OwnerInv(s) && Enabled(s, Enqueue(q, r)) && Held(s, p, k)
    ensures Held(Step(s, Enqueue(q, r)), p, k)
  {}

  lemma FinishKeepsHeld(s: State, w: nat, p: Profile, k: Request)
    requires OwnerInv(s) && Enabled(s, Finish(w)) && Held(s, p, k)
    ensures Held(Step(s, Finish(w)), p, k)
  {
    assert Owns(s, s.owner[p], p);
  }

  lemma AcquireKeepsHeld(s: State, w: nat, p: Profile, k: Request)
    requires OwnerInv(s) && Enabled(s, Acquire(w)) && Held(s, p, k)
    ensures Held(Step(s, Acquire(w)), p, k) || (p == s.workers[w].profile && k <= s.workers[w].pc.kind)
  {
    assert Owns(s, s.owner[p], p);
  }

  lemma StepKeepsCovered(s: State, a: Action)
    requires OwnerInv(s) && Covered(s)
    ensures Covered(Step(s, a))
  {
    var t := Step(s, a);
    if !Enabled(s, a) || t.stopped { return; }
    forall i | 0 <= i < |t.log| && t.log[i].Asked? ensures Served(t.log, i) || Held(t, t.log[i].profile, t.log[i].kind) {
      if i < |s.log| {
        assert s.log[i] == t.log[i];
        RequestStaysCovered(s, a, i);
      }
    }
  }

  lemma RequestStaysCovered(s: State, a: Action, i: nat)
    requires OwnerInv(s) && Enabled(s, a) && !Step(s, a).stopped && i < |s.log| && s.log[i].Asked?
    requires Served(s.log, i) || Held(s, s.log[i].profile, s.log[i].kind)
    ensures Served(Step(s, a).log, i) || Held(Step(s, a), s.log[i].profile, s.log[i].kind)
  {
    var p, k := s.log[i].profile, s.log[i].kind;
    match a
    case Enqueue(q, r) =>
      if Served(s.log, i) { ServedStays(s.log, Asked(q, r), i); } else { EnqueueKeepsHeld(s, q, r, p, k); }
    case Take(w) =>
      if Held(s, p, k) { TakeKeepsHeld(s, w, p, k); }
    case Acquire(w) =>
      var x := s.workers[w];
      if Served(s.log, i) {
        ServedStays(s.log, Began(x.profile, x.pc.kind), i);
      } else {
        AcquireKeepsHeld(s, w, p, k);
        if p == x.profile && k <= x.pc.kind { BeganServes(s.log, x.profile, x.pc.kind, i); }
      }
    case Abandon(w) =>
    case Finish(w) =>
      if Held(s, p, k) { FinishKeepsHeld(s, w, p, k); }
    case Stop =>
  }

  // ---------------------------------------------------------------- every run

  ghost predicate Inv(s: State) { OwnerInv(s) && SlotInv(s) && Covered(s) }

  lemma {:induction false} RunKeepsInv(s: State, acts: seq<Action>)
    requires Inv(s)
    ensures Inv(Run(s, acts))
  {
    if acts != [] {
      var t, a := Run(s, acts[..|acts| - 1]), acts[|acts| - 1];
      RunKeepsInv(s, acts[..|acts| - 1]);
      StepKeepsOwners(t, a);
      StepKeepsSlots(t, a);
      StepKeepsCovered(t, a);
    }
  }

  /** A profile has a pending entry exactly when exactly one goroutine serves it. */
  lemma OneWorkerPerProfile(acts: seq<Action>, p: Profile)
    ensures var s := Run(START, acts);
            && (p in s.pending <==> exists w :: Owns(s, w, p))
            && (forall v, w :: Owns(s, v, p) && Owns(s, w, p) ==> v == w)
  {
    RunKeepsInv(START, acts);
    var s := Run(START, acts);
    if p in s.pending { assert Owns(s, s.owner[p], p); }
  }

  /** At most four passes run at once, also after a shutdown. */
  lemma AtMostFourRun(acts: seq<Action>)
    ensures CountRunning(Run(START, acts).workers) <= 4
  {
    RunKeepsInv(START, acts);
  }

  ghost predicate Satisfied(log: seq<Event>, i: nat)
    requires i < |log| && log[i].Asked?
  {
    exists j :: i < j < |log| && log[j].Began? && log[j].profile == log[i].profile && Suffices(log[j].kind, log[i].kind)
  }

  /**
   Absent a shutdown, a profile nobody serves has no request outstanding: each was followed by a pass
   of its profile that does all the request asked for.
   */
  lemma NoRequestIsLost(acts: seq<Action>, i: nat)
    requires var s := Run(START, acts);
             !s.stopped && i < |s.log| && s.log[i].Asked? && s.log[i].profile !in s.pending
    ensures Satisfied(Run(START, acts).log, i)
  {
    RunKeepsInv(START, acts);
    ServedIsSatisfied(Run(START, acts).log, i);
  }

  lemma ServedIsSatisfied(log: seq<Event>, i: nat)
    requires i < |log| && log[i].Asked? && Served(log, i)
    ensures Satisfied(log, i)
  {
    var j: nat :| ServedBy(log, i, j);
    StrongerSuffices(log[j].kind, log[i].kind);
  }

  // ---------------------------------------------------------------- the queue drains

  function PcWeight(pc: Pc): nat
  {
    match pc case Top => 1 case Waiting(_) => 3 case Running(_) => 2 case Gone => 0
  }

  function WorkersWeight(ws: seq<Worker>): nat
  {
    if ws == [] then 0 else WorkersWeight(ws[..|ws| - 1]) + PcWeight(ws[|ws| - 1].pc)
  }

  ghost function Unserved(pending: map<Profile, Kind>): set<Profile>
  {
    set p | p in pending && pending[p] != NONE
  }

  /** The steps the goroutines have left if nobody asks for more. */
  ghost function Weight(s: State): nat { WorkersWeight(s.workers) + 3 * |Unserved(s.pending)| }

  lemma {:induction false} WeightAfterMove(ws: seq<Worker>, w: nat, x: Worker)
    requires w < |ws|
    ensures WorkersWeight(ws[w := x]) == WorkersWeight(ws) - PcWeight(ws[w].pc) + PcWeight(x.pc)
  {
    var front := ws[..|ws| - 1];
    if w == |ws| - 1 {
      assert ws[w := x][..|ws| - 1] == front;
    } else {
      WeightAfterMove(front, w, x);
      assert ws[w := x][..|ws| - 1] == front[w := x];
    }
  }

  predicate ByWorker(a: Action) { !a.Enqueue? && !a.Stop? }

  lemma WorkerStepLowersWeight(s: State, a: Action)
    requires Enabled(s, a) && ByWorker(a)
    ensures Weight(Step(s, a)) < Weight(s)
  {
    match a
    case Take(w) => TakeLowersWeight(s, w);
    case Acquire(w) => WeightAfterMove(s.workers, w, s.workers[w].(pc := Running(s.workers[w].pc.kind)));
    case Abandon(w) =>
      var p := s.workers[w].profile;
      WeightAfterMove(s.workers, w, s.workers[w].(pc := Gone));
      assert Unserved(s.pending - {p}) == Unserved(s.pending) - {p};
      FewerElements(Unserved(s.pending), p);
    case Finish(w) => WeightAfterMove(s.workers, w, s.workers[w].(pc := Top));
  }

  lemma TakeLowersWeight(s: State, w: nat)
    requires Enabled(s, Take(w))
    ensures Weight(DoTake(s, w)) < Weight(s)
  {
    var p := s.workers[w].profile;
    if KindOf(s.pending, p) == NONE {
      WeightAfterMove(s.workers, w, s.workers[w].(pc := Gone));
      assert Unserved(s.pending - {p}) == Unserved(s.pending);
    } else {
      WeightAfterMove(s.workers, w, s.workers[w].(pc := Waiting(s.pending[p])));
      assert Unserved(s.pending[p := NONE]) == Unserved(s.pending) - {p};
    }
  }

  lemma FewerElements(a: set<Profile>, p: Profile)
    ensures |a - {p}| <= |a|
  {
    if p in a { assert |a - {p}| == |a| - 1; } else { assert a - {p} == a; }
  }

  /** While a profile is pending, some goroutine can move: a full semaphore means a running pass that can finish. */
  lemma SomeoneCanMove(s: State, p: Profile) returns (a: Action)
    requires Inv(s) && p in s.pending
    ensures ByWorker(a) && Enabled(s, a)
  {
    var w := s.owner[p];
    assert Owns(s, w, p);
    match s.workers[w].pc
    case Top => a := Take(w);
    case Running(_) =>
      CountAfterMove(s.workers, w, s.workers[w].(pc := Top));
      a := Finish(w);
    case Waiting(_) =>
      if s.used < MAX_PARALLEL {
        a := Acquire(w);
      } else {
        var r := FindRunning(s.workers);
        a := Finish(r);
      }
  }

  lemma {:induction false} FindRunning(ws: seq<Worker>) returns (w: nat)
    requires CountRunning(ws) > 0
    ensures w < |ws| && ws[w].pc.Running?
  {
    if ws[|ws| - 1].pc.Running? {
      w := |ws| - 1;
    } else {
      w := FindRunning(ws[..|ws| - 1]);
    }
  }

  /** A run of goroutine steps only, each of them enabled. */
  ghost predicate Drains(s: State, acts: seq<Action>)
  {
    acts == [] ||
    (var front, a := acts[..|acts| - 1], acts[|acts| - 1];
     Drains(s, front) && ByWorker(a) && Enabled(Run(s, front), a))
  }

  lemma {:induction false} DrainIsShort(s: State, acts: seq<Action>)
    requires Drains(s, acts)
    ensures |acts| + Weight(Run(s, acts)) <= Weight(s)
    ensures Run(s, acts).stopped == s.stopped
  {
    if acts != [] {
      DrainIsShort(s, acts[..|acts| - 1]);
      WorkerStepLowersWeight(Run(s, acts[..|acts| - 1]), acts[|acts| - 1]);
    }
  }

  ghost predicate Stuck(s: State) { forall a :: ByWorker(a) ==> !Enabled(s, a) }

  /**
   Whatever the scheduler does, after the last request the goroutines take at most Weight steps; they
   stop only when nothing is pending, and then, absent a shutdown, every request has been satisfied.
   */
  lemma QueueDrains(before: seq<Action>, after: seq<Action>)
    requires Drains(Run(START, before), after)
    ensures var s, t := Run(START, before), Run(Run(START, before), after);
            && |after| <= Weight(s)
            && (Stuck(t) ==> t.pending == map[])
            && (Stuck(t) && !s.stopped ==> forall i :: 0 <= i < |t.log| && t.log[i].Asked? ==> Satisfied(t.log, i))
  {
    var s := Run(START, before);
    var t := Run(s, after);
    RunKeepsInv(START, before);
    RunKeepsInv(s, after);
    DrainIsShort(s, after);
    if Stuck(t) {
      forall p ensures p !in t.pending {
        if p in t.pending { var a := SomeoneCanMove(t, p); }
      }
      if !s.stopped {
        forall i | 0 <= i < |t.log| && t.log[i].Asked? ensures Satisfied(t.log, i) { ServedIsSatisfied(t.log, i); }
      }
    }
  }

  // ---------------------------------------------------------------- shutdown

  /** From s to u no request was taken and no goroutine started; passes may still have begun and ended. */
  ghost predicate NothingTaken(s: State, u: State)
  {
    && u.stopped && |u.workers| == |s.workers| && |s.log| <= |u.log|
    && forall i :: |s.log| <= i < |u.log| ==> u.log[i].Began?
  }

  lemma StoppedStep(s: State, u: State, a: Action)
    requires NothingTaken(s, u)
    ensures NothingTaken(s, Step(u, a))
  {}

  /** In every run, once the service is stopped no request is taken and no goroutine started any more. */
  lemma {:induction false} StoppedForGood(acts: seq<Action>, k: nat)
    requires k < |acts| && acts[k] == Stop
    ensures NothingTaken(Run(START, acts[..k]), Run(START, acts))
  {
    var front := acts[..|acts| - 1];
    if k < |front| {
      assert front[..k] == acts[..k];
      StoppedForGood(front, k);
      StoppedStep(Run(START, acts[..k]), Run(START, front), acts[|front|]);
    }
  }
}
