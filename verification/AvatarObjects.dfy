/**
 Avatar rows and the objects they name. A pass reads the profile, and clears the row or fetches, uploads
 and records a photo; deletes are best effort, calls may fail halfway, and any number of passes, on any
 number of servers, interleave with links that come and go. Every call to the database or the object
 store is one step.
 */
module AvatarObjects {
  import opened Options

  type Profile = nat
  type Key = nat
  type User = nat

  datatype Row = Row(learner: bool, link: Option<User>, key: Option<Key>, checked: bool)

  /**
   A database call is answered, or fails without effect, or takes effect while the caller sees an error
   (the connection is lost after the commit).
   */
  datatype Answer = Answered | Failed | Ambiguous

  datatype Fetched = Transient | NoPhoto | Photo

  datatype Pc =
    | Looking
    | Clearing
    | Fetching(user: User)
    | Uploading(key: Key, user: User)
    | Recording(photo: Option<Key>, user: User)
    | Deleting(key: Key)
    | Done

  datatype Job = Job(profile: Profile, pc: Pc)

  datatype Cause = Deleted | DeleteFailed | Crashed | Unanswered

  /** History: for whom a key was minted, and whose Telegram photo it holds. */
  datatype Origin = Origin(profile: Profile, user: User)

  /** History: where each minted key is. */
  datatype Place = InRow(profile: Profile) | InJob(job: nat) | Dropped(cause: Cause)

  /**
   `next` is the next key to be minted. `place` and `home`, with one entry for each minted key, are history,
   and so is `unsure`: keys whose recording took effect although the pass was told that it failed.
   */
  datatype State = State(
    rows: map<Profile, Row>,
    objects: set<Key>,
    jobs: seq<Job>,
    next: Key,
    place: seq<Place>,
    home: seq<Origin>,
    unsure: set<Key>)

  datatype Action =
    | Spawn(profile: Profile)
    | Look(j: nat, fetches: bool)
    | Clear(j: nat, answer: Answer)
    | Fetch(j: nat, got: Fetched)
    | Put(j: nat, ok: bool, landed: bool)
    | Record(j: nat, answer: Answer)
    | Delete(j: nat, ok: bool, removed: bool)
    | Crash(j: nat, landed: bool)
    | SetLink(p: Profile, link: Option<User>)
    | SetLearner(p: Profile, learner: bool)

  // ---------------------------------------------------------------- the steps

  function At(s: State, j: nat, pc: Pc): State
    requires j < |s.jobs|
  {
    s.(jobs := s.jobs[j := s.jobs[j].(pc := pc)])
  }

  function Placed(s: State, k: Option<Key>, at: Place): State
  {
    if k.Some? && k.value < |s.place| then s.(place := s.place[k.value := at]) else s
  }

  function WithKey(s: State, p: Profile, key: Option<Key>, checked: bool): State
    requires p in s.rows
  {
    s.(rows := s.rows[p := s.rows[p].(key := key, checked := checked)])
  }

  function AfterDrop(k: Option<Key>): Pc { if k.Some? then Deleting(k.value) else Done }

  predicate IsAt(s: State, j: nat) { j < |s.jobs| && !s.jobs[j].pc.Done? }

  predicate Verified(r: Row) { r.learner && r.link.Some? }

  function DoLook(s: State, j: nat, fetches: bool): State
    requires IsAt(s, j)
  {
    var p := s.jobs[j].profile;
    if p !in s.rows then At(s, j, Done)
    else if !Verified(s.rows[p]) then At(s, j, Clearing)
    else if fetches then At(s, j, Fetching(s.rows[p].link.value))
    else At(s, j, Done)
  }

  predicate ClearApplies(s: State, p: Profile)
  {
    p in s.rows && (s.rows[p].key.Some? || s.rows[p].checked) && !Verified(s.rows[p])
  }

  function DoClear(s: State, j: nat, answer: Answer): State
    requires IsAt(s, j)
  {
    var p := s.jobs[j].profile;
    if answer.Failed? || !ClearApplies(s, p) then At(s, j, Done)
    else
      var prev := s.rows[p].key;
      var t := WithKey(s, p, None, false);
      if answer.Answered? then Placed(At(t, j, AfterDrop(prev)), prev, InJob(j))
      else Placed(At(t, j, Done), prev, Dropped(Unanswered))
  }

  function DoFetch(s: State, j: nat, got: Fetched): State
    requires IsAt(s, j) && s.jobs[j].pc.Fetching?
  {
    var user := s.jobs[j].pc.user;
    match got
    case Transient => At(s, j, Done)
    case NoPhoto => At(s, j, Recording(None, user))
    case Photo => At(s, j, Uploading(s.next, user)).(next := s.next + 1, place := s.place + [InJob(j)], home := s.home + [Origin(s.jobs[j].profile, user)])
  }

  /** A failed upload may still have landed; the pass deletes what it may have left. */
  function DoPut(s: State, j: nat, ok: bool, landed: bool): State
    requires IsAt(s, j) && s.jobs[j].pc.Uploading?
  {
    var k, user := s.jobs[j].pc.key, s.jobs[j].pc.user;
    if ok then At(s, j, Recording(Some(k), user)).(objects := s.objects + {k})
    else At(s, j, Deleting(k)).(objects := if landed then s.objects + {k} else s.objects)
  }

  predicate RecordApplies(s: State, p: Profile, user: User)
  {
    p in s.rows && s.rows[p].learner && s.rows[p].link == Some(user)
  }

  function DoRecord(s: State, j: nat, answer: Answer): State
    requires IsAt(s, j) && s.jobs[j].pc.Recording?
  {
    var p, photo := s.jobs[j].profile, s.jobs[j].pc.photo;
    if answer.Failed? || !RecordApplies(s, p, s.jobs[j].pc.user) then At(s, j, AfterDrop(photo))
    else
      var prev := s.rows[p].key;
      var t := WithKey(s, p, photo, true);
      if answer.Answered? then
        if prev == photo then Placed(At(t, j, Done), photo, InRow(p))
        else Placed(Placed(At(t, j, AfterDrop(prev)), photo, InRow(p)), prev, InJob(j))
      else
        Placed(At(t, j, AfterDrop(photo)), prev, Dropped(Unanswered))
          .(unsure := s.unsure + if photo.Some? then {photo.value} else {})
  }

  function DoDelete(s: State, j: nat, ok: bool, removed: bool): State
    requires IsAt(s, j) && s.jobs[j].pc.Deleting?
  {
    var k := s.jobs[j].pc.key;
    Placed(At(s, j, Done), Some(k), Dropped(if ok then Deleted else DeleteFailed))
      .(objects := if ok || removed then s.objects - {k} else s.objects)
  }

  function Holds(pc: Pc): Option<Key>
  {
    match pc
    case Uploading(k, _) => Some(k)
    case Recording(photo, _) => photo
    case Deleting(k) => Some(k)
    case _ => None
  }

  function DoCrash(s: State, j: nat, landed: bool): State
    requires IsAt(s, j)
  {
    var pc := s.jobs[j].pc;
    Placed(At(s, j, Done), Holds(pc), Dropped(Crashed))
      .(objects := if pc.Uploading? && landed then s.objects + {pc.key} else s.objects)
  }

  /** One step; one that does not apply changes nothing. */
  function Step(s: State, a: Action): State
  {
    match a
    case Spawn(p) => s.(jobs := s.jobs + [Job(p, Looking)])
    case Look(j, fetches) => if IsAt(s, j) && s.jobs[j].pc.Looking? then DoLook(s, j, fetches) else s
    case Clear(j, answer) => if IsAt(s, j) && s.jobs[j].pc.Clearing? then DoClear(s, j, answer) else s
    case Fetch(j, got) => if IsAt(s, j) && s.jobs[j].pc.Fetching? then DoFetch(s, j, got) else s
    case Put(j, ok, landed) => if IsAt(s, j) && s.jobs[j].pc.Uploading? then DoPut(s, j, ok, landed) else s
    case Record(j, answer) => if IsAt(s, j) && s.jobs[j].pc.Recording? then DoRecord(s, j, answer) else s
    case Delete(j, ok, removed) => if IsAt(s, j) && s.jobs[j].pc.Deleting? then DoDelete(s, j, ok, removed) else s
    case Crash(j, landed) => if IsAt(s, j) then DoCrash(s, j, landed) else s
    case SetLink(p, link) => if p in s.rows then s.(rows := s.rows[p := s.rows[p].(link := link)]) else s
    case SetLearner(p, learner) => if p in s.rows then s.(rows := s.rows[p := s.rows[p].(learner := learner)]) else s
  }

  function Run(s: State, acts: seq<Action>): State
  {
    if acts == [] then s else Step(Run(s, acts[..|acts| - 1]), acts[|acts| - 1])
  }

  ghost predicate Initial(s: State)
  {
    s.objects == {} && s.jobs == [] && s.next == 0 && s.place == [] && s.home == [] && s.unsure == {} && forall p :: p in s.rows ==> s.rows[p].key == None
  }

  // ---------------------------------------------------------------- each key is in one place

  predicate HasKey(s: State, p: Profile, k: Key) { p in s.rows && s.rows[p].key == Some(k) }

  predicate JobHolds(s: State, j: nat, k: Key) { j < |s.jobs| && Holds(s.jobs[j].pc) == Some(k) }

  /** A key that was never in doubt is where its place says, and its object is there when it must be. */
  ghost predicate KeyInv(s: State, k: Key)
    requires k < |s.place|
  {
    match s.place[k]
    case InRow(p) => HasKey(s, p, k) && k in s.objects
    case InJob(j) => JobHolds(s, j, k) && (s.jobs[j].pc.Recording? ==> k in s.objects)
    case Dropped(c) => c.Deleted? ==> k !in s.objects
  }

  /** The rows and passes that name k are the ones its place allows. */
  ghost predicate KeyOk(s: State, k: Key)
  {
    && (forall p: Profile :: HasKey(s, p, k) ==> k < |s.place| && (k in s.unsure || s.place[k] == InRow(p)))
    && (forall j: nat :: JobHolds(s, j, k) ==> k < |s.place| && (k in s.unsure || s.place[k] == InJob(j)))
    && (forall j: nat :: JobHolds(s, j, k) && k in s.unsure ==> s.jobs[j].pc.Deleting?)
    && (k in s.unsure || k in s.objects ==> k < |s.place|)
    && (k < |s.place| && k !in s.unsure ==> KeyInv(s, k))
    && s.next == |s.place|
  }

  ghost predicate Inv(s: State) { forall k: Key :: KeyOk(s, k) }

  /** Nothing about k changed but, at most, the program counter of a pass that does not hold it. */
  ghost predicate Untouched(s: State, t: State, k: Key)
  {
    && (forall p: Profile :: HasKey(t, p, k) <==> HasKey(s, p, k))
    && (forall j: nat :: JobHolds(t, j, k) <==> JobHolds(s, j, k))
    && (forall j: nat :: JobHolds(t, j, k) ==> t.jobs[j].pc == s.jobs[j].pc)
    && (k in t.objects <==> k in s.objects) && (k in t.unsure <==> k in s.unsure)
    && t.next - s.next == |t.place| - |s.place|
    && (k < |t.place| <==> k < |s.place|) && (k < |s.place| ==> t.place[k] == s.place[k])
  }

  lemma UntouchedKeepsOk(s: State, t: State, k: Key)
    requires KeyOk(s, k) && Untouched(s, t, k)
    ensures KeyOk(t, k)
  {}

  lemma LookKeepsOk(s: State, j: nat, fetches: bool, k: Key)
    requires KeyOk(s, k) && IsAt(s, j) && s.jobs[j].pc.Looking?
    ensures KeyOk(DoLook(s, j, fetches), k)
  {
    UntouchedKeepsOk(s, DoLook(s, j, fetches), k);
  }

  lemma ClearKeepsOk(s: State, j: nat, answer: Answer, k: Key)
    requires KeyOk(s, k) && IsAt(s, j) && s.jobs[j].pc.Clearing?
    ensures KeyOk(DoClear(s, j, answer), k)
  {
    var t, p := DoClear(s, j, answer), s.jobs[j].profile;
    if !HasKey(s, p, k) || t.rows == s.rows {
      UntouchedKeepsOk(s, t, k);
    } else if k !in s.unsure {
      forall q: Profile ensures !HasKey(t, q, k) { assert q != p && HasKey(t, q, k) ==> HasKey(s, q, k); }
      if answer.Answered? { assert JobHolds(t, j, k); }
    }
  }

  lemma FetchKeepsOk(s: State, j: nat, got: Fetched, k: Key)
    requires KeyOk(s, k) && IsAt(s, j) && s.jobs[j].pc.Fetching?
    ensures KeyOk(DoFetch(s, j, got), k)
  {
    var t := DoFetch(s, j, got);
    if got.Photo? && k == s.next {
      assert JobHolds(t, j, k);
    } else {
      UntouchedKeepsOk(s, t, k);
    }
  }

  lemma PutKeepsOk(s: State, j: nat, ok: bool, landed: bool, k: Key)
    requires KeyOk(s, k) && IsAt(s, j) && s.jobs[j].pc.Uploading?
    ensures KeyOk(DoPut(s, j, ok, landed), k)
  {
    var t := DoPut(s, j, ok, landed);
    if k != s.jobs[j].pc.key {
      UntouchedKeepsOk(s, t, k);
    } else {
      assert JobHolds(s, j, k) && JobHolds(t, j, k);
    }
  }

  lemma RecordKeepsOk(s: State, j: nat, answer: Answer, k: Key)
    requires KeyOk(s, k) && IsAt(s, j) && s.jobs[j].pc.Recording?
    ensures KeyOk(DoRecord(s, j, answer), k)
  {
    var p, photo := s.jobs[j].profile, s.jobs[j].pc.photo;
    if answer.Failed? || !RecordApplies(s, p, s.jobs[j].pc.user) {
      RecordRefused(s, j, answer, k);
    } else if photo == Some(k) {
      RecordedKey(s, j, answer, k);
    } else if HasKey(s, p, k) {
      ReplacedKey(s, j, answer, k);
    } else {
      RecordLeavesAlone(s, j, answer, k);
    }
  }

  lemma RecordLeavesAlone(s: State, j: nat, answer: Answer, k: Key)
    requires KeyOk(s, k) && IsAt(s, j) && s.jobs[j].pc.Recording? && s.jobs[j].pc.photo != Some(k)
    requires !HasKey(s, s.jobs[j].profile, k)
    requires !answer.Failed? && RecordApplies(s, s.jobs[j].profile, s.jobs[j].pc.user)
    ensures KeyOk(DoRecord(s, j, answer), k)
  {
    var t := DoRecord(s, j, answer);
    RecordMovesOne(s, j, answer);
    assert !JobHolds(s, j, k) && !JobHolds(t, j, k);
    assert forall i: nat :: i != j ==> (JobHolds(t, i, k) <==> JobHolds(s, i, k));
    UntouchedKeepsOk(s, t, k);
  }

  lemma RecordRefused(s: State, j: nat, answer: Answer, k: Key)
    requires KeyOk(s, k) && IsAt(s, j) && s.jobs[j].pc.Recording?
    requires answer.Failed? || !RecordApplies(s, s.jobs[j].profile, s.jobs[j].pc.user)
    ensures KeyOk(DoRecord(s, j, answer), k)
  {
    var t := DoRecord(s, j, answer);
    if s.jobs[j].pc.photo != Some(k) {
      UntouchedKeepsOk(s, t, k);
    } else {
      assert JobHolds(s, j, k) && JobHolds(t, j, k);
    }
  }

  lemma RecordedKey(s: State, j: nat, answer: Answer, k: Key)
    requires KeyOk(s, k) && IsAt(s, j) && s.jobs[j].pc.Recording? && s.jobs[j].pc.photo == Some(k)
    requires !answer.Failed? && RecordApplies(s, s.jobs[j].profile, s.jobs[j].pc.user)
    ensures KeyOk(DoRecord(s, j, answer), k)
  {
    var t, p := DoRecord(s, j, answer), s.jobs[j].profile;
    assert JobHolds(s, j, k);
    assert !HasKey(s, p, k);
    assert HasKey(t, p, k);
    forall i: nat | JobHolds(t, i, k) ensures i == j { assert JobHolds(s, i, k); }
  }

  lemma ReplacedKey(s: State, j: nat, answer: Answer, k: Key)
    requires KeyOk(s, k) && IsAt(s, j) && s.jobs[j].pc.Recording? && s.jobs[j].pc.photo != Some(k)
    requires !answer.Failed? && RecordApplies(s, s.jobs[j].profile, s.jobs[j].pc.user) && HasKey(s, s.jobs[j].profile, k)
    ensures KeyOk(DoRecord(s, j, answer), k)
  {
    var t, p := DoRecord(s, j, answer), s.jobs[j].profile;
    if answer.Answered? { assert JobHolds(t, j, k); }
    if k !in s.unsure {
      forall q: Profile ensures !HasKey(t, q, k) { assert q != p && HasKey(t, q, k) ==> HasKey(s, q, k); }
    }
  }

  lemma DeleteKeepsOk(s: State, j: nat, ok: bool, removed: bool, k: Key)
    requires KeyOk(s, k) && IsAt(s, j) && s.jobs[j].pc.Deleting?
    ensures KeyOk(DoDelete(s, j, ok, removed), k)
  {
    if k != s.jobs[j].pc.key {
      UntouchedKeepsOk(s, DoDelete(s, j, ok, removed), k);
    } else {
      assert JobHolds(s, j, k);
    }
  }

  lemma CrashKeepsOk(s: State, j: nat, landed: bool, k: Key)
    requires KeyOk(s, k) && IsAt(s, j)
    ensures KeyOk(DoCrash(s, j, landed), k)
  {
    if Holds(s.jobs[j].pc) != Some(k) {
      UntouchedKeepsOk(s, DoCrash(s, j, landed), k);
    } else {
      assert JobHolds(s, j, k);
    }
  }

  lemma StepKeepsOk(s: State, a: Action, k: Key)
    requires KeyOk(s, k)
    ensures KeyOk(Step(s, a), k)
  {
    if Step(s, a) == s { return; }
    match a
    case Look(j, fetches) => LookKeepsOk(s, j, fetches, k);
    case Clear(j, answer) => ClearKeepsOk(s, j, answer, k);
    case Fetch(j, got) => FetchKeepsOk(s, j, got, k);
    case Put(j, ok, landed) => PutKeepsOk(s, j, ok, landed, k);
    case Record(j, answer) => RecordKeepsOk(s, j, answer, k);
    case Delete(j, ok, removed) => DeleteKeepsOk(s, j, ok, removed, k);
    case Crash(j, landed) => CrashKeepsOk(s, j, landed, k);
    case _ => UntouchedKeepsOk(s, Step(s, a), k);
  }

  lemma {:induction false} RunKeepsInv(s: State, acts: seq<Action>)
    requires Initial(s)
    ensures Inv(Run(s, acts))
  {
    if acts != [] {
      RunKeepsInv(s, acts[..|acts| - 1]);
      forall k: Key ensures KeyOk(Run(s, acts), k) {
        StepKeepsOk(Run(s, acts[..|acts| - 1]), acts[|acts| - 1], k);
      }
    }
  }

  // ---------------------------------------------------------------- what every run keeps

  /** Every stored key names an object, or its recording took effect behind an error. */
  lemma StoredKeysExist(s: State, acts: seq<Action>, p: Profile, k: Key)
    requires Initial(s) && HasKey(Run(s, acts), p, k)
    ensures k in Run(s, acts).objects || k in Run(s, acts).unsure
  {
    RunKeepsInv(s, acts);
    assert KeyOk(Run(s, acts), k);
  }

  // A pass carries the key it minted for its own profile until it drops it.
  predicate Carries(s: State, j: nat, k: Key) { JobHolds(s, j, k) && !s.jobs[j].pc.Deleting? }

  function OriginOf(x: Job): Origin
    requires x.pc.Uploading? || x.pc.Recording?
  {
    Origin(x.profile, x.pc.user)
  }

  ghost predicate HomeInv(s: State)
  {
    && |s.home| == s.next
    && (forall p: Profile, k: Key :: HasKey(s, p, k) ==> k < |s.home| && s.home[k].profile == p)
    && (forall j: nat, k: Key :: Carries(s, j, k) ==> k < |s.home| && s.home[k] == OriginOf(s.jobs[j]))
  }

  lemma KeyComesFrom(s: State, a: Action, p: Profile, k: Key)
    requires HasKey(Step(s, a), p, k)
    ensures HasKey(s, p, k) || (a.Record? && Carries(s, a.j, k) && s.jobs[a.j].profile == p && RecordApplies(s, p, s.jobs[a.j].pc.user))
  {}

  predicate ActsAs(a: Action, j: nat) { !a.Spawn? && !a.SetLink? && !a.SetLearner? && a.j == j }

  lemma OtherJobStays(s: State, a: Action, j: nat)
    requires !ActsAs(a, j) && j < |Step(s, a).jobs|
    ensures (j < |s.jobs| && Step(s, a).jobs[j] == s.jobs[j]) || (j == |s.jobs| && Step(s, a).jobs[j].pc.Looking?)
  {
    if a.Clear? && Step(s, a) != s { ClearMovesOne(s, a.j, a.answer); }
    if a.Record? && Step(s, a) != s { RecordMovesOne(s, a.j, a.answer); }
  }

  lemma ClearMovesOne(s: State, j: nat, answer: Answer)
    requires IsAt(s, j)
    ensures DoClear(s, j, answer).jobs == s.jobs[j := s.jobs[j].(pc := DoClear(s, j, answer).jobs[j].pc)]
  {}

  lemma RecordMovesOne(s: State, j: nat, answer: Answer)
    requires IsAt(s, j) && s.jobs[j].pc.Recording?
    ensures DoRecord(s, j, answer).jobs == s.jobs[j := s.jobs[j].(pc := DoRecord(s, j, answer).jobs[j].pc)]
  {}

  lemma JobKeepsProfile(s: State, a: Action, j: nat)
    requires ActsAs(a, j) && j < |Step(s, a).jobs|
    ensures j < |s.jobs| && Step(s, a).jobs[j].profile == s.jobs[j].profile
  {}

  lemma CarriedComesFrom(s: State, a: Action, j: nat, k: Key)
    requires Carries(Step(s, a), j, k)
    ensures (Carries(s, j, k) && OriginOf(Step(s, a).jobs[j]) == OriginOf(s.jobs[j]))
            || (k == s.next && Step(s, a).home == s.home + [OriginOf(Step(s, a).jobs[j])])
  {
    if ActsAs(a, j) {
      JobKeepsProfile(s, a, j);
      if a.Record? { RecordEndsCarrying(s, j, a.answer, k); }
    } else {
      OtherJobStays(s, a, j);
    }
  }

  lemma RecordEndsCarrying(s: State, j: nat, answer: Answer, k: Key)
    requires Carries(Step(s, Record(j, answer)), j, k)
    ensures Step(s, Record(j, answer)) == s
  {}

  lemma StepKeepsHome(s: State, a: Action)
    requires HomeInv(s)
    ensures HomeInv(Step(s, a))
  {
    var t := Step(s, a);
    HomeGrows(s, a);
    forall p: Profile, k: Key | HasKey(t, p, k) ensures k < |t.home| && t.home[k].profile == p { KeyComesFrom(s, a, p, k); }
    forall j: nat, k: Key | Carries(t, j, k) ensures k < |t.home| && t.home[k] == OriginOf(t.jobs[j]) { CarriedComesFrom(s, a, j, k); }
  }

  lemma HomeGrows(s: State, a: Action)
    ensures |Step(s, a).home| - |s.home| == Step(s, a).next - s.next && s.home <= Step(s, a).home
  {}

  lemma {:induction false} RunKeepsHome(s: State, acts: seq<Action>)
    requires Initial(s)
    ensures HomeInv(Run(s, acts))
  {
    if acts != [] {
      RunKeepsHome(s, acts[..|acts| - 1]);
      StepKeepsHome(Run(s, acts[..|acts| - 1]), acts[|acts| - 1]);
    }
  }

  /** A profile only ever shows a photo minted for it: no two profiles share one, lost answers included. */
  lemma NoSharedPhoto(s: State, acts: seq<Action>, p: Profile, q: Profile, k: Key)
    requires Initial(s) && HasKey(Run(s, acts), p, k)
    ensures k < |Run(s, acts).home| && Run(s, acts).home[k].profile == p
    ensures HasKey(Run(s, acts), q, k) ==> p == q
  {
    RunKeepsHome(s, acts);
  }

  /** Step a records k by a pass for p, while p is a learner whose verified link is u. */
  ghost predicate Records(s: State, a: Action, p: Profile, k: Key, u: User)
  {
    a.Record? && Carries(s, a.j, k) && s.jobs[a.j].profile == p && RecordApplies(s, p, u)
  }

  ghost predicate RecordedWhileLinked(s: State, acts: seq<Action>, p: Profile, k: Key, u: User)
  {
    exists i: nat :: i < |acts| && Records(Run(s, acts[..i]), acts[i], p, k, u)
  }

  /** Whoever links and unlinks meanwhile, a photo shown for p was recorded for it from the user p was verified-linked to at that step. */
  lemma {:induction false} PhotoIsTheLinkedUsers(s: State, acts: seq<Action>, p: Profile, k: Key)
    requires Initial(s) && HasKey(Run(s, acts), p, k)
    ensures k < |Run(s, acts).home| && RecordedWhileLinked(s, acts, p, k, Run(s, acts).home[k].user)
  {
    assert acts != [];
    var n := |acts| - 1;
    var before := Run(s, acts[..n]);
    RunKeepsHome(s, acts[..n]);
    HomeGrows(before, acts[n]);
    KeyComesFrom(before, acts[n], p, k);
    if HasKey(before, p, k) {
      PhotoIsTheLinkedUsers(s, acts[..n], p, k);
      var i: nat :| i < n && Records(Run(s, acts[..n][..i]), acts[..n][i], p, k, before.home[k].user);
      assert acts[..n][..i] == acts[..i];
    }
  }

  /** k is dropped for this cause. */
  predicate DroppedFor(s: State, k: Key, cause: Cause) { k < |s.place| && s.place[k] == Dropped(cause) }

  lemma ClearDrops(s: State, j: nat, answer: Answer, k: Key, cause: Cause)
    requires IsAt(s, j) && DroppedFor(DoClear(s, j, answer), k, cause)
    ensures DroppedFor(s, k, cause) || (answer.Ambiguous? && cause.Unanswered?)
  {}

  lemma RecordDrops(s: State, j: nat, answer: Answer, k: Key, cause: Cause)
    requires IsAt(s, j) && s.jobs[j].pc.Recording? && DroppedFor(DoRecord(s, j, answer), k, cause)
    ensures DroppedFor(s, k, cause) || (answer.Ambiguous? && cause.Unanswered?)
  {}

  lemma DeleteDrops(s: State, j: nat, ok: bool, removed: bool, k: Key, cause: Cause)
    requires IsAt(s, j) && s.jobs[j].pc.Deleting? && DroppedFor(DoDelete(s, j, ok, removed), k, cause)
    ensures DroppedFor(s, k, cause) || (JobHolds(s, j, k) && cause == if ok then Deleted else DeleteFailed)
  {}

  /** Each step drops keys for its own cause only. */
  lemma StepDrops(s: State, a: Action, k: Key, cause: Cause)
    requires DroppedFor(Step(s, a), k, cause)
    ensures || DroppedFor(s, k, cause)
            || ((a.Clear? || a.Record?) && a.answer.Ambiguous? && cause.Unanswered?)
            || (a.Delete? && IsAt(s, a.j) && s.jobs[a.j].pc.Deleting? && JobHolds(s, a.j, k) && cause == if a.ok then Deleted else DeleteFailed)
            || (a.Crash? && cause.Crashed?)
  {
    if Step(s, a) == s { return; }
    match a
    case Clear(j, answer) => ClearDrops(s, j, answer, k, cause);
    case Record(j, answer) => RecordDrops(s, j, answer, k, cause);
    case Delete(j, ok, removed) => DeleteDrops(s, j, ok, removed, k, cause);
    case _ =>
  }

  predicate Definite(a: Action) { (a.Record? || a.Clear?) ==> !a.answer.Ambiguous? }

  lemma DefiniteStep(s: State, a: Action, k: Key)
    requires Definite(a) && s.unsure == {} && (k < |s.place| ==> s.place[k] != Dropped(Unanswered))
    ensures Step(s, a).unsure == {} && (k < |Step(s, a).place| ==> Step(s, a).place[k] != Dropped(Unanswered))
  {
    if DroppedFor(Step(s, a), k, Unanswered) { StepDrops(s, a, k, Unanswered); }
  }

  lemma {:induction false} DefiniteRun(s: State, acts: seq<Action>, k: Key)
    requires Initial(s) && forall i :: 0 <= i < |acts| ==> Definite(acts[i])
    ensures Run(s, acts).unsure == {}
    ensures k < |Run(s, acts).place| ==> Run(s, acts).place[k] != Dropped(Unanswered)
  {
    if acts != [] {
      DefiniteRun(s, acts[..|acts| - 1], k);
      DefiniteStep(Run(s, acts[..|acts| - 1]), acts[|acts| - 1], k);
    }
  }

  lemma CalmStep(s: State, a: Action, k: Key)
    requires !a.Crash? && (k < |s.place| ==> s.place[k] != Dropped(Crashed))
    ensures k < |Step(s, a).place| ==> Step(s, a).place[k] != Dropped(Crashed)
  {
    if DroppedFor(Step(s, a), k, Crashed) { StepDrops(s, a, k, Crashed); }
  }

  lemma {:induction false} CalmRun(s: State, acts: seq<Action>, k: Key)
    requires Initial(s) && forall i :: 0 <= i < |acts| ==> !acts[i].Crash?
    ensures k < |Run(s, acts).place| ==> Run(s, acts).place[k] != Dropped(Crashed)
  {
    if acts != [] {
      CalmRun(s, acts[..|acts| - 1], k);
      CalmStep(Run(s, acts[..|acts| - 1]), acts[|acts| - 1], k);
    }
  }

  /** Some pass tried to delete k and was told that the delete failed. */
  ghost predicate DeleteFailedFor(s: State, acts: seq<Action>, k: Key)
  {
    exists i: nat ::
      && i < |acts| && acts[i].Delete? && !acts[i].ok
      && JobHolds(Run(s, acts[..i]), acts[i].j, k) && Run(s, acts[..i]).jobs[acts[i].j].pc.Deleting?
  }

  lemma FailureStep(s: State, a: Action, k: Key)
    requires k < |Step(s, a).place| && Step(s, a).place[k] == Dropped(DeleteFailed)
    ensures (k < |s.place| && s.place[k] == Dropped(DeleteFailed))
            || (a.Delete? && !a.ok && JobHolds(s, a.j, k) && s.jobs[a.j].pc.Deleting?)
  {
    StepDrops(s, a, k, DeleteFailed);
  }

  lemma {:induction false} FailureHappened(s: State, acts: seq<Action>, k: Key)
    requires Initial(s) && k < |Run(s, acts).place| && Run(s, acts).place[k] == Dropped(DeleteFailed)
    ensures DeleteFailedFor(s, acts, k)
  {
    assert acts != [];
    var n := |acts| - 1;
    var before := Run(s, acts[..n]);
    FailureStep(before, acts[n], k);
    if k < |before.place| && before.place[k] == Dropped(DeleteFailed) {
      FailureHappened(s, acts[..n], k);
      var i: nat :| && i < n && acts[i].Delete? && !acts[i].ok && acts[..n][..i] == acts[..i]
                    && JobHolds(Run(s, acts[..i]), acts[i].j, k) && Run(s, acts[..i]).jobs[acts[i].j].pc.Deleting?;
    }
  }

  ghost predicate InSomeRow(s: State, k: Key) { exists p: Profile :: HasKey(s, p, k) }

  ghost predicate WithSomePass(s: State, k: Key) { exists j: nat :: JobHolds(s, j, k) }

  lemma PlaceTells(s: State, k: Key)
    requires KeyOk(s, k) && s.unsure == {} && k in s.objects
    ensures k < |s.place|
    ensures InSomeRow(s, k) || WithSomePass(s, k) || (s.place[k].Dropped? && !s.place[k].cause.Deleted?)
  {
    match s.place[k]
    case InRow(p) => assert HasKey(s, p, k);
    case InJob(j) => assert JobHolds(s, j, k);
    case Dropped(_) =>
  }

  lemma RowNamesObject(s: State, k: Key)
    requires KeyOk(s, k) && s.unsure == {} && InSomeRow(s, k)
    ensures k in s.objects
  {}

  lemma ObjectIsAccountedFor(s: State, acts: seq<Action>, k: Key)
    requires Initial(s) && KeyOk(Run(s, acts), k) && Run(s, acts).unsure == {} && k in Run(s, acts).objects
    requires k < |Run(s, acts).place| ==> Run(s, acts).place[k] != Dropped(Unanswered)
    requires forall i :: 0 <= i < |acts| ==> !acts[i].Crash?
    ensures InSomeRow(Run(s, acts), k) || WithSomePass(Run(s, acts), k) || DeleteFailedFor(s, acts, k)
  {
    CalmRun(s, acts, k);
    DropIsFailure(Run(s, acts), k);
    if !InSomeRow(Run(s, acts), k) && !WithSomePass(Run(s, acts), k) { FailureHappened(s, acts, k); }
  }

  lemma DropIsFailure(s: State, k: Key)
    requires KeyOk(s, k) && s.unsure == {} && k in s.objects
    requires k < |s.place| ==> s.place[k] != Dropped(Unanswered) && s.place[k] != Dropped(Crashed)
    ensures k < |s.place|
    ensures InSomeRow(s, k) || WithSomePass(s, k) || s.place[k] == Dropped(DeleteFailed)
  {
    PlaceTells(s, k);
  }

  /**
   With definite database answers: every stored key names an object, crashes included; and without
   crashes every object is named by a row, held by a pass, or one whose delete failed.
   */
  lemma RowsAndObjectsAgree(s: State, acts: seq<Action>, k: Key)
    requires Initial(s) && forall i :: 0 <= i < |acts| ==> Definite(acts[i])
    ensures var t := Run(s, acts);
            && (InSomeRow(t, k) ==> k in t.objects)
            && (k in t.objects && (forall i :: 0 <= i < |acts| ==> !acts[i].Crash?) ==>
                  InSomeRow(t, k) || WithSomePass(t, k) || DeleteFailedFor(s, acts, k))
  {
    var t := Run(s, acts);
    RunKeepsInv(s, acts);
    DefiniteRun(s, acts, k);
    assert KeyOk(t, k);
    if InSomeRow(t, k) { RowNamesObject(t, k); }
    if k in t.objects && forall i :: 0 <= i < |acts| ==> !acts[i].Crash? { ObjectIsAccountedFor(s, acts, k); }
  }

  // ---------------------------------------------------------------- where the agreement ends

  ghost predicate Dangling(s: State, p: Profile, k: Key) { HasKey(s, p, k) && k !in s.objects }

  /**
   In any reachable state, recording an uploaded photo that the row accepts, followed by the pass's
   delete, leaves the row naming a missing object exactly when the database's answer was lost.
   */
  lemma LostAnswerDangles(s: State, acts: seq<Action>, j: nat, k: Key, answer: Answer)
    requires Initial(s)
    requires var t := Run(s, acts);
             && j < |t.jobs| && t.jobs[j].pc.Recording? && t.jobs[j].pc.photo == Some(k)
             && RecordApplies(t, t.jobs[j].profile, t.jobs[j].pc.user)
    ensures var t := Run(s, acts);
            Dangling(Step(Step(t, Record(j, answer)), Delete(j, true, true)), t.jobs[j].profile, k) <==> answer.Ambiguous?
  {
    var t := Run(s, acts);
    RunKeepsInv(s, acts);
    var p := t.jobs[j].profile;
    assert KeyOk(t, k) && JobHolds(t, j, k);
    assert !HasKey(t, p, k);
    var u := Step(t, Record(j, answer));
    StepKeepsOk(t, Record(j, answer), k);
    var v := Step(u, Delete(j, true, true));
    StepKeepsOk(u, Delete(j, true, true), k);
  }

  lemma Snoc(s: State, acts: seq<Action>, a: Action)
    ensures Run(s, acts + [a]) == Step(Run(s, acts), a)
  {
    assert (acts + [a])[..|acts|] == acts;
  }

  /** One pass for one learner, up to a recorded photo. */
  lemma PhotoUploaded() returns (s: State, acts: seq<Action>, t: State)
    ensures Initial(s) && t == Run(s, acts)
    ensures t == State(map[0 := Row(true, Some(7), None, false)], {0}, [Job(0, Recording(Some(0), 7))], 1, [InJob(0)], [Origin(0, 7)], {})
  {
    s := State(map[0 := Row(true, Some(7), None, false)], {}, [], 0, [], [], {});
    acts := [Spawn(0)] + [Look(0, true)] + [Fetch(0, Photo)] + [Put(0, true, true)];
    Snoc(s, [], Spawn(0));
    assert [] + [Spawn(0)] == [Spawn(0)];
    Snoc(s, [Spawn(0)], Look(0, true));
    Snoc(s, [Spawn(0)] + [Look(0, true)], Fetch(0, Photo));
    Snoc(s, [Spawn(0)] + [Look(0, true)] + [Fetch(0, Photo)], Put(0, true, true));
    t := Run(s, acts);
  }

  /** A run whose answer is lost: the row names an object that is gone. */
  lemma DanglingRow() returns (s: State, acts: seq<Action>)
    ensures Initial(s) && Dangling(Run(s, acts), 0, 0)
  {
    var upload, t;
    s, upload, t := PhotoUploaded();
    acts := upload + [Record(0, Ambiguous)] + [Delete(0, true, true)];
    Snoc(s, upload, Record(0, Ambiguous));
    Snoc(s, upload + [Record(0, Ambiguous)], Delete(0, true, true));
    LostAnswerDangles(s, upload, 0, 0, Ambiguous);
  }
}
