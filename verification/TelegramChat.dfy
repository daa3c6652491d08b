/**
 The two request machines that share one bot chat: «Telegram orqali kirish» (website login) and
 the bot password reset. Every transaction is one step. Tokens, browser secrets and nonces are
 opaque values; hashes and raw values are identified. A step that a kill switch, a rate limit or
 an error would refuse is simply not taken.
 */
module TelegramChat {
  import opened Options

  type Tg = int
  type Profile = int
  type Id = nat
  type Nonce = nat
  type Secret = int
  type Phone = int

  const LOGIN_TTL: int := 5 * 60
  const COMPLETE_GRACE: int := 2 * 60
  const RESET_TTL: int := 15 * 60
  const SWEEP_AFTER: int := 24 * 3600

  datatype Status = Pending | Approved | Cancelled | Blocked | Consumed

  datatype Login = Login(
    secret: Secret, expiresAt: int, status: Status,
    pendingTg: Option<Tg>, nonce: Option<Nonce>, contactPhone: Option<Phone>,
    openedTg: Option<Tg>, approvedTg: Option<Tg>, profile: Option<Profile>)

  datatype Reset = Reset(
    profile: Profile, expiresAt: int, used: bool, verified: bool,
    pendingTg: Option<Tg>, nonce: Option<Nonce>, verifiedTg: Option<Tg>)

  datatype Person = Person(phone: Phone, learner: bool, active: bool)

  /** A Telegram user's link to a profile; verified: Telegram vouched for the phone. */
  datatype Link = Link(profile: Profile, verified: bool)

  datatype Flow = LoginFlow(id: Id) | ResetFlow(id: Id)

  /** `next` feeds ids and nonces; `owner` is history: the flow last armed for each Telegram user. */
  datatype State = State(
    logins: map<Id, Login>, resets: map<Id, Reset>,
    people: map<Profile, Person>, links: map<Tg, Link>,
    now: int, next: nat, owner: map<Tg, Flow>)

  const EMPTY: State := State(map[], map[], map[], map[], 0, 0, map[])

  /** `holder` is what a lookup of the phone finds; a step with a wrong holder is not taken. */
  datatype Act =
    | StartLogin(secret: Secret)
    | BeginLogin(id: Id, tg: Tg)
    | LoginContact(id: Id, tg: Tg, contactUser: Tg, phone: Option<Phone>, holder: Option<Profile>)
    | LoginTap(id: Id, tg: Tg, nonce: Nonce, accept: bool, holder: Option<Profile>, linkOk: bool)
    | CompleteLogin(id: Id, secret: Secret)
    | StartReset(profile: Profile)
    | BeginReset(id: Id, tg: Tg)
    | ResetContact(id: Id, tg: Tg, contactUser: Tg, phone: Option<Phone>)
    | ResetTap(id: Id, tg: Tg, nonce: Nonce, accept: bool)
    | CompleteReset(id: Id)
    | MiniAppLink(tg: Tg, profile: Profile)
    | LegacyLink(tg: Tg, profile: Profile)
    | Unlink(profile: Profile)
    | SetPerson(profile: Profile, person: Person)
    | SweepLogin(id: Id)
    | Tick(d: nat)

  // ---------------------------------------------------------------- queries

  predicate LoginLive(r: Login, now: int) { now < r.expiresAt }

  predicate Completable(r: Login, now: int) { r.status == Approved && now < r.expiresAt + COMPLETE_GRACE }

  predicate ResetLive(r: Reset, now: int) { !r.used && now <= r.expiresAt }

  predicate IsActive(s: State, p: Profile) { p in s.people && s.people[p].active }

  /** The learner a Telegram user is phone-verified-linked to. */
  function VerifiedProfile(s: State, tg: Tg): Option<Profile> {
    if tg in s.links && s.links[tg].verified && s.links[tg].profile in s.people && s.people[s.links[tg].profile].learner
    then Some(s.links[tg].profile) else None
  }

  predicate Holds(s: State, holder: Option<Profile>, phone: Phone) {
    if holder.Some? then holder.value in s.people && s.people[holder.value].phone == phone
    else forall p :: p in s.people ==> s.people[p].phone != phone
  }

  // ---------------------------------------------------------------- row updates

  function ClearedLogin(r: Login): Login { r.(pendingTg := None, nonce := None, contactPhone := None) }

  /** ClearTelegramLoginPendingForTg. */
  function ClearOtherLogins(m: map<Id, Login>, tg: Tg, id: Id): map<Id, Login> {
    map i | i in m :: if m[i].pendingTg == Some(tg) && i != id then ClearedLogin(m[i]) else m[i]
  }

  /** ClearAllTelegramLoginPendingForTg. */
  function ClearLogins(m: map<Id, Login>, tg: Tg): map<Id, Login> {
    map i | i in m :: if m[i].pendingTg == Some(tg) && m[i].status == Pending then ClearedLogin(m[i]) else m[i]
  }

  function ClearedReset(r: Reset): Reset { r.(pendingTg := None, nonce := None) }

  /** ClearPasswordResetPendingForTg. */
  function ClearOtherResets(m: map<Id, Reset>, tg: Tg, id: Id): map<Id, Reset> {
    map i | i in m :: if m[i].pendingTg == Some(tg) && !m[i].used && i != id then ClearedReset(m[i]) else m[i]
  }

  /** ClearAllPasswordResetPendingForTg. */
  function ClearResets(m: map<Id, Reset>, tg: Tg): map<Id, Reset> {
    map i | i in m :: if m[i].pendingTg == Some(tg) && !m[i].used then ClearedReset(m[i]) else m[i]
  }

  /** ArmTelegramLoginForTg: the first opener is remembered for good. */
  function ArmedLogin(r: Login, tg: Tg, nonce: Option<Nonce>): Login {
    r.(pendingTg := Some(tg), nonce := nonce, contactPhone := None,
       openedTg := if r.openedTg.Some? then r.openedTg else Some(tg))
  }

  /** EndTelegramLoginRequest and ApproveTelegramLoginRequest; both act on a pending row only. */
  function EndedLogin(r: Login, status: Status): Login {
    if r.status == Pending then ClearedLogin(r).(status := status) else r
  }

  function ApprovedLogin(r: Login, tg: Tg, p: Profile): Login {
    if r.status == Pending then ClearedLogin(r).(status := Approved, profile := Some(p), approvedTg := Some(tg)) else r
  }

  /** Telegram user tg now vouches for profile p, and p has no other Telegram user. */
  function LinkTo(links: map<Tg, Link>, tg: Tg, p: Profile, verified: bool): map<Tg, Link> {
    (map t | t in links && links[t].profile != p :: links[t])[tg := Link(p, verified)]
  }

  /** linkVerifiedTelegramInTx: link, then disarm both waiting flows of this Telegram user. */
  function LinkAndDisarm(s: State, tg: Tg, p: Profile): State {
    s.(links := LinkTo(s.links, tg, p, true), resets := ClearResets(s.resets, tg), logins := ClearLogins(s.logins, tg))
  }

  // ---------------------------------------------------------------- the login machine

  predicate MayOpen(s: State, id: Id, tg: Tg) {
    && id in s.logins
    && s.logins[id].status == Pending && LoginLive(s.logins[id], s.now)
    && (s.logins[id].openedTg.None? || s.logins[id].openedTg == Some(tg))
  }

  function BeginLoginStep(s: State, id: Id, tg: Tg): State {
    if !MayOpen(s, id, tg) then s
    else
      var row := s.logins[id];
      var cleared := s.(logins := ClearOtherLogins(s.logins, tg, id), resets := ClearResets(s.resets, tg));
      var p := VerifiedProfile(s, tg);
      if p.None? then
        cleared.(logins := cleared.logins[id := ArmedLogin(row, tg, None)], owner := s.owner[tg := LoginFlow(id)])
      else if !IsActive(s, p.value) then
        cleared.(logins := cleared.logins[id := EndedLogin(row, Blocked)])
      else
        cleared.(logins := cleared.logins[id := ArmedLogin(row, tg, Some(s.next))],
                 owner := s.owner[tg := LoginFlow(id)], next := s.next + 1)
  }

  predicate AwaitsContact(s: State, id: Id, tg: Tg) {
    && id in s.logins
    && s.logins[id].pendingTg == Some(tg) && s.logins[id].status == Pending && LoginLive(s.logins[id], s.now)
    && s.logins[id].nonce.None?
  }

  function LoginContactStep(s: State, id: Id, tg: Tg, contactUser: Tg, phone: Option<Phone>, holder: Option<Profile>): State {
    if !AwaitsContact(s, id, tg) || contactUser != tg || phone.None? || !Holds(s, holder, phone.value) then s
    else if holder.Some? && !s.people[holder.value].learner then s
    else if holder.Some? && !s.people[holder.value].active then
      s.(logins := s.logins[id := EndedLogin(s.logins[id], Blocked)])
    else
      s.(logins := s.logins[id := s.logins[id].(nonce := Some(s.next), contactPhone := phone)], next := s.next + 1)
  }

  /** A tap counts from the user whose chat is being asked, with the nonce of the question shown last, in time. */
  predicate TapApplies(s: State, id: Id, tg: Tg, nonce: Nonce) {
    && id in s.logins
    && s.logins[id].nonce == Some(nonce)
    && s.logins[id].status == Pending && LoginLive(s.logins[id], s.now)
    && s.logins[id].pendingTg == Some(tg)
  }

  /** The profile a tap signs in to: None when it may not; a new person gets the unused id `next`. */
  function TapProfile(s: State, id: Id, tg: Tg, holder: Option<Profile>): Option<Profile>
    requires id in s.logins
  {
    var phone := s.logins[id].contactPhone;
    if phone.None? then VerifiedProfile(s, tg)
    else if !Holds(s, holder, phone.value) then None
    else if holder.None? then (if s.next in s.people then None else Some(s.next))
    else if s.people[holder.value].learner then holder
    else None
  }

  function Approve(s: State, id: Id, tg: Tg, p: Profile): State
    requires id in s.logins
  {
    s.(logins := s.logins[id := ApprovedLogin(s.logins[id], tg, p)])
  }

  function LoginTapStep(s: State, id: Id, tg: Tg, nonce: Nonce, accept: bool, holder: Option<Profile>, linkOk: bool): State {
    if !TapApplies(s, id, tg, nonce) then s
    else if !accept then s.(logins := s.logins[id := EndedLogin(s.logins[id], Cancelled)])
    else
      var p := TapProfile(s, id, tg, holder);
      var phone := s.logins[id].contactPhone;
      if p.None? then s
      else if phone.Some? && holder.None? then
        var born := s.(people := s.people[s.next := Person(phone.value, true, true)], next := s.next + 1);
        Approve(if linkOk then LinkAndDisarm(born, tg, s.next) else born, id, tg, s.next)
      else if !IsActive(s, p.value) then s.(logins := s.logins[id := EndedLogin(s.logins[id], Blocked)])
      else Approve(if phone.Some? && linkOk then LinkAndDisarm(s, tg, p.value) else s, id, tg, p.value)
  }

  /** The guard under which a browser gets a session. */
  predicate Completes(s: State, id: Id, secret: Secret) {
    && id in s.logins
    && s.logins[id].secret == secret && Completable(s.logins[id], s.now)
    && s.logins[id].profile.Some? && IsActive(s, s.logins[id].profile.value)
    && s.people[s.logins[id].profile.value].learner
  }

  function CompleteLoginStep(s: State, id: Id, secret: Secret): State {
    if Completes(s, id, secret) then s.(logins := s.logins[id := s.logins[id].(status := Consumed)]) else s
  }

  // ---------------------------------------------------------------- the reset machine

  function StartResetStep(s: State, p: Profile): State {
    if !IsActive(s, p) then s
    else
      var kept := map i | i in s.resets && !(s.resets[i].profile == p && !s.resets[i].used) :: s.resets[i];
      s.(resets := kept[s.next := Reset(p, s.now + RESET_TTL, false, false, None, None, None)], next := s.next + 1)
  }

  predicate LinkedTo(s: State, tg: Tg, p: Profile) { tg in s.links && s.links[tg] == Link(p, true) }

  predicate MayBeginReset(s: State, id: Id) {
    id in s.resets && ResetLive(s.resets[id], s.now) && IsActive(s, s.resets[id].profile) && !s.resets[id].verified
  }

  function BeginResetStep(s: State, id: Id, tg: Tg): State {
    if !MayBeginReset(s, id) then s
    else
      var linked := LinkedTo(s, tg, s.resets[id].profile);
      var armed := s.resets[id].(pendingTg := Some(tg), nonce := if linked then Some(s.next) else None);
      s.(resets := ClearOtherResets(s.resets, tg, id)[id := armed],
         logins := ClearLogins(s.logins, tg),
         owner := s.owner[tg := ResetFlow(id)],
         next := if linked then s.next + 1 else s.next)
  }

  function ResetContactStep(s: State, id: Id, tg: Tg, contactUser: Tg, phone: Option<Phone>): State {
    if id !in s.resets || contactUser != tg || s.resets[id].pendingTg != Some(tg) || !ResetLive(s.resets[id], s.now) then s
    else if !IsActive(s, s.resets[id].profile) || phone != Some(s.people[s.resets[id].profile].phone) || s.resets[id].verified then s
    else s.(resets := s.resets[id := s.resets[id].(nonce := Some(s.next))], next := s.next + 1)
  }

  predicate ResetTapApplies(s: State, id: Id, tg: Tg, nonce: Nonce) {
    && id in s.resets
    && s.resets[id].nonce == Some(nonce) && ResetLive(s.resets[id], s.now) && !s.resets[id].verified
    && s.resets[id].pendingTg == Some(tg) && IsActive(s, s.resets[id].profile)
  }

  function ResetTapStep(s: State, id: Id, tg: Tg, nonce: Nonce, accept: bool): State {
    if !ResetTapApplies(s, id, tg, nonce) then s
    else if !accept then s.(resets := s.resets[id := ClearedReset(s.resets[id]).(used := true)])
    else
      var row := s.resets[id];
      s.(links := if LinkedTo(s, tg, row.profile) then s.links else LinkTo(s.links, tg, row.profile, true),
         resets := s.resets[id := ClearedReset(row).(verified := true, verifiedTg := row.pendingTg)])
  }

  /** The guard under which a new password is set. */
  predicate ResetCompletes(s: State, id: Id) {
    id in s.resets && ResetLive(s.resets[id], s.now) && s.resets[id].verified && IsActive(s, s.resets[id].profile)
  }

  function CompleteResetStep(s: State, id: Id): State {
    if !ResetCompletes(s, id) then s
    else
      var row := s.resets[id];
      s.(resets := s.resets[id := ClearedReset(row).(used := true)],
         links := map t | t in s.links
                          && !(s.links[t].profile == row.profile && !(s.links[t].verified && row.verifiedTg == Some(t)))
                  :: s.links[t])
  }

  // ---------------------------------------------------------------- steps and runs

  function Step(s: State, act: Act): State {
    match act
    case StartLogin(secret) =>
      s.(logins := s.logins[s.next := Login(secret, s.now + LOGIN_TTL, Pending, None, None, None, None, None, None)],
         next := s.next + 1)
    case BeginLogin(id, tg) => BeginLoginStep(s, id, tg)
    case LoginContact(id, tg, contactUser, phone, holder) => LoginContactStep(s, id, tg, contactUser, phone, holder)
    case LoginTap(id, tg, nonce, accept, holder, linkOk) => LoginTapStep(s, id, tg, nonce, accept, holder, linkOk)
    case CompleteLogin(id, secret) => CompleteLoginStep(s, id, secret)
    case StartReset(p) => StartResetStep(s, p)
    case BeginReset(id, tg) => BeginResetStep(s, id, tg)
    case ResetContact(id, tg, contactUser, phone) => ResetContactStep(s, id, tg, contactUser, phone)
    case ResetTap(id, tg, nonce, accept) => ResetTapStep(s, id, tg, nonce, accept)
    case CompleteReset(id) => CompleteResetStep(s, id)
    case MiniAppLink(tg, p) => LinkAndDisarm(s, tg, p)
    case LegacyLink(tg, p) =>
      // A Telegram user linked to another profile is refused; re-pointing a profile drops its proof.
      if tg in s.links then s else s.(links := LinkTo(s.links, tg, p, false))
    case Unlink(p) => s.(links := map t | t in s.links && s.links[t].profile != p :: s.links[t])
    case SetPerson(p, person) => s.(people := s.people[p := person])
    case SweepLogin(id) =>
      if id in s.logins && s.logins[id].expiresAt < s.now - SWEEP_AFTER then s.(logins := s.logins - {id}) else s
    case Tick(d) => s.(now := s.now + d)
  }

  function Run(s: State, acts: seq<Act>): State {
    if acts == [] then s else Step(Run(s, acts[..|acts|-1]), acts[|acts|-1])
  }
}
