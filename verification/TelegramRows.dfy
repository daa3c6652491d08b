/**
 What one transaction can do to one login request or one password reset, and what every
 transaction keeps.
 */
module TelegramRows {
  import opened Options
  import opened TelegramChat

  // ---------------------------------------------------------------- moves of a login request

  datatype LoginMove =
    | Kept | Disarmed | Armed(tg: Tg, nonce: Option<Nonce>) | Asked(asked: Nonce, phone: Option<Phone>)
    | ApprovedBy(tg: Tg, p: Profile) | EndedAs(status: Status) | Spent

  function MoveLogin(r: Login, move: LoginMove): Login {
    match move
    case Kept => r
    case Disarmed => ClearedLogin(r)
    case Armed(tg, nonce) => ArmedLogin(r, tg, nonce)
    case Asked(nonce, phone) => r.(nonce := Some(nonce), contactPhone := phone)
    case ApprovedBy(tg, p) => ApprovedLogin(r, tg, p)
    case EndedAs(status) => EndedLogin(r, status)
    case Spent => r.(status := Consumed)
  }

  function DisarmIf(hit: bool): LoginMove { if hit then Disarmed else Kept }

  function BeginLoginMove(s: State, id: Id, tg: Tg, i: Id): LoginMove
    requires i in s.logins
  {
    if !MayOpen(s, id, tg) then Kept
    else if i != id then DisarmIf(s.logins[i].pendingTg == Some(tg))
    else
      var p := VerifiedProfile(s, tg);
      if p.None? then Armed(tg, None)
      else if !IsActive(s, p.value) then EndedAs(Blocked)
      else Armed(tg, Some(s.next))
  }

  function ContactMove(s: State, act: Act, i: Id): LoginMove
    requires act.LoginContact? && i in s.logins
  {
    if i != act.id || LoginContactStep(s, act.id, act.tg, act.contactUser, act.phone, act.holder) == s then Kept
    else if act.holder.Some? && !s.people[act.holder.value].active then EndedAs(Blocked)
    else Asked(s.next, act.phone)
  }

  function TapMove(s: State, act: Act, i: Id): LoginMove
    requires act.LoginTap? && i in s.logins
  {
    if !TapApplies(s, act.id, act.tg, act.nonce) then Kept
    else if !act.accept then (if i == act.id then EndedAs(Cancelled) else Kept)
    else
      var p := TapProfile(s, act.id, act.tg, act.holder);
      var phone := s.logins[act.id].contactPhone;
      if p.None? then Kept
      else if !(phone.Some? && act.holder.None?) && !IsActive(s, p.value) then (if i == act.id then EndedAs(Blocked) else Kept)
      else if i == act.id then ApprovedBy(act.tg, p.value)
      else DisarmIf(phone.Some? && act.linkOk && s.logins[i].pendingTg == Some(act.tg) && s.logins[i].status == Pending)
  }

  function LoginMoveOf(s: State, act: Act, i: Id): LoginMove
    requires i in s.logins
  {
    match act
    case BeginLogin(id, tg) => BeginLoginMove(s, id, tg, i)
    case LoginContact(_, _, _, _, _) => ContactMove(s, act, i)
    case LoginTap(_, _, _, _, _, _) => TapMove(s, act, i)
    case CompleteLogin(id, secret) => if i == id && Completes(s, id, secret) then Spent else Kept
    case BeginReset(id, tg) => DisarmIf(MayBeginReset(s, id) && s.logins[i].pendingTg == Some(tg) && s.logins[i].status == Pending)
    case MiniAppLink(tg, _) => DisarmIf(s.logins[i].pendingTg == Some(tg) && s.logins[i].status == Pending)
    case _ => Kept
  }

  /** Approving after the link step disarmed the very same row still approves it. */
  lemma ApproveAfterLink(s: State, id: Id, tg: Tg, p: Profile, linked: bool, i: Id)
    requires id in s.logins && i in s.logins && s.logins[id].status == Pending
    ensures var r := Approve(if linked then LinkAndDisarm(s, tg, p) else s, id, tg, p).logins;
            && r.Keys == s.logins.Keys
            && r[i] == MoveLogin(s.logins[i],
                                 if i == id then ApprovedBy(tg, p)
                                 else DisarmIf(linked && s.logins[i].pendingTg == Some(tg) && s.logins[i].status == Pending))
  {}

  /** A tap that signs its user in. */
  predicate TapGrants(s: State, act: Act)
    requires act.LoginTap?
  {
    && TapApplies(s, act.id, act.tg, act.nonce) && act.accept
    && TapProfile(s, act.id, act.tg, act.holder).Some?
    && (TapCreates(s, act) || IsActive(s, TapProfile(s, act.id, act.tg, act.holder).value))
  }

  /** The shared number belongs to nobody yet. */
  predicate TapCreates(s: State, act: Act)
    requires act.LoginTap? && act.id in s.logins
  {
    s.logins[act.id].contactPhone.Some? && act.holder.None?
  }

  function Born(s: State, act: Act): State
    requires act.LoginTap? && act.id in s.logins && TapCreates(s, act)
  {
    s.(people := s.people[s.next := Person(s.logins[act.id].contactPhone.value, true, true)], next := s.next + 1)
  }

  /** The four ways a tap can end, each by one update. */
  lemma TapCases(s: State, act: Act)
    requires act.LoginTap?
    ensures Step(s, act) ==
              if !TapGrants(s, act) then
                (if TapApplies(s, act.id, act.tg, act.nonce) && !act.accept then s.(logins := s.logins[act.id := EndedLogin(s.logins[act.id], Cancelled)])
                 else if TapBlocks(s, act) then s.(logins := s.logins[act.id := EndedLogin(s.logins[act.id], Blocked)])
                 else s)
              else
                var p := TapProfile(s, act.id, act.tg, act.holder).value;
                var from := if TapCreates(s, act) then Born(s, act) else s;
                Approve(if TapLinks(s, act) then LinkAndDisarm(from, act.tg, p) else from, act.id, act.tg, p)
  {}

  predicate TapBlocks(s: State, act: Act)
    requires act.LoginTap?
  {
    TapApplies(s, act.id, act.tg, act.nonce) && act.accept && TapProfile(s, act.id, act.tg, act.holder).Some? && !TapGrants(s, act)
  }

  /** Whether a granting tap links its user, which disarms what else waits for that user. */
  predicate TapLinks(s: State, act: Act)
    requires act.LoginTap?
  {
    TapGrants(s, act) && act.linkOk && s.logins[act.id].contactPhone.Some?
  }

  lemma TapIsMove(s: State, act: Act, i: Id)
    requires act.LoginTap? && i in s.logins
    ensures Step(s, act).logins.Keys == s.logins.Keys
    ensures Step(s, act).logins[i] == MoveLogin(s.logins[i], TapMove(s, act, i))
  {
    TapCases(s, act);
    if TapGrants(s, act) {
      var from := if TapCreates(s, act) then Born(s, act) else s;
      ApproveAfterLink(from, act.id, act.tg, TapProfile(s, act.id, act.tg, act.holder).value, TapLinks(s, act), i);
    }
  }

  lemma BeginLoginMoves(s: State, id: Id, tg: Tg, i: Id)
    requires i in s.logins
    ensures BeginLoginStep(s, id, tg).logins.Keys == s.logins.Keys
    ensures BeginLoginStep(s, id, tg).logins[i] == MoveLogin(s.logins[i], BeginLoginMove(s, id, tg, i))
  {}

  lemma ContactMoves(s: State, act: Act, i: Id)
    requires act.LoginContact? && i in s.logins
    ensures Step(s, act).logins.Keys == s.logins.Keys
    ensures Step(s, act).logins[i] == MoveLogin(s.logins[i], ContactMove(s, act, i))
  {}

  /** Transactions that touch at most the logins of one Telegram user, or one login. */
  lemma OtherLoginMoves(s: State, act: Act, i: Id)
    requires act.CompleteLogin? || act.BeginReset? || act.MiniAppLink?
    requires i in s.logins
    ensures Step(s, act).logins.Keys == s.logins.Keys
    ensures Step(s, act).logins[i] == MoveLogin(s.logins[i], LoginMoveOf(s, act, i))
  {}

  /** Transactions that leave the logins there are as they are. */
  predicate SparesLogins(act: Act) {
    || act.StartReset? || act.ResetContact? || act.ResetTap? || act.CompleteReset?
    || act.LegacyLink? || act.Unlink? || act.SetPerson? || act.Tick?
  }

  lemma LoginsSpared(s: State, act: Act)
    requires SparesLogins(act)
    ensures Step(s, act).logins == s.logins
  {}

  /** Every transaction moves every login request by one of seven moves; ids are never reused. */
  lemma LoginIsMoved(s: State, act: Act, i: Id)
    requires i in s.logins && i in Step(s, act).logins && i < s.next
    ensures Step(s, act).logins[i] == MoveLogin(s.logins[i], LoginMoveOf(s, act, i))
  {
    if SparesLogins(act) {
      LoginsSpared(s, act);
    } else if act.LoginTap? {
      TapIsMove(s, act, i);
    } else if act.BeginLogin? {
      BeginLoginMoves(s, act.id, act.tg, i);
    } else if act.LoginContact? {
      ContactMoves(s, act, i);
    } else if act.CompleteLogin? || act.BeginReset? || act.MiniAppLink? {
      OtherLoginMoves(s, act, i);
    }
  }

  lemma LoginIsNew(s: State, act: Act, i: Id)
    requires i in Step(s, act).logins && i !in s.logins
    ensures act.StartLogin? && i == s.next
    ensures Step(s, act).logins[i] == Login(act.secret, s.now + LOGIN_TTL, Pending, None, None, None, None, None, None)
  {
    if SparesLogins(act) { LoginsSpared(s, act); }
    if act.LoginTap? { TapKeepsIds(s, act); }
  }

  lemma LinkKeepsIds(s: State, tg: Tg, p: Profile)
    ensures LinkAndDisarm(s, tg, p).logins.Keys == s.logins.Keys
    ensures LinkAndDisarm(s, tg, p).resets.Keys == s.resets.Keys
  {}

  lemma TapResets(s: State, act: Act)
    requires act.LoginTap?
    ensures Step(s, act).resets == if TapLinks(s, act) then ClearResets(s.resets, act.tg) else s.resets
  {
    TapCases(s, act);
  }

  lemma TapKeepsIds(s: State, act: Act)
    requires act.LoginTap?
    ensures Step(s, act).logins.Keys == s.logins.Keys
  {
    TapCases(s, act);
    if TapLinks(s, act) {
      LinkKeepsIds(if TapCreates(s, act) then Born(s, act) else s, act.tg, TapProfile(s, act.id, act.tg, act.holder).value);
    }
  }

  // ---------------------------------------------------------------- moves of a reset

  datatype ResetMove = RKept | RDisarmed | RArmed(tg: Tg, nonce: Option<Nonce>) | RAsked(asked: Nonce) | RCancelled | RVerified | RUsed

  function MoveReset(r: Reset, move: ResetMove): Reset {
    match move
    case RKept => r
    case RDisarmed => ClearedReset(r)
    case RArmed(tg, nonce) => r.(pendingTg := Some(tg), nonce := nonce)
    case RAsked(nonce) => r.(nonce := Some(nonce))
    case RCancelled => ClearedReset(r).(used := true)
    case RVerified => ClearedReset(r).(verified := true, verifiedTg := r.pendingTg)
    case RUsed => ClearedReset(r).(used := true)
  }

  function RDisarmIf(hit: bool): ResetMove { if hit then RDisarmed else RKept }

  predicate ArmedFor(r: Reset, tg: Tg) { r.pendingTg == Some(tg) && !r.used }

  function ResetMoveOf(s: State, act: Act, i: Id): ResetMove
    requires i in s.resets
  {
    match act
    case BeginLogin(id, tg) => RDisarmIf(MayOpen(s, id, tg) && ArmedFor(s.resets[i], tg))
    case LoginTap(_, tg, _, _, _, _) => RDisarmIf(TapLinks(s, act) && ArmedFor(s.resets[i], tg))
    case BeginReset(id, tg) =>
      if !MayBeginReset(s, id) then RKept
      else if i == id then RArmed(tg, if LinkedTo(s, tg, s.resets[id].profile) then Some(s.next) else None)
      else RDisarmIf(ArmedFor(s.resets[i], tg))
    case ResetContact(id, tg, contactUser, phone) =>
      if i != id || ResetContactStep(s, id, tg, contactUser, phone) == s then RKept else RAsked(s.next)
    case ResetTap(id, tg, nonce, accept) =>
      if i != id || !ResetTapApplies(s, id, tg, nonce) then RKept else if accept then RVerified else RCancelled
    case CompleteReset(id) => if i == id && ResetCompletes(s, id) then RUsed else RKept
    case MiniAppLink(tg, _) => RDisarmIf(ArmedFor(s.resets[i], tg))
    case _ => RKept
  }

  /** Transactions that leave every reset alone. */
  predicate SparesResets(act: Act) {
    || act.StartLogin? || act.LoginContact? || act.CompleteLogin? || act.LegacyLink? || act.Unlink?
    || act.SetPerson? || act.SweepLogin? || act.Tick?
  }

  lemma ResetsSpared(s: State, act: Act)
    requires SparesResets(act)
    ensures Step(s, act).resets == s.resets
  {}

  lemma BeginLoginResets(s: State, id: Id, tg: Tg)
    ensures BeginLoginStep(s, id, tg).resets == if MayOpen(s, id, tg) then ClearResets(s.resets, tg) else s.resets
  {}

  lemma BeginResetMoves(s: State, id: Id, tg: Tg, i: Id)
    requires i in s.resets
    ensures BeginResetStep(s, id, tg).resets.Keys == s.resets.Keys
    ensures BeginResetStep(s, id, tg).resets[i] == MoveReset(s.resets[i], ResetMoveOf(s, BeginReset(id, tg), i))
  {}

  lemma ResetContactMoves(s: State, act: Act, i: Id)
    requires act.ResetContact? && i in s.resets
    ensures Step(s, act).resets.Keys == s.resets.Keys
    ensures Step(s, act).resets[i] == MoveReset(s.resets[i], ResetMoveOf(s, act, i))
  {}

  lemma ResetTapMoves(s: State, act: Act, i: Id)
    requires act.ResetTap? && i in s.resets
    ensures Step(s, act).resets.Keys == s.resets.Keys
    ensures Step(s, act).resets[i] == MoveReset(s.resets[i], ResetMoveOf(s, act, i))
  {}

  lemma CompleteResetMoves(s: State, act: Act, i: Id)
    requires act.CompleteReset? && i in s.resets
    ensures Step(s, act).resets.Keys == s.resets.Keys
    ensures Step(s, act).resets[i] == MoveReset(s.resets[i], ResetMoveOf(s, act, i))
  {}

  /** Every transaction moves every reset by one of seven moves. */
  lemma ResetIsMoved(s: State, act: Act, i: Id)
    requires i in s.resets && i in Step(s, act).resets && i < s.next
    ensures Step(s, act).resets[i] == MoveReset(s.resets[i], ResetMoveOf(s, act, i))
  {
    if SparesResets(act) {
      ResetsSpared(s, act);
    } else if act.BeginLogin? {
      BeginLoginResets(s, act.id, act.tg);
    } else if act.LoginTap? {
      TapResets(s, act);
    } else if act.BeginReset? {
      BeginResetMoves(s, act.id, act.tg, i);
    } else if act.ResetContact? {
      ResetContactMoves(s, act, i);
    } else if act.ResetTap? {
      ResetTapMoves(s, act, i);
    } else if act.CompleteReset? {
      CompleteResetMoves(s, act, i);
    }
  }

  lemma BeginResetKeepsIds(s: State, id: Id, tg: Tg)
    ensures BeginResetStep(s, id, tg).resets.Keys == s.resets.Keys
  {}

  lemma OwnResetKeepsIds(s: State, act: Act)
    requires act.ResetContact? || act.ResetTap? || act.CompleteReset?
    ensures Step(s, act).resets.Keys == s.resets.Keys
  {}

  lemma ResetIsNew(s: State, act: Act, i: Id)
    requires i in Step(s, act).resets && i !in s.resets
    ensures act.StartReset? && i == s.next
    ensures Step(s, act).resets[i] == Reset(act.profile, s.now + RESET_TTL, false, false, None, None, None)
  {
    if SparesResets(act) {
      ResetsSpared(s, act);
    } else if act.BeginLogin? {
      BeginLoginResets(s, act.id, act.tg);
    } else if act.LoginTap? {
      TapResets(s, act);
    } else if act.BeginReset? {
      BeginResetKeepsIds(s, act.id, act.tg);
    } else if act.ResetContact? || act.ResetTap? || act.CompleteReset? {
      OwnResetKeepsIds(s, act);
    }
  }

  // ---------------------------------------------------------------- what every transaction keeps

  ghost predicate RowFits(r: Login, i: Id, owner: map<Tg, Flow>) {
    && (r.status != Pending ==> r.pendingTg.None? && r.nonce.None?)
    && (r.pendingTg.Some? ==> r.openedTg == r.pendingTg && r.pendingTg.value in owner && owner[r.pendingTg.value] == LoginFlow(i))
    && (r.nonce.Some? ==> r.pendingTg.Some?)
    && (r.contactPhone.Some? ==> r.nonce.Some?)
    && (r.status == Approved || r.status == Consumed <==> r.profile.Some?)
    && (r.profile.Some? ==> r.approvedTg.Some? && r.openedTg == r.approvedTg)
  }

  ghost predicate LoginFits(s: State, i: Id)
    requires i in s.logins
  {
    i < s.next && RowFits(s.logins[i], i, s.owner)
  }

  ghost predicate ResetFits(s: State, i: Id)
    requires i in s.resets
  {
    i < s.next && ResetRowFits(s.resets[i], i, s.owner)
  }

  ghost predicate Inv(s: State) {
    && (forall i :: i in s.logins ==> LoginFits(s, i))
    && (forall i :: i in s.resets ==> ResetFits(s, i))
  }

  lemma StepKeepsLogin(s: State, act: Act, i: Id)
    requires Inv(s) && i in Step(s, act).logins
    ensures LoginFits(Step(s, act), i)
  {
    if i in s.logins {
      assert LoginFits(s, i);
      LoginIsMoved(s, act, i);
      OwnerChanges(s, act);
      MoveKeepsRow(s, act, i);
    } else {
      LoginIsNew(s, act, i);
    }
  }

  /** The owner entry of a Telegram user changes only when a flow is armed for them. */
  function NewOwner(s: State, act: Act): map<Tg, Flow> {
    if act.BeginLogin? && MayOpen(s, act.id, act.tg)
       && (VerifiedProfile(s, act.tg).None? || IsActive(s, VerifiedProfile(s, act.tg).value))
    then s.owner[act.tg := LoginFlow(act.id)]
    else if act.BeginReset? && MayBeginReset(s, act.id) then s.owner[act.tg := ResetFlow(act.id)]
    else s.owner
  }

  lemma OwnerChanges(s: State, act: Act)
    ensures Step(s, act).next >= s.next
    ensures Step(s, act).owner == NewOwner(s, act)
  {
    if act.LoginTap? { TapKeepsOwner(s, act); }
  }

  lemma TapKeepsOwner(s: State, act: Act)
    requires act.LoginTap?
    ensures Step(s, act).owner == s.owner && Step(s, act).next >= s.next
  {
    TapCases(s, act);
  }

  lemma BeginKeepsRow(s: State, act: Act, i: Id)
    requires i in s.logins && RowFits(s.logins[i], i, s.owner) && act.BeginLogin?
    ensures RowFits(MoveLogin(s.logins[i], LoginMoveOf(s, act, i)), i, NewOwner(s, act))
  {}

  lemma TapKeepsRow(s: State, act: Act, i: Id)
    requires i in s.logins && RowFits(s.logins[i], i, s.owner) && act.LoginTap?
    ensures RowFits(MoveLogin(s.logins[i], LoginMoveOf(s, act, i)), i, NewOwner(s, act))
  {}

  lemma ContactKeepsRow(s: State, act: Act, i: Id)
    requires i in s.logins && RowFits(s.logins[i], i, s.owner) && act.LoginContact?
    ensures RowFits(MoveLogin(s.logins[i], LoginMoveOf(s, act, i)), i, NewOwner(s, act))
  {}

  lemma MoveKeepsRow(s: State, act: Act, i: Id)
    requires i in s.logins && RowFits(s.logins[i], i, s.owner)
    ensures RowFits(MoveLogin(s.logins[i], LoginMoveOf(s, act, i)), i, NewOwner(s, act))
  {
    if act.BeginLogin? { BeginKeepsRow(s, act, i); }
    else if act.LoginTap? { TapKeepsRow(s, act, i); }
    else if act.LoginContact? { ContactKeepsRow(s, act, i); }
  }

  lemma StepKeepsReset(s: State, act: Act, i: Id)
    requires Inv(s) && i in Step(s, act).resets
    ensures ResetFits(Step(s, act), i)
  {
    if i in s.resets {
      assert ResetFits(s, i);
      ResetIsMoved(s, act, i);
      OwnerChanges(s, act);
      MoveKeepsReset(s, act, i);
    } else {
      ResetIsNew(s, act, i);
    }
  }

  ghost predicate ResetRowFits(r: Reset, i: Id, owner: map<Tg, Flow>) {
    && (r.verified || r.used ==> r.pendingTg.None? && r.nonce.None?)
    && (r.pendingTg.Some? ==> r.pendingTg.value in owner && owner[r.pendingTg.value] == ResetFlow(i))
    && (r.nonce.Some? ==> r.pendingTg.Some?)
  }

  lemma MoveKeepsReset(s: State, act: Act, i: Id)
    requires i in s.resets && ResetRowFits(s.resets[i], i, s.owner)
    ensures ResetRowFits(MoveReset(s.resets[i], ResetMoveOf(s, act, i)), i, NewOwner(s, act))
  {}

  lemma StepKeepsInv(s: State, act: Act)
    requires Inv(s)
    ensures Inv(Step(s, act))
  {
    forall i | i in Step(s, act).logins ensures LoginFits(Step(s, act), i) { StepKeepsLogin(s, act, i); }
    forall i | i in Step(s, act).resets ensures ResetFits(Step(s, act), i) { StepKeepsReset(s, act, i); }
  }

  lemma {:induction false} RunKeepsInv(acts: seq<Act>)
    ensures Inv(Run(EMPTY, acts))
  {
    if acts != [] {
      RunKeepsInv(acts[..|acts|-1]);
      StepKeepsInv(Run(EMPTY, acts[..|acts|-1]), acts[|acts|-1]);
    }
  }
}
