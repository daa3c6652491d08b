/**
 What each transaction of the two Telegram flows decides, with its guard and its effect on its own row written out,
 and where requests and verified links come from.
 */
module TelegramLaws {
  import opened Options
  import opened TelegramChat
  import opened TelegramRows
  import opened TelegramRuns

  // ---------------------------------------------------------------- starting

  lemma StartLoginDecides(s: State, secret: Secret)
    ensures var r := Step(s, StartLogin(secret));
            && s.next in r.logins && r.logins[s.next] == Login(secret, s.now + 5 * 60, Pending, None, None, None, None, None, None)
            && r.next == s.next + 1 && r.resets == s.resets && r.links == s.links && r.people == s.people
            && forall i :: i in s.logins && i != s.next ==> i in r.logins && r.logins[i] == s.logins[i]
  {}

  /** A reset is started for an active account only, and replaces its older unused ones. */
  lemma StartResetDecides(s: State, p: Profile)
    ensures var r, active := Step(s, StartReset(p)), p in s.people && s.people[p].active;
            if !active then r == s
            else
              && s.next in r.resets && r.resets[s.next] == Reset(p, s.now + 15 * 60, false, false, None, None, None)
              && (forall i :: i in r.resets && i != s.next ==> i in s.resets && r.resets[i] == s.resets[i] && !(s.resets[i].profile == p && !s.resets[i].used))
              && (forall i :: i in s.resets && (s.resets[i].profile != p || s.resets[i].used) ==> i in r.resets)
              && r.logins == s.logins && r.links == s.links
  {}

  // ---------------------------------------------------------------- the login, step by step

  ghost predicate LiveLogin(s: State, id: Id) { id in s.logins && s.logins[id].status == Pending && s.now < s.logins[id].expiresAt }

  /** The learner tg is phone-verified-linked to. */
  ghost predicate LinkedLearner(s: State, tg: Tg, p: Profile) {
    tg in s.links && s.links[tg] == Link(p, true) && p in s.people && s.people[p].learner
  }

  lemma VerifiedProfileIs(s: State, tg: Tg, p: Profile)
    ensures VerifiedProfile(s, tg) == Some(p) <==> LinkedLearner(s, tg, p)
  {}

  /** Opening the link arms it for its first opener alone: with the question at once for a linked learner, else waiting for a number. */
  lemma BeginLoginDecides(s: State, id: Id, tg: Tg)
    ensures var open := LiveLogin(s, id) && (s.logins[id].openedTg == None || s.logins[id].openedTg == Some(tg));
            var r := Step(s, BeginLogin(id, tg));
            if !open then r == s
            else
              && id in r.logins && r.links == s.links && r.people == s.people
              && (if exists p :: LinkedLearner(s, tg, p) && !s.people[p].active then
                    r.logins[id] == s.logins[id].(status := Blocked, pendingTg := None, nonce := None, contactPhone := None)
                  else
                    r.logins[id] == s.logins[id].(pendingTg := Some(tg), openedTg := Some(tg), contactPhone := None,
                                                  nonce := if exists p :: LinkedLearner(s, tg, p) then Some(s.next) else None))
  {
    if tg in s.links { VerifiedProfileIs(s, tg, s.links[tg].profile); }
  }

  /** A shared number counts only as the user's own, while the request waits for one; then it is stored and the question asked. */
  lemma LoginContactDecides(s: State, id: Id, tg: Tg, contactUser: Tg, phone: Option<Phone>, holder: Option<Profile>)
    requires phone.Some? ==> if holder.Some? then holder.value in s.people && s.people[holder.value].phone == phone.value
                             else forall p :: p in s.people ==> s.people[p].phone != phone.value
    ensures var waits := LiveLogin(s, id) && s.logins[id].pendingTg == Some(tg) && s.logins[id].nonce == None && contactUser == tg && phone.Some?;
            var r := Step(s, LoginContact(id, tg, contactUser, phone, holder));
            if !waits || (holder.Some? && !s.people[holder.value].learner) then r == s
            else if holder.Some? && !s.people[holder.value].active then
              r == s.(logins := s.logins[id := s.logins[id].(status := Blocked, pendingTg := None, nonce := None, contactPhone := None)])
            else
              r == s.(logins := s.logins[id := s.logins[id].(nonce := Some(s.next), contactPhone := phone)], next := s.next + 1)
  {}

  /** A tap that is not by the user being asked, with the nonce shown last, in time, changes nothing. */
  lemma StaleTapIsIgnored(s: State, act: Act)
    requires act.LoginTap?
    requires !(LiveLogin(s, act.id) && s.logins[act.id].nonce == Some(act.nonce) && s.logins[act.id].pendingTg == Some(act.tg))
    ensures Step(s, act) == s
  {}

  ghost predicate FreshTap(s: State, act: Act) {
    act.LoginTap? && LiveLogin(s, act.id) && s.logins[act.id].nonce == Some(act.nonce) && s.logins[act.id].pendingTg == Some(act.tg)
  }

  lemma NoCancels(s: State, act: Act)
    requires FreshTap(s, act) && !act.accept
    ensures Step(s, act) == s.(logins := s.logins[act.id := s.logins[act.id].(status := Cancelled, pendingTg := None, nonce := None, contactPhone := None)])
  {}

  /** Yes approves exactly for whom the user has proved to be, if that is an active learner. */
  lemma YesApproves(s: State, act: Act, p: Profile)
    requires FreshTap(s, act) && act.accept && s.next !in s.people
    requires EntitledTo(s, s.logins[act.id].contactPhone, act.tg, p)
    requires s.logins[act.id].contactPhone.Some? ==> act.holder == if p in s.people then Some(p) else None
    ensures var r := Step(s, act);
            && act.id in r.logins && r.logins[act.id].status == Approved
            && r.logins[act.id].profile == Some(p) && r.logins[act.id].approvedTg == Some(act.tg)
            && p in r.people && r.people[p].learner && r.people[p].active
            && (s.logins[act.id].contactPhone.Some? ==> r.people[p].phone == s.logins[act.id].contactPhone.value)
            && (s.logins[act.id].contactPhone.Some? && act.linkOk ==> act.tg in r.links && r.links[act.tg] == Link(p, true))
  {
    TapCases(s, act);
    if s.logins[act.id].contactPhone.None? { VerifiedProfileIs(s, act.tg, p); }
  }

  /** A session is given exactly to the browser with the secret, for an approved request at most two minutes past its end, for an active learner. */
  lemma CompleteDecides(s: State, id: Id, secret: Secret)
    ensures var ok := && id in s.logins && s.logins[id].secret == secret && s.logins[id].status == Approved
                      && s.now < s.logins[id].expiresAt + 2 * 60
                      && s.logins[id].profile.Some? && s.logins[id].profile.value in s.people
                      && s.people[s.logins[id].profile.value].learner && s.people[s.logins[id].profile.value].active;
            && (Completes(s, id, secret) <==> ok)
            && Step(s, CompleteLogin(id, secret)) == if ok then s.(logins := s.logins[id := s.logins[id].(status := Consumed)]) else s
  {}

  // ---------------------------------------------------------------- the reset, step by step

  ghost predicate OpenReset(s: State, id: Id) {
    && id in s.resets && !s.resets[id].used && s.now <= s.resets[id].expiresAt
    && s.resets[id].profile in s.people && s.people[s.resets[id].profile].active
  }

  lemma BeginResetDecides(s: State, id: Id, tg: Tg)
    ensures var r := Step(s, BeginReset(id, tg));
            if !OpenReset(s, id) || s.resets[id].verified then r == s
            else
              && id in r.resets && r.links == s.links && r.people == s.people
              && r.resets[id] == s.resets[id].(pendingTg := Some(tg),
                                               nonce := if tg in s.links && s.links[tg] == Link(s.resets[id].profile, true) then Some(s.next) else None)
  {}

  lemma ResetContactDecides(s: State, id: Id, tg: Tg, contactUser: Tg, phone: Option<Phone>)
    ensures var proves := && OpenReset(s, id) && !s.resets[id].verified && s.resets[id].pendingTg == Some(tg) && contactUser == tg
                          && phone == Some(s.people[s.resets[id].profile].phone);
            Step(s, ResetContact(id, tg, contactUser, phone)) ==
              if proves then s.(resets := s.resets[id := s.resets[id].(nonce := Some(s.next))], next := s.next + 1) else s
  {}

  lemma ResetTapDecides(s: State, id: Id, tg: Tg, nonce: Nonce, accept: bool)
    ensures var current := OpenReset(s, id) && !s.resets[id].verified && s.resets[id].pendingTg == Some(tg) && s.resets[id].nonce == Some(nonce);
            var r := Step(s, ResetTap(id, tg, nonce, accept));
            if !current then r == s
            else if !accept then r == s.(resets := s.resets[id := s.resets[id].(used := true, pendingTg := None, nonce := None)])
            else
              && id in r.resets && r.resets[id] == s.resets[id].(verified := true, verifiedTg := Some(tg), pendingTg := None, nonce := None)
              && tg in r.links && r.links[tg] == Link(s.resets[id].profile, true)
              && (forall t :: t in r.links && t != tg ==> t in s.links && r.links[t] == s.links[t])
              && r.logins == s.logins && r.people == s.people
  {}

  /** A password is replaced exactly for a verified, unused reset in time; only the confirmer's verified link survives it. */
  lemma CompleteResetDecides(s: State, id: Id)
    ensures var ok := OpenReset(s, id) && s.resets[id].verified;
            var r := Step(s, CompleteReset(id));
            && (ResetCompletes(s, id) <==> ok)
            && (!ok ==> r == s)
            && (ok ==>
                  && id in r.resets && r.resets[id].used && r.resets[id].pendingTg == None
                  && (forall t :: t in r.links && r.links[t].profile == s.resets[id].profile ==>
                        r.links[t].verified && s.resets[id].verifiedTg == Some(t))
                  && (forall t :: t in s.links && (s.links[t].profile != s.resets[id].profile || (s.links[t].verified && s.resets[id].verifiedTg == Some(t)))
                        ==> t in r.links && r.links[t] == s.links[t]))
  {}

  // ---------------------------------------------------------------- accounts and the clock

  /** An account is what it was last set to, and time passes by what it is told. */
  lemma AccountChanges(s: State, p: Profile, person: Person, d: nat)
    ensures var r := Step(s, SetPerson(p, person)); r.people == s.people[p := person] && r.logins == s.logins && r.resets == s.resets && r.links == s.links
    ensures Step(s, Tick(d)).now == s.now + d
  {}

  // ---------------------------------------------------------------- links

  lemma LinkSteps(s: State, tg: Tg, p: Profile)
    ensures var r := Step(s, MiniAppLink(tg, p));
            tg in r.links && r.links[tg] == Link(p, true) && forall t :: t in r.links && t != tg ==> t in s.links && r.links[t] == s.links[t] && s.links[t].profile != p
    ensures var r := Step(s, LegacyLink(tg, p)); tg !in s.links ==> tg in r.links && r.links[tg] == Link(p, false)
    ensures tg in s.links ==> Step(s, LegacyLink(tg, p)) == s
    ensures forall t :: t in Step(s, Unlink(p)).links <==> t in s.links && s.links[t].profile != p
  {}

  /** The step that verified tg's link to p: the Mini App, an approving tap for a number tg shared, or a confirmed reset. */
  ghost predicate VerifiesLink(s: State, act: Act, tg: Tg, p: Profile) {
    || act == MiniAppLink(tg, p)
    || (&& act.LoginTap? && act.tg == tg && Consents(s, act, act.id)
        && s.logins[act.id].contactPhone.Some? && EntitledTo(s, s.logins[act.id].contactPhone, tg, p))
    || (act.ResetTap? && Confirms(s, act, act.id, tg) && s.resets[act.id].profile == p)
  }

  lemma TapLink(s: State, act: Act, tg: Tg, p: Profile)
    requires Inv(s) && act.LoginTap? && tg in Step(s, act).links && Step(s, act).links[tg] == Link(p, true)
    ensures (tg in s.links && s.links[tg] == Link(p, true)) || VerifiesLink(s, act, tg, p)
  {
    TapCases(s, act);
    if act.id in s.logins { assert LoginFits(s, act.id); }
  }

  lemma OtherLink(s: State, act: Act, tg: Tg, p: Profile)
    requires !act.LoginTap? && tg in Step(s, act).links && Step(s, act).links[tg] == Link(p, true)
    ensures (tg in s.links && s.links[tg] == Link(p, true)) || VerifiesLink(s, act, tg, p)
  {
    if act.ResetTap? { ResetTapDecides(s, act.id, act.tg, act.nonce, act.accept); }
    if act.CompleteReset? { CompleteResetDecides(s, act.id); }
  }

  /** In every run, every phone-verified link goes back to a step in which its Telegram user proved the account's phone. */
  lemma {:induction false} VerifiedLinkTrail(acts: seq<Act>, tg: Tg, p: Profile) returns (j: nat)
    requires tg in Run(EMPTY, acts).links && Run(EMPTY, acts).links[tg] == Link(p, true)
    ensures j < |acts| && VerifiesLink(Run(EMPTY, acts[..j]), acts[j], tg, p)
  {
    var before, act := acts[..|acts|-1], acts[|acts|-1];
    var s := Run(EMPTY, before);
    RunKeepsInv(before);
    if act.LoginTap? { TapLink(s, act, tg, p); } else { OtherLink(s, act, tg, p); }
    if tg in s.links && s.links[tg] == Link(p, true) {
      j := VerifiedLinkTrail(before, tg, p);
      assert before[..j] == acts[..j];
    } else {
      j := |before|;
    }
  }

  // ---------------------------------------------------------------- how old a request can be

  ghost predicate LoginStarted(acts: seq<Act>, j: nat, i: Id, r: Login) {
    j < |acts| && acts[j] == StartLogin(r.secret) && Run(EMPTY, acts[..j]).next == i && r.expiresAt == Run(EMPTY, acts[..j]).now + 5 * 60
  }

  lemma LoginKeepsOrigin(s: State, act: Act, i: Id)
    requires Inv(s) && i in s.logins && i in Step(s, act).logins
    ensures Step(s, act).logins[i].secret == s.logins[i].secret && Step(s, act).logins[i].expiresAt == s.logins[i].expiresAt
  {
    assert LoginFits(s, i);
    LoginIsMoved(s, act, i);
    MovedLoginKeepsOrigin(s.logins[i], LoginMoveOf(s, act, i));
  }

  lemma MovedLoginKeepsOrigin(r: Login, move: LoginMove)
    ensures MoveLogin(r, move).secret == r.secret && MoveLogin(r, move).expiresAt == r.expiresAt
  {}

  lemma {:induction false} LoginWasStarted(acts: seq<Act>, i: Id) returns (j: nat)
    requires i in Run(EMPTY, acts).logins
    ensures LoginStarted(acts, j, i, Run(EMPTY, acts).logins[i])
  {
    var before, act := acts[..|acts|-1], acts[|acts|-1];
    var s := Run(EMPTY, before);
    RunKeepsInv(before);
    if i in s.logins {
      LoginKeepsOrigin(s, act, i);
      j := LoginWasStarted(before, i);
      assert before[..j] == acts[..j];
    } else {
      LoginIsNew(s, act, i);
      j := |before|;
    }
  }

  /** A session comes at most seven minutes after its browser started the request, with that browser's secret. */
  lemma SessionIsPrompt(acts: seq<Act>, i: Id, secret: Secret) returns (j: nat)
    requires Completes(Run(EMPTY, acts), i, secret)
    ensures j < |acts| && acts[j] == StartLogin(secret) && Run(EMPTY, acts).now < Run(EMPTY, acts[..j]).now + 7 * 60
  {
    CompleteDecides(Run(EMPTY, acts), i, secret);
    j := LoginWasStarted(acts, i);
  }

  lemma TapKeepsRow(s: State, act: Act, i: Id)
    requires i in s.logins && act.LoginTap?
    ensures i in Step(s, act).logins
  {
    TapCases(s, act);
  }

  /** A sign-in request is forgotten by the sweep alone, more than a day past its expiry, and then it is. */
  lemma SweepDecides(s: State, act: Act, i: Id)
    requires i in s.logins
    ensures i !in Step(s, act).logins <==> act == SweepLogin(i) && s.logins[i].expiresAt + 24 * 3600 < s.now
  {
    if act.LoginTap? {
      TapKeepsRow(s, act, i);
    } else if SparesLogins(act) {
      LoginsSpared(s, act);
    }
  }

  /** Neither time nor the supply of ids goes back. */
  lemma OnlyForward(s: State, act: Act)
    ensures Step(s, act).now >= s.now && Step(s, act).next >= s.next
  {
    if act.LoginTap? { TapForward(s, act); } else if act.ResetTap? || act.CompleteReset? || act.BeginReset? { ResetForward(s, act); }
  }

  lemma TapForward(s: State, act: Act)
    requires act.LoginTap?
    ensures Step(s, act).now == s.now && Step(s, act).next >= s.next
  {
    TapCases(s, act);
  }

  lemma ResetForward(s: State, act: Act)
    requires act.ResetTap? || act.CompleteReset? || act.BeginReset?
    ensures Step(s, act).now == s.now && Step(s, act).next >= s.next
  {}

  /** Row i is there, or it is more than a day past this expiry. */
  ghost predicate KeptSince(s: State, i: Id, expiresAt: int) {
    if i in s.logins then s.logins[i].expiresAt == expiresAt else expiresAt + 24 * 3600 < s.now
  }

  lemma KeptStep(s: State, act: Act, i: Id, expiresAt: int)
    requires Inv(s) && i < s.next && KeptSince(s, i, expiresAt)
    ensures KeptSince(Step(s, act), i, expiresAt) && i < Step(s, act).next
  {
    OnlyForward(s, act);
    if i in Step(s, act).logins {
      if i in s.logins { LoginKeepsOrigin(s, act, i); } else { LoginIsNew(s, act, i); }
    } else if i in s.logins {
      SweepDecides(s, act, i);
    }
  }

  /** In every run, a sign-in request is there until more than a day past its expiry. */
  lemma {:induction false} KeptForADay(acts: seq<Act>, k: nat, i: Id)
    requires k <= |acts| && i in Run(EMPTY, acts[..k]).logins
    ensures KeptSince(Run(EMPTY, acts), i, Run(EMPTY, acts[..k]).logins[i].expiresAt) && i < Run(EMPTY, acts).next
    decreases |acts|
  {
    if k == |acts| {
      assert acts[..k] == acts;
      RunKeepsInv(acts);
      assert LoginFits(Run(EMPTY, acts), i);
    } else {
      assert acts[..|acts|-1][..k] == acts[..k];
      KeptForADay(acts[..|acts|-1], k, i);
      RunKeepsInv(acts[..|acts|-1]);
      KeptStep(Run(EMPTY, acts[..|acts|-1]), acts[|acts|-1], i, Run(EMPTY, acts[..k]).logins[i].expiresAt);
    }
  }

  ghost predicate ResetStarted(acts: seq<Act>, j: nat, i: Id, r: Reset) {
    && j < |acts| && acts[j] == StartReset(r.profile) && Run(EMPTY, acts[..j]).next == i
    && r.expiresAt == Run(EMPTY, acts[..j]).now + 15 * 60
  }

  lemma ResetKeepsOrigin(s: State, act: Act, i: Id)
    requires Inv(s) && i in s.resets && i in Step(s, act).resets
    ensures Step(s, act).resets[i].profile == s.resets[i].profile && Step(s, act).resets[i].expiresAt == s.resets[i].expiresAt
  {
    assert ResetFits(s, i);
    ResetIsMoved(s, act, i);
    MovedResetKeepsOrigin(s.resets[i], ResetMoveOf(s, act, i));
  }

  lemma MovedResetKeepsOrigin(r: Reset, move: ResetMove)
    ensures MoveReset(r, move).profile == r.profile && MoveReset(r, move).expiresAt == r.expiresAt
  {}

  lemma {:induction false} ResetWasStarted(acts: seq<Act>, i: Id) returns (j: nat)
    requires i in Run(EMPTY, acts).resets
    ensures ResetStarted(acts, j, i, Run(EMPTY, acts).resets[i])
  {
    var before, act := acts[..|acts|-1], acts[|acts|-1];
    var s := Run(EMPTY, before);
    RunKeepsInv(before);
    if i in s.resets {
      ResetKeepsOrigin(s, act, i);
      j := ResetWasStarted(before, i);
      assert before[..j] == acts[..j];
    } else {
      ResetIsNew(s, act, i);
      j := |before|;
    }
  }

  /** A password is replaced at most fifteen minutes after the reset of that very account was started. */
  lemma ResetIsPrompt(acts: seq<Act>, i: Id) returns (j: nat)
    requires ResetCompletes(Run(EMPTY, acts), i)
    ensures i in Run(EMPTY, acts).resets && j < |acts| && acts[j] == StartReset(Run(EMPTY, acts).resets[i].profile)
    ensures Run(EMPTY, acts).now <= Run(EMPTY, acts[..j]).now + 15 * 60
  {
    CompleteResetDecides(Run(EMPTY, acts), i);
    j := ResetWasStarted(acts, i);
  }
}
