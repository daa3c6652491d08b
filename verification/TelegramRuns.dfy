/**
 Safety of the Telegram login and the bot password reset over whole runs: for every sequence of
 transactions, what must have happened before a browser gets a session or a password is replaced.
 */
module TelegramRuns {
  import opened Options
  import opened TelegramChat
  import opened TelegramRows

  // ---------------------------------------------------------------- one waiting flow per Telegram user

  /** The flow is waiting for tg's next phone share or tap. */
  ghost predicate Waits(s: State, f: Flow, tg: Tg) {
    match f
    case LoginFlow(i) => i in s.logins && s.logins[i].status == Pending && s.logins[i].pendingTg == Some(tg)
    case ResetFlow(i) => i in s.resets && !s.resets[i].used && !s.resets[i].verified && s.resets[i].pendingTg == Some(tg)
  }

  lemma WaitingIsOwner(s: State, f: Flow, tg: Tg)
    requires Inv(s) && Waits(s, f, tg)
    ensures tg in s.owner && s.owner[tg] == f
  {
    match f
    case LoginFlow(i) => assert LoginFits(s, i);
    case ResetFlow(i) => assert ResetFits(s, i);
  }

  /** In every reachable state at most one login or reset waits for any Telegram user. */
  lemma OneWaitingFlow(acts: seq<Act>, tg: Tg, f: Flow, g: Flow)
    requires Waits(Run(EMPTY, acts), f, tg) && Waits(Run(EMPTY, acts), g, tg)
    ensures f == g
  {
    RunKeepsInv(acts);
    WaitingIsOwner(Run(EMPTY, acts), f, tg);
    WaitingIsOwner(Run(EMPTY, acts), g, tg);
  }

  /**
   A reply meant for one flow never reaches another: with a reset waiting for tg, tg's contacts and taps
   leave every login as it is, and vice versa.
   */
  lemma RepliesGoToTheWaitingFlow(acts: seq<Act>, tg: Tg, f: Flow, act: Act)
    requires Waits(Run(EMPTY, acts), f, tg)
    requires act.LoginContact? || act.LoginTap? || act.ResetContact? || act.ResetTap?
    requires act.tg == tg && act.id != f.id
    ensures Step(Run(EMPTY, acts), act) == Run(EMPTY, acts)
  {
    var s := Run(EMPTY, acts);
    if act.LoginContact? || act.LoginTap? {
      if Waits(s, LoginFlow(act.id), tg) { OneWaitingFlow(acts, tg, f, LoginFlow(act.id)); }
    } else {
      RunKeepsInv(acts);
      if act.id in s.resets { assert ResetFits(s, act.id); }
      if Waits(s, ResetFlow(act.id), tg) { OneWaitingFlow(acts, tg, f, ResetFlow(act.id)); }
    }
  }

  /** A shared contact alone never approves or completes a login and never verifies a reset. */
  lemma ContactNeverDecides(acts: seq<Act>, act: Act, i: Id)
    requires act.LoginContact? || act.ResetContact?
    ensures var s := Run(EMPTY, acts);
            var r := Step(s, act);
            && (i in r.logins ==> i in s.logins && (r.logins[i].status == Approved || r.logins[i].status == Consumed ==> r.logins[i] == s.logins[i]))
            && (i in r.resets ==> i in s.resets && r.resets[i].verified == s.resets[i].verified && r.resets[i].used == s.resets[i].used)
  {
    if act.LoginContact? { LoginContactDecidesNothing(Run(EMPTY, acts), act, i); } else { ResetContactDecidesNothing(Run(EMPTY, acts), act, i); }
  }

  lemma LoginContactDecidesNothing(s: State, act: Act, i: Id)
    requires act.LoginContact?
    ensures Step(s, act).resets == s.resets
    ensures var r := Step(s, act).logins;
            i in r ==> i in s.logins && (r[i].status == Approved || r[i].status == Consumed ==> r[i] == s.logins[i])
  {}

  lemma ResetContactDecidesNothing(s: State, act: Act, i: Id)
    requires act.ResetContact?
    ensures Step(s, act).logins == s.logins
    ensures var r := Step(s, act).resets;
            i in r ==> i in s.resets && r[i].verified == s.resets[i].verified && r[i].used == s.resets[i].used
  {}

  // ---------------------------------------------------------------- consent

  ghost predicate Granted(s: State, i: Id) {
    i in s.logins && (s.logins[i].status == Approved || s.logins[i].status == Consumed)
  }

  /** The tap that approves: by the first opener, with the nonce asked last, while the request is pending and in time. */
  ghost predicate Consents(s: State, act: Act, i: Id) {
    && act.LoginTap? && act.id == i && act.accept && i in s.logins
    && var r := s.logins[i];
       && r.status == Pending && s.now < r.expiresAt
       && r.nonce == Some(act.nonce) && r.pendingTg == Some(act.tg) && r.openedTg == Some(act.tg)
  }

  /**
   p is the active learner tg has proved to be: linked to them with the phone verified, or, if tg has shared a
   number for this request, its owner, or a person to be made for a number that is nobody's.
   */
  ghost predicate EntitledTo(s: State, phone: Option<Phone>, tg: Tg, p: Profile) {
    if phone.None? then
      tg in s.links && s.links[tg] == Link(p, true) && p in s.people && s.people[p].learner && s.people[p].active
    else if p in s.people then
      s.people[p].phone == phone.value && s.people[p].learner && s.people[p].active
    else
      p == s.next && forall q :: q in s.people ==> s.people[q].phone != phone.value
  }

  /** The profile granted is the one the tap was entitled to. */
  ghost predicate GrantedBy(s: State, act: Act, r: Login) {
    && act.LoginTap? && act.id in s.logins
    && r.approvedTg == Some(act.tg) && r.profile.Some?
    && EntitledTo(s, s.logins[act.id].contactPhone, act.tg, r.profile.value)
  }

  lemma GrantStays(s: State, act: Act, i: Id)
    requires Inv(s) && Granted(s, i) && i in Step(s, act).logins
    ensures Step(s, act).logins[i].approvedTg == s.logins[i].approvedTg
    ensures Step(s, act).logins[i].profile == s.logins[i].profile
  {
    assert LoginFits(s, i);
    LoginIsMoved(s, act, i);
  }

  lemma GrantNeedsConsent(s: State, act: Act, i: Id)
    requires Inv(s) && !Granted(s, i) && Granted(Step(s, act), i)
    ensures Consents(s, act, i) && GrantedBy(s, act, Step(s, act).logins[i])
  {
    if i !in s.logins {
      LoginIsNew(s, act, i);
    } else {
      assert LoginFits(s, i);
      LoginIsMoved(s, act, i);
      MoveGrants(s, act, i);
    }
  }

  /** Of the moves only a granting tap approves, and only an approved request is spent. */
  lemma MoveGrants(s: State, act: Act, i: Id)
    requires i in s.logins && RowFits(s.logins[i], i, s.owner) && !Granted(s, i)
    requires var r := MoveLogin(s.logins[i], LoginMoveOf(s, act, i)); r.status == Approved || r.status == Consumed
    ensures Consents(s, act, i) && GrantedBy(s, act, MoveLogin(s.logins[i], LoginMoveOf(s, act, i)))
  {}

  lemma {:induction false} ApprovalNeedsTap(acts: seq<Act>, i: Id) returns (j: nat)
    requires Granted(Run(EMPTY, acts), i)
    ensures j < |acts| && Consents(Run(EMPTY, acts[..j]), acts[j], i)
    ensures GrantedBy(Run(EMPTY, acts[..j]), acts[j], Run(EMPTY, acts).logins[i])
  {
    var before, act := acts[..|acts|-1], acts[|acts|-1];
    var s := Run(EMPTY, before);
    RunKeepsInv(before);
    if Granted(s, i) {
      j := ApprovalNeedsTap(before, i);
      GrantStays(s, act, i);
      assert before[..j] == acts[..j];
    } else {
      GrantNeedsConsent(s, act, i);
      j := |before|;
    }
  }

  // ---------------------------------------------------------------- the first opener

  ghost predicate OpensFirst(s: State, act: Act, i: Id, tg: Tg) {
    act == BeginLogin(i, tg) && i in s.logins && s.logins[i].status == Pending && s.now < s.logins[i].expiresAt && s.logins[i].openedTg.None?
  }

  lemma MoveSetsOpener(s: State, act: Act, i: Id, tg: Tg)
    requires i in s.logins && MoveLogin(s.logins[i], LoginMoveOf(s, act, i)).openedTg == Some(tg)
    ensures s.logins[i].openedTg == Some(tg) || OpensFirst(s, act, i, tg)
  {
    if LoginMoveOf(s, act, i).Armed? { assert act.BeginLogin? && act.id == i; }
  }

  lemma OpenerSet(s: State, act: Act, i: Id, tg: Tg)
    requires Inv(s) && i in Step(s, act).logins && Step(s, act).logins[i].openedTg == Some(tg)
    ensures i in s.logins && (s.logins[i].openedTg == Some(tg) || OpensFirst(s, act, i, tg))
  {
    if i in s.logins {
      assert LoginFits(s, i);
      LoginIsMoved(s, act, i);
      MoveSetsOpener(s, act, i, tg);
    } else {
      LoginIsNew(s, act, i);
    }
  }

  lemma {:induction false} OpenerOpenedFirst(acts: seq<Act>, i: Id, tg: Tg) returns (j: nat)
    requires i in Run(EMPTY, acts).logins && Run(EMPTY, acts).logins[i].openedTg == Some(tg)
    ensures j < |acts| && OpensFirst(Run(EMPTY, acts[..j]), acts[j], i, tg)
  {
    var before, act := acts[..|acts|-1], acts[|acts|-1];
    RunKeepsInv(before);
    OpenerSet(Run(EMPTY, before), act, i, tg);
    if OpensFirst(Run(EMPTY, before), act, i, tg) {
      j := |before|;
    } else {
      j := OpenerOpenedFirst(before, i, tg);
      assert before[..j] == acts[..j];
    }
  }

  // ---------------------------------------------------------------- whose number

  ghost predicate Shares(s: State, act: Act, i: Id, tg: Tg, phone: Phone) {
    && act.LoginContact? && act.id == i && act.tg == tg && act.contactUser == tg && act.phone == Some(phone)
    && i in s.logins && s.logins[i].status == Pending && s.now < s.logins[i].expiresAt
    && s.logins[i].pendingTg == Some(tg) && s.logins[i].nonce.None?
  }

  lemma MoveSetsPhone(s: State, act: Act, i: Id, phone: Phone)
    requires i in s.logins && LoginFits(s, i) && MoveLogin(s.logins[i], LoginMoveOf(s, act, i)).contactPhone == Some(phone)
    ensures MoveLogin(s.logins[i], LoginMoveOf(s, act, i)).pendingTg == s.logins[i].pendingTg && s.logins[i].pendingTg.Some?
    ensures s.logins[i].contactPhone == Some(phone) || Shares(s, act, i, s.logins[i].pendingTg.value, phone)
  {
    if LoginMoveOf(s, act, i).Asked? { assert act.LoginContact? && act.id == i; }
  }

  lemma PhoneSet(s: State, act: Act, i: Id, phone: Phone)
    requires Inv(s) && i in Step(s, act).logins && Step(s, act).logins[i].contactPhone == Some(phone)
    ensures i in s.logins && Step(s, act).logins[i].pendingTg == s.logins[i].pendingTg && s.logins[i].pendingTg.Some?
    ensures s.logins[i].contactPhone == Some(phone) || Shares(s, act, i, s.logins[i].pendingTg.value, phone)
  {
    if i in s.logins {
      assert LoginFits(s, i);
      LoginIsMoved(s, act, i);
      MoveSetsPhone(s, act, i, phone);
    } else {
      LoginIsNew(s, act, i);
    }
  }

  /** A number waiting on a request was shared, as their own, by the very user it is pending for. */
  lemma {:induction false} NumberWasShared(acts: seq<Act>, i: Id, phone: Phone) returns (j: nat)
    requires i in Run(EMPTY, acts).logins && Run(EMPTY, acts).logins[i].contactPhone == Some(phone)
    ensures Run(EMPTY, acts).logins[i].pendingTg.Some?
    ensures j < |acts| && Shares(Run(EMPTY, acts[..j]), acts[j], i, Run(EMPTY, acts).logins[i].pendingTg.value, phone)
  {
    var before, act := acts[..|acts|-1], acts[|acts|-1];
    RunKeepsInv(before);
    PhoneSet(Run(EMPTY, before), act, i, phone);
    if Run(EMPTY, before).logins[i].contactPhone == Some(phone) {
      j := NumberWasShared(before, i, phone);
      assert before[..j] == acts[..j];
    } else {
      j := |before|;
    }
  }

  // ---------------------------------------------------------------- at most one session

  function Sessions(acts: seq<Act>, i: Id): nat {
    if acts == [] then 0
    else
      var before, act := acts[..|acts|-1], acts[|acts|-1];
      Sessions(before, i) + if act.CompleteLogin? && act.id == i && Completes(Run(EMPTY, before), i, act.secret) then 1 else 0
  }

  ghost predicate SpentForGood(s: State, i: Id) { i < s.next && (i in s.logins ==> s.logins[i].status == Consumed) }

  lemma SpentStays(s: State, act: Act, i: Id)
    requires Inv(s) && SpentForGood(s, i)
    ensures SpentForGood(Step(s, act), i)
  {
    OwnerChanges(s, act);
    if i in Step(s, act).logins {
      if i in s.logins {
        assert LoginFits(s, i);
        LoginIsMoved(s, act, i);
      } else {
        LoginIsNew(s, act, i);
      }
    }
  }

  lemma {:induction false} AtMostOneSession(acts: seq<Act>, i: Id)
    ensures Sessions(acts, i) <= 1
    ensures Sessions(acts, i) == 1 ==> SpentForGood(Run(EMPTY, acts), i)
  {
    if acts != [] {
      var before, act := acts[..|acts|-1], acts[|acts|-1];
      AtMostOneSession(before, i);
      RunKeepsInv(before);
      if Sessions(before, i) == 1 { SpentStays(Run(EMPTY, before), act, i); }
      if i in Run(EMPTY, before).logins { assert LoginFits(Run(EMPTY, before), i); }
    }
  }

  /** o: the first opening; c: the consent; both by tg, in this order. */
  ghost predicate ConsentTrail(acts: seq<Act>, i: Id, tg: Tg, o: nat, c: nat) {
    && o < c < |acts|
    && OpensFirst(Run(EMPTY, acts[..o]), acts[o], i, tg)
    && Consents(Run(EMPTY, acts[..c]), acts[c], i) && acts[c].tg == tg
  }

  /** The signed-in profile is the one tg's phone-verified link, or a number tg shared for this request, stands for. */
  ghost predicate IdentityProved(acts: seq<Act>, i: Id, tg: Tg, c: nat, p: Profile)
    requires c < |acts| && acts[c].LoginTap? && i in Run(EMPTY, acts[..c]).logins
  {
    var s := Run(EMPTY, acts[..c]);
    var phone := s.logins[i].contactPhone;
    && EntitledTo(s, phone, tg, p)
    && (phone.Some? ==> exists k :: 0 <= k < c && Shares(Run(EMPTY, acts[..k]), acts[k], i, tg, phone.value))
  }

  /**
   Login safety: a session is issued at most once per request, only against its browser secret,
   only before expiry plus grace, and only after the Telegram user who first opened the link
   tapped accept with the current nonce while the request was live and pending; the profile is
   the one that user proved.
   */
  lemma LoginSafety(acts: seq<Act>, i: Id, secret: Secret) returns (tg: Tg, o: nat, c: nat)
    requires Completes(Run(EMPTY, acts), i, secret)
    ensures Sessions(acts, i) == 0
    ensures Sessions(acts + [CompleteLogin(i, secret)], i) == 1
    ensures Run(EMPTY, acts).logins[i].secret == secret
    ensures Run(EMPTY, acts).now < Run(EMPTY, acts).logins[i].expiresAt + 2 * 60
    ensures var p := Run(EMPTY, acts).logins[i].profile.value;
            p in Run(EMPTY, acts).people && Run(EMPTY, acts).people[p].active && Run(EMPTY, acts).people[p].learner
    ensures ConsentTrail(acts, i, tg, o, c)
    ensures IdentityProved(acts, i, tg, c, Run(EMPTY, acts).logins[i].profile.value)
  {
    AtMostOneSession(acts, i);
    var all := acts + [CompleteLogin(i, secret)];
    assert all[..|all|-1] == acts;
    c := ApprovalNeedsTap(acts, i);
    tg := acts[c].tg;
    var upTo := acts[..c];
    o := OpenerOpenedFirst(upTo, i, tg);
    assert upTo[..o] == acts[..o] && upTo[o] == acts[o];
    var s := Run(EMPTY, upTo);
    if s.logins[i].contactPhone.Some? {
      var k := NumberWasShared(upTo, i, s.logins[i].contactPhone.value);
      assert upTo[..k] == acts[..k] && upTo[k] == acts[k];
    }
  }

  // ---------------------------------------------------------------- the password reset

  /** tg proved to own the phone of the reset's profile: by a verified link, or by sharing that very number. */
  ghost predicate Proves(s: State, act: Act, i: Id, tg: Tg) {
    && i in s.resets && s.resets[i].profile in s.people
    && (|| (act == BeginReset(i, tg) && tg in s.links && s.links[tg] == Link(s.resets[i].profile, true))
        || (act == ResetContact(i, tg, tg, Some(s.people[s.resets[i].profile].phone)) && s.resets[i].pendingTg == Some(tg)))
  }

  ghost predicate Asks(s: State, i: Id, tg: Tg) {
    i in s.resets && s.resets[i].nonce.Some? && s.resets[i].pendingTg == Some(tg)
  }

  lemma QuestionNeedsProof(s: State, act: Act, i: Id, tg: Tg)
    requires Inv(s) && Asks(Step(s, act), i, tg)
    ensures i in s.resets && (Asks(s, i, tg) || Proves(s, act, i, tg))
  {
    if i in s.resets {
      assert ResetFits(s, i);
      ResetIsMoved(s, act, i);
    } else {
      ResetIsNew(s, act, i);
    }
  }

  lemma {:induction false} QuestionWasProved(acts: seq<Act>, i: Id, tg: Tg) returns (j: nat)
    requires Asks(Run(EMPTY, acts), i, tg)
    ensures j < |acts| && Proves(Run(EMPTY, acts[..j]), acts[j], i, tg)
  {
    var before, act := acts[..|acts|-1], acts[|acts|-1];
    RunKeepsInv(before);
    QuestionNeedsProof(Run(EMPTY, before), act, i, tg);
    if Proves(Run(EMPTY, before), act, i, tg) {
      j := |before|;
    } else {
      j := QuestionWasProved(before, i, tg);
      assert before[..j] == acts[..j];
    }
  }

  ghost predicate Confirms(s: State, act: Act, i: Id, tg: Tg) {
    && act.ResetTap? && act.id == i && act.tg == tg && act.accept && i in s.resets
    && var r := s.resets[i];
       && r.nonce == Some(act.nonce) && r.pendingTg == Some(tg) && !r.used && !r.verified && s.now <= r.expiresAt
       && r.profile in s.people && s.people[r.profile].active
  }

  ghost predicate VerifiedBy(s: State, i: Id, tg: Option<Tg>) {
    i in s.resets && s.resets[i].verified && s.resets[i].verifiedTg == tg
  }

  lemma VerificationNeedsTap(s: State, act: Act, i: Id, tg: Option<Tg>)
    requires Inv(s) && VerifiedBy(Step(s, act), i, tg)
    ensures VerifiedBy(s, i, tg) || (tg.Some? && Confirms(s, act, i, tg.value))
  {
    if i in s.resets {
      assert ResetFits(s, i);
      ResetIsMoved(s, act, i);
    } else {
      ResetIsNew(s, act, i);
    }
  }

  lemma {:induction false} VerificationWasTapped(acts: seq<Act>, i: Id, tg: Option<Tg>) returns (j: nat)
    requires VerifiedBy(Run(EMPTY, acts), i, tg)
    ensures tg.Some? && j < |acts| && Confirms(Run(EMPTY, acts[..j]), acts[j], i, tg.value)
  {
    var before, act := acts[..|acts|-1], acts[|acts|-1];
    RunKeepsInv(before);
    VerificationNeedsTap(Run(EMPTY, before), act, i, tg);
    if tg.Some? && Confirms(Run(EMPTY, before), act, i, tg.value) {
      j := |before|;
    } else {
      j := VerificationWasTapped(before, i, tg);
      assert before[..j] == acts[..j];
    }
  }

  /**
   Reset safety: a password is replaced only after one Telegram user first proved to own the
   account's phone and then tapped «Ha, men» with the current nonce on the live, unverified reset.
   */
  lemma ResetSafety(acts: seq<Act>, i: Id) returns (tg: Tg, k: nat, j: nat)
    requires ResetCompletes(Run(EMPTY, acts), i)
    ensures var s := Run(EMPTY, acts);
            var r := s.resets[i];
            r.verified && !r.used && s.now <= r.expiresAt && r.profile in s.people && s.people[r.profile].active
    ensures Run(EMPTY, acts).resets[i].verifiedTg == Some(tg)
    ensures k < j < |acts|
    ensures Proves(Run(EMPTY, acts[..k]), acts[k], i, tg)
    ensures Confirms(Run(EMPTY, acts[..j]), acts[j], i, tg)
  {
    j := VerificationWasTapped(acts, i, Run(EMPTY, acts).resets[i].verifiedTg);
    tg := Run(EMPTY, acts).resets[i].verifiedTg.value;
    var upTo := acts[..j];
    k := QuestionWasProved(upTo, i, tg);
    assert upTo[..k] == acts[..k] && upTo[k] == acts[k];
  }
}
