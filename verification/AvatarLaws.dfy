/**
 What a pass does to a profile's row, followed from its start to its end, and when a pass does anything at all.
 */
module AvatarLaws {
  import opened Options
  import AvatarQueue
  import opened AvatarObjects

  // ---------------------------------------------------------------- what a pass decides

  /** A pass drops the photo of a profile without a verified link; it fetches for a new link always, and otherwise only for a stale check. */
  lemma PassDecides(k: AvatarQueue.Request, f: AvatarQueue.Found, photosConfigured: bool)
    ensures AvatarQueue.Decide(k, f, photosConfigured) == AvatarQueue.ClearPhoto <==> f.exists_ && !f.linkedLearner
    ensures AvatarQueue.Decide(k, f, photosConfigured) == AvatarQueue.FetchPhoto <==>
              f.exists_ && f.linkedLearner && photosConfigured && (k == 3 || (k == 2 && !f.recentlyChecked))
  {}

  // ---------------------------------------------------------------- when a row's photo changes

  /** A row's photo goes only when the profile is not a learner with a verified link, and comes only from the user linked now. */
  lemma PhotoChangesOnly(s: State, a: Action, p: Profile)
    requires p in s.rows && p in Step(s, a).rows && Step(s, a).rows[p].key != s.rows[p].key
    ensures || (&& a.Clear? && Step(s, a).rows[p].key == None && !a.answer.Failed?
                && !(s.rows[p].learner && s.rows[p].link.Some?))
            || (&& a.Record? && a.j < |s.jobs| && s.jobs[a.j].profile == p && s.jobs[a.j].pc.Recording? && !a.answer.Failed?
                && s.rows[p].learner && s.rows[p].link == Some(s.jobs[a.j].pc.user)
                && Step(s, a).rows[p].key == s.jobs[a.j].pc.photo)
  {}

  /** The state after a new pass for p has looked at its row. */
  ghost function Looked(s: State, p: Profile, fetches: bool): State {
    Step(Step(s, Spawn(p)), Look(|s.jobs|, fetches))
  }

  lemma LookDecides(s: State, p: Profile, fetches: bool)
    requires p in s.rows
    ensures var r, j := Looked(s, p, fetches), |s.jobs|;
            && r.rows == s.rows && r.objects == s.objects && |r.jobs| == j + 1 && r.jobs[j].profile == p && r.next == s.next
            && r.jobs[j].pc == if !s.rows[p].learner || s.rows[p].link == None then Clearing
                               else if fetches then Fetching(s.rows[p].link.value) else Done
  {}

  /** A pass over a profile that has lost its verified link, with its calls answered, leaves no photo and no check behind. */
  lemma UnlinkedLosesPhoto(s: State, p: Profile, fetches: bool)
    requires p in s.rows && (!s.rows[p].learner || s.rows[p].link == None)
    ensures var j := |s.jobs|;
            var cleared := Step(Looked(s, p, fetches), Clear(j, Answered));
            var r := Step(cleared, Delete(j, true, true));
            && p in r.rows && r.rows[p].key == None && !r.rows[p].checked
            && (s.rows[p].key.Some? ==> s.rows[p].key.value !in r.objects)
            && r.rows[p].learner == s.rows[p].learner && r.rows[p].link == s.rows[p].link
            && forall q :: q in s.rows && q != p ==> q in r.rows && r.rows[q] == s.rows[q]
  {
    LookDecides(s, p, fetches);
    ClearedThenDeleted(Looked(s, p, fetches), |s.jobs|);
  }

  lemma ClearedThenDeleted(s: State, j: nat)
    requires j < |s.jobs| && s.jobs[j].pc.Clearing? && s.jobs[j].profile in s.rows
    requires var row := s.rows[s.jobs[j].profile]; !row.learner || row.link == None
    ensures var p := s.jobs[j].profile;
            var r := Step(Step(s, Clear(j, Answered)), Delete(j, true, true));
            && p in r.rows && r.rows[p] == s.rows[p].(key := None, checked := false)
            && (s.rows[p].key.Some? ==> s.rows[p].key.value !in r.objects)
            && forall q :: q in s.rows && q != p ==> q in r.rows && r.rows[q] == s.rows[q]
  {}

  /** A fetch that finds no photo, recorded while the link is still the user's, leaves no photo but a check. */
  lemma NoPhotoIsRecorded(s: State, p: Profile)
    requires p in s.rows && s.rows[p].learner && s.rows[p].link.Some?
    ensures var j := |s.jobs|;
            var r := Step(Step(Looked(s, p, true), Fetch(j, NoPhoto)), Record(j, Answered));
            p in r.rows && r.rows[p] == s.rows[p].(key := None, checked := true)
  {
    LookDecides(s, p, true);
  }

  /** A fetch that fails for the moment ends the pass and keeps what the profile has. */
  lemma TransientKeepsPhoto(s: State, p: Profile)
    requires p in s.rows && s.rows[p].learner && s.rows[p].link.Some?
    ensures var r := Step(Looked(s, p, true), Fetch(|s.jobs|, Transient));
            r.rows == s.rows && r.objects == s.objects && r.jobs[|s.jobs|].pc == Done
  {
    LookDecides(s, p, true);
  }

  /** A photo that is fetched, uploaded and recorded is the profile's, and its object is there. */
  lemma PhotoIsRecorded(s: State, p: Profile)
    requires p in s.rows && s.rows[p].learner && s.rows[p].link.Some?
    ensures var j := |s.jobs|;
            var uploaded := Step(Step(Looked(s, p, true), Fetch(j, Photo)), Put(j, true, true));
            var r := Step(uploaded, Record(j, Answered));
            p in r.rows && r.rows[p] == s.rows[p].(key := Some(s.next), checked := true) && s.next in r.objects
  {
    LookDecides(s, p, true);
    UploadThenRecord(Looked(s, p, true), |s.jobs|);
  }

  lemma UploadThenRecord(s: State, j: nat)
    requires j < |s.jobs| && s.jobs[j].pc.Fetching? && s.jobs[j].profile in s.rows
    requires s.rows[s.jobs[j].profile].learner && s.rows[s.jobs[j].profile].link == Some(s.jobs[j].pc.user)
    ensures var p, r := s.jobs[j].profile, Step(Step(Step(s, Fetch(j, Photo)), Put(j, true, true)), Record(j, Answered));
            p in r.rows && r.rows[p] == s.rows[p].(key := Some(s.next), checked := true) && s.next in r.objects
  {
    var uploaded := Step(Step(s, Fetch(j, Photo)), Put(j, true, true));
    assert uploaded.jobs[j] == Job(s.jobs[j].profile, Recording(Some(s.next), s.jobs[j].pc.user)) && uploaded.rows == s.rows;
  }

  /** A change of link or role shows in the row at once and leaves its photo to the next pass. */
  lemma ProfileChanges(s: State, p: Profile, link: Option<User>, learner: bool)
    requires p in s.rows
    ensures Step(s, SetLink(p, link)).rows == s.rows[p := s.rows[p].(link := link)]
    ensures Step(s, SetLearner(p, learner)).rows == s.rows[p := s.rows[p].(learner := learner)]
  {}
}
