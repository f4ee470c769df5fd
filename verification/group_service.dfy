/** The group side of the store (`GroupServices`): creating and deleting
    groups, and editing a roster. Every roster change is reconciled into
    the tracking groups of the forms that track the group. */
module GroupService {
  import opened Results
  import opened Lists
  import opened Models
  import opened Tracking
  import opened Store
  import opened Messages

  /** `AddGroup`: a new "Personal" group owned by the caller, its roster the
      requested emails without repeats (none if the list is null). `groupId`
      and `link` are fresh GUIDs, `now` is the clock. */
  function AddGroup(users: Users, s: Store, email: Email, name: string, description: string,
                    participants: Option<seq<Email>>, groupId: Guid, link: Guid, now: Instant)
    : (r: Result<Store>)
    requires groupId !in s.groups
    ensures r.Err? <==> email !in users
    ensures r.Err? ==> r.error == UserNotFoundLower
    ensures r.Ok? ==> && r.value.forms == s.forms && r.value.urls == s.urls
                      && groupId in r.value.groups
                      && r.value.groups == s.groups[groupId := r.value.groups[groupId]]
    ensures r.Ok? ==> var g := r.value.groups[groupId];
              && g.groupId == groupId && g.creator == users[email]
              && g.groupName == name && g.groupType == "Personal"
              && NoDuplicates(g.members)
              && (forall e :: e in g.members <==> participants.Some? && e in participants.value)
    ensures r.Ok? && participants.Some? ==> var ms := r.value.groups[groupId].members;
              forall i, j :: 0 <= i < j < |ms| ==>
                IndexOf(participants.value, ms[i]) < IndexOf(participants.value, ms[j])
  {
    if email !in users then Err(UserNotFoundLower)
    else
      var requested := if participants.Some? then participants.value else [];
      DistinctKeepsFirstOccurrenceOrder(requested);
      var members := Distinct(requested);
      var g := Group(groupId, users[email], name, "Personal", Some(link), description, members, now);
      Ok(s.(groups := s.groups[groupId := g]))
  }

  /** The form with its tracking groups for `groupId` pulled. */
  function Detach(f: Form, groupId: Guid): (f': Form)
    ensures f' == f.(groups := f'.groups)
    ensures !TracksGroup(f'.groups, groupId)
    ensures forall tg :: tg in f'.groups <==> tg in f.groups && tg.groupId != groupId
    ensures !TracksGroup(f.groups, groupId) ==> f' == f
    ensures f'.groups == WithoutGroup(f.groups, groupId)
  {
    if TracksGroup(f.groups, groupId) then f.(groups := WithoutGroup(f.groups, groupId))
    else
      assert WithoutGroup(f.groups, groupId) == f.groups by {
        WithoutUntracked(f.groups, groupId);
      }
      f
  }

  /** `DeleteGroup`: the creator deletes the group; every form stops
      tracking it first. */
  function DeleteGroup(users: Users, s: Store, email: Email, groupId: Guid): (r: Result<Store>)
    ensures email !in users ==> r == Err(UserNotFound)
    ensures email in users && groupId !in s.groups ==> r == Err(GroupNotFound)
    ensures r.Ok? <==> email in users && groupId in s.groups && s.groups[groupId].creator == users[email]
    ensures !r.Ok? && email in users && groupId in s.groups ==> r == Err(NotAuthorisedToDelete)
    ensures r.Ok? ==> && r.value.groups == s.groups - {groupId}
                      && r.value.urls == s.urls
                      && r.value.forms.Keys == s.forms.Keys
    ensures r.Ok? ==> forall k :: k in s.forms ==>
              var f, f' := s.forms[k], r.value.forms[k];
              && !TracksGroup(f'.groups, groupId)
              && f' == f.(groups := f'.groups)
              && (forall tg :: tg in f'.groups <==> tg in f.groups && tg.groupId != groupId)
              && (!TracksGroup(f.groups, groupId) ==> f' == f)
              && f'.groups == WithoutGroup(f.groups, groupId)
  {
    if email !in users then Err(UserNotFound)
    else if groupId !in s.groups then Err(GroupNotFound)
    else if s.groups[groupId].creator != users[email] then Err(NotAuthorisedToDelete)
    else
      var forms' := map k | k in s.forms :: Detach(s.forms[k], groupId);
      Ok(Store(forms', s.urls, s.groups - {groupId}))
  }

  /** `$push`/`$each` of `ts` onto the first tracking group for `groupId`. */
  function PushToGroup(f: Form, groupId: Guid, ts: seq<Tracker>): (f': Form)
    ensures f' == f.(groups := f'.groups)
    ensures |f'.groups| == |f.groups|
    ensures forall g :: 0 <= g < |f.groups| ==>
              f'.groups[g].groupId == f.groups[g].groupId && f'.groups[g].groupName == f.groups[g].groupName
    ensures forall g :: 0 <= g < |f.groups| ==>
              f'.groups[g].participants ==
                if FirstGroup(f.groups, groupId) == Some(g) then f.groups[g].participants + ts
                else f.groups[g].participants
    ensures !TracksGroup(f.groups, groupId) || ts == [] ==> f' == f
  {
    match FirstGroup(f.groups, groupId)
    case None => f
    case Some(i) =>
      if ts == [] then
        assert f.groups[i].participants + ts == f.groups[i].participants;
        assert AppendTrackers(f.groups, i, ts) == f.groups;
        f
      else f.(groups := AppendTrackers(f.groups, i, ts))
  }

  /** `PushToGroup` applied to every form of the store. */
  function PushAll(forms: map<Guid, Form>, groupId: Guid, ts: seq<Tracker>): map<Guid, Form>
  {
    map k | k in forms :: PushToGroup(forms[k], groupId, ts)
  }

  /** What a push of fresh trackers does to each form: its first tracking
      group for the id gains them at the end, every other tracking group and
      field stays, and a form that does not track the group is untouched. */
  lemma PushAllEffect(forms: map<Guid, Form>, groupId: Guid, emails: seq<Email>, k: Guid)
    requires k in forms
    ensures k in PushAll(forms, groupId, FreshTrackers(emails))
    ensures var f, f' := forms[k], PushAll(forms, groupId, FreshTrackers(emails))[k];
            && f' == f.(groups := f'.groups)
            && Extends(f.groups, f'.groups)
            && (forall g :: 0 <= g < |f.groups| ==>
                  f'.groups[g].participants ==
                    if FirstGroup(f.groups, groupId) == Some(g) then f.groups[g].participants + FreshTrackers(emails)
                    else f.groups[g].participants)
            && (!TracksGroup(f.groups, groupId) ==> f' == f)
  {
    var f, f' := forms[k], PushAll(forms, groupId, FreshTrackers(emails))[k];
    forall g | 0 <= g < |f.groups| ensures Appended(f.groups[g].participants, f'.groups[g].participants) {
      var n := |f.groups[g].participants|;
      if FirstGroup(f.groups, groupId) == Some(g) {
        assert f'.groups[g].participants[n..] == FreshTrackers(emails);
      } else {
        assert f'.groups[g].participants[n..] == [];
      }
    }
  }

  /** `AddMemberToGroup`: the creator adds `participants` to the roster.
      Emails already on the roster are dropped from the request; the rest
      are added to the roster as a set, and one fresh tracker per remaining
      request entry is appended to the first tracking group for the group in
      every form that tracks it. */
  function AddMemberToGroup(users: Users, s: Store, email: Email, participants: seq<Email>, groupId: Guid)
    : (r: Result<Store>)
    ensures email !in users ==> r == Err(UserNotFound)
    ensures email in users && groupId !in s.groups ==> r == Err(GroupNotFound)
    ensures r.Ok? <==> email in users && groupId in s.groups && s.groups[groupId].creator == users[email]
    ensures !r.Ok? && email in users && groupId in s.groups ==> r == Err(NotAuthorisedToEditGroup)
    ensures r.Ok? ==> && r.value.urls == s.urls
                      && r.value.forms.Keys == s.forms.Keys
                      && groupId in r.value.groups
                      && r.value.groups == s.groups[groupId := r.value.groups[groupId]]
    ensures r.Ok? ==>
              var g, g' := s.groups[groupId], r.value.groups[groupId];
              var added := Filter(participants, g.members, false);
              && (added == [] ==> r.value == s)
              && g' == g.(members := g'.members)
              && g'.members == g.members + Distinct(added)
              && (forall e :: e in g'.members <==> e in g.members || e in participants)
              && (NoDuplicates(g.members) ==> NoDuplicates(g'.members))
              && r.value.forms == PushAll(s.forms, groupId, FreshTrackers(added))
  {
    if email !in users then Err(UserNotFound)
    else if groupId !in s.groups then Err(GroupNotFound)
    else
      var g := s.groups[groupId];
      if g.creator != users[email] then Err(NotAuthorisedToEditGroup)
      else
        var remaining := RemoveEach(participants, Filter(participants, g.members, true));
        RemoveCollected(participants, g.members, true);
        if remaining == [] then
          assert PushAll(s.forms, groupId, FreshTrackers(remaining)) == s.forms;
          Ok(s)
        else
          AddToSetEachAppendsNew(g.members, remaining);
          FilterAbsent(Distinct(remaining), g.members);
          var g' := g.(members := AddToSetEach(g.members, remaining));
          Ok(Store(PushAll(s.forms, groupId, FreshTrackers(remaining)), s.urls, s.groups[groupId := g']))
  }

  /** The emails `FetchMembers` pushes for tracking group `tg`: the current
      roster with each tracked email `List.Remove`d once. */
  function Missing(rosters: map<Guid, Group>, tg: TrackingGroup): seq<Email>
    requires tg.groupId in rosters
  {
    RemoveEach(rosters[tg.groupId].members, Emails(tg.participants))
  }

  /** Counted with repeats, the missing emails are the roster less the
      tracked emails. */
  lemma MissingCounts(rosters: map<Guid, Group>, tg: TrackingGroup)
    requires tg.groupId in rosters
    ensures multiset(Missing(rosters, tg)) == multiset(rosters[tg.groupId].members) - multiset(Emails(tg.participants))
  {
    RemoveEachCounts(rosters[tg.groupId].members, Emails(tg.participants));
  }

  /** In a valid store, where every roster is duplicate-free, the missing
      emails are exactly the roster emails not yet tracked, in roster
      order. */
  lemma MissingInRosterOrder(s: Store, tg: TrackingGroup)
    requires Valid(s) && tg.groupId in s.groups
    ensures Missing(s.groups, tg) == Filter(s.groups[tg.groupId].members, Emails(tg.participants), false)
  {
    RemoveEachFromDistinct(s.groups[tg.groupId].members, Emails(tg.participants));
  }

  /** `ts'` is `ts` with fresh (unseen, unfilled) trackers appended. */
  predicate Appended(ts: seq<Tracker>, ts': seq<Tracker>) {
    && |ts'| >= |ts| && ts'[..|ts|] == ts
    && forall t :: t in ts'[|ts|..] ==> !t.seen && !t.filled
  }

  /** `groups'` is `groups` with trackers appended: same groups in the same
      order, every old tracker kept in place, every new tracker fresh. */
  predicate Extends(groups: seq<TrackingGroup>, groups': seq<TrackingGroup>) {
    && |groups'| == |groups|
    && forall g :: 0 <= g < |groups| ==>
         && groups'[g].groupId == groups[g].groupId && groups'[g].groupName == groups[g].groupName
         && Appended(groups[g].participants, groups'[g].participants)
  }

  lemma AppendedTransitive(a: seq<Tracker>, b: seq<Tracker>, c: seq<Tracker>)
    requires Appended(a, b) && Appended(b, c)
    ensures Appended(a, c)
  {
    assert c[..|a|] == b[..|a|];
    assert c[|a|..] == b[|a|..] + c[|b|..];
  }

  lemma ExtendsTransitive(a: seq<TrackingGroup>, b: seq<TrackingGroup>, c: seq<TrackingGroup>)
    requires Extends(a, b) && Extends(b, c)
    ensures Extends(a, c)
  {
    forall g | 0 <= g < |a| ensures Appended(a[g].participants, c[g].participants) {
      AppendedTransitive(a[g].participants, b[g].participants, c[g].participants);
    }
  }

  /** Appending trackers never loses one that was there. */
  lemma ExtendsKeepsEmail(groups: seq<TrackingGroup>, groups': seq<TrackingGroup>, g: nat, e: Email)
    requires Extends(groups, groups') && g < |groups|
    requires e in Emails(groups[g].participants)
    ensures e in Emails(groups'[g].participants)
  {
    var n := IndexOf(Emails(groups[g].participants), e);
    assert groups'[g].participants[n] == groups'[g].participants[..|groups[g].participants|][n];
    assert Emails(groups'[g].participants)[n] == e;
  }

  lemma ExtendsReflexive(groups: seq<TrackingGroup>)
    ensures Extends(groups, groups)
  {
    forall g | 0 <= g < |groups| ensures Appended(groups[g].participants, groups[g].participants) {
      assert groups[g].participants[|groups[g].participants|..] == [];
    }
  }

  /** Appending fresh trackers to one group extends the list. */
  lemma AppendExtends(groups: seq<TrackingGroup>, g: nat, emails: seq<Email>)
    requires g < |groups|
    ensures Extends(groups, AppendTrackers(groups, g, FreshTrackers(emails)))
  {
    var r := AppendTrackers(groups, g, FreshTrackers(emails));
    forall h | 0 <= h < |groups| ensures Appended(groups[h].participants, r[h].participants) {
      if h == g {
        assert r[h].participants[|groups[h].participants|..] == FreshTrackers(emails);
      } else {
        assert r[h].participants[|groups[h].participants|..] == [];
      }
    }
  }

  /** One step of the `FetchMembers` loop for the `i`-th tracking group of
      the snapshot: its missing emails go, as fresh trackers, to the first
      tracking group with the same id. */
  function PushMissing(all: seq<TrackingGroup>, i: nat, rosters: map<Guid, Group>, groups: seq<TrackingGroup>)
    : (groups': seq<TrackingGroup>)
    requires i < |all| && |groups| == |all| && all[i].groupId in rosters
    ensures |groups'| == |groups|
    ensures forall j :: 0 <= j < |groups| ==>
              groups'[j].groupId == groups[j].groupId && groups'[j].groupName == groups[j].groupName
  {
    var missing := Missing(rosters, all[i]);
    FirstGroupFinds(all, all[i].groupId, i);
    var first := FirstGroup(all, all[i].groupId);
    if missing == [] then groups
    else AppendTrackers(groups, first.value, FreshTrackers(missing))
  }

  /** The push lands on the first tracking group with the snapshot group's
      id, as fresh trackers for its missing emails, and nowhere else. */
  lemma PushMissingParticipants(all: seq<TrackingGroup>, i: nat, rosters: map<Guid, Group>, groups: seq<TrackingGroup>)
    requires i < |all| && |groups| == |all| && all[i].groupId in rosters
    ensures var groups' := PushMissing(all, i, rosters, groups);
            forall j :: 0 <= j < |groups| ==>
              groups'[j].participants ==
                if Some(j) == FirstGroup(all, all[i].groupId) then groups[j].participants + FreshTrackers(Missing(rosters, all[i]))
                else groups[j].participants
  {
    var missing := Missing(rosters, all[i]);
    FirstGroupFinds(all, all[i].groupId, i);
    var first := FirstGroup(all, all[i].groupId).value;
    if missing == [] {
      assert groups[first].participants + FreshTrackers(missing) == groups[first].participants;
    }
  }

  lemma PushMissingExtends(all: seq<TrackingGroup>, i: nat, rosters: map<Guid, Group>, groups: seq<TrackingGroup>)
    requires i < |all| && |groups| == |all| && all[i].groupId in rosters
    ensures Extends(groups, PushMissing(all, i, rosters, groups))
  {
    FirstGroupFinds(all, all[i].groupId, i);
    var first := FirstGroup(all, all[i].groupId).value;
    var missing := Missing(rosters, all[i]);
    if missing == [] {
      ExtendsReflexive(groups);
    } else {
      AppendExtends(groups, first, missing);
    }
  }

  /** A push followed by appends is an append. */
  lemma PushMissingThenExtends(all: seq<TrackingGroup>, i: nat, rosters: map<Guid, Group>, groups: seq<TrackingGroup>,
                               result: seq<TrackingGroup>)
    requires i < |all| && |groups| == |all| && all[i].groupId in rosters
    requires Extends(PushMissing(all, i, rosters, groups), result)
    ensures Extends(groups, result)
  {
    PushMissingExtends(all, i, rosters, groups);
    ExtendsTransitive(groups, PushMissing(all, i, rosters, groups), result);
  }

  /** The loop of `FetchMembers` from the `i`-th tracking group of the
      snapshot `all` on, `groups` being the form's groups so far. A group
      that no longer exists aborts the whole call. */
  function FetchFrom(all: seq<TrackingGroup>, i: nat, rosters: map<Guid, Group>, groups: seq<TrackingGroup>)
    : (r: Result<seq<TrackingGroup>>)
    requires i <= |all| && |groups| == |all|
    ensures r.Err? ==> r.error == TrackedGroupGone
    ensures r.Ok? ==> |r.value| == |groups|
    decreases |all| - i
  {
    if i == |all| then Ok(groups)
    else if all[i].groupId !in rosters then Err(TrackedGroupGone)
    else FetchFrom(all, i + 1, rosters, PushMissing(all, i, rosters, groups))
  }

  /** Every tracking group from the `i`-th on names a group that still
      exists. */
  predicate AllPresent(all: seq<TrackingGroup>, i: nat, rosters: map<Guid, Group>)
    decreases |all| - i
  {
    i >= |all| || (all[i].groupId in rosters && AllPresent(all, i + 1, rosters))
  }

  lemma {:induction false} AllPresentEach(all: seq<TrackingGroup>, i: nat, rosters: map<Guid, Group>)
    requires i <= |all|
    ensures AllPresent(all, i, rosters) <==> forall j :: i <= j < |all| ==> all[j].groupId in rosters
    decreases |all| - i
  {
    if i < |all| {
      AllPresentEach(all, i + 1, rosters);
    }
  }

  /** The loop fails exactly when some tracking group from the `i`-th on
      names a group that no longer exists. */
  lemma {:induction false} FetchFromSucceeds(all: seq<TrackingGroup>, i: nat, rosters: map<Guid, Group>,
                                             groups: seq<TrackingGroup>)
    requires i <= |all| && |groups| == |all|
    ensures FetchFrom(all, i, rosters, groups).Ok? <==> AllPresent(all, i, rosters)
    decreases |all| - i
  {
    if i < |all| && all[i].groupId in rosters {
      FetchFromSucceeds(all, i + 1, rosters, PushMissing(all, i, rosters, groups));
    }
  }

  /** One turn of the loop: a successful run from `i` is a successful run
      from `i + 1` after the `i`-th push. */
  lemma FetchFromStep(all: seq<TrackingGroup>, i: nat, rosters: map<Guid, Group>,
                      groups: seq<TrackingGroup>, result: seq<TrackingGroup>)
    requires i < |all| && |groups| == |all|
    requires FetchFrom(all, i, rosters, groups) == Ok(result)
    ensures all[i].groupId in rosters
    ensures var groups' := PushMissing(all, i, rosters, groups);
            && |groups'| == |all|
            && FetchFrom(all, i + 1, rosters, groups') == Ok(result)
  {
  }

  /** The loop only appends fresh trackers. */
  lemma {:induction false} FetchFromExtends(all: seq<TrackingGroup>, i: nat, rosters: map<Guid, Group>,
                                            groups: seq<TrackingGroup>, result: seq<TrackingGroup>)
    requires i <= |all| && |groups| == |all|
    requires FetchFrom(all, i, rosters, groups) == Ok(result)
    ensures Extends(groups, result)
    decreases |all| - i
  {
    if i == |all| {
      ExtendsReflexive(groups);
    } else {
      FetchFromStep(all, i, rosters, groups, result);
      FetchFromExtends(all, i + 1, rosters, PushMissing(all, i, rosters, groups), result);
      PushMissingThenExtends(all, i, rosters, groups, result);
    }
  }

  /** Every roster email of the `j`-th snapshot group's group is tracked by
      that snapshot group or by the first tracking group with its id in
      `result`. */
  predicate RosterCovered(all: seq<TrackingGroup>, rosters: map<Guid, Group>, result: seq<TrackingGroup>, j: nat)
    requires j < |all| && |result| == |all|
  {
    && all[j].groupId in rosters
    && FirstGroup(all, all[j].groupId).Some?
    && forall e :: e in rosters[all[j].groupId].members ==>
         e in Emails(all[j].participants) || e in Emails(result[FirstGroup(all, all[j].groupId).value].participants)
  }

  /** A roster email the tracking group lacks is among its missing emails. */
  lemma MissingHasUntracked(rosters: map<Guid, Group>, tg: TrackingGroup, e: Email)
    requires tg.groupId in rosters
    requires e in rosters[tg.groupId].members && e !in Emails(tg.participants)
    ensures e in Missing(rosters, tg)
  {
    MissingCounts(rosters, tg);
    assert multiset(Missing(rosters, tg))[e] > 0;
  }

  /** Appending fresh trackers for `emails` tracks each of them. */
  lemma AppendedTracks(base: seq<Tracker>, emails: seq<Email>, e: Email)
    requires e in emails
    ensures e in Emails(base + FreshTrackers(emails))
  {
    var n := IndexOf(emails, e);
    assert Emails(base + FreshTrackers(emails))[|base| + n] == e;
  }

  /** The `i`-th step covers the `i`-th snapshot group, and later appends
      cannot undo it. */
  lemma PushMissingCovers(all: seq<TrackingGroup>, i: nat, rosters: map<Guid, Group>, groups: seq<TrackingGroup>,
                          result: seq<TrackingGroup>)
    requires i < |all| && |groups| == |all| && all[i].groupId in rosters
    requires Extends(PushMissing(all, i, rosters, groups), result)
    ensures RosterCovered(all, rosters, result, i)
  {
    var groups' := PushMissing(all, i, rosters, groups);
    FirstGroupFinds(all, all[i].groupId, i);
    var f := FirstGroup(all, all[i].groupId).value;
    var missing := Missing(rosters, all[i]);
    PushMissingParticipants(all, i, rosters, groups);
    assert groups'[f].participants == groups[f].participants + FreshTrackers(missing);
    forall e | e in rosters[all[i].groupId].members && e !in Emails(all[i].participants)
      ensures e in Emails(result[f].participants)
    {
      MissingHasUntracked(rosters, all[i], e);
      AppendedTracks(groups[f].participants, missing, e);
      ExtendsKeepsEmail(groups', result, f, e);
    }
  }

  /** After the loop, every roster email of every tracking group's group is
      tracked by that group or by the first tracking group with its id. */
  lemma FetchFromTracksRoster(all: seq<TrackingGroup>, i: nat, rosters: map<Guid, Group>,
                              groups: seq<TrackingGroup>, result: seq<TrackingGroup>)
    requires i <= |all| && |groups| == |all|
    requires FetchFrom(all, i, rosters, groups) == Ok(result)
    ensures |result| == |all|
    ensures forall j :: i <= j < |all| ==> RosterCovered(all, rosters, result, j)
  {
    forall j | i <= j < |all| ensures RosterCovered(all, rosters, result, j) {
      FetchFromCovers(all, i, rosters, groups, result, j);
    }
  }

  /** The `j`-th snapshot group is covered once the loop has run past it. */
  lemma {:induction false} FetchFromCovers(all: seq<TrackingGroup>, i: nat, rosters: map<Guid, Group>,
                                           groups: seq<TrackingGroup>, result: seq<TrackingGroup>, j: nat)
    requires i <= j < |all| && |groups| == |all|
    requires FetchFrom(all, i, rosters, groups) == Ok(result)
    ensures |result| == |all| && RosterCovered(all, rosters, result, j)
    decreases |all| - i
  {
    FetchFromStep(all, i, rosters, groups, result);
    var groups' := PushMissing(all, i, rosters, groups);
    if i < j {
      FetchFromCovers(all, i + 1, rosters, groups', result, j);
    } else {
      FetchFromExtends(all, i + 1, rosters, groups', result);
      PushMissingCovers(all, i, rosters, groups, result);
    }
  }

  /** When no two tracking groups share an id, the loop appends to each
      tracking group exactly its own missing emails. */
  lemma {:induction false} FetchFromExact(all: seq<TrackingGroup>, i: nat, rosters: map<Guid, Group>,
                                          groups: seq<TrackingGroup>, result: seq<TrackingGroup>)
    requires i <= |all| && |groups| == |all|
    requires UniqueGroupIds(all)
    requires FetchFrom(all, i, rosters, groups) == Ok(result)
    ensures |result| == |all|
    ensures forall j :: 0 <= j < i ==> result[j].participants == groups[j].participants
    ensures forall j :: i <= j < |all| ==> RefreshedAt(all, rosters, groups, result, j)
    decreases |all| - i
  {
    if i < |all| {
      FetchFromStep(all, i, rosters, groups, result);
      var groups' := PushMissing(all, i, rosters, groups);
      FetchFromExact(all, i + 1, rosters, groups', result);
      ExactStep(all, i, rosters, groups, groups', result);
    }
  }

  /** The induction step of `FetchFromExact`: what holds of the run from
      `i + 1` after the `i`-th push holds of the run from `i`. */
  lemma ExactStep(all: seq<TrackingGroup>, i: nat, rosters: map<Guid, Group>, groups: seq<TrackingGroup>,
                  groups': seq<TrackingGroup>, result: seq<TrackingGroup>)
    requires i < |all| && |groups| == |all| && all[i].groupId in rosters
    requires UniqueGroupIds(all)
    requires groups' == PushMissing(all, i, rosters, groups) && |result| == |all|
    requires forall j :: 0 <= j < i + 1 ==> result[j].participants == groups'[j].participants
    requires forall j :: i + 1 <= j < |all| ==> RefreshedAt(all, rosters, groups', result, j)
    ensures forall j :: 0 <= j < i ==> result[j].participants == groups[j].participants
    ensures forall j :: i <= j < |all| ==> RefreshedAt(all, rosters, groups, result, j)
  {
    PushMissingOwnGroup(all, i, rosters, groups);
    forall j | i <= j < |all| ensures RefreshedAt(all, rosters, groups, result, j) {
      if j > i {
        assert RefreshedAt(all, rosters, groups', result, j);
      }
    }
  }

  /** The `j`-th tracking group of `result` is the `j`-th of `groups` with
      fresh trackers for the `j`-th snapshot group's missing emails. */
  predicate RefreshedAt(all: seq<TrackingGroup>, rosters: map<Guid, Group>, groups: seq<TrackingGroup>,
                        result: seq<TrackingGroup>, j: nat)
    requires j < |all| && |groups| == |all| && |result| == |all|
  {
    && all[j].groupId in rosters
    && result[j].participants == groups[j].participants + FreshTrackers(Missing(rosters, all[j]))
  }

  /** With no two tracking groups sharing an id, the `i`-th push lands on
      the `i`-th tracking group. */
  lemma PushMissingOwnGroup(all: seq<TrackingGroup>, i: nat, rosters: map<Guid, Group>, groups: seq<TrackingGroup>)
    requires i < |all| && |groups| == |all| && all[i].groupId in rosters
    requires UniqueGroupIds(all)
    ensures var groups' := PushMissing(all, i, rosters, groups);
            && groups'[i].participants == groups[i].participants + FreshTrackers(Missing(rosters, all[i]))
            && forall j :: 0 <= j < |all| && j != i ==> groups'[j].participants == groups[j].participants
  {
    assert IsFirstOfId(all, i);
    PushMissingParticipants(all, i, rosters, groups);
  }

  /** Two group lists with the same ids at the same positions. */
  predicate SameIds(groups: seq<TrackingGroup>, groups': seq<TrackingGroup>) {
    && |groups'| == |groups|
    && forall j :: 0 <= j < |groups| ==> groups'[j].groupId == groups[j].groupId
  }

  /** Which tracking group comes first for an id depends on the ids alone. */
  lemma FirstGroupReadsOnlyIds(groups: seq<TrackingGroup>, groups': seq<TrackingGroup>, groupId: Guid)
    requires SameIds(groups, groups')
    ensures FirstGroup(groups, groupId) == FirstGroup(groups', groupId)
  {
    FirstGroupFromReadsOnlyIds(groups, groups', groupId, 0);
  }

  lemma {:induction false} FirstGroupFromReadsOnlyIds(groups: seq<TrackingGroup>, groups': seq<TrackingGroup>, groupId: Guid, k: nat)
    requires SameIds(groups, groups') && k <= |groups|
    ensures FirstGroupFrom(groups, groupId, k) == FirstGroupFrom(groups', groupId, k)
    decreases |groups| - k
  {
    if k < |groups| { FirstGroupFromReadsOnlyIds(groups, groups', groupId, k + 1); }
  }

  lemma UniqueGroupIdsReadsOnlyIds(groups: seq<TrackingGroup>, groups': seq<TrackingGroup>)
    requires SameIds(groups, groups') && UniqueGroupIds(groups)
    ensures UniqueGroupIds(groups')
  {
    forall j | 0 <= j < |groups'| ensures IsFirstOfId(groups', j) {
      assert IsFirstOfId(groups, j);
      FirstGroupReadsOnlyIds(groups, groups', groups[j].groupId);
    }
  }

  /** Every tracking group that is the first for its id tracks every email
      on its group's roster. */
  predicate TracksRosters(groups: seq<TrackingGroup>, rosters: map<Guid, Group>) {
    forall j :: 0 <= j < |groups| && IsFirstOfId(groups, j) ==>
      && groups[j].groupId in rosters
      && forall e :: e in rosters[groups[j].groupId].members ==> e in Emails(groups[j].participants)
  }

  /** From the loop's coverage to the roster property of its result. */
  lemma CoveredTracksRosters(all: seq<TrackingGroup>, rosters: map<Guid, Group>, result: seq<TrackingGroup>)
    requires Extends(all, result)
    requires forall j :: 0 <= j < |all| ==> RosterCovered(all, rosters, result, j)
    ensures TracksRosters(result, rosters)
  {
    assert SameIds(all, result);
    forall j | 0 <= j < |result| && IsFirstOfId(result, j)
      ensures result[j].groupId in rosters
      ensures forall e :: e in rosters[result[j].groupId].members ==> e in Emails(result[j].participants)
    {
      FirstGroupReadsOnlyIds(all, result, result[j].groupId);
      assert RosterCovered(all, rosters, result, j);
      assert FirstGroup(all, all[j].groupId) == Some(j);
      forall e | e in rosters[result[j].groupId].members ensures e in Emails(result[j].participants) {
        if e in Emails(all[j].participants) {
          ExtendsKeepsEmail(all, result, j, e);
        }
      }
    }
  }

  /** `FetchMembers`: the form's creator brings its tracking groups up to
      date with the rosters. Every tracking group is compared, as it was
      when the call began, with its group's roster; the roster emails it
      does not track (counted with repeats) are appended as fresh trackers
      to the first tracking group with the same id. A tracking group whose
      group no longer exists aborts the call. */
  function FetchMembers(users: Users, s: Store, email: Email, formId: Guid): (r: Result<Store>)
    ensures email !in users ==> r == Err(UserNotFound)
    ensures email in users && formId !in s.forms ==> r == Err(GroupNotFound)
    ensures email in users && formId in s.forms && s.forms[formId].meta.creatorId != users[email] ==>
              r == Err(NotAuthorisedToFetch)
    ensures r.Ok? <==> && email in users && formId in s.forms && s.forms[formId].meta.creatorId == users[email]
                       && forall j :: 0 <= j < |s.forms[formId].groups| ==> s.forms[formId].groups[j].groupId in s.groups
    ensures r.Err? && email in users && formId in s.forms && s.forms[formId].meta.creatorId == users[email] ==>
              r.error == TrackedGroupGone
    ensures r.Ok? ==> OnlyFormChanged(s, r.value, formId)
    ensures r.Ok? ==> var f, f' := s.forms[formId], r.value.forms[formId];
              f' == f.(groups := f'.groups) && |f'.groups| == |f.groups|
  {
    if email !in users then Err(UserNotFound)
    else if formId !in s.forms then Err(GroupNotFound)
    else
      var f := s.forms[formId];
      if f.meta.creatorId != users[email] then Err(NotAuthorisedToFetch)
      else
        FetchFromSucceeds(f.groups, 0, s.groups, f.groups);
        AllPresentEach(f.groups, 0, s.groups);
        match FetchFrom(f.groups, 0, s.groups, f.groups)
        case Err(e) => Err(e)
        case Ok(groups) => Ok(s.(forms := s.forms[formId := f.(groups := groups)]))
  }

  /** A refresh only appends fresh trackers: every tracking group keeps its
      id, name and trackers, in place and with their flags. */
  lemma FetchMembersExtends(users: Users, s: Store, email: Email, formId: Guid)
    requires FetchMembers(users, s, email, formId).Ok?
    ensures Extends(s.forms[formId].groups, FetchMembers(users, s, email, formId).value.forms[formId].groups)
  {
    var f := s.forms[formId];
    var groups := FetchMembers(users, s, email, formId).value.forms[formId].groups;
    FetchFromExtends(f.groups, 0, s.groups, f.groups, groups);
  }

  /** After a refresh, the first tracking group for every tracked group
      tracks every email on that group's roster. */
  lemma FetchMembersTracksRosters(users: Users, s: Store, email: Email, formId: Guid)
    requires FetchMembers(users, s, email, formId).Ok?
    ensures TracksRosters(FetchMembers(users, s, email, formId).value.forms[formId].groups, s.groups)
  {
    var f := s.forms[formId];
    var groups := FetchMembers(users, s, email, formId).value.forms[formId].groups;
    FetchFromExtends(f.groups, 0, s.groups, f.groups, groups);
    FetchFromTracksRoster(f.groups, 0, s.groups, f.groups, groups);
    CoveredTracksRosters(f.groups, s.groups, groups);
  }

  /** When no two tracking groups share an id, a refresh appends to each
      tracking group exactly the roster emails it lacks (counted with
      repeats), in roster order. */
  lemma FetchMembersExact(users: Users, s: Store, email: Email, formId: Guid)
    requires FetchMembers(users, s, email, formId).Ok?
    requires UniqueGroupIds(s.forms[formId].groups)
    ensures var f, f' := s.forms[formId], FetchMembers(users, s, email, formId).value.forms[formId];
            forall j :: 0 <= j < |f.groups| ==>
              f'.groups[j].participants == f.groups[j].participants + FreshTrackers(Missing(s.groups, f.groups[j]))
  {
    var f := s.forms[formId];
    var groups := FetchMembers(users, s, email, formId).value.forms[formId].groups;
    FetchFromExact(f.groups, 0, s.groups, f.groups, groups);
    forall j | 0 <= j < |f.groups|
      ensures groups[j].participants == f.groups[j].participants + FreshTrackers(Missing(s.groups, f.groups[j]))
    {
      assert RefreshedAt(f.groups, s.groups, f.groups, groups, j);
    }
  }

  /** In a valid store and without duplicate ids, a refresh appends to each
      tracking group one fresh tracker for every roster email it does not
      track yet, in roster order, and nothing else. */
  lemma FetchMembersAppendsUntracked(users: Users, s: Store, email: Email, formId: Guid)
    requires Valid(s) && FetchMembers(users, s, email, formId).Ok?
    requires UniqueGroupIds(s.forms[formId].groups)
    ensures var f, f' := s.forms[formId], FetchMembers(users, s, email, formId).value.forms[formId];
            forall j :: 0 <= j < |f.groups| ==>
              && f.groups[j].groupId in s.groups
              && f'.groups[j].participants ==
                   f.groups[j].participants
                   + FreshTrackers(Filter(s.groups[f.groups[j].groupId].members, Emails(f.groups[j].participants), false))
  {
    var f := s.forms[formId];
    FetchMembersExact(users, s, email, formId);
    forall j | 0 <= j < |f.groups|
      ensures f.groups[j].groupId in s.groups
      ensures Missing(s.groups, f.groups[j])
                == Filter(s.groups[f.groups[j].groupId].members, Emails(f.groups[j].participants), false)
    {
      assert f.groups[j] in f.groups;
      MissingInRosterOrder(s, f.groups[j]);
    }
  }

  /** `$pullAll` of `pulled` from the participants of the first tracking
      group for `groupId`: trackers equal to one of them, that is unseen and
      unfilled ones for those emails, go. */
  function PullFromGroup(f: Form, groupId: Guid, pulled: seq<Tracker>): (f': Form)
    ensures f' == f.(groups := f'.groups)
    ensures |f'.groups| == |f.groups|
    ensures forall g :: 0 <= g < |f.groups| ==>
              f'.groups[g].groupId == f.groups[g].groupId && f'.groups[g].groupName == f.groups[g].groupName
    ensures forall g :: 0 <= g < |f.groups| ==>
              f'.groups[g].participants ==
                if FirstGroup(f.groups, groupId) == Some(g) then Filter(f.groups[g].participants, pulled, false)
                else f.groups[g].participants
    ensures pulled == [] ==> f' == f
  {
    match FirstGroup(f.groups, groupId)
    case None => f
    case Some(i) =>
      var tg := f.groups[i];
      if pulled == [] then
        FilterAbsent(tg.participants, pulled);
        assert f.groups[i := tg] == f.groups;
        f
      else f.(groups := f.groups[i := tg.(participants := Filter(tg.participants, pulled, false))])
  }

  /** `PullFromGroup` applied to every form of the store. */
  function PullFromAll(forms: map<Guid, Form>, groupId: Guid, pulled: seq<Tracker>): map<Guid, Form>
  {
    map k | k in forms :: PullFromGroup(forms[k], groupId, pulled)
  }

  /** What a pull does to each form: its first tracking group for the id
      loses exactly the trackers equal to a pulled one, keeping the others in
      order, and every other tracking group and field stays. */
  lemma PullFromAllEffect(forms: map<Guid, Form>, groupId: Guid, pulled: seq<Tracker>, k: Guid)
    requires k in forms
    ensures k in PullFromAll(forms, groupId, pulled)
    ensures var f, f' := forms[k], PullFromAll(forms, groupId, pulled)[k];
            && f' == f.(groups := f'.groups)
            && |f'.groups| == |f.groups|
            && (forall g :: 0 <= g < |f.groups| && FirstGroup(f.groups, groupId) != Some(g) ==>
                  f'.groups[g] == f.groups[g])
            && (forall g, t :: 0 <= g < |f.groups| ==>
                  (t in f'.groups[g].participants <==>
                     t in f.groups[g].participants && (FirstGroup(f.groups, groupId) == Some(g) ==> t !in pulled)))
  {
    var f, f' := forms[k], PullFromAll(forms, groupId, pulled)[k];
    forall g | 0 <= g < |f.groups| && FirstGroup(f.groups, groupId) != Some(g) ensures f'.groups[g] == f.groups[g] {
      assert f'.groups[g].participants == f.groups[g].participants;
    }
  }

  /** The form tracks the group, but its first tracking group for it holds
      none of the trackers to pull: the update modifies nothing. */
  predicate NothingToPull(f: Form, groupId: Guid, pulled: seq<Tracker>) {
    match FirstGroup(f.groups, groupId)
    case None => false
    case Some(i) => forall t :: t in f.groups[i].participants ==> t !in pulled
  }

  /** Some form of the store has nothing to pull. */
  predicate Stuck(forms: map<Guid, Form>, groupId: Guid, pulled: seq<Tracker>) {
    exists k :: k in forms && NothingToPull(forms[k], groupId, pulled)
  }

  /** `$pullAll` of `removed` from the roster. */
  function PullFromRoster(g: Group, removed: seq<Email>): (g': Group)
    ensures g' == g.(members := g'.members)
    ensures forall e :: e in g'.members <==> e in g.members && e !in removed
    ensures NoDuplicates(g.members) ==> NoDuplicates(g'.members)
    ensures g'.members == Filter(g.members, removed, false)
  {
    if NoDuplicates(g.members) then
      FilterKeepsDistinct(g.members, removed, false);
      g.(members := Filter(g.members, removed, false))
    else g.(members := Filter(g.members, removed, false))
  }

  /** `DeleteMemberFromGroup`: the creator removes `participants` from the
      roster. Requested emails not on the roster are dropped; the rest leave
      the roster, and their unseen, unfilled trackers leave the first
      tracking group for the group in every form that tracks it. A form
      where that pulls nothing fails the call. */
  function DeleteMemberFromGroup(users: Users, s: Store, email: Email, participants: seq<Email>, groupId: Guid)
    : (r: Result<Store>)
    ensures email !in users ==> r == Err(UserNotFound)
    ensures email in users && groupId !in s.groups ==> r == Err(GroupNotFound)
    ensures email in users && groupId in s.groups && s.groups[groupId].creator != users[email] ==>
              r == Err(NotAuthorisedToEditGroup)
    ensures email in users && groupId in s.groups && s.groups[groupId].creator == users[email] ==>
              var removed := Filter(participants, s.groups[groupId].members, true);
              && (removed == [] ==> r == Ok(s))
              && (r.Err? <==>
                    (removed != [] && Stuck(s.forms, groupId, FreshTrackers(removed))))
              && (r.Err? ==> r.error == MembersNotAdded)
    ensures r.Ok? ==> && r.value.urls == s.urls
                      && r.value.forms.Keys == s.forms.Keys
                      && groupId in r.value.groups
                      && r.value.groups == s.groups[groupId := r.value.groups[groupId]]
    ensures r.Ok? ==>
              var g, g' := s.groups[groupId], r.value.groups[groupId];
              var removed := Filter(participants, g.members, true);
              && g' == g.(members := g'.members)
              && (forall e :: e in g'.members <==> e in g.members && e !in participants)
              && g'.members == Filter(g.members, participants, false)
              && (NoDuplicates(g.members) ==> NoDuplicates(g'.members))
              && r.value.forms == PullFromAll(s.forms, groupId, FreshTrackers(removed))
  {
    if email !in users then Err(UserNotFound)
    else if groupId !in s.groups then Err(GroupNotFound)
    else
      var g := s.groups[groupId];
      if g.creator != users[email] then Err(NotAuthorisedToEditGroup)
      else
        var removed := RemoveEach(participants, Filter(participants, g.members, false));
        RemoveCollected(participants, g.members, false);
        FilterAgrees(g.members, removed, participants, false);
        if removed == [] then
          assert PullFromAll(s.forms, groupId, FreshTrackers(removed)) == s.forms;
          FilterAbsent(g.members, participants);
          Ok(s)
        else
          var pulled := FreshTrackers(removed);
          if Stuck(s.forms, groupId, pulled) then Err(MembersNotAdded)
          else Ok(Store(PullFromAll(s.forms, groupId, pulled), s.urls, s.groups[groupId := PullFromRoster(g, removed)]))
  }
}
