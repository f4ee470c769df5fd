/** What the roster calls promise across calls: roster edits repeated with
    the same request change nothing; trackers already present keep their
    place and flags; removing members spares trackers that were seen or
    filled; refreshing a form from the rosters is idempotent exactly when no
    two of its tracking groups share an id; and every call keeps the store
    valid. */
module GroupProperties {
  import opened Results
  import opened Lists
  import opened Models
  import opened Tracking
  import opened Store
  import opened Messages
  import opened FormService
  import opened GroupService

  /** Nothing of `xs` lies outside `ys`. */
  lemma FilterOutsideEmpty<T(!new)>(xs: seq<T>, ys: seq<T>)
    requires forall x :: x in xs ==> x in ys
    ensures Filter(xs, ys, false) == []
  {
  }

  /** Nothing of `xs` lies inside `ys`. */
  lemma FilterInsideEmpty<T(!new)>(xs: seq<T>, ys: seq<T>)
    requires forall x :: x in xs ==> x !in ys
    ensures Filter(xs, ys, true) == []
  {
  }

  lemma AddGroupKeepsValid(users: Users, s: Store, email: Email, name: string, description: string,
                           participants: Option<seq<Email>>, groupId: Guid, link: Guid, now: Instant)
    requires Valid(s) && groupId !in s.groups
    ensures AddGroup(users, s, email, name, description, participants, groupId, link, now).Ok? ==>
              Valid(AddGroup(users, s, email, name, description, participants, groupId, link, now).value)
  {
  }

  /** Deleting a group keeps the store valid, and afterwards the group can
      no longer be attached to any form. */
  lemma DeleteGroupKeepsValid(users: Users, s: Store, email: Email, groupId: Guid, formId: Guid)
    requires Valid(s)
    requires DeleteGroup(users, s, email, groupId).Ok?
    ensures Valid(DeleteGroup(users, s, email, groupId).value)
    ensures groupId !in DeleteGroup(users, s, email, groupId).value.groups
  {
    var s' := DeleteGroup(users, s, email, groupId).value;
    forall k | k in s'.forms
      ensures s'.forms[k].meta == s.forms[k].meta
    {
      assert s'.forms[k] == s.forms[k].(groups := s'.forms[k].groups);
    }
  }

  /** Adding members appends trackers and never touches the ones already
      there: every form's tracking groups are extended, each old tracker
      keeping its position and its `Seen`/`Filled` flags. */
  lemma AddMemberKeepsTrackers(users: Users, s: Store, email: Email, participants: seq<Email>, groupId: Guid)
    requires AddMemberToGroup(users, s, email, participants, groupId).Ok?
    ensures var s' := AddMemberToGroup(users, s, email, participants, groupId).value;
            forall k :: k in s.forms ==> Extends(s.forms[k].groups, s'.forms[k].groups)
  {
    var s' := AddMemberToGroup(users, s, email, participants, groupId).value;
    var added := Filter(participants, s.groups[groupId].members, false);
    forall k | k in s.forms ensures Extends(s.forms[k].groups, s'.forms[k].groups) {
      var f := s.forms[k];
      assert s'.forms[k] == PushToGroup(f, groupId, FreshTrackers(added));
      match FirstGroup(f.groups, groupId)
      case None =>
        ExtendsReflexive(f.groups);
      case Some(i) =>
        AppendExtends(f.groups, i, added);
        assert s'.forms[k].groups == AppendTrackers(f.groups, i, FreshTrackers(added));
    }
  }

  /** Repeating a member addition changes nothing: every requested email is
      on the roster by then. */
  lemma AddMemberToGroupTwice(users: Users, s: Store, email: Email, participants: seq<Email>, groupId: Guid)
    requires AddMemberToGroup(users, s, email, participants, groupId).Ok?
    ensures var s' := AddMemberToGroup(users, s, email, participants, groupId).value;
            AddMemberToGroup(users, s', email, participants, groupId) == Ok(s')
  {
    var s' := AddMemberToGroup(users, s, email, participants, groupId).value;
    FilterOutsideEmpty(participants, s'.groups[groupId].members);
  }

  /** An email requested twice, and not yet on the roster, joins the roster
      once but gets two trackers in every form tracking the group. */
  lemma RepeatedRequestTracksTwice(users: Users, s: Store, email: Email, e: Email, groupId: Guid)
    requires AddMemberToGroup(users, s, email, [e, e], groupId).Ok?
    requires e !in s.groups[groupId].members
    ensures var s' := AddMemberToGroup(users, s, email, [e, e], groupId).value;
            && e in s'.groups[groupId].members
            && forall k :: k in s.forms ==>
                 s'.forms[k] == PushToGroup(s.forms[k], groupId, [FreshTracker(e), FreshTracker(e)])
  {
    var roster := s.groups[groupId].members;
    assert Filter([e, e], roster, false) == [e, e] by {
      assert [e, e][1..] == [e];
      assert [e][1..] == [];
    }
    var ts := [FreshTracker(e), FreshTracker(e)];
    assert FreshTrackers([e, e]) == ts;
    var forms' := AddMemberToGroup(users, s, email, [e, e], groupId).value.forms;
    assert forms' == PushAll(s.forms, groupId, ts);
    forall k | k in s.forms ensures forms'[k] == PushToGroup(s.forms[k], groupId, ts) {
    }
  }

  lemma AddMemberKeepsValid(users: Users, s: Store, email: Email, participants: seq<Email>, groupId: Guid)
    requires Valid(s)
    requires AddMemberToGroup(users, s, email, participants, groupId).Ok?
    ensures Valid(AddMemberToGroup(users, s, email, participants, groupId).value)
  {
    var s' := AddMemberToGroup(users, s, email, participants, groupId).value;
    forall k | k in s'.forms
      ensures s'.forms[k].meta == s.forms[k].meta
    {
      var added := Filter(participants, s.groups[groupId].members, false);
      assert s'.forms[k] == PushToGroup(s.forms[k], groupId, FreshTrackers(added));
    }
  }

  /** After a refresh a tracking group lacks no roster email, so a second
      refresh finds nothing missing for it. */
  lemma NothingMissingAfterFetch(rosters: map<Guid, Group>, tg: TrackingGroup, tg': TrackingGroup)
    requires tg.groupId in rosters && tg'.groupId == tg.groupId
    requires tg'.participants == tg.participants + FreshTrackers(Missing(rosters, tg))
    ensures Missing(rosters, tg') == []
  {
    var roster := multiset(rosters[tg.groupId].members);
    var tracked := multiset(Emails(tg.participants));
    var m := Missing(rosters, tg);
    MissingCounts(rosters, tg);
    MissingCounts(rosters, tg');
    EmailsAppend(tg.participants, FreshTrackers(m));
    EmailsOfFresh(m);
    assert multiset(Emails(tg'.participants)) == tracked + multiset(m);
    var m' := Missing(rosters, tg');
    assert multiset(m') == roster - (tracked + (roster - tracked));
    assert multiset(m') == multiset{} by {
      forall x ensures multiset(m')[x] == 0 { }
    }
  }

  /** A second exact refresh of refreshed groups appends nothing. */
  lemma RefreshStable(rosters: map<Guid, Group>, g0: seq<TrackingGroup>, g1: seq<TrackingGroup>, g2: seq<TrackingGroup>)
    requires Extends(g0, g1) && Extends(g1, g2)
    requires forall j :: 0 <= j < |g0| ==> g0[j].groupId in rosters
    requires forall j :: 0 <= j < |g0| ==> g1[j].participants == g0[j].participants + FreshTrackers(Missing(rosters, g0[j]))
    requires forall j :: 0 <= j < |g1| ==> g2[j].participants == g1[j].participants + FreshTrackers(Missing(rosters, g1[j]))
    ensures g2 == g1
  {
    forall j | 0 <= j < |g1| ensures g2[j] == g1[j] {
      NothingMissingAfterFetch(rosters, g0[j], g1[j]);
      assert g2[j].participants == g1[j].participants + [];
    }
  }

  /** A refreshed form can be refreshed again: its tracking groups still
      name existing groups and its creator is unchanged. */
  lemma RefetchSucceeds(users: Users, s: Store, email: Email, formId: Guid)
    requires FetchMembers(users, s, email, formId).Ok?
    ensures FetchMembers(users, FetchMembers(users, s, email, formId).value, email, formId).Ok?
  {
    var s1 := FetchMembers(users, s, email, formId).value;
    FetchMembersExtends(users, s, email, formId);
    assert forall j :: 0 <= j < |s1.forms[formId].groups| ==> s1.forms[formId].groups[j].groupId in s1.groups;
  }

  /** ... and the second refresh leaves the tracking groups as they were. */
  lemma RefetchKeepsGroups(users: Users, s: Store, email: Email, formId: Guid)
    requires FetchMembers(users, s, email, formId).Ok?
    requires UniqueGroupIds(s.forms[formId].groups)
    requires FetchMembers(users, FetchMembers(users, s, email, formId).value, email, formId).Ok?
    ensures var s1 := FetchMembers(users, s, email, formId).value;
            FetchMembers(users, s1, email, formId).value.forms[formId].groups == s1.forms[formId].groups
  {
    var s1 := FetchMembers(users, s, email, formId).value;
    var f, f1 := s.forms[formId], s1.forms[formId];
    FetchMembersExtends(users, s, email, formId);
    FetchMembersExact(users, s, email, formId);
    assert SameIds(f.groups, f1.groups);
    UniqueGroupIdsReadsOnlyIds(f.groups, f1.groups);
    var f2 := FetchMembers(users, s1, email, formId).value.forms[formId];
    FetchMembersExtends(users, s1, email, formId);
    FetchMembersExact(users, s1, email, formId);
    RefreshStable(s.groups, f.groups, f1.groups, f2.groups);
  }

  /** With no two tracking groups sharing an id, refreshing a form a second
      time changes nothing. */
  lemma FetchMembersIdempotent(users: Users, s: Store, email: Email, formId: Guid)
    requires FetchMembers(users, s, email, formId).Ok?
    requires UniqueGroupIds(s.forms[formId].groups)
    ensures var s1 := FetchMembers(users, s, email, formId).value;
            FetchMembers(users, s1, email, formId) == Ok(s1)
  {
    var s1 := FetchMembers(users, s, email, formId).value;
    RefetchSucceeds(users, s, email, formId);
    RefetchKeepsGroups(users, s, email, formId);
    var s2 := FetchMembers(users, s1, email, formId).value;
    assert s2.forms[formId] == s1.forms[formId];
    assert s1.forms[formId := s1.forms[formId]] == s1.forms;
  }

  /** The form of the example below: two tracking groups for group 7, the
      first already tracking "x", the second empty. */
  function DuplicatedForm(): Form {
    NewForm(10, 11, 1, 12, 0).(groups := [TrackingGroup("team", 7, [FreshTracker("x")]), TrackingGroup("team", 7, [])])
  }

  function DuplicatedStore(): Store {
    Store(map[10 := DuplicatedForm()], map[11 := 10], map[7 := Group(7, 1, "team", "Personal", None, "", ["x"], 0)])
  }

  /** One refresh of the two tracking groups of the example, the first of
      which already tracks "x": the second lacks "x", so a fresh tracker for
      it goes to the first. */
  lemma RefreshDuplicated(rosters: map<Guid, Group>, ts: seq<Tracker>)
    requires rosters == DuplicatedStore().groups
    requires "x" in Emails(ts)
    ensures var all := [TrackingGroup("team", 7, ts), TrackingGroup("team", 7, [])];
            FetchFrom(all, 0, rosters, all) == Ok([TrackingGroup("team", 7, ts + [FreshTracker("x")]), all[1]])
  {
    var all := [TrackingGroup("team", 7, ts), TrackingGroup("team", 7, [])];
    assert Missing(rosters, all[0]) == [] by {
      MissingCounts(rosters, all[0]);
      assert multiset(Emails(ts))["x"] > 0;
    }
    assert Missing(rosters, all[1]) == ["x"] by {
      assert Emails(all[1].participants) == [];
    }
    assert FreshTrackers(["x"]) == [FreshTracker("x")];
    var p0 := PushMissing(all, 0, rosters, all);
    assert p0 == all;
    assert FirstGroup(all, all[1].groupId) == Some(0);
    var p1 := PushMissing(all, 1, rosters, p0);
    PushMissingParticipants(all, 1, rosters, p0);
    assert p1[0] == TrackingGroup("team", 7, ts + [FreshTracker("x")]) && p1[1] == all[1];
    assert p1 == [TrackingGroup("team", 7, ts + [FreshTracker("x")]), all[1]];
    assert FetchFrom(all, 2, rosters, p1) == Ok(p1);
    assert FetchFrom(all, 1, rosters, p0) == Ok(p1);
    assert FetchFrom(all, 0, rosters, all) == Ok(p1);
  }

  /** With two tracking groups for the same group, every refresh pushes the
      second one's missing email into the first again: the first tracking
      group grows from one tracker for "x" to two, then to three. */
  lemma FetchMembersRepeatsWithDuplicates()
    ensures FetchMembers(map["owner" := 1], DuplicatedStore(), "owner", 10).Ok?
    ensures var s1 := FetchMembers(map["owner" := 1], DuplicatedStore(), "owner", 10).value;
            && FetchMembers(map["owner" := 1], s1, "owner", 10).Ok?
            && FetchMembers(map["owner" := 1], s1, "owner", 10) != Ok(s1)
  {
    var users: Users := map["owner" := 1];
    var s := DuplicatedStore();
    var x := FreshTracker("x");
    assert Emails([x]) == ["x"];
    RefreshDuplicated(s.groups, [x]);
    assert s.forms[10].groups == [TrackingGroup("team", 7, [x]), TrackingGroup("team", 7, [])];
    assert [x] + [x] == [x, x];
    var s1 := FetchMembers(users, s, "owner", 10).value;
    assert s1.forms[10].groups == [TrackingGroup("team", 7, [x, x]), TrackingGroup("team", 7, [])];
    assert Emails([x, x]) == ["x", "x"];
    RefreshDuplicated(s1.groups, [x, x]);
    assert [x, x] + [x] == [x, x, x];
    var s2 := FetchMembers(users, s1, "owner", 10).value;
    assert s2.forms[10].groups[0].participants == [x, x, x];
  }

  lemma FetchMembersKeepsValid(users: Users, s: Store, email: Email, formId: Guid)
    requires Valid(s)
    requires FetchMembers(users, s, email, formId).Ok?
    ensures Valid(FetchMembers(users, s, email, formId).value)
  {
  }

  /** Removing members pulls only untouched trackers: a tracker that was
      seen or filled, or whose email was not asked to be removed, stays. */
  lemma DeleteMemberKeepsResponders(users: Users, s: Store, email: Email, participants: seq<Email>, groupId: Guid,
                                    k: Guid, g: nat, t: Tracker)
    requires DeleteMemberFromGroup(users, s, email, participants, groupId).Ok?
    requires k in s.forms && g < |s.forms[k].groups| && t in s.forms[k].groups[g].participants
    requires t.seen || t.filled || t.email !in participants
    ensures var s' := DeleteMemberFromGroup(users, s, email, participants, groupId).value;
            t in s'.forms[k].groups[g].participants
  {
    var removed := Filter(participants, s.groups[groupId].members, true);
    InFreshTrackers(removed, t);
  }

  /** ... and in the first tracking group for the group, no untouched
      tracker for a removed email is left. */
  lemma DeleteMemberPullsUntouched(users: Users, s: Store, email: Email, participants: seq<Email>, groupId: Guid,
                                   k: Guid, i: nat, e: Email)
    requires DeleteMemberFromGroup(users, s, email, participants, groupId).Ok?
    requires k in s.forms && FirstGroup(s.forms[k].groups, groupId) == Some(i)
    requires e in participants && e in s.groups[groupId].members
    ensures var s' := DeleteMemberFromGroup(users, s, email, participants, groupId).value;
            FreshTracker(e) !in s'.forms[k].groups[i].participants
  {
    var removed := Filter(participants, s.groups[groupId].members, true);
    InFreshTrackers(removed, FreshTracker(e));
  }

  /** Repeating a member removal changes nothing: none of the requested
      emails is on the roster any more. */
  lemma DeleteMemberFromGroupTwice(users: Users, s: Store, email: Email, participants: seq<Email>, groupId: Guid)
    requires DeleteMemberFromGroup(users, s, email, participants, groupId).Ok?
    ensures var s' := DeleteMemberFromGroup(users, s, email, participants, groupId).value;
            DeleteMemberFromGroup(users, s', email, participants, groupId) == Ok(s')
  {
    var s' := DeleteMemberFromGroup(users, s, email, participants, groupId).value;
    FilterInsideEmpty(participants, s'.groups[groupId].members);
  }

  lemma DeleteMemberKeepsValid(users: Users, s: Store, email: Email, participants: seq<Email>, groupId: Guid)
    requires Valid(s)
    requires DeleteMemberFromGroup(users, s, email, participants, groupId).Ok?
    ensures Valid(DeleteMemberFromGroup(users, s, email, participants, groupId).value)
  {
    var s' := DeleteMemberFromGroup(users, s, email, participants, groupId).value;
    var removed := Filter(participants, s.groups[groupId].members, true);
    forall k | k in s'.forms
      ensures s'.forms[k].meta == s.forms[k].meta
    {
      assert s'.forms[k] == PullFromGroup(s.forms[k], groupId, FreshTrackers(removed));
    }
  }
}
