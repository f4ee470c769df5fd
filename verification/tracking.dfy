/** Locating and updating trackers inside a form's list of tracking groups.
    Trackers have no key of their own: the services address them by
    (group index, tracker index), found by scanning for the first match. */
module Tracking {
  import opened Results
  import opened Lists
  import opened Models

  /** A tracker's address: the group's index and the tracker's index in it. */
  datatype Position = Position(group: nat, tracker: nat)

  predicate ValidPosition(groups: seq<TrackingGroup>, p: Position) {
    p.group < |groups| && p.tracker < |groups[p.group].participants|
  }

  /** `Participants.Find(a => a.Email == email)` followed by `IndexOf`: the
      index of the first tracker with that email. */
  function FirstTracker(ts: seq<Tracker>, email: Email): (r: Option<nat>)
    ensures r.Some? ==> r.value < |ts| && ts[r.value].email == email
    ensures r.Some? ==> forall j :: 0 <= j < r.value ==> ts[j].email != email
    ensures r.None? <==> email !in Emails(ts)
  {
    if ts == [] then None
    else if ts[0].email == email then Some(0)
    else match FirstTracker(ts[1..], email)
      case None =>
        assert Emails(ts) == [ts[0].email] + Emails(ts[1..]);
        None
      case Some(j) => Some(j + 1)
  }

  /** The scan `AddResponse` and `ViewForm` perform: groups in order, and in
      the first group that lists the email, its first tracker with it. */
  function Locate(groups: seq<TrackingGroup>, email: Email): (r: Option<Position>)
    ensures r.Some? ==> ValidPosition(groups, r.value)
    ensures r.Some? ==> FirstTracker(groups[r.value.group].participants, email) == Some(r.value.tracker)
    ensures r.Some? ==> forall g :: 0 <= g < r.value.group ==> email !in Emails(groups[g].participants)
    ensures r.None? <==> forall g :: 0 <= g < |groups| ==> email !in Emails(groups[g].participants)
  {
    if groups == [] then None
    else match FirstTracker(groups[0].participants, email)
      case Some(t) => Some(Position(0, t))
      case None =>
        match Locate(groups[1..], email)
        case None => None
        case Some(p) => Some(Position(p.group + 1, p.tracker))
  }

  /** Two group lists with the same shape and the same emails at every
      position: the scan cannot tell them apart. */
  predicate SameEmails(groups: seq<TrackingGroup>, groups': seq<TrackingGroup>) {
    && |groups| == |groups'|
    && forall g :: 0 <= g < |groups| ==> Emails(groups[g].participants) == Emails(groups'[g].participants)
  }

  /** The scan reads the tracker emails and nothing else. */
  lemma {:induction false} LocateReadsOnlyEmails(groups: seq<TrackingGroup>, groups': seq<TrackingGroup>, email: Email)
    requires SameEmails(groups, groups')
    ensures Locate(groups, email) == Locate(groups', email)
    decreases |groups|
  {
    if groups != [] {
      FirstTrackerReadsOnlyEmails(groups[0].participants, groups'[0].participants, email);
      assert SameEmails(groups[1..], groups'[1..]) by {
        forall g | 0 <= g < |groups| - 1
          ensures Emails(groups[1..][g].participants) == Emails(groups'[1..][g].participants)
        {
          assert groups[1..][g] == groups[g + 1] && groups'[1..][g] == groups'[g + 1];
        }
      }
      LocateReadsOnlyEmails(groups[1..], groups'[1..], email);
    }
  }

  lemma {:induction false} FirstTrackerReadsOnlyEmails(ts: seq<Tracker>, ts': seq<Tracker>, email: Email)
    requires Emails(ts) == Emails(ts')
    ensures FirstTracker(ts, email) == FirstTracker(ts', email)
    decreases |ts|
  {
    if ts != [] {
      assert ts[0].email == Emails(ts)[0] == ts'[0].email;
      assert Emails(ts[1..]) == Emails(ts)[1..] == Emails(ts')[1..] == Emails(ts'[1..]);
      FirstTrackerReadsOnlyEmails(ts[1..], ts'[1..], email);
    }
  }

  /** The group list with the tracker at `p` replaced by `t`. */
  function SetTracker(groups: seq<TrackingGroup>, p: Position, t: Tracker): (r: seq<TrackingGroup>)
    requires ValidPosition(groups, p)
    ensures |r| == |groups|
    ensures forall g :: 0 <= g < |r| ==>
              r[g].groupId == groups[g].groupId && r[g].groupName == groups[g].groupName
              && |r[g].participants| == |groups[g].participants|
    ensures forall g, i :: 0 <= g < |r| && 0 <= i < |r[g].participants| ==>
              r[g].participants[i] == if Position(g, i) == p then t else groups[g].participants[i]
  {
    var tg := groups[p.group];
    groups[p.group := tg.(participants := tg.participants[p.tracker := t])]
  }

  /** `Set(Group[gi].Participants[ti].Filled, true)`. */
  function MarkFilled(groups: seq<TrackingGroup>, p: Position): seq<TrackingGroup>
    requires ValidPosition(groups, p)
  {
    SetTracker(groups, p, groups[p.group].participants[p.tracker].(filled := true))
  }

  /** `Set(Group[gi].Participants[ti].Seen, true)`. */
  function MarkSeen(groups: seq<TrackingGroup>, p: Position): seq<TrackingGroup>
    requires ValidPosition(groups, p)
  {
    SetTracker(groups, p, groups[p.group].participants[p.tracker].(seen := true))
  }

  /** Marking a tracker seen a second time changes nothing. */
  lemma MarkSeenTwice(groups: seq<TrackingGroup>, p: Position)
    requires ValidPosition(groups, p)
    ensures MarkSeen(MarkSeen(groups, p), p) == MarkSeen(groups, p)
  {
    var once := MarkSeen(groups, p);
    var tg := once[p.group];
    assert tg.participants[p.tracker := tg.participants[p.tracker]] == tg.participants;
    assert once[p.group := tg] == once;
  }

  /** The two lists differ at most in the tracker at `p`; every group keeps
      its id, name and length. */
  predicate OnlyTrackerChanged(groups: seq<TrackingGroup>, groups': seq<TrackingGroup>, p: Position) {
    && |groups'| == |groups|
    && (forall g :: 0 <= g < |groups| ==>
          groups'[g].groupId == groups[g].groupId && groups'[g].groupName == groups[g].groupName
          && |groups'[g].participants| == |groups[g].participants|)
    && (forall g, i :: 0 <= g < |groups| && 0 <= i < |groups[g].participants| && Position(g, i) != p ==>
          groups'[g].participants[i] == groups[g].participants[i])
  }

  /** Flag-only updates keep every email where it was. */
  lemma SetTrackerKeepsEmails(groups: seq<TrackingGroup>, p: Position, t: Tracker)
    requires ValidPosition(groups, p)
    requires t.email == groups[p.group].participants[p.tracker].email
    ensures SameEmails(groups, SetTracker(groups, p, t))
  {
    var r := SetTracker(groups, p, t);
    forall g | 0 <= g < |groups| ensures Emails(groups[g].participants) == Emails(r[g].participants) {
    }
  }

  /** Index of the first tracking group for `groupId` (`Group.Find` then
      `IndexOf`). That it is the first, and that it is found whenever the id
      is tracked, is `FirstGroupFinds`. */
  function FirstGroup(groups: seq<TrackingGroup>, groupId: Guid): (r: Option<nat>)
    ensures r.Some? ==> r.value < |groups| && groups[r.value].groupId == groupId
  {
    FirstGroupFrom(groups, groupId, 0)
  }

  /** The scan of `FirstGroup` from index `k` on. */
  function FirstGroupFrom(groups: seq<TrackingGroup>, groupId: Guid, k: nat): (r: Option<nat>)
    requires k <= |groups|
    ensures r.Some? ==> k <= r.value < |groups| && groups[r.value].groupId == groupId
    decreases |groups| - k
  {
    if k == |groups| then None
    else if groups[k].groupId == groupId then Some(k)
    else FirstGroupFrom(groups, groupId, k + 1)
  }

  /** Every tracking group with the id is found, at or after the one returned:
      with the bound above, `FirstGroup` is the least index with that id, and
      `None` exactly when no group has it. */
  lemma FirstGroupFinds(groups: seq<TrackingGroup>, groupId: Guid, i: nat)
    requires i < |groups| && groups[i].groupId == groupId
    ensures FirstGroup(groups, groupId).Some? && FirstGroup(groups, groupId).value <= i
  {
    FirstGroupFromFinds(groups, groupId, 0, i);
  }

  lemma {:induction false} FirstGroupFromFinds(groups: seq<TrackingGroup>, groupId: Guid, k: nat, i: nat)
    requires k <= i < |groups| && groups[i].groupId == groupId
    ensures FirstGroupFrom(groups, groupId, k).Some? && FirstGroupFrom(groups, groupId, k).value <= i
    decreases |groups| - k
  {
    if groups[k].groupId != groupId { FirstGroupFromFinds(groups, groupId, k + 1, i); }
  }

  predicate TracksGroup(groups: seq<TrackingGroup>, groupId: Guid) {
    exists g :: 0 <= g < |groups| && groups[g].groupId == groupId
  }

  /** At most one tracking group per group id: each is the first with its
      id. The store does not enforce this: `$addToSet` compares whole
      tracking groups, not ids. */
  predicate UniqueGroupIds(groups: seq<TrackingGroup>) {
    forall i :: 0 <= i < |groups| ==> IsFirstOfId(groups, i)
  }

  predicate IsFirstOfId(groups: seq<TrackingGroup>, i: nat)
    requires i < |groups|
  {
    FirstGroup(groups, groups[i].groupId) == Some(i)
  }

  /** `$push` with `$each` onto the participants of the group at index `g`. */
  function AppendTrackers(groups: seq<TrackingGroup>, g: nat, ts: seq<Tracker>): (r: seq<TrackingGroup>)
    requires g < |groups|
    ensures |r| == |groups|
    ensures r[g].participants == groups[g].participants + ts
    ensures forall h :: 0 <= h < |r| ==> r[h].groupId == groups[h].groupId && r[h].groupName == groups[h].groupName
    ensures forall h :: 0 <= h < |r| && h != g ==> r[h] == groups[h]
  {
    groups[g := groups[g].(participants := groups[g].participants + ts)]
  }

  /** `PullFilter(Group, a => a.GroupId == groupId)`: every tracking group
      for that id goes, the others stay in order. */
  function WithoutGroup(groups: seq<TrackingGroup>, groupId: Guid): (r: seq<TrackingGroup>)
    ensures forall tg :: tg in r <==> tg in groups && tg.groupId != groupId
    ensures |r| <= |groups|
    ensures |r| == |groups| <==> !TracksGroup(groups, groupId)
    ensures !TracksGroup(r, groupId)
  {
    if groups == [] then []
    else
      var rest := WithoutGroup(groups[1..], groupId);
      assert TracksGroup(groups, groupId) <==> groups[0].groupId == groupId || TracksGroup(groups[1..], groupId) by {
        if TracksGroup(groups[1..], groupId) {
          var g :| 0 <= g < |groups[1..]| && groups[1..][g].groupId == groupId;
          assert groups[g + 1].groupId == groupId;
        }
        if TracksGroup(groups, groupId) && groups[0].groupId != groupId {
          var g :| 0 <= g < |groups| && groups[g].groupId == groupId;
          assert groups[1..][g - 1].groupId == groupId;
        }
      }
      var r := if groups[0].groupId == groupId then rest else [groups[0]] + rest;
      assert forall i :: 0 <= i < |r| ==> r[i] in r;
      r
  }

  /** Pulling an id no tracking group has leaves the list as it was. */
  lemma {:induction false} WithoutUntracked(groups: seq<TrackingGroup>, groupId: Guid)
    requires !TracksGroup(groups, groupId)
    ensures WithoutGroup(groups, groupId) == groups
    decreases |groups|
  {
    if groups != [] {
      assert !TracksGroup(groups[1..], groupId) by {
        forall g | 0 <= g < |groups| - 1 ensures groups[1..][g].groupId != groupId {
          assert groups[1..][g] == groups[g + 1];
        }
      }
      WithoutUntracked(groups[1..], groupId);
      assert groups[0].groupId != groupId;
    }
  }

  /** `PullFilter` of one group id distributes over appending one more
      tracking group. With `WithoutGroup([], id) == []` this pins the result
      down completely: the remaining groups keep their order and every
      occurrence. */
  lemma {:induction false} WithoutGroupAppend(groups: seq<TrackingGroup>, tg: TrackingGroup, groupId: Guid)
    ensures WithoutGroup(groups + [tg], groupId)
            == WithoutGroup(groups, groupId) + (if tg.groupId == groupId then [] else [tg])
    decreases |groups|
  {
    if groups == [] {
      assert [tg][1..] == [];
    } else {
      assert (groups + [tg])[1..] == groups[1..] + [tg];
      WithoutGroupAppend(groups[1..], tg, groupId);
    }
  }

  /** Counted with repeats, a tracking group with another id keeps all its
      occurrences and one with the pulled id loses all of them. */
  lemma {:induction false} WithoutGroupCounts(groups: seq<TrackingGroup>, groupId: Guid, tg: TrackingGroup)
    ensures multiset(WithoutGroup(groups, groupId))[tg] == if tg.groupId == groupId then 0 else multiset(groups)[tg]
    decreases |groups|
  {
    if groups != [] {
      assert groups == [groups[0]] + groups[1..];
      WithoutGroupCounts(groups[1..], groupId, tg);
    }
  }

  /** `$addToSet`: appends the group unless an identical one (same name, id
      and trackers) is already there. */
  function AddGroupToSet(groups: seq<TrackingGroup>, tg: TrackingGroup): (r: seq<TrackingGroup>)
    ensures tg in r
    ensures forall x :: x in r <==> x in groups || x == tg
    ensures |r| == if tg in groups then |groups| else |groups| + 1
    ensures r[..|groups|] == groups
  {
    if tg in groups then groups else groups + [tg]
  }
}
