/** What the form-side calls promise across calls: admission depends on the
    closed switch, the gating flags and the tracker emails alone; views,
    metadata edits and attaching a group are idempotent; settings are
    last-writer-wins; detaching undoes attaching; and every call keeps the
    store valid. */
module FormProperties {
  import opened Results
  import opened Lists
  import opened Models
  import opened Tracking
  import opened Store
  import opened Messages
  import opened FormService

  /** A form just created is open to every registered caller, who responds
      and views it anonymously. */
  lemma NewFormIsOpen(users: Users, s: Store, email: Email, id: Guid, urlId: Guid, questionId: Guid, now: Instant,
                      caller: Email, answers: seq<Answer>, responseId: Guid)
    requires id !in s.forms && urlId !in s.urls
    requires email in users && caller in users
    ensures AddForm(users, s, email, id, urlId, questionId, now).Ok?
    ensures var s' := AddForm(users, s, email, id, urlId, questionId, now).value.0;
            && Admit(s'.forms[id], caller) == Ok(Anonymous)
            && AddResponse(users, s', caller, urlId, answers, responseId).Ok?
            && ViewForm(users, s', caller, urlId).Ok?
  {
    var s' := AddForm(users, s, email, id, urlId, questionId, now).value.0;
    assert FormByUrl(s', urlId) == Some(id);
  }

  /** Admission reads the closed switch, `IsGroup`, `IsAnonymous` and the
      tracker emails, and nothing else: not `IsMultiple`, not the response
      limits, not the time window, not the responses. */
  lemma AdmitReadsOnly(f: Form, f': Form, email: Email)
    requires f'.acceptResponse == f.acceptResponse
    requires f'.settings.isGroup == f.settings.isGroup && f'.settings.isAnonymous == f.settings.isAnonymous
    requires SameEmails(f.groups, f'.groups)
    ensures Admit(f, email) == Admit(f', email)
  {
    LocateReadsOnlyEmails(f.groups, f'.groups, email);
  }

  /** Recording a response or a view changes flags only, so every caller is
      admitted afterwards exactly as before. */
  lemma FlagUpdateKeepsAdmission(f: Form, groups': seq<TrackingGroup>, p: Position, t: Tracker, caller: Email)
    requires ValidPosition(f.groups, p)
    requires t.email == f.groups[p.group].participants[p.tracker].email
    requires groups' == SetTracker(f.groups, p, t)
    ensures Admit(f.(groups := groups'), caller) == Admit(f, caller)
  {
    SetTrackerKeepsEmails(f.groups, p, t);
    AdmitReadsOnly(f, f.(groups := groups'), caller);
  }

  /** A caller whose response was accepted may always respond again: no
      per-user or global limit and no `IsMultiple` check stops them. */
  lemma AddResponseRepeatable(users: Users, s: Store, email: Email, urlId: Guid, answers: seq<Answer>, responseId: Guid,
                              answers2: seq<Answer>, responseId2: Guid)
    requires AddResponse(users, s, email, urlId, answers, responseId).Ok?
    ensures AddResponse(users, AddResponse(users, s, email, urlId, answers, responseId).value, email, urlId, answers2, responseId2).Ok?
  {
    var s1 := AddResponse(users, s, email, urlId, answers, responseId).value;
    var k := FormByUrl(s, urlId).value;
    var f, f1 := s.forms[k], s1.forms[k];
    assert FormByUrl(s1, urlId) == Some(k);
    var path := Admit(f, email).value;
    if path.ViaGroup? {
      var p := path.at;
      FlagUpdateKeepsAdmission(f, f1.groups, p, f.groups[p.group].participants[p.tracker].(filled := true), email);
      assert f1 == f.(groups := f1.groups).(responses := f1.responses);
      AdmitReadsOnly(f.(groups := f1.groups), f1, email);
    } else {
      AdmitReadsOnly(f, f1, email);
    }
  }

  /** Viewing twice leaves the store as viewing once, and returns the same
      metadata. */
  lemma ViewFormIdempotent(users: Users, s: Store, email: Email, urlId: Guid)
    requires ViewForm(users, s, email, urlId).Ok?
    ensures ViewForm(users, ViewForm(users, s, email, urlId).value.0, email, urlId) == ViewForm(users, s, email, urlId)
  {
    var (s1, meta) := ViewForm(users, s, email, urlId).value;
    var k := FormByUrl(s, urlId).value;
    var f := s.forms[k];
    assert FormByUrl(s1, urlId) == Some(k);
    match Admit(f, email).value
    case Anonymous =>
    case ViaGroup(p) =>
      SeenAgain(f, email, p);
      assert s1.forms[k := s1.forms[k]] == s1.forms;
  }

  /** A viewer admitted through a tracker is admitted through the same
      tracker after it was marked seen, and marking it again changes
      nothing. */
  lemma SeenAgain(f: Form, email: Email, p: Position)
    requires Admit(f, email) == Ok(ViaGroup(p))
    ensures var f1 := f.(groups := MarkSeen(f.groups, p));
            && Admit(f1, email) == Ok(ViaGroup(p))
            && MarkSeen(f1.groups, p) == f1.groups
  {
    var t := f.groups[p.group].participants[p.tracker].(seen := true);
    FlagUpdateKeepsAdmission(f, MarkSeen(f.groups, p), p, t, email);
    MarkSeenTwice(f.groups, p);
  }

  /** Re-applying the same metadata edit changes nothing. */
  lemma UpdateMetaIdempotent(users: Users, s: Store, email: Email, edit: Meta)
    requires UpdateMeta(users, s, email, edit).Ok?
    ensures UpdateMeta(users, UpdateMeta(users, s, email, edit).value, email, edit) == UpdateMeta(users, s, email, edit)
  {
    var s1 := UpdateMeta(users, s, email, edit).value;
    assert s1.forms[edit.id := s1.forms[edit.id]] == s1.forms;
  }

  /** Settings are last-writer-wins: the second write alone decides. */
  lemma UpdateSettingsLastWins(users: Users, s: Store, email: Email, a: Settings, b: Settings, id: Guid)
    requires UpdateSettings(users, s, email, a, id).Ok?
    ensures UpdateSettings(users, UpdateSettings(users, s, email, a, id).value, email, b, id)
            == UpdateSettings(users, s, email, b, id)
  {
    var s1 := UpdateSettings(users, s, email, a, id).value;
    assert s1.forms[id := s1.forms[id].(settings := b)] == s.forms[id := s.forms[id].(settings := b)];
  }

  /** Writing the old settings back restores the store exactly. */
  lemma UpdateSettingsRestores(users: Users, s: Store, email: Email, a: Settings, id: Guid)
    requires UpdateSettings(users, s, email, a, id).Ok?
    ensures UpdateSettings(users, UpdateSettings(users, s, email, a, id).value, email, s.forms[id].settings, id) == Ok(s)
  {
    var f := s.forms[id];
    var s1 := UpdateSettings(users, s, email, a, id).value;
    assert s1.forms[id].(settings := f.settings) == f;
    assert s1.forms[id := f] == s.forms;
    assert s1.(forms := s.forms) == s;
  }

  /** Attaching the same group twice, with its roster unchanged, is the same
      as attaching it once (`$addToSet`). */
  lemma AddGroupToFormIdempotent(users: Users, s: Store, email: Email, groupId: Guid, formId: Guid)
    requires AddGroupToForm(users, s, email, groupId, formId).Ok?
    ensures AddGroupToForm(users, AddGroupToForm(users, s, email, groupId, formId).value, email, groupId, formId)
            == AddGroupToForm(users, s, email, groupId, formId)
  {
    var s1 := AddGroupToForm(users, s, email, groupId, formId).value;
    var f1 := s1.forms[formId];
    assert f1.(groups := AddGroupToSet(f1.groups, Snapshot(s1.groups[groupId])), settings := f1.settings.(isGroup := true)) == f1;
    assert s1.forms[formId := f1] == s1.forms;
  }

  /** `$addToSet` compares whole tracking groups: once the form's tracking
      group for a group differs from a fresh snapshot (a tracker was seen or
      filled, or the roster changed), attaching the group again adds a
      second tracking group with the same id. */
  lemma AddGroupToFormCanDuplicate(users: Users, s: Store, email: Email, groupId: Guid, formId: Guid)
    requires Valid(s) && AddGroupToForm(users, s, email, groupId, formId).Ok?
    requires TracksGroup(s.forms[formId].groups, groupId)
    requires Snapshot(s.groups[groupId]) !in s.forms[formId].groups
    ensures !UniqueGroupIds(AddGroupToForm(users, s, email, groupId, formId).value.forms[formId].groups)
  {
    var groups := s.forms[formId].groups;
    var groups' := AddGroupToForm(users, s, email, groupId, formId).value.forms[formId].groups;
    var n := |groups|;
    assert groups' == groups + [Snapshot(s.groups[groupId])];
    var j :| 0 <= j < n && groups[j].groupId == groupId;
    assert groups'[j].groupId == groupId && groups'[n].groupId == groupId;
    FirstGroupFinds(groups', groupId, j);
    assert !IsFirstOfId(groups', n);
  }

  /** Pulling the id of a tracking group just added to a list that lacked
      it gives the list back. */
  lemma AddThenPull(groups: seq<TrackingGroup>, tg: TrackingGroup, groupId: Guid)
    requires tg.groupId == groupId && !TracksGroup(groups, groupId)
    ensures AddGroupToSet(groups, tg) == groups + [tg]
    ensures WithoutGroup(groups + [tg], groupId) == groups
  {
    assert tg !in groups;
    WithoutGroupAppend(groups, tg, groupId);
    WithoutUntracked(groups, groupId);
  }

  /** Detaching a group that was just attached to a form that did not track
      it restores the form's groups; group gating stays on. */
  lemma AttachThenDetach(users: Users, s: Store, email: Email, groupId: Guid, formId: Guid)
    requires Valid(s) && AddGroupToForm(users, s, email, groupId, formId).Ok?
    requires !TracksGroup(s.forms[formId].groups, groupId)
    ensures var f := s.forms[formId];
            DeleteGroupFromForm(users, AddGroupToForm(users, s, email, groupId, formId).value, email, groupId, formId)
            == Ok(s.(forms := s.forms[formId := f.(settings := f.settings.(isGroup := true))]))
  {
    var f := s.forms[formId];
    var f' := f.(settings := f.settings.(isGroup := true));
    var tg := Snapshot(s.groups[groupId]);
    AddThenPull(f.groups, tg, groupId);
    var s1 := AddGroupToForm(users, s, email, groupId, formId).value;
    assert s1 == s.(forms := s.forms[formId := f'.(groups := f.groups + [tg])]);
    assert s1.forms[formId := f'] == s.forms[formId := f'];
  }

  /** Detaching the same group twice fails the second time with "Group Not
      Deleted From Form". */
  lemma DetachTwiceFails(users: Users, s: Store, email: Email, groupId: Guid, formId: Guid)
    requires DeleteGroupFromForm(users, s, email, groupId, formId).Ok?
    ensures DeleteGroupFromForm(users, DeleteGroupFromForm(users, s, email, groupId, formId).value, email, groupId, formId)
            == Err(GroupNotDeleted)
  {
  }

  lemma AddFormKeepsValid(users: Users, s: Store, email: Email, id: Guid, urlId: Guid, questionId: Guid, now: Instant)
    requires Valid(s) && id !in s.forms && urlId !in s.urls
    ensures AddForm(users, s, email, id, urlId, questionId, now).Ok? ==>
              Valid(AddForm(users, s, email, id, urlId, questionId, now).value.0)
  {
  }

  lemma AddResponseKeepsValid(users: Users, s: Store, email: Email, urlId: Guid, answers: seq<Answer>, responseId: Guid)
    requires Valid(s)
    ensures AddResponse(users, s, email, urlId, answers, responseId).Ok? ==>
              Valid(AddResponse(users, s, email, urlId, answers, responseId).value)
  {
  }

  lemma ViewFormKeepsValid(users: Users, s: Store, email: Email, urlId: Guid)
    requires Valid(s)
    ensures ViewForm(users, s, email, urlId).Ok? ==> Valid(ViewForm(users, s, email, urlId).value.0)
  {
  }

  lemma UpdateMetaKeepsValid(users: Users, s: Store, email: Email, edit: Meta)
    requires Valid(s)
    ensures UpdateMeta(users, s, email, edit).Ok? ==> Valid(UpdateMeta(users, s, email, edit).value)
  {
    if UpdateMeta(users, s, email, edit).Ok? {
      ReplaceFormKeepsValid(s, edit.id, UpdateMeta(users, s, email, edit).value.forms[edit.id]);
    }
  }

  lemma UpdateSettingsKeepsValid(users: Users, s: Store, email: Email, settings: Settings, id: Guid)
    requires Valid(s)
    ensures UpdateSettings(users, s, email, settings, id).Ok? ==> Valid(UpdateSettings(users, s, email, settings, id).value)
  {
    if UpdateSettings(users, s, email, settings, id).Ok? {
      ReplaceFormKeepsValid(s, id, UpdateSettings(users, s, email, settings, id).value.forms[id]);
    }
  }

  lemma AddGroupToFormKeepsValid(users: Users, s: Store, email: Email, groupId: Guid, formId: Guid)
    requires Valid(s)
    ensures AddGroupToForm(users, s, email, groupId, formId).Ok? ==>
              Valid(AddGroupToForm(users, s, email, groupId, formId).value)
  {
    if AddGroupToForm(users, s, email, groupId, formId).Ok? {
      ReplaceFormKeepsValid(s, formId, AddGroupToForm(users, s, email, groupId, formId).value.forms[formId]);
    }
  }

  lemma DeleteGroupFromFormKeepsValid(users: Users, s: Store, email: Email, groupId: Guid, formId: Guid)
    requires Valid(s)
    ensures DeleteGroupFromForm(users, s, email, groupId, formId).Ok? ==>
              Valid(DeleteGroupFromForm(users, s, email, groupId, formId).value)
  {
    if DeleteGroupFromForm(users, s, email, groupId, formId).Ok? {
      ReplaceFormKeepsValid(s, formId, DeleteGroupFromForm(users, s, email, groupId, formId).value.forms[formId]);
    }
  }
}
