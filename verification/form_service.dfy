/** The form side of the store (`MongoDbServices`): creating a form,
    admitting responses and views, creator-only edits, and attaching and
    detaching groups. Every call is one atomic step from a store to a result. */
module FormService {
  import opened Results
  import opened Models
  import opened Tracking
  import opened Store
  import opened Messages

  /** The form `AddForm` builds for `creator`. Its creation time is never
      set, so it keeps `DateTime`'s default. */
  function NewForm(id: Guid, urlId: Guid, creator: UserId, questionId: Guid, now: Instant): Form {
    Form(
      meta := Meta(
        id := id,
        creatorId := creator,
        urlId := urlId,
        formName := "Untitled Form",
        title := "Untitled Form",
        description := "",
        questions := [DefaultQuestion(questionId)],
        createdOn := MinInstant,
        lastEdited := MinInstant,
        css := DefaultCss),
      settings := DefaultSettings(now),
      groups := [],
      responses := [],
      acceptResponse := false,
      message := "Form is Closed")
  }

  /** `AddForm`: a new, open form owned by the caller. `id`, `urlId` and
      `questionId` are the fresh GUIDs the service draws; `now` is the clock. */
  function AddForm(users: Users, s: Store, email: Email, id: Guid, urlId: Guid, questionId: Guid, now: Instant)
    : (r: Result<(Store, Form)>)
    requires id !in s.forms && urlId !in s.urls
    ensures r.Err? <==> email !in users
    ensures r.Err? ==> r.error == UserNotFound
    ensures r.Ok? ==> r.value.0.forms == s.forms[id := r.value.1]
    ensures r.Ok? ==> r.value.0.urls == s.urls[urlId := id] && r.value.0.groups == s.groups
    ensures r.Ok? ==> var f := r.value.1;
              && f.meta.id == id && f.meta.urlId == urlId && f.meta.creatorId == users[email]
              && f.groups == [] && f.responses == []
              && f.settings == DefaultSettings(now) && f.settings.isAnonymous && !f.settings.isGroup
              && f.meta.questions == [DefaultQuestion(questionId)]
              && f.meta.formName == "Untitled Form" && f.meta.title == "Untitled Form" && f.meta.description == ""
              && f.meta.css == DefaultCss
              && f.meta.createdOn == MinInstant && f.meta.lastEdited == MinInstant
              && !f.acceptResponse && f.message == "Form is Closed"
  {
    if email !in users then Err(UserNotFound)
    else
      var f := NewForm(id, urlId, users[email], questionId, now);
      Ok((Store(s.forms[id := f], s.urls[urlId := id], s.groups), f))
  }

  /** How a caller is admitted: through a tracker of theirs, or anonymously. */
  datatype Path = ViaGroup(at: Position) | Anonymous

  /** The admission rule shared by `AddResponse` and `ViewForm`. The closed
      switch is inverted: `AcceptResponse == true` means closed. On a
      group-gated form a caller listed in some tracking group is admitted
      through the first such tracker, even when anonymous answers are also
      allowed; anyone else needs `IsAnonymous`. */
  function Admit(f: Form, email: Email): (r: Result<Path>)
    ensures r == Err(FormClosed) <==> f.acceptResponse
    ensures r.Ok? && r.value.ViaGroup? <==>
              !f.acceptResponse && f.settings.isGroup && Locate(f.groups, email).Some?
    ensures r.Ok? && r.value.ViaGroup? ==> Locate(f.groups, email) == Some(r.value.at)
    ensures r == Ok(Anonymous) <==>
              !f.acceptResponse && f.settings.isAnonymous
              && !(f.settings.isGroup && Locate(f.groups, email).Some?)
    ensures r == Err(EdgeCaseMissed) <==>
              !f.acceptResponse && !f.settings.isAnonymous
              && !(f.settings.isGroup && Locate(f.groups, email).Some?)
  {
    if f.acceptResponse then Err(FormClosed)
    else if f.settings.isGroup && Locate(f.groups, email).Some? then Ok(ViaGroup(Locate(f.groups, email).value))
    else if f.settings.isAnonymous then Ok(Anonymous)
    else Err(EdgeCaseMissed)
  }

  /** The form after recording `response` along `path`. */
  function Record(f: Form, path: Path, response: Response): Form
    requires path.ViaGroup? ==> ValidPosition(f.groups, path.at)
  {
    var groups := if path.ViaGroup? then MarkFilled(f.groups, path.at) else f.groups;
    f.(groups := groups, responses := f.responses + [response])
  }

  /** The response `AddResponse` stores: stamped with the caller's id on
      every path, and with the public url id as its form id. */
  function Stamp(users: Users, email: Email, urlId: Guid, answers: seq<Answer>, responseId: Guid): Response
    requires email in users
  {
    Response(responseId, Some(urlId), Some(users[email]), answers)
  }

  /** `AddResponse`: records one response to the form published at `urlId`.
      `responseId` is the fresh GUID the service draws. */
  function AddResponse(users: Users, s: Store, email: Email, urlId: Guid, answers: seq<Answer>, responseId: Guid)
    : (r: Result<Store>)
    ensures email !in users ==> r == Err(UserNotFoundLower)
    ensures email in users && FormByUrl(s, urlId).None? ==> r == Err(FormNotPresent)
    ensures email in users && FormByUrl(s, urlId).Some? ==>
              var f := s.forms[FormByUrl(s, urlId).value];
              && (r == Err(FormClosed) <==> f.acceptResponse)
              && (r == Err(EdgeCaseMissed) <==>
                    !f.acceptResponse && !f.settings.isAnonymous
                    && !(f.settings.isGroup && Locate(f.groups, email).Some?))
    ensures r.Ok? <==>
              email in users && FormByUrl(s, urlId).Some? && Admit(s.forms[FormByUrl(s, urlId).value], email).Ok?
    ensures r.Ok? ==> OnlyFormChanged(s, r.value, FormByUrl(s, urlId).value)
    ensures r.Ok? ==>
              var k := FormByUrl(s, urlId).value;
              var f, f' := s.forms[k], r.value.forms[k];
              && f'.responses == f.responses + [Response(responseId, Some(urlId), Some(users[email]), answers)]
              && f'.meta == f.meta && f'.settings == f.settings
              && f'.acceptResponse == f.acceptResponse && f'.message == f.message
    ensures r.Ok? ==>
              var k := FormByUrl(s, urlId).value;
              var f, f' := s.forms[k], r.value.forms[k];
              if f.settings.isGroup && Locate(f.groups, email).Some? then
                var p := Locate(f.groups, email).value;
                && OnlyTrackerChanged(f.groups, f'.groups, p)
                && f'.groups[p.group].participants[p.tracker] == f.groups[p.group].participants[p.tracker].(filled := true)
              else f'.groups == f.groups
  {
    if email !in users then Err(UserNotFoundLower)
    else match FormByUrl(s, urlId)
      case None => Err(FormNotPresent)
      case Some(k) =>
        var f := s.forms[k];
        var path :- Admit(f, email);
        var f' := Record(f, path, Stamp(users, email, urlId, answers, responseId));
        Ok(s.(forms := s.forms[k := f']))
  }

  /** `ViewForm`: hands the form's metadata to the caller and, on a group
      match, marks the caller's tracker as seen. */
  function ViewForm(users: Users, s: Store, email: Email, urlId: Guid): (r: Result<(Store, Meta)>)
    ensures email !in users ==> r == Err(UserNotFound)
    ensures email in users && FormByUrl(s, urlId).None? ==> r == Err(FormNotPresent)
    ensures email in users && FormByUrl(s, urlId).Some? ==>
              var f := s.forms[FormByUrl(s, urlId).value];
              && (r == Err(FormClosed) <==> f.acceptResponse)
              && (r == Err(EdgeCaseMissed) <==>
                    !f.acceptResponse && !f.settings.isAnonymous
                    && !(f.settings.isGroup && Locate(f.groups, email).Some?))
    ensures r.Ok? <==>
              email in users && FormByUrl(s, urlId).Some? && Admit(s.forms[FormByUrl(s, urlId).value], email).Ok?
    ensures r.Ok? ==> OnlyFormChanged(s, r.value.0, FormByUrl(s, urlId).value)
    ensures r.Ok? ==>
              var k := FormByUrl(s, urlId).value;
              var f, f' := s.forms[k], r.value.0.forms[k];
              && r.value.1 == f.meta
              && f' == f.(groups := f'.groups)
    ensures r.Ok? ==>
              var k := FormByUrl(s, urlId).value;
              var f, f' := s.forms[k], r.value.0.forms[k];
              if f.settings.isGroup && Locate(f.groups, email).Some? then
                var p := Locate(f.groups, email).value;
                && OnlyTrackerChanged(f.groups, f'.groups, p)
                && f'.groups[p.group].participants[p.tracker] == f.groups[p.group].participants[p.tracker].(seen := true)
              else r.value.0 == s
  {
    if email !in users then Err(UserNotFound)
    else match FormByUrl(s, urlId)
      case None => Err(FormNotPresent)
      case Some(k) =>
        var f := s.forms[k];
        var path :- Admit(f, email);
        match path
        case Anonymous => Ok((s, f.meta))
        case ViaGroup(p) => Ok((s.(forms := s.forms[k := f.(groups := MarkSeen(f.groups, p))]), f.meta))
  }

  /** `meta'` is `before` with exactly the editable fields (name, title,
      description, styling, questions) taken from `edit`. */
  predicate EditedMeta(before: Meta, edit: Meta, meta': Meta) {
    && meta'.formName == edit.formName
    && meta'.title == edit.title
    && meta'.description == edit.description
    && meta'.css == edit.css
    && meta'.questions == edit.questions
    && meta'.id == before.id
    && meta'.creatorId == before.creatorId
    && meta'.urlId == before.urlId
    && meta'.createdOn == before.createdOn
    && meta'.lastEdited == before.lastEdited
  }

  /** `UpdateMeta`: the creator overwrites the editable metadata of the form
      whose id is `edit.id`. */
  function UpdateMeta(users: Users, s: Store, email: Email, edit: Meta): (r: Result<Store>)
    ensures email !in users ==> r == Err(UserNotFound)
    ensures email in users && edit.id !in s.forms ==> r == Err(FormNotPresent)
    ensures email in users && edit.id in s.forms ==>
              (r == Err(UserNotAuthorized) <==> s.forms[edit.id].meta.creatorId != users[email])
    ensures email in users && edit.id in s.forms && s.forms[edit.id].meta.creatorId == users[email] ==> r.Ok?
    ensures r.Ok? ==> OnlyFormChanged(s, r.value, edit.id)
    ensures r.Ok? ==>
              var f, f' := s.forms[edit.id], r.value.forms[edit.id];
              && EditedMeta(f.meta, edit, f'.meta)
              && f' == f.(meta := f'.meta)
  {
    if email !in users then Err(UserNotFound)
    else if edit.id !in s.forms then Err(FormNotPresent)
    else
      var f := s.forms[edit.id];
      if f.meta.creatorId != users[email] then Err(UserNotAuthorized)
      else
        var meta' := f.meta.(formName := edit.formName, title := edit.title, description := edit.description,
                             css := edit.css, questions := edit.questions);
        Ok(s.(forms := s.forms[edit.id := f.(meta := meta')]))
  }

  /** `UpdateSettings`: the creator replaces the settings of form `id`
      wholesale. */
  function UpdateSettings(users: Users, s: Store, email: Email, settings: Settings, id: Guid): (r: Result<Store>)
    ensures email !in users ==> r == Err(UserNotFound)
    ensures email in users && id !in s.forms ==> r == Err(FormNotPresent)
    ensures email in users && id in s.forms ==>
              (r == Err(UserNotAuthorized) <==> s.forms[id].meta.creatorId != users[email])
    ensures email in users && id in s.forms && s.forms[id].meta.creatorId == users[email] ==> r.Ok?
    ensures r.Ok? ==>
              && OnlyFormChanged(s, r.value, id)
              && r.value.forms[id].settings == settings
              && r.value.forms[id] == s.forms[id].(settings := settings)
  {
    if email !in users then Err(UserNotFound)
    else if id !in s.forms then Err(FormNotPresent)
    else if s.forms[id].meta.creatorId != users[email] then Err(UserNotAuthorized)
    else Ok(s.(forms := s.forms[id := s.forms[id].(settings := settings)]))
  }

  /** `AddGroupToForm`: attaches a snapshot of group `groupId`'s roster to
      form `formId` and turns group gating on. The caller must own both the
      form and the group. */
  function AddGroupToForm(users: Users, s: Store, email: Email, groupId: Guid, formId: Guid): (r: Result<Store>)
    ensures groupId !in s.groups ==> r == Err(GroupNotPresent)
    ensures groupId in s.groups && formId !in s.forms ==> r == Err(FormNotPresent)
    ensures groupId in s.groups && formId in s.forms && email !in users ==> r == Err(UserNotPresent)
    ensures r.Ok? <==>
              && groupId in s.groups && formId in s.forms && email in users
              && s.forms[formId].meta.creatorId == users[email]
              && s.groups[groupId].creator == users[email]
    ensures (&& groupId in s.groups && formId in s.forms && email in users
             && !(s.forms[formId].meta.creatorId == users[email] && s.groups[groupId].creator == users[email]))
            ==> r == Err(UserNotAuthorized)
    ensures r.Ok? ==> OnlyFormChanged(s, r.value, formId)
    ensures r.Ok? ==>
              var f, f' := s.forms[formId], r.value.forms[formId];
              var tg := Snapshot(s.groups[groupId]);
              && f'.settings == f.settings.(isGroup := true)
              && f' == f.(groups := f'.groups, settings := f'.settings)
              && tg in f'.groups
              && |f'.groups| == (if tg in f.groups then |f.groups| else |f.groups| + 1)
              && f'.groups[..|f.groups|] == f.groups
  {
    if groupId !in s.groups then Err(GroupNotPresent)
    else if formId !in s.forms then Err(FormNotPresent)
    else if email !in users then Err(UserNotPresent)
    else
      var g, f, user := s.groups[groupId], s.forms[formId], users[email];
      if f.meta.creatorId != user || g.creator != user || g.creator != f.meta.creatorId then Err(UserNotAuthorized)
      else
        var f' := f.(groups := AddGroupToSet(f.groups, Snapshot(g)), settings := f.settings.(isGroup := true));
        Ok(s.(forms := s.forms[formId := f']))
  }

  /** The detach check is disjunctive: any one of "the caller owns the
      group", "the group's owner owns the form" and "the caller owns the
      form" suffices. */
  predicate MayDetach(caller: UserId, groupCreator: UserId, formCreator: UserId) {
    groupCreator == caller || groupCreator == formCreator || formCreator == caller
  }

  /** `DeleteGroupFromForm`: removes every tracking group for `groupId`
      from form `formId`; fails if there was none. */
  function DeleteGroupFromForm(users: Users, s: Store, email: Email, groupId: Guid, formId: Guid): (r: Result<Store>)
    ensures email !in users ==> r == Err(UserNotFound)
    ensures email in users && groupId !in s.groups ==> r == Err(GroupNotFound)
    ensures email in users && groupId in s.groups && formId !in s.forms ==> r == Err(FormNotFound)
    ensures email in users && groupId in s.groups && formId in s.forms ==>
              (r == Err(NotAuthorisedToDetach) <==>
                 && s.groups[groupId].creator != users[email]
                 && s.groups[groupId].creator != s.forms[formId].meta.creatorId
                 && s.forms[formId].meta.creatorId != users[email])
    ensures r.Ok? <==>
              && email in users && groupId in s.groups && formId in s.forms
              && MayDetach(users[email], s.groups[groupId].creator, s.forms[formId].meta.creatorId)
              && TracksGroup(s.forms[formId].groups, groupId)
    ensures (&& email in users && groupId in s.groups && formId in s.forms
             && MayDetach(users[email], s.groups[groupId].creator, s.forms[formId].meta.creatorId)
             && !TracksGroup(s.forms[formId].groups, groupId)) ==> r == Err(GroupNotDeleted)
    ensures r.Ok? ==> OnlyFormChanged(s, r.value, formId)
    ensures r.Ok? ==>
              var f, f' := s.forms[formId], r.value.forms[formId];
              && f' == f.(groups := f'.groups)
              && !TracksGroup(f'.groups, groupId)
              && (forall tg :: tg in f'.groups <==> tg in f.groups && tg.groupId != groupId)
              && f'.groups == WithoutGroup(f.groups, groupId)
  {
    if email !in users then Err(UserNotFound)
    else if groupId !in s.groups then Err(GroupNotFound)
    else if formId !in s.forms then Err(FormNotFound)
    else
      var g, f := s.groups[groupId], s.forms[formId];
      if !MayDetach(users[email], g.creator, f.meta.creatorId) then Err(NotAuthorisedToDetach)
      else
        var groups' := WithoutGroup(f.groups, groupId);
        if |groups'| == |f.groups| then Err(GroupNotDeleted)
        else
          Ok(s.(forms := s.forms[formId := f.(groups := groups')]))
  }
}
