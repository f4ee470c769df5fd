# Form Friend: form and group tracking, modelled in Dafny

Form Friend lets a registered user create forms, publish them under a
public URL id, and collect responses. A form can be gated by participant
groups. A group is a creator-owned roster of emails. Attaching a group to a
form embeds a snapshot of its roster in the form as a list of trackers,
one per email. Each tracker records whether that participant has seen the
form and whether they have filled it. The server keeps forms and groups in
two MongoDB collections. It resolves callers through ASP.NET Identity.

This project models the service layer that reads and writes those
collections as pure functions over an immutable `Store`:

- creating a form;
- admitting a response or a view, and marking the caller's tracker;
- editing metadata and settings;
- attaching and detaching a group;
- creating and deleting a group;
- adding members to a group's roster and removing them;
- refreshing a form's trackers from the current rosters.

Every call returns a `Result`. Its errors are the exception messages of
the C# code, word for word. Each call is atomic: it either fails with no
effect or returns the whole new store.

Modules, in dependency order:

- `Results`: `Option`, `Result`, and the `:-` plumbing.
- `Lists`: the .NET list operations and MongoDB array operators the
  services use, with the duplicate behaviour the code has. These are
  `List.Remove`, `$pullAll`, `$addToSet` with `$each`, and LINQ `Distinct`.
- `Models`: the documents (`Forms`, `MetaDataModel`, `SettingsModel`,
  `TrackingModel`, `Tracker`, `ResponseModel`, `GroupModel`) and their
  defaults.
- `Tracking`: finding and updating trackers inside a form's tracking
  groups.
- `Store`: the two collections, the URL index, and the store invariant
  `Valid`.
- `Messages`: the error strings.
- `FormService` (`MongoDbServices`) and `GroupService` (`GroupServices`):
  the operations.
- `FormProperties` and `GroupProperties`: lemmas that relate several
  calls.

Behaviour of the code that the model keeps as written:

- `acceptResponse` works as a *closed* switch. When it is true, responses
  and views fail with "Form Closed". A new form starts with it false, so it
  is open.
- No modelled operation sets `CreatedOn` or `LastEdited`. A new form keeps
  `DateTime`'s default for both, and `UpdateMeta` and `UpdateSettings` do
  not stamp `LastEdited`.
- `AddGroupToForm` uses `$addToSet` on whole tracking groups. Once a form's
  snapshot has drifted from the group, attaching the same group again adds
  a second tracking group with the same id.
- `FetchMembers` and `AddMemberToGroup` push into the *first* tracking
  group that has the id. With two tracking groups for one id, every refresh
  pushes the second group's missing emails into the first one again.
  `GroupProperties.FetchMembersRepeatsWithDuplicates` shows this on a
  concrete store. Without duplicates, a refresh is idempotent.
- Adding one email twice in a single request adds it to the roster once,
  but gives every form tracking the group two trackers for it.

## Model

| member | source | states |
|---|---|---|
| Lists.Filter | Services/GroupServices.cs:282-287 | `$pullAll`: keeps exactly the elements whose membership in the second list is the one asked for, and never grows the list |
| Lists.FilterAppend | Services/GroupServices.cs:282-287 | `$pullAll` works element by element: filtering a concatenation is filtering each part, so the kept elements stay in their order |
| Lists.FilterCounts | Services/GroupServices.cs:282-287 | Counted with repeats, a kept element keeps every occurrence and a pulled one loses every occurrence |
| Lists.FilterAgrees | Services/GroupServices.cs:267-287 | Only whether each element is listed matters, so pulling the requested emails that are on the roster equals pulling all the requested emails |
| Lists.Distinct | Services/GroupServices.cs:42-50 | LINQ `Distinct` on the initial roster: the same set of emails, with no duplicates |
| Lists.DistinctKeepsFirstOccurrenceOrder | Services/GroupServices.cs:44 | `Distinct` keeps each email at its first occurrence, so the roster keeps the order in which emails first appear |
| Lists.RemoveFirstCounts | Services/GroupServices.cs:214 | `List.Remove` takes out exactly one occurrence of the element, as a multiset difference |
| Lists.RemoveEachCounts | Services/GroupServices.cs:209-214 | Removing the tracked emails one by one from the roster leaves the multiset difference |
| Lists.AddToSetEach | Services/GroupServices.cs:139-144 | `$addToSet` with `$each`: keeps the old roster as a prefix, adds exactly the new elements, and keeps a duplicate-free roster duplicate-free |
| Lists.AddToSetEachSnoc | Services/GroupServices.cs:139-144 | One more requested element at the end of the request is appended at the end of the roster unless it is already there |
| Lists.AddToSetEachAppendsNew | Services/GroupServices.cs:139-144 | `$addToSet` with `$each` yields the old roster followed by the requested elements not yet on it, each once, in the order of their first occurrence in the request |
| Lists.RemoveCollected | Services/GroupServices.cs:124-137 | Collecting the requested emails already on the roster and then removing them from the request leaves exactly the emails not on the roster (and likewise for `DeleteMemberFromGroup`, lines 267-280) |
| Lists.RemoveEachFromDistinct | Services/GroupServices.cs:209-214 | On a duplicate-free list, removing elements one by one equals filtering them all out |
| Models.DefaultSettings | Models/SettingsModel.cs:7-31 | A new form's settings are anonymous, not group-gated, not multiple, and have no time or response limits |
| Models.FreshTrackers | Services/MongoDbServices.cs:267-280 | One unseen, unfilled tracker per roster email, in roster order, duplicates included |
| Models.InFreshTrackers | Services/MongoDbServices.cs:267-280 | A tracker belongs to the fresh trackers of a roster exactly when it is fresh and its email is on the roster |
| Models.Snapshot | Services/MongoDbServices.cs:282-287 | The tracking group built from a group carries its id and name and tracks exactly its roster, in order, with nothing seen or filled |
| Tracking.FirstTracker | Services/MongoDbServices.cs:89-92 | `Find` then `IndexOf` on a group's trackers: the first tracker with the email, or none exactly when the email is untracked |
| Tracking.Locate | Services/MongoDbServices.cs:83-116 | The admission scan: the first group that tracks the email and its first tracker for it, or none exactly when no group tracks it |
| Tracking.LocateReadsOnlyEmails | Services/MongoDbServices.cs:83-116 | The scan's answer depends on the tracker emails alone, not on the seen and filled flags |
| Tracking.SetTracker | Services/MongoDbServices.cs:94 | A positional `Set` changes the addressed tracker and nothing else. Every group keeps its id, name and size |
| Tracking.MarkSeenTwice | Services/MongoDbServices.cs:168-170 | Marking a tracker seen twice is the same as marking it once |
| Tracking.FirstGroup | Services/GroupServices.cs:173-176 | `Group.Find` then `IndexOf` returns, when it finds one, the index of a tracking group with the id |
| Tracking.FirstGroupFinds | Services/GroupServices.cs:173-176 | Every tracking group with the id lies at or after the index `Group.Find` then `IndexOf` returns: it is the first such group, and none is returned exactly when no tracking group has the id |
| Tracking.AppendTrackers | Services/GroupServices.cs:178-180 | `$push` with `$each` on one tracking group appends to its trackers and leaves every other group untouched |
| Tracking.WithoutGroup | Services/MongoDbServices.cs:323 | `PullFilter` by group id: exactly the tracking groups with other ids remain, and none with that id |
| Tracking.WithoutGroupAppend | Services/MongoDbServices.cs:323 | `PullFilter` by id distributes over appending one more tracking group, so the remaining groups keep their order |
| Tracking.WithoutGroupCounts | Services/MongoDbServices.cs:323 | Counted with repeats, a tracking group with another id keeps every occurrence and one with the pulled id loses every occurrence |
| Tracking.WithoutUntracked | Services/MongoDbServices.cs:323 | Pulling an id that no tracking group has leaves the list unchanged |
| Tracking.AddGroupToSet | Services/MongoDbServices.cs:289-292 | `$addToSet` on tracking groups appends the snapshot unless an identical one is present, and keeps the old list as a prefix |
| Store.FormByUrl | Services/MongoDbServices.cs:76 | Lookup by public URL id: in a valid store, the form found carries that URL id, and none is found exactly when no form has it |
| Store.ReplaceFormKeepsValid | Services/MongoDbServices.cs:196-225 | Rewriting one form in place, keeping its ids, keeps the store valid |
| FormService.AddForm | Services/MongoDbServices.cs:40-54 | Fails with "User Not Found" exactly for unknown callers. Otherwise it adds one open, non-group form owned by the caller under fresh ids, and changes nothing else. The form has the default settings, one placeholder question, the default names, styling and closing message, no tracking groups or responses, and unset creation and edit dates |
| FormService.Admit | Services/MongoDbServices.cs:80-140 | A closed form fails first. Group gating admits a caller through the first tracker with their email. Otherwise the anonymous switch admits them. Otherwise the call fails with "Edge Case Missed" |
| FormService.AddResponse | Services/MongoDbServices.cs:70-141 | Checks the caller, then the form by URL, then admission, each with its own error. It succeeds exactly when all three pass. Success appends one response stamped with the caller's id and, through a tracker, marks exactly that tracker filled. Nothing outside that form changes |
| FormService.ViewForm | Services/MongoDbServices.cs:143-181 | Same checks as responding, and it succeeds exactly when they pass. Success returns the form's metadata and, through a tracker, marks exactly that tracker seen. Nothing else changes |
| FormService.UpdateMeta | Services/MongoDbServices.cs:183-208 | Only the form's creator may edit, and the creator always can. The editable fields take the new values; ids, creator, dates and everything else in the store stay |
| FormService.UpdateSettings | Services/MongoDbServices.cs:210-229 | Only the form's creator may edit, and the creator always can. The settings are replaced wholesale and nothing else changes |
| FormService.AddGroupToForm | Services/MongoDbServices.cs:248-296 | Checks group, form and caller in that order. It succeeds exactly when the caller created both the form and the group, and otherwise fails with "User Not Authorized". It then adds the group's snapshot to the set of tracking groups, turns group gating on, and touches no other form |
| FormService.DeleteGroupFromForm | Services/MongoDbServices.cs:298-330 | The caller may detach when they own the group, when they own the form, or when the group's owner owns the form. It then succeeds exactly when the form tracks the group and drops every tracking group for it, keeping the others in order. An authorised detach of an untracked group fails with "Group Not Deleted From Form" |
| FormProperties.NewFormIsOpen | Services/MongoDbServices.cs:45-51 | A new form admits every caller anonymously, both for responding and for viewing |
| FormProperties.AdmitReadsOnly | Services/MongoDbServices.cs:80-140 | Admission depends only on the closed switch, the two gating flags and the tracker emails |
| FormProperties.FlagUpdateKeepsAdmission | Services/MongoDbServices.cs:94 | Setting a tracker's flag does not change who is admitted, or how |
| FormProperties.AddResponseRepeatable | Services/MongoDbServices.cs:70-141 | A response that was accepted once is accepted again: recording it does not revoke admission |
| FormProperties.SeenAgain | Services/MongoDbServices.cs:155-170 | A caller admitted through a tracker is admitted through it again after it is marked seen, and marking it again changes nothing |
| FormProperties.ViewFormIdempotent | Services/MongoDbServices.cs:143-181 | Viewing twice leaves the store as viewing once and returns the same metadata |
| FormProperties.UpdateMetaIdempotent | Services/MongoDbServices.cs:196-202 | Applying the same metadata edit twice equals applying it once |
| FormProperties.UpdateSettingsLastWins | Services/MongoDbServices.cs:223-225 | Of two settings updates, the later one wins |
| FormProperties.UpdateSettingsRestores | Services/MongoDbServices.cs:223-225 | Writing back the old settings restores the store exactly |
| FormProperties.AddGroupToFormIdempotent | Services/MongoDbServices.cs:289-292 | Attaching the same group twice in a row equals attaching it once |
| FormProperties.AddGroupToFormCanDuplicate | Services/MongoDbServices.cs:282-292 | Attaching a group whose snapshot has drifted leaves the form with two tracking groups for one id |
| FormProperties.AddThenPull | Services/MongoDbServices.cs:289-292 | For an id the form does not track, `$addToSet` appends the snapshot and `PullFilter` by that id removes exactly it again |
| FormProperties.AttachThenDetach | Services/MongoDbServices.cs:289-292 | Attaching a group the form did not track and then detaching it restores the form's tracking groups. Group gating stays on |
| FormProperties.DetachTwiceFails | Services/MongoDbServices.cs:323-328 | A second detach of the same group fails with "Group Not Deleted From Form" |
| FormProperties.AddFormKeepsValid | Services/MongoDbServices.cs:40-54 | Creating a form keeps the store valid |
| FormProperties.AddResponseKeepsValid | Services/MongoDbServices.cs:70-141 | Responding keeps the store valid |
| FormProperties.ViewFormKeepsValid | Services/MongoDbServices.cs:143-181 | Viewing keeps the store valid |
| FormProperties.UpdateMetaKeepsValid | Services/MongoDbServices.cs:183-208 | Editing metadata keeps the store valid |
| FormProperties.UpdateSettingsKeepsValid | Services/MongoDbServices.cs:210-229 | Editing settings keeps the store valid |
| FormProperties.AddGroupToFormKeepsValid | Services/MongoDbServices.cs:248-296 | Attaching a group keeps the store valid |
| FormProperties.DeleteGroupFromFormKeepsValid | Services/MongoDbServices.cs:298-330 | Detaching a group keeps the store valid |
| GroupService.AddGroup | Services/GroupServices.cs:26-54 | Fails with "User not Found" exactly for unknown callers. Otherwise it adds one "Personal" group owned by the caller, whose roster is the request's emails without duplicates in first-occurrence order (empty when absent). Forms are untouched |
| GroupService.Detach | Services/GroupServices.cs:92-99 | A form stops tracking the group: exactly its tracking groups for other ids remain, in order. A form that did not track it is unchanged |
| GroupService.DeleteGroup | Services/GroupServices.cs:66-109 | Only the creator may delete. On success the group is gone, every form has dropped its tracking groups for it and kept the others in order, and the URL index is kept |
| GroupService.PushToGroup | Services/GroupServices.cs:172-180 | Appends the trackers to the first tracking group for the id only. Forms that do not track the group, and empty pushes, leave the form unchanged |
| GroupService.PushAllEffect | Services/GroupServices.cs:163-185 | In every form, fresh trackers are appended to the first tracking group for the id only. Nothing is lost, no other field changes, and a form that does not track the group is untouched |
| GroupService.AddMemberToGroup | Services/GroupServices.cs:111-187 | Only the creator may add. The roster becomes the old roster followed by the requested emails not yet on it, each once, in the order of their first occurrence in the request. Every form tracking the group gets one fresh tracker per such email, in request order, with duplicates |
| GroupService.MissingCounts | Services/GroupServices.cs:209-216 | The emails a refresh pushes for a tracking group are the roster minus its tracked emails, counted with multiplicity |
| GroupService.MissingInRosterOrder | Services/GroupServices.cs:209-214 | In a valid store, the emails a refresh pushes for a tracking group are exactly the roster emails it does not track, in roster order |
| GroupService.ExtendsKeepsEmail | Services/GroupServices.cs:243-245 | Appending trackers never loses a tracked email |
| GroupService.PushMissing | Services/GroupServices.cs:202-248 | One step of the refresh loop keeps the number of tracking groups and every group's id and name |
| GroupService.PushMissingParticipants | Services/GroupServices.cs:217-245 | One step of the refresh loop appends fresh trackers for the missing emails to the first tracking group for the current id, and no other group's trackers change |
| GroupService.PushMissingOwnGroup | Services/GroupServices.cs:238-245 | Without duplicate ids, the step for a tracking group pushes into that same group and no other |
| GroupService.MissingHasUntracked | Services/GroupServices.cs:209-214 | A roster email the tracking group does not track is among the emails the refresh pushes |
| GroupService.PushMissingCovers | Services/GroupServices.cs:202-248 | After the step for a tracking group, and any later appends, every roster email of its group is tracked by it or by the first tracking group with its id |
| GroupService.PushMissingExtends | Services/GroupServices.cs:243-245 | One refresh step only appends fresh trackers |
| GroupService.FetchFrom | Services/GroupServices.cs:202-249 | The refresh loop can fail only with "Group Not Present", and on success keeps the number of tracking groups |
| GroupService.FetchFromSucceeds | Services/GroupServices.cs:203-207 | The refresh loop fails exactly when some tracking group's group no longer exists |
| GroupService.AllPresentEach | Services/GroupServices.cs:203-207 | The loop's presence test, checked group by group, holds exactly when every remaining tracking group names an existing group |
| GroupService.FetchFromExtends | Services/GroupServices.cs:202-249 | The loop only appends fresh trackers |
| GroupService.FetchFromCovers | Services/GroupServices.cs:202-249 | Once the loop has run past a tracking group, its group's roster is covered by it or by the first tracking group with its id |
| GroupService.FetchFromTracksRoster | Services/GroupServices.cs:202-249 | After the loop, every roster email of every visited tracking group's group is tracked by that tracking group itself or by the first tracking group with that id |
| GroupService.FetchFromExact | Services/GroupServices.cs:202-249 | Without duplicate ids, the loop appends to each tracking group exactly its missing emails |
| GroupService.FirstGroupReadsOnlyIds | Services/GroupServices.cs:238-241 | Which tracking group is first for an id depends on the ids alone |
| GroupService.UniqueGroupIdsReadsOnlyIds | Services/GroupServices.cs:238-241 | Any update that keeps every tracking group's id in place, such as appending trackers, keeps the ids free of duplicates |
| GroupService.FetchMembers | Services/GroupServices.cs:189-252 | Checks the caller, the form and ownership, each with its own error. It succeeds exactly when every tracked group still exists. Only the form's tracking groups change, and their number stays |
| GroupService.FetchMembersExtends | Services/GroupServices.cs:189-252 | A refresh only appends fresh trackers. No tracker, flag or group is lost |
| GroupService.FetchMembersTracksRosters | Services/GroupServices.cs:189-252 | After a refresh, the first tracking group for each tracked group tracks every email on that group's roster |
| GroupService.FetchMembersExact | Services/GroupServices.cs:189-252 | Without duplicate ids, a refresh appends to each tracking group exactly its missing emails |
| GroupService.FetchMembersAppendsUntracked | Services/GroupServices.cs:189-252 | In a valid store without duplicate ids, a refresh appends to each tracking group one fresh tracker per roster email it did not track, in roster order, and nothing else |
| GroupService.PullFromGroup | Services/GroupServices.cs:313-321 | `$pullAll` on the first tracking group for the id removes every tracker equal to one pulled and touches no other group |
| GroupService.PullFromAllEffect | Services/GroupServices.cs:304-326 | In every form, the first tracking group for the id loses exactly the trackers equal to a pulled one. Every other tracker, every other tracking group and every other field stays |
| GroupService.PullFromRoster | Services/GroupServices.cs:282-287 | `$pullAll` on the roster removes exactly the listed emails, keeps the rest in order, and keeps a duplicate-free roster duplicate-free |
| GroupService.DeleteMemberFromGroup | Services/GroupServices.cs:254-328 | Only the creator may remove. Only requested emails on the roster are removed, and an empty such set changes nothing. The call fails with "Members not added into the forms" exactly when a tracking form has nothing to pull. Otherwise the roster drops exactly the requested emails, keeping the rest in order, and each form pulls their fresh trackers |
| GroupProperties.AddGroupKeepsValid | Services/GroupServices.cs:26-54 | Creating a group keeps the store valid |
| GroupProperties.DeleteGroupKeepsValid | Services/GroupServices.cs:66-109 | Deleting a group keeps the store valid and removes the group |
| GroupProperties.AddMemberKeepsTrackers | Services/GroupServices.cs:146-185 | Adding members only appends fresh trackers to forms, so no tracker or flag is lost |
| GroupProperties.AddMemberToGroupTwice | Services/GroupServices.cs:124-138 | Repeating the same add changes nothing the second time |
| GroupProperties.RepeatedRequestTracksTwice | Services/GroupServices.cs:124-160 | An email named twice in one request, and new to the roster, joins the roster and is given two trackers in every tracking form |
| GroupProperties.AddMemberKeepsValid | Services/GroupServices.cs:111-187 | Adding members keeps the store valid |
| GroupProperties.NothingMissingAfterFetch | Services/GroupServices.cs:209-216 | Once a tracking group tracks its whole roster, a refresh finds nothing missing for it |
| GroupProperties.RefreshStable | Services/GroupServices.cs:202-249 | The refresh loop leaves groups that already track their whole rosters unchanged |
| GroupProperties.RefetchSucceeds | Services/GroupServices.cs:189-252 | A refresh that succeeded once succeeds again |
| GroupProperties.RefetchKeepsGroups | Services/GroupServices.cs:189-252 | Without duplicate ids, a second refresh leaves the form's tracking groups as the first refresh left them |
| GroupProperties.FetchMembersIdempotent | Services/GroupServices.cs:189-252 | Without duplicate ids, refreshing twice equals refreshing once |
| GroupProperties.FetchMembersRepeatsWithDuplicates | Services/GroupServices.cs:238-245 | With two tracking groups for one id, a second refresh pushes the same email into the first group again |
| GroupProperties.RefreshDuplicated | Services/GroupServices.cs:202-249 | On two tracking groups for one id, the second one's missing email is pushed into the first group |
| GroupProperties.FetchMembersKeepsValid | Services/GroupServices.cs:189-252 | Refreshing keeps the store valid |
| GroupProperties.DeleteMemberKeepsResponders | Services/GroupServices.cs:291-321 | Trackers that were seen or filled survive a member removal, and so do trackers for emails the request does not name |
| GroupProperties.DeleteMemberPullsUntouched | Services/GroupServices.cs:313-321 | A removed member's untouched tracker leaves the first tracking group of every form |
| GroupProperties.DeleteMemberFromGroupTwice | Services/GroupServices.cs:267-281 | Repeating the same removal changes nothing the second time |
| GroupProperties.DeleteMemberKeepsValid | Services/GroupServices.cs:254-328 | Removing members keeps the store valid |

## Left out

- The HTTP controllers, `Program.cs`, authentication tokens, and
  `GetAllFormsAsync`, `EditFrom`, `GetGroups` and status changes. These are
  outside the modelled services or only read data.
- I/O and time. `UserManager.FindByEmailAsync` is a map from email to user
  id, with no normalisation of email case. `Guid.NewGuid()` and the clock
  are parameters. Fresh ids are assumed through `requires`.
- Partial writes and concurrency. Every call is atomic. In the source,
  `FetchMembers` and `DeleteMemberFromGroup` write form by form and can
  throw after earlier forms (and, for removal, the roster) were already
  updated. The model fails with no effect instead.
- Driver-level filter quirks are modelled by their intended effect.
  - Several updates use positional filters that do not name the form.
  - `DeleteGroupFromForm` computes its group index with `IndexOf` on a new
    object, which is always -1.
  - Updates are assumed acknowledged and applied, so `IdentityResult.Failed`
    is unreachable.
  - "Some Error Occured" (the form lost the tracking group between reads)
    cannot happen in a single atomic step.
  - "Members not added into the forms" in `AddMemberToGroup`/`FetchMembers`
    cannot happen: a non-empty push always modifies the form, and an empty
    push only happens when nothing is missing.
  - `DeleteGroup` failing with "Group Not Deleted From Form" on a form that
    tracks the group cannot happen.
- Null rosters. A roster is a plain list here. `AddGroup` always stores a
  list, empty when the request has none, and no modelled operation stores
  null. A null roster written by other code would behave differently:
  `FetchMembers` skips its tracking groups, while `AddMemberToGroup` and
  `DeleteMemberFromGroup` skip their on-roster filter and then apply
  `$addToSet`/`$pullAll` to the null field (Services/GroupServices.cs:141-144,
  284-287), which the document store rejects, so both calls fail at the
  roster update before any form is touched.
- The time-bound, response-limit and multiple-response settings are stored
  but never enforced by the services, so they are opaque fields here. CSS,
  templates, questions and answers are opaque values.
- Neither `UpdateMeta` nor `UpdateSettings` sets `LastEdited`
  (Services/MongoDbServices.cs:197-202, 224-225); the model leaves it
  unchanged.
- GroupProperties.FetchMembersIdempotent: stated only for forms without
  two tracking groups for one id, because with duplicates the source is not
  idempotent (see `FetchMembersRepeatsWithDuplicates`).
- GroupProperties.RefetchKeepsGroups: stated only for forms without
  duplicate tracking-group ids, for the same reason.
- GroupService.FetchFromExact: stated only for forms without duplicate
  tracking-group ids. `FetchFromTracksRoster` covers the general case with
  a weaker, coverage-only statement.
- GroupService.FetchMembersExact: stated only for forms without duplicate
  tracking-group ids, for the same reason as `FetchFromExact`.
- GroupService.FetchMembersAppendsUntracked: likewise stated only for forms
  without duplicate tracking-group ids.
- GroupService.FetchFromTracksRoster: promises coverage by the tracking
  group itself or by the first tracking group with its id, not by the first
  alone. A second tracking group for an id keeps its own trackers, and the
  loop never copies them into the first. For a tracking group that is the
  first for its id the two readings agree; `FetchMembersTracksRosters`
  states that case.
