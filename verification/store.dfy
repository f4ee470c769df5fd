/** The two collections the services share: the forms, keyed by
    `MetaDataModel.Id` and reachable through their public `UrlId`, and the
    groups, keyed by `GroupId`; and the user directory they consult. */
module Store {
  import opened Results
  import opened Lists
  import opened Models

  /** `UserManager.FindByEmailAsync`, reduced to what the services use: the
      user id registered for an email. */
  type Users = map<Email, UserId>

  /** `forms` is keyed by the form's `Id`; `urls` is the unique index from
      `UrlId` to that key. */
  datatype Store = Store(forms: map<Guid, Form>, urls: map<Guid, Guid>, groups: map<Guid, Group>)

  /** The store's integrity: keys agree with the documents, the url index
      is exact, and every roster is duplicate-free (`Distinct` and
      `$addToSet` keep it so). */
  predicate Valid(s: Store) {
    && (forall k :: k in s.forms ==> s.forms[k].meta.id == k)
    && (forall k :: k in s.forms ==> s.forms[k].meta.urlId in s.urls && s.urls[s.forms[k].meta.urlId] == k)
    && (forall u :: u in s.urls ==> s.urls[u] in s.forms && s.forms[s.urls[u]].meta.urlId == u)
    && (forall g :: g in s.groups ==> s.groups[g].groupId == g && NoDuplicates(s.groups[g].members))
  }

  /** `Find(a => a.Form.UrlId == urlId).FirstOrDefault()`: the key of the
      form published under `urlId`. */
  function FormByUrl(s: Store, urlId: Guid): (r: Option<Guid>)
    ensures r.Some? ==> r.value in s.forms
    ensures Valid(s) && r.Some? ==> s.forms[r.value].meta.urlId == urlId
    ensures Valid(s) ==> (r.None? <==> forall k :: k in s.forms ==> s.forms[k].meta.urlId != urlId)
  {
    if urlId in s.urls && s.urls[urlId] in s.forms then Some(s.urls[urlId]) else None
  }

  /** Only the form at `k` may differ; the groups and the url index are
      untouched. */
  predicate OnlyFormChanged(s: Store, s': Store, k: Guid) {
    && k in s.forms && k in s'.forms
    && s'.forms == s.forms[k := s'.forms[k]]
    && s'.urls == s.urls
    && s'.groups == s.groups
  }

  /** Replacing a form by one with the same identifiers keeps the store
      valid. */
  lemma ReplaceFormKeepsValid(s: Store, k: Guid, f: Form)
    requires Valid(s) && k in s.forms
    requires f.meta.id == s.forms[k].meta.id && f.meta.urlId == s.forms[k].meta.urlId
    ensures Valid(s.(forms := s.forms[k := f]))
  {
  }
}
