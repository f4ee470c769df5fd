/** The documents of the form store: a form (`Forms`) with its metadata,
    settings, tracking groups and responses, and a participant group
    (`GroupModel`). Values the services never inspect (styling, questions,
    answers) are kept as plain records. */
module Models {
  import opened Results
  import opened Lists

  /** A GUID. */
  type Guid = nat
  /** An ASP.NET Identity user id. */
  type UserId = Guid
  type Email = string
  /** A `DateTime`, as ticks. */
  type Instant = int

  /** `default(DateTime)`: the value of a `DateTime` field nobody set. */
  const MinInstant: Instant := 0

  /** One participant's delivery state inside a tracking group. */
  datatype Tracker = Tracker(email: Email, seen: bool, filled: bool)

  /** A snapshot of a group's roster, embedded in a form. */
  datatype TrackingGroup = TrackingGroup(groupName: string, groupId: Guid, participants: seq<Tracker>)

  datatype Settings = Settings(
    isAnonymous: bool,
    isMultiple: bool,
    isEditable: bool,
    isGroup: bool,
    isTimeBound: bool,
    startTime: Instant,
    endTime: Instant,
    isResponseLimit: bool,
    responseLimit: int,
    isResponseLimitPerUser: bool,
    responseLimitPerUser: int,
    showProgressBar: bool,
    confirmationMessage: string)

  /** Styling chosen by the creator; carries no logic. */
  datatype Css = Css(
    headerText: string,
    question: string,
    text: string,
    headerImage: Option<string>,
    color: Option<string>,
    transparencyColor: Option<string>)

  /** A question of the form; carries no logic. */
  datatype Question = Question(
    id: Guid,
    text: string,
    photoPath: Option<string>,
    options: Option<seq<string>>,
    kind: string)

  datatype Answer = Answer(id: Guid, questionId: Option<Guid>)

  /** `MetaDataModel`: everything the creator edits, plus the identifiers. */
  datatype Meta = Meta(
    id: Guid,
    creatorId: UserId,
    urlId: Guid,
    formName: string,
    title: string,
    description: string,
    questions: seq<Question>,
    createdOn: Instant,
    lastEdited: Instant,
    css: Css)

  /** `ResponseModel`. `formId` holds the public `UrlId` the response was
      submitted to. */
  datatype Response = Response(id: Guid, formId: Option<Guid>, userId: Option<UserId>, answers: seq<Answer>)

  /** `Forms`. `acceptResponse` is the closed switch: when it is TRUE the form
      refuses responses and views. */
  datatype Form = Form(
    meta: Meta,
    settings: Settings,
    groups: seq<TrackingGroup>,
    responses: seq<Response>,
    acceptResponse: bool,
    message: string)

  /** `GroupModel`: a participant group owned by its creator. */
  datatype Group = Group(
    groupId: Guid,
    creator: UserId,
    groupName: string,
    groupType: string,
    groupLink: Option<Guid>,
    description: string,
    members: seq<Email>,
    date: Instant)

  /** `new SettingsModel()`; both time bounds default to the current time. */
  function DefaultSettings(now: Instant): (s: Settings)
    ensures s.isAnonymous && !s.isGroup && !s.isMultiple
    ensures !s.isTimeBound && !s.isResponseLimit && !s.isResponseLimitPerUser
  {
    Settings(
      isAnonymous := true,
      isMultiple := false,
      isEditable := false,
      isGroup := false,
      isTimeBound := false,
      startTime := now,
      endTime := now,
      isResponseLimit := false,
      responseLimit := 0,
      isResponseLimitPerUser := false,
      responseLimitPerUser := 0,
      showProgressBar := false,
      confirmationMessage := "Your response has been recorded")
  }

  /** `new CSSModel()`. */
  const DefaultCss: Css := Css("Roboto", "Roboto", "Roboto", None, None, None)

  /** The single placeholder question a new `MetaDataModel` starts with. */
  function DefaultQuestion(id: Guid): Question {
    Question(id, "Untitled Question", Some(""), Some(["Option1"]), "Radio")
  }

  /** A tracker for a participant who has neither seen nor filled the form. */
  function FreshTracker(email: Email): Tracker {
    Tracker(email, false, false)
  }

  /** One fresh tracker per email, in order (duplicates included). */
  function FreshTrackers(emails: seq<Email>): (ts: seq<Tracker>)
    ensures |ts| == |emails|
    ensures forall i :: 0 <= i < |ts| ==> ts[i] == FreshTracker(emails[i])
  {
    seq(|emails|, i requires 0 <= i < |emails| => FreshTracker(emails[i]))
  }

  /** The emails of a tracker list, in order. */
  function Emails(ts: seq<Tracker>): (es: seq<Email>)
    ensures |es| == |ts|
    ensures forall i :: 0 <= i < |ts| ==> es[i] == ts[i].email
  {
    seq(|ts|, i requires 0 <= i < |ts| => ts[i].email)
  }

  /** The emails of fresh trackers are the emails they were made from. */
  lemma EmailsOfFresh(emails: seq<Email>)
    ensures Emails(FreshTrackers(emails)) == emails
  {
  }

  /** A tracker is among the fresh trackers for `emails` exactly when it is
      unseen, unfilled and for one of those emails. */
  lemma InFreshTrackers(emails: seq<Email>, t: Tracker)
    ensures t in FreshTrackers(emails) <==> t == FreshTracker(t.email) && t.email in emails
  {
    if t == FreshTracker(t.email) && t.email in emails {
      assert FreshTrackers(emails)[IndexOf(emails, t.email)] == t;
    }
  }

  lemma EmailsAppend(a: seq<Tracker>, b: seq<Tracker>)
    ensures Emails(a + b) == Emails(a) + Emails(b)
  {
  }

  /** The tracking snapshot `AddGroupToForm` takes of a group. */
  function Snapshot(g: Group): (tg: TrackingGroup)
    ensures tg.groupId == g.groupId && tg.groupName == g.groupName
    ensures Emails(tg.participants) == g.members
    ensures forall i :: 0 <= i < |tg.participants| ==> !tg.participants[i].seen && !tg.participants[i].filled
  {
    TrackingGroup(g.groupName, g.groupId, FreshTrackers(g.members))
  }
}
