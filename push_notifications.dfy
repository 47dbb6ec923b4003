// The admin form for sending a push notification: audience, texts, the
// selected recipients and the payload handed to the send function.
module PushNotifications {
  import opened Wrappers
  import opened Text
  import opened Lists

  datatype Audience = All | GameRegistered | User

  datatype UserOption = UserOption(id: string, fullName: Option<string>)

  /** toggleUserSelection: a selected id is removed (every copy), another one is appended. */
  function ToggleUser(selected: seq<string>, userId: string): (r: seq<string>)
    ensures userId in r <==> userId !in selected
    ensures forall y :: y != userId ==> (y in r <==> y in selected)
    ensures userId !in selected ==> r == selected + [userId]
    ensures userId in selected ==> IsSubsequence(r, selected)
  {
    if userId in selected then Remove(selected, userId) else selected + [userId]
  }

  /** Selecting and deselecting a user leaves the selection as it was. */
  lemma ToggleTwice(selected: seq<string>, userId: string)
    requires userId !in selected
    ensures ToggleUser(ToggleUser(selected, userId), userId) == selected
  {
    RemoveAppended(selected, userId);
    RemoveAbsent(selected, userId);
  }

  /** clearSelectedUser */
  function ClearUser(selected: seq<string>, userId: string): (r: seq<string>)
    ensures userId !in r
    ensures forall y :: y != userId ==> (y in r <==> y in selected)
    ensures IsSubsequence(r, selected)
  {
    Remove(selected, userId)
  }

  /** A missing name reads as the empty string. */
  function NameOf(u: UserOption): string
  {
    if u.fullName.Some? then u.fullName.value else ""
  }

  /** filteredUsers: every user for a blank query, otherwise those whose lower-cased name contains it. */
  function FilteredUsers(users: seq<UserOption>, search: string): (r: seq<UserOption>)
    ensures ToLower(Trim(search)) == "" ==> r == users
    ensures ToLower(Trim(search)) != "" ==>
      IsSubsequence(r, users)
      && forall u :: u in r <==> u in users && Contains(ToLower(NameOf(u)), ToLower(Trim(search)))
    ensures ToLower(Trim(search)) != "" ==>
      forall u :: multiset(r)[u] == if Contains(ToLower(NameOf(u)), ToLower(Trim(search))) then multiset(users)[u] else 0
  {
    var query := ToLower(Trim(search));
    if query == "" then users
    else
      var p := (u: UserOption) => Contains(ToLower(NameOf(u)), query);
      KeepCount(users, p);
      Keep(users, p)
  }

  /** The form as handleSubmit reads it. */
  datatype PushForm = PushForm(
    audience: Audience, title: string, body: string, url: string,
    selectedUserIds: seq<string>, gameId: string)

  datatype SubmitError = MissingTitleOrBody | NoUserSelected | MissingGameId

  /** The body sent to `send-push`; an absent field is None. */
  datatype Payload = Payload(
    eventType: string, audience: Audience, title: string, body: string,
    url: Option<string>, userIds: Option<seq<string>>, gameId: Option<string>)

  /** `!text.trim()`: nothing but whitespace. */
  predicate Blank(text: string)
  {
    AllWhitespace(text)
  }

  /** handleSubmit's checks, in order. */
  function Validate(f: PushForm): (r: Option<SubmitError>)
    ensures r == Some(MissingTitleOrBody) <==> Blank(f.title) || Blank(f.body)
    ensures r == Some(NoUserSelected) <==>
      !Blank(f.title) && !Blank(f.body) && f.audience == User && f.selectedUserIds == []
    ensures r == Some(MissingGameId) <==>
      !Blank(f.title) && !Blank(f.body) && f.audience == GameRegistered && Blank(f.gameId)
  {
    if Blank(f.title) || Blank(f.body) then Some(MissingTitleOrBody)
    else if f.audience == User && f.selectedUserIds == [] then Some(NoUserSelected)
    else if f.audience == GameRegistered && Blank(f.gameId) then Some(MissingGameId)
    else None
  }

  /** The payload handleSubmit builds once the checks pass. */
  function PayloadOf(f: PushForm): Payload
    requires Validate(f).None?
  {
    Payload(
      "manual", f.audience, Trim(f.title), Trim(f.body),
      if Trim(f.url) != "" then Some(Trim(f.url)) else None,
      if f.audience == User then Some(f.selectedUserIds) else None,
      if f.audience == GameRegistered then Some(Trim(f.gameId)) else None)
  }

  /** The payload carries trimmed, non-empty texts and exactly the fields its audience needs. */
  lemma PayloadFields(f: PushForm)
    requires Validate(f).None?
    ensures var p := PayloadOf(f);
      p.eventType == "manual" && p.audience == f.audience
      && p.title == Trim(f.title) != "" && p.body == Trim(f.body) != ""
      && (p.url.Some? <==> Trim(f.url) != "") && (p.url.Some? ==> p.url.value == Trim(f.url))
      && (p.userIds.Some? <==> f.audience == User) && (p.userIds.Some? ==> p.userIds.value == f.selectedUserIds != [])
      && (p.gameId.Some? <==> f.audience == GameRegistered) && (p.gameId.Some? ==> p.gameId.value == Trim(f.gameId) != "")
  {
    TrimEmptyIffAllWhitespace(f.title);
    TrimEmptyIffAllWhitespace(f.body);
    TrimEmptyIffAllWhitespace(f.gameId);
  }

  /** What `send-push` answered. */
  datatype SendResponse = SendFailed(message: string) | Skipped(reason: string) | Sent

  /** The form after a successful send: empty fields, the audience kept. */
  function Cleared(audience: Audience): (f: PushForm)
    ensures f.audience == audience && f.selectedUserIds == []
    ensures Validate(f) == Some(MissingTitleOrBody)
  {
    PushForm(audience, "", "", "", [], "")
  }

  /** handleSubmit's result: the first failed check, or the payload. */
  function Submission(f: PushForm): (r: Result<Payload, SubmitError>)
    ensures r.Failure? <==> Validate(f).Some?
    ensures r.Failure? ==> r.error == Validate(f).value
  {
    if Validate(f).Some? then Failure(Validate(f).value) else Success(PayloadOf(f))
  }

  class PushNotificationsScreen {
    var form: PushForm
    var userSearch: string
    var sending: bool

    constructor ()
      ensures form == PushForm(All, "", "", "", [], "") && userSearch == "" && !sending
    {
      form := PushForm(All, "", "", "", [], "");
      userSearch := "";
      sending := false;
    }

    method ToggleUserSelection(userId: string)
      modifies this`form
      ensures form == old(form).(selectedUserIds := ToggleUser(old(form).selectedUserIds, userId))
    {
      form := form.(selectedUserIds := ToggleUser(form.selectedUserIds, userId));
    }

    method ClearSelectedUser(userId: string)
      modifies this`form
      ensures form == old(form).(selectedUserIds := ClearUser(old(form).selectedUserIds, userId))
    {
      form := form.(selectedUserIds := ClearUser(form.selectedUserIds, userId));
    }

    /** handleSubmit: the fields are cleared only after a send that was not skipped. */
    method Submit(response: SendResponse) returns (sent: Result<Payload, SubmitError>)
      modifies this`form, this`userSearch, this`sending
      ensures sent == Submission(old(form))
      ensures sending == (if sent.Success? then false else old(sending))
      ensures if sent.Success? && response == Sent then form == Cleared(old(form).audience) && userSearch == ""
              else form == old(form) && userSearch == old(userSearch)
    {
      sent := Submission(form);
      if sent.Success? {
        sending := true;
        if response == Sent {
          form := Cleared(form.audience);
          userSearch := "";
        }
        sending := false;
      }
    }
  }
}
