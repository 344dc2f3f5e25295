/** The request `handleExecuteCrew` sends to `POST /execute-crew`, the guard that
    enables the "Process Content" button, and how the page reads the reply. */
module Submission {
  import opened JsValues
  import opened CrewSettings

  /** The error shown when a rejected reply carries no (truthy) `error`. */
  const DefaultExecuteError: string := "Failed to execute crew"

  /** The request body `{crew, data: {content, client_id, settings,
      special_instructions}}`. A JsUndefined `clientId` or `settings` is a key
      that `JSON.stringify` leaves out. */
  datatype Payload = Payload(
    crew: string,
    content: string,
    clientId: JsValue,
    settings: JsValue,
    specialInstructions: string)

  /** `crewSettings[crewType]` as a value. */
  function SettingsOf(s: Settings, kind: string): JsValue
  {
    if kind in s then JsObject(s[kind]) else JsUndefined
  }

  /** The payload literal of `handleExecuteCrew`. */
  function BuildPayload(crewType: string, content: string, selected: Option<Client>,
                        settings: Settings, specialInstructions: string): (p: Payload)
    ensures p.crew == crewType && p.content == content
    ensures p.specialInstructions == specialInstructions
    ensures selected.None? ==> p.clientId == JsUndefined
    ensures selected.Some? ==> p.clientId == Field(selected.value, "id")
    ensures crewType in settings <==> p.settings.JsObject?
    ensures crewType in settings ==> p.settings.fields == settings[crewType]
    ensures crewType !in settings ==> p.settings == JsUndefined
  {
    Payload(crewType, content,
            match selected case None => JsUndefined case Some(c) => Field(c, "id"),
            SettingsOf(settings, crewType), specialInstructions)
  }

  /** Editing another kind's settings does not change what is sent. */
  lemma PayloadIgnoresOtherKindEdits(crewType: string, content: string, selected: Option<Client>,
                                     s: Settings, special: string,
                                     crew: string, field: string, value: JsValue)
    requires crew != crewType
    ensures BuildPayload(crewType, content, selected, EditSetting(s, crew, field, value), special)
         == BuildPayload(crewType, content, selected, s, special)
  {
  }

  /** Refreshing the autoblogging settings from a client does not change what
      is sent for any other kind. */
  lemma PayloadIgnoresClientRefresh(crewType: string, content: string, selected: Option<Client>,
                                    s: Settings, special: string, client: Client)
    requires crewType != Autoblogging
    ensures BuildPayload(crewType, content, selected, ApplyClient(s, client), special)
         == BuildPayload(crewType, content, selected, s, special)
  {
  }

  /** The button is enabled unless `isProcessing || !selectedClient || !contentInput`. */
  predicate SubmitEnabled(isProcessing: bool, selected: Option<Client>, content: string)
  {
    !(isProcessing || selected.None? || content == "")
  }

  /** A payload built while the button is enabled names the selected client and
      carries non-empty content. */
  lemma EnabledPayload(crewType: string, content: string, selected: Option<Client>,
                       s: Settings, special: string, isProcessing: bool)
    requires SubmitEnabled(isProcessing, selected, content)
    ensures var p := BuildPayload(crewType, content, selected, s, special);
            p.content != "" && p.clientId == Field(selected.value, "id") && !isProcessing
  {
  }

  /** What the awaited part of `handleExecuteCrew` meets: `fetch` or
      `response.json()` rejected with an Error carrying `message`, or a parsed
      body together with `response.ok`. */
  datatype SubmitResponse =
    | Rejected(message: string)
    | Replied(ok: bool, body: JsValue)

  /** The task was accepted with this id, or the banner shows this message. */
  datatype ExecuteResult = Started(taskId: JsValue) | Failed(message: string)

  /** The reply's effect: a rejected reply throws `new Error(data.error ||
      "Failed to execute crew")`, an accepted one yields `data.task_id`, and any
      exception's message becomes the error. Reading a property of a null body
      throws a TypeError. */
  function ExecuteOutcome(resp: SubmitResponse): (r: ExecuteResult)
    ensures r.Started? <==> resp.Replied? && resp.ok && !IsNullish(resp.body)
    ensures r.Started? ==> r.taskId == Get(resp.body, "task_id")
    ensures resp.Rejected? ==> r == Failed(resp.message)
  {
    match resp
    case Rejected(m) => Failed(m)
    case Replied(ok, body) =>
      if IsNullish(body) then Failed(ReadOfNullishMessage(body, if ok then "task_id" else "error"))
      else if !ok then Failed(ToJsString(Or(Get(body, "error"), JsString(DefaultExecuteError))))
      else Started(Get(body, "task_id"))
  }

  /** A rejected reply shows the body's `error` string when it is non-empty and
      the fallback message when the body has no `error` or a falsy one. */
  lemma RejectedReplyMessage(fields: map<string, JsValue>)
    ensures var r := ExecuteOutcome(Replied(false, JsObject(fields)));
            && ("error" in fields && fields["error"].JsString? && fields["error"].s != ""
                ==> r == Failed(fields["error"].s))
            && ("error" !in fields || !Truthy(fields["error"]) ==> r == Failed(DefaultExecuteError))
  {
  }
}
