/**
 * The buttons of the standalone client that talk to the backend: the two
 * "Generate" buttons, which refuse an empty prompt, disable themselves while
 * a request is in flight and always re-enable afterwards; the "Delete"
 * buttons, guarded by their data attributes and a confirmation; and the
 * "Assign" buttons, guarded by the drop-down's selection.
 */
module FrontendActions {
  import opened Json
  import opened Http
  import opened FrontendApi

  const BusyLabel := "Generating..."
  const UnknownError := "Unknown error occurred"
  const SelectLocationAlert := "Please select a location from the dropdown."

  datatype Kind = CharacterKind | LocationKind

  function IdleLabel(kind: Kind): string {
    match kind
    case CharacterKind => "Generate Character"
    case LocationKind => "Generate Location"
  }

  function EmptyPromptAlert(kind: Kind): string {
    match kind
    case CharacterKind => "Please describe your world first!"
    case LocationKind => "Please enter a world description for the location."
  }

  function GeneratePath(kind: Kind): string {
    match kind
    case CharacterKind => "/api/generate/character"
    case LocationKind => "/api/generate/location"
  }

  function GenerateRequest(kind: Kind, prompt: string): Request {
    Request(Post, ApiBaseUrl + GeneratePath(kind), Some(Obj(map["prompt" := Str(prompt)])))
  }

  /** What a click on a "Generate" button does at once. */
  datatype ClickEffect = Alerted(text: string) | Sent(request: Request)

  /**
   * How a generation request settles: the record shown, a refusal carrying the
   * server's `error` (or the fallback text), or an error the runtime raised (a
   * body that is not JSON, a `null` error body, a transport failure) whose
   * message is the runtime's own.
   */
  datatype GenerateResult = Generated(data: Value) | Refused(message: string) | RuntimeError

  /** `new Error(errorData.error || 'Unknown error occurred').message` for a non-null error body. */
  function RefusalMessage(errorData: Value): (m: string)
    requires errorData != Null
    ensures m != ""
    ensures !(errorData.Obj? && "error" in errorData.fields && JsTruthy(errorData.fields["error"])) ==> m == UnknownError
    ensures (errorData.Obj? && "error" in errorData.fields && errorData.fields["error"].Str? &&
             errorData.fields["error"].s != "") ==> m == errorData.fields["error"].s
  {
    var e := Prop(errorData, "error");
    if Truthy(e) then ToJsString(e.value) else UnknownError
  }

  function GenerateOutcome(reply: Reply): (r: GenerateResult)
    ensures r.Generated? <==> reply.Reply? && IsOk(reply.status) && reply.body.Some?
    ensures r.Generated? ==> r.data == reply.body.value
    ensures r.Refused? <==> reply.Reply? && !IsOk(reply.status) && reply.body.Some? && reply.body.value != Null
    ensures r.Refused? ==> r.message != ""
  {
    match reply
    case NetworkFailure => RuntimeError
    case Reply(status, body) =>
      if body.None? then RuntimeError
      else if IsOk(status) then Generated(body.value)
      else if body.value == Null then RuntimeError
      else Refused(RefusalMessage(body.value))
  }

  /** A "Generate" button: its `disabled` flag and its text. */
  class GenerateButton {
    const kind: Kind
    var disabled: bool
    var text: string

    constructor (kind: Kind)
      ensures this.kind == kind && !disabled && text == IdleLabel(kind)
    {
      this.kind := kind;
      disabled := false;
      text := IdleLabel(kind);
    }

    /** A click with the prompt field's value: an empty prompt only raises an alert. */
    method Click(prompt: string) returns (effect: ClickEffect)
      modifies this
      ensures prompt == "" ==> effect == Alerted(EmptyPromptAlert(kind)) && disabled == old(disabled) && text == old(text)
      ensures prompt != "" ==> effect == Sent(GenerateRequest(kind, prompt)) && disabled && text == BusyLabel
    {
      if prompt == "" {
        return Alerted(EmptyPromptAlert(kind));
      }
      disabled := true;
      text := BusyLabel;
      effect := Sent(GenerateRequest(kind, prompt));
    }

    /** The request settles: the `finally` re-enables the button whatever happened. */
    method Settle(reply: Reply) returns (result: GenerateResult)
      modifies this
      ensures result == GenerateOutcome(reply)
      ensures !disabled && text == IdleLabel(kind)
    {
      result := GenerateOutcome(reply);
      disabled := false;
      text := IdleLabel(kind);
    }
  }

  /**
   * A click with a non-empty prompt sends the generation request, and whatever
   * the reply, its settlement shows that reply's outcome and leaves the button
   * as it started.
   */
  method GenerateRoundTrip(kind: Kind, prompt: string, reply: Reply)
    returns (effect: ClickEffect, result: GenerateResult, disabled: bool, text: string)
    requires prompt != ""
    ensures effect == Sent(GenerateRequest(kind, prompt))
    ensures result == GenerateOutcome(reply)
    ensures !disabled && text == IdleLabel(kind)
  {
    var button := new GenerateButton(kind);
    effect := button.Click(prompt);
    result := button.Settle(reply);
    disabled, text := button.disabled, button.text;
  }

  /** What a click on a "Delete" button does. */
  datatype DeleteEffect = Ignored | Declined(question: string) | Requested(question: string, request: Request)

  function DeleteQuestion(kind: string): string {
    "Are you sure you want to delete this " + kind + "?"
  }

  function DeletePath(kind: string, id: string): string {
    "/api/" + kind + "s/" + id
  }

  /**
   * The delete branch of the click handler: `id` and `kind` are the button's
   * `data-id` and `data-type` (`None` when absent), `confirmed` the user's
   * answer to the confirmation.
   */
  function DeleteClick(id: Option<string>, kind: Option<string>, confirmed: bool): (e: DeleteEffect)
    ensures e.Ignored? <==> id.None? || id.value == "" || kind.None? || kind.value == ""
    ensures !e.Ignored? ==> e.question == DeleteQuestion(kind.value)
    ensures e.Requested? <==> !e.Ignored? && confirmed
    ensures e.Requested? ==> e.request == Request(Delete, ApiBaseUrl + DeletePath(kind.value, id.value), None)
  {
    if id.None? || id.value == "" || kind.None? || kind.value == "" then Ignored
    else if !confirmed then Declined(DeleteQuestion(kind.value))
    else Requested(DeleteQuestion(kind.value), Request(Delete, ApiBaseUrl + DeletePath(kind.value, id.value), None))
  }

  /** What a click on an "Assign" button does. */
  datatype AssignEffect = AssignAlert(text: string) | AssignRequest(request: Request)

  function LinkRequest(characterId: string, locationId: string): Request {
    Request(Put, ApiBaseUrl + "/api/characters/" + characterId + "/link_location",
            Some(Obj(map["location_id" := Str(locationId)])))
  }

  /** The assign branch: `selected` is the drop-down's value, "" for the placeholder. */
  function AssignClick(characterId: string, selected: string): (e: AssignEffect)
    ensures e.AssignAlert? <==> selected == ""
    ensures e.AssignAlert? ==> e.text == SelectLocationAlert
    ensures e.AssignRequest? ==> e.request == LinkRequest(characterId, selected)
  {
    if selected == "" then AssignAlert(SelectLocationAlert) else AssignRequest(LinkRequest(characterId, selected))
  }
}
