/**
 * The `/webhook-retell` route: turning Retell's post-call analysis into
 * Messenger notifications through the Graph API.
 */
module Notification {
  import opened JsValues
  import opened Settings

  const CallAnalyzed: string := "call_analyzed"
  const EventManager: string := "event_manager"
  const Reception: string := "recepcja"

  /** Shown when the analysis carries no summary. */
  const NoSummary: string := "Brak podsumowania"

  /** `call.call_analysis`, with `custom_analysis_data.receiver_type` lifted up. */
  datatype CallAnalysis = CallAnalysis(callSummary: Option<string>, receiverType: Option<string>)

  /** The `call` object of a webhook body. */
  datatype Call = Call(fromNumber: Option<string>, callAnalysis: Option<CallAnalysis>, recordingUrl: Option<string>)

  /** A webhook body: `{ event, call }`. */
  datatype Webhook = Webhook(event: Option<string>, call: Option<Call>)

  /** The request body the Graph API receives for one message. */
  datatype FbMessage = FbMessage(
    recipientId: Option<string>,
    messagingType: string,
    tag: string,
    text: string,
    accessToken: Option<string>)

  /** What the route does, in order: the reply to Retell, then each Graph API post it attempts. */
  datatype WebhookEffect =
    | Acknowledge(status: int)
    | Post(url: string, message: FbMessage)

  /** `RECIPIENT_TYPES`: the display label of each recipient tag. */
  function Label(tag: Option<string>): (l: Option<string>)
    ensures l.Some? <==> tag == Some(EventManager) || tag == Some(Reception)
    ensures l.Some? ==> l.value != ""
    ensures tag == Some(EventManager) ==> l == Some("Event Manager")
    ensures tag == Some(Reception) ==> l == Some("Recepcja")
  {
    if tag == Some(EventManager) then Some("Event Manager")
    else if tag == Some(Reception) then Some("Recepcja")
    else None
  }

  /** `RECIPIENT_IDS[tag]`: the Messenger id configured for a tag, `None` for any other tag. */
  function RecipientId(env: Env, tag: Option<string>): (id: Option<string>)
    ensures id.Some? ==> Label(tag).Some?
    ensures tag == Some(EventManager) ==> id == env.managerId
    ensures tag == Some(Reception) ==> id == env.receptionId
  {
    if tag == Some(EventManager) then env.managerId
    else if tag == Some(Reception) then env.receptionId
    else None
  }

  /** The payload `formatFbMessage` builds: a tagged message to one recipient. */
  function FormatFbMessage(env: Env, recipientId: Option<string>, messageBody: string): (m: FbMessage)
    ensures m.recipientId == recipientId && m.text == messageBody
    ensures m.messagingType == "MESSAGE_TAG" && m.tag == "ACCOUNT_UPDATE"
    ensures m.accessToken == env.fbAccessToken
  {
    FbMessage(recipientId, "MESSAGE_TAG", "ACCOUNT_UPDATE", messageBody, env.fbAccessToken)
  }

  /** The Graph API endpoint every message is posted to. */
  function GraphUrl(env: Env): string
  {
    "https://graph.facebook.com/" + Render(env.fbApiVersion) + "/" + Render(env.fbPageId) + "/messages"
  }

  /** The summary line's text: the call summary when it is a non-empty string, otherwise the placeholder. */
  function DisplayedSummary(analysis: Option<CallAnalysis>): (s: string)
    ensures s != ""
    ensures analysis.Some? && Truthy(analysis.value.callSummary) ==> s == analysis.value.callSummary.value
    ensures !(analysis.Some? && Truthy(analysis.value.callSummary)) ==> s == NoSummary
  {
    if analysis.Some? && Truthy(analysis.value.callSummary) then analysis.value.callSummary.value else NoSummary
  }

  /** `call.call_analysis?.custom_analysis_data?.receiver_type`. */
  function ReceiverType(call: Call): (t: Option<string>)
    ensures call.callAnalysis.None? ==> t.None?
    ensures call.callAnalysis.Some? ==> t == call.callAnalysis.value.receiverType
  {
    if call.callAnalysis.Some? then call.callAnalysis.value.receiverType else None
  }

  /** The notification text for a call, addressed to the recipient labelled `recipientLabel`. */
  function MessageBody(call: Call, recipientLabel: Option<string>): string
  {
    "\U{1F4DE} " + ("Numer: " + Render(call.fromNumber) + "\n")
    + "\U{1F3E2} " + ("Odbiorca: " + Render(recipientLabel) + "\n")
    + "\U{1F4DD} " + ("Podsumowanie: " + DisplayedSummary(call.callAnalysis) + "\n\n")
    + "\U{25B6}\U{FE0F} " + ("Nagranie: " + Render(call.recordingUrl))
  }

  /** `t` occurs in `s` as a contiguous piece. */
  ghost predicate Contains(s: string, t: string)
  {
    exists i, j :: 0 <= i <= j <= |s| && s[i..j] == t
  }

  lemma ContainsSuffix(x: string, t: string)
    ensures Contains(x + t, t)
  {
    assert (x + t)[|x|..|x| + |t|] == t;
  }

  lemma ContainsExtended(s: string, t: string, y: string)
    requires Contains(s, t)
    ensures Contains(s + y, t)
  {
    var i, j :| 0 <= i <= j <= |s| && s[i..j] == t;
    assert (s + y)[i..j] == t;
  }

  /**
   * The text names the caller, the recipient, the summary (or its
   * placeholder) and the recording, each right after its own label.
   */
  lemma MessageBodyFields(call: Call, recipientLabel: Option<string>)
    ensures var body := MessageBody(call, recipientLabel);
      && Contains(body, "Numer: " + Render(call.fromNumber) + "\n")
      && Contains(body, "Odbiorca: " + Render(recipientLabel) + "\n")
      && Contains(body, "Podsumowanie: " + DisplayedSummary(call.callAnalysis) + "\n\n")
      && Contains(body, "Nagranie: " + Render(call.recordingUrl))
  {
    var number := "Numer: " + Render(call.fromNumber) + "\n";
    var recipient := "Odbiorca: " + Render(recipientLabel) + "\n";
    var summary := "Podsumowanie: " + DisplayedSummary(call.callAnalysis) + "\n\n";
    var recording := "Nagranie: " + Render(call.recordingUrl);
    var p1 := "\U{1F4DE} " + number;
    var p2 := p1 + "\U{1F3E2} " + recipient;
    var p3 := p2 + "\U{1F4DD} " + summary;
    var p4 := p3 + "\U{25B6}\U{FE0F} " + recording;
    ContainsSuffix("\U{1F4DE} ", number);
    ContainsExtended(p1, number, "\U{1F3E2} ");
    ContainsExtended(p1 + "\U{1F3E2} ", number, recipient);
    ContainsSuffix(p1 + "\U{1F3E2} ", recipient);
    ContainsExtended(p2, number, "\U{1F4DD} ");
    ContainsExtended(p2 + "\U{1F4DD} ", number, summary);
    ContainsExtended(p2, recipient, "\U{1F4DD} ");
    ContainsExtended(p2 + "\U{1F4DD} ", recipient, summary);
    ContainsSuffix(p2 + "\U{1F4DD} ", summary);
    ContainsExtended(p3, number, "\U{25B6}\U{FE0F} ");
    ContainsExtended(p3 + "\U{25B6}\U{FE0F} ", number, recording);
    ContainsExtended(p3, recipient, "\U{25B6}\U{FE0F} ");
    ContainsExtended(p3 + "\U{25B6}\U{FE0F} ", recipient, recording);
    ContainsExtended(p3, summary, "\U{25B6}\U{FE0F} ");
    ContainsExtended(p3 + "\U{25B6}\U{FE0F} ", summary, recording);
    ContainsSuffix(p3 + "\U{25B6}\U{FE0F} ", recording);
    assert MessageBody(call, recipientLabel) == p4;
  }

  /** A completed analysis of a call with a caller number: the only events the route acts on. */
  predicate Analyzed(hook: Webhook)
  {
    hook.event == Some(CallAnalyzed) && hook.call.Some? && Truthy(hook.call.value.fromNumber)
  }

  /** The tag the event names, when it is an event the route acts on. */
  function Tag(hook: Webhook): Option<string>
  {
    if Analyzed(hook) then ReceiverType(hook.call.value) else None
  }

  /** The messages the route means to send for one event, in order. */
  function Plan(env: Env, hook: Webhook): (sends: seq<FbMessage>)
    ensures !Analyzed(hook) ==> sends == []
    ensures !Truthy(RecipientId(env, Tag(hook))) ==> sends == []
    ensures |sends| <= 2
    ensures |sends| == 1 <==> Tag(hook) == Some(EventManager) && Truthy(env.managerId)
    ensures |sends| == 2 <==> Tag(hook) == Some(Reception) && Truthy(env.receptionId)
    ensures |sends| > 0 ==> sends[0] == FormatFbMessage(env, RecipientId(env, Tag(hook)), MessageBody(hook.call.value, Label(Tag(hook))))
    ensures |sends| == 2 ==> sends[0].recipientId == env.receptionId && sends[1] == sends[0].(recipientId := env.managerId)
  {
    var tag := Tag(hook);
    var id := RecipientId(env, tag);
    if !Truthy(id) then []
    else
      var body := MessageBody(hook.call.value, Label(tag));
      var first := FormatFbMessage(env, id, body);
      if tag != Some(EventManager) then [first, FormatFbMessage(env, env.managerId, body)] else [first]
  }

  /**
   * The route handler: acknowledge at once, then post the planned messages
   * one after the other. `firstPostOk` says whether the first post went
   * through; when it throws, the handler stops there and the copy to the
   * event manager is never sent.
   */
  method HandleWebhook(env: Env, hook: Webhook, firstPostOk: bool) returns (effects: seq<WebhookEffect>)
    ensures |effects| >= 1 && effects[0] == Acknowledge(204)
    ensures |effects| - 1 == if firstPostOk || Plan(env, hook) == [] then |Plan(env, hook)| else 1
    ensures forall i :: 1 <= i < |effects| ==> effects[i] == Post(GraphUrl(env), Plan(env, hook)[i - 1])
  {
    effects := [Acknowledge(204)];
    if hook.event == Some(CallAnalyzed) && hook.call.Some? && Truthy(hook.call.value.fromNumber) {
      var call := hook.call.value;
      var facebookApiUrl := GraphUrl(env);
      var receiverType := ReceiverType(call);
      var id := RecipientId(env, receiverType);
      if Truthy(id) {
        var messageBody := MessageBody(call, Label(receiverType));
        effects := effects + [Post(facebookApiUrl, FormatFbMessage(env, id, messageBody))];
        if firstPostOk && receiverType != Some(EventManager) {
          effects := effects + [Post(facebookApiUrl, FormatFbMessage(env, env.managerId, messageBody))];
        }
      }
    }
  }
}
