# drachtio-bridge, modelled in Dafny

`script.js` bridges a SIP trunk provider and Retell's AI voice agents through
a drachtio SIP server, and posts Retell's post-call analyses to Facebook
Messenger. This project models the decision logic of that script. The
drachtio, Retell, Express and Graph API calls are left out. What they came to
is passed in as an input, and what the script does with them is returned as
a value or kept in an object's state.

- `js_values.dfy` (`JsValues`): `undefined`-or-string values, JavaScript truthiness, and how template literals render them.
- `settings.dfy` (`Settings`): the environment variables, each of which may be unset, plus `DEFAULT_EXPIRES` and the address-of-record `sip:<user>@<realm>`.
- `registration.dfy` (`Registration`): the REGISTER request, the step from a request's outcome to the next timer, and the self-rescheduling loop (`doRegister`).
- `admission.dfy` (`Admission`): the source-address filter that runs first in the INVITE handler.
- `bridge.dfy` (`Bridge`):
  - the leg-B target `sip:<call_id>@sip.retellai.com`;
  - the handler's actions: register the call, create the B2BUA, send the error responses;
  - a `Session` class for the two bridged dialogs, whose `destroy` handlers tear down each other.
- `notification.dfy` (`Notification`):
  - the recipient directory;
  - the message text and the Graph API payload;
  - the plan of sends for one webhook event;
  - the handler, which acknowledges first and skips the copy to the manager once the first post throws.

The model follows the code as written, including where a cleaner design would differ:

- A failed `registerPhoneCall` is answered 500, not 503.
- There is no retry counter.
- A non-200 REGISTER response schedules nothing: that chain of registrations ends, until the next `connect` event from drachtio starts another one.
- The renewal delay comes from the requested expiry (3600 s), not from the expiry the provider granted.
- The copy to the event manager is not sent when the first post throws.

## Model

| member | source | states |
|---|---|---|
| Registration.NextDelay | script.js:54-63 | a 200 response arms the next REGISTER after 1,800,000 ms, a thrown request arms a retry after 30,000 ms, and any other response arms nothing, each case if and only if |
| Registration.RunRegistration | script.js:42-68 | over any run of outcomes: one REGISTER per cycle; the i-th timer is the `NextDelay` of the i-th outcome, and it is 30,000 ms exactly when that request threw, whatever came before; the loop ends only at the first non-200 response |
| Registration.Register | script.js:39-53 | REGISTER for the AOR `sip:<user>@<realm>` through the proxy `sip:<SIP_IPV4>:<SIP_PORT>`, From equal to the AOR, requested expiry 3600 s, with the configured credentials; as written, the Contact is `<sip:` + AOR + `>;expires=3600`, with the same expiry as the header, so it binds `sip:` followed by the AOR |
| Registration.RegisterCorrected | script.js:39-53 | the same request in every field but the Contact, which is `<` + AOR + `>;expires=3600` and binds exactly the AOR |
| Registration.ContactAsWrittenDoublesScheme | script.js:49 | the Contact as written binds `sip:` followed by the AOR, and that is not the AOR |
| Registration.ContactNamesAor | script.js:39-49 | the corrected Contact binds exactly the AOR the REGISTER is for |
| Admission.Screen | script.js:72-79 | the INVITE proceeds if and only if its source address equals `SIP_REALM`; otherwise the answer is 403; an unset realm refuses every INVITE |
| Bridge.LegBUriRoundTrip | script.js:90 | the Retell `call_id` is recovered from the leg-B target, so distinct calls get distinct targets |
| Bridge.InviteEffects | script.js:72-104 | refused source: only a 403, with no Retell call; a 403 iff the source is refused; the handler itself sends no response other than 403 or 500 (the answers `createB2BUA` gives leg A are the library's); the Retell registration is attempted iff the source is trusted, once and first; a bridge is attempted iff the registration succeeded, once and second, towards `sip:<call_id>@sip.retellai.com` with the INVITE body unchanged; a 500 goes out iff the registration failed or the bridge failed before a final response; at most one response of its own, always last |
| Bridge.HandleInvite | script.js:72-105 | performs `InviteEffects`, and leaves a new session with both legs active exactly when the source is trusted, the registration succeeded and the bridge came up |
| Bridge.Session.constructor | script.js:93 | a bridged call starts with both dialogs active and no teardown issued |
| Bridge.Session.Destroy | script.js:94-95 | `destroy()` ends that dialog and records one teardown on it; the other dialog is untouched |
| Bridge.Session.OnDestroy | script.js:94-95 | a far-end hang-up on either leg ends both legs, with exactly one teardown issued, on the other leg; an event on an ended leg changes nothing; the pairing invariant `Valid` is kept |
| Notification.Label | script.js:28 | a label exists exactly for `event_manager` (`Event Manager`) and `recepcja` (`Recepcja`), and it is never empty |
| Notification.ReceiverType | script.js:127 | the tag is `receiver_type` when the call carries an analysis, and undefined when it does not |
| Notification.RecipientId | script.js:28-29 | a Messenger id exists only for the two tags that have a label; `event_manager` maps to `MANAGER_ID`, `recepcja` to `RECEPTION_ID` |
| Notification.FormatFbMessage | script.js:109-117 | the payload carries the given recipient and text, the type `MESSAGE_TAG`, the tag `ACCOUNT_UPDATE` and the page access token |
| Notification.MessageBodyFields | script.js:131 | the message text holds the caller number after `Numer: `, the recipient label after `Odbiorca: `, the summary or its placeholder after `Podsumowanie: `, and the recording URL after `Nagranie: ` |
| Notification.DisplayedSummary | script.js:126 | the summary line is never empty: it is the call summary when that is a non-empty string, otherwise `Brak podsumowania` |
| Notification.Plan | script.js:123-139 | no sends unless the event is `call_analyzed` with a truthy `from_number` and the tag's id is truthy; one send iff the tag is `event_manager`; two iff it is `recepcja`, first to `RECEPTION_ID`, then to `MANAGER_ID`, with the identical body |
| Notification.HandleWebhook | script.js:119-146 | answers 204 before anything else; then attempts the planned posts in order, each to `https://graph.facebook.com/<FB_API_VERSION>/<FB_PAGE_ID>/messages`, stopping after the first one if it threw |

## Left out

- The drachtio connection, SIP transport, `srf.request` and `createB2BUA` are foreign library calls. Their results are inputs: a REGISTER outcome, whether the bridge came up, and whether a final response had already gone out.
- The Retell SDK and the Graph API are remote calls. Each is an input outcome: registered with a `call_id` or failed; a post that went through or threw.
- Express, body parsing, `server.listen`, dotenv and pino are plumbing, and logging has no effect on the decisions.
- Real `setTimeout` timing and promise interleaving are concurrency. Delays are returned as values, and the dialogs' `destroy` events are explicit method calls.
- Registration.RunRegistration: runs over a finite horizon of outcomes; the script's loop never ends while every response is 200 or every request throws.
- Registration.RunRegistration: follows the single chain started by one `connect` event. script.js:66-69 starts a new chain on every `connect`, so after a reconnection two chains can run side by side, or a chain that stopped can start again; that is not modelled.
- Bridge.Session.OnDestroy: assumes that drachtio emits `destroy` only for a far-end BYE on a live dialog, and never for a local `destroy()` or for an ended dialog. That library behaviour is not part of this model.
- Notification.HandleWebhook: a `call_analyzed` body without `call` makes the script throw after the 204 (an unhandled rejection). The model shows only that nothing is posted.
- Notification.RecipientId: JavaScript prototype keys such as `constructor` would also be truthy in the plain-object directory. The model treats the directory as a map with the two keys only.
- Values read from the webhook body are strings or absent; other JSON types (numbers, objects) are not modelled.
- If `RECEPTION_ID` is set but `MANAGER_ID` is not, the copy is posted with an undefined recipient. The model keeps that; the Graph API's answer to it is not modelled.

## Findings

| source | as written | input that shows it | evidently intended | confidence | as-written member | corrected member |
|---|---|---|---|---|---|---|
| script.js:49 | the Contact header is `<sip:${aor}>`, and `aor` already begins with `sip:`, so the binding is `<sip:sip:user@realm>` | any configuration, e.g. `SIP_USERNAME=alice`, `SIP_REALM=trunk.example` gives `<sip:sip:alice@trunk.example>;expires=3600` | a Contact that binds the AOR, `<sip:alice@trunk.example>;expires=3600` | medium, not executed | Registration.ContactAsWrittenDoublesScheme | Registration.RegisterCorrected |
