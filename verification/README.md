# Texting Duncan SMS webhooks — a Dafny model

This project models the three SMS webhook handlers of the Texting Duncan
router (`src/routers/textingduncan.py`):

- **send-sms** passes `to_number` and `sms_body` to the SMS gateway. It
  reports success exactly when the gateway's answer is truthy. It always
  echoes both inputs back.
- **FollowUpBoss note-created** does nothing when `resourceIds` is empty.
  Otherwise it collapses the ids to a set, takes the last element of
  `list(set(ids))` and hands that id to the note service. It reports the
  service's `"sms_sent"` entry (default `False`) as `success` and the raw
  service result as `data`.
- **MailWizz campaign trigger** defaults the absent personalization keys
  `jerk_realtor_name`, `tm_name` and `mls` to `"Realtor"`, `"Willow Graznow"`
  and `"N/A"`. It calls the campaign service once. When the result is truthy
  it returns `success = true` and that result as `sms_template`.

The services (`services.textingduncan`) are not modelled. Each one is a
function parameter standing for the service's result, limited to the shapes
`PyValue`/`Dict` can express: `Gateway`, `NoteService` and `CampaignService`. Each handler returns a
`Handled(response, calls)` pair. `calls` logs the service calls the handler
made, so "called once with these arguments" and "never called" can be stated
directly. Python values and truthiness are modelled by `PyValues.PyValue` and
`PyValues.Truthy`. `PySets` models `set(...)` and `list(...)` of a set.
CPython's set iteration order is left unspecified (`PySets.Enumerate` picks
elements with `:|`), so the model promises only that the chosen note id is
one of the `resourceIds`.

Files: `py_values.dfy`, `py_sets.dfy`,
`textingduncan.dfy` (payloads, responses, handlers) and
`textingduncan_properties.dfy` (lemmas relating several runs, and worked
scenarios).

Three behaviours of `textingduncan.py` that are easy to misread:
- The note-created handler does not pick the greatest id. It picks whichever
  id comes last in CPython's set order. Only membership in `resourceIds` is
  modelled.
- MailWizz personalization defaults apply only when a key is absent. A
  present empty string is forwarded unchanged.
- The router does no template lookup or gateway send itself on the MailWizz
  path. It passes six arguments to `send_mailwizz_campaign_sms` and reports
  that call's result. It has no separate "no template" branch: it reacts
  only to the truthiness of that result.

## Model

| member | source | states |
|---|---|---|
| TextingDuncan.SendSmsHandler | src/routers/textingduncan.py:22-43 | exactly one gateway call, with (`to_number`, `sms_body`); `success` holds iff the gateway's answer is truthy; the number and body are echoed unchanged |
| TextingDuncanProperties.SendSmsEchoIndependentOfGateway | src/routers/textingduncan.py:29-33 | for any two gateways, the call log and the echoed fields are identical; only `success` can differ |
| TextingDuncanProperties.SendSmsScenario | src/routers/textingduncan.py:29-43 | `+15551234567`/`Hello` with a gateway answering True gives `{success: true, to_phone_number: +15551234567, sms_message: Hello}` |
| TextingDuncanProperties.SendSmsFalsyGatewayFails | src/routers/textingduncan.py:35-41 | any falsy gateway answer (None, False, 0, "", [], {}) gives `success = false` |
| TextingDuncan.ShapeNoteCreated | src/routers/textingduncan.py:56-68 | no ids: no service call and empty `data`; otherwise one call with the chosen id and `data` is that call's result; `success` is `data["sms_sent"]` when present, else False |
| TextingDuncan.FubNoteCreatedHandler | src/routers/textingduncan.py:46-68 | no ids: no call and the response is `{success: False, data: {}}`; otherwise exactly one note-service call, its id is a member of `resourceIds`, `data` is that call's result unchanged, and the whole outcome equals `ShapeNoteCreated` for that id, so the lemmas about `ShapeNoteCreated` apply to the handler; `success` follows `"sms_sent"` with default False |
| TextingDuncanProperties.NoteCreatedDependsOnlyOnIdSet | src/routers/textingduncan.py:61-62 | two id lists with the same set (re-ordered or with repeats) admit the same choices and give the same response for a choice |
| TextingDuncanProperties.ShapeNoteCreatedDependsOnChoiceOnly | src/routers/textingduncan.py:62-68 | beyond emptiness, the response depends only on the chosen id and the service |
| TextingDuncanProperties.NoteCreatedSingleIdDeterministic | src/routers/textingduncan.py:62 | when all ids are equal, every admissible choice is the same id, so the response is determined |
| TextingDuncanProperties.NoteCreatedScenario | src/routers/textingduncan.py:60-68 | `resourceIds = [30189]` with the service answering `{sms_sent: False, reason: "no-phone"}` calls the service with 30189 and returns `{success: False, data: <that result>}` |
| TextingDuncanProperties.NoteCreatedMissingFlagIsFailure | src/routers/textingduncan.py:65-67 | a service result without `"sms_sent"` is reported as `success = False` |
| PySets.Collapse | src/routers/textingduncan.py:62 | `set(ids)` contains exactly the elements of `ids` and is no larger than the list |
| PySets.Enumerate | src/routers/textingduncan.py:62 | `list(s)` lists every element of `s` exactly once (no repeats, as many entries as the set has elements), in an unspecified order |
| PySets.CollapseSameElements | src/routers/textingduncan.py:62 | lists with the same elements collapse to the same set |
| PySets.CollapsePermutation | src/routers/textingduncan.py:62 | a permutation of the id list collapses to the same set |
| PySets.CollapseDuplicate | src/routers/textingduncan.py:62 | inserting a repeat of an id anywhere leaves the set unchanged |
| PyValues.FalsyIffListed | src/routers/textingduncan.py:37 | a value is falsy exactly when it is None, False, 0, "", [] or {} |
| TextingDuncan.CampaignArgsOf | src/routers/textingduncan.py:82-98 | id, phone number and day are forwarded unchanged; each personalization key takes its fixed default only when absent and its own value when present |
| TextingDuncanProperties.CampaignArgsRoundTrip | src/routers/textingduncan.py:87-89 | spelling out every personalization value yields exactly those service arguments |
| TextingDuncanProperties.ExplicitPayloadRoundTrip | src/routers/textingduncan.py:87-89 | a payload with every key present is recovered from the arguments it produces, so present values are never replaced |
| TextingDuncanProperties.AbsentKeyEqualsExplicitDefault | src/routers/textingduncan.py:87-89 | omitting a personalization key behaves exactly like sending its default value |
| TextingDuncan.MailWizzHandler | src/routers/textingduncan.py:71-103 | exactly one campaign-service call with the defaulted arguments; `success` holds iff the result is truthy, and then `sms_template` is that result; otherwise `sms_template` is None |
| TextingDuncanProperties.MailWizzCallIndependentOfOutcome | src/routers/textingduncan.py:91-98 | the call made does not depend on what the service returns |
| TextingDuncanProperties.MailWizzScenario | src/routers/textingduncan.py:82-103 | campaign `X`, phone `+1555`, day 2 with no personalization calls the service with `Realtor`, `Willow Graznow` and `N/A`; a template result gives `{success: true, sms_template: <template>}` |
| TextingDuncanProperties.MailWizzFalsyResultFails | src/routers/textingduncan.py:99-103 | a falsy service result (for example an empty template) leaves `{success: false, sms_template: None}` |
| TextingDuncanProperties.AtMostOneCallPerEvent | src/routers/textingduncan.py:22-103 | every handler makes at most one service call, and only to its own route's service |

## Left out

- `textingduncan_index` (lines 13-19): returns a constant record and has no decision logic.
- `src/config/database.py`: reads environment variables and builds database handlers at import time. It is configuration, with no decision logic.
- `services.textingduncan` is not part of this model. The gateway, the note processor and the campaign sender are function parameters, and their internals are not modelled: template content, the "should we text" decision, the real SMS send.
- TextingDuncan.NoteService is assumed to return a dict; any other result makes line 66 raise, which is not modelled.
- Python values are limited to the shapes of `PyValue`: floats, tuples and arbitrary objects returned by a service are not modelled.
- Exceptions raised by a service are not modelled. In the source they propagate to FastAPI, and the handler returns no response.
- FastAPI routing, pydantic validation and response-model coercion are not modelled. Payloads are taken as already validated, with required keys present and `resourceIds` a list. The note-created `success` is kept as the raw `"sms_sent"` value, before any coercion to bool by the response model.
- MailWizz personalization keys are modelled as present or absent (`TextingDuncan.Key`). If the request schema declares them as optional fields defaulting to None, `dict(request)` would hold them with value None. That schema is not part of this model.
- TextingDuncan.FubNoteCreatedHandler: it states only that the chosen id is a member of `resourceIds`, not which member, because CPython's set iteration order is not specified.
- Logging calls and async execution are not modelled. The handlers share no state and run sequentially.
