# Alert relay: dispatch rule and token cache

A model of the alert-to-SMS relay in `alertbot.py`. The relay receives a batch
of alerts on a webhook. For each alert it builds a message, obtains an access
token for the SMS gateway, and sends the message to the members of a team
from a contact directory. The token comes from a one-slot cache that expires
after 120 time units. On a miss the token is requested from the identity
provider.

The model follows the code as written, including its irregularities:

- Only the fallback branch sends. An alert whose `team` label names a team of
  the directory sends nothing, but it still acquires a token (`Step`,
  `KnownTeamScenario`).
- The fallback branch sends to every member of the `devops` team in order.
  It then sends once more to the last member, because the extra send sits
  after the loop inside the branch (`LastMemberSentTwice`, `FallbackStep`,
  `FallbackScenario`).
- A missing `devops` entry is an error (a `KeyError`). An empty `devops` list
  is an error too: the extra send names a loop variable that was never bound
  (`StepOutcome`, `MissingDefaultTeamScenario`).
- Any failure raises out of the loop. No later send or alert is processed
  (`AbortIsFinal`, `TokenFailureStopsBatch`, `SendRejectionStopsBatch`).

Modules:

- `Common`: `Option`, `Result`, the error kinds, and status 200.
- `Alerts`: the alert, the directory, the message text, the team-fallback
  decision and the list of phones an alert is sent to.
- `TokenCache`: the pure transition `AcquireToken` over a cache entry, and the
  class `OidcTokenCache`, whose `GetOidcToken` updates `token` and `expiresAt`
  in place.
- `Sms`: the gateway request built for one send, and the check of its status.
- `Dispatch`: the specification of the handler as functions (`Deliver`,
  `Step`, `Run`) and the handler itself as methods with loops (`HandleAlert`,
  `ProcessAlert`, `SendToDefaultTeam`, `SendToMembers`), each proved against
  those functions.

The outside world is an `Env` value. `clock(i)` is the time at which alert
`i` asks for a token. `fetch(k)` is the identity provider's answer to the
`k`-th token request. `status(k)` is the gateway's status for the `k`-th send
attempt. A send attempt is recorded as the triple (phone, message, token).

## Model

| member | source | states |
|---|---|---|
| `Alerts.Message` | alertbot.py:99 | every message starts with `"Alert: "` |
| `Alerts.MessageText` | alertbot.py:99 | the message is `"Alert: "` followed by `annotations.description`; it is `"Alert: No description provided"` when the annotations or the description are absent |
| `Alerts.FallbackCondition` | alertbot.py:103 | the fallback to `devops` is taken exactly when the alert has no labels, no `team` label, an empty one, or one that is not a key of the directory |
| `Alerts.FallbackPhones` | alertbot.py:107-111 | the fallback phones are each member's phone in list order, then the last member's phone again (`len(devops)+1` entries) |
| `Alerts.Recipients` | alertbot.py:100-111 | an alert whose team label is present, non-empty and a key of the directory gets no phones; otherwise a missing `devops` key is `MissingDefaultTeam`, an empty `devops` list is `UnboundMember`, and a non-empty one gives every member in order plus the last one again |
| `Alerts.LastMemberSentTwice` | alertbot.py:107-111 | the fallback phones, as a multiset, are the team's phones plus one more copy of the last member's phone |
| `TokenCache.AcquireToken` | alertbot.py:41-70 | a returned token is the one left in the cache and is unexpired at `now`; a failure asks the provider and leaves the cache untouched; the provider is asked exactly on a miss |
| `TokenCache.CacheHitSkipsFetch` | alertbot.py:43-46 | a non-empty unexpired cached token is returned unchanged, with no request and no change to the cache |
| `TokenCache.MissStoresToken` | alertbot.py:63-70 | on a miss answered with 200 the fetched `access_token` is stored with expiry `now + 120` and returned |
| `TokenCache.MissRejected` | alertbot.py:59-61 | on a miss answered with any other status the result is `AuthFailure` and the cache is unchanged |
| `TokenCache.ReuseBeforeExpiry` | alertbot.py:43-70 | after a successful acquisition of a non-empty token, a later call before its expiry returns the same token without a request |
| `TokenCache.OidcTokenCache.GetOidcToken` | alertbot.py:41-70 | the result, the new `token`/`expiresAt` fields and whether the provider was asked are those of `AcquireToken` on the old fields; on a hit or an error the object is unchanged |
| `Sms.BuildSmsRequest` | alertbot.py:72-83 | the request has exactly the three headers and the three payload fields, with the given request id, JSON content type and type `Information` |
| `Sms.RequestRoundTrip` | alertbot.py:74-83 | the phone, message and token read back from the payload and the bearer header are those the request was built from |
| `Sms.CheckSmsStatus` | alertbot.py:88-91 | a send succeeds exactly when the gateway answers 200, and otherwise fails with `DeliveryFailure` |
| `Dispatch.Deliver` | alertbot.py:107-111 | the attempts go to a prefix of the phones, in order, each with the alert's message and token; only a rejected attempt, which is the last one, stops the fan-out early |
| `Dispatch.DeliverAllAccepted` | alertbot.py:107-111 | when every status is 200, every phone gets exactly one attempt, in order, and nothing fails |
| `Dispatch.DeliverStopsAtRejection` | alertbot.py:107-111 | when the first `j` attempts are accepted and the next is rejected, exactly `j+1` phones are attempted and the delivery fails |
| `Dispatch.DeliverAccepted` | alertbot.py:107-111 | every attempt of a delivery except a rejected last one was answered with 200 |
| `Dispatch.SendToMembers` | alertbot.py:107-108 | the loop over the members makes the attempts `Deliver` prescribes for their phones; when it completes, the loop variable holds the last member |
| `Dispatch.SendToDefaultTeam` | alertbot.py:106-111 | the fallback branch makes the attempts `Deliver` prescribes for `FallbackPhones`; an empty team gives `UnboundMember` with no send |
| `Dispatch.Step` | alertbot.py:98-111 | per alert: nothing after a failure; earlier sends are kept; one token acquisition, which asks the provider exactly on a miss; no send without that token; every send carries that token and the alert's message; a known team sends nothing |
| `Dispatch.StepOutcome` | alertbot.py:103-111 | with the token obtained: a known team raises nothing; a missing `devops` key raises `MissingDefaultTeam` and an empty `devops` list `UnboundMember`, both before any send; in the fan-out a failure is `DeliveryFailure`, its last attempt rejected and all earlier ones accepted, and no failure means all `len(devops)+1` sends were made and accepted |
| `Dispatch.Run` | alertbot.py:96-112 | the walk over a batch asks the identity provider at most once per alert |
| `Dispatch.AlertsOf` | alertbot.py:96 | a body without an `alerts` key is walked as the empty list; otherwise its list is walked as given |
| `Dispatch.Response` | alertbot.py:112-114 | the handler answers `"Alerts processed"` when no failure was raised, and otherwise raises the failure |
| `Dispatch.RunPrefix` | alertbot.py:98-112 | alerts are processed in order: the sends of a prefix of the batch are a prefix of the batch's sends |
| `Dispatch.AbortIsFinal` | alertbot.py:98-112 | once a failure is raised, the remaining alerts change nothing: no later send, request or cache update |
| `Dispatch.TokenFailureStopsBatch` | alertbot.py:101 | a failed token acquisition for alert `i` ends the batch with that error and no send after the earlier alerts' |
| `Dispatch.StepRejection` | alertbot.py:88-90 | a rejected send of an alert makes that alert raise `DeliveryFailure`, and the rejected send is its last |
| `Dispatch.RunRejection` | alertbot.py:88-111 | in a batch, a rejected send of alert `i` is the last send of that alert, which raises `DeliveryFailure` |
| `Dispatch.SendRejectionStopsBatch` | alertbot.py:88-111 | a rejected send of alert `i` is the last send of the whole batch, which ends with `DeliveryFailure` |
| `Dispatch.FallbackStep` | alertbot.py:103-111 | a fallback alert whose sends are all accepted sends its message with its token to `FallbackPhones` of the default team: one more send than members |
| `Dispatch.SingleFetchInWindow` | alertbot.py:98-101 | when every alert's clock reading is within 120 units of the first, and the first fetched token is non-empty, the batch asks the identity provider at most once |
| `Dispatch.NoAlertsKey` | alertbot.py:96-114 | a body without `alerts` sends nothing, asks for no token and answers `"Alerts processed"` |
| `Dispatch.KnownTeamScenario` | alertbot.py:103-111 | one alert for team `sre`, with `sre` in the directory, sends nothing and answers `"Alerts processed"` |
| `Dispatch.FallbackScenario` | alertbot.py:103-111 | one unlabelled alert, with a two-member default team, sends to the first member, the second, and the second again |
| `Dispatch.MissingDefaultTeamScenario` | alertbot.py:106-107 | an unlabelled alert with no `devops` entry sends nothing and ends in `MissingDefaultTeam` |
| `Dispatch.ProcessAlert` | alertbot.py:98-111 | the loop body's sends, fetch count, cache and failure are those of `Step` |
| `Dispatch.HandleAlert` | alertbot.py:93-114 | the handler's sends, fetch count, final cache and answer are those of `Run` on the batch's alerts from the old cache entry |

## Left out

- The web framework, routing, and JSON parsing of the request body (lines 1-18, 93-95). The body arrives as a `Batch` value. Malformed JSON is not modelled.
- JSON values that are not strings (a numeric `team`, a non-string `description` formatted by the f-string). Labels and annotations are string-to-string maps.
- Logging, the metrics instrumentator and the server start-up (lines 11-18, 116-118).
- Environment configuration and loading the contact file (lines 20-39). The directory is a given `Contacts` map.
- The Redis client. The store is a `CacheEntry`, and eviction after the time-to-live is the comparison `now < expiresAt` against an abstract clock.
- The HTTP calls to the identity provider and to the SMS gateway, including `verify=False` and the absence of timeouts. Their answers are the `Env` outcomes. A `response.json()` that fails to parse is not modelled; a 200 answer without `access_token` is the error `MissingAccessToken`.
- The `uuid4` request id. `BuildSmsRequest` takes it as a parameter, and the send trace records (phone, message, token) without it.
- Concurrent requests and the duplicate-refresh race on the shared cache entry. One handler call is modelled at a time.
- The clock is not required to be non-decreasing. `Env.clock` may go back in time, so an entry the store would already have evicted can be read as a hit at an earlier reading. No proved property depends on this; `SingleFetchInWindow` states its own bound on the readings.
