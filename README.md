# bantrat: the conversation core, modelled in Dafny

bantrat is a Telegram bot. Each user gives it a personal Bankr API key, and
it then deploys (or simulates deploying) tokens through the Bankr HTTP API.
This project models the part of `bantrat.py` that holds state:

- the credential store: a JSON file mapping user ids to API keys
  (`load_keys`, `save_key`, `get_key`);
- `require_key`;
- the onboarding conversation: `/start`, `/setkey`, and `receive_api_key`
  with its format check and gateway probe;
- the deploy and simulate conversation: `deploy_start`, `simulate_start`,
  `deploy_name`, `deploy_symbol`, `deploy_desc`, `deploy_image`,
  `deploy_confirm` and `deploy_cancel`;
- the handler table in `main`, which decides which conversation gets each
  event.

Modules (one file each):

- `Wrappers`: `Option`.
- `PyStr`: the Python string operations the handlers use (`strip`, `lower`,
  `upper`, `startswith`, `in`).
- `Json`: JSON values and Python truthiness.
- `Bankr`: the gateway boundary. It covers the request the bot sends, what
  `bankr_post` returns, the authorization test and when rendering a deploy
  result raises.
- `Credentials`: the store, a class whose `keys` field is the file's content.
- `Dialog`: conversation states and inbound events.
- `Onboarding` and `DeployFlow`: one function per handler, giving the new
  session, the returned state and the request sent.
- `Conversations`: the routing of one event to a handler, over a value
  `Config`, with the invariant `WellFormed`.
- `Scenarios`: whole event sequences replayed through `Run`.
- `Bot`: class `UserChat`. It holds one user's session dictionary, both
  conversation states and the shared store. It has one imperative method per
  handler and a `Handle` method, each proved against the functions above.

Routing follows python-telegram-bot's `ConversationHandler` with its defaults:

- Re-entry is off, so a conversation's entry commands are seen only while
  that conversation is not in progress.
- A conversation in progress takes its state's text handler and its
  `/cancel` fallback.
- The first conversation registered (onboarding) is asked first.
- A handler that raises leaves its conversation in the same state, but
  changes it already made to `ctx.user_data` stay.
- `ctx.user_data` is one dictionary per user, shared by both conversations
  and by every chat the user talks to the bot in. A conversation's state, in
  contrast, is kept per chat and user (`per_chat` is on by default). The
  model holds one chat per user.

Behaviour of the code worth knowing:

- An entry command does not supersede a flow in progress. `/deploy` during a
  deploy flow is ignored.
- Onboarding and a deploy flow can be in progress at the same time.
- In onboarding, only an error whose text contains "auth" rejects a key. A
  timeout or any other gateway failure still stores it
  (`Onboarding.TimeoutStillStoresKey`).
- After a confirmed deploy, the session is discarded whatever the gateway
  answered. The exception is when rendering the answer raises, for example
  on a success envelope without `tokenAddress`. Then the session is kept and
  the flow stays at confirmation.
- As written, `/cancel` during onboarding clears the deploy flow's session
  (see Findings).

## Model

| member | source | states |
|---|---|---|
| PyStr.TrimLeft | bantrat.py:152 | `lstrip`: never lengthens the text, and the result does not start with whitespace |
| PyStr.TrimRight | bantrat.py:152 | `rstrip`: never lengthens the text, and the result keeps the first character and does not end with whitespace |
| PyStr.TrimLeftCutsSpace | bantrat.py:152 | `lstrip` keeps a suffix of the input and everything it cuts off is whitespace |
| PyStr.TrimRightCutsSpace | bantrat.py:152 | `rstrip` keeps a prefix of the input and everything it cuts off is whitespace |
| PyStr.Strip | bantrat.py:152 | `strip()` never lengthens the text and leaves no whitespace at either end |
| PyStr.StripPadded | bantrat.py:152 | any whitespace around a text with clean edges is removed exactly, leaving that text |
| PyStr.Lower | bantrat.py:164 | `lower()` keeps the length and maps every character by the ASCII case mapping |
| PyStr.Upper | bantrat.py:217 | `upper()` keeps the length and maps every character by the ASCII case mapping |
| PyStr.UpperHasNoLowerCase | bantrat.py:217 | an upper-cased symbol holds no lower-case letter |
| PyStr.CaseMappingKeepsSpace | bantrat.py:216-217 | mapping one character's case never turns it into or out of whitespace |
| PyStr.CaseMappingKeepsEdges | bantrat.py:216-217 | case mapping keeps a stripped text stripped |
| PyStr.AbsentFirstChar | bantrat.py:164 | `sub in s` is false when the first character of `sub` never occurs in `s` |
| Bankr.Response | bantrat.py:70-79 | the response has `error` iff the call failed or a 2xx body itself carries `error`; a failure gives exactly `{"error": message}` |
| Bankr.IsAuthRejection | bantrat.py:164 | only a failed call (one whose response has `error`) can be an auth rejection; `UnauthorizedIsRejection` and `TimeoutIsNoRejection` pin the test down on both sides |
| Bankr.RenderRaises | bantrat.py:267-282 | rendering can raise only on a successful call whose body has a truthy `success` |
| Bankr.FailuresRender | bantrat.py:267-282 | a failed call, or an answer without a truthy `success`, never makes rendering raise |
| Credentials.LastWriteWins | bantrat.py:59-67 | after any sequence of saves, a user's lookup gives their latest saved key, or the original content when they never saved |
| Credentials.Store.constructor | bantrat.py:52-56 | the store opens on the file's existing content, with no saves yet |
| Credentials.Store.LoadKeys | bantrat.py:52-56 | `load_keys` returns the whole stored mapping |
| Credentials.Store.SaveKey | bantrat.py:59-63 | `save_key` upserts one entry, leaves every other user's entry alone, and records the write |
| Credentials.Store.GetKey | bantrat.py:66-67 | `get_key` gives the user's latest saved key, else what the file held at the start, else `None` |
| Onboarding.KeyFormatOk | bantrat.py:154 | a key that passes the `bk_`/length-10 check is non-empty, so `require_key` accepts it once stored |
| Onboarding.StartNext | bantrat.py:112-141 | `/start` ends for a user with a truthy stored key and asks for one otherwise (the body); `StoredKeyFinishesStart` ties it to onboarding |
| Onboarding.StoredKeyFinishesStart | bantrat.py:112-173 | once `receive_api_key` stores a key, the user has a usable key and `/start` ends at once |
| Onboarding.ReceiveKey | bantrat.py:151-173 | the probe is sent iff the stripped key passes the `bk_`/length-10 check; the key is stored and the flow ends iff that check passes and the probe is not an auth rejection; otherwise the store is untouched and the state stays `AWAIT_API_KEY` |
| Onboarding.ReceiveKeyKeepsStoreWellFormed | bantrat.py:152-168 | onboarding only ever stores keys that pass the format check and have no surrounding whitespace |
| Onboarding.ShortKeyRefused | bantrat.py:154-159 | "abc" is refused without a probe and without touching the store |
| Onboarding.UnauthorizedKeyRefused | bantrat.py:162-166 | a padded well-formed key whose probe answers "Unauthorized" is probed in stripped form and not stored |
| Onboarding.TimeoutStillStoresKey | bantrat.py:164-173 | a probe that fails with "Connection timed out" still stores the key and ends onboarding |
| Onboarding.SampleKeyAccepted | bantrat.py:154 | "bk_1234567890" passes the format check and has clean edges |
| Onboarding.UnauthorizedIsRejection | bantrat.py:164 | an "Unauthorized" error counts as an auth rejection |
| Onboarding.MentionsAuthAt | bantrat.py:164 | a text holding "auth" in any letter case mentions "auth" once lower-cased |
| Onboarding.TimeoutIsNoRejection | bantrat.py:164 | a "Connection timed out" error is not an auth rejection |
| Onboarding.NoLetterANoAuth | bantrat.py:164 | a text without the letter `a` in either case never mentions "auth" once lower-cased |
| DeployFlow.Optional | bantrat.py:215-231 | a stored optional field is `None` or a string |
| DeployFlow.OptionalPadded | bantrat.py:216-217 | surrounding whitespace never matters: the skip word in any case gives `None`, other text is stored stripped (upper-cased for the symbol) |
| DeployFlow.OptionalIsClean | bantrat.py:216-231 | a stored field has no whitespace at either end, and a stored symbol has no lower-case letter |
| DeployFlow.IsConfirm | bantrat.py:248-249 | the answer confirms when its stripped, lower-cased text is "confirm" (the body); `ConfirmPadded` states what that accepts |
| DeployFlow.ConfirmPadded | bantrat.py:248-249 | around a text with clean edges, any whitespace is ignored and the text confirms iff it is "confirm" in some letter case |
| DeployFlow.Enter | bantrat.py:191-206 | without a usable key the flow ends and the session is untouched; with one, the session is reset to just the entry flag and the flow asks for the name |
| DeployFlow.NameStep | bantrat.py:209-212 | the name is stored as `text.strip()`, so with no whitespace at either end; every other session entry is kept, nothing is sent, and the flow asks for the symbol |
| DeployFlow.SymbolStep | bantrat.py:215-219 | the symbol is stored as `Optional` gives it (upper-cased, `None` for skip), every other entry is kept, and the flow asks for the description |
| DeployFlow.DescStep | bantrat.py:222-226 | the description is stored as `Optional` gives it, every other entry is kept, and the flow asks for the image |
| DeployFlow.ImageStep | bantrat.py:229-244 | the image is stored; the flow moves to confirmation iff the summary finds name, symbol and description, and raises otherwise |
| DeployFlow.BuildPayload | bantrat.py:254-262 | a payload exists iff `name` is stored; it has `tokenName` and `simulateOnly` (the flag, default `False`), and each optional key iff the session's value is truthy, carrying that value; it has no other key |
| DeployFlow.ConfirmStep | bantrat.py:247-285 | anything but "confirm" clears the session and ends without a request; "confirm" sends the payload with the user's key; the flow ends with a cleared session unless the payload or the rendering raises, which keeps both |
| DeployFlow.CancelStep | bantrat.py:288-291 | `deploy_cancel` clears the session and ends (the body); `Conversations.CancelEnds` states its effect wherever it is routed |
| DeployFlow.OptionalTruthy | bantrat.py:257-262 | an optional field reaches the payload iff it was neither skipped nor blank |
| DeployFlow.StoredInTurn | bantrat.py:195-231 | storing the flag, name, symbol, description and image in turn leaves all five readable |
| DeployFlow.CollectReachesConfirm | bantrat.py:191-244 | with a usable key, entry and any four answers reach confirmation, holding the flag and the normalised answers |
| DeployFlow.CollectedPayload | bantrat.py:254-262 | the payload of collected answers holds the stripped name, the flag, and each unskipped, non-blank field (symbol upper-cased) |
| DeployFlow.AllSkippedPayload | bantrat.py:254-262 | skipping all optional fields gives a payload of exactly `tokenName` and `simulateOnly` |
| DeployFlow.TwoKeyPayload | bantrat.py:256 | a payload with no optional key is exactly name and flag |
| Conversations.OnboardStep | bantrat.py:349-358 | an onboarding handler never moves the deploy state; it keeps the session except the as-written `/cancel`, which empties it; only a key message writes the store or sends a request |
| Conversations.DeployStep | bantrat.py:360-373 | a deploy handler never touches the store or the onboarding state |
| Conversations.Dispatch | bantrat.py:349-376 | the handler table: onboarding is asked first, then the deploy conversation; an event neither takes changes nothing (the body) |
| Conversations.DispatchKeepsToItsConversation | bantrat.py:349-376 | an event onboarding takes never moves the deploy state, one it does not take never touches the store or the onboarding state, and one neither takes changes nothing |
| Conversations.IdleIsWellFormed | bantrat.py:349-373 | a user with nothing in progress is in a well-formed configuration |
| Conversations.OnboardingKeepsWellFormed | bantrat.py:349-358 | onboarding events leave the deploy state alone; with the corrected `/cancel` they also leave the session alone |
| Conversations.RoutedToDeploy | bantrat.py:360-376 | text while onboarding is idle and a deploy flow runs goes to the deploy state's handler |
| Conversations.CollectStepsAdvance | bantrat.py:209-244 | from the name, symbol, description and image states, any text advances exactly one state and keeps the configuration well formed |
| Conversations.FieldAdvances | bantrat.py:209-226 | the name, symbol and description steps each advance one state, well formed |
| Conversations.NameAdvances | bantrat.py:209-212 | the name step moves to the symbol state, well formed |
| Conversations.SymbolAdvances | bantrat.py:215-219 | the symbol step moves to the description state, well formed |
| Conversations.DescAdvances | bantrat.py:222-226 | the description step moves to the image state, well formed |
| Conversations.ImageAdvances | bantrat.py:229-244 | in a well-formed flow the image step always reaches confirmation |
| Conversations.ConfirmationEndsFlow | bantrat.py:247-285 | answering confirmation ends the flow with an empty session, unless rendering raised, in which case nothing changed |
| Conversations.WellFormedPreserved | bantrat.py:349-376 | with the corrected `/cancel`, every event keeps the configuration well formed |
| Conversations.FlagFixedAtEntry | bantrat.py:191-206 | the simulate flag is set by the entry command (`/simulate` true, `/deploy` false) and unchanged while the flow runs |
| Conversations.SubmissionCarriesFlag | bantrat.py:162-265 | every request is the onboarding probe for the stripped key or the confirmed deploy; with the corrected `/cancel` the deploy's `simulateOnly` is the entry flag, and a confirmed deploy is always sent |
| Conversations.ConfirmCarriesFlag | bantrat.py:248-265 | at confirmation a request is sent iff the text is "confirm", and it carries the flag |
| Conversations.CallsOnlyAtConfirm | bantrat.py:191-244 | no deploy handler before confirmation sends a request |
| Conversations.CancelEnds | bantrat.py:288-291 | `/cancel` ends onboarding if it runs, leaving the deploy state where it is and emptying the session as written (keeping it when corrected); otherwise it ends the deploy flow with an empty session |
| Conversations.WellFormedAlongRuns | bantrat.py:349-376 | with the corrected `/cancel`, any event sequence, whatever the gateway answers each call, keeps the configuration well formed |
| Conversations.RunAnswersAlike | bantrat.py:349-376 | a run in which the gateway answers every call alike, as the scenarios use, is the per-event run with that answer repeated |
| Scenarios.SimulateThenAbandonedSetKey | bantrat.py:357 | `/simulate`, `/setkey`, `/cancel` leave the deploy flow waiting for a name; the session is empty as written and keeps the flag when corrected |
| Scenarios.AnswerStep | bantrat.py:209-226 | one collect answer sends nothing, advances one state, keeps the flag and stores its field |
| Scenarios.ImageAnswer | bantrat.py:229-244 | the image answer after name, symbol and description reaches confirmation |
| Scenarios.FirstTwoAnswers | bantrat.py:209-219 | name and symbol answers reach the description state |
| Scenarios.LastTwoAnswers | bantrat.py:222-244 | description and image answers reach confirmation |
| Scenarios.AnswersReachConfirm | bantrat.py:209-244 | any four answers reach confirmation without a request, keeping the flag |
| Scenarios.ConfirmSubmits | bantrat.py:247-265 | "confirm" sends exactly one deploy whose `simulateOnly` is `d.get("simulate", False)` |
| Scenarios.AnswersThenConfirm | bantrat.py:209-265 | four answers and "confirm" send exactly one deploy carrying the flag |
| Scenarios.EntryThenAnswersSubmit | bantrat.py:357 | the interrupted simulation, split into its two halves, sends one deploy whose flag depends on the build |
| Scenarios.InterruptedSimulationSubmits | bantrat.py:357 | the interrupted simulation sends one deploy, with `simulateOnly` false as written and true when corrected |
| Scenarios.InterruptedSimulationDeploysForReal | bantrat.py:357 | as written, the interrupted simulation deploys for real |
| Scenarios.InterruptedSimulationStaysSimulated | bantrat.py:357 | with the corrected `/cancel`, the interrupted simulation, sent from one chat, stays a simulation |
| Bot.UserChat.constructor | bantrat.py:349-376 | a new chat has an empty session and no conversation in progress |
| Bot.UserChat.RequireKey | bantrat.py:102-109 | gives the key iff the user has a usable one |
| Bot.UserChat.OnStart | bantrat.py:112-141 | `/start` ends at once for a user with a usable key and asks for one otherwise |
| Bot.UserChat.ReceiveApiKey | bantrat.py:151-173 | updates the store, returns the state and sends the probe exactly as `ReceiveKey` specifies |
| Bot.UserChat.DeployStart | bantrat.py:191-206 | resets the session in place as `Enter` specifies |
| Bot.UserChat.DeployNameStep | bantrat.py:209-212 | stores the name in place as `NameStep` specifies |
| Bot.UserChat.DeploySymbolStep | bantrat.py:215-219 | stores the symbol in place as `SymbolStep` specifies |
| Bot.UserChat.DeployDescStep | bantrat.py:222-226 | stores the description in place as `DescStep` specifies |
| Bot.UserChat.DeployImageStep | bantrat.py:229-244 | stores the image in place, then raises or moves on as `ImageStep` specifies |
| Bot.UserChat.DeployConfirmStep | bantrat.py:247-285 | builds the payload key by key and clears or keeps the session as `ConfirmStep` specifies |
| Bot.UserChat.DeployCancel | bantrat.py:288-291 | clears the session and ends |
| Bot.UserChat.HandleOnboard | bantrat.py:349-358 | the onboarding conversation's handlers, with the corrected `/cancel` |
| Bot.UserChat.HandleDeploy | bantrat.py:360-373 | the deploy conversation's handlers, the returned state recorded unless the handler raised |
| Bot.UserChat.Handle | bantrat.py:349-376 | routes an event as the corrected `Dispatch` does and keeps the configuration well formed |

## Left out

- Telegram transport, `async`, the reply texts and Markdown rendering: the
  model records the state each handler returns and the request it sends,
  not what it says to the user.
- `reply_text` failures: a reply that raises is not modelled.
- The bot token, logging, the one-shot commands (`/help`, `/portfolio`,
  `/fees`, `/claimfees`, `/token`) and `fmt_fee_dist`'s text. These commands
  touch no session or conversation state. They appear only as
  `Cmd.Other`, which no conversation takes.
- The HTTP exchange and JSON (de)serialisation in `bankr_post`: a call's
  outcome is a `GatewayResult` parameter. An HTTP error whose body is not
  JSON makes `bankr_post` itself raise; this is not modelled.
- JSON file I/O in `load_keys` and `save_key`: the file's content is the
  `keys` field. File errors, user ids as string keys, and other processes
  writing the file are not modelled.
- Concurrency between users: handlers run one at a time.
- JSON numbers are integers; floats are not modelled.
- Bankr.IsAuthRejection: only string `error` values are tested. The source
  applies `str()` to any value, which the model does not cover.
- PyStr.Lower: ASCII case mapping only. Python also maps non-ASCII letters
  (U+212A KELVIN SIGN lowers to "k"; "ß" upper-cases to "SS").
- PyStr.Upper: the same ASCII-only restriction.
- Response bodies that are JSON but not objects are not modelled.
- One chat per user. The session dictionary is shared by all of a user's
  chats, while conversation states are kept per chat. So `/simulate` in one
  chat and `/deploy` in another reset the same session, and the first
  chat's flow then deploys for real even with the corrected `/cancel`. The
  model, and every property proved about the flag, covers a user who talks
  to the bot in one chat.
- Bot.UserChat.HandleOnboard: implements the corrected `/cancel`, which only
  ends onboarding and leaves `userData` alone. The source's `deploy_cancel`
  clears it; that as-written behaviour is `Conversations.Dispatch(AsWritten, ...)`.
- Bot.UserChat.Handle: follows the corrected `/cancel`. The as-written
  behaviour is modelled by `Conversations.Dispatch(AsWritten, ...)`.

## Findings

| source | as written | input that shows it | evidently intended | confidence | as-written member | corrected member |
|---|---|---|---|---|---|---|
| bantrat.py:357 | The onboarding conversation's `/cancel` fallback is `deploy_cancel`. It clears `ctx.user_data`, which the deploy conversation shares, while that conversation stays at its state. | `/simulate`, `/setkey`, `/cancel`, then any name, symbol, description and image, then "confirm". The deploy request carries `simulateOnly: False`, a real deploy. (Cancelling at confirmation instead would make "confirm" raise on the missing `name`.) | Cancelling onboarding ends only onboarding; the deploy session and its simulate flag survive, so a simulation stays a simulation (for a user in one chat: an entry command from another chat still resets the shared session) | medium, not executed | Scenarios.InterruptedSimulationDeploysForReal | Scenarios.InterruptedSimulationStaysSimulated |
