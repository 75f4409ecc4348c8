# Click-to-call bridge: call session, CRM notifier, relay hub and softphone

This project models the four state machines of a click-to-call bridge. The bridge
connects a CRM's calling widget to a call-centre platform:

- **The call screen** (`components/click-to-call-system.tsx`, modules `CallSession`
  and `ClickToCall`). The connection status and the agent's status go from `idle`
  through `logged_in` and `dialing` to `in_call`, `call_answered` and `call_qualified`.
  The screen also holds the active call, the qualification lists and the two
  completion flags. When both flags are up and a call is active, the CRM is sent its
  completion notice. `CallSession` states every transition as a function on a
  `Session` value. The class `ClickToCall.ClickToCallSystem` holds the same state in
  fields, and each of its handlers is proved to perform exactly its transition.
- **The CRM notifier** (`lib/hubspot-call-provider.ts`, module `HubspotCallProvider`).
  It holds the module-level singleton SDK instance and the engagement id it remembers
  between the CRM's callback and the completion notice. It also contains the rules
  that build the numbers, ids and records handed to the SDK.
- **The relay hub** (`server.js`, module `RelayHub`). Its table `rooms` maps an
  operator token to the sockets that joined with it. It also tracks the realtime
  library's room membership, and relays each event to the room named by the
  payload's token, except the sender. The `disconnect` handler's loop is kept as a loop.
- **The softphone popup** (`app/extension/page.tsx`, module `Softphone`). It holds
  the reconnect and re-register counters, the registration and call flags, and the
  mute toggle. Its liveness checks close the popup when no heartbeat has come from
  the relay room for ten seconds, or when the stored token is gone or differs.

Every call into the CRM SDK, the CRM notifier, the telephony platform's REST
interface and the SIP library, and every broadcast request handed to the relay hook,
is appended to a log. The clock, the
browser's token storage, the SIP agent's own state and each REST outcome are
parameters. React effects and timers are explicit steps of the host: the ref-copying
effect, the completion effect, the 1.5 s reset timer, the re-register timer, and the
heartbeat intervals.

Some behaviours are modelled as the code has them:

- No `connected` event fetches campaigns once the ref effect has caught up.
  `fetchCampaigns` reads the connection status through a ref that an effect updates
  after the render. Every `connect` of a socket follows either the `connecting` set
  when the socket is created or the `disconnected` branch run by the previous socket's
  `disconnect`. So the ref reads `connecting` or `disconnected`, never `connected`.
- The connection effect re-runs whenever `handleSocketEvent` changes, for example
  right after `call-was-connected` sets the active call. Its cleanup's `disconnect()`
  delivers `disconnected` to the old handler, which runs `resetAllState`, and then a
  new socket is created. In the model this is the input `Socket(Disconnected, _)`
  followed by `SocketCreated`.
- The call screen never sends `heartbeat` or `token-validation`: it opens only the
  telephony platform's socket. The hub relays a popup's own heartbeat to the others in
  the room and not back to it. Unless some other client of the relay room sends
  heartbeats, the popup closes at its first check more than ten seconds after mount.
- Nothing stops the completion notice from being sent twice for one call if the
  completion effect re-runs before the reset timer fires.
- The CRM's hang-up and qualify requests reach closures created when the screen
  mounted, because the notifier is a singleton that keeps its first handlers. Those
  closures see no active call, so the requests change nothing.
- The softphone's reconnect bound uses the `inCall` value from when the SIP handlers
  were attached.

The code has no finalize flag guarding the completion notice, no test of which tab
owns a call by phone number, no polling for recording links, no reopen-and-retry
path after a failed request, and no browser-local cross-tab bus. The popup talks
only to the relay hub, and the call screen never connects to it. `call-was-not-answered`, `call-was-failed`
and `call-was-busy` always move to `call_answered` and clear the qualified flag.

## Model

| member | source | states |
|---|---|---|
| JsText.Or | lib/hubspot-call-provider.ts:214 | `a \|\| b` on possibly-missing strings is truthy iff either operand is, and is the first operand when that one is truthy, the second otherwise |
| JsText.OrElse | components/click-to-call-system.tsx:383-387 | `a \|\| d` yields `a` when it is a non-empty string and the fallback `d` otherwise |
| JsText.Trim | components/click-to-call-system.tsx:215-218 | `trim()` returns the slice of the input between a blank prefix and a blank suffix, with no white space at either end |
| JsText.TrimEmptyIffBlank | components/click-to-call-system.tsx:215 | `number.trim()` is falsy exactly when the number is all white space |
| JsText.TrimIdempotent | components/click-to-call-system.tsx:351 | trimming a number the CRM already trimmed changes nothing |
| HubspotCallProvider.ExternalCallId | lib/hubspot-call-provider.ts:272-274 | the external call id is the call id when it is non-empty, else the telephony id; it is empty only when both are |
| HubspotCallProvider.RequestedNumber | lib/hubspot-call-provider.ts:214-215 | the dial request's number is `toNumber`, else `phoneNumber`, else `number`, the first non-empty one, tried in that order; absent when none is |
| HubspotCallProvider.CleanNumber | lib/hubspot-call-provider.ts:218 | a leading `+` is removed, and a number without one is unchanged |
| HubspotCallProvider.CleanNumberStripsOne | lib/hubspot-call-provider.ts:217-218 | exactly one `+` is stripped: `+n` comes back as `n` |
| HubspotCallProvider.OnDialNumber | lib/hubspot-call-provider.ts:213-222 | a dial request only ever fills the phone field, never dials; the field gets the cleaned number; nothing happens without a number |
| HubspotCallProvider.EngagementIdOf | lib/hubspot-call-provider.ts:230 | the engagement id is `engagement.id`, falling back to `engagementId` |
| HubspotCallProvider.CompletionRecordOf | lib/hubspot-call-provider.ts:300-312 | the completion record carries the external call id and end time; it carries an engagement id iff engagement data was passed or an id is remembered; body and subject are present iff data was passed, defaulting to `Chamada para <phone>` / `Chamada - <phone>` |
| HubspotCallProvider.CompletionWithoutDataCarriesOnlyEngagement | lib/hubspot-call-provider.ts:305-312 | without engagement data, the record has no body and no subject, and carries the engagement field iff an id is remembered |
| HubspotCallProvider.Provider.constructor | lib/hubspot-call-provider.ts:199-200 | the module loads with no instance and no engagement id |
| HubspotCallProvider.Provider.Init | lib/hubspot-call-provider.ts:202-246 | outside a browser it returns nothing; once an instance exists it returns that instance and constructs nothing; otherwise it constructs one instance that keeps the handlers given now |
| HubspotCallProvider.Provider.OnReady | lib/hubspot-call-provider.ts:209-212 | `onReady` reports the extension as initialised to the SDK |
| HubspotCallProvider.Provider.OnEndCall | lib/hubspot-call-provider.ts:224-227 | the CRM's end-call request asks the kept handlers to hang up |
| HubspotCallProvider.Provider.OnCreateEngagementSucceeded | lib/hubspot-call-provider.ts:228-234 | the reported engagement id is remembered; qualify is requested, with the end status, exactly when an end status is present |
| HubspotCallProvider.Provider.NotifyOutgoingCall | lib/hubspot-call-provider.ts:249-262 | without an instance nothing happens; otherwise the SDK is told of an outgoing call that creates an engagement, with `callId` only when a non-empty one is given |
| HubspotCallProvider.Provider.NotifyCallAnswered | lib/hubspot-call-provider.ts:265-275 | without an instance nothing happens; otherwise the SDK is told the call with that external id was answered |
| HubspotCallProvider.Provider.NotifyCallEnded | lib/hubspot-call-provider.ts:278-289 | without an instance nothing happens; otherwise the SDK is told the call with that external id ended now |
| HubspotCallProvider.Provider.NotifyCallCompleted | lib/hubspot-call-provider.ts:292-318 | without an instance nothing happens; otherwise the SDK receives the completion record built from the remembered engagement id, and the id is forgotten |
| HubspotCallProvider.InitTwice | lib/hubspot-call-provider.ts:202-204 | initialising twice returns the same instance, constructs at most one, and keeps the first handlers |
| HubspotCallProvider.CompleteTwice | lib/hubspot-call-provider.ts:314-317 | after a completion, a second completion without data carries no engagement id, body or subject |
| CallSession.FormatForCrm | components/click-to-call-system.tsx:393-398 | the number announced to the CRM always starts with `+`; `+55` is prepended to a number that lacks one |
| CallSession.CrmNumberRoundTrip | components/click-to-call-system.tsx:393-398 | a national number announced to the CRM comes back through the CRM's dial request as `55` followed by that number |
| CallSession.CallDataOf | components/click-to-call-system.tsx:383-387 | the new call's id and telephony id default to `""`; a missing or empty phone falls back to the phone field |
| CallSession.QualificationsOf | components/click-to-call-system.tsx:406-407 | the campaign's qualification list is mapped entry by entry to `{id, name}`, and is empty when absent |
| CallSession.CampaignsOf | components/click-to-call-system.tsx:152 | the kept list holds exactly the entries of type "campaign", each as often as in the response |
| CallSession.CampaignsOfAppend | components/click-to-call-system.tsx:152 | filtering distributes over concatenation, so the kept campaigns stay in the response's order |
| CallSession.DialTarget | components/click-to-call-system.tsx:213-219 | the dialled number is the trimmed argument when that is non-blank, else the trimmed phone field |
| CallSession.NoteFor | components/click-to-call-system.tsx:112-116 | the completion's engagement data is present exactly when a qualification is selected, with the notes `Chamada qualificada como: <name>`, the subject `Chamada - <phone>` and the qualification itself |
| CallSession.ResetCallStateClearsCall | components/click-to-call-system.tsx:85-96 | after the reset there is no call, no qualification list, no selection, both flags are down, the status is COMPLETED, the phone field is empty and loading is off; agent, connection and logs are untouched |
| CallSession.CallWasConnectedStartsCall | components/click-to-call-system.tsx:382-409 | `call-was-connected` installs the call from the payload and moves to `in_call`; it clears both flags and the selection, keeps the mapped qualification list, and sends the CRM one outgoing-call notice carrying the call's phone in CRM form (starting with `+`) and its telephony id |
| CallSession.CallWasFinishedMarksFinished | components/click-to-call-system.tsx:438-454 | `call-was-finished` sets finished with status COMPLETED, keeps the qualified flag, and moves to `call_answered` iff the call is not yet qualified (or was already there), with or without an active call |
| CallSession.UnsuccessfulEndingsAwaitQualification | components/click-to-call-system.tsx:456-502 | not-answered, failed and busy always move to `call_answered`, finished and unqualified, with NO_ANSWER, FAILED or BUSY; they tell the CRM the call ended when there is one |
| CallSession.CompletionExactlyWhenJoinable | components/click-to-call-system.tsx:108-133 | the completion effect sends a notice iff the call is qualified, finished and active; the notice is for the active call with the selection's engagement data, and the agent returns to `logged_in` |
| CallSession.CompletionIgnoresCallStatus | components/click-to-call-system.tsx:119 | the completion notice does not depend on the call status, which the notifier never receives |
| CallSession.SocketEventWithoutCall | components/click-to-call-system.tsx:359-530 | without a call, no socket event except `call-was-connected` creates one or adds a completion notice |
| CallSession.DialWithoutCall | components/click-to-call-system.tsx:212-270 | dialling creates no call and sends no completion notice |
| CallSession.LoginWithoutCall | components/click-to-call-system.tsx:169-210 | logging in creates no call and sends no completion notice |
| CallSession.HangupWithoutCall | components/click-to-call-system.tsx:311-339 | hanging up creates no call and sends no completion notice |
| CallSession.QualifyWithoutCall | components/click-to-call-system.tsx:272-309 | qualifying creates no call and sends no completion notice |
| CallSession.StepWithoutCall | components/click-to-call-system.tsx:359-530 | no single input except `call-was-connected` creates a call or a completion notice |
| CallSession.NoCompletionWithoutNewCall | components/click-to-call-system.tsx:108-133 | without a call, no sequence of inputs free of `call-was-connected` creates one or sends a completion notice |
| CallSession.JoinThenResetFiresOnce | components/click-to-call-system.tsx:108-133 | from a joinable session the effect sends one completion notice for the active call; the reset timer clears the call; no later input sequence without a new `call-was-connected` sends another |
| CallSession.RepeatedQualifiedBeforeResetCompletesTwice | components/click-to-call-system.tsx:108-133 | a repeated `manual-call-was-qualified` before the reset timer makes the re-run effect send a second completion notice for the same call |
| CallSession.ConnectedReadsStaleRef | components/click-to-call-system.tsx:364-368 | `connected`, arriving while the ref does not yet read `connected`, only marks the channel connected and fetches nothing |
| CallSession.FirstConnectFetchesNothing | components/click-to-call-system.tsx:136 | from the initial screen, entering a token, creating the socket and its `connected` make no request |
| CallSession.ConnectAfterCreationFetchesNothing | components/click-to-call-system.tsx:534-547 | from any state, a socket's creation, then the ref effect, then its `connected` make no request |
| CallSession.ReconnectAfterDisconnectFetchesNothing | components/click-to-call-system.tsx:510-514 | from any state, `disconnected`, then the ref effect, then `connected` make no request |
| CallSession.FetchCampaignsGuard | components/click-to-call-system.tsx:135-167 | without a token, or unless the ref reads `connected`, nothing changes; otherwise the campaigns are requested and loading stops; on success the agent keeps its status and selection and its list becomes `CampaignsOf` of the data, so it holds exactly the "campaign" entries in order, and is empty when the response has no data; on failure the list is kept and the CRM receives `Erro ao buscar campanhas` |
| CallSession.LoginGuard | components/click-to-call-system.tsx:169-210 | login acts only with a token while idle; success records the campaign, empties the list and tells the CRM; failure leaves the agent state as it was |
| CallSession.MakeCallGuard | components/click-to-call-system.tsx:212-270 | nothing changes when the target is empty or the agent is not logged in; otherwise the trimmed target is dialled, ending in `dialing`, or in `logged_in` when the dial fails |
| CallSession.BlankArgumentUsesPhoneField | components/click-to-call-system.tsx:215-218 | a blank or missing argument dials the trimmed phone field |
| CallSession.ResetEventsEndIdle | components/click-to-call-system.tsx:504-515 | `disconnected` and `agent-left-manual` end idle with no campaigns, no selection and no call, and tell the CRM of the logout |
| CallSession.UnhandledEventChangesNothing | components/click-to-call-system.tsx:516-517 | an unrecognised event changes nothing |
| CallSession.QualifyAndHangupNeedIds | components/click-to-call-system.tsx:272-339 | qualify needs the telephony id and hang-up the call id of the call their closure sees; otherwise each requests its action, and hang-up tells the CRM the call ended |
| ClickToCall.ClickToCallSystem.constructor | components/click-to-call-system.tsx:51-71 | the screen mounts disconnected, idle, with no call, an empty token and an empty phone field |
| ClickToCall.ClickToCallSystem.EnterToken | components/click-to-call-system.tsx:51 | typing the token sets it and nothing else |
| ClickToCall.ClickToCallSystem.EnterPhoneNumber | components/click-to-call-system.tsx:52 | typing the number sets the phone field and nothing else |
| ClickToCall.ClickToCallSystem.ResetCallState | components/click-to-call-system.tsx:85-96 | performs `CallSession.ResetCallState` |
| ClickToCall.ClickToCallSystem.ResetAllState | components/click-to-call-system.tsx:98-105 | performs `CallSession.ResetAllState`: idle, no campaigns, call reset, logout notice |
| ClickToCall.ClickToCallSystem.RunCompletionEffect | components/click-to-call-system.tsx:108-133 | performs the completion effect |
| ClickToCall.ClickToCallSystem.FireResetTimer | components/click-to-call-system.tsx:128-131 | a pending reset timer resets the call state |
| ClickToCall.ClickToCallSystem.ConnectSocket | components/click-to-call-system.tsx:533-539 | with a token, the status becomes `connecting`; without one nothing changes |
| ClickToCall.ClickToCallSystem.SyncConnectionStatusRef | components/click-to-call-system.tsx:77-79 | the ref takes the connection status |
| ClickToCall.ClickToCallSystem.FetchCampaigns | components/click-to-call-system.tsx:135-167 | performs `CallSession.FetchCampaigns` |
| ClickToCall.ClickToCallSystem.LoginToCampaign | components/click-to-call-system.tsx:169-210 | performs `CallSession.LoginToCampaign` |
| ClickToCall.ClickToCallSystem.MakeCall | components/click-to-call-system.tsx:212-219 | performs `CallSession.MakeCall` |
| ClickToCall.ClickToCallSystem.Dial | components/click-to-call-system.tsx:225-270 | performs `CallSession.Dial` |
| ClickToCall.ClickToCallSystem.QualifyCall | components/click-to-call-system.tsx:272-309 | performs `CallSession.QualifyCall` |
| ClickToCall.ClickToCallSystem.HangupCall | components/click-to-call-system.tsx:311-339 | performs `CallSession.HangupCall` |
| ClickToCall.ClickToCallSystem.FillPhoneNumber | components/click-to-call-system.tsx:349-355 | the CRM's fill request sets the phone field to the trimmed number |
| ClickToCall.ClickToCallSystem.EndCallWith | components/click-to-call-system.tsx:456-502 | performs the unsuccessful ending with its status |
| ClickToCall.ClickToCallSystem.OnCallWasConnected | components/click-to-call-system.tsx:382-409 | performs `CallSession.CallConnected` |
| ClickToCall.ClickToCallSystem.OnConnected | components/click-to-call-system.tsx:364-368 | performs the `connected` event |
| ClickToCall.ClickToCallSystem.OnAgentEnteredManual | components/click-to-call-system.tsx:370-380 | performs the `agent-entered-manual` event: `logged_in` and an availability notice |
| ClickToCall.ClickToCallSystem.OnAgentLeftManual | components/click-to-call-system.tsx:504-508 | performs the `agent-left-manual` event |
| ClickToCall.ClickToCallSystem.OnDisconnected | components/click-to-call-system.tsx:510-514 | performs the `disconnected` event |
| ClickToCall.ClickToCallSystem.OnManualCallWasAnswered | components/click-to-call-system.tsx:411-420 | performs `CallSession.CallAnswered` |
| ClickToCall.ClickToCallSystem.OnManualCallWasQualified | components/click-to-call-system.tsx:422-436 | performs `CallSession.CallQualified` |
| ClickToCall.ClickToCallSystem.OnCallWasFinished | components/click-to-call-system.tsx:438-454 | performs `CallSession.CallFinished` |
| ClickToCall.ClickToCallSystem.HandleSocketEvent | components/click-to-call-system.tsx:359-530 | performs `CallSession.OnSocketEvent` for every event |
| ClickToCall.CrmRequestsSeeMountState | components/click-to-call-system.tsx:342-357 | during a call, the CRM's hang-up and its engagement callback's qualify reach closures that see no call, and change nothing |
| RelayHub.RoomName | server.js:44 | a token's room is `token-` followed by the token |
| RelayHub.TokenText | server.js:62-63 | a missing token interpolates as `undefined` |
| RelayHub.Join | server.js:48-51 | the id is added to the set under the key, which is created when absent; other keys are untouched |
| RelayHub.Leave | server.js:163-170 | the id leaves every set, a set is deleted exactly when the id was its only member, every remaining set is a subset of the old one, and every other id stays where it was |
| RelayHub.JoinWithoutTokenOnlyErrs | server.js:37-42 | `join-room` without a token only sends the error back to the sender |
| RelayHub.JoinAddsSocket | server.js:44-57 | with a token, the socket joins `token-<token>` and the token's set; the sender is told its room; the room's other members are told of the socket |
| RelayHub.JoinTwiceIsJoinOnce | server.js:48-51 | joining twice leaves both tables as joining once |
| RelayHub.RelayReachesRoomButSender | server.js:61-125 | a relayed event reaches exactly the members of `token-<payload token>` but the sender, with the payload unchanged; a missing token targets `token-undefined` |
| RelayHub.HeartbeatReplacesPayload | server.js:128-133 | a heartbeat carries the sender's id and the hub's time instead of the payload, to the recipients a relay would reach |
| RelayHub.DisconnectRemovesSocket | server.js:159-172 | `disconnect` removes the socket from every set, deletes exactly the sets it was the only member of, shrinks no set by anything but itself, and keeps other sockets and tokens |
| RelayHub.JoinThenDisconnectRestores | server.js:44-51 | a new socket that joins and then disconnects leaves the tables as they were |
| RelayHub.StepKeepsNoEmptyRooms | server.js:48-51 | no join, relay, heartbeat or disconnect leaves an empty set in either table |
| RelayHub.RunKeepsNoEmptyRooms | server.js:166-168 | no sequence of inputs leaves an empty set in either table |
| RelayHub.Hub.constructor | server.js:17 | the hub starts with no rooms |
| RelayHub.Hub.OnJoinRoom | server.js:37-58 | performs `RelayHub.JoinRoom` |
| RelayHub.Hub.OnRelayedEvent | server.js:61-125 | performs `RelayHub.Relay` |
| RelayHub.Hub.OnHeartbeat | server.js:128-133 | performs `RelayHub.Heartbeat` |
| RelayHub.Hub.OnDisconnect | server.js:159-172 | the loop over the rooms leaves the table as `RelayHub.Leave` describes |
| Softphone.ReconnectBound | app/extension/page.tsx:221 | the reconnect bound is 10 in a call and 5 otherwise |
| Softphone.DisconnectStopsPastBound | app/extension/page.tsx:215-228 | each `disconnected` counts one attempt and shows the card; the agent is stopped with the fatal message exactly when the count passes the bound |
| Softphone.DisconnectsInARow | app/extension/page.tsx:215-228 | `k` disconnections add `k` attempts; the agent is then stopped iff it was already stopped or the count passed the bound |
| Softphone.HandlersSetUpIdleGiveUpAfterFive | app/extension/page.tsx:209-228 | handlers attached outside a call stop the agent at the sixth disconnection in a row, even while in a call |
| Softphone.RegisteredResetsCounters | app/extension/page.tsx:210-242 | `connected` restarts the reconnect count; `registered` restarts both counts, marks registered, hides the card and requests the extension-connected broadcast |
| Softphone.RetryRegistersWithinBound | app/extension/page.tsx:251-270 | a retry registers iff the agent is connected, unregistered and the count is at most 10, and then counts it; past the bound it only shows the fatal message |
| Softphone.MuteToggles | app/extension/page.tsx:321-339 | mute acts only in a call with a session; it flips the microphone, sends the matching command and requests the matching broadcast; toggling twice restores it |
| Softphone.SessionOverClearsCall | app/extension/page.tsx:277-309 | `accepted` sets in-call; `ended` and `failed` clear the session, the call and the mute |
| Softphone.SilentRoomClosesPopup | app/extension/page.tsx:46-48 | no input except a received heartbeat moves the liveness time, so without heartbeats from the room the first check more than 10000 ms after it closes the popup |
| Softphone.CheckClosesWhenSilentOrLoggedOut | app/extension/page.tsx:81-98 | the check closes the popup iff the stored token is missing or empty or the last heartbeat is more than 10000 ms old; closing requests the extension-closed broadcast |
| Softphone.HeartbeatKeepsOpen | app/extension/page.tsx:46-48 | a heartbeat keeps the popup, with its token stored, open for 10000 ms |
| Softphone.ValidationClosesOnMismatch | app/extension/page.tsx:55-64 | a validation closes the popup unless the stored and received tokens are both present and equal; with both missing it closes |
| Softphone.StatusAnswersRegistered | app/extension/page.tsx:49-54 | the status answer is always open, and connected exactly when registered |
| Softphone.StepKeepsValid | app/extension/page.tsx:259-263 | no event takes the register count past 11 or leaves the microphone muted outside a call with a session |
| Softphone.RunKeepsValid | app/extension/page.tsx:259-263 | no sequence of events takes the register count past 11 or leaves the microphone muted outside a call with a session |
| Softphone.ExtensionPage.constructor | app/extension/page.tsx:24-73 | the popup mounts unregistered, out of a call, with zero counts and the heartbeat time set to now, and requests the extension-opened broadcast |
| Softphone.ExtensionPage.SetupSipEvents | app/extension/page.tsx:209 | the handlers keep the current `inCall` |
| Softphone.ExtensionPage.OnConnected | app/extension/page.tsx:210-213 | performs `Softphone.UaConnected` |
| Softphone.ExtensionPage.OnDisconnected | app/extension/page.tsx:215-228 | performs `Softphone.UaDisconnected` |
| Softphone.ExtensionPage.OnRegistered | app/extension/page.tsx:230-242 | performs `Softphone.UaRegistered` |
| Softphone.ExtensionPage.OnUnregistered | app/extension/page.tsx:244-249 | unregistered, card hidden |
| Softphone.ExtensionPage.OnRegistrationFailed | app/extension/page.tsx:251-257 | unregistered, card shown, a retry scheduled |
| Softphone.ExtensionPage.OnRetryTimer | app/extension/page.tsx:257-269 | performs `Softphone.RetryFires` |
| Softphone.ExtensionPage.OnNewRtcSession | app/extension/page.tsx:272-317 | the session is kept and answered |
| Softphone.ExtensionPage.OnAccepted | app/extension/page.tsx:277-280 | in a call |
| Softphone.ExtensionPage.OnMediaFailed | app/extension/page.tsx:291-295 | the card shows the microphone message |
| Softphone.ExtensionPage.OnSessionOver | app/extension/page.tsx:297-309 | no session, no call, not muted |
| Softphone.ExtensionPage.MuteMicrophone | app/extension/page.tsx:321-339 | performs `Softphone.MuteToggled` |
| Softphone.ExtensionPage.OnHeartbeat | app/extension/page.tsx:46-48 | the last heartbeat time becomes now |
| Softphone.ExtensionPage.SendHeartbeat | app/extension/page.tsx:76-78 | requests the popup's heartbeat broadcast |
| Softphone.ExtensionPage.CheckHeartbeat | app/extension/page.tsx:81-98 | performs `Softphone.HeartbeatCheck` |
| Softphone.ExtensionPage.OnTokenValidation | app/extension/page.tsx:55-64 | performs `Softphone.TokenValidation` |
| Softphone.ExtensionPage.OnCheckExtensionStatus | app/extension/page.tsx:49-54 | answers open, and connected as registered |
| Softphone.ExtensionPage.RestartLivenessEffect | app/extension/page.tsx:100-107 | the effect's cleanup requests the extension-closed broadcast and its re-run requests extension-opened |

## Left out

- Rendering, icons and the status line (`updateStatus` texts) of the call screen are not modelled. The softphone's label and error messages are kept, since they are its visible error states.
- The REST requests to the telephony platform are recorded with their arguments; their outcomes are inputs. Their `await` points are not interleaved with other events: each action runs to completion in one step.
- Of the call screen's socket connection management (components/click-to-call-system.tsx:533-570), only the `connecting` status set at creation is modelled, as the input `SocketCreated`. The socket object, its `connected` check and its listeners are left out, as are the broadcast hook and the unused call-socket hook. The events they deliver are inputs, among them the `disconnected` that the effect's cleanup causes whenever the handler changes.
- The unmount cleanup of the call screen (components/click-to-call-system.tsx:573-579) is not modelled; the model has no unmount.
- `tokenRef` is taken to hold the current token. The effect that copies it is not a separate step, unlike the connection-status ref.
- The bodies of `notifyUserLoggedIn`, `notifyUserAvailable`, `notifyUserUnavailable`, `notifyUserLoggedOut` and `sendError` are not part of this model. They are imported from a version of the notifier whose live code does not define them, and they are logged as opaque notices.
- The CRM's `qualify` handler converts the id with `Number(qId)`; the model takes the converted number as an input.
- The commented-out first half of lib/hubspot-call-provider.ts (lines 1-183) is dead code. Also left out are `onCreateEngagementFailed`, `defaultEventHandler`, the accessor functions and the `window.HubSpotConversations` assignment, which only log or expose state.
- `null` and `undefined` are both `None`, except in token validation, where the stored `null` and a received `undefined` differ and are kept apart. There a missing received token is taken to be `undefined`. A sender's explicit `validationToken: null` is not represented: with no token stored it compares equal and keeps the popup open, while the model closes it.
- The softphone's broadcast log holds requests, not deliveries. The broadcast hook (hooks/use-socket-broadcast.ts:150-247) sends only while its socket is connected. It recreates that socket after every render, because the page passes it a new `handlers` object each time (app/extension/page.tsx:45). So the mount effect's extension-opened and the closed/opened pair of the liveness effect's re-run are dropped, and the model does not say which requests are delivered.
- A handler of the relay hub given no payload at all throws in the server; the model always has a payload, whose token may be missing.
- The realtime library's per-socket rooms are not modelled. The library's disconnect is modelled as leaving every room.
- The SIP library, WebRTC, the microphone and audio playback are commands in a log. The softphone's start-up (fetching the user, HTTPS and microphone checks, creating the agent) is left out, as is the reload button.
- Softphone.ExtensionPage.OnNewRtcSession: sessions are not told apart. The end of any session clears the one the page holds.
- Softphone.ExtensionPage.OnCheckExtensionStatus: the answer uses the `registered` of the render whose handlers the broadcast hook last subscribed. The model takes the current value.
- What happens after `window.close()` is left to the browser. The model marks the popup closed and goes on accepting events.
- Timers and intervals fire as explicit steps, and the clock is a parameter.
