/** The softphone popup of app/extension/page.tsx: the SIP user agent's reconnect and
    re-register counters, the registration and call flags, the mute toggle, and the
    liveness checks that close the popup when no heartbeat has come from the relay room
    or the stored token changed. SIP and media calls are recorded as commands, and the
    broadcast requests handed to the relay hook as a log; the clock, the browser's token
    storage and the user agent's own state are parameters. */
module Softphone {
  import opened JsText

  /** What the popup asks the SIP library to do. */
  datatype SipCommand = Register | Stop | Answer | Mute | Unmute

  /** What the popup asks the relay hook to broadcast to its room. The hook sends a request
      only while its socket is connected; the log records the request, not the delivery. */
  datatype Broadcast =
    | ExtensionOpened(openedAt: int)
    | ExtensionConnected
    | ExtensionClosed
    | MicrophoneMuted(mutedAt: int)
    | MicrophoneUnmuted(unmutedAt: int)
    | HeartbeatSent(sentAt: int)
    | StatusResponse(isOpen: bool, isConnected: bool)

  /** What the popup displays: its label, whether the error card shows, and its message. */
  datatype Display = Display(statusLabel: string, showMessage: bool, errorMessage: string)

  /** The call flags: in a call, microphone muted, and a session held by the session ref. */
  datatype CallFlags = CallFlags(inCall: bool, muted: bool, hasSession: bool)

  /** The popup's state. `inCallAtSetup` is the `inCall` the user agent's handlers were
      created with; `pendingRetries` counts scheduled re-register timers. */
  datatype Phone = Phone(
    display: Display,
    call: CallFlags,
    registered: bool,
    wsAttempts: nat,
    registerAttempts: nat,
    pendingRetries: nat,
    inCallAtSetup: bool,
    lastHeartbeat: int,
    closed: bool,
    commands: seq<SipCommand>,
    broadcasts: seq<Broadcast>)

  const InitialError := "Não foi possível conectar. Por favor, tente recarregar a página."
  const ReconnectError := "Não foi possível conectar após várias tentativas. Recarregue a página."
  const RegisterError := "Falha ao registrar após várias tentativas"
  const MicrophoneError := "Falha ao acessar o microfone"

  /** Silence from the relay room, in milliseconds, after which the popup closes. */
  const HeartbeatTimeout := 10000
  /** Re-register attempts allowed after registration failures: while the count is at most this. */
  const MaxRegisterAttempts := 10

  /** The popup as it mounts at time `now` and requests its opened announcement. */
  function Mounted(now: int): Phone {
    Phone(Display("Inicializando...", false, InitialError), CallFlags(false, false, false),
          false, 0, 0, 0, false, now, false, [], [ExtensionOpened(now)])
  }

  /** How many consecutive disconnections the handlers tolerate. */
  function ReconnectBound(inCall: bool): (n: nat)
    ensures n == 5 || n == 10
    ensures n == 10 <==> inCall
  {
    if inCall then 10 else 5
  }

  /** The user agent has been asked to stop. */
  predicate Stopped(p: Phone) {
    Stop in p.commands
  }

  // ---------------------------------------------------------------------
  // The user agent's events

  /** The handlers are attached to a new user agent; they keep the `inCall` of this moment. */
  function SipEventsSetUp(p: Phone): Phone {
    p.(inCallAtSetup := p.call.inCall)
  }

  /** `connected`: the reconnect counter restarts. */
  function UaConnected(p: Phone): Phone {
    p.(wsAttempts := 0)
  }

  /** `disconnected`: one more attempt, the card shown; past the bound the agent is stopped with the fatal message. */
  function UaDisconnected(p: Phone): Phone {
    var n := p.wsAttempts + 1;
    var d := p.display.(statusLabel := "Desconectado, tentando conectar...", showMessage := true);
    if n > ReconnectBound(p.inCallAtSetup) then
      p.(display := d.(errorMessage := ReconnectError), wsAttempts := n, commands := p.commands + [Stop])
    else
      p.(display := d, wsAttempts := n)
  }

  /** `registered`: registered, the card hidden, both counters restarted, and the
      extension-connected broadcast requested. */
  function UaRegistered(p: Phone): Phone {
    p.(display := p.display.(statusLabel := "Ramal registrado", showMessage := false), registered := true,
       wsAttempts := 0, registerAttempts := 0, broadcasts := p.broadcasts + [ExtensionConnected])
  }

  /** `unregistered`: not registered, the card hidden. */
  function UaUnregistered(p: Phone): Phone {
    p.(display := p.display.(statusLabel := "Ramal desconectado, tentando conectar...", showMessage := false), registered := false)
  }

  /** `registrationFailed`: not registered, the card shown, a retry scheduled. */
  function UaRegistrationFailed(p: Phone): Phone {
    p.(display := p.display.(statusLabel := "Tentando registrar...", showMessage := true), registered := false,
       pendingRetries := p.pendingRetries + 1)
  }

  /** A scheduled retry fires, seeing whether the agent is connected and registered: only a
      connected, unregistered agent is re-registered, and only while the count allows it. */
  function RetryFires(p: Phone, uaConnected: bool, uaRegistered: bool): Phone
    requires p.pendingRetries > 0
  {
    var q := p.(pendingRetries := p.pendingRetries - 1);
    if !uaConnected || uaRegistered then q
    else if p.registerAttempts <= MaxRegisterAttempts then
      q.(display := q.display.(statusLabel := "Tentando registrar..."), commands := q.commands + [Register],
         registerAttempts := q.registerAttempts + 1)
    else q.(display := q.display.(errorMessage := RegisterError))
  }

  // ---------------------------------------------------------------------
  // Call sessions

  /** `newRTCSession`: the session is kept and answered. */
  function NewSession(p: Phone): Phone {
    p.(call := p.call.(hasSession := true), commands := p.commands + [Answer])
  }

  /** The session's `accepted`. */
  function SessionAccepted(p: Phone): Phone {
    p.(call := p.call.(inCall := true))
  }

  /** The session's `getusermediafailed`. */
  function SessionMediaFailed(p: Phone): Phone {
    p.(display := p.display.(showMessage := true, errorMessage := MicrophoneError))
  }

  /** The session's `ended` or `failed`: no session, no call, not muted. */
  function SessionOver(p: Phone): Phone {
    p.(call := CallFlags(false, false, false))
  }

  /** `muteMicrophone`: only in a call with a session; flips the microphone and requests the matching broadcast. */
  function MuteToggled(p: Phone, now: int): Phone {
    if !(p.call.inCall && p.call.hasSession) then p
    else if p.call.muted then
      p.(commands := p.commands + [Unmute], call := p.call.(muted := false), broadcasts := p.broadcasts + [MicrophoneUnmuted(now)])
    else
      p.(commands := p.commands + [Mute], call := p.call.(muted := true), broadcasts := p.broadcasts + [MicrophoneMuted(now)])
  }

  // ---------------------------------------------------------------------
  // Liveness

  /** A call screen's heartbeat arrives. */
  function HeartbeatReceived(p: Phone, now: int): Phone {
    p.(lastHeartbeat := now)
  }

  /** The popup's own heartbeat, requested for the relay room. */
  function HeartbeatBroadcast(p: Phone, now: int): Phone {
    p.(broadcasts := p.broadcasts + [HeartbeatSent(now)])
  }

  /** The popup requests the closed announcement, and closes. */
  function Close(p: Phone): Phone {
    p.(broadcasts := p.broadcasts + [ExtensionClosed], closed := true)
  }

  /** The periodic check, given the time and the token in the browser's storage: without a
      token, or after more than the timeout without a heartbeat, the popup closes. */
  function HeartbeatCheck(p: Phone, now: int, stored: Option<string>): Phone {
    if !Truthy(stored) then Close(p)
    else if now - p.lastHeartbeat > HeartbeatTimeout then Close(p)
    else p
  }

  /** The stored token (missing: `null`) and a validation token (missing: `undefined`) are the
      same value: both present and equal, since `null` and `undefined` differ. */
  predicate SameToken(stored: Option<string>, received: Option<string>) {
    stored.Some? && received.Some? && stored.value == received.value
  }

  /** `token-validation`: a token other than the stored one closes the popup. */
  function TokenValidation(p: Phone, stored: Option<string>, received: Option<string>): Phone {
    if SameToken(stored, received) then p else Close(p)
  }

  /** `check-extension-status`: the popup answers that it is open and whether it is registered. */
  function StatusCheck(p: Phone): Phone {
    p.(broadcasts := p.broadcasts + [StatusResponse(true, p.registered)])
  }

  /** The liveness effect runs again after a render: its cleanup requests the closed
      announcement, and the re-run requests the opened one. */
  function LivenessEffectRestarts(p: Phone, now: int): Phone {
    p.(broadcasts := p.broadcasts + [ExtensionClosed, ExtensionOpened(now)])
  }

  // ---------------------------------------------------------------------
  // The host's steps

  datatype Input =
    | SipSetUp
    | Connected
    | Disconnected
    | Registered
    | Unregistered
    | RegistrationFailed
    | RetryTimer(uaConnected: bool, uaRegistered: bool)
    | NewRtcSession
    | Accepted
    | MediaFailed
    | Ended
    | Failed
    | MuteClicked(clickedAt: int)
    | HeartbeatIn(heardAt: int)
    | HeartbeatOut(sentAt: int)
    | CheckTick(checkedAt: int, stored: Option<string>)
    | ValidationIn(storedToken: Option<string>, received: Option<string>)
    | StatusCheckIn
    | EffectRestart(restartedAt: int)

  function Step(p: Phone, i: Input): Phone {
    match i
    case SipSetUp => SipEventsSetUp(p)
    case Connected => UaConnected(p)
    case Disconnected => UaDisconnected(p)
    case Registered => UaRegistered(p)
    case Unregistered => UaUnregistered(p)
    case RegistrationFailed => UaRegistrationFailed(p)
    case RetryTimer(c, r) => if p.pendingRetries > 0 then RetryFires(p, c, r) else p
    case NewRtcSession => NewSession(p)
    case Accepted => SessionAccepted(p)
    case MediaFailed => SessionMediaFailed(p)
    case Ended => SessionOver(p)
    case Failed => SessionOver(p)
    case MuteClicked(now) => MuteToggled(p, now)
    case HeartbeatIn(now) => HeartbeatReceived(p, now)
    case HeartbeatOut(now) => HeartbeatBroadcast(p, now)
    case CheckTick(now, stored) => HeartbeatCheck(p, now, stored)
    case ValidationIn(stored, received) => TokenValidation(p, stored, received)
    case StatusCheckIn => StatusCheck(p)
    case EffectRestart(now) => LivenessEffectRestarts(p, now)
  }

  function Run(p: Phone, inputs: seq<Input>): Phone
    decreases |inputs|
  {
    if inputs == [] then p else Run(Step(p, inputs[0]), inputs[1..])
  }

  // ---------------------------------------------------------------------
  // Properties

  /** Each `disconnected` counts one attempt; the agent is stopped, with the fatal message,
      exactly when the count passes the bound of the handlers' `inCall`. */
  lemma DisconnectStopsPastBound(p: Phone)
    ensures var r := UaDisconnected(p);
      && r.wsAttempts == p.wsAttempts + 1 && r.display.showMessage
      && (r.commands != p.commands <==> p.wsAttempts + 1 > ReconnectBound(p.inCallAtSetup))
      && (p.wsAttempts + 1 > ReconnectBound(p.inCallAtSetup) ==>
            r.commands == p.commands + [Stop] && r.display.errorMessage == ReconnectError)
  {
    var r := UaDisconnected(p);
    if p.wsAttempts + 1 > ReconnectBound(p.inCallAtSetup) {
      assert |r.commands| == |p.commands| + 1;
    }
  }

  /** Running a first input, then the rest. */
  lemma RunCons(p: Phone, i: Input, rest: seq<Input>)
    ensures Run(p, [i] + rest) == Run(Step(p, i), rest)
  {
    assert ([i] + rest)[1..] == rest;
  }

  /** `k` disconnections in a row add `k` attempts, and the agent is stopped after them
      exactly when it was stopped before or the count passed the bound. */
  lemma {:induction false} DisconnectsInARow(p: Phone, k: nat)
    ensures Run(p, seq(k, _ => Disconnected)).wsAttempts == p.wsAttempts + k
    ensures Run(p, seq(k, _ => Disconnected)).inCallAtSetup == p.inCallAtSetup
    ensures Stopped(Run(p, seq(k, _ => Disconnected))) <==>
      Stopped(p) || (k > 0 && p.wsAttempts + k > ReconnectBound(p.inCallAtSetup))
    decreases k
  {
    if k > 0 {
      var q := UaDisconnected(p);
      assert seq(k, _ => Disconnected) == [Disconnected] + seq(k - 1, _ => Disconnected);
      RunCons(p, Disconnected, seq(k - 1, _ => Disconnected));
      DisconnectsInARow(q, k - 1);
      assert Stopped(q) <==> Stopped(p) || p.wsAttempts + 1 > ReconnectBound(p.inCallAtSetup);
    }
  }

  /** The handlers keep the `inCall` of their creation: attached outside a call, they stop
      the agent at the sixth disconnection in a row even while a call is in progress. */
  lemma HandlersSetUpIdleGiveUpAfterFive(p: Phone)
    requires !p.call.inCall && p.wsAttempts == 0 && !Stopped(p)
    ensures var q := Run(p, [SipSetUp, Accepted]);
      && q.call.inCall && !q.inCallAtSetup
      && !Stopped(Run(q, seq(5, _ => Disconnected)))
      && Stopped(Run(q, seq(6, _ => Disconnected)))
  {
    var q := SessionAccepted(SipEventsSetUp(p));
    assert Run(p, [SipSetUp, Accepted]) == q by {
      assert [SipSetUp, Accepted][1..] == [Accepted];
    }
    DisconnectsInARow(q, 5);
    DisconnectsInARow(q, 6);
  }

  /** `connected` and `registered` restart the counters; `registered` also hides the card,
      marks the agent registered and requests the extension-connected broadcast. */
  lemma RegisteredResetsCounters(p: Phone)
    ensures UaConnected(p).wsAttempts == 0 && UaConnected(p).registerAttempts == p.registerAttempts
    ensures var r := UaRegistered(p);
      && r.wsAttempts == 0 && r.registerAttempts == 0 && r.registered && !r.display.showMessage
      && r.broadcasts == p.broadcasts + [ExtensionConnected] && r.commands == p.commands
  {
  }

  /** A retry re-registers only a connected, unregistered agent, and only while the count is at
      most ten; past that it only shows the fatal message. */
  lemma RetryRegistersWithinBound(p: Phone, uaConnected: bool, uaRegistered: bool)
    requires p.pendingRetries > 0
    ensures var r := RetryFires(p, uaConnected, uaRegistered);
      && (r.commands != p.commands <==> uaConnected && !uaRegistered && p.registerAttempts <= MaxRegisterAttempts)
      && (r.commands != p.commands ==> r.commands == p.commands + [Register] && r.registerAttempts == p.registerAttempts + 1)
      && (uaConnected && !uaRegistered && p.registerAttempts > MaxRegisterAttempts ==>
            r.display.errorMessage == RegisterError && r.registerAttempts == p.registerAttempts)
      && r.pendingRetries == p.pendingRetries - 1
  {
    var r := RetryFires(p, uaConnected, uaRegistered);
    if uaConnected && !uaRegistered && p.registerAttempts <= MaxRegisterAttempts {
      assert |r.commands| == |p.commands| + 1;
    }
  }

  /** The mute toggle acts only in a call with a session; it flips the microphone, issues the
      matching command and requests the matching broadcast; twice restores the microphone. */
  lemma MuteToggles(p: Phone, t1: int, t2: int)
    ensures !(p.call.inCall && p.call.hasSession) ==> MuteToggled(p, t1) == p
    ensures p.call.inCall && p.call.hasSession ==>
      var r := MuteToggled(p, t1);
      && r.call.muted == !p.call.muted && r.call.inCall && r.call.hasSession
      && r.broadcasts == p.broadcasts + [if p.call.muted then MicrophoneUnmuted(t1) else MicrophoneMuted(t1)]
      && r.commands == p.commands + [if p.call.muted then Unmute else Mute]
      && MuteToggled(r, t2).call == p.call
  {
  }

  /** The end of a session, whether `ended` or `failed`, leaves no call, no session and the microphone open. */
  lemma SessionOverClearsCall(p: Phone)
    ensures !SessionOver(p).call.inCall && !SessionOver(p).call.muted && !SessionOver(p).call.hasSession
    ensures SessionAccepted(p).call.inCall
  {
  }

  /** The periodic check closes the popup exactly when the stored token is missing or empty
      or the last heartbeat is more than ten seconds old, and then requests the closed announcement. */
  lemma CheckClosesWhenSilentOrLoggedOut(p: Phone, now: int, stored: Option<string>)
    ensures var r := HeartbeatCheck(p, now, stored);
      (r != p <==> !Truthy(stored) || now - p.lastHeartbeat > HeartbeatTimeout)
    ensures var r := HeartbeatCheck(p, now, stored);
      r != p ==> r.closed && r.broadcasts == p.broadcasts + [ExtensionClosed]
  {
    var r := HeartbeatCheck(p, now, stored);
    if !Truthy(stored) || now - p.lastHeartbeat > HeartbeatTimeout {
      assert |r.broadcasts| == |p.broadcasts| + 1;
    }
  }

  /** A heartbeat keeps the popup open, with its token stored, for ten seconds. */
  lemma HeartbeatKeepsOpen(p: Phone, heard: int, now: int, stored: Option<string>)
    requires Truthy(stored) && heard <= now <= heard + HeartbeatTimeout
    ensures HeartbeatCheck(HeartbeatReceived(p, heard), now, stored) == HeartbeatReceived(p, heard)
  {
  }

  /** Token validation closes the popup unless the stored token and the received one are both
      present and equal; with both missing it closes too. */
  lemma ValidationClosesOnMismatch(p: Phone, stored: Option<string>, received: Option<string>)
    ensures TokenValidation(p, stored, received).closed <==> p.closed || !SameToken(stored, received)
    ensures TokenValidation(p, None, None) == Close(p)
  {
  }

  /** The status answer is always "open", and "connected" exactly when registered. */
  lemma StatusAnswersRegistered(p: Phone)
    ensures StatusCheck(p).broadcasts == p.broadcasts + [StatusResponse(true, p.registered)]
  {
  }

  /** The popup's invariant: the register count never passes eleven, and a muted microphone
      belongs to a call with a session. */
  predicate Valid(p: Phone) {
    p.registerAttempts <= MaxRegisterAttempts + 1 && (p.call.muted ==> p.call.inCall && p.call.hasSession)
  }

  lemma StepKeepsValid(p: Phone, i: Input)
    requires Valid(p)
    ensures Valid(Step(p, i))
  {
    StepKeepsRegisterBound(p, i);
    StepKeepsMuteInCall(p, i);
  }

  lemma StepKeepsRegisterBound(p: Phone, i: Input)
    requires p.registerAttempts <= MaxRegisterAttempts + 1
    ensures Step(p, i).registerAttempts <= MaxRegisterAttempts + 1
  {
  }

  lemma StepKeepsMuteInCall(p: Phone, i: Input)
    requires p.call.muted ==> p.call.inCall && p.call.hasSession
    ensures Step(p, i).call.muted ==> Step(p, i).call.inCall && Step(p, i).call.hasSession
  {
  }

  /** From the mounted popup, every sequence of events keeps the invariant. */
  lemma {:induction false} RunKeepsValid(p: Phone, inputs: seq<Input>)
    requires Valid(p)
    ensures Valid(Run(p, inputs))
    decreases |inputs|
  {
    if inputs != [] {
      StepKeepsValid(p, inputs[0]);
      RunKeepsValid(Step(p, inputs[0]), inputs[1..]);
    }
  }

  /** No input but a received heartbeat moves the liveness time. */
  lemma StepKeepsHeartbeatTime(p: Phone, i: Input)
    requires !i.HeartbeatIn?
    ensures Step(p, i).lastHeartbeat == p.lastHeartbeat
  {
  }

  /** Only a heartbeat received from the room refreshes the liveness time; the popup's own
      heartbeats, which the hub does not send back to it, leave it as it is. With no heartbeat
      from another client, the first check more than ten seconds later closes the popup. */
  lemma {:induction false} SilentRoomClosesPopup(p: Phone, inputs: seq<Input>, now: int, stored: Option<string>)
    requires forall k :: 0 <= k < |inputs| ==> !inputs[k].HeartbeatIn?
    ensures Run(p, inputs).lastHeartbeat == p.lastHeartbeat
    ensures now - p.lastHeartbeat > HeartbeatTimeout ==> HeartbeatCheck(Run(p, inputs), now, stored).closed
    decreases |inputs|
  {
    if inputs != [] {
      StepKeepsHeartbeatTime(p, inputs[0]);
      SilentRoomClosesPopup(Step(p, inputs[0]), inputs[1..], now, stored);
    }
  }

  // ---------------------------------------------------------------------
  // The page itself

  /** The popup's refs and state, updated in place by the user agent's, the session's and the
      socket's handlers and by the intervals. */
  class ExtensionPage {
    var display: Display
    var call: CallFlags
    var registered: bool
    var wsAttempts: nat
    var registerAttempts: nat
    var pendingRetries: nat
    var inCallAtSetup: bool
    var lastHeartbeat: int
    var closed: bool
    var commands: seq<SipCommand>
    var broadcasts: seq<Broadcast>

    function State(): Phone
      reads this
    {
      Phone(display, call, registered, wsAttempts, registerAttempts, pendingRetries, inCallAtSetup,
            lastHeartbeat, closed, commands, broadcasts)
    }

    constructor (now: int)
      ensures State() == Mounted(now)
    {
      display := Display("Inicializando...", false, InitialError);
      call := CallFlags(false, false, false);
      registered := false;
      wsAttempts, registerAttempts, pendingRetries := 0, 0, 0;
      inCallAtSetup := false;
      lastHeartbeat := now;
      closed := false;
      commands := [];
      broadcasts := [ExtensionOpened(now)];
    }

    method SetupSipEvents()
      modifies this
      ensures State() == SipEventsSetUp(old(State()))
    {
      inCallAtSetup := call.inCall;
    }

    method OnConnected()
      modifies this
      ensures State() == UaConnected(old(State()))
    {
      wsAttempts := 0;
    }

    method OnDisconnected()
      modifies this
      ensures State() == UaDisconnected(old(State()))
    {
      display := display.(statusLabel := "Desconectado, tentando conectar...", showMessage := true);
      wsAttempts := wsAttempts + 1;
      var attempts := if inCallAtSetup then 10 else 5;
      if wsAttempts > attempts {
        display := display.(errorMessage := ReconnectError);
        commands := commands + [Stop];
      }
    }

    method OnRegistered()
      modifies this
      ensures State() == UaRegistered(old(State()))
    {
      display := display.(statusLabel := "Ramal registrado", showMessage := false);
      registered := true;
      wsAttempts := 0;
      registerAttempts := 0;
      broadcasts := broadcasts + [ExtensionConnected];
    }

    method OnUnregistered()
      modifies this
      ensures State() == UaUnregistered(old(State()))
    {
      display := display.(statusLabel := "Ramal desconectado, tentando conectar...", showMessage := false);
      registered := false;
    }

    method OnRegistrationFailed()
      modifies this
      ensures State() == UaRegistrationFailed(old(State()))
    {
      display := display.(statusLabel := "Tentando registrar...", showMessage := true);
      registered := false;
      pendingRetries := pendingRetries + 1;
    }

    method OnRetryTimer(uaConnected: bool, uaRegistered: bool)
      requires pendingRetries > 0
      modifies this
      ensures State() == RetryFires(old(State()), uaConnected, uaRegistered)
    {
      pendingRetries := pendingRetries - 1;
      if uaConnected && !uaRegistered {
        if registerAttempts <= 10 {
          display := display.(statusLabel := "Tentando registrar...");
          commands := commands + [Register];
          registerAttempts := registerAttempts + 1;
        } else {
          display := display.(errorMessage := RegisterError);
        }
      }
    }

    method OnNewRtcSession()
      modifies this
      ensures State() == NewSession(old(State()))
    {
      call := call.(hasSession := true);
      commands := commands + [Answer];
    }

    method OnAccepted()
      modifies this
      ensures State() == SessionAccepted(old(State()))
    {
      call := call.(inCall := true);
    }

    method OnMediaFailed()
      modifies this
      ensures State() == SessionMediaFailed(old(State()))
    {
      display := display.(showMessage := true, errorMessage := MicrophoneError);
    }

    /** The session's `ended` and `failed` handlers. */
    method OnSessionOver()
      modifies this
      ensures State() == SessionOver(old(State()))
    {
      call := call.(hasSession := false);
      call := call.(inCall := false);
      call := call.(muted := false);
    }

    method MuteMicrophone(now: int)
      modifies this
      ensures State() == MuteToggled(old(State()), now)
    {
      if call.inCall && call.hasSession {
        if call.muted {
          commands := commands + [Unmute];
          call := call.(muted := false);
          broadcasts := broadcasts + [MicrophoneUnmuted(now)];
        } else {
          commands := commands + [Mute];
          call := call.(muted := true);
          broadcasts := broadcasts + [MicrophoneMuted(now)];
        }
      }
    }

    method OnHeartbeat(now: int)
      modifies this
      ensures State() == HeartbeatReceived(old(State()), now)
    {
      lastHeartbeat := now;
    }

    method SendHeartbeat(now: int)
      modifies this
      ensures State() == HeartbeatBroadcast(old(State()), now)
    {
      broadcasts := broadcasts + [HeartbeatSent(now)];
    }

    method CheckHeartbeat(now: int, stored: Option<string>)
      modifies this
      ensures State() == HeartbeatCheck(old(State()), now, stored)
    {
      var timeSinceLastHeartbeat := now - lastHeartbeat;
      if !Truthy(stored) {
        broadcasts := broadcasts + [ExtensionClosed];
        closed := true;
        return;
      }
      if timeSinceLastHeartbeat > 10000 {
        broadcasts := broadcasts + [ExtensionClosed];
        closed := true;
      }
    }

    method OnTokenValidation(stored: Option<string>, received: Option<string>)
      modifies this
      ensures State() == TokenValidation(old(State()), stored, received)
    {
      if !SameToken(stored, received) {
        broadcasts := broadcasts + [ExtensionClosed];
        closed := true;
      }
    }

    method OnCheckExtensionStatus()
      modifies this
      ensures State() == StatusCheck(old(State()))
    {
      broadcasts := broadcasts + [StatusResponse(true, registered)];
    }

    method RestartLivenessEffect(now: int)
      modifies this
      ensures State() == LivenessEffectRestarts(old(State()), now)
    {
      broadcasts := broadcasts + [ExtensionClosed];
      broadcasts := broadcasts + [ExtensionOpened(now)];
    }
  }
}
