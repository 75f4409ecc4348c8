/** The call screen of components/click-to-call-system.tsx: the agent's
    connection and dialling state, the active call, the two completion flags
    whose join sends the CRM its completion notice, and the guarded user
    actions. `Session` and the functions over it specify every transition;
    the class `ClickToCallSystem` holds the same state in fields and its
    methods are proved to perform exactly those transitions.

    Every call into lib/hubspot-call-provider.ts is recorded in `crm` and
    every REST request to the telephony provider in `requests`; a REST
    outcome is an input (`ok`), never computed. React effects and the 1.5 s
    reset timer are explicit steps the host takes. */
module CallSession {
  import opened JsText
  import H = HubspotCallProvider

  type CallData = H.CallData

  /** The source's own tags. */
  datatype ConnectionStatus = disconnected | connecting | connected
  datatype AgentStatus = idle | logged_in | dialing | in_call | call_answered | call_qualified
  datatype CallStatus = COMPLETED | NO_ANSWER | FAILED | BUSY

  /** An entry of the groups-and-campaigns list; `kind` is its `type`. */
  datatype Group = Group(id: int, name: string, kind: string)
  datatype Qualification = Qualification(id: int, name: string)
  /** A qualification as the provider's event lists it, with whatever other fields it has. */
  datatype QualificationEntry = QualificationEntry(id: int, name: string, otherFields: map<string, string>)

  /** The engagement data the completion join hands to `notifyCallCompleted`. */
  datatype EngagementNote = EngagementNote(notes: string, subject: string, qualification: Qualification)

  /** A call into the CRM notifier, with the arguments it was given. */
  datatype CrmNotification =
    | NotifyUserLoggedIn
    | NotifyUserAvailable
    | NotifyUserLoggedOut
    | NotifyOutgoingCall(phoneNumber: string, callId: string)
    | NotifyCallAnswered(call: CallData)
    | NotifyCallEnded(call: CallData)
    | NotifyCallCompleted(call: CallData, engagement: Option<EngagementNote>)
    | SendError(message: string)

  /** A request sent to the telephony provider's REST interface. */
  datatype RestRequest =
    | FetchCampaignsRequest
    | LoginRequest(campaignId: int)
    | DialRequest(phone: string)
    | QualifyRequest(telephonyId: string, qualificationId: int)
    | HangupRequest(callId: string)

  /** The outcome of the campaign list request: the `data` array of a successful response, or a failure. */
  datatype CampaignResponse = CampaignsOk(data: Option<seq<Group>>) | CampaignsFailed

  /** The `call` object of a `call-was-connected` payload. */
  datatype CallPayload = CallPayload(id: Option<string>, phone: Option<string>, telephonyId: Option<string>)

  /** The events the provider's realtime channel delivers to `handleSocketEvent`. */
  datatype SocketEvent =
    | Connected
    | AgentEnteredManual(campaignId: Option<int>)
    | CallWasConnected(payload: Option<CallPayload>, qualificationList: Option<seq<QualificationEntry>>)
    | ManualCallWasAnswered
    | ManualCallWasQualified(qualification: Option<QualificationEntry>, callQualification: Option<QualificationEntry>)
    | CallWasFinished
    | CallWasNotAnswered
    | CallWasFailed
    | CallWasBusy
    | AgentLeftManual
    | Disconnected
    | Unhandled(name: string)

  /** The realtime channel's status and the ref the handlers read it through, which
      lags the status until the effect that copies it runs. */
  datatype ConnectionState = ConnectionState(status: ConnectionStatus, statusRef: ConnectionStatus)

  /** The agent's status, the campaign list on offer and the campaign logged into. */
  datatype AgentState = AgentState(status: AgentStatus, campaigns: seq<Group>, selectedCampaign: Option<Group>)

  /** The active call and its qualification: the list on offer, the list kept by the ref
      until the call is answered, the selection, the two completion flags and the status. */
  datatype CallState = CallState(
    activeCall: Option<CallData>,
    qualifications: seq<Qualification>,
    qualificationsRef: seq<Qualification>,
    selectedQualification: Option<Qualification>,
    isCallQualified: bool,
    callFinished: bool,
    callStatus: CallStatus)

  /** The state of the call screen. `token` is the operator token the handlers and
      requests read; `pendingResets` counts scheduled reset timers; `crm` and
      `requests` log the calls into the CRM notifier and the REST requests made. */
  datatype Session = Session(
    token: string,
    phoneNumber: string,
    connection: ConnectionState,
    agent: AgentState,
    call: CallState,
    isLoading: bool,
    pendingResets: nat,
    crm: seq<CrmNotification>,
    requests: seq<RestRequest>)

  /** No call: what `resetCallState` restores. */
  function NoCall(): CallState {
    CallState(None, [], [], None, false, false, COMPLETED)
  }

  function Initial(): Session {
    Session("", "", ConnectionState(disconnected, disconnected), AgentState(idle, [], None), NoCall(), false, 0, [], [])
  }

  // ---------------------------------------------------------------------
  // Values computed from event payloads and inputs

  /** The number announced to the CRM: it always starts with `+`; `+55` is
      prepended to a number that lacks one. */
  function FormatForCrm(phone: string): (r: string)
    ensures StartsWith(r, "+")
    ensures StartsWith(phone, "+") ==> r == phone
    ensures !StartsWith(phone, "+") ==> r == "+55" + phone
  {
    if StartsWith(phone, "+") then phone else "+55" + phone
  }

  /** The number the CRM announces for a call, cleaned on its way back to the
      call screen, is the national number prefixed with the country code. */
  lemma CrmNumberRoundTrip(phone: string)
    requires !StartsWith(phone, "+")
    ensures H.CleanNumber(FormatForCrm(phone)) == "55" + phone
  {
    assert FormatForCrm(phone) == "+" + ("55" + phone);
    H.CleanNumberStripsOne("55" + phone);
  }

  /** The active call built from a `call-was-connected` payload: missing or empty
      ids become `""`, a missing or empty phone falls back to the phone field. */
  function CallDataOf(call: Option<CallPayload>, phoneField: string): (c: CallData)
    ensures c.id == (if call.Some? then OrElse(call.value.id, "") else "")
    ensures c.telephonyId == (if call.Some? then OrElse(call.value.telephonyId, "") else "")
    ensures call.Some? && Truthy(call.value.phone) ==> c.phone == call.value.phone.value
    ensures !(call.Some? && Truthy(call.value.phone)) ==> c.phone == phoneField
  {
    var p := if call.Some? then call.value else CallPayload(None, None, None);
    H.CallData(OrElse(p.id, ""), OrElse(p.phone, phoneField), OrElse(p.telephonyId, ""))
  }

  /** The campaign qualification list reduced to `{id, name}`, empty when absent. */
  function QualificationsOf(list: Option<seq<QualificationEntry>>): (r: seq<Qualification>)
    ensures list.None? ==> r == []
    ensures list.Some? ==> |r| == |list.value|
    ensures list.Some? ==> forall i :: 0 <= i < |r| ==> r[i].id == list.value[i].id && r[i].name == list.value[i].name
  {
    match list
    case None => []
    case Some(es) => seq(|es|, i requires 0 <= i < |es| => Qualification(es[i].id, es[i].name))
  }

  /** The entries of the groups-and-campaigns list whose type is "campaign",
      each as often as it occurs there. */
  function CampaignsOf(entries: seq<Group>): (r: seq<Group>)
    ensures |r| <= |entries|
    ensures forall g :: g in r ==> g.kind == "campaign"
    ensures forall g: Group :: g.kind == "campaign" ==> multiset(r)[g] == multiset(entries)[g]
    ensures forall g: Group :: g.kind != "campaign" ==> multiset(r)[g] == 0
  {
    if entries == [] then []
    else
      assert entries == [entries[0]] + entries[1..];
      var rest := CampaignsOf(entries[1..]);
      if entries[0].kind == "campaign" then [entries[0]] + rest else rest
  }

  /** Filtering keeps the campaigns in the order the response lists them: it distributes over concatenation. */
  lemma {:induction false} CampaignsOfAppend(a: seq<Group>, b: seq<Group>)
    ensures CampaignsOf(a + b) == CampaignsOf(a) + CampaignsOf(b)
    decreases |a|
  {
    if a == [] {
      assert a + b == b;
    } else {
      assert (a + b)[1..] == a[1..] + b;
      CampaignsOfAppend(a[1..], b);
    }
  }

  /** The number `makeCall` dials: its argument trimmed when that is a non-blank
      string, otherwise the phone field trimmed. */
  function DialTarget(number: Option<string>, phoneField: string): (t: string)
    ensures number.Some? && !IsBlank(number.value) ==> t == Trim(number.value)
    ensures !(number.Some? && !IsBlank(number.value)) ==> t == Trim(phoneField)
    ensures t == [] || (!IsJsSpace(t[0]) && !IsJsSpace(t[|t| - 1]))
  {
    if number.Some? then
      TrimEmptyIffBlank(number.value);
      if Trim(number.value) != "" then Trim(number.value) else Trim(phoneField)
    else Trim(phoneField)
  }

  /** The engagement data of a completion: present exactly when a qualification was selected. */
  function NoteFor(q: Option<Qualification>, call: CallData): (n: Option<EngagementNote>)
    ensures n.Some? <==> q.Some?
    ensures q.Some? ==> n.value.qualification == q.value && n.value.subject == "Chamada - " + call.phone
    ensures q.Some? ==> n.value.notes == "Chamada qualificada como: " + q.value.name
  {
    if q.Some? then Some(EngagementNote("Chamada qualificada como: " + q.value.name, "Chamada - " + call.phone, q.value))
    else None
  }

  // ---------------------------------------------------------------------
  // Transitions

  /** `resetCallState`: no call, the phone field empty, not loading. */
  function ResetCallState(s: Session): Session {
    s.(call := NoCall(), phoneNumber := "", isLoading := false)
  }

  /** `resetAllState`: idle with no campaigns and no selection, the call state reset, and the CRM told of a logout. */
  function ResetAllState(s: Session): Session {
    var t := ResetCallState(s.(agent := AgentState(idle, [], None)));
    t.(crm := t.crm + [NotifyUserLoggedOut])
  }

  /** Both completion conditions and an active call. */
  predicate Joinable(s: Session) {
    s.call.isCallQualified && s.call.callFinished && s.call.activeCall.Some?
  }

  /** The completion effect: when `Joinable`, one completion notice for the active call,
      back to `logged_in`, and a reset timer scheduled; otherwise nothing. */
  function CompletionEffect(s: Session): Session {
    if Joinable(s) then
      var c := s.call.activeCall.value;
      s.(crm := s.crm + [NotifyCallCompleted(c, NoteFor(s.call.selectedQualification, c))],
         agent := s.agent.(status := logged_in), pendingResets := s.pendingResets + 1)
    else s
  }

  /** A scheduled reset timer fires. */
  function ResetTimer(s: Session): Session
    requires s.pendingResets > 0
  {
    ResetCallState(s).(pendingResets := s.pendingResets - 1)
  }

  /** The effect that copies the connection status into its ref. */
  function SyncConnectionStatusRef(s: Session): Session {
    s.(connection := s.connection.(statusRef := s.connection.status))
  }

  /** The connection effect's `connectSocket`: with a token, the status reads `connecting`
      while the socket is created. */
  function ConnectSocket(s: Session): Session {
    if s.token == "" then s else s.(connection := s.connection.(status := connecting))
  }

  /** `fetchCampaigns`: only with a token and the ref reading `connected`; keeps the campaigns of the response. */
  function FetchCampaigns(s: Session, resp: CampaignResponse): Session {
    if s.token == "" || s.connection.statusRef != connected then s
    else
      var t := s.(requests := s.requests + [FetchCampaignsRequest], isLoading := false);
      match resp
      case CampaignsOk(data) => t.(agent := t.agent.(campaigns := CampaignsOf(if data.Some? then data.value else [])))
      case CampaignsFailed => t.(crm := t.crm + [SendError("Erro ao buscar campanhas")])
  }

  /** `loginToCampaign`: only with a token while idle; a successful login records the campaign and empties the list. */
  function LoginToCampaign(s: Session, campaign: Group, ok: bool): Session {
    if s.token == "" || s.agent.status != idle then s
    else
      var t := s.(requests := s.requests + [LoginRequest(campaign.id)], isLoading := false);
      if ok then t.(agent := t.agent.(selectedCampaign := Some(campaign), campaigns := []), crm := t.crm + [NotifyUserLoggedIn])
      else t.(crm := t.crm + [SendError("Erro ao fazer login na campanha")])
  }

  /** `makeCall` once its target is known: only with a non-empty target while logged in;
      dials the target and waits in `dialing`, or returns to `logged_in` when the dial fails. */
  function Dial(s: Session, target: string, ok: bool): Session {
    if target == "" || s.agent.status != logged_in then s
    else
      var t := s.(agent := s.agent.(status := dialing), crm := s.crm + [NotifyUserAvailable],
                  requests := s.requests + [DialRequest(target)], isLoading := false);
      if ok then t else t.(agent := t.agent.(status := logged_in), crm := t.crm + [SendError("Erro ao iniciar chamada")])
  }

  /** `makeCall`: dials the argument or, failing that, the phone field. */
  function MakeCall(s: Session, number: Option<string>, ok: bool): Session {
    Dial(s, DialTarget(number, s.phoneNumber), ok)
  }

  /** `qualifyCall` as seen by a closure holding `seen` as the active call: nothing without a
      telephony id; on success the qualification is selected and loading continues until the
      provider confirms. */
  function QualifyCall(s: Session, seen: Option<CallData>, q: Qualification, ok: bool): Session {
    if seen.None? || seen.value.telephonyId == "" then s
    else
      var t := s.(requests := s.requests + [QualifyRequest(seen.value.telephonyId, q.id)]);
      if ok then t.(isLoading := true, call := t.call.(selectedQualification := Some(q)))
      else t.(isLoading := false, crm := t.crm + [SendError("Erro ao qualificar chamada")])
  }

  /** `hangupCall` as seen by a closure holding `seen` as the active call: nothing without a
      call id; otherwise the CRM is told the call ended and the hangup is requested. */
  function HangupCall(s: Session, seen: Option<CallData>, ok: bool): Session {
    if seen.None? || seen.value.id == "" then s
    else
      var t := s.(requests := s.requests + [HangupRequest(seen.value.id)], isLoading := ok);
      if ok then t.(crm := s.crm + [NotifyCallEnded(seen.value)])
      else t.(crm := s.crm + [NotifyCallEnded(seen.value), SendError("Erro ao encerrar chamada")])
  }

  /** The `fillPhoneNumber` handler given to the CRM notifier. */
  function FillPhoneNumber(s: Session, number: string): Session {
    s.(phoneNumber := Trim(number))
  }

  /** The common part of `call-was-not-answered`, `call-was-failed` and `call-was-busy`. */
  function CallEndedWith(s: Session, status: CallStatus): Session {
    s.(crm := if s.call.activeCall.Some? then s.crm + [NotifyCallEnded(s.call.activeCall.value)] else s.crm,
       agent := s.agent.(status := call_answered),
       call := s.call.(qualifications := s.call.qualificationsRef, callFinished := true,
                       isCallQualified := false, callStatus := status))
  }

  /** `call-was-connected`: the call from the payload becomes the active call, `in_call` with
      both completion flags down and no selection, the qualification list is kept for later,
      and the CRM is told of the outgoing call. */
  function CallConnected(s: Session, payload: Option<CallPayload>, list: Option<seq<QualificationEntry>>): Session {
    var c := CallDataOf(payload, s.phoneNumber);
    s.(call := s.call.(activeCall := Some(c), isCallQualified := false, callFinished := false,
                       selectedQualification := None, qualificationsRef := QualificationsOf(list)),
       agent := s.agent.(status := in_call),
       crm := s.crm + [NotifyOutgoingCall(FormatForCrm(c.phone), c.telephonyId)])
  }

  /** `manual-call-was-answered`: the kept qualifications are offered and the CRM told of the answer. */
  function CallAnswered(s: Session): Session {
    s.(agent := s.agent.(status := call_answered), call := s.call.(qualifications := s.call.qualificationsRef),
       crm := if s.call.activeCall.Some? then s.crm + [NotifyCallAnswered(s.call.activeCall.value)] else s.crm)
  }

  /** `manual-call-was-qualified`: `qualification`, else `callQualification`, becomes the selection. */
  function CallQualified(s: Session, q1: Option<QualificationEntry>, q2: Option<QualificationEntry>): Session {
    var used := if q1.Some? then q1 else q2;
    var selected := if used.Some? then Some(Qualification(used.value.id, used.value.name)) else s.call.selectedQualification;
    s.(call := s.call.(selectedQualification := selected, isCallQualified := true),
       agent := s.agent.(status := call_qualified), isLoading := false)
  }

  /** `call-was-finished`: finished with status COMPLETED; unless already qualified, qualification is awaited. */
  function CallFinished(s: Session): Session {
    var c := s.call.(callFinished := true, callStatus := COMPLETED);
    if s.call.isCallQualified then s.(call := c, isLoading := false)
    else s.(call := c.(qualifications := s.call.qualificationsRef), agent := s.agent.(status := call_answered), isLoading := false)
  }

  /** `handleSocketEvent`. `resp` is the outcome of the campaign request `connected` may make. */
  function OnSocketEvent(s: Session, ev: SocketEvent, resp: CampaignResponse): Session {
    match ev
    case Connected => FetchCampaigns(s.(connection := s.connection.(status := connected)), resp)
    case AgentEnteredManual(_) => s.(agent := s.agent.(status := logged_in), crm := s.crm + [NotifyUserAvailable])
    case CallWasConnected(payload, list) => CallConnected(s, payload, list)
    case ManualCallWasAnswered => CallAnswered(s)
    case ManualCallWasQualified(q1, q2) => CallQualified(s, q1, q2)
    case CallWasFinished => CallFinished(s)
    case CallWasNotAnswered => CallEndedWith(s, NO_ANSWER)
    case CallWasFailed => CallEndedWith(s, FAILED)
    case CallWasBusy => CallEndedWith(s, BUSY)
    case AgentLeftManual => ResetAllState(s.(agent := s.agent.(status := idle)))
    case Disconnected => ResetAllState(s.(connection := s.connection.(status := disconnected)))
    case Unhandled(_) => s
  }

  // ---------------------------------------------------------------------
  // The host's steps

  /** Everything that can happen to the call screen. */
  datatype Input =
    | Socket(ev: SocketEvent, resp: CampaignResponse)
    | SocketCreated
    | RefEffectRuns
    | CompletionEffectRuns
    | ResetTimerFires
    | TokenEntered(token: string)
    | PhoneEntered(phone: string)
    | CrmFillsPhone(number: string)
    | LoginClicked(campaign: Group, ok: bool)
    | DialRequested(argument: Option<string>, ok: bool)
    | QualifyRequested(seen: Option<CallData>, q: Qualification, ok: bool)
    | HangupRequested(seen: Option<CallData>, ok: bool)

  function Step(s: Session, i: Input): Session {
    match i
    case Socket(ev, resp) => OnSocketEvent(s, ev, resp)
    case SocketCreated => ConnectSocket(s)
    case RefEffectRuns => SyncConnectionStatusRef(s)
    case CompletionEffectRuns => CompletionEffect(s)
    case ResetTimerFires => if s.pendingResets > 0 then ResetTimer(s) else s
    case TokenEntered(t) => s.(token := t)
    case PhoneEntered(p) => s.(phoneNumber := p)
    case CrmFillsPhone(n) => FillPhoneNumber(s, n)
    case LoginClicked(c, ok) => LoginToCampaign(s, c, ok)
    case DialRequested(n, ok) => MakeCall(s, n, ok)
    case QualifyRequested(seen, q, ok) => QualifyCall(s, seen, q, ok)
    case HangupRequested(seen, ok) => HangupCall(s, seen, ok)
  }

  function Run(s: Session, inputs: seq<Input>): Session
    decreases |inputs|
  {
    if inputs == [] then s else Run(Step(s, inputs[0]), inputs[1..])
  }

  /** Only a `call-was-connected` event starts a call. */
  predicate StartsCall(i: Input) {
    i.Socket? && i.ev.CallWasConnected?
  }

  predicate NoCompletion(log: seq<CrmNotification>) {
    forall k :: 0 <= k < |log| ==> !log[k].NotifyCallCompleted?
  }

  /** `after` is `before` followed by notices none of which is a completion. */
  predicate ExtendsWithoutCompletion(before: seq<CrmNotification>, after: seq<CrmNotification>) {
    |before| <= |after| && after[..|before|] == before && NoCompletion(after[|before|..])
  }

  // ---------------------------------------------------------------------
  // Properties

  /** `resetCallState` leaves no call, no qualifications, no selection, both completion
      flags down, status COMPLETED, the phone field empty and loading off, and touches
      neither the agent, the connection nor the logs. */
  lemma ResetCallStateClearsCall(s: Session)
    ensures var r := ResetCallState(s);
      && r.call.activeCall == None && r.call.qualifications == [] && r.call.qualificationsRef == []
      && r.call.selectedQualification == None && !r.call.isCallQualified && !r.call.callFinished
      && r.call.callStatus == COMPLETED && r.phoneNumber == "" && !r.isLoading
      && r.agent == s.agent && r.connection == s.connection && r.crm == s.crm && r.requests == s.requests
  {
  }

  /** `call-was-connected` installs the call from the payload, starts `in_call` with both
      completion flags down and no selection, stores the qualification list, and announces
      the call to the CRM with a `+`-prefixed number and the telephony id. */
  lemma CallWasConnectedStartsCall(s: Session, payload: Option<CallPayload>, list: Option<seq<QualificationEntry>>, resp: CampaignResponse)
    ensures var r := OnSocketEvent(s, CallWasConnected(payload, list), resp);
      && r.call.activeCall == Some(CallDataOf(payload, s.phoneNumber))
      && r.agent.status == in_call && !r.call.isCallQualified && !r.call.callFinished
      && r.call.selectedQualification == None && r.call.qualificationsRef == QualificationsOf(list)
      && |r.crm| == |s.crm| + 1 && r.crm[..|s.crm|] == s.crm
      && r.crm[|s.crm|] == NotifyOutgoingCall(FormatForCrm(r.call.activeCall.value.phone), r.call.activeCall.value.telephonyId)
      && StartsWith(r.crm[|s.crm|].phoneNumber, "+")
  {
    var c := CallDataOf(payload, s.phoneNumber);
    assert (s.crm + [NotifyOutgoingCall(FormatForCrm(c.phone), c.telephonyId)])[..|s.crm|] == s.crm;
  }

  /** `call-was-finished` marks the call finished with status COMPLETED and moves to
      `call_answered` exactly when the call is not yet qualified, whether or not a call is active. */
  lemma CallWasFinishedMarksFinished(s: Session, resp: CampaignResponse)
    ensures var r := OnSocketEvent(s, CallWasFinished, resp);
      && r.call.callFinished && r.call.callStatus == COMPLETED && r.call.isCallQualified == s.call.isCallQualified
      && (r.agent.status == call_answered <==> !s.call.isCallQualified || s.agent.status == call_answered)
      && (!s.call.isCallQualified ==> r.call.qualifications == s.call.qualificationsRef)
      && r.call.activeCall == s.call.activeCall && r.crm == s.crm
  {
  }

  /** The unsuccessful endings always move to `call_answered`, finished and unqualified,
      with their own status, and tell the CRM the call ended when there is one. */
  lemma UnsuccessfulEndingsAwaitQualification(s: Session, ev: SocketEvent, resp: CampaignResponse)
    requires ev.CallWasNotAnswered? || ev.CallWasFailed? || ev.CallWasBusy?
    ensures var r := OnSocketEvent(s, ev, resp);
      && r.agent.status == call_answered && r.call.callFinished && !r.call.isCallQualified
      && r.call.callStatus == (if ev.CallWasNotAnswered? then NO_ANSWER else if ev.CallWasFailed? then FAILED else BUSY)
      && r.call.qualifications == s.call.qualificationsRef && r.call.activeCall == s.call.activeCall
      && r.crm == (if s.call.activeCall.Some? then s.crm + [NotifyCallEnded(s.call.activeCall.value)] else s.crm)
  {
  }

  /** The join: the completion effect sends a notice exactly when the call is qualified,
      finished and active, and that notice is for the active call with the selected
      qualification's engagement data. */
  lemma CompletionExactlyWhenJoinable(s: Session)
    ensures CompletionEffect(s).crm != s.crm <==> Joinable(s)
    ensures Joinable(s) ==>
      var c := s.call.activeCall.value;
      && CompletionEffect(s).crm == s.crm + [NotifyCallCompleted(c, NoteFor(s.call.selectedQualification, c))]
      && CompletionEffect(s).agent.status == logged_in
      && CompletionEffect(s).call == s.call
  {
    if Joinable(s) {
      assert |CompletionEffect(s).crm| == |s.crm| + 1;
    }
  }

  /** The call's status never reaches the CRM: the completion notice does not depend on it. */
  lemma CompletionIgnoresCallStatus(s: Session, status: CallStatus)
    ensures CompletionEffect(s.(call := s.call.(callStatus := status))).crm == CompletionEffect(s).crm
  {
  }

  /** Appending notices none of which is a completion. */
  lemma AppendWithoutCompletion(log: seq<CrmNotification>, tail: seq<CrmNotification>)
    requires NoCompletion(tail)
    ensures ExtendsWithoutCompletion(log, log + tail)
  {
    assert (log + tail)[..|log|] == log;
    assert (log + tail)[|log|..] == tail;
  }

  /** A socket event other than `call-was-connected` keeps a session without a call without
      one, and adds no completion notice. */
  lemma SocketEventWithoutCall(s: Session, ev: SocketEvent, resp: CampaignResponse)
    requires s.call.activeCall.None? && !ev.CallWasConnected?
    ensures OnSocketEvent(s, ev, resp).call.activeCall.None?
    ensures ExtendsWithoutCompletion(s.crm, OnSocketEvent(s, ev, resp).crm)
  {
    var tail: seq<CrmNotification> := [];
    if ev.Connected? {
      if s.token != "" && s.connection.statusRef == connected && resp.CampaignsFailed? {
        tail := [SendError("Erro ao buscar campanhas")];
      }
    } else if ev.AgentEnteredManual? {
      tail := [NotifyUserAvailable];
    } else if ev.AgentLeftManual? || ev.Disconnected? {
      tail := [NotifyUserLoggedOut];
    }
    assert OnSocketEvent(s, ev, resp).crm == s.crm + tail;
    AppendWithoutCompletion(s.crm, tail);
  }

  /** Dialling adds at most the availability notice and an error, never a call. */
  lemma DialWithoutCall(s: Session, number: Option<string>, ok: bool)
    requires s.call.activeCall.None?
    ensures MakeCall(s, number, ok).call.activeCall.None?
    ensures ExtendsWithoutCompletion(s.crm, MakeCall(s, number, ok).crm)
  {
    var tail: seq<CrmNotification> := [];
    if DialTarget(number, s.phoneNumber) != "" && s.agent.status == logged_in {
      tail := if ok then [NotifyUserAvailable] else [NotifyUserAvailable, SendError("Erro ao iniciar chamada")];
    }
    assert MakeCall(s, number, ok).crm == s.crm + tail;
    AppendWithoutCompletion(s.crm, tail);
  }

  /** Logging into a campaign adds at most one notice, never a call or a completion. */
  lemma LoginWithoutCall(s: Session, c: Group, ok: bool)
    requires s.call.activeCall.None?
    ensures LoginToCampaign(s, c, ok).call.activeCall.None?
    ensures ExtendsWithoutCompletion(s.crm, LoginToCampaign(s, c, ok).crm)
  {
    var tail: seq<CrmNotification> := [];
    if s.token != "" && s.agent.status == idle {
      tail := [if ok then NotifyUserLoggedIn else SendError("Erro ao fazer login na campanha")];
    }
    assert LoginToCampaign(s, c, ok).crm == s.crm + tail;
    AppendWithoutCompletion(s.crm, tail);
  }

  /** Hanging up adds at most the end notice and an error, never a call or a completion. */
  lemma HangupWithoutCall(s: Session, seen: Option<CallData>, ok: bool)
    requires s.call.activeCall.None?
    ensures HangupCall(s, seen, ok).call.activeCall.None?
    ensures ExtendsWithoutCompletion(s.crm, HangupCall(s, seen, ok).crm)
  {
    var tail: seq<CrmNotification> := [];
    if seen.Some? && seen.value.id != "" {
      tail := if ok then [NotifyCallEnded(seen.value)] else [NotifyCallEnded(seen.value), SendError("Erro ao encerrar chamada")];
    }
    assert HangupCall(s, seen, ok).crm == s.crm + tail;
    AppendWithoutCompletion(s.crm, tail);
  }

  /** Qualifying adds at most an error, never a call or a completion. */
  lemma QualifyWithoutCall(s: Session, seen: Option<CallData>, q: Qualification, ok: bool)
    requires s.call.activeCall.None?
    ensures QualifyCall(s, seen, q, ok).call.activeCall.None?
    ensures ExtendsWithoutCompletion(s.crm, QualifyCall(s, seen, q, ok).crm)
  {
    var tail: seq<CrmNotification> := [];
    if seen.Some? && seen.value.telephonyId != "" && !ok {
      tail := [SendError("Erro ao qualificar chamada")];
    }
    assert QualifyCall(s, seen, q, ok).crm == s.crm + tail;
    AppendWithoutCompletion(s.crm, tail);
  }

  /** One step that does not start a call keeps a session without a call without one,
      and adds no completion notice. */
  lemma StepWithoutCall(s: Session, i: Input)
    requires s.call.activeCall.None? && !StartsCall(i)
    ensures Step(s, i).call.activeCall.None?
    ensures ExtendsWithoutCompletion(s.crm, Step(s, i).crm)
  {
    match i {
      case Socket(ev, resp) => SocketEventWithoutCall(s, ev, resp);
      case DialRequested(n, ok) => DialWithoutCall(s, n, ok);
      case LoginClicked(c, ok) => LoginWithoutCall(s, c, ok);
      case HangupRequested(seen, ok) => HangupWithoutCall(s, seen, ok);
      case QualifyRequested(seen, q, ok) => QualifyWithoutCall(s, seen, q, ok);
      case SocketCreated | RefEffectRuns | CompletionEffectRuns | ResetTimerFires | TokenEntered(_) | PhoneEntered(_) | CrmFillsPhone(_) =>
        AppendWithoutCompletion(s.crm, []);
        assert s.crm + [] == s.crm;
    }
  }

  /** Appending notice logs without completions keeps them without completions. */
  lemma ExtendsWithoutCompletionTransitive(a: seq<CrmNotification>, b: seq<CrmNotification>, c: seq<CrmNotification>)
    requires ExtendsWithoutCompletion(a, b) && ExtendsWithoutCompletion(b, c)
    ensures ExtendsWithoutCompletion(a, c)
  {
    assert c[..|a|] == c[..|b|][..|a|];
    forall k | 0 <= k < |c| - |a| ensures !c[|a|..][k].NotifyCallCompleted? {
      if k < |b| - |a| {
        assert c[|a|..][k] == c[..|b|][|a| + k] == b[|a|..][k];
      } else {
        assert c[|a|..][k] == c[|b|..][k - (|b| - |a|)];
      }
    }
  }

  /** Without an active call, no sequence of inputs free of `call-was-connected` creates one
      or sends a completion notice. */
  lemma {:induction false} NoCompletionWithoutNewCall(s: Session, inputs: seq<Input>)
    requires s.call.activeCall.None?
    requires forall k :: 0 <= k < |inputs| ==> !StartsCall(inputs[k])
    ensures Run(s, inputs).call.activeCall.None?
    ensures ExtendsWithoutCompletion(s.crm, Run(s, inputs).crm)
    decreases |inputs|
  {
    if inputs == [] {
      assert s.crm[|s.crm|..] == [];
    } else {
      var t := Step(s, inputs[0]);
      StepWithoutCall(s, inputs[0]);
      NoCompletionWithoutNewCall(t, inputs[1..]);
      ExtendsWithoutCompletionTransitive(s.crm, t.crm, Run(t, inputs[1..]).crm);
    }
  }

  /** The completion join fires once: from a joinable session the effect sends one completion
      notice for the active call, the reset timer then clears the call, and after that no
      sequence of inputs without a new `call-was-connected` sends another. */
  lemma JoinThenResetFiresOnce(s: Session, inputs: seq<Input>)
    requires Joinable(s)
    requires forall k :: 0 <= k < |inputs| ==> !StartsCall(inputs[k])
    ensures var r := Run(s, [CompletionEffectRuns, ResetTimerFires] + inputs);
      var c := s.call.activeCall.value;
      && |r.crm| > |s.crm|
      && r.crm[..|s.crm| + 1] == s.crm + [NotifyCallCompleted(c, NoteFor(s.call.selectedQualification, c))]
      && NoCompletion(r.crm[|s.crm| + 1..])
      && r.call.activeCall.None?
  {
    var all := [CompletionEffectRuns, ResetTimerFires] + inputs;
    var s1 := CompletionEffect(s);
    var s2 := ResetTimer(s1);
    assert Run(s, all) == Run(s1, all[1..]);
    assert all[1..][1..] == inputs;
    assert Run(s, all) == Run(s2, inputs);
    NoCompletionWithoutNewCall(s2, inputs);
    var r := Run(s2, inputs);
    assert r.crm[..|s.crm| + 1] == r.crm[..|s2.crm|];
  }

  /** Nothing guards the join against running again before the reset timer: if React re-runs
      the effect after a repeated `manual-call-was-qualified` (a new qualification object),
      the CRM receives a second completion notice for the same call. */
  lemma RepeatedQualifiedBeforeResetCompletesTwice(s: Session, e: QualificationEntry, resp: CampaignResponse)
    requires Joinable(s)
    ensures var r := Run(s, [CompletionEffectRuns, Socket(ManualCallWasQualified(Some(e), None), resp), CompletionEffectRuns]);
      && |r.crm| == |s.crm| + 2
      && r.crm[|s.crm|].NotifyCallCompleted? && r.crm[|s.crm| + 1].NotifyCallCompleted?
      && r.crm[|s.crm|].call == r.crm[|s.crm| + 1].call == s.call.activeCall.value
  {
    var ins := [CompletionEffectRuns, Socket(ManualCallWasQualified(Some(e), None), resp), CompletionEffectRuns];
    var s1 := CompletionEffect(s);
    var s2 := CallQualified(s1, Some(e), None);
    var s3 := CompletionEffect(s2);
    assert Run(s, ins) == Run(s1, ins[1..]);
    assert Run(s1, ins[1..]) == Run(s2, ins[2..]);
    assert Run(s2, ins[2..]) == Run(s3, []);
  }

  /** `connected` fetches through the ref, which still holds the previous status: arriving
      while the ref reads anything but `connected` it marks the channel connected and fetches nothing. */
  lemma ConnectedReadsStaleRef(s: Session, resp: CampaignResponse)
    requires s.connection.statusRef != connected
    ensures OnSocketEvent(s, Connected, resp) == s.(connection := s.connection.(status := connected))
  {
  }

  /** Three inputs run one after the other. */
  lemma RunThree(s: Session, a: Input, b: Input, c: Input)
    ensures Run(s, [a, b, c]) == Step(Step(Step(s, a), b), c)
  {
    assert [a, b, c][1..] == [b, c] && [b, c][1..] == [c] && [c][1..] == [];
    calc {
      Run(s, [a, b, c]);
      Run(Step(s, a), [b, c]);
      Run(Step(Step(s, a), b), [c]);
      Run(Step(Step(Step(s, a), b), c), []);
    }
  }

  /** From the initial screen, entering a token, creating the socket and receiving its
      `connected` fetches no campaigns. */
  lemma FirstConnectFetchesNothing(token: string, resp: CampaignResponse)
    ensures Run(Initial(), [TokenEntered(token), SocketCreated, Socket(Connected, resp)]).requests == []
  {
    RunThree(Initial(), TokenEntered(token), SocketCreated, Socket(Connected, resp));
    ConnectedReadsStaleRef(ConnectSocket(Initial().(token := token)), resp);
  }

  /** A created socket connects after the `connecting` its creation sets; once the ref effect
      has copied that status, the `connected` event fetches no campaigns. */
  lemma ConnectAfterCreationFetchesNothing(s: Session, resp: CampaignResponse)
    ensures Run(s, [SocketCreated, RefEffectRuns, Socket(Connected, resp)]).requests == s.requests
  {
    RunThree(s, SocketCreated, RefEffectRuns, Socket(Connected, resp));
    if s.token != "" {
      ConnectedReadsStaleRef(SyncConnectionStatusRef(ConnectSocket(s)), resp);
    }
  }

  /** A socket that reconnects after a `disconnect` has run the `disconnected` branch; once the
      ref effect has copied that status, the `connected` event fetches no campaigns. */
  lemma ReconnectAfterDisconnectFetchesNothing(s: Session, lost: CampaignResponse, resp: CampaignResponse)
    ensures Run(s, [Socket(Disconnected, lost), RefEffectRuns, Socket(Connected, resp)]).requests == s.requests
  {
    RunThree(s, Socket(Disconnected, lost), RefEffectRuns, Socket(Connected, resp));
    ConnectedReadsStaleRef(SyncConnectionStatusRef(OnSocketEvent(s, Disconnected, lost)), resp);
  }

  /** `fetchCampaigns` does nothing without a token or unless the ref reads `connected`;
      when it succeeds the list holds exactly the entries of type "campaign". */
  lemma FetchCampaignsGuard(s: Session, resp: CampaignResponse)
    ensures s.token == "" || s.connection.statusRef != connected ==> FetchCampaigns(s, resp) == s
    ensures s.token != "" && s.connection.statusRef == connected ==>
      var r := FetchCampaigns(s, resp);
      && r.requests == s.requests + [FetchCampaignsRequest] && !r.isLoading
      && r.call == s.call && r.connection == s.connection && r.token == s.token
      && (resp.CampaignsOk? && resp.data.Some? ==>
            r.crm == s.crm && r.agent == s.agent.(campaigns := CampaignsOf(resp.data.value))
            && forall g :: g in r.agent.campaigns <==> g in resp.data.value && g.kind == "campaign")
      && (resp.CampaignsOk? && resp.data.None? ==> r.crm == s.crm && r.agent == s.agent.(campaigns := []))
      && (resp.CampaignsFailed? ==> r.agent == s.agent && r.crm == s.crm + [SendError("Erro ao buscar campanhas")])
  {
    if resp.CampaignsOk? && resp.data.Some? {
      var data := resp.data.value;
      var r := CampaignsOf(data);
      forall g | g in data && g.kind == "campaign" ensures g in r {
        assert multiset(data)[g] > 0;
      }
    }
  }

  /** `loginToCampaign` acts only with a token while idle; a successful login records the
      campaign, empties the campaign list and tells the CRM; the agent status is left to the provider's event. */
  lemma LoginGuard(s: Session, c: Group, ok: bool)
    ensures s.token == "" || s.agent.status != idle ==> LoginToCampaign(s, c, ok) == s
    ensures s.token != "" && s.agent.status == idle ==>
      var r := LoginToCampaign(s, c, ok);
      && r.requests == s.requests + [LoginRequest(c.id)] && r.agent.status == idle
      && (ok ==> r.agent.selectedCampaign == Some(c) && r.agent.campaigns == [] && r.crm == s.crm + [NotifyUserLoggedIn])
      && (!ok ==> r.agent == s.agent)
  {
  }

  /** `makeCall` changes nothing when its target is empty or the agent is not logged in;
      otherwise it dials the trimmed target, waiting in `dialing`, and a failed dial
      returns to `logged_in`. */
  lemma MakeCallGuard(s: Session, number: Option<string>, ok: bool)
    ensures DialTarget(number, s.phoneNumber) == "" || s.agent.status != logged_in ==> MakeCall(s, number, ok) == s
    ensures DialTarget(number, s.phoneNumber) != "" && s.agent.status == logged_in ==>
      var r := MakeCall(s, number, ok);
      && r.requests == s.requests + [DialRequest(DialTarget(number, s.phoneNumber))]
      && r.agent.status == (if ok then dialing else logged_in)
      && r.call == s.call
  {
  }

  /** Typing blanks as the argument of `makeCall` falls back to the phone field. */
  lemma BlankArgumentUsesPhoneField(number: string, phoneField: string)
    requires IsBlank(number)
    ensures DialTarget(Some(number), phoneField) == Trim(phoneField)
    ensures DialTarget(None, phoneField) == Trim(phoneField)
  {
  }

  /** `disconnected` and `agent-left-manual` both end idle with no campaigns, no selected
      campaign and no call, and tell the CRM of a logout. */
  lemma ResetEventsEndIdle(s: Session, ev: SocketEvent, resp: CampaignResponse)
    requires ev.Disconnected? || ev.AgentLeftManual?
    ensures var r := OnSocketEvent(s, ev, resp);
      && r.agent == AgentState(idle, [], None) && r.call == NoCall()
      && r.crm == s.crm + [NotifyUserLoggedOut]
      && (ev.Disconnected? ==> r.connection.status == disconnected)
      && (ev.AgentLeftManual? ==> r.connection == s.connection)
  {
  }

  /** An event `handleSocketEvent` does not recognise changes nothing. */
  lemma UnhandledEventChangesNothing(s: Session, name: string, resp: CampaignResponse)
    ensures OnSocketEvent(s, Unhandled(name), resp) == s
  {
  }

  /** `qualifyCall` and `hangupCall` do nothing when the call their closure sees has no
      telephony id or no call id respectively. */
  lemma QualifyAndHangupNeedIds(s: Session, seen: Option<CallData>, q: Qualification, ok: bool)
    ensures seen.None? || seen.value.telephonyId == "" ==> QualifyCall(s, seen, q, ok) == s
    ensures seen.None? || seen.value.id == "" ==> HangupCall(s, seen, ok) == s
    ensures seen.Some? && seen.value.telephonyId != "" ==>
      QualifyCall(s, seen, q, ok).requests == s.requests + [QualifyRequest(seen.value.telephonyId, q.id)]
    ensures seen.Some? && seen.value.id != "" ==>
      HangupCall(s, seen, ok).requests == s.requests + [HangupRequest(seen.value.id)]
      && HangupCall(s, seen, ok).crm[|s.crm|] == NotifyCallEnded(seen.value)
  {
  }
}

/** The component itself: the state of `CallSession.Session` held in fields the
    handlers update in place, one field per group of React state. Each method is
    proved to perform the transition `CallSession` specifies for it. */
module ClickToCall {
  import opened JsText
  import H = HubspotCallProvider
  import opened CallSession

  class ClickToCallSystem {
    var token: string
    var phoneNumber: string
    var connection: ConnectionState
    var agent: AgentState
    var call: CallState
    var isLoading: bool
    var pendingResets: nat
    var crm: seq<CrmNotification>
    var requests: seq<RestRequest>

    function State(): Session
      reads this
    {
      Session(token, phoneNumber, connection, agent, call, isLoading, pendingResets, crm, requests)
    }

    /** The freshly mounted component. */
    constructor ()
      ensures State() == Initial()
    {
      token, phoneNumber := "", "";
      connection := ConnectionState(disconnected, disconnected);
      agent := AgentState(idle, [], None);
      call := NoCall();
      isLoading := false;
      pendingResets := 0;
      crm, requests := [], [];
    }

    method EnterToken(t: string)
      modifies this
      ensures State() == old(State()).(token := t)
    {
      token := t;
    }

    method EnterPhoneNumber(p: string)
      modifies this
      ensures State() == old(State()).(phoneNumber := p)
    {
      phoneNumber := p;
    }

    method ResetCallState()
      modifies this
      ensures State() == CallSession.ResetCallState(old(State()))
    {
      call := NoCall();
      phoneNumber := "";
      isLoading := false;
    }

    method ResetAllState()
      modifies this
      ensures State() == CallSession.ResetAllState(old(State()))
    {
      agent := AgentState(idle, [], None);
      ResetCallState();
      crm := crm + [NotifyUserLoggedOut];
    }

    /** The effect watching the completion flags. */
    method RunCompletionEffect()
      modifies this
      ensures State() == CompletionEffect(old(State()))
    {
      if call.isCallQualified && call.callFinished && call.activeCall.Some? {
        var c := call.activeCall.value;
        var note := if call.selectedQualification.Some?
          then Some(EngagementNote("Chamada qualificada como: " + call.selectedQualification.value.name,
                                   "Chamada - " + c.phone, call.selectedQualification.value))
          else None;
        crm := crm + [NotifyCallCompleted(c, note)];
        agent := agent.(status := logged_in);
        pendingResets := pendingResets + 1;
      }
    }

    /** One scheduled reset timer fires. */
    method FireResetTimer()
      requires pendingResets > 0
      modifies this
      ensures State() == ResetTimer(old(State()))
    {
      ResetCallState();
      pendingResets := pendingResets - 1;
    }

    /** The effect copying the connection status into its ref. */
    method SyncConnectionStatusRef()
      modifies this
      ensures State() == CallSession.SyncConnectionStatusRef(old(State()))
    {
      connection := connection.(statusRef := connection.status);
    }

    method ConnectSocket()
      modifies this
      ensures State() == CallSession.ConnectSocket(old(State()))
    {
      if token != "" {
        connection := connection.(status := connecting);
      }
    }

    method FetchCampaigns(resp: CampaignResponse)
      modifies this
      ensures State() == CallSession.FetchCampaigns(old(State()), resp)
    {
      if token == "" || connection.statusRef != connected {
        return;
      }
      isLoading := true;
      requests := requests + [FetchCampaignsRequest];
      match resp {
        case CampaignsOk(data) =>
          var list := if data.Some? then data.value else [];
          agent := agent.(campaigns := CampaignsOf(list));
        case CampaignsFailed =>
          crm := crm + [SendError("Erro ao buscar campanhas")];
      }
      isLoading := false;
    }

    method LoginToCampaign(campaign: Group, ok: bool)
      modifies this
      ensures State() == CallSession.LoginToCampaign(old(State()), campaign, ok)
    {
      if token == "" || agent.status != idle {
        return;
      }
      isLoading := true;
      requests := requests + [LoginRequest(campaign.id)];
      if ok {
        agent := agent.(selectedCampaign := Some(campaign), campaigns := []);
        crm := crm + [NotifyUserLoggedIn];
      } else {
        crm := crm + [SendError("Erro ao fazer login na campanha")];
      }
      isLoading := false;
    }

    method MakeCall(number: Option<string>, ok: bool)
      modifies this
      ensures State() == CallSession.MakeCall(old(State()), number, ok)
    {
      var target := DialTarget(number, phoneNumber);
      Dial(target, ok);
    }

    method Dial(target: string, ok: bool)
      modifies this
      ensures State() == CallSession.Dial(old(State()), target, ok)
    {
      if target == "" || agent.status != logged_in {
        return;
      }
      isLoading := true;
      agent := agent.(status := dialing);
      crm := crm + [NotifyUserAvailable];
      requests := requests + [DialRequest(target)];
      if !ok {
        agent := agent.(status := logged_in);
        crm := crm + [SendError("Erro ao iniciar chamada")];
      }
      isLoading := false;
    }

    /** `seen` is the active call held by the closure that calls it: the current one for the
        screen's buttons, the one at mount time for the handler kept by the CRM notifier. */
    method QualifyCall(seen: Option<CallData>, q: Qualification, ok: bool)
      modifies this
      ensures State() == CallSession.QualifyCall(old(State()), seen, q, ok)
    {
      if seen.None? || seen.value.telephonyId == "" {
        return;
      }
      isLoading := true;
      requests := requests + [QualifyRequest(seen.value.telephonyId, q.id)];
      if ok {
        call := call.(selectedQualification := Some(q));
      } else {
        isLoading := false;
        crm := crm + [SendError("Erro ao qualificar chamada")];
      }
    }

    /** `seen` as for `QualifyCall`. */
    method HangupCall(seen: Option<CallData>, ok: bool)
      modifies this
      ensures State() == CallSession.HangupCall(old(State()), seen, ok)
    {
      if seen.None? || seen.value.id == "" {
        return;
      }
      isLoading := true;
      crm := crm + [NotifyCallEnded(seen.value)];
      requests := requests + [HangupRequest(seen.value.id)];
      if !ok {
        isLoading := false;
        crm := crm + [SendError("Erro ao encerrar chamada")];
      }
    }

    method FillPhoneNumber(number: string)
      modifies this
      ensures State() == CallSession.FillPhoneNumber(old(State()), number)
    {
      phoneNumber := Trim(number);
    }

    method EndCallWith(status: CallStatus)
      modifies this
      ensures State() == CallEndedWith(old(State()), status)
    {
      if call.activeCall.Some? {
        crm := crm + [NotifyCallEnded(call.activeCall.value)];
      }
      agent := agent.(status := call_answered);
      call := call.(qualifications := call.qualificationsRef, callFinished := true,
                    isCallQualified := false, callStatus := status);
    }

    method OnCallWasConnected(payload: Option<CallPayload>, list: Option<seq<QualificationEntry>>)
      modifies this
      ensures State() == CallConnected(old(State()), payload, list)
    {
      var p := if payload.Some? then payload.value else CallPayload(None, None, None);
      var c := H.CallData(OrElse(p.id, ""), OrElse(p.phone, phoneNumber), OrElse(p.telephonyId, ""));
      var formatted := c.phone;
      if !StartsWith(formatted, "+") {
        formatted := "+55" + c.phone;
      }
      call := call.(activeCall := Some(c), isCallQualified := false, callFinished := false,
                    selectedQualification := None, qualificationsRef := QualificationsOf(list));
      agent := agent.(status := in_call);
      crm := crm + [NotifyOutgoingCall(formatted, c.telephonyId)];
    }

    method OnConnected(resp: CampaignResponse)
      modifies this
      ensures State() == OnSocketEvent(old(State()), Connected, resp)
    {
      connection := connection.(status := connected);
      FetchCampaigns(resp);
    }

    method OnAgentEnteredManual()
      modifies this
      ensures State() == OnSocketEvent(old(State()), AgentEnteredManual(None), CampaignsFailed)
    {
      agent := agent.(status := logged_in);
      crm := crm + [NotifyUserAvailable];
    }

    method OnAgentLeftManual()
      modifies this
      ensures State() == OnSocketEvent(old(State()), AgentLeftManual, CampaignsFailed)
    {
      agent := agent.(status := idle);
      ResetAllState();
    }

    method OnDisconnected()
      modifies this
      ensures State() == OnSocketEvent(old(State()), Disconnected, CampaignsFailed)
    {
      connection := connection.(status := disconnected);
      ResetAllState();
    }

    method OnManualCallWasAnswered()
      modifies this
      ensures State() == CallAnswered(old(State()))
    {
      agent := agent.(status := call_answered);
      call := call.(qualifications := call.qualificationsRef);
      if call.activeCall.Some? {
        crm := crm + [NotifyCallAnswered(call.activeCall.value)];
      }
    }

    method OnManualCallWasQualified(q1: Option<QualificationEntry>, q2: Option<QualificationEntry>)
      modifies this
      ensures State() == CallQualified(old(State()), q1, q2)
    {
      var used := if q1.Some? then q1 else q2;
      if used.Some? {
        call := call.(selectedQualification := Some(Qualification(used.value.id, used.value.name)));
      }
      call := call.(isCallQualified := true);
      agent := agent.(status := call_qualified);
      isLoading := false;
    }

    method OnCallWasFinished()
      modifies this
      ensures State() == CallFinished(old(State()))
    {
      call := call.(callFinished := true, callStatus := COMPLETED);
      if !call.isCallQualified {
        agent := agent.(status := call_answered);
        call := call.(qualifications := call.qualificationsRef);
      }
      isLoading := false;
    }

    method HandleSocketEvent(ev: SocketEvent, resp: CampaignResponse)
      modifies this
      ensures State() == OnSocketEvent(old(State()), ev, resp)
    {
      match ev {
        case Connected => OnConnected(resp);
        case AgentEnteredManual(_) => OnAgentEnteredManual();
        case CallWasConnected(payload, list) => OnCallWasConnected(payload, list);
        case ManualCallWasAnswered => OnManualCallWasAnswered();
        case ManualCallWasQualified(q1, q2) => OnManualCallWasQualified(q1, q2);
        case CallWasFinished => OnCallWasFinished();
        case CallWasNotAnswered => EndCallWith(NO_ANSWER);
        case CallWasFailed => EndCallWith(FAILED);
        case CallWasBusy => EndCallWith(BUSY);
        case AgentLeftManual => OnAgentLeftManual();
        case Disconnected => OnDisconnected();
        case Unhandled(_) =>
      }
    }
  }

  /** The CRM notifier keeps the handlers of the first initialisation, made when the screen
      mounts with no call. Even during a call, the CRM's hang-up and its engagement callback's
      qualification reach `hangupCall`/`qualifyCall` closures that see no call, and change nothing. */
  method CrmRequestsSeeMountState(call: CallPayload, list: Option<seq<QualificationEntry>>, resp: CampaignResponse,
                                  p: H.EngagementPayload, n: int, ok: bool)
    returns (during: Session, after: Session)
    requires Truthy(p.callEndStatus)
    ensures during.call.activeCall.Some?
    ensures after == during
  {
    var screen := new ClickToCallSystem();
    var notifier := new H.Provider();
    var _ := notifier.Init(true, screen.call.activeCall);
    screen.HandleSocketEvent(CallWasConnected(Some(call), list), resp);
    during := screen.State();
    var hangup := notifier.OnEndCall();
    screen.HangupCall(hangup.seenCall, ok);
    var qualify := notifier.OnCreateEngagementSucceeded(p);
    screen.QualifyCall(qualify.value.seenCall, Qualification(n, qualify.value.qualificationId), ok);
    after := screen.State();
  }
}
