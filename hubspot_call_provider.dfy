/** The CRM notifier of lib/hubspot-call-provider.ts: a module-level singleton
    SDK instance, the engagement id remembered between the CRM's
    "engagement created" callback and the completion notice, the callbacks
    the SDK invokes and the `notify*` functions the call screen uses.
    The SDK itself is a sink: every call made on it is appended to `sdk`. */
module HubspotCallProvider {
  import opened JsText

  /** A call as the call screen holds it. */
  datatype CallData = CallData(id: string, phone: string, telephonyId: string)

  /** The fields of an `onDialNumber` payload that are read. */
  datatype DialPayload = DialPayload(toNumber: Option<string>, phoneNumber: Option<string>, number: Option<string>)

  /** The fields of an `onCreateEngagementSucceeded` payload that are read:
      `engagement.id`, `engagementId` and `callEndStatus`. */
  datatype EngagementPayload = EngagementPayload(
    engagementIdNested: Option<string>, engagementId: Option<string>, callEndStatus: Option<string>)

  /** The optional second argument of `notifyCallCompleted`. */
  datatype EngagementData = EngagementData(notes: Option<string>, subject: Option<string>)

  /** The object handed to the SDK's `callCompleted`. `engagementId` is a field
      that may be present with no value (`hasEngagementId` and `None`). */
  datatype CompletionRecord = CompletionRecord(
    externalCallId: string, callEndTime: int,
    hasEngagementId: bool, engagementId: Option<string>,
    body: Option<string>, subject: Option<string>)

  /** The calls the notifier makes on the SDK. */
  datatype SdkCall =
    | Initialized
    | OutgoingCall(phoneNumber: string, callStartTime: int, createEngagement: bool, callId: Option<string>)
    | CallAnswered(externalCallId: string)
    | CallEnded(externalCallId: string, callEndTime: int)
    | CallCompleted(record: CompletionRecord)

  /** What the notifier asks of the handlers it was initialised with.
      `Hangup` and `Qualify` carry the active call the handler closures saw
      when they were handed over, since those closures read it. */
  datatype HandlerRequest =
    | FillPhoneNumber(number: string)
    | Hangup(seenCall: Option<CallData>)
    | Qualify(seenCall: Option<CallData>, qualificationId: string)

  /** The identifier the CRM correlates a call by: the call id, or the telephony id when the call id is empty. */
  function ExternalCallId(call: CallData): (r: string)
    ensures r == call.id || r == call.telephonyId
    ensures r == "" <==> call.id == "" && call.telephonyId == ""
    ensures call.id != "" ==> r == call.id
  {
    if call.id != "" then call.id else call.telephonyId
  }

  /** The number the CRM asked to dial: `toNumber`, else `phoneNumber`, else `number`, the first that is non-empty. */
  function RequestedNumber(p: DialPayload): (r: Option<string>)
    ensures r.Some? <==> Truthy(p.toNumber) || Truthy(p.phoneNumber) || Truthy(p.number)
    ensures r.Some? ==> r.value != ""
    ensures Truthy(p.toNumber) ==> r == p.toNumber
    ensures !Truthy(p.toNumber) && Truthy(p.phoneNumber) ==> r == p.phoneNumber
    ensures !Truthy(p.toNumber) && !Truthy(p.phoneNumber) && Truthy(p.number) ==> r == p.number
  {
    var n := Or(Or(p.toNumber, p.phoneNumber), p.number);
    if Truthy(n) then n else None
  }

  /** Removes one leading `+`, if there is one. */
  function CleanNumber(n: string): (r: string)
    ensures StartsWith(n, "+") ==> "+" + r == n
    ensures !StartsWith(n, "+") ==> r == n
  {
    if StartsWith(n, "+") then n[1..] else n
  }

  /** `CleanNumber` strips exactly one `+`: a number given with a `+` comes back as given without it. */
  lemma CleanNumberStripsOne(n: string)
    ensures CleanNumber("+" + n) == n
    ensures |CleanNumber(n)| >= |n| - 1
  {
    assert StartsWith("+" + n, "+");
    assert ("+" + n)[1..] == n;
  }

  /** `onDialNumber`: only ever fills the phone field (never dials), with the cleaned
      requested number; nothing when no number was given. */
  function OnDialNumber(p: DialPayload): (r: Option<HandlerRequest>)
    ensures r.Some? <==> RequestedNumber(p).Some?
    ensures r.Some? ==> r.value.FillPhoneNumber?
    ensures r.Some? ==> r.value.number == CleanNumber(RequestedNumber(p).value)
  {
    match RequestedNumber(p)
    case None => None
    case Some(n) => Some(FillPhoneNumber(CleanNumber(n)))
  }

  /** The engagement id taken from the CRM's payload: `engagement.id`, falling back to `engagementId`. */
  function EngagementIdOf(p: EngagementPayload): (r: Option<string>)
    ensures Truthy(p.engagementIdNested) ==> r == p.engagementIdNested
    ensures !Truthy(p.engagementIdNested) ==> r == p.engagementId
  {
    Or(p.engagementIdNested, p.engagementId)
  }

  /** The record `notifyCallCompleted` hands to the SDK, given the engagement id it currently remembers. */
  function CompletionRecordOf(call: CallData, data: Option<EngagementData>, current: Option<string>, now: int): (r: CompletionRecord)
    ensures r.externalCallId == ExternalCallId(call) && r.callEndTime == now
    ensures r.hasEngagementId <==> data.Some? || Truthy(current)
    ensures r.hasEngagementId ==> r.engagementId == current
    ensures r.body.Some? <==> data.Some?
    ensures r.subject.Some? <==> data.Some?
    ensures data.Some? ==> r.body == Some(OrElse(data.value.notes, "Chamada para " + call.phone))
    ensures data.Some? ==> r.subject == Some(OrElse(data.value.subject, "Chamada - " + call.phone))
  {
    var included := data.Some? || Truthy(current);
    CompletionRecord(
      ExternalCallId(call), now,
      included, if included then current else None,
      if data.Some? then Some(OrElse(data.value.notes, "Chamada para " + call.phone)) else None,
      if data.Some? then Some(OrElse(data.value.subject, "Chamada - " + call.phone)) else None)
  }

  /** A completion record without engagement data still names the engagement the CRM reported, and
      without either it carries no engagement field, no body and no subject. */
  lemma CompletionWithoutDataCarriesOnlyEngagement(call: CallData, current: Option<string>, now: int)
    ensures var r := CompletionRecordOf(call, None, current, now);
      r.body == None && r.subject == None && (r.hasEngagementId <==> Truthy(current))
  {
  }

  /** The module-level state of the notifier. */
  class Provider {
    /** `hubspotInstance`: the identity of the constructed SDK object, if any. */
    var instance: Option<nat>
    /** How many SDK objects have been constructed. */
    var constructed: nat
    /** `currentEngagementId`. */
    var currentEngagementId: Option<string>
    /** The active call the handlers handed to the first successful initialisation could see. */
    var capturedCall: Option<CallData>
    /** Every call made on the SDK, in order. */
    var sdk: seq<SdkCall>

    /** A freshly loaded module: no instance, no engagement. */
    constructor ()
      ensures instance == None && constructed == 0 && currentEngagementId == None
      ensures capturedCall == None && sdk == []
    {
      instance := None;
      constructed := 0;
      currentEngagementId := None;
      capturedCall := None;
      sdk := [];
    }

    /** The instance exists exactly when one was constructed, and it is the one constructed last. */
    ghost predicate Valid()
      reads this
    {
      (instance == None <==> constructed == 0) && (instance.Some? ==> instance.value == constructed)
    }

    /** `initHubspotCallProvider`: outside a browser it returns nothing; once an instance
        exists it returns that instance and constructs nothing; otherwise it constructs
        one SDK object whose callbacks keep the handlers given now. */
    method Init(inBrowser: bool, handlersSeeCall: Option<CallData>) returns (r: Option<nat>)
      requires Valid()
      modifies this
      ensures Valid()
      ensures !inBrowser ==> r == None && instance == old(instance) && constructed == old(constructed) && capturedCall == old(capturedCall)
      ensures inBrowser && old(instance).Some? ==> r == old(instance) && instance == old(instance) && constructed == old(constructed) && capturedCall == old(capturedCall)
      ensures inBrowser && old(instance).None? ==> r == instance == Some(old(constructed) + 1) && constructed == old(constructed) + 1 && capturedCall == handlersSeeCall
      ensures currentEngagementId == old(currentEngagementId) && sdk == old(sdk)
    {
      if !inBrowser {
        return None;
      }
      if instance.Some? {
        return instance;
      }
      constructed := constructed + 1;
      instance := Some(constructed);
      capturedCall := handlersSeeCall;
      r := instance;
    }

    /** `onReady`: reports the extension as initialised. */
    method OnReady()
      requires instance.Some?
      modifies this
      ensures sdk == old(sdk) + [Initialized]
      ensures instance == old(instance) && constructed == old(constructed)
      ensures currentEngagementId == old(currentEngagementId) && capturedCall == old(capturedCall)
    {
      sdk := sdk + [Initialized];
    }

    /** `onEndCall`: asks the handlers to hang up, with the call those handlers see. */
    method OnEndCall() returns (req: HandlerRequest)
      requires instance.Some?
      ensures req == Hangup(capturedCall)
    {
      req := Hangup(capturedCall);
    }

    /** `onCreateEngagementSucceeded`: remembers the reported engagement id and, when the
        payload carries a call end status, asks the handlers to qualify with it. */
    method OnCreateEngagementSucceeded(p: EngagementPayload) returns (req: Option<HandlerRequest>)
      requires instance.Some?
      modifies this
      ensures currentEngagementId == EngagementIdOf(p)
      ensures req.Some? <==> Truthy(p.callEndStatus)
      ensures req.Some? ==> req.value == Qualify(capturedCall, p.callEndStatus.value)
      ensures instance == old(instance) && constructed == old(constructed)
      ensures capturedCall == old(capturedCall) && sdk == old(sdk)
    {
      currentEngagementId := EngagementIdOf(p);
      req := if Truthy(p.callEndStatus) then Some(Qualify(capturedCall, p.callEndStatus.value)) else None;
    }

    /** `notifyOutgoingCall`: without an instance nothing happens; otherwise the SDK is told of an
        outgoing call that creates an engagement, with `callId` only when one is given. */
    method NotifyOutgoingCall(phoneNumber: string, callId: Option<string>, now: int)
      modifies this
      ensures old(instance).None? ==> sdk == old(sdk)
      ensures old(instance).Some? ==> sdk == old(sdk) + [OutgoingCall(phoneNumber, now, true, if Truthy(callId) then callId else None)]
      ensures instance == old(instance) && constructed == old(constructed)
      ensures currentEngagementId == old(currentEngagementId) && capturedCall == old(capturedCall)
    {
      if instance.None? {
        return;
      }
      sdk := sdk + [OutgoingCall(phoneNumber, now, true, if Truthy(callId) then callId else None)];
    }

    /** `notifyCallAnswered`: the SDK is told the call identified by `ExternalCallId` was answered. */
    method NotifyCallAnswered(call: CallData)
      modifies this
      ensures old(instance).None? ==> sdk == old(sdk)
      ensures old(instance).Some? ==> sdk == old(sdk) + [CallAnswered(ExternalCallId(call))]
      ensures instance == old(instance) && constructed == old(constructed)
      ensures currentEngagementId == old(currentEngagementId) && capturedCall == old(capturedCall)
    {
      if instance.None? {
        return;
      }
      sdk := sdk + [CallAnswered(ExternalCallId(call))];
    }

    /** `notifyCallEnded`: the SDK is told the call identified by `ExternalCallId` ended now. */
    method NotifyCallEnded(call: CallData, now: int)
      modifies this
      ensures old(instance).None? ==> sdk == old(sdk)
      ensures old(instance).Some? ==> sdk == old(sdk) + [CallEnded(ExternalCallId(call), now)]
      ensures instance == old(instance) && constructed == old(constructed)
      ensures currentEngagementId == old(currentEngagementId) && capturedCall == old(capturedCall)
    {
      if instance.None? {
        return;
      }
      sdk := sdk + [CallEnded(ExternalCallId(call), now)];
    }

    /** `notifyCallCompleted`: the SDK receives the completion record built from the remembered
        engagement id, and the engagement id is forgotten. Without an instance nothing happens. */
    method NotifyCallCompleted(call: CallData, data: Option<EngagementData>, now: int)
      modifies this
      ensures old(instance).None? ==> sdk == old(sdk) && currentEngagementId == old(currentEngagementId)
      ensures old(instance).Some? ==> sdk == old(sdk) + [CallCompleted(CompletionRecordOf(call, data, old(currentEngagementId), now))]
      ensures old(instance).Some? ==> currentEngagementId == None
      ensures instance == old(instance) && constructed == old(constructed) && capturedCall == old(capturedCall)
    {
      if instance.None? {
        return;
      }
      sdk := sdk + [CallCompleted(CompletionRecordOf(call, data, currentEngagementId, now))];
      currentEngagementId := None;
    }
  }

  /** The singleton: after the first initialisation in a browser, any number of further
      initialisations, whatever handlers they pass, return the same instance and construct nothing. */
  method InitTwice(p: Provider, first: Option<CallData>, second: Option<CallData>) returns (a: Option<nat>, b: Option<nat>)
    requires p.Valid()
    modifies p
    ensures a.Some? && a == b
    ensures p.constructed == old(p.constructed) + (if old(p.instance).None? then 1 else 0)
    ensures p.capturedCall == (if old(p.instance).None? then first else old(p.capturedCall))
  {
    a := p.Init(true, first);
    b := p.Init(true, second);
  }

  /** A completion forgets the engagement: a second completion with no engagement data and no new
      engagement callback in between carries no engagement id, body or subject. */
  method CompleteTwice(p: Provider, call: CallData, data: Option<EngagementData>, t1: int, t2: int)
    requires p.instance.Some?
    modifies p
    ensures |p.sdk| == |old(p.sdk)| + 2
    ensures p.sdk[|p.sdk| - 1] == CallCompleted(CompletionRecord(ExternalCallId(call), t2, false, None, None, None))
  {
    p.NotifyCallCompleted(call, data, t1);
    p.NotifyCallCompleted(call, None, t2);
  }
}
