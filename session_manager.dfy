/** `SessionManager`: the in-memory registry of test sessions and the callback
    notification of the test bed for a session. */
module Sessions {
  import opened GitbTypes
  import opened Registry

  /** A `NotifyForMessageRequest`: the session it is about and the report it carries. */
  datatype NotifyRequest = NotifyRequest(sessionId: string, report: Report)

  /** One call of `notifyForMessage`: the endpoint it went to, the request, and
      whether the remote call completed (true) or threw (false). */
  datatype Delivery = Delivery(endpoint: string, request: NotifyRequest, delivered: bool)

  /** The delivery attempts a notification makes, in order, and how it ends. */
  datatype Notification = Notification(attempts: seq<Delivery>, outcome: Outcome)

  /** The message of the exception raised when no client can be built for `callback`. */
  function ClientFailureMessage(callback: string, sessionId: string): string
  {
    "Unable to call callback URL [" + callback + "] for session [" + sessionId + "]"
  }

  /** What `notifyTestBed` does, given the value stored under `callbackURL` for the
      session and the environment's answers: whether a client can be built for the
      callback (a well-formed URL whose service description loads), and whether the
      first and the second `notifyForMessage` calls complete. */
  function NotifyPlan(callback: Value, sessionId: string, report: Report,
                      clientAvailable: string -> bool, primaryDelivered: bool, fallbackDelivered: bool)
    : (n: Notification)
    ensures |n.attempts| <= 2
    ensures forall i :: 0 <= i < |n.attempts| ==>
      callback.Str? && n.attempts[i].endpoint == callback.s && n.attempts[i].request.sessionId == sessionId
    // No callback: only a warning is logged.
    ensures callback.Null? ==> n.attempts == [] && n.outcome == Returned
    // The stored value is not a String: the cast fails.
    ensures !callback.Null? && !callback.Str? ==> n.attempts == [] && n.outcome == Threw(ClassCast)
    // Malformed callback: no delivery, an IllegalStateException naming the URL and session.
    ensures callback.Str? && !clientAvailable(callback.s) ==>
      n.attempts == [] && n.outcome == Threw(IllegalState(ClientFailureMessage(callback.s, sessionId)))
    // Otherwise the original report is delivered first.
    ensures callback.Str? && clientAvailable(callback.s) ==>
      |n.attempts| >= 1 && n.attempts[0].request.report == report && n.attempts[0].delivered == primaryDelivered
    ensures callback.Str? && clientAvailable(callback.s) && primaryDelivered ==>
      |n.attempts| == 1 && n.outcome == Returned
    // A failed delivery is followed by exactly one FAILURE report, then always an exception.
    ensures callback.Str? && clientAvailable(callback.s) && !primaryDelivered ==>
      && |n.attempts| == 2
      && n.attempts[1].request.report == CreateReport(FAILURE)
      && n.attempts[1].delivered == fallbackDelivered
      && n.outcome == Threw(if fallbackDelivered then IllegalStateCausedBy(DeliveryFault) else DeliveryFault)
  {
    match callback
    case Null => Notification([], Returned)
    case Str(url) =>
      if !clientAvailable(url) then
        Notification([], Threw(IllegalState(ClientFailureMessage(url, sessionId))))
      else
        var primary := Delivery(url, NotifyRequest(sessionId, report), primaryDelivered);
        if primaryDelivered then
          Notification([primary], Returned)
        else
          var fallback := Delivery(url, NotifyRequest(sessionId, CreateReport(FAILURE)), fallbackDelivered);
          Notification([primary, fallback],
                       Threw(if fallbackDelivered then IllegalStateCausedBy(DeliveryFault) else DeliveryFault))
    case _ => Notification([], Threw(ClassCast))
  }

  /** A notification returns normally exactly when there is no callback to call or
      when the original report reached it; once a callback is known, a normal
      return means the test bed received the original report. */
  lemma NotifyReturnsIffNothingToDoOrDelivered(callback: Value, sessionId: string, report: Report,
                                              clientAvailable: string -> bool,
                                              primaryDelivered: bool, fallbackDelivered: bool)
    ensures NotifyPlan(callback, sessionId, report, clientAvailable, primaryDelivered, fallbackDelivered).outcome == Returned
        <==> callback.Null? || (callback.Str? && clientAvailable(callback.s) && primaryDelivered)
  {
  }

  /** A second delivery happens exactly when a first one was made and failed; it
      reports FAILURE whatever the original report said, and the notification then
      throws even if that second delivery went through. */
  lemma NotifyFallbackIffPrimaryFailed(callback: Value, sessionId: string, report: Report,
                                       clientAvailable: string -> bool,
                                       primaryDelivered: bool, fallbackDelivered: bool)
    ensures var n := NotifyPlan(callback, sessionId, report, clientAvailable, primaryDelivered, fallbackDelivered);
      |n.attempts| == 2 <==> |n.attempts| >= 1 && !n.attempts[0].delivered
    ensures var n := NotifyPlan(callback, sessionId, report, clientAvailable, primaryDelivered, fallbackDelivered);
      |n.attempts| == 2 ==> n.attempts[1].request.report.result == FAILURE && n.outcome.Threw?
  {
  }

  /** The registry of live sessions (`SessionManager`). `deliveries` is the history
      of `notifyForMessage` calls made so far; it exists only for the proofs. */
  class SessionManager {
    var sessions: Sessions
    ghost var deliveries: seq<Delivery>

    /** A manager starts with no session and has notified no one. */
    constructor ()
      ensures sessions == map[] && deliveries == []
    {
      sessions := map[];
      deliveries := [];
    }

    /** `createSession`: a null callback is refused and nothing is stored; any other
        callback, the empty string included, gets a session under an id that was not
        in use, whose only attribute is the callback. */
    method CreateSession(callbackUrl: Option<string>) returns (r: Result<string>)
      modifies this`sessions
      ensures callbackUrl.None? ==>
        r == Err(IllegalArgument("A callback URL must be provided")) && sessions == old(sessions)
      ensures callbackUrl.Some? ==>
        && r.Ok?
        && r.value !in old(sessions)
        && sessions == Created(old(sessions), r.value, callbackUrl.value)
        && sessions[r.value] == map[CallbackUrl := Str(callbackUrl.value)]
        && forall id :: id in old(sessions) ==> id in sessions && sessions[id] == old(sessions)[id]
    {
      if callbackUrl.None? {
        return Err(IllegalArgument("A callback URL must be provided"));
      }
      FreshIdExists(sessions.Keys);
      var sessionId: string :| sessionId !in sessions;
      var sessionInfo: Attributes := map[];
      sessionInfo := sessionInfo[CallbackUrl := Str(callbackUrl.value)];
      sessions := sessions[sessionId := sessionInfo];
      r := Ok(sessionId);
    }

    /** `destroySession`: the session is gone and no other session changes; an
        unknown id changes nothing, so a second call is harmless. */
    method DestroySession(sessionId: string)
      modifies this`sessions
      ensures sessions == Destroyed(old(sessions), sessionId)
      ensures sessionId !in sessions
      ensures sessionId !in old(sessions) ==> sessions == old(sessions)
    {
      sessions := sessions - {sessionId};
    }

    /** `getSessionInfo`: the stored value, or null for an unknown session or an unset key. */
    method GetSessionInfo(sessionId: string, infoKey: string) returns (value: Value)
      ensures value == Lookup(sessions, sessionId, infoKey)
      ensures sessionId !in sessions ==> value.Null?
    {
      value := Null;
      if sessionId in sessions {
        var info := sessions[sessionId];
        if infoKey in info {
          value := info[infoKey];
        }
      }
    }

    /** `setSessionInfo`: on a live session the key now holds `infoValue` and nothing
        else changes; on an unknown session `get` answers null, the call dies with a
        NullPointerException and no session is created. */
    method SetSessionInfo(sessionId: string, infoKey: string, infoValue: Value) returns (outcome: Outcome)
      modifies this`sessions
      ensures outcome == if sessionId in old(sessions) then Returned else Threw(NullPointer)
      ensures sessions == Updated(old(sessions), sessionId, infoKey, infoValue)
      ensures sessionId in old(sessions) ==> Lookup(sessions, sessionId, infoKey) == infoValue
    {
      if sessionId !in sessions {
        return Threw(NullPointer);
      }
      var info := sessions[sessionId];
      sessions := sessions[sessionId := info[infoKey := infoValue]];
      outcome := Returned;
    }

    /** `getAllSessions`: a read-only view of the live registry (not a copy). */
    method GetAllSessions() returns (view: SessionsView)
      ensures fresh(view) && view.manager == this
      ensures view.Contents() == sessions
    {
      view := new SessionsView(this);
    }

    /** `notifyTestBed`: looks up the session's callback and delivers `report` to it,
        falling back to one FAILURE report when that delivery fails. The registry is
        left as it was; the deliveries made are those of `NotifyPlan`. */
    method NotifyTestBed(sessionId: string, report: Report,
                         clientAvailable: string -> bool, primaryDelivered: bool, fallbackDelivered: bool)
      returns (outcome: Outcome)
      modifies this`deliveries
      ensures sessions == old(sessions)
      ensures var n := NotifyPlan(Lookup(sessions, sessionId, CallbackUrl), sessionId, report,
                                  clientAvailable, primaryDelivered, fallbackDelivered);
        deliveries == old(deliveries) + n.attempts && outcome == n.outcome
    {
      var stored := GetSessionInfo(sessionId, CallbackUrl);
      if stored.Null? {
        // Only a warning is logged.
        return Returned;
      }
      if !stored.Str? {
        return Threw(ClassCast);
      }
      var callback := stored.s;
      if !clientAvailable(callback) {
        return Threw(IllegalState(ClientFailureMessage(callback, sessionId)));
      }
      var request := NotifyRequest(sessionId, report);
      deliveries := deliveries + [Delivery(callback, request, primaryDelivered)];
      if primaryDelivered {
        return Returned;
      }
      var fallback := NotifyRequest(sessionId, CreateReport(FAILURE));
      deliveries := deliveries + [Delivery(callback, fallback, fallbackDelivered)];
      if !fallbackDelivered {
        // The fallback's own exception leaves the method.
        return Threw(DeliveryFault);
      }
      outcome := Threw(IllegalStateCausedBy(DeliveryFault));
    }
  }

  /** The map `getAllSessions` returns (`Collections.unmodifiableMap`): it reads
      through to the live registry and refuses every write. */
  class SessionsView {
    const manager: SessionManager

    constructor (manager: SessionManager)
      ensures this.manager == manager
    {
      this.manager := manager;
    }

    /** What the view shows: the registry as it is now. */
    function Contents(): Sessions
      reads manager
    {
      manager.sessions
    }

    /** `get(id)` through the view: the live session's attributes, or null. */
    function Get(sessionId: string): (r: Option<Attributes>)
      reads manager
      ensures r.Some? <==> sessionId in manager.sessions
      ensures r.Some? ==> r.value == manager.sessions[sessionId]
    {
      if sessionId in manager.sessions then Some(manager.sessions[sessionId]) else None
    }

    /** `put` through the view throws and changes nothing. */
    method Put(sessionId: string, attributes: Attributes) returns (outcome: Outcome)
      ensures outcome == Threw(UnsupportedOperation)
    {
      outcome := Threw(UnsupportedOperation);
    }

    /** `remove` through the view throws and changes nothing. */
    method Remove(sessionId: string) returns (outcome: Outcome)
      ensures outcome == Threw(UnsupportedOperation)
    {
      outcome := Threw(UnsupportedOperation);
    }
  }
}
