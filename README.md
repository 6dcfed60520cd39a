# GITB messaging service: session registry and test bed notification

This project models the core of the GITB messaging service template in Dafny.
A GITB test bed drives test sessions against the service. The core has two
parts:

- `SessionManager` keeps an in-memory registry from session id to a map of
  session attributes. The only attribute it sets itself is `callbackURL`.
  When asked, it notifies the test bed at that callback. If the first delivery
  fails, it sends one fallback delivery carrying a FAILURE report.
- `MessagingServiceImpl` is the command layer. `send` checks that the request
  carries exactly one `messageToSend` input. `finalize` destroys the session.
  `receive`, `beginTransaction` and `endTransaction` return an empty `Void`.
  `getModuleDefinition` describes the service's two string parameters.

Files:

- `types.dfy` (module `GitbTypes`): values, reports and exceptions. Java's
  `null` is `Option.None` for a callback argument and `Value.Null` for a stored
  `Object`.
- `registry.dfy` (module `Registry`): the registry as a `map<string,
  map<string, Value>>` value. It defines the transitions `Created`,
  `Destroyed`, `Updated` and the query `Lookup`. It also proves what holds of
  any sequence of registry operations.
- `session_manager.dfy` (module `Sessions`): class `SessionManager`, whose
  `sessions` field is updated in place by its methods; the live read-only view
  `SessionsView`; and `NotifyPlan`, the specification of `notifyTestBed`.
- `messaging_service.dfy` (module `Messaging`): `Send` and class
  `MessagingService`.

The environment is passed in as parameters:

- `UUID.randomUUID` becomes a nondeterministic choice of an id that is not in
  use. `Registry.FreshIdExists` proves such an id always exists.
- Whether a client can be built for the callback URL is the oracle
  `clientAvailable: string -> bool`. This covers `new URI(..).toURL()` and the
  `MessagingClientService` constructor.
- Whether each remote `notifyForMessage` call completes is given by the
  oracles `primaryDelivered` and `fallbackDelivered`.
- Every delivery attempt is recorded in the ghost field
  `SessionManager.deliveries`.

### Behaviour worth noting

- `createSession` refuses only `null`. An empty callback string is accepted.
- `setSessionInfo` on an unknown session fails with a `NullPointerException`
  from `sessions.get(id).put(..)`, not with a dedicated not-found error. No
  session is created.
- `notifyTestBed` does not tell an unknown session apart from a session with no
  callback. Both only log a warning.
- After a failed first delivery, `notifyTestBed` always throws. If the fallback
  delivery succeeds, it throws `IllegalStateException`. If the fallback also
  fails, the fallback's own exception propagates.
- A callback attribute that was overwritten with a non-`String` value makes the
  cast at SessionManager.java:106 throw `ClassCastException`.
- `getAllSessions` returns a live unmodifiable view, not a point-in-time copy.
- `send` never calls `notifyTestBed`.

## Model

| member | source | states |
|---|---|---|
| `Registry.InitialAttributes` | src/main/resources/archetype-resources/src/main/java/gitb/SessionManager.java:48-49 | A new session's attribute map has exactly one key, `callbackURL`, holding the callback string. |
| `Registry.Created` | src/main/resources/archetype-resources/src/main/java/gitb/SessionManager.java:47-51 | `put` adds the new id with its initial attributes and keeps every other session as it was. |
| `Registry.Destroyed` | src/main/resources/archetype-resources/src/main/java/gitb/SessionManager.java:59-61 | `remove` drops exactly the given id and keeps every other session. An unknown id changes nothing. |
| `Registry.Lookup` | src/main/resources/archetype-resources/src/main/java/gitb/SessionManager.java:70-76 | The lookup answers null for an unknown session and for an unset key. Otherwise it answers the stored value. |
| `Registry.Updated` | src/main/resources/archetype-resources/src/main/java/gitb/SessionManager.java:85-87 | On a live session the key now holds the value. The session's other keys and all other sessions are unchanged. On an unknown id the registry is unchanged. |
| `Registry.LookupAfterDestroy` | src/main/resources/archetype-resources/src/main/java/gitb/SessionManager.java:59-76 | After `destroySession(id)`, every key of `id` answers null. |
| `Registry.DestroyIdempotent` | src/main/resources/archetype-resources/src/main/java/gitb/SessionManager.java:59-61 | Destroying twice leaves the same registry as destroying once. |
| `Registry.LookupAfterUpdate` | src/main/resources/archetype-resources/src/main/java/gitb/SessionManager.java:70-87 | After a set, reading the same key returns the value set. Every other (session, key) lookup answers as before. |
| `Registry.LookupAfterCreate` | src/main/resources/archetype-resources/src/main/java/gitb/SessionManager.java:43-51 | A new session answers its callback for `callbackURL` and null for every other key. |
| `Registry.FreshIdExists` | src/main/resources/archetype-resources/src/main/java/gitb/SessionManager.java:47 | Whatever sessions are live, some unused id exists. |
| `Registry.OtherSessionsUntouched` | src/main/resources/archetype-resources/src/main/java/gitb/SessionManager.java:43-87 | Take any sequence of create, destroy and set operations with fresh ids. If none of them destroys or sets on a live session, that session keeps exactly its attributes. |
| `Registry.CreatedIdsDistinct` | src/main/resources/archetype-resources/src/main/java/gitb/SessionManager.java:43-51 | Take a run with fresh ids and no destroy. The ids its creations return are pairwise distinct. None was live before the run, and all are live after it. |
| `Sessions.NotifyPlan` | src/main/resources/archetype-resources/src/main/java/gitb/SessionManager.java:104-130 | At most two attempts, all sent to the stored callback for the given session. No callback: no attempt, normal return. A non-String callback: `ClassCastException`, no attempt. No client: `IllegalStateException` naming the URL and session, no attempt. First delivery succeeds: one attempt with the original report, normal return. First delivery fails: a second attempt with a FAILURE report, then always an exception. That exception is `IllegalStateException` if the fallback went through, the fallback's own fault otherwise. |
| `Sessions.NotifyReturnsIffNothingToDoOrDelivered` | src/main/resources/archetype-resources/src/main/java/gitb/SessionManager.java:106-128 | A notification returns normally exactly when there is no callback or the original report was delivered. |
| `Sessions.NotifyFallbackIffPrimaryFailed` | src/main/resources/archetype-resources/src/main/java/gitb/SessionManager.java:115-128 | A second attempt happens exactly when a first attempt failed. The second attempt carries a FAILURE result, and the notification then throws. |
| `Sessions.SessionManager.constructor` | src/main/resources/archetype-resources/src/main/java/gitb/SessionManager.java:35 | The registry starts empty, with no deliveries. |
| `Sessions.SessionManager.CreateSession` | src/main/resources/archetype-resources/src/main/java/gitb/SessionManager.java:43-52 | A null callback raises `IllegalArgumentException` and changes nothing. Any other callback, the empty string included, returns an id that was not live. That id now maps to exactly `{callbackURL ↦ callback}`, and every other session is unchanged. |
| `Sessions.SessionManager.DestroySession` | src/main/resources/archetype-resources/src/main/java/gitb/SessionManager.java:59-61 | The new registry is `Destroyed(old, id)`, so `id` is gone. An unknown id leaves the registry as it was. |
| `Sessions.SessionManager.GetSessionInfo` | src/main/resources/archetype-resources/src/main/java/gitb/SessionManager.java:70-76 | Returns `Lookup` of the current registry (null for an unknown session) and modifies nothing. |
| `Sessions.SessionManager.SetSessionInfo` | src/main/resources/archetype-resources/src/main/java/gitb/SessionManager.java:85-87 | On a live session it returns normally and the key now reads back as the value. On an unknown id it throws `NullPointerException` and the registry is unchanged. |
| `Sessions.SessionManager.GetAllSessions` | src/main/resources/archetype-resources/src/main/java/gitb/SessionManager.java:94-96 | Returns a new view over this manager whose contents are the live registry. Nothing changes. |
| `Sessions.SessionManager.NotifyTestBed` | src/main/resources/archetype-resources/src/main/java/gitb/SessionManager.java:104-130 | The registry is unchanged. The deliveries made and the outcome are those of `NotifyPlan` for the session's stored callback. |
| `Sessions.SessionsView.Get` | src/main/resources/archetype-resources/src/main/java/gitb/SessionManager.java:95 | Reading through the view gives the live session's attributes, or null when the session is not live. |
| `Sessions.SessionsView.Put` | src/main/resources/archetype-resources/src/main/java/gitb/SessionManager.java:95 | Writing through the view throws `UnsupportedOperationException` and changes nothing. |
| `Sessions.SessionsView.Remove` | src/main/resources/archetype-resources/src/main/java/gitb/SessionManager.java:95 | Removing through the view throws `UnsupportedOperationException` and changes nothing. |
| `Messaging.CountNamedAppend` | src/main/resources/archetype-resources/src/main/java/gitb/MessagingServiceImpl.java:147-148 | The number of inputs with a given name in a concatenation is the sum of the two counts. |
| `Messaging.InputsForName` | src/main/resources/archetype-resources/src/main/java/gitb/MessagingServiceImpl.java:216 | The result holds only inputs with the given name, as many as the request has. Each appears with its multiplicity in the request. |
| `Messaging.InputsOf` | src/main/resources/archetype-resources/src/main/java/gitb/MessagingServiceImpl.java:213-219 | Empty for a null request. Its length is the number of request inputs with that name. |
| `Messaging.Send` | src/main/resources/archetype-resources/src/main/java/gitb/MessagingServiceImpl.java:146-160 | Fails with `IllegalArgumentException` exactly when the number of inputs named `messageToSend` is not 1. Otherwise the report result is SUCCESS. It reads no state, so it neither touches the registry nor notifies. |
| `Messaging.SendIgnoresOtherInputs` | src/main/resources/archetype-resources/src/main/java/gitb/MessagingServiceImpl.java:147-149 | Adding an input under another name does not change what `send` answers. |
| `Messaging.SendRefusesTwoMessages` | src/main/resources/archetype-resources/src/main/java/gitb/MessagingServiceImpl.java:147-149 | A request holding two `messageToSend` inputs, at any two positions, is refused with the source's `IllegalArgumentException`, whatever else it holds. |
| `Messaging.SendAcceptsSingleMessage` | src/main/resources/archetype-resources/src/main/java/gitb/MessagingServiceImpl.java:147-159 | A request whose only input is `messageToSend` is accepted. |
| `Messaging.MessagingService.constructor` | src/main/resources/archetype-resources/src/main/java/gitb/MessagingServiceImpl.java:42-49 | The service keeps the configured service id and version and the shared session manager it is given. |
| `Messaging.MessagingService.GetModuleDefinition` | src/main/resources/archetype-resources/src/main/java/gitb/MessagingServiceImpl.java:79-90 | The module id and metadata name are `serviceId` and the version is `serviceVersion`. It declares exactly two inputs, `messageToSend` then `messageReceived`. Both are optional SIMPLE `string` parameters with the source's descriptions. |
| `Messaging.MessagingService.GetInput` | src/main/resources/archetype-resources/src/main/java/gitb/MessagingServiceImpl.java:213-219 | Always returns a list. It is empty for a null request, and otherwise holds the request's inputs with the given name. |
| `Messaging.MessagingService.Receive` | src/main/resources/archetype-resources/src/main/java/gitb/MessagingServiceImpl.java:126-129 | Returns a new `Void` and leaves the registry unchanged. |
| `Messaging.MessagingService.BeginTransaction` | src/main/resources/archetype-resources/src/main/java/gitb/MessagingServiceImpl.java:172-175 | Returns a new `Void` and leaves the registry unchanged. |
| `Messaging.MessagingService.EndTransaction` | src/main/resources/archetype-resources/src/main/java/gitb/MessagingServiceImpl.java:184-187 | Returns a new `Void` and leaves the registry unchanged. |
| `Messaging.MessagingService.Finalize` | src/main/resources/archetype-resources/src/main/java/gitb/MessagingServiceImpl.java:199-204 | Destroys the request's session, so every later lookup for it answers null. Other sessions are kept. Returns a new `Void`. |

## Left out

- Concurrency: the `ConcurrentHashMap` and the per-id atomicity it gives (SessionManager.java:35) are not modelled. The registry is single-threaded, and `OtherSessionsUntouched` states independence of sessions over sequential interleavings only.
- Network I/O: building `MessagingClientService` and calling `notifyForMessage` are remote SOAP calls. They are replaced by the oracles `clientAvailable`, `primaryDelivered` and `fallbackDelivered` and the ghost `deliveries` trace.
- Sessions.NotifyPlan: the oracle `clientAvailable` is unconstrained, even for strings that can never form a URL. For example, the empty callback that `createSession` accepts would always make `new URI("").toURL()` throw ("URI is not absolute"), giving the `IllegalStateException` of SessionManager.java:113, but the model also allows a delivery to it.
- Logging (`LOG.info` / `LOG.warn`), including the logging of the first message's value in `send`, has no observable effect and is left out.
- `initiate` is left out: it calls a two-argument `createSession` (MessagingServiceImpl.java:112) that `SessionManager` does not declare, so the published template does not compile.
- SOAP header extraction (`getHeaderValue`, `getHeaderAsString`) depends on CXF and the `WebServiceContext`, which are not part of this model.
- `Utils` is not part of this model. `getInputsForName` is taken to return the inputs with the given name, in order. `createReport(r)` is taken to return a report with result `r` and nothing attached; its timestamp is not modelled. `createParameter` builds a plain record.
- UUID randomness: only freshness of the generated id is modelled. The id is fresh among the live sessions; a destroyed id may be generated again, which `UUID.randomUUID` practically never does. For this reason `Registry.CreatedIdsDistinct` is stated only for runs without a destroy.
- Null session ids are not modelled; session ids are always strings. With a null id, `ConcurrentHashMap` would throw `NullPointerException`.
- Null attribute keys are not modelled: keys are strings, so `setSessionInfo(id, null, v)` and `getSessionInfo(id, null)` cannot be expressed, although the inner `HashMap` accepts a null key (SessionManager.java:73, 86). A null `report` passed to `notifyTestBed` is not modelled either; the source only forwards it in the request.
- A null `send` request is modelled: `getInput` then returns an empty list, so `send` raises `IllegalArgumentException`. A null request to `receive`, `beginTransaction`, `endTransaction` or `finalize` is not modelled; those commands dereference it (MessagingServiceImpl.java:127, 173, 185, 200) and would throw `NullPointerException`.
- Sessions.SessionManager.GetAllSessions: the view's inner attribute maps are the live mutable `HashMap`s in Java, so a caller could change a session through them. The model hands them out as immutable values and does not capture that aliasing.
- GITB message types (`TAR`, `AnyContent`, the request and response types) are reduced to the fields the core uses.
- `ProxyInfo.java` and `MessagingServiceConfig.java` are proxy and Spring/CXF wiring, outside the core.
