/** The session registry as a value: a map from session id to the session's
    attribute map, the transitions that `SessionManager` applies to it, and what
    holds of any sequence of those transitions. */
module Registry {
  import opened GitbTypes

  type Attributes = map<string, Value>
  type Sessions = map<string, Attributes>

  /** `SessionData.CALLBACK_URL`: the attribute key of a session's callback address. */
  const CallbackUrl: string := "callbackURL"

  /** The attribute map a session starts with: its callback address and nothing else. */
  function InitialAttributes(callbackUrl: string): (attrs: Attributes)
    ensures attrs.Keys == {CallbackUrl} && attrs[CallbackUrl] == Str(callbackUrl)
  {
    map[CallbackUrl := Str(callbackUrl)]
  }

  /** The registry after `sessions.put(id, attributes)` for a new session. */
  function Created(sessions: Sessions, id: string, callbackUrl: string): (r: Sessions)
    ensures r.Keys == sessions.Keys + {id}
    ensures r[id] == InitialAttributes(callbackUrl)
    ensures forall other :: other in sessions && other != id ==> r[other] == sessions[other]
  {
    sessions[id := InitialAttributes(callbackUrl)]
  }

  /** The registry after `sessions.remove(id)`; nothing happens when `id` is unknown. */
  function Destroyed(sessions: Sessions, id: string): (r: Sessions)
    ensures r.Keys == sessions.Keys - {id}
    ensures forall other :: other in r ==> r[other] == sessions[other]
    ensures id !in sessions ==> r == sessions
  {
    sessions - {id}
  }

  /** What `getSessionInfo(id, key)` answers: the stored value, or null both for an
      unknown session and for an unset key. */
  function Lookup(sessions: Sessions, id: string, key: string): (v: Value)
    ensures id !in sessions ==> v == Null
    ensures id in sessions && key !in sessions[id] ==> v == Null
    ensures id in sessions && key in sessions[id] ==> v == sessions[id][key]
  {
    if id in sessions && key in sessions[id] then sessions[id][key] else Null
  }

  /** The registry after `setSessionInfo(id, key, value)`: the session's own map gets
      the new entry; an unknown session makes the call fail and nothing is created. */
  function Updated(sessions: Sessions, id: string, key: string, value: Value): (r: Sessions)
    ensures r.Keys == sessions.Keys
    ensures id in sessions ==> r[id].Keys == sessions[id].Keys + {key} && r[id][key] == value
    ensures id in sessions ==> forall k :: k in sessions[id] && k != key ==> r[id][k] == sessions[id][k]
    ensures forall other :: other in sessions && other != id ==> r[other] == sessions[other]
    ensures id !in sessions ==> r == sessions
  {
    if id in sessions then sessions[id := sessions[id][key := value]] else sessions
  }

  /** A destroyed session answers null for every key. */
  lemma LookupAfterDestroy(sessions: Sessions, id: string, key: string)
    ensures Lookup(Destroyed(sessions, id), id, key) == Null
  {
  }

  /** Destroying a session twice is the same as destroying it once. */
  lemma DestroyIdempotent(sessions: Sessions, id: string)
    ensures Destroyed(Destroyed(sessions, id), id) == Destroyed(sessions, id)
  {
  }

  /** A value set on a live session is what the next lookup of that key answers,
      and every other lookup answers as before. */
  lemma LookupAfterUpdate(sessions: Sessions, id: string, key: string, value: Value, id': string, key': string)
    requires id in sessions
    ensures Lookup(Updated(sessions, id, key, value), id, key) == value
    ensures id' != id || key' != key ==>
      Lookup(Updated(sessions, id, key, value), id', key') == Lookup(sessions, id', key')
  {
  }

  /** A new session's callback address is what lookups of `callbackURL` answer. */
  lemma LookupAfterCreate(sessions: Sessions, id: string, callbackUrl: string, key: string)
    ensures Lookup(Created(sessions, id, callbackUrl), id, key)
         == if key == CallbackUrl then Str(callbackUrl) else Null
  {
  }

  /** A string longer than every string in `used`. */
  ghost function LongerThanAll(used: set<string>): (s: string)
    ensures forall u :: u in used ==> |u| < |s|
    decreases used
  {
    if used == {} then "0"
    else
      var u :| u in used;
      var rest := LongerThanAll(used - {u});
      if |u| < |rest| then rest else u + "0"
  }

  /** Whatever finitely many sessions are live, some id is not among them, so a
      generator of unused ids (`UUID.randomUUID`) can always deliver one. */
  lemma FreshIdExists(used: set<string>)
    ensures exists id: string :: id !in used
  {
    var id := LongerThanAll(used);
    assert id !in used;
  }

  /** One registry operation as a caller issues it. `Create` carries the id the
      generator produced and the callback argument (None is Java's null). */
  datatype Op =
    | Create(id: string, callbackUrl: Option<string>)
    | Destroy(id: string)
    | SetInfo(id: string, key: string, value: Value)

  /** The registry after one operation; the failing calls (a null callback, a
      `setSessionInfo` on an unknown session) leave it as it was. */
  function Step(sessions: Sessions, op: Op): Sessions
  {
    match op
    case Create(id, None) => sessions
    case Create(id, Some(cb)) => Created(sessions, id, cb)
    case Destroy(id) => Destroyed(sessions, id)
    case SetInfo(id, key, value) => Updated(sessions, id, key, value)
  }

  /** The registry after a sequence of operations. */
  function Run(sessions: Sessions, ops: seq<Op>): Sessions
    decreases |ops|
  {
    if ops == [] then sessions else Run(Step(sessions, ops[0]), ops[1..])
  }

  /** Every generated id is fresh when it is generated: the UUID assumption. A
      refused creation (null callback) throws before any id is generated. */
  ghost predicate FreshIds(sessions: Sessions, ops: seq<Op>)
    decreases |ops|
  {
    ops != [] ==>
      && (ops[0].Create? && ops[0].callbackUrl.Some? ==> ops[0].id !in sessions)
      && FreshIds(Step(sessions, ops[0]), ops[1..])
  }

  /** The ids of the sessions the creations in `ops` add, in order. */
  function CreatedIds(ops: seq<Op>): seq<string>
    decreases |ops|
  {
    if ops == [] then []
    else if ops[0].Create? && ops[0].callbackUrl.Some? then [ops[0].id] + CreatedIds(ops[1..])
    else CreatedIds(ops[1..])
  }

  /** An operation sequence with no `destroySession` of `id` and no
      `setSessionInfo` on `id`. */
  ghost predicate LeavesAlone(ops: seq<Op>, id: string)
  {
    forall i :: 0 <= i < |ops| && !ops[i].Create? ==> ops[i].id != id
  }

  /** Operations on other sessions never lose or alter a live session: with fresh
      ids, no creation can land on it, and nothing else names it. */
  lemma {:induction false} OtherSessionsUntouched(sessions: Sessions, ops: seq<Op>, id: string)
    requires id in sessions && FreshIds(sessions, ops) && LeavesAlone(ops, id)
    ensures id in Run(sessions, ops) && Run(sessions, ops)[id] == sessions[id]
    decreases |ops|
  {
    if ops != [] {
      var next := Step(sessions, ops[0]);
      assert id in next && next[id] == sessions[id];
      assert LeavesAlone(ops[1..], id) by {
        forall i | 0 <= i < |ops[1..]| && !ops[1..][i].Create?
          ensures ops[1..][i].id != id
        {
          assert ops[1..][i] == ops[i + 1];
        }
      }
      OtherSessionsUntouched(next, ops[1..], id);
    }
  }

  /** With fresh ids and no session destroyed in between, the creations of a run
      return pairwise distinct ids, none of them live before the run and all of
      them live after it. */
  lemma {:induction false} CreatedIdsDistinct(sessions: Sessions, ops: seq<Op>)
    requires FreshIds(sessions, ops)
    requires forall i :: 0 <= i < |ops| ==> !ops[i].Destroy?
    ensures forall i, j :: 0 <= i < j < |CreatedIds(ops)| ==> CreatedIds(ops)[i] != CreatedIds(ops)[j]
    ensures forall i :: 0 <= i < |CreatedIds(ops)| ==>
      CreatedIds(ops)[i] !in sessions && CreatedIds(ops)[i] in Run(sessions, ops)
    ensures sessions.Keys <= Run(sessions, ops).Keys
    decreases |ops|
  {
    if ops != [] {
      var next := Step(sessions, ops[0]);
      assert forall i :: 0 <= i < |ops[1..]| ==> !ops[1..][i].Destroy? by {
        forall i | 0 <= i < |ops[1..]| ensures !ops[1..][i].Destroy? {
          assert ops[1..][i] == ops[i + 1];
        }
      }
      CreatedIdsDistinct(next, ops[1..]);
      assert sessions.Keys <= next.Keys;
    }
  }
}
