/**
 * The web backend's in-memory session table: sessions are created with a fresh id, looked
 * up, updated field by field and deleted. A session is the dictionary of its fields; the
 * fresh id and the clock are parameters.
 */
module Sessions {
  import opened Wrappers
  import opened Json

  /** The fields of `SessionData`. */
  const SessionFields: set<string> :=
    {"session_id", "project_id", "created_at", "updated_at", "state", "prompt", "budget", "prd", "oag", "boardroom"}

  /** A session holds exactly the fields of `SessionData`. */
  predicate WellFormed(s: Dict) {
    s.Keys == SessionFields
  }

  /** `SessionData()`: the fresh id, both time stamps `now`, state "initialized", every
      optional field none. */
  function NewSession(id: string, now: real): (s: Dict)
    ensures WellFormed(s)
    ensures s["session_id"] == JStr(id) && s["state"] == JStr("initialized")
    ensures s["created_at"] == s["updated_at"] == JNum(now)
  {
    map["session_id" := JStr(id), "project_id" := JNull, "created_at" := JNum(now), "updated_at" := JNum(now),
        "state" := JStr("initialized"), "prompt" := JNull, "budget" := JNull, "prd" := JNull, "oag" := JNull,
        "boardroom" := JNull]
  }

  /** The value the last keyword argument named `k` carries, if any. */
  function LastValue(kwargs: seq<(string, Json)>, k: string): Option<Json> {
    if kwargs == [] then None
    else if kwargs[|kwargs| - 1].0 == k then Some(kwargs[|kwargs| - 1].1)
    else LastValue(kwargs[..|kwargs| - 1], k)
  }

  /** The `setattr` loop: each keyword naming a field of the session sets it; others are
      ignored. */
  function ApplyKwargs(s: Dict, kwargs: seq<(string, Json)>): (r: Dict)
    ensures r.Keys == s.Keys
  {
    if kwargs == [] then s
    else
      var (k, v) := kwargs[|kwargs| - 1];
      var front := ApplyKwargs(s, kwargs[..|kwargs| - 1]);
      if k in front then front[k := v] else front
  }

  /** Each field ends up with the last value given for it, and keeps its value when none is
      given; no key is added. */
  lemma {:induction false} ApplyKwargsFields(s: Dict, kwargs: seq<(string, Json)>, k: string)
    requires k in s
    ensures ApplyKwargs(s, kwargs)[k] == LastValue(kwargs, k).GetOr(s[k])
  {
    if kwargs != [] {
      ApplyKwargsFields(s, kwargs[..|kwargs| - 1], k);
    }
  }

  /** `update_session` on a stored session: the keyword fields, then `updated_at := now`. */
  function Updated(s: Dict, kwargs: seq<(string, Json)>, now: real): (r: Dict)
    ensures r.Keys == s.Keys + {"updated_at"}
  {
    ApplyKwargs(s, kwargs)["updated_at" := JNum(now)]
  }

  /** The refreshed time stamp wins over any `updated_at` keyword; the other fields follow
      the keywords. */
  lemma UpdatedFields(s: Dict, kwargs: seq<(string, Json)>, now: real, k: string)
    requires WellFormed(s) && k in SessionFields
    ensures WellFormed(Updated(s, kwargs, now))
    ensures k == "updated_at" ==> Updated(s, kwargs, now)[k] == JNum(now)
    ensures k != "updated_at" ==> Updated(s, kwargs, now)[k] == LastValue(kwargs, k).GetOr(s[k])
  {
    ApplyKwargsFields(s, kwargs, k);
  }

  class SessionStore {
    /** `sessions`: session id to session. */
    var sessions: map<string, Dict>

    predicate Valid()
      reads this
    {
      forall id :: id in sessions ==> WellFormed(sessions[id])
    }

    constructor ()
      ensures sessions == map[] && Valid()
    {
      sessions := map[];
    }

    /** `get_session`: the stored session, or none for an unknown id. */
    function Get(id: string): (r: Option<Dict>)
      reads this
      ensures r.Some? <==> id in sessions
      ensures r.Some? ==> r.value == sessions[id]
    {
      if id in sessions then Some(sessions[id]) else None
    }

    /** `create_session`: a new session under its fresh id; no other session changes. */
    method Create(freshId: string, now: real) returns (s: Dict)
      requires Valid()
      modifies this
      ensures Valid()
      ensures s == NewSession(freshId, now) && Get(freshId) == Some(s)
      ensures forall id :: id != freshId ==> Get(id) == old(Get(id))
    {
      s := NewSession(freshId, now);
      sessions := sessions[freshId := s];
    }

    /** `update_session`: for a stored session, the keyword loop and the refreshed time
        stamp; an unknown id gives none and changes nothing. Other sessions never change. */
    method Update(id: string, kwargs: seq<(string, Json)>, now: real) returns (r: Option<Dict>)
      requires Valid()
      modifies this
      ensures Valid()
      ensures id !in old(sessions) ==> r == None && sessions == old(sessions)
      ensures id in old(sessions) ==> r == Some(Updated(old(sessions)[id], kwargs, now)) && Get(id) == r
      ensures forall other :: other != id ==> Get(other) == old(Get(other))
    {
      if id !in sessions {
        return None;
      }
      var s := sessions[id];
      ghost var start := s;
      for i := 0 to |kwargs|
        invariant s == ApplyKwargs(start, kwargs[..i])
      {
        assert kwargs[..i + 1][..i] == kwargs[..i];
        var (key, value) := kwargs[i];
        if key in s {
          s := s[key := value];
        }
      }
      assert kwargs[..|kwargs|] == kwargs;
      s := s["updated_at" := JNum(now)];
      sessions := sessions[id := s];
      r := Some(s);
    }

    /** `delete_session`: true and the session removed when stored, else false and no change. */
    method Delete(id: string) returns (deleted: bool)
      requires Valid()
      modifies this
      ensures Valid()
      ensures deleted <==> id in old(sessions)
      ensures Get(id) == None
      ensures forall other :: other != id ==> Get(other) == old(Get(other))
    {
      if id in sessions {
        sessions := sessions - {id};
        return true;
      }
      return false;
    }
  }
}
