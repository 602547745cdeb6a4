/** The process-wide table of live sessions, keyed by session id. */
module SessionRegistry {
  import opened Wrappers
  import opened PyValue
  import opened SessionModels

  class Registry {
    var sessions: map<string, SessionState>

    constructor ()
      ensures sessions == map[]
    {
      sessions := map[];
    }

    /** `register_session`: inserts, replacing any session already under that id. */
    method Register(session: SessionState)
      modifies this
      ensures sessions == old(sessions)[session.sessionId := session]
    {
      sessions := sessions[session.sessionId := session];
    }

    /** `get_session`: the registered session, or `KeyError`. */
    method Get(sessionId: string) returns (r: Result<SessionState, PyError>)
      ensures sessionId in sessions <==> r.Ok?
      ensures r.Ok? ==> r.value == sessions[sessionId]
      ensures r.Err? ==> r.error == KeyError
    {
      if sessionId in sessions {
        r := Ok(sessions[sessionId]);
      } else {
        r := Err(KeyError);
      }
    }

    /** `remove_session`: drops the id if present; never raises. */
    method Remove(sessionId: string)
      modifies this
      ensures sessions == old(sessions) - {sessionId}
      ensures forall id :: id in old(sessions) && id != sessionId ==> id in sessions && sessions[id] == old(sessions)[id]
    {
      sessions := sessions - {sessionId};
    }
  }

  /**
   * A session's life in the registry: found after registration, replaced by a
   * later registration under the same id, gone after removal, and removing
   * twice is harmless.
   */
  method RegistryLifecycle(r: Registry, a: SessionState, b: SessionState, other: string)
    requires a.sessionId == b.sessionId && a != b && other != a.sessionId
    modifies r
    ensures a.sessionId !in r.sessions
    ensures other in old(r.sessions) ==> other in r.sessions && r.sessions[other] == old(r.sessions)[other]
  {
    r.Register(a);
    var got := r.Get(a.sessionId);
    assert got == Ok(a);
    r.Register(b);
    got := r.Get(a.sessionId);
    assert got == Ok(b);
    r.Remove(a.sessionId);
    got := r.Get(a.sessionId);
    assert got == Err(KeyError);
    r.Remove(a.sessionId);
    got := r.Get(a.sessionId);
    assert got == Err(KeyError);
  }
}
