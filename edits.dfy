/** The two HTTP handlers through which clinicians log corrections against a live session. */
module Edits {
  import opened Wrappers
  import opened PyValue
  import opened SessionModels
  import opened SessionRegistry

  /** A handler's outcome: a JSON body, or an `HTTPException`. */
  datatype Response = Body(json: Value) | HttpException(statusCode: int, detail: string)

  function StatusOk(): Value {
    VDict([Entry("status", VStr("ok"))])
  }

  function NotFound(): Response {
    HttpException(404, "Session not found")
  }

  /** `edited_at or now`: an empty timestamp is replaced by the current time. */
  function Stamp(editedAt: string, now: string): (r: string)
    ensures editedAt != "" ==> r == editedAt
    ensures editedAt == "" ==> r == now
  {
    if editedAt != "" then editedAt else now
  }

  /** The copy of a transcript edit that is logged: every field verbatim except the timestamp. */
  function LoggedTranscriptEdit(edit: TranscriptEdit, now: string): (r: TranscriptEdit)
    ensures r.(editedAt := edit.editedAt) == edit
    ensures r.editedAt == Stamp(edit.editedAt, now)
  {
    TranscriptEdit(edit.editId, edit.utteranceId, edit.field, edit.oldValue,
                   edit.newValue, edit.editedBy, Stamp(edit.editedAt, now))
  }

  /** The copy of a structured edit that is logged: every field verbatim except the timestamp. */
  function LoggedStructuredEdit(edit: StructuredEdit, now: string): (r: StructuredEdit)
    ensures r.(editedAt := edit.editedAt) == edit
    ensures r.editedAt == Stamp(edit.editedAt, now)
  {
    StructuredEdit(edit.editId, edit.section, edit.action, edit.value,
                   edit.editedBy, Stamp(edit.editedAt, now))
  }

  /** The objects a handler may change: the addressed session, when it exists. */
  function Target(registry: Registry, sessionId: string): set<SessionState>
    reads registry
  {
    if sessionId in registry.sessions then {registry.sessions[sessionId]} else {}
  }

  /** `POST /sessions/{id}/transcript-edits`. */
  method AddTranscriptEdit(registry: Registry, sessionId: string, edit: TranscriptEdit, now: string)
    returns (resp: Response)
    modifies Target(registry, sessionId)`transcriptEdits
    ensures sessionId !in registry.sessions ==> resp == NotFound()
    ensures sessionId in registry.sessions ==>
      var s := registry.sessions[sessionId];
      && resp == Body(StatusOk())
      && s.transcriptEdits == old(s.transcriptEdits) + [LoggedTranscriptEdit(edit, now)]
      && s.structuredEdits == old(s.structuredEdits)
  {
    var found := registry.Get(sessionId);
    if found.Err? {
      return NotFound();
    }
    var session := found.value;
    session.transcriptEdits := session.transcriptEdits + [LoggedTranscriptEdit(edit, now)];
    resp := Body(StatusOk());
  }

  /** `POST /sessions/{id}/structured-edits`. */
  method AddStructuredEdit(registry: Registry, sessionId: string, edit: StructuredEdit, now: string)
    returns (resp: Response)
    modifies Target(registry, sessionId)`structuredEdits
    ensures sessionId !in registry.sessions ==> resp == NotFound()
    ensures sessionId in registry.sessions ==>
      var s := registry.sessions[sessionId];
      && resp == Body(StatusOk())
      && s.structuredEdits == old(s.structuredEdits) + [LoggedStructuredEdit(edit, now)]
      && s.transcriptEdits == old(s.transcriptEdits)
  {
    var found := registry.Get(sessionId);
    if found.Err? {
      return NotFound();
    }
    var session := found.value;
    session.structuredEdits := session.structuredEdits + [LoggedStructuredEdit(edit, now)];
    resp := Body(StatusOk());
  }
}
