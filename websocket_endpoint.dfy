/**
 * One live consultation over the websocket: the session it registers, the
 * transcript events that grow it, the gated incremental updates, the silence
 * watcher's tick, and the stop that applies the human edits, builds the
 * outputs and unregisters the session. Clocks, identifiers, the model replies,
 * the JSON parser and the vector store's query result are parameters.
 */
module WebsocketEndpoint {
  import opened Wrappers
  import opened PyValue
  import opened SessionModels
  import opened SessionRegistry
  import opened Schema
  import opened Websocket
  import Incremental
  import Gemini
  import ChromaStore
  import Suggestions
  import JsonlExport

  /** What one call of `run_incremental_update` did. */
  datatype Outcome = Skipped | Failed(error: PyError) | Committed

  /** The ids of a batch, as the draft records them. */
  function Ids(us: seq<FinalUtterance>): (r: seq<string>)
    ensures |r| == |us| && forall i :: 0 <= i < |us| ==> r[i] == us[i].utteranceId
  {
    seq(|us|, i requires 0 <= i < |us| => us[i].utteranceId)
  }

  /** The transcript `apply_transcript_edits` returns: each utterance with the log replayed over it. */
  function EditedTranscript(t: seq<FinalUtterance>, edits: seq<TranscriptEdit>): (r: seq<FinalUtterance>)
    ensures |r| == |t|
  {
    var byId := ById(t);
    seq(|t|, i requires 0 <= i < |t| => assert t[i] in t; Replay(byId[t[i].utteranceId], edits))
  }

  /** The structured state the stop stores: the edits applied, then the utterances replaced by the edited transcript. */
  function FinalState(structured: State, edits: seq<StructuredEdit>, transcript: seq<FinalUtterance>)
    : Result<State, PyError>
  {
    match ReplayStructured(structured, edits)
    case Err(e) => Err(e)
    case Ok(s) => Ok(s["utterances" := VList(UtteranceDicts(transcript))])
  }

  /** The state after the stop's forced flush: the update's result when utterances remain, the state itself otherwise. */
  function Flushed(structured: State, pending: bool, call: Gemini.CallOutcome, loads: string -> Option<Value>)
    : Result<State, PyError>
    requires RequiredKeys <= structured.Keys && structured["utterances"].VList?
  {
    if pending then Incremental.Updated(structured, call, loads) else Ok(structured)
  }

  /** `llm_result.get("data", {}).get("clinical_report", "")`. */
  function ClinicalReport(llmResult: seq<Entry>): Result<Value, PyError> {
    match GetOr(VDict(llmResult), "data", VDict([]))
    case Err(e) => Err(e)
    case Ok(data) => GetOr(data, "clinical_report", VStr(""))
  }

  /** What the stop produces: the stored state, the report, the vector-store record, the export line and the suggestions. */
  datatype Finished = Finished(
    structured: State,
    clinicalReport: Value,
    document: string,
    metadata: seq<Entry>,
    record: Value,
    suggestion: Suggestions.Suggestion)

  /** The state a session starts from has every section the updates require, the utterances a list. */
  lemma BaseIsUpdatable()
    ensures RequiredKeys <= BaseStructuredState().Keys && BaseStructuredState()["utterances"].VList?
  {
    BaseStructuredStateShape();
    BaseStructuredStateKeys();
    assert "utterances" in ListSectionNames && "symptoms" in ListSectionNames && "medications" in ListSectionNames;
    assert "diagnosis" in ListSectionNames && "advice" in ListSectionNames;
  }

  /** The outputs the stop builds from the final state; they are all it has once the edits are applied. */
  predicate Outputs(f: Finished, sessionId: string, state: State, reportModel: string, reportCall: Gemini.CallOutcome,
                    loads: string -> Option<Value>, queryResults: Option<Value>)
  {
    && f.structured == state
    && f.document == ChromaStore.Document(state)
    && f.metadata == ChromaStore.Metadata(state)
    && f.record == JsonlExport.Record(sessionId, state)
    && Suggestions.Suggested(state, queryResults) == Ok(f.suggestion)
    && ClinicalReport(Gemini.GenerateReportFromState(reportModel, reportCall, loads)) == Ok(f.clinicalReport)
  }

  /**
   * The part of the stop after the edits: the report's text, the record for
   * the vector store, the export record and the suggestions. Of the report
   * lookup and the suggestions, which alone could raise, only the suggestions do.
   */
  method BuildOutputs(sessionId: string, state: State, reportModel: string, reportCall: Gemini.CallOutcome,
                      loads: string -> Option<Value>, queryResults: Option<Value>)
    returns (r: Result<Finished, PyError>)
    ensures r.Ok? ==> Outputs(r.value, sessionId, state, reportModel, reportCall, loads, queryResults)
    ensures r.Err? <==>
      ClinicalReport(Gemini.GenerateReportFromState(reportModel, reportCall, loads)).Err?
      || Suggestions.Suggested(state, queryResults).Err?
    ensures r.Err? <==> Suggestions.Suggested(state, queryResults).Err?
    ensures r.Err? ==> r == Err(Suggestions.Suggested(state, queryResults).error)
  {
    var report := ClinicalReport(Gemini.GenerateReportFromState(reportModel, reportCall, loads));
    // the lookup cannot raise on a report result
    ReportLookupNeverRaises(reportModel, reportCall, loads);
    var document := ChromaStore.BuildDocument(state);
    var metadata := ChromaStore.BuildMetadata(state);
    var record := JsonlExport.ExportSession(sessionId, state);
    var suggestion := Suggestions.GenerateSystemSuggestions(state, queryResults);
    if suggestion.Err? {
      return Err(suggestion.error);
    }
    return Ok(Finished(state, report.value, document, metadata, record, suggestion.value));
  }

  /**
   * The report lookup cannot raise on what the report call returns: its
   * `data`, when present, is a dict, and a missing one defaults to `{}`.
   */
  lemma ReportLookupNeverRaises(model: string, call: Gemini.CallOutcome, loads: string -> Option<Value>)
    ensures ClinicalReport(Gemini.GenerateReportFromState(model, call, loads)).Ok?
  {
    var res := Gemini.GenerateReportFromState(model, call, loads);
    Gemini.ResultShapes(model, call, loads);
    if HasKey(res, "data") {
      assert Lookup(res, "data").value.VDict?;
    }
  }

  /** The per-connection state of `websocket_endpoint`. */
  class Endpoint {
    var session: SessionState
    var registry: Registry
    var lastLlmUpdateTime: int
    /** Whether the `silence_watcher` task is still running. */
    var watching: bool

    /** The structured state can take an update, and the processed prefix is within the transcript. */
    predicate Valid()
      reads this, session
    {
      && RequiredKeys <= session.finalStructuredState.Keys
      && session.finalStructuredState["utterances"].VList?
      && session.lastProcessedIndex <= |session.finalTranscript|
    }

    /** Accepting the connection: a fresh session on the base state, registered; no update yet. */
    constructor (sessionId: string, sessionDate: string, registry: Registry)
      modifies registry
      ensures Valid() && fresh(session) && this.registry == registry
      ensures session.sessionId == sessionId && session.sessionDate == sessionDate
      ensures session.finalStructuredState == BaseStructuredState()
      ensures session.finalTranscript == [] && session.llmDrafts == [] && session.active
      ensures registry.sessions == old(registry.sessions)[sessionId := session]
      ensures lastLlmUpdateTime == 0 && watching
    {
      var s := new SessionState(sessionId, sessionDate, BaseStructuredState());
      registry.Register(s);
      session := s;
      this.registry := registry;
      lastLlmUpdateTime := 0;
      watching := true;
      BaseIsUpdatable();
    }

    /**
     * A `transcript` event: the utterance is appended to the raw, recogniser
     * and final transcripts, with an unknown speaker, and the silence clock
     * restarts.
     */
    method OnTranscript(utteranceId: string, timestamp: string, text: string, monotonicNow: int)
      requires Valid()
      modifies session
      ensures session.Snapshot() == old(session.Snapshot()).(rawTranscript := session.rawTranscript, asrUtterances := session.asrUtterances, finalTranscript := session.finalTranscript, lastTextTime := session.lastTextTime)
      ensures Valid()
      ensures session.rawTranscript == old(session.rawTranscript) + [RawUtterance(utteranceId, timestamp, text)]
      ensures session.asrUtterances == old(session.asrUtterances) + [ASRUtterance(utteranceId, text, 1.0)]
      ensures session.finalTranscript == old(session.finalTranscript) + [FinalUtterance(utteranceId, timestamp, text, "unknown")]
      ensures session.lastTextTime == monotonicNow
      ensures session.lastProcessedIndex == old(session.lastProcessedIndex)
      ensures session.finalStructuredState == old(session.finalStructuredState)
      ensures session.llmDrafts == old(session.llmDrafts) && session.active == old(session.active)
    {
      session.rawTranscript := session.rawTranscript + [RawUtterance(utteranceId, timestamp, text)];
      session.asrUtterances := session.asrUtterances + [ASRUtterance(utteranceId, text, 1.0)];
      session.finalTranscript := session.finalTranscript + [FinalUtterance(utteranceId, timestamp, text, "unknown")];
      session.lastTextTime := monotonicNow;
    }

    /**
     * `run_incremental_update`: the three gates, then the update on the
     * current state; on success a draft is recorded, the state replaced,
     * everything transcribed so far marked processed and the update time
     * refreshed. A failing update changes nothing and its error propagates.
     */
    method RunIncrementalUpdate(newUtts: seq<FinalUtterance>, force: bool, now: int,
                                call: Gemini.CallOutcome, loads: string -> Option<Value>,
                                draftId: string, createdAt: string, doneAt: int)
      returns (outcome: Outcome)
      requires Valid()
      modifies this, session
      ensures session.Snapshot() == old(session.Snapshot()).(llmDrafts := session.llmDrafts, finalStructuredState := session.finalStructuredState, lastProcessedIndex := session.lastProcessedIndex)
      ensures outcome != Committed ==> session.Snapshot() == old(session.Snapshot())
      ensures Valid() && session == old(session) && registry == old(registry)
      ensures !ShouldRunUpdate(|newUtts|, force, now, old(lastLlmUpdateTime)) ==> outcome == Skipped
      ensures outcome != Committed ==>
        && lastLlmUpdateTime == old(lastLlmUpdateTime)
        && session.llmDrafts == old(session.llmDrafts)
        && session.finalStructuredState == old(session.finalStructuredState)
        && session.lastProcessedIndex == old(session.lastProcessedIndex)
      ensures ShouldRunUpdate(|newUtts|, force, now, old(lastLlmUpdateTime)) ==> outcome != Skipped
      ensures ShouldRunUpdate(|newUtts|, force, now, old(lastLlmUpdateTime)) && call.CallRaised? ==>
        outcome == Failed(Raised(call.details))
      ensures outcome.Failed? ==>
        Incremental.Updated(old(session.finalStructuredState), call, loads) == Err(outcome.error)
      ensures outcome == Committed ==>
        && Incremental.Updated(old(session.finalStructuredState), call, loads) == Ok(session.finalStructuredState)
        && session.llmDrafts == old(session.llmDrafts) +
             [NewLLMDraft(draftId, createdAt, Ids(newUtts), session.finalStructuredState, "gemini")]
        && session.lastProcessedIndex == |session.finalTranscript|
        && lastLlmUpdateTime == doneAt
      ensures session.finalTranscript == old(session.finalTranscript) && session.active == old(session.active)
      ensures session.lastTextTime == old(session.lastTextTime) && watching == old(watching)
      ensures session.transcriptEdits == old(session.transcriptEdits) && session.structuredEdits == old(session.structuredEdits)
    {
      if |newUtts| == 0 {
        return Skipped;
      }
      if !force && |newUtts| < MIN_UTTERANCES_PER_UPDATE {
        return Skipped;
      }
      if !force && now - lastLlmUpdateTime < MIN_UPDATE_INTERVAL {
        return Skipped;
      }
      var baseState := session.finalStructuredState;
      var updated := Incremental.UpdateStructuredState(baseState, call, loads);
      if updated.Err? {
        return Failed(updated.error);
      }
      Commit(NewLLMDraft(draftId, createdAt, Ids(newUtts), updated.value, "gemini"), updated.value, doneAt);
      return Committed;
    }

    /** The commit of an update under the session lock. */
    method Commit(draft: LLMDraft, updated: State, doneAt: int)
      requires RequiredKeys <= updated.Keys && updated["utterances"].VList?
      modifies this, session
      ensures session.Snapshot() == old(session.Snapshot()).(llmDrafts := session.llmDrafts, finalStructuredState := session.finalStructuredState, lastProcessedIndex := session.lastProcessedIndex)
      ensures Valid() && session == old(session) && registry == old(registry)
      ensures session.llmDrafts == old(session.llmDrafts) + [draft]
      ensures session.finalStructuredState == updated
      ensures session.lastProcessedIndex == |session.finalTranscript|
      ensures lastLlmUpdateTime == doneAt
      ensures session.finalTranscript == old(session.finalTranscript) && session.active == old(session.active)
      ensures session.lastTextTime == old(session.lastTextTime) && watching == old(watching)
      ensures session.transcriptEdits == old(session.transcriptEdits) && session.structuredEdits == old(session.structuredEdits)
    {
      session.llmDrafts := session.llmDrafts + [draft];
      session.finalStructuredState := updated;
      session.lastProcessedIndex := |session.finalTranscript|;
      lastLlmUpdateTime := doneAt;
    }

    /**
     * One wake-up of `silence_watcher`: after enough silence, the utterances
     * not yet processed go to an unforced update. The watcher ends when the
     * session is inactive, and also when an update raises, since nothing
     * catches the exception in its task; once it has ended, a tick does
     * nothing and reports `Stop`.
     */
    method SilenceTick(monotonicNow: int, now: int, call: Gemini.CallOutcome, loads: string -> Option<Value>,
                       draftId: string, createdAt: string, doneAt: int)
      returns (d: SilenceDecision, outcome: Outcome)
      requires Valid()
      modifies this, session
      ensures session.Snapshot() == old(session.Snapshot()).(llmDrafts := session.llmDrafts, finalStructuredState := session.finalStructuredState, lastProcessedIndex := session.lastProcessedIndex)
      ensures outcome != Committed ==> session.Snapshot() == old(session.Snapshot())
      ensures Valid() && session == old(session) && registry == old(registry)
      ensures !old(watching) ==> d.Stop?
      ensures old(watching) ==>
        d == SilenceDecide(old(session.active), monotonicNow, old(session.lastTextTime),
                           old(session.lastProcessedIndex), |old(session.finalTranscript)|)
      ensures watching <==> old(watching) && !d.Stop? && !outcome.Failed?
      ensures !d.Fire? ==> outcome == Skipped && session.finalStructuredState == old(session.finalStructuredState)
      ensures !d.Fire? ==> session.lastProcessedIndex == old(session.lastProcessedIndex) && session.llmDrafts == old(session.llmDrafts)
      ensures d.Fire? ==>
        (outcome == Skipped <==>
           !ShouldRunUpdate(|old(session.finalTranscript)| - old(session.lastProcessedIndex), false, now, old(lastLlmUpdateTime)))
      ensures outcome.Failed? ==> Incremental.Updated(old(session.finalStructuredState), call, loads) == Err(outcome.error)
      ensures outcome == Committed ==>
        && Incremental.Updated(old(session.finalStructuredState), call, loads) == Ok(session.finalStructuredState)
        && session.llmDrafts == old(session.llmDrafts) +
             [NewLLMDraft(draftId, createdAt, Ids(old(session.finalTranscript)[old(session.lastProcessedIndex)..]),
                          session.finalStructuredState, "gemini")]
      ensures outcome == Committed ==> session.lastProcessedIndex == |session.finalTranscript| && lastLlmUpdateTime == doneAt
      ensures outcome != Committed ==>
        && lastLlmUpdateTime == old(lastLlmUpdateTime)
        && session.llmDrafts == old(session.llmDrafts)
        && session.finalStructuredState == old(session.finalStructuredState)
        && session.lastProcessedIndex == old(session.lastProcessedIndex)
      ensures session.finalTranscript == old(session.finalTranscript) && session.active == old(session.active)
      ensures session.transcriptEdits == old(session.transcriptEdits) && session.structuredEdits == old(session.structuredEdits)
    {
      if !watching {
        return SilenceDecision.Stop, Skipped;
      }
      d := SilenceDecide(session.active, monotonicNow, session.lastTextTime,
                         session.lastProcessedIndex, |session.finalTranscript|);
      if d.Stop? {
        watching := false;
        return d, Skipped;
      }
      if !d.Fire? {
        return d, Skipped;
      }
      var pending := session.finalTranscript[session.lastProcessedIndex..];
      outcome := RunIncrementalUpdate(pending, false, now, call, loads, draftId, createdAt, doneAt);
      if outcome.Failed? {
        watching := false;
      }
    }

    /**
     * The edits step of the stop, under the session lock: the transcript
     * edits are replayed, then the structured edits, and the utterances are
     * renumbered from the edited transcript. A failing structured edit
     * changes nothing.
     */
    method FinalizeEdits() returns (r: Result<State, PyError>)
      requires Valid()
      modifies session
      ensures session.Snapshot() == old(session.Snapshot()).(finalTranscript := session.finalTranscript, finalStructuredState := session.finalStructuredState)
      ensures r.Err? ==> session.Snapshot() == old(session.Snapshot())
      ensures Valid()
      ensures r == FinalState(old(session.finalStructuredState), old(session.structuredEdits),
                              EditedTranscript(old(session.finalTranscript), old(session.transcriptEdits)))
      ensures r.Ok? ==> session.finalStructuredState == r.value
      ensures r.Ok? ==> r.value["utterances"] == VList(UtteranceDicts(session.finalTranscript))
      ensures r.Ok? ==> session.finalTranscript == EditedTranscript(old(session.finalTranscript), old(session.transcriptEdits))
      ensures r.Err? ==> session.finalStructuredState == old(session.finalStructuredState)
      ensures r.Err? ==> session.finalTranscript == old(session.finalTranscript)
      ensures session.lastProcessedIndex == old(session.lastProcessedIndex) && session.active == old(session.active)
      ensures session.transcriptEdits == old(session.transcriptEdits) && session.structuredEdits == old(session.structuredEdits)
    {
      var transcript := ApplyTranscriptEdits(session.finalTranscript, session.transcriptEdits);
      assert transcript == EditedTranscript(session.finalTranscript, session.transcriptEdits);
      var structured := ApplyStructuredEdits(session.finalStructuredState, session.structuredEdits);
      if structured.Err? {
        return Err(structured.error);
      }
      ReplayStructuredKeys(session.finalStructuredState, session.structuredEdits);
      var s := structured.value["utterances" := VList(UtteranceDicts(transcript))];
      Store(transcript, s);
      return Ok(s);
    }

    /** The two assignments that end the edits step. */
    method Store(transcript: seq<FinalUtterance>, structured: State)
      requires RequiredKeys <= structured.Keys && structured["utterances"].VList?
      requires session.lastProcessedIndex <= |transcript|
      modifies session
      ensures session.Snapshot() == old(session.Snapshot()).(finalTranscript := session.finalTranscript, finalStructuredState := session.finalStructuredState)
      ensures Valid()
      ensures session.finalTranscript == transcript && session.finalStructuredState == structured
      ensures session.lastProcessedIndex == old(session.lastProcessedIndex) && session.active == old(session.active)
      ensures session.transcriptEdits == old(session.transcriptEdits) && session.structuredEdits == old(session.structuredEdits)
    {
      session.finalTranscript := transcript;
      session.finalStructuredState := structured;
    }

    /**
     * The first half of a `stop` event: the session is deactivated and the
     * utterances not yet processed, if any, get a forced update.
     */
    method Deactivate(now: int, call: Gemini.CallOutcome, loads: string -> Option<Value>,
                      draftId: string, createdAt: string, doneAt: int)
      returns (outcome: Outcome)
      requires Valid()
      modifies this, session
      ensures session.Snapshot() == old(session.Snapshot()).(active := false, llmDrafts := session.llmDrafts, finalStructuredState := session.finalStructuredState, lastProcessedIndex := session.lastProcessedIndex)
      ensures outcome != Committed ==> session.Snapshot() == old(session.Snapshot()).(active := false)
      ensures Valid() && session == old(session) && registry == old(registry) && !session.active && !watching
      ensures session.finalTranscript == old(session.finalTranscript)
      ensures old(session.lastProcessedIndex) == |session.finalTranscript| ==>
        outcome == Skipped && session.finalStructuredState == old(session.finalStructuredState)
      ensures old(session.lastProcessedIndex) < |session.finalTranscript| ==> outcome != Skipped
      ensures outcome.Failed? ==> Incremental.Updated(old(session.finalStructuredState), call, loads) == Err(outcome.error)
      ensures old(session.lastProcessedIndex) < |session.finalTranscript| ==>
        (outcome.Failed? <==> Incremental.Updated(old(session.finalStructuredState), call, loads).Err?)
      ensures outcome != Committed ==>
        && lastLlmUpdateTime == old(lastLlmUpdateTime)
        && session.llmDrafts == old(session.llmDrafts)
        && session.finalStructuredState == old(session.finalStructuredState)
        && session.lastProcessedIndex == old(session.lastProcessedIndex)
      ensures outcome == Committed ==>
        && Incremental.Updated(old(session.finalStructuredState), call, loads) == Ok(session.finalStructuredState)
        && session.llmDrafts == old(session.llmDrafts) +
             [NewLLMDraft(draftId, createdAt, Ids(old(session.finalTranscript)[old(session.lastProcessedIndex)..]),
                          session.finalStructuredState, "gemini")]
        && session.lastProcessedIndex == |session.finalTranscript|
        && lastLlmUpdateTime == doneAt
      ensures session.transcriptEdits == old(session.transcriptEdits) && session.structuredEdits == old(session.structuredEdits)
    {
      session.active := false;
      watching := false;
      var remaining := session.finalTranscript[session.lastProcessedIndex..];
      if remaining == [] {
        return Skipped;
      }
      ShouldRunUpdateSpec(|remaining|, true, now, lastLlmUpdateTime);
      outcome := RunIncrementalUpdate(remaining, true, now, call, loads, draftId, createdAt, doneAt);
    }

    /**
     * The second half of a `stop` event: the edits are applied, the report,
     * the vector-store record, the export record and the suggestions are
     * built from the final state, and the session is unregistered. Any error
     * leaves the session registered.
     */
    method Finish(reportModel: string, reportCall: Gemini.CallOutcome, loads: string -> Option<Value>,
                  queryResults: Option<Value>)
      returns (r: Result<Finished, PyError>)
      requires Valid()
      modifies session, registry
      ensures session.Snapshot() == old(session.Snapshot()).(finalTranscript := session.finalTranscript, finalStructuredState := session.finalStructuredState)
      ensures Valid() && session.active == old(session.active)
      ensures r.Err? ==> registry.sessions == old(registry.sessions)
      ensures r.Ok? ==> registry.sessions == old(registry.sessions) - {session.sessionId}
      ensures r.Ok? ==> Outputs(r.value, session.sessionId, session.finalStructuredState, reportModel, reportCall, loads, queryResults)
      ensures r.Ok? ==> session.finalStructuredState["utterances"] == VList(UtteranceDicts(session.finalTranscript))
      ensures var edited := EditedTranscript(old(session.finalTranscript), old(session.transcriptEdits));
        var fin := FinalState(old(session.finalStructuredState), old(session.structuredEdits), edited);
        && (fin.Err? ==> r == Err(fin.error))
        && (fin.Err? ==> session.finalStructuredState == old(session.finalStructuredState)
                         && session.finalTranscript == old(session.finalTranscript))
        && (fin.Ok? ==> session.finalStructuredState == fin.value && session.finalTranscript == edited)
        && (fin.Ok? ==> (r.Err? <==> Suggestions.Suggested(fin.value, queryResults).Err?))
    {
      var structured := FinalizeEdits();
      if structured.Err? {
        return Err(structured.error);
      }
      r := Publish(reportModel, reportCall, loads, queryResults);
    }

    /** The outputs built from the session's final state, then the session unregistered if none raised. */
    method Publish(reportModel: string, reportCall: Gemini.CallOutcome, loads: string -> Option<Value>,
                   queryResults: Option<Value>)
      returns (r: Result<Finished, PyError>)
      modifies registry
      ensures r.Err? ==> registry.sessions == old(registry.sessions)
      ensures r.Ok? ==> registry.sessions == old(registry.sessions) - {session.sessionId}
      ensures r.Ok? ==> Outputs(r.value, session.sessionId, session.finalStructuredState, reportModel, reportCall, loads, queryResults)
      ensures r.Err? <==> Suggestions.Suggested(session.finalStructuredState, queryResults).Err?
    {
      var id := session.sessionId;
      r := BuildOutputs(id, session.finalStructuredState, reportModel, reportCall, loads, queryResults);
      if r.Ok? {
        registry.Remove(id);
      }
    }

    /**
     * A `stop` event: the session is deactivated, the unprocessed utterances
     * get a forced update, and the session is finished. Any error ends the
     * connection with the session still registered.
     */
    method Stop(now: int, call: Gemini.CallOutcome, loads: string -> Option<Value>,
                draftId: string, createdAt: string, doneAt: int,
                reportModel: string, reportCall: Gemini.CallOutcome, queryResults: Option<Value>)
      returns (r: Result<Finished, PyError>)
      requires Valid()
      modifies this, session, registry
      ensures session.Snapshot() == old(session.Snapshot()).(active := false, llmDrafts := session.llmDrafts, finalStructuredState := session.finalStructuredState, lastProcessedIndex := session.lastProcessedIndex, finalTranscript := session.finalTranscript)
      ensures Valid() && session == old(session) && registry == old(registry) && !session.active && !watching
      ensures r.Err? ==> registry.sessions == old(registry.sessions)
      ensures r.Ok? ==> registry.sessions == old(registry.sessions) - {session.sessionId}
      ensures r.Ok? ==> Outputs(r.value, session.sessionId, session.finalStructuredState, reportModel, reportCall, loads, queryResults)
      ensures r.Ok? ==> session.finalStructuredState["utterances"] == VList(UtteranceDicts(session.finalTranscript))
      ensures var flushed := Flushed(old(session.finalStructuredState),
                                     old(session.lastProcessedIndex) < |old(session.finalTranscript)|, call, loads);
        var edited := EditedTranscript(old(session.finalTranscript), old(session.transcriptEdits));
        && (flushed.Err? ==> r == Err(flushed.error))
        && (flushed.Ok? && FinalState(flushed.value, old(session.structuredEdits), edited).Err? ==>
              r == Err(FinalState(flushed.value, old(session.structuredEdits), edited).error))
        && (r.Ok? ==> flushed.Ok? && Ok(session.finalStructuredState) == FinalState(flushed.value, old(session.structuredEdits), edited))
        && (r.Ok? ==> session.finalTranscript == edited)
    {
      var outcome := Deactivate(now, call, loads, draftId, createdAt, doneAt);
      if outcome.Failed? {
        return Err(outcome.error);
      }
      r := Finish(reportModel, reportCall, loads, queryResults);
    }

    /** A dropped connection: the session is deactivated and unregistered. */
    method Disconnect()
      requires Valid()
      modifies this, session, registry
      ensures session.Snapshot() == old(session.Snapshot()).(active := false)
      ensures Valid() && session == old(session) && registry == old(registry)
      ensures lastLlmUpdateTime == old(lastLlmUpdateTime)
      ensures !session.active && !watching
      ensures registry.sessions == old(registry.sessions) - {session.sessionId}
      ensures session.finalStructuredState == old(session.finalStructuredState)
      ensures session.finalTranscript == old(session.finalTranscript)
    {
      session.active := false;
      watching := false;
      registry.Remove(session.sessionId);
    }
  }
}
