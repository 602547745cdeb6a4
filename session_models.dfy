/**
 * The records a consultation session is made of, and the mutable session
 * object itself. Times are strings (ISO timestamps) or integer seconds.
 */
module SessionModels {
  import opened Wrappers
  import opened PyValue

  /** The structured clinical state: a dict from section name to its value. */
  type State = map<string, Value>

  /** One transcribed utterance; rebuilt, never mutated, when edited. */
  datatype FinalUtterance = FinalUtterance(
    utteranceId: string,
    timestamp: string,
    text: string,
    speaker: string)

  /** A human correction of one field of one utterance. */
  datatype TranscriptEdit = TranscriptEdit(
    editId: string,
    utteranceId: string,
    field: string,
    oldValue: string,
    newValue: string,
    editedBy: string,
    editedAt: string)

  /** A human correction of one section of the structured state; `value` is a dict. */
  datatype StructuredEdit = StructuredEdit(
    editId: string,
    section: string,
    action: string,
    value: seq<Entry>,
    editedBy: string,
    editedAt: string)

  /** The record of one completed incremental update. */
  datatype LLMDraft = LLMDraft(
    draftId: string,
    createdAt: string,
    inputUtteranceIds: seq<string>,
    structuredPatch: State,
    model: string,
    accepted: bool)

  /** The utterance as recognised, before any speaker is known. */
  datatype RawUtterance = RawUtterance(utteranceId: string, timestamp: string, text: string)

  /** The recogniser's view of an utterance, with its confidence. */
  datatype ASRUtterance = ASRUtterance(utteranceId: string, text: string, confidence: real)

  /** The `LLMDraft(...)` constructor call, which leaves `accepted` at its default. */
  function NewLLMDraft(draftId: string, createdAt: string, inputUtteranceIds: seq<string>,
                       structuredPatch: State, model: string): (d: LLMDraft)
    ensures !d.accepted
    ensures d.draftId == draftId && d.createdAt == createdAt && d.model == model
    ensures d.inputUtteranceIds == inputUtteranceIds && d.structuredPatch == structuredPatch
  {
    LLMDraft(draftId, createdAt, inputUtteranceIds, structuredPatch, model, false)
  }

  /**
   * The mutable fields of a `SessionState` at one moment. A method states
   * which fields it changes by comparing the snapshot after it with the one
   * before, updated in exactly those fields.
   */
  datatype SessionSnapshot = SessionSnapshot(
    rawTranscript: seq<RawUtterance>,
    asrUtterances: seq<ASRUtterance>,
    llmDrafts: seq<LLMDraft>,
    transcriptEdits: seq<TranscriptEdit>,
    structuredEdits: seq<StructuredEdit>,
    finalTranscript: seq<FinalUtterance>,
    finalStructuredState: State,
    finalClinicalReport: Option<string>,
    active: bool,
    lastTextTime: int,
    lastProcessedIndex: nat)

  /** Everything one consultation owns; other components update its fields in place. */
  class SessionState {
    const sessionId: string
    const sessionDate: string
    var rawTranscript: seq<RawUtterance>
    var asrUtterances: seq<ASRUtterance>
    var llmDrafts: seq<LLMDraft>
    var transcriptEdits: seq<TranscriptEdit>
    var structuredEdits: seq<StructuredEdit>
    var finalTranscript: seq<FinalUtterance>
    var finalStructuredState: State
    var finalClinicalReport: Option<string>
    var active: bool
    var lastTextTime: int
    var lastProcessedIndex: nat

    /** A fresh session: empty logs, active, nothing processed yet. */
    constructor (sessionId: string, sessionDate: string, finalStructuredState: State := map[])
      ensures this.sessionId == sessionId && this.sessionDate == sessionDate
      ensures rawTranscript == [] && asrUtterances == [] && llmDrafts == []
      ensures transcriptEdits == [] && structuredEdits == [] && finalTranscript == []
      ensures this.finalStructuredState == finalStructuredState
      ensures finalClinicalReport == None
      ensures active && lastTextTime == 0 && lastProcessedIndex == 0
    {
      this.sessionId := sessionId;
      this.sessionDate := sessionDate;
      rawTranscript := [];
      asrUtterances := [];
      llmDrafts := [];
      transcriptEdits := [];
      structuredEdits := [];
      finalTranscript := [];
      this.finalStructuredState := finalStructuredState;
      finalClinicalReport := None;
      active := true;
      lastTextTime := 0;
      lastProcessedIndex := 0;
    }

    /** Every field a handler may update, as one value. */
    function Snapshot(): SessionSnapshot
      reads this
    {
      SessionSnapshot(rawTranscript, asrUtterances, llmDrafts, transcriptEdits, structuredEdits, finalTranscript,
                      finalStructuredState, finalClinicalReport, active, lastTextTime, lastProcessedIndex)
    }
  }

  /** Without its third argument the constructor starts from an empty structured state. */
  method DefaultSessionState(sessionId: string, sessionDate: string) returns (s: SessionState)
    ensures fresh(s) && s.finalStructuredState == map[]
    ensures s.llmDrafts == [] && s.transcriptEdits == [] && s.structuredEdits == []
  {
    s := new SessionState(sessionId, sessionDate);
  }
}
