# AI scribe session core in Dafny

This project models the part of the AI scribe service that runs once speech
has been transcribed. One consultation is one session: transcript lines
arrive over a websocket and are appended to the session. A scheduler decides
when the language model may be asked to extract a structured clinical state,
and its reply is merged into the current state. Clinicians log corrections
against a live session. When the consultation stops, those corrections are
replayed over the transcript and the structured state, and the result feeds
the clinical report, the vector-store record, the training-set export and the
suggestions from similar past cases. A separate trust gate classifies a model
result as `use_llm`, `partial_llm` or `ignore_llm`, and a consumer decides
what of it may be shown.

Module layout, one module per source file:

- `SessionModels`: the records (`FinalUtterance`, `TranscriptEdit`,
  `StructuredEdit`, `LLMDraft`) and the mutable `SessionState` class. Its
  `Snapshot()` gathers the updatable fields into one value, so each
  handler can state exactly which fields it changes.
- `SessionRegistry`: the process-wide session table.
- `Edits`: the two correction handlers.
- `Websocket`: the base state, the replay of both edit logs, the scheduler
  gates, the silence watcher's decision and the utterance numbering.
- `WebsocketEndpoint`: the per-connection loop, written as a class whose
  methods update the session step by step.
- `Schema` and `Incremental`: the replace-or-keep merge and the utterance merge.
- `Speaker`: `apply_speaker_labels`.
- `Trust`, `Evaluate` and `Consume`: the trust gate pipeline.
- `ChromaStore`, `Suggestions` and `JsonlExport`: the normalisers, the
  document and metadata builders, the suggestion tally and the export record.
- `Gemini`: transcript formatting, fence stripping and result shaping.

Some helper modules carry the Python semantics the code relies on:

- `PyValue`: JSON-like values. A dict is an insertion-ordered list of entries.
  A lookup finds the first entry with the key. Assigning a key replaces its
  entry in place or appends a new one. `PyEq` is Python's `==` on these
  values: `True == 1`, lists and tuples compare element by element, and two
  dicts are equal when they have the same keys with equal values, in any
  order.
- `PyText`: `strip`, ASCII `lower`, `join`, `split`, substring `in`, and the
  decimal text of an `int`.
- `Wrappers`: `Option` and `Result`.

Every Python exception the modelled code can raise on malformed input is an
`Err` of a `Result`, so the error paths are modelled rather than excluded.
The code that calls these pieces is modelled too. Outside input enters as
parameters, each standing in for something the code does not compute itself:

- the language model's reply text, or the fact that the call raised;
- the outcome of `json.loads`, as a function from text to `Option<Value>`;
- the vector store's query result;
- clocks, as integer seconds;
- generated identifiers and timestamps.

The model follows the code where the code departs from its doc-comments or
from the intended design:

- The merge keeps only the five `REQUIRED_KEYS`. An update therefore drops
  `patient`, `investigations` and `tests` from the session state, although
  `normalize_structured_state` says it does not drop existing data, and the
  update prompt asks the model for those three sections. No
  demographic field is merged on its own.
- `merge_utterances_with_speakers` keeps a known previous utterance verbatim,
  speaker included. It also drops previous utterances that the candidate
  does not name.
- A structured `modify` edit replaces every dict entry with a matching
  `name`, not only the first.
- A successful update sets `last_processed_index` to the transcript length at
  commit time, not to the end of the batch it sent.
- The scheduler is invoked only by the silence watcher, which is gated, and
  by the stop, which is forced. A transcript event never triggers an update.
- `generate_system_suggestions` says it never raises. It does raise on
  metadata whose field is not a string, or on a query result of an
  unexpected shape. The model returns `Err` there.

## Model

| member | source | states |
|---|---|---|
| `SessionModels.SessionState.constructor` | app/core/session_models.py:40-56 | a fresh session has empty raw, recogniser and final transcripts, no drafts and no edits; it holds the given structured state, has no report, is active, and has `last_text_time` and `last_processed_index` at 0; its id and date are fixed for its lifetime |
| `SessionModels.DefaultSessionState` | app/core/session_models.py:45-51 | without a third argument the structured state starts as `{}`; the draft and edit logs start empty in a new object |
| `SessionModels.NewLLMDraft` | app/core/session_models.py:31-38 | a draft built without `accepted` is not accepted, and keeps every given field |
| `SessionRegistry.Registry.constructor` | app/storage/session_registry.py:4 | the table starts empty |
| `SessionRegistry.Registry.Register` | app/storage/session_registry.py:6-7 | the session is stored under its id, replacing any earlier one; other ids are untouched |
| `SessionRegistry.Registry.Get` | app/storage/session_registry.py:9-10 | returns the registered session exactly when the id is present, else `KeyError` |
| `SessionRegistry.Registry.Remove` | app/storage/session_registry.py:12-13 | the id is gone afterwards and no error is raised; every other entry is unchanged |
| `SessionRegistry.RegistryLifecycle` | app/storage/session_registry.py:6-13 | register, re-register under the same id, then remove twice: the id is gone at the end and every other session survives; in between, each `get` returns the latest session, then `KeyError` |
| `Edits.Stamp` | app/api/edits.py:36 | a non-empty `edited_at` is kept, an empty one becomes the current time |
| `Edits.LoggedTranscriptEdit` | app/api/edits.py:29-37 | the logged edit equals the submitted one in every field but `edited_at` |
| `Edits.LoggedStructuredEdit` | app/api/edits.py:59-66 | the logged edit equals the submitted one in every field but `edited_at` |
| `Edits.AddTranscriptEdit` | app/api/edits.py:17-40 | an unknown session gives 404 "Session not found" and changes nothing; otherwise the edit is appended last to `transcript_edits`, `structured_edits` is unchanged, and the body is `{"status": "ok"}` |
| `Edits.AddStructuredEdit` | app/api/edits.py:47-69 | an unknown session gives 404 and changes nothing; otherwise the edit is appended last to `structured_edits`, `transcript_edits` is unchanged, and the body is `{"status": "ok"}` |
| `Websocket.EmptyPatientShape` | app/api/websocket.py:69 | the starting patient has exactly the keys name, age, gender, all null |
| `Websocket.BaseStructuredStateShape` | app/api/websocket.py:67-77 | the base state has that patient and the seven list sections, each an empty list |
| `Websocket.BaseStructuredStateKeys` | app/api/websocket.py:67-77 | the base state has no other key than patient and the seven sections |
| `Websocket.ReplayLastWins` | app/api/websocket.py:90-108 | replaying the log over an utterance keeps its id and timestamp; its text is the last `text` edit for that id and its speaker the last `speaker` edit; other fields and other ids are ignored |
| `Websocket.ByIdDistinct` | app/api/websocket.py:87 | with distinct ids, each utterance is its own entry of the id table |
| `Websocket.ApplyTranscriptEdits` | app/api/websocket.py:83-110 | same length, order and ids as the input; each entry is the replayed last utterance with that id, and with distinct ids the replay of the utterance itself |
| `Websocket.EditStep` | app/api/websocket.py:119-133 | one edit never adds or removes a key and touches no other section; an edit naming an absent section changes nothing; `remove` and `modify` compare with Python `==` |
| `Websocket.ReplayStructuredFails` | app/api/websocket.py:119-133 | the replay stops at the first edit that raises, with its error |
| `Websocket.ModifySection` | app/api/websocket.py:130-133 | on a list, every matching entry is replaced in place; on a tuple, a match raises `TypeError` and no match leaves it unchanged |
| `Websocket.ApplyStructuredEdits` | app/api/websocket.py:113-135 | the result is the ordered replay of the log over a copy of the state, or its first error, with `remove` computed by `RemoveSection` under Python `==`; the input is a value and is not changed |
| `Websocket.ReplayStructuredKeys` | app/api/websocket.py:117-122 | a successful replay has the same key set as the input state |
| `Websocket.ReplayStructuredKeepsLists` | app/api/websocket.py:124-133 | sections that held lists still hold lists after any replay |
| `Websocket.ReplayStructuredAbsent` | app/api/websocket.py:120-122 | edits that all name absent sections leave the state unchanged |
| `Websocket.AddTwice` | app/api/websocket.py:124-125 | adding the same value twice appends two entries at the end |
| `Websocket.RemoveAllCounts` | app/api/websocket.py:127-128 | after `remove` no survivor is `==` to the value in Python's sense (dicts regardless of key order, `True` equal to `1`); every value so equal is gone and every other value occurs as often as before |
| `Websocket.RemoveIgnoresKeyOrder` | app/api/websocket.py:127-128 | removing `{"duration": "2d", "name": "fever"}` deletes a stored `{"name": "fever", "duration": "2d"}`: key order does not matter |
| `Websocket.RemoveSection` | app/api/websocket.py:128 | the list comprehension computes `RemoveAll`, keeping the entries not `==` to the value, in order |
| `PyValue.PyEqRefl` | app/api/websocket.py:128 | Python `==` is reflexive on these values, so a value always matches itself |
| `Websocket.RemoveAllAppend` | app/api/websocket.py:128 | `remove` keeps survivors in order: it distributes over concatenation |
| `Websocket.RemoveAllIdempotent` | app/api/websocket.py:128 | removing twice equals removing once |
| `Websocket.ModifyByNameSpec` | app/api/websocket.py:130-133 | every dict whose name is `==` (in Python's sense) to the edit's name is replaced, not only the first; non-dicts and non-matching entries keep their place; modifying again changes nothing |
| `Websocket.ShouldRunUpdateSpec` | app/api/websocket.py:171-179 | an update runs iff the batch is non-empty and either `force` is set or the batch has at least 3 utterances and at least 20 s have passed; `force` bypasses all but the empty check |
| `Websocket.SilenceDecide` | app/api/websocket.py:226-236 | the watcher stops iff inactive, and fires iff active, silent for at least 12 s and with unprocessed utterances, handing on the suffix from `last_processed_index` |
| `Websocket.UtteranceDictsNumbered` | app/api/websocket.py:306-314 | entry i carries index i+1 and the utterance's own speaker, text and timestamp |
| `WebsocketEndpoint.BaseIsUpdatable` | app/api/websocket.py:151-156 | the state a session starts from has every required section, and its utterances are a list |
| `WebsocketEndpoint.Ids` | app/api/websocket.py:207 | the draft records the batch's utterance ids in order |
| `WebsocketEndpoint.Endpoint.constructor` | app/api/websocket.py:147-158 | a fresh active session on the base state is registered under its id, with no update done yet and the silence watcher running |
| `WebsocketEndpoint.Endpoint.OnTranscript` | app/api/websocket.py:253-270 | the utterance is appended to the raw, recogniser and final transcripts with speaker "unknown", and the silence clock is restarted; every other session field, the edit logs and the report included, is unchanged |
| `WebsocketEndpoint.Endpoint.RunIncrementalUpdate` | app/api/websocket.py:165-216 | a gated-out call changes nothing; a failed update changes nothing and yields its error, and a raised model call yields `Raised` with its text; a committed one appends exactly one draft, replaces the state by the update's result, sets `last_processed_index` to the transcript length and refreshes the update time; no other session field ever changes |
| `WebsocketEndpoint.Endpoint.Commit` | app/api/websocket.py:212-216 | the four commit assignments; every other session field is unchanged |
| `WebsocketEndpoint.Endpoint.SilenceTick` | app/api/websocket.py:222-238 | while the watcher runs, the tick's decision is `SilenceDecide`'s, and nothing changes unless it fires; when it fires, the unforced gates decide whether to skip; unless the update commits, the state, drafts, processed index and update time are unchanged; a commit's draft records exactly the unprocessed suffix and the update time becomes the commit's; the watcher ends when it stops or when an update it fired raises, and every later tick does nothing; no session field other than the state, drafts and processed index ever changes |
| `WebsocketEndpoint.Endpoint.Deactivate` | app/api/websocket.py:283-293 | the session becomes inactive and the silence watcher ends; the unprocessed utterances, if any, get a forced update, so one is attempted exactly when some remain, and it fails exactly when `Updated` raises; a failure changes nothing else, and a commit appends the draft of exactly the unprocessed suffix and refreshes the update time; apart from `active`, no other session field changes |
| `WebsocketEndpoint.Endpoint.FinalizeEdits` | app/api/websocket.py:295-317 | the transcript is replaced by its edited version; the state is the structured replay with `utterances` rebuilt from the edited transcript, numbered from 1; only the transcript and the state change, and a failing edit changes no session field |
| `WebsocketEndpoint.Endpoint.Store` | app/api/websocket.py:316-317 | the two final assignments; every other session field is unchanged |
| `WebsocketEndpoint.BuildOutputs` | app/api/websocket.py:319-377 | the report text, the document, the metadata, the export record and the suggestions are all those of the given state; the report lookup never raises, so an error occurs exactly when the suggestions raise, and it is theirs |
| `WebsocketEndpoint.Endpoint.Publish` | app/api/websocket.py:319-388 | the outputs are built from the final state, and the session is unregistered only if none raised; an error occurs exactly when the suggestions raise |
| `WebsocketEndpoint.ReportLookupNeverRaises` | app/api/websocket.py:327 | `llm_result.get("data", {}).get("clinical_report", "")` cannot raise on anything the report call returns, since its `data` is always a dict |
| `WebsocketEndpoint.Endpoint.Finish` | app/api/websocket.py:295-388 | the stored transcript is the edited transcript and the stored state is `FinalState` of the edits over it; a failing structured edit is the result's error and changes nothing; otherwise the result fails exactly when the suggestions on that state raise; outputs are built from the edited state and the session is unregistered; any error leaves it registered; only the transcript and the state change |
| `WebsocketEndpoint.Endpoint.Stop` | app/api/websocket.py:283-389 | a stop deactivates and ends the silence watcher, and flushes the unprocessed utterances with a forced update; a raising flush is the result's error, as is a failing structured edit on the flushed state; on success the stored state is `FinalState` of the edits over the flushed state and the edited transcript; the session is unregistered only on success; apart from `active`, only the drafts, processed index, transcript and state change |
| `WebsocketEndpoint.Endpoint.Disconnect` | app/api/websocket.py:391-395 | a dropped connection deactivates and unregisters the session and ends the silence watcher; apart from `active`, no session field changes, and the update time is kept |
| `Schema.CandidateList` | app/pipeline/schema.py:28 | on a dict, it gives the key's value when that is a list and nothing otherwise; a non-dict candidate raises only `TypeError` |
| `Schema.Normalized` | app/pipeline/schema.py:14-34 | the result's key set is exactly `REQUIRED_KEYS`; each section is a list or the previous value; a dict candidate never raises |
| `Schema.NormalizeStructuredState` | app/pipeline/schema.py:25-34 | the loop over `REQUIRED_KEYS` computes `Normalized` |
| `Schema.ReplaceOrKeep` | app/pipeline/schema.py:27-32 | a list value of the candidate replaces its section wholesale; a missing or non-list value keeps the previous one |
| `Schema.NormalizedKeepsLists` | app/pipeline/schema.py:19-32 | if previous holds lists in every required section, so does the result |
| `Schema.NormalizedIdempotent` | app/pipeline/schema.py:27-32 | normalizing again, against any previous state, with the result's own sections gives the result back |
| `Schema.IndexKey` | app/pipeline/schema.py:44 | `u["index"]` succeeds only with a hashable index the dict holds; it fails with a lookup error |
| `Schema.ByIndex` | app/pipeline/schema.py:44 | every previous utterance's index is a key; an error is that of some utterance |
| `Schema.ByIndexLast` | app/pipeline/schema.py:44 | for duplicated indices the table keeps the last previous utterance |
| `Schema.CandidateIndex` | app/pipeline/schema.py:49 | `u.get("index")` succeeds only on a dict, with a hashable value |
| `Schema.MergedPrefix` | app/pipeline/schema.py:46-57 | one merged entry per candidate entry, each the merge of that entry |
| `Schema.Merged` | app/pipeline/schema.py:36-57 | the result has one entry per candidate entry, and only lookup errors can occur |
| `Schema.MergeUtterancesWithSpeakers` | app/pipeline/schema.py:36-57 | the loop computes `Merged` and stops at the first entry that raises |
| `Schema.MergedPrefixFails` | app/pipeline/schema.py:48-55 | the merge raises the error of the first candidate entry that raises |
| `Schema.MergedEntries` | app/pipeline/schema.py:48-55 | each merged entry is the candidate's own, or the last previous utterance with that index, kept verbatim with its speaker |
| `Schema.MergedDrops` | app/pipeline/schema.py:44-57 | a previous utterance whose index no candidate entry carries is absent from the result |
| `Incremental.LlmContextSpec` | app/llm/incremental.py:20-28 | the context has exactly the seven keys patient through tests, in order, never utterances, each defaulting to `{}` or `[]` |
| `Incremental.UtteranceTexts` | app/llm/incremental.py:30-34 | at most one text per utterance, exactly one each when all have a text |
| `Incremental.TextsOfPresent` | app/llm/incremental.py:30-34 | when every utterance has a text, the list is those texts in input order |
| `Incremental.UtteranceTextsOfBatch` | app/llm/incremental.py:30-34 | for the batch the socket sends, the list is every utterance's text in order |
| `Incremental.Merge` | app/llm/incremental.py:155-165 | the merged state has exactly the required keys, with a list of utterances |
| `Incremental.Updated` | app/llm/incremental.py:137-165 | a raised model call propagates as `Raised`; a blank reply raises `ValueError("empty_llm_response")`; success needs a reply and has exactly the required keys |
| `Incremental.UpdateStructuredState` | app/llm/incremental.py:137-165 | the call's exception, strip, empty check, fence strip, parse, normalize, then merge of the utterances compute `Updated` |
| `Incremental.UpdatedErrors` | app/llm/incremental.py:137-153 | a `Raised` error occurs iff the model call raised; the empty-reply error occurs iff the reply is blank, and it is the only `ValueError`; a refused parse propagates as the parser's error |
| `Incremental.UpdatedDropsOtherSections` | app/llm/incremental.py:155-165 | a successful update carries no patient, investigations or tests, since none of them is in `REQUIRED_KEYS` |
| `Incremental.UpdatedKeepsLists` | app/llm/incremental.py:155-165 | starting from list sections, the updated state holds only lists |
| `Incremental.UpdatedUtterances` | app/llm/incremental.py:160-163 | every updated utterance is the normalized candidate's entry at that position or a previous utterance, verbatim |
| `Speaker.Indexed` | app/llm/speaker.py:59 | the index's keys and positions agree and lie within the list |
| `Speaker.IndexedPositions` | app/llm/speaker.py:59 | every position held carries its key |
| `Speaker.IndexedLast` | app/llm/speaker.py:59 | every utterance's index is a key, held at a position no earlier than the utterance's own |
| `Speaker.IndexedDistinct` | app/llm/speaker.py:59 | the key order lists each index once |
| `Speaker.IndexedFirstAppearance` | app/llm/speaker.py:59 | keys come in the order their index first appears |
| `Speaker.BuildIndex` | app/llm/speaker.py:59 | the comprehension computes `Indexed`, or the first lookup error |
| `Speaker.LabelStep` | app/llm/speaker.py:62-64 | one label keeps the list length; an unknown index changes nothing |
| `Speaker.Labels` | app/llm/speaker.py:61-64 | the labels never change the number of utterances |
| `Speaker.WriteLabels` | app/llm/speaker.py:61-64 | the loop computes `Labels`, or the first error |
| `Speaker.ApplySpeakerLabels` | app/llm/speaker.py:58-66 | computes both the returned list and the caller's list as the writes leave it |
| `Speaker.LabelsSpec` | app/llm/speaker.py:61-64 | a matched dict ends with the speaker of the last label for its index, or unchanged without one; unmatched dicts are never written |
| `Speaker.SetSpeakerOthers` | app/llm/speaker.py:64 | only the `speaker` key changes; every other key keeps its value |
| `Speaker.SetSpeakerTwice` | app/llm/speaker.py:64 | a second write of the speaker supersedes the first |
| `Speaker.SpeakerLabelsSpec` | app/llm/speaker.py:58-66 | one result entry per distinct index, each the last dict with that index as the writes leave the caller's list, which keeps its length |
| `Trust.TierName` | app/pipeline/trust.py:14 | every decision is exactly one of use_llm, partial_llm, ignore_llm |
| `Trust.Grounded` | app/pipeline/trust.py:64 | `s["name"].lower() in patient_text` can raise only `KeyError`, `TypeError` or `AttributeError` |
| `Trust.AllGroundedFails` | app/pipeline/trust.py:63-68 | the loop's result is that of the first symptom not grounded |
| `Trust.CheckSymptoms` | app/pipeline/trust.py:63-68 | the early-exit loop computes `AllGrounded` |
| `Trust.AllGroundedTrue` | app/pipeline/trust.py:63-68 | the loop passes iff every symptom's lower-cased name is a substring of the patient text |
| `Trust.AllGroundedFalse` | app/pipeline/trust.py:63-68 | the loop fails iff some symptom is the first ungrounded one |
| `Trust.PatientTextsOnly` | app/pipeline/trust.py:59-61 | a line not spoken by the patient adds nothing to the patient texts |
| `Trust.PatientTextOnly` | app/pipeline/trust.py:59-61 | doctor text never enters `patient_text` |
| `Trust.Decided` | app/pipeline/trust.py:5-76 | every decision carries a reason; `use_llm` needs an accepted output and both speakers, with reasons from `llm_output_accepted` to `symptoms_grounded`; `partial_llm` arises only when the patient spoke and the doctor did not |
| `Trust.DecideTrust` | app/pipeline/trust.py:5-76 | the appends and the early-exit loop compute `Decided` |
| `Trust.NotAccepted` | app/pipeline/trust.py:21-25 | any status but "accepted" gives ignore_llm with `["llm_not_accepted"]` whatever the transcript |
| `Trust.DecidedSpec` | app/pipeline/trust.py:21-48 | no patient gives ignore_llm with `no_patient_speech`; a patient without a doctor gives partial_llm with three fixed reasons, without checking symptoms; errors arise only with both roles present |
| `Trust.GroundingDecides` | app/pipeline/trust.py:59-76 | with both roles present, `symptom_not_grounded` iff some symptom is ungrounded, and use_llm iff all are |
| `Trust.UseReasons` | app/pipeline/trust.py:50-76 | use_llm's reasons are llm_output_accepted, doctor_present, medications_grounded iff medications is non-empty, then symptoms_grounded |
| `Trust.NoSymptomsUse` | app/pipeline/trust.py:63-76 | an empty or missing symptom list gives use_llm |
| `Evaluate.EvaluationRecord` | app/pipeline/evaluate.py:5-25 | the record has exactly the seven keys in order, and can fail only when the result has "data" |
| `Evaluate.Record` | app/pipeline/evaluate.py:17-25 | the record literal has the seven keys in order |
| `Evaluate.RecordLookups` | app/pipeline/evaluate.py:17-25 | each key of the record holds the value it was built from, and notes is `[]` |
| `Evaluate.StatusSpec` | app/pipeline/evaluate.py:6-21 | status is "accepted" iff the result has "data", else "rejected"; the error is None when accepted, else the result's `error` |
| `Evaluate.RecordTrust` | app/pipeline/evaluate.py:11-24 | decision and reasons are exactly those of `decide_trust`; the transcript is echoed and notes is empty |
| `Evaluate.RejectedIgnored` | app/pipeline/evaluate.py:6-23 | a result without "data" gives ignore_llm with `llm_not_accepted` |
| `Consume.Consumed` | app/pipeline/consume.py:4-35 | the only errors are `KeyError`, `TypeError` and `AttributeError`, from a missing key or a non-dict output |
| `Consume.ConsumedStatus` | app/pipeline/consume.py:9-35 | status ok iff use_llm, partial iff partial_llm, blocked for any other or missing decision |
| `Consume.UseShowsReport` | app/pipeline/consume.py:11-15 | use_llm shows exactly the output's `clinical_report`, and fails iff there is none |
| `Consume.PartialShowsSymptoms` | app/pipeline/consume.py:17-27 | on a dict output, partial never fails and shows only status, message and `extracted_facts`, which holds just the output's `symptoms`, defaulting to `[]`; diagnosis, medications and advice are never shown |
| `Consume.OtherBlocked` | app/pipeline/consume.py:29-35 | any other decision gives blocked with the fixed message and no model output |
| `Consume.RejectedBlocked` | app/pipeline/consume.py:29-35 | a model result without "data" is blocked after evaluation |
| `Consume.TrustedShowsReport` | app/pipeline/consume.py:11-15 | a trusted evaluation surfaces its data's report |
| `Consume.PartialShowsOnlySymptoms` | app/pipeline/consume.py:17-27 | a patient-only transcript surfaces only the data's symptoms |
| `ChromaStore.FirstTruthy` | app/vectorstore/chroma_store.py:41-44 | the value of the first of name/value/label, in that order, with a truthy value: every earlier key is absent or falsy; nothing iff none has one |
| `ChromaStore.PreferredString` | app/vectorstore/chroma_store.py:39-48 | a dict gives one string: its first truthy name/value/label, else `str(dict)` |
| `ChromaStore.NormalizeToStrings` | app/vectorstore/chroma_store.py:22-52 | None gives `[]`; lists and tuples give the in-order concatenation; a dict gives one string; a scalar gives `[str(v)]` |
| `ChromaStore.AddSection` | app/vectorstore/chroma_store.py:63-85 | a section is appended iff its join is non-empty |
| `ChromaStore.BuildDocument` | app/vectorstore/chroma_store.py:60-91 | the non-empty sections in the fixed order Diagnosis, Medications, Tests advised, Symptoms, Investigations, Advice, joined by ". ", or the fallback |
| `ChromaStore.BuildMetadata` | app/vectorstore/chroma_store.py:93-107 | diagnosis and tests when non-empty, then the source tag |
| `ChromaStore.JoinEmpty` | app/vectorstore/chroma_store.py:58 | a join is empty iff there are no parts or a single empty one |
| `ChromaStore.SafeJoinEmpty` | app/vectorstore/chroma_store.py:55-58 | `_safe_join` is "" iff no part is non-blank |
| `ChromaStore.DocumentSpec` | app/vectorstore/chroma_store.py:60-91 | the document is never empty, and is the fallback iff all six joins are empty |
| `ChromaStore.MetadataKeys` | app/vectorstore/chroma_store.py:93-107 | the keys are diagnosis and tests exactly when non-empty, then source |
| `ChromaStore.MetadataLookups` | app/vectorstore/chroma_store.py:93-107 | source is always "ai_scribe_v1"; each join is stored exactly when non-empty |
| `Suggestions.NormalizeList` | app/vectorstore/suggestions.py:12-36 | None gives `[]`; a list gives the in-order concatenation; a dict gives one string; anything else, a tuple included, gives `[str(v)]` |
| `Suggestions.NormalizersAgree` | app/vectorstore/suggestions.py:12-36 | without tuples the two normalisers agree |
| `Suggestions.TupleDiffers` | app/vectorstore/suggestions.py:22-35 | a tuple is one scalar here but flattened by the vector store's normaliser |
| `Suggestions.ItemListStringsConcat` | app/vectorstore/suggestions.py:22-25 | the list case distributes over concatenation |
| `Suggestions.BuildQueryText` | app/vectorstore/suggestions.py:39-56 | the appends compute the "Symptoms: …" and "Investigations: …" parts joined by ". " |
| `Suggestions.QueryTextSpec` | app/vectorstore/suggestions.py:39-56 | the query is "" iff both lists normalise to nothing, and a blank query is the empty one |
| `Suggestions.Pieces` | app/vectorstore/suggestions.py:115 | no counted piece is blank |
| `Suggestions.TalliedFails` | app/vectorstore/suggestions.py:109-126 | the tally raises the error of the first metadata entry that raises |
| `Suggestions.TallyMetadata` | app/vectorstore/suggestions.py:96-126 | the loop over the metadata updates the three counters as `Tallied` |
| `Suggestions.SkipNonDict` | app/vectorstore/suggestions.py:110-111 | a non-dict metadata entry counts nothing |
| `Suggestions.BumpCount` | app/vectorstore/suggestions.py:114-116 | counting a name adds one to it and leaves other names |
| `Suggestions.UpdateCount` | app/vectorstore/suggestions.py:113-126 | `update` adds each name's number of occurrences |
| `Suggestions.TalliedPositive` | app/vectorstore/suggestions.py:109-126 | every count in the three counters is at least 1 |
| `Suggestions.ArgMaxSpec` | app/vectorstore/suggestions.py:132 | the chosen entry has the highest count, the first such one |
| `Suggestions.TopPartition` | app/vectorstore/suggestions.py:132 | `most_common(n)` and the entries it leaves out make up the counter |
| `Suggestions.TopSize` | app/vectorstore/suggestions.py:132 | `most_common(n)` keeps n entries, or all when fewer |
| `Suggestions.TopMembers` | app/vectorstore/suggestions.py:132 | kept and left-out entries are the counter's own |
| `Suggestions.TopSorted` | app/vectorstore/suggestions.py:132 | kept entries have non-increasing counts |
| `Suggestions.TopDominates` | app/vectorstore/suggestions.py:132 | no left-out entry counts more than a kept one |
| `Suggestions.TopKept` | app/vectorstore/suggestions.py:130-141 | with positive counts: at most n entries, each at least 1, non-increasing |
| `Suggestions.Suggested` | app/vectorstore/suggestions.py:63-142 | anything but the zero suggestion, an error included, needs a non-blank query that returned results; non-zero suggestions need truthy `metadatas` |
| `Suggestions.GenerateSystemSuggestions` | app/vectorstore/suggestions.py:63-142 | the early returns, the tally and top 3 compute `Suggested` |
| `Suggestions.SuggestedSpec` | app/vectorstore/suggestions.py:128-142 | each list has at most 3 entries, counts at least 1, non-increasing |
| `Suggestions.ZeroCases` | app/vectorstore/suggestions.py:71-107 | a blank query, no query result, an empty result dict, an empty `metadatas` or an empty first metadata list gives the zero result |
| `Suggestions.CountedCases` | app/vectorstore/suggestions.py:129 | `based_on_cases` is the length of the first metadata list |
| `Suggestions.BasedOnCases` | app/vectorstore/suggestions.py:129 | `based_on_cases` counts every metadata entry, non-dict ones included |
| `Suggestions.SafeJoinPieces` | app/vectorstore/suggestions.py:113-126 | splitting a stored `_safe_join` on "," and stripping gives back the stripped non-blank parts when no part holds a comma |
| `JsonlExport.ExportSession` | app/datasets/jsonl_export.py:32-54 | the record built is the literal with every section normalised |
| `JsonlExport.RecordShape` | app/datasets/jsonl_export.py:37-54 | keys in order; schema_version "v1", meta.source "ai_scribe_v1", the given session id and language |
| `JsonlExport.DefaultLanguage` | app/datasets/jsonl_export.py:35 | without a language the record says "hi" |
| `JsonlExport.InputSections` | app/datasets/jsonl_export.py:41-44 | input holds exactly symptoms and investigations, normalised |
| `JsonlExport.OutputSections` | app/datasets/jsonl_export.py:45-50 | output holds exactly diagnosis, tests, medications, advice, normalised |
| `JsonlExport.MissingSectionEmpty` | app/datasets/jsonl_export.py:14-15 | a section missing from the state is written as `[]` |
| `JsonlExport.StringsKept` | app/datasets/jsonl_export.py:13-29 | a list of strings normalises to itself |
| `JsonlExport.SectionIdempotent` | app/datasets/jsonl_export.py:13-29 | normalising a written section again changes nothing |
| `Gemini.FormatTranscript` | app/llm/gemini.py:12-16 | line i is "i. text", 1-based, joined by newlines; an empty transcript gives "" |
| `Gemini.FormattedLines` | app/llm/gemini.py:12-16 | splitting the formatted text on newlines gives the numbered lines back when no text holds a newline |
| `Gemini.StripFence` | app/llm/gemini.py:100-103 | unchanged unless it starts with three backticks; then backticks are stripped from both ends, and a leading "json", in any case, is dropped and the rest stripped |
| `Gemini.StripFenceBlock` | app/llm/gemini.py:100-103 | a fenced json block gives back its body |
| `Gemini.ReplyTextFenced` | app/llm/gemini.py:97-103 | the whole reply handling gives back a fenced body |
| `Gemini.ShapedSpec` | app/llm/gemini.py:105-124 | a failed parse gives `invalid_json` with the raw text; a non-dict `invalid_schema`; data iff a dict, with `clinical_report` for the report; exactly one of error and data |
| `Gemini.CallFailedSpec` | app/llm/gemini.py:89-95 | a raised call gives `llm_call_failed` with its details and prompt version |
| `Gemini.NormalizeWithGemini` | app/llm/gemini.py:19-124 | the result is well shaped, and its `data`, when present, is the reply's parse and a dict |
| `Gemini.GenerateReportFromState` | app/llm/gemini.py:126-197 | the result is well shaped, and its `data`, when present, is the reply's parse, a dict with a `clinical_report` |
| `Gemini.ResultShapes` | app/llm/gemini.py:162-197 | both entry points return exactly one of error or data; a raised call gives `llm_call_failed` with its details and prompt version legacy_v1 or report_v1; there is data iff the reply parses to a dict, and for the report iff that dict also has `clinical_report` |

## Left out

- Concurrency is not modelled. That covers the asyncio locks, the
  `llm_lock` single-flight region, tasks, `silence_task.cancel()` and
  `run_in_executor`. The model runs each handler to completion, one after
  another. The gates in `run_incremental_update` run before `llm_lock` is
  taken, so a second caller that passes them queues behind the first rather
  than being skipped. That ordering is not verified.
- Because runs are sequential, the transcript cannot grow while an update
  is in flight. The effect of `last_processed_index = len(final_transcript)`
  then goes unseen: utterances appended during a call would be marked
  processed without having been sent.
- Clocks are integer seconds passed in. `time.time()`, `time.monotonic()`
  and the one-second sleep of the watcher loop are not modelled.
- The language-model calls are not modelled. The outcome of
  `generate_content` in the incremental update is a `Gemini.CallOutcome`
  parameter: the reply text, or the exception it raised. `assign_speakers`
  is not modelled either; its result is the `labels` parameter of
  `Speaker.ApplySpeakerLabels`. The prompt texts are left out.
  app/llm/patient.py is not part of this model.
- `json.loads` and `json.dumps` are not modelled. The parse outcome is a
  parameter.
- Persistence is not modelled: the session store writers, the PDF report,
  the Chroma client and `store_consultation`'s add, and the JSONL file
  append. The query in `generate_system_suggestions` is a parameter.
- The outbound websocket messages and the speech recogniser's event stream
  are not modelled. Each event kind is a method of `Endpoint`.
- `Str`/`Repr` (Python's `str()`) quote strings with single quotes and do not
  escape them. `Lower` folds ASCII letters only, where Python folds all of
  Unicode. Floats are not values here. JSON numbers are integers, and
  `ASRUtterance.confidence` is a real.
- `Speaker.ApplySpeakerLabels`: the in-place writes to the caller's dicts
  are modelled by returning the caller's list as the writes leave it. Each
  shared dict is named by its position. Aliasing between distinct
  positions of the input is not modelled.
- The index tables of `Speaker` and `Schema` compare their keys
  structurally, while a Python dict treats `True` and `1` as one key.
  Utterance indices are integers, so this only matters for malformed
  replies.
- `Schema.Normalized`: Python iterates `REQUIRED_KEYS` as a set in
  unspecified order. The model states that some section's test raises, not
  which one raises first.
- `WebsocketEndpoint.Endpoint.FinalizeEdits` writes the new transcript and
  state only when the whole edit replay succeeds. In the code, an exception
  mid-replay also leaves both untouched, so these agree.
