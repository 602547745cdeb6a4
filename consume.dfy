/**
 * `consume_evaluation`: decides what of an evaluation record may be shown:
 * the report, a preliminary extract of symptoms, or nothing.
 */
module Consume {
  import opened Wrappers
  import opened PyValue
  import opened Models
  import opened Trust
  import opened Evaluate

  const PartialMessage: string :=
    "Preliminary information extracted. Doctor review required for diagnosis and treatment."
  const BlockedMessage: string :=
    "Clinical report could not be generated automatically. Please consult a doctor."

  /** What `consume_evaluation` returns, or what its subscripts and `.get` raise. */
  function Consumed(evaluation: seq<Entry>): (r: Result<seq<Entry>, PyError>)
    ensures r.Err? ==> r.error in {KeyError, TypeError, AttributeError}
  {
    var decision := Lookup(evaluation, "trust_decision").GetOr(VNull);
    if decision == VStr("use_llm") then
      match Subscript(VDict(evaluation), "llm_output")
      case Err(e) => Err(e)
      case Ok(out) =>
        match Subscript(out, "clinical_report")
        case Err(e) => Err(e)
        case Ok(report) => Ok([Entry("status", VStr("ok")), Entry("clinical_report", report)])
    else if decision == VStr("partial_llm") then
      match Subscript(VDict(evaluation), "llm_output")
      case Err(e) => Err(e)
      case Ok(out) =>
        match GetOr(out, "symptoms", VList([]))
        case Err(e) => Err(e)
        case Ok(symptoms) =>
          Ok([ Entry("status", VStr("partial")),
               Entry("extracted_facts", VDict([Entry("symptoms", symptoms)])),
               Entry("message", VStr(PartialMessage)) ])
    else
      Ok([Entry("status", VStr("blocked")), Entry("message", VStr(BlockedMessage))])
  }

  // ----- properties -----

  /** The status names the decision: ok for `use_llm`, partial for `partial_llm`, blocked for anything else. */
  lemma ConsumedStatus(evaluation: seq<Entry>)
    requires Consumed(evaluation).Ok?
    ensures var decision := Lookup(evaluation, "trust_decision").GetOr(VNull);
      var status := Lookup(Consumed(evaluation).value, "status");
      && (status == Some(VStr("ok")) <==> decision == VStr("use_llm"))
      && (status == Some(VStr("partial")) <==> decision == VStr("partial_llm"))
      && (status == Some(VStr("blocked")) <==> decision !in {VStr("use_llm"), VStr("partial_llm")})
  {
  }

  /** `use_llm` shows exactly the output's report, and fails exactly when there is none to show. */
  lemma UseShowsReport(evaluation: seq<Entry>, out: Value)
    requires Lookup(evaluation, "trust_decision") == Some(VStr("use_llm"))
    requires Lookup(evaluation, "llm_output") == Some(out)
    ensures Consumed(evaluation).Ok? <==> out.VDict? && HasKey(out.entries, "clinical_report")
    ensures Consumed(evaluation).Ok? ==>
      Consumed(evaluation).value == [Entry("status", VStr("ok")), Entry("clinical_report", Lookup(out.entries, "clinical_report").value)]
  {
  }

  /** A partial result shows only the symptoms (default `[]`), never diagnosis, medications or advice. */
  lemma PartialShowsSymptoms(evaluation: seq<Entry>, out: seq<Entry>)
    requires Lookup(evaluation, "trust_decision") == Some(VStr("partial_llm"))
    requires Lookup(evaluation, "llm_output") == Some(VDict(out))
    ensures Consumed(evaluation).Ok?
    ensures Keys(Consumed(evaluation).value) == ["status", "extracted_facts", "message"]
    ensures var facts := Lookup(Consumed(evaluation).value, "extracted_facts");
      && facts == Some(VDict([Entry("symptoms", Lookup(out, "symptoms").GetOr(VList([])))]))
      && Keys(facts.value.entries) == ["symptoms"]
  {
  }

  /** Any other or missing decision is blocked with the fixed message and shows no model output. */
  lemma OtherBlocked(evaluation: seq<Entry>)
    requires Lookup(evaluation, "trust_decision").GetOr(VNull) !in {VStr("use_llm"), VStr("partial_llm")}
    ensures Consumed(evaluation) == Ok([Entry("status", VStr("blocked")), Entry("message", VStr(BlockedMessage))])
  {
  }

  // ----- the evaluate → consume pipeline -----

  /** A model result without "data" is never surfaced. */
  lemma RejectedBlocked(t: seq<TranscriptLine>, llmResult: seq<Entry>)
    requires !HasKey(llmResult, "data")
    ensures EvaluationRecord(t, llmResult).Ok?
    ensures Consumed(EvaluationRecord(t, llmResult).value) ==
      Ok([Entry("status", VStr("blocked")), Entry("message", VStr(BlockedMessage))])
  {
    RejectedIgnored(t, llmResult);
    OtherBlocked(EvaluationRecord(t, llmResult).value);
  }

  /**
   * A trusted record surfaces the report of the model's data, and the consumer
   * fails exactly when that data has no report.
   */
  lemma TrustedShowsReport(t: seq<TranscriptLine>, llmResult: seq<Entry>)
    requires EvaluationRecord(t, llmResult).Ok?
    requires Decided(t, Lookup(llmResult, "data").GetOr(VNull), Status(llmResult)).value.decision == UseLlm
    ensures var data := Lookup(llmResult, "data").GetOr(VNull);
      var c := Consumed(EvaluationRecord(t, llmResult).value);
      && (c.Ok? <==> data.VDict? && HasKey(data.entries, "clinical_report"))
      && (c.Ok? ==> c.value == [Entry("status", VStr("ok")), Entry("clinical_report", Lookup(data.entries, "clinical_report").value)])
  {
    var rec := EvaluationRecord(t, llmResult).value;
    RecordTrust(t, llmResult);
    StatusSpec(t, llmResult);
    UseShowsReport(rec, Lookup(llmResult, "data").GetOr(VNull));
  }

  /** A partially trusted record surfaces only the symptoms of the model's data. */
  lemma PartialShowsOnlySymptoms(t: seq<TranscriptLine>, llmResult: seq<Entry>, data: seq<Entry>)
    requires Lookup(llmResult, "data") == Some(VDict(data))
    requires HasSpeaker(t, "patient") && !HasSpeaker(t, "doctor")
    ensures EvaluationRecord(t, llmResult).Ok?
    ensures var c := Consumed(EvaluationRecord(t, llmResult).value);
      && c.Ok?
      && Keys(c.value) == ["status", "extracted_facts", "message"]
      && Lookup(c.value, "extracted_facts") == Some(VDict([Entry("symptoms", Lookup(data, "symptoms").GetOr(VList([])))]))
  {
    assert Status(llmResult) == "accepted";
    RecordTrust(t, llmResult);
    StatusSpec(t, llmResult);
    var rec := EvaluationRecord(t, llmResult).value;
    PartialShowsSymptoms(rec, data);
  }
}
