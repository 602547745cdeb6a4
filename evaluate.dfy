/**
 * `build_evaluation_record`: runs the trust gate on a model result and
 * records the transcript, the call's status and the decision in one dict.
 */
module Evaluate {
  import opened Wrappers
  import opened PyValue
  import opened Models
  import opened Trust

  const RecordKeys: seq<string> :=
    ["raw_transcript", "llm_status", "llm_error", "llm_output", "trust_decision", "trust_reasons", "notes"]

  /** `"accepted" if "data" in llm_result else "rejected"`. */
  function Status(llmResult: seq<Entry>): string {
    if HasKey(llmResult, "data") then "accepted" else "rejected"
  }

  lemma ReasonsOne(reason: string)
    ensures StrList([reason]) == VList([VStr(reason)])
  {
    assert StrList([reason]).items == [VStr(reason)];
  }

  /** The record `build_evaluation_record` returns, or what `decide_trust` raises. */
  function EvaluationRecord(t: seq<TranscriptLine>, llmResult: seq<Entry>): (r: Result<seq<Entry>, PyError>)
    ensures r.Ok? ==> Keys(r.value) == RecordKeys
    ensures r.Ok? || HasKey(llmResult, "data")
  {
    var status := Status(llmResult);
    var output := Lookup(llmResult, "data").GetOr(VNull);
    match Decided(t, output, status)
    case Err(e) => Err(e)
    case Ok(trust) =>
      var error := if status == "accepted" then VNull else Lookup(llmResult, "error").GetOr(VNull);
      Ok(Record(t, status, error, output, trust))
  }

  /** The record's dict literal. */
  function Record(t: seq<TranscriptLine>, status: string, error: Value, output: Value, trust: Trust): (r: seq<Entry>)
    ensures Keys(r) == RecordKeys
  {
    Literal(TranscriptValue(t), VStr(status), error, output, VStr(TierName(trust.decision)), StrList(trust.reasons))
  }

  /** The record's literal over arbitrary values. */
  function Literal(a: Value, b: Value, c: Value, d: Value, e: Value, f: Value): seq<Entry> {
    [ Entry("raw_transcript", a), Entry("llm_status", b), Entry("llm_error", c), Entry("llm_output", d),
      Entry("trust_decision", e), Entry("trust_reasons", f), Entry("notes", VList([])) ]
  }

  /** Each key of the record holds the value it was built with. */
  lemma RecordLookups(t: seq<TranscriptLine>, status: string, error: Value, output: Value, trust: Trust)
    ensures var r := Record(t, status, error, output, trust);
      && Lookup(r, "raw_transcript") == Some(TranscriptValue(t))
      && Lookup(r, "llm_status") == Some(VStr(status))
      && Lookup(r, "llm_error") == Some(error)
      && Lookup(r, "llm_output") == Some(output)
      && Lookup(r, "trust_decision") == Some(VStr(TierName(trust.decision)))
      && Lookup(r, "trust_reasons") == Some(StrList(trust.reasons))
      && Lookup(r, "notes") == Some(VList([]))
  {
    var r := Record(t, status, error, output, trust);
    LookupDistinct(r);
    assert r[0].key == "raw_transcript" && r[1].key == "llm_status" && r[2].key == "llm_error";
    assert r[3].key == "llm_output" && r[4].key == "trust_decision" && r[5].key == "trust_reasons" && r[6].key == "notes";
  }

  // ----- properties -----

  /** The status is "accepted" exactly when the result carries "data"; the error is echoed only otherwise. */
  lemma StatusSpec(t: seq<TranscriptLine>, llmResult: seq<Entry>)
    requires EvaluationRecord(t, llmResult).Ok?
    ensures var rec := EvaluationRecord(t, llmResult).value;
      && (Lookup(rec, "llm_status") == Some(VStr("accepted")) <==> HasKey(llmResult, "data"))
      && (Lookup(rec, "llm_status") == Some(VStr("rejected")) <==> !HasKey(llmResult, "data"))
      && Lookup(rec, "llm_error") ==
           Some(if HasKey(llmResult, "data") then VNull else Lookup(llmResult, "error").GetOr(VNull))
      && Lookup(rec, "llm_output") == Some(Lookup(llmResult, "data").GetOr(VNull))
  {
    var status := Status(llmResult);
    var output := Lookup(llmResult, "data").GetOr(VNull);
    var d := Decided(t, output, status);
    if d.Ok? {
      var error := if status == "accepted" then VNull else Lookup(llmResult, "error").GetOr(VNull);
      RecordLookups(t, status, error, output, d.value);
    }
  }

  /**
   * The decision and reasons are those of `decide_trust` on the same inputs,
   * the transcript is echoed and the notes are empty.
   */
  lemma RecordTrust(t: seq<TranscriptLine>, llmResult: seq<Entry>)
    ensures var r := EvaluationRecord(t, llmResult);
      var d := Decided(t, Lookup(llmResult, "data").GetOr(VNull), Status(llmResult));
      && (r.Err? <==> d.Err?)
      && (r.Ok? ==>
            && Lookup(r.value, "trust_decision") == Some(VStr(TierName(d.value.decision)))
            && Lookup(r.value, "trust_reasons") == Some(StrList(d.value.reasons))
            && Lookup(r.value, "raw_transcript") == Some(TranscriptValue(t))
            && Lookup(r.value, "notes") == Some(VList([])))
  {
    var status := Status(llmResult);
    var output := Lookup(llmResult, "data").GetOr(VNull);
    var d := Decided(t, output, status);
    if d.Ok? {
      var error := if status == "accepted" then VNull else Lookup(llmResult, "error").GetOr(VNull);
      RecordLookups(t, status, error, output, d.value);
    }
  }

  /** A result without "data" is never trusted, whatever the transcript. */
  lemma RejectedIgnored(t: seq<TranscriptLine>, llmResult: seq<Entry>)
    requires !HasKey(llmResult, "data")
    ensures EvaluationRecord(t, llmResult).Ok?
    ensures Lookup(EvaluationRecord(t, llmResult).value, "trust_decision") == Some(VStr("ignore_llm"))
    ensures Lookup(EvaluationRecord(t, llmResult).value, "trust_reasons") == Some(VList([VStr("llm_not_accepted")]))
  {
    var status := Status(llmResult);
    var output := Lookup(llmResult, "data").GetOr(VNull);
    var error := Lookup(llmResult, "error").GetOr(VNull);
    var trust := Trust(IgnoreLlm, ["llm_not_accepted"]);
    assert TierName(trust.decision) == "ignore_llm";
    assert status == "rejected";
    NotAccepted(t, output, status);
    assert EvaluationRecord(t, llmResult) == Ok(Record(t, status, error, output, trust));
    RecordLookups(t, status, error, output, trust);
    ReasonsOne("llm_not_accepted");
  }
}
