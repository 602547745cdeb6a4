/**
 * `decide_trust`: classifies a model output as usable, partly usable or to be
 * ignored, from the status of the call, who spoke in the transcript and
 * whether every symptom the model names occurs in what the patient said.
 */
module Trust {
  import opened Wrappers
  import opened PyText
  import opened PyValue
  import opened Models

  /** The three trust tiers. */
  datatype Tier = UseLlm | PartialLlm | IgnoreLlm

  /** `{"trust_decision": …, "trust_reasons": […]}`. */
  datatype Trust = Trust(decision: Tier, reasons: seq<string>)

  /** The tier's name as the result dict spells it. */
  function TierName(t: Tier): (r: string)
    ensures r in {"use_llm", "partial_llm", "ignore_llm"}
  {
    match t
    case UseLlm => "use_llm"
    case PartialLlm => "partial_llm"
    case IgnoreLlm => "ignore_llm"
  }

  /** The tier a name stands for, if any. */
  function TierOf(name: string): Option<Tier> {
    if name == "use_llm" then Some(UseLlm)
    else if name == "partial_llm" then Some(PartialLlm)
    else if name == "ignore_llm" then Some(IgnoreLlm)
    else None
  }

  /** `any(e["speaker"] == role for e in transcript)`. */
  predicate HasSpeaker(t: seq<TranscriptLine>, role: string) {
    exists i :: 0 <= i < |t| && t[i].speaker == role
  }

  /** The texts of the patient's lines, in order. */
  function PatientTexts(t: seq<TranscriptLine>): (r: seq<string>)
    ensures |r| <= |t|
    decreases |t|
  {
    if t == [] then []
    else
      var n := |t| - 1;
      PatientTexts(t[..n]) + (if t[n].speaker == "patient" then [t[n].text] else [])
  }

  /** `patient_text`: the patient's lines joined by spaces, lower-cased. */
  function PatientText(t: seq<TranscriptLine>): string {
    Lower(Join(" ", PatientTexts(t)))
  }

  /** Whether one symptom's lower-cased name occurs in `text`; what `symptom["name"].lower()` raises. */
  function Grounded(symptom: Value, text: string): (r: Result<bool, PyError>)
    ensures r.Err? ==> r.error in {KeyError, TypeError, AttributeError}
  {
    match Subscript(symptom, "name")
    case Err(e) => Err(e)
    case Ok(name) =>
      if name.VStr? then Ok(Contains(text, Lower(name.s))) else Err(AttributeError)
  }

  /**
   * The symptom loop: `Ok(false)` at the first ungrounded symptom, the error
   * of a symptom reached before any ungrounded one, `Ok(true)` when all are grounded.
   */
  function AllGrounded(symptoms: seq<Value>, text: string): Result<bool, PyError>
    decreases |symptoms|
  {
    if symptoms == [] then Ok(true)
    else
      var n := |symptoms| - 1;
      match AllGrounded(symptoms[..n], text)
      case Err(e) => Err(e)
      case Ok(g) => if g then Grounded(symptoms[n], text) else Ok(false)
  }

  const Partial: seq<string> := ["llm_output_accepted", "patient_present", "doctor_missing"]

  /** `meds = llm_output.get("medications", []) if llm_output else []`. */
  function Meds(llmOutput: Value): Result<Value, PyError> {
    if Truthy(llmOutput) then GetOr(llmOutput, "medications", VList([])) else Ok(VList([]))
  }

  /** The reasons collected before the symptom loop when both speakers are present. */
  function BothPresent(meds: Value): seq<string> {
    ["llm_output_accepted", "doctor_present"] + (if Truthy(meds) then ["medications_grounded"] else [])
  }

  /** What `decide_trust` returns or raises. */
  function Decided(t: seq<TranscriptLine>, llmOutput: Value, llmStatus: string): (r: Result<Trust, PyError>)
    ensures r.Ok? ==> r.value.reasons != []
    ensures r.Ok? && r.value.decision == UseLlm ==>
      && llmStatus == "accepted" && HasSpeaker(t, "patient") && HasSpeaker(t, "doctor")
      && r.value.reasons[0] == "llm_output_accepted" && r.value.reasons[|r.value.reasons| - 1] == "symptoms_grounded"
    ensures r.Ok? && r.value.decision == PartialLlm ==>
      llmStatus == "accepted" && HasSpeaker(t, "patient") && !HasSpeaker(t, "doctor")
  {
    if llmStatus != "accepted" then Ok(Trust(IgnoreLlm, ["llm_not_accepted"]))
    else if !HasSpeaker(t, "patient") then Ok(Trust(IgnoreLlm, ["no_patient_speech"]))
    else if !HasSpeaker(t, "doctor") then Ok(Trust(PartialLlm, Partial))
    else GroundingRules(t, llmOutput)
  }

  /** The rules applied once both speakers are present: medications, then the symptom loop. */
  function GroundingRules(t: seq<TranscriptLine>, llmOutput: Value): Result<Trust, PyError> {
      match Meds(llmOutput)
      case Err(e) => Err(e)
      case Ok(meds) =>
        match GetOr(llmOutput, "symptoms", VList([]))
        case Err(e) => Err(e)
        case Ok(sv) =>
          match Iter(sv)
          case Err(e) => Err(e)
          case Ok(symptoms) =>
            match AllGrounded(symptoms, PatientText(t))
            case Err(e) => Err(e)
            case Ok(g) =>
              if g then Ok(Trust(UseLlm, BothPresent(meds) + ["symptoms_grounded"]))
              else Ok(Trust(IgnoreLlm, ["symptom_not_grounded"]))
  }

  lemma {:induction false} AllGroundedFails(symptoms: seq<Value>, text: string, k: nat)
    requires k < |symptoms| && AllGrounded(symptoms[..k], text) == Ok(true)
    requires Grounded(symptoms[k], text) != Ok(true)
    ensures AllGrounded(symptoms, text) == Grounded(symptoms[k], text)
    decreases |symptoms|
  {
    var n := |symptoms| - 1;
    if n == k {
      assert symptoms[..n] == symptoms[..k];
    } else {
      assert symptoms[..n][..k] == symptoms[..k];
      assert symptoms[..n][k] == symptoms[k];
      AllGroundedFails(symptoms[..n], text, k);
    }
  }

  /** The symptom loop of `decide_trust`, leaving at the first symptom that is not grounded. */
  method CheckSymptoms(xs: seq<Value>, text: string) returns (r: Result<bool, PyError>)
    ensures r == AllGrounded(xs, text)
  {
    for k := 0 to |xs|
      invariant AllGrounded(xs[..k], text) == Ok(true)
    {
      assert xs[..k + 1][..k] == xs[..k];
      var g := Grounded(xs[k], text);
      if g != Ok(true) {
        AllGroundedFails(xs, text, k);
        return g;
      }
    }
    assert xs[..|xs|] == xs;
    return Ok(true);
  }

  /** `decide_trust`, with the reasons list built by appends and the symptom loop's early exit. */
  method DecideTrust(t: seq<TranscriptLine>, llmOutput: Value, llmStatus: string) returns (r: Result<Trust, PyError>)
    ensures r == Decided(t, llmOutput, llmStatus)
  {
    var reasons: seq<string> := [];
    if llmStatus != "accepted" {
      return Ok(Trust(IgnoreLlm, ["llm_not_accepted"]));
    }
    reasons := reasons + ["llm_output_accepted"];
    var hasPatient := HasSpeaker(t, "patient");
    var hasDoctor := HasSpeaker(t, "doctor");
    if !hasPatient {
      return Ok(Trust(IgnoreLlm, ["no_patient_speech"]));
    }
    if hasPatient && !hasDoctor {
      return Ok(Trust(PartialLlm, ["llm_output_accepted", "patient_present", "doctor_missing"]));
    }
    reasons := reasons + ["doctor_present"];
    var meds := Meds(llmOutput);
    if meds.Err? {
      return Err(meds.error);
    }
    if Truthy(meds.value) {
      reasons := reasons + ["medications_grounded"];
    }
    assert reasons == BothPresent(meds.value);
    var text := PatientText(t);
    var sv := GetOr(llmOutput, "symptoms", VList([]));
    if sv.Err? {
      return Err(sv.error);
    }
    var symptoms := Iter(sv.value);
    if symptoms.Err? {
      return Err(symptoms.error);
    }
    var g := CheckSymptoms(symptoms.value, text);
    if g.Err? {
      return Err(g.error);
    }
    if !g.value {
      return Ok(Trust(IgnoreLlm, ["symptom_not_grounded"]));
    }
    reasons := reasons + ["symptoms_grounded"];
    return Ok(Trust(UseLlm, reasons));
  }

  // ----- properties -----

  /** A symptom that the loop reaches and finds ungrounded. */
  predicate FirstUngrounded(symptoms: seq<Value>, text: string, i: int) {
    && 0 <= i < |symptoms|
    && Grounded(symptoms[i], text) == Ok(false)
    && forall j :: 0 <= j < i ==> Grounded(symptoms[j], text) == Ok(true)
  }

  /** The loop passes iff every symptom is grounded. */
  lemma {:induction false} AllGroundedTrue(symptoms: seq<Value>, text: string)
    ensures AllGrounded(symptoms, text) == Ok(true) <==>
              forall i :: 0 <= i < |symptoms| ==> Grounded(symptoms[i], text) == Ok(true)
    decreases |symptoms|
  {
    if symptoms != [] {
      var n := |symptoms| - 1;
      var front := symptoms[..n];
      AllGroundedTrue(front, text);
      if AllGrounded(symptoms, text) == Ok(true) {
        assert AllGrounded(front, text) == Ok(true) && Grounded(symptoms[n], text) == Ok(true);
        forall i | 0 <= i < |symptoms| ensures Grounded(symptoms[i], text) == Ok(true) {
          if i < n {
            assert symptoms[i] == front[i];
            assert Grounded(front[i], text) == Ok(true);
          } else {
            assert i == n;
          }
        }
      }
      if forall i :: 0 <= i < |symptoms| ==> Grounded(symptoms[i], text) == Ok(true) {
        forall i | 0 <= i < n ensures Grounded(front[i], text) == Ok(true) {
          assert front[i] == symptoms[i];
        }
        assert AllGrounded(front, text) == Ok(true);
        assert Grounded(symptoms[n], text) == Ok(true);
      }
    }
  }

  /** The loop stops ungrounded iff some symptom is the first failure. */
  lemma {:induction false} AllGroundedFalse(symptoms: seq<Value>, text: string)
    ensures AllGrounded(symptoms, text) == Ok(false) <==> exists i :: FirstUngrounded(symptoms, text, i)
    decreases |symptoms|
  {
    if symptoms != [] {
      var n := |symptoms| - 1;
      var front := symptoms[..n];
      AllGroundedFalse(front, text);
      AllGroundedTrue(front, text);
      if AllGrounded(symptoms, text) == Ok(false) {
        if AllGrounded(front, text) == Ok(false) {
          var i :| FirstUngrounded(front, text, i);
          forall j | 0 <= j <= i ensures symptoms[j] == front[j] { }
          assert FirstUngrounded(symptoms, text, i);
        } else {
          assert AllGrounded(front, text) == Ok(true) && Grounded(symptoms[n], text) == Ok(false);
          forall j | 0 <= j < n ensures Grounded(symptoms[j], text) == Ok(true) {
            assert symptoms[j] == front[j];
          }
          assert FirstUngrounded(symptoms, text, n);
        }
      }
      if exists i :: FirstUngrounded(symptoms, text, i) {
        var i :| FirstUngrounded(symptoms, text, i);
        if i < n {
          forall j | 0 <= j <= i ensures front[j] == symptoms[j] { }
          assert FirstUngrounded(front, text, i);
          assert AllGrounded(front, text) == Ok(false);
        } else {
          forall j | 0 <= j < n ensures Grounded(front[j], text) == Ok(true) {
            assert front[j] == symptoms[j];
          }
          assert AllGrounded(front, text) == Ok(true);
          assert Grounded(symptoms[n], text) == Ok(false);
        }
      }
    }
  }

  /** Symptoms are checked against the patient's words only: the doctor's lines never make one grounded. */
  lemma {:induction false} PatientTextsOnly(t: seq<TranscriptLine>, l: TranscriptLine)
    requires l.speaker != "patient"
    ensures PatientTexts(t + [l]) == PatientTexts(t)
    ensures PatientTexts([l] + t) == PatientTexts(t)
    decreases |t|
  {
    assert (t + [l])[..|t|] == t;
    if t == [] {
      assert [l] + t == [l];
      assert [l][..0] == [];
    } else {
      var n := |t| - 1;
      PatientTextsOnly(t[..n], l);
      var lt := [l] + t;
      assert lt[..n + 1] == [l] + t[..n];
      assert lt[n + 1] == t[n];
      assert PatientTexts(lt) == PatientTexts(lt[..n + 1]) + (if t[n].speaker == "patient" then [t[n].text] else []);
    }
  }

  /** Adding a line not spoken by the patient leaves `patient_text` as it is. */
  lemma PatientTextOnly(t: seq<TranscriptLine>, l: TranscriptLine)
    requires l.speaker != "patient"
    ensures PatientText(t + [l]) == PatientText(t) && PatientText([l] + t) == PatientText(t)
  {
    PatientTextsOnly(t, l);
  }

  /** Rule 1: a status other than "accepted" is ignored whatever the transcript and output hold. */
  lemma NotAccepted(t: seq<TranscriptLine>, llmOutput: Value, llmStatus: string)
    requires llmStatus != "accepted"
    ensures Decided(t, llmOutput, llmStatus) == Ok(Trust(IgnoreLlm, ["llm_not_accepted"]))
  {
  }

  /**
   * Every outcome of `decide_trust`: one tier per case, and with both speakers
   * present `symptom_not_grounded` exactly when some reached symptom is not
   * grounded, `use_llm` exactly when all are.
   */
  lemma DecidedSpec(t: seq<TranscriptLine>, llmOutput: Value, llmStatus: string)
    ensures var r := Decided(t, llmOutput, llmStatus);
      && (llmStatus == "accepted" && !HasSpeaker(t, "patient") ==> r == Ok(Trust(IgnoreLlm, ["no_patient_speech"])))
      && (llmStatus == "accepted" && HasSpeaker(t, "patient") && !HasSpeaker(t, "doctor") ==>
            r == Ok(Trust(PartialLlm, ["llm_output_accepted", "patient_present", "doctor_missing"])))
      && (r.Err? ==> llmStatus == "accepted" && HasSpeaker(t, "patient") && HasSpeaker(t, "doctor"))
  {
  }

  /** With both speakers present and a dict output, the symptom rule decides between `use_llm` and `ignore_llm`. */
  lemma GroundingDecides(t: seq<TranscriptLine>, es: seq<Entry>)
    requires HasSpeaker(t, "patient") && HasSpeaker(t, "doctor")
    requires Lookup(es, "symptoms").GetOr(VList([])).VList?
    ensures var symptoms := Lookup(es, "symptoms").GetOr(VList([])).items;
      var r := Decided(t, VDict(es), "accepted");
      && (r == Ok(Trust(IgnoreLlm, ["symptom_not_grounded"])) <==>
            exists i :: FirstUngrounded(symptoms, PatientText(t), i))
      && (r.Ok? && r.value.decision == UseLlm <==>
            forall i :: 0 <= i < |symptoms| ==> Grounded(symptoms[i], PatientText(t)) == Ok(true))
  {
    var symptoms := Lookup(es, "symptoms").GetOr(VList([])).items;
    AllGroundedTrue(symptoms, PatientText(t));
    AllGroundedFalse(symptoms, PatientText(t));
  }

  /** The reasons of a `use_llm` decision, with "medications_grounded" exactly when medications is non-empty. */
  lemma UseReasons(t: seq<TranscriptLine>, llmOutput: Value, llmStatus: string)
    requires Decided(t, llmOutput, llmStatus).Ok? && Decided(t, llmOutput, llmStatus).value.decision == UseLlm
    ensures var reasons := Decided(t, llmOutput, llmStatus).value.reasons;
      && Meds(llmOutput).Ok?
      && reasons[..2] == ["llm_output_accepted", "doctor_present"]
      && reasons[|reasons| - 1] == "symptoms_grounded"
      && ("medications_grounded" in reasons <==> Truthy(Meds(llmOutput).value))
      && |reasons| == (if Truthy(Meds(llmOutput).value) then 4 else 3)
  {
  }

  /** An empty symptom list, or none at all, passes the grounding rule. */
  lemma NoSymptomsUse(t: seq<TranscriptLine>, es: seq<Entry>)
    requires HasSpeaker(t, "patient") && HasSpeaker(t, "doctor")
    requires Lookup(es, "symptoms").GetOr(VList([])) == VList([])
    ensures Decided(t, VDict(es), "accepted").Ok? && Decided(t, VDict(es), "accepted").value.decision == UseLlm
  {
  }
}
