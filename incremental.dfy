/**
 * The incremental update of the structured state from one extractor reply:
 * the context it is given, the checks on its reply, and the merge of the
 * reply into the current state. The model call is replaced by its outcome,
 * a reply text or a raised exception, and the JSON parser by a parameter.
 */
module Incremental {
  import opened Wrappers
  import opened PyText
  import opened PyValue
  import opened SessionModels
  import opened Schema
  import Gemini
  import Websocket

  /** The sections the extractor sees as context, in order. */
  const ContextKeys: seq<string> :=
    ["patient", "symptoms", "medications", "diagnosis", "advice", "investigations", "tests"]

  /** `current_state.get(k, default)`. */
  function SectionOr(current: State, k: string, default: Value): Value {
    if k in current then current[k] else default
  }

  /** The `llm_state` dict handed to the extractor as context. */
  function LlmContext(current: State): seq<Entry> {
    [Entry("patient", SectionOr(current, "patient", VDict([]))),
     Entry("symptoms", SectionOr(current, "symptoms", VList([]))),
     Entry("medications", SectionOr(current, "medications", VList([]))),
     Entry("diagnosis", SectionOr(current, "diagnosis", VList([]))),
     Entry("advice", SectionOr(current, "advice", VList([]))),
     Entry("investigations", SectionOr(current, "investigations", VList([]))),
     Entry("tests", SectionOr(current, "tests", VList([])))]
  }

  /**
   * The context always has the seven keys, in order, and never the
   * utterances; each takes the current value or defaults to `{}` for the
   * patient and `[]` for the rest.
   */
  lemma LlmContextSpec(current: State)
    ensures Keys(LlmContext(current)) == ContextKeys
    ensures !HasKey(LlmContext(current), "utterances")
    ensures forall i :: 0 <= i < 7 ==>
              LlmContext(current)[i].val == SectionOr(current, ContextKeys[i], if i == 0 then VDict([]) else VList([]))
  {
    var c := LlmContext(current);
    assert Keys(c) == ContextKeys by {
      forall i | 0 <= i < 7 ensures Keys(c)[i] == ContextKeys[i] {
      }
    }
  }

  /** `[u["text"] for u in new_utterances if "text" in u]`. */
  function UtteranceTexts(us: seq<seq<Entry>>): (r: seq<Value>)
    ensures |r| <= |us|
    ensures (forall i :: 0 <= i < |us| ==> HasKey(us[i], "text")) ==> |r| == |us|
  {
    if us == [] then []
    else (if HasKey(us[0], "text") then [Lookup(us[0], "text").value] else []) + UtteranceTexts(us[1..])
  }

  /** The dicts of a batch, as entry lists. */
  function BatchEntries(ts: seq<FinalUtterance>): (r: seq<seq<Entry>>)
    ensures |r| == |ts|
  {
    seq(|ts|, i requires 0 <= i < |ts| => Websocket.UtteranceDicts(ts)[i].entries)
  }

  /** For the batch the socket sends, the text list is every utterance's text in order. */
  lemma {:induction false} UtteranceTextsOfBatch(ts: seq<FinalUtterance>)
    ensures UtteranceTexts(BatchEntries(ts)) == seq(|ts|, i requires 0 <= i < |ts| => VStr(ts[i].text))
  {
    var es := BatchEntries(ts);
    forall i | 0 <= i < |ts| ensures Lookup(es[i], "text") == Some(VStr(ts[i].text)) {
      Websocket.UtteranceDictsNumbered(ts, i);
    }
    TextsOfPresent(es, seq(|ts|, i requires 0 <= i < |ts| => VStr(ts[i].text)));
  }

  /** When every dict has a text, the list is exactly those texts. */
  lemma {:induction false} TextsOfPresent(us: seq<seq<Entry>>, texts: seq<Value>)
    requires |texts| == |us|
    requires forall i :: 0 <= i < |us| ==> Lookup(us[i], "text") == Some(texts[i])
    ensures UtteranceTexts(us) == texts
    decreases |us|
  {
    if us != [] {
      TextsOfPresent(us[1..], texts[1..]);
    }
  }

  /** The merge step on a parsed reply: normalize, then merge the utterance lists. */
  function Merge(current: State, parsed: Value): (r: Result<State, PyError>)
    requires RequiredKeys <= current.Keys && current["utterances"].VList?
    ensures r.Ok? ==> r.value.Keys == RequiredKeys && r.value["utterances"].VList?
    ensures r.Err? ==> LookupError(r.error)
  {
    match Normalized(current, parsed)
    case Err(e) => Err(e)
    case Ok(n) =>
      match Merged(current["utterances"].items, n["utterances"].items)
      case Err(e) => Err(e)
      case Ok(m) => Ok(n["utterances" := VList(m)])
  }

  /**
   * What `update_structured_state` returns or raises for a given outcome of
   * the model call and parse: the call's own exception propagates, as the
   * call is not guarded.
   */
  function Updated(current: State, call: Gemini.CallOutcome, loads: string -> Option<Value>)
    : (r: Result<State, PyError>)
    requires RequiredKeys <= current.Keys && current["utterances"].VList?
    ensures call.CallRaised? ==> r == Err(Raised(call.details))
    ensures call.Responded? && IsBlank(call.text.GetOr("")) ==> r == Err(ValueError("empty_llm_response"))
    ensures r.Ok? ==> call.Responded?
    ensures r.Ok? ==> r.value.Keys == RequiredKeys && r.value["utterances"].VList?
  {
    match call
    case CallRaised(details) => Err(Raised(details))
    case Responded(text) =>
      var raw := Strip(text.GetOr(""));
      if raw == [] then Err(ValueError("empty_llm_response"))
      else
        match loads(Gemini.StripFence(raw))
        case None => Err(JSONDecodeError)
        case Some(parsed) => Merge(current, parsed)
  }

  /**
   * `update_structured_state` after the model call: strips the reply, refuses
   * an empty one, strips a fence, parses, normalizes and merges the utterances.
   */
  method UpdateStructuredState(current: State, call: Gemini.CallOutcome, loads: string -> Option<Value>)
    returns (r: Result<State, PyError>)
    requires RequiredKeys <= current.Keys && current["utterances"].VList?
    ensures r == Updated(current, call, loads)
  {
    if call.CallRaised? {
      return Err(Raised(call.details));
    }
    var rawText := Strip(call.text.GetOr(""));
    if rawText == [] {
      return Err(ValueError("empty_llm_response"));
    }
    rawText := Gemini.StripFence(rawText);
    var parsed := loads(rawText);
    if parsed.None? {
      return Err(JSONDecodeError);
    }
    var normalized := NormalizeStructuredState(current, parsed.value);
    if normalized.Err? {
      return Err(normalized.error);
    }
    var merged := MergeUtterancesWithSpeakers(current["utterances"].items, normalized.value["utterances"].items);
    if merged.Err? {
      return Err(merged.error);
    }
    return Ok(normalized.value["utterances" := VList(merged.value)]);
  }

  /**
   * The call's exception is raised exactly when the call raised; the only
   * `ValueError` is the empty reply's, raised exactly when the reply is
   * blank; a reply the parser refuses raises its error unchanged.
   */
  lemma UpdatedErrors(current: State, call: Gemini.CallOutcome, loads: string -> Option<Value>)
    requires RequiredKeys <= current.Keys && current["utterances"].VList?
    ensures var r := Updated(current, call, loads);
      && (r.Err? && r.error.Raised? <==> call.CallRaised?)
      && (r == Err(ValueError("empty_llm_response")) <==> call.Responded? && IsBlank(call.text.GetOr("")))
      && (r.Err? && r.error.ValueError? ==> call.Responded? && IsBlank(call.text.GetOr("")))
      && (call.Responded? && !IsBlank(call.text.GetOr("")) && loads(Gemini.ReplyText(call.text)).None? ==>
            r == Err(JSONDecodeError))
  {
    match call
    case CallRaised(_) =>
    case Responded(text) =>
      var raw := Strip(text.GetOr(""));
      if raw != [] {
        match loads(Gemini.StripFence(raw))
        case None =>
        case Some(parsed) =>
          assert Updated(current, call, loads) == Merge(current, parsed);
      }
  }

  /** The update drops `patient`, `investigations` and `tests`: only the five merged sections survive. */
  lemma UpdatedDropsOtherSections(current: State, call: Gemini.CallOutcome, loads: string -> Option<Value>)
    requires RequiredKeys <= current.Keys && current["utterances"].VList?
    requires Updated(current, call, loads).Ok?
    ensures "patient" !in Updated(current, call, loads).value
    ensures "investigations" !in Updated(current, call, loads).value
    ensures "tests" !in Updated(current, call, loads).value
  {
    OnlyRequiredSections(Updated(current, call, loads).value);
  }

  /** A state with exactly the required keys has none of the three context-only sections. */
  lemma OnlyRequiredSections(s: State)
    requires s.Keys == RequiredKeys
    ensures "patient" !in s && "investigations" !in s && "tests" !in s
  {
    // each of the three differs from every required key
    forall k | k in RequiredKeys ensures k != "patient" && k != "investigations" && k != "tests" {
      assert k == "utterances" || k == "symptoms" || k == "medications" || k == "diagnosis" || k == "advice";
    }
  }

  /** Starting from list sections, the updated state again holds only lists. */
  lemma UpdatedKeepsLists(current: State, call: Gemini.CallOutcome, loads: string -> Option<Value>)
    requires ListSections(current, RequiredKeys)
    requires Updated(current, call, loads).Ok?
    ensures ListSections(Updated(current, call, loads).value, RequiredKeys)
  {
  }

  /**
   * Every utterance of the updated state is an entry of the reply's list or
   * of the previous list, taken verbatim.
   */
  lemma UpdatedUtterances(current: State, call: Gemini.CallOutcome, loads: string -> Option<Value>, i: nat)
    requires RequiredKeys <= current.Keys && current["utterances"].VList?
    requires Updated(current, call, loads).Ok?
    requires i < |Updated(current, call, loads).value["utterances"].items|
    ensures var x := Updated(current, call, loads).value["utterances"].items[i];
      var parsed := loads(Gemini.ReplyText(call.text)).value;
      var n := Normalized(current, parsed).value;
      && |Updated(current, call, loads).value["utterances"].items| == |n["utterances"].items|
      && (x == n["utterances"].items[i] || x in current["utterances"].items)
  {
    var parsed := loads(Gemini.ReplyText(call.text)).value;
    var n := Normalized(current, parsed).value;
    MergedEntries(current["utterances"].items, n["utterances"].items, i);
  }
}
