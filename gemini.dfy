/**
 * What the client code around the language model does with its reply:
 * the numbered transcript it sends, the markdown fence it strips, and the
 * result dict it returns. The model call and the JSON parser are parameters.
 */
module Gemini {
  import opened Wrappers
  import opened PyText
  import opened PyValue
  import opened Models

  /** Line `i` of the prompt's transcript: the 1-based number, a dot, a blank and the text. */
  function NumberedLine(n: int, l: TranscriptLine): string {
    IntToString(n) + ". " + l.text
  }

  /** All numbered lines, in order. */
  function NumberedLines(t: seq<TranscriptLine>): (r: seq<string>)
    ensures |r| == |t|
  {
    seq(|t|, i requires 0 <= i < |t| => NumberedLine(i + 1, t[i]))
  }

  /** `_format_transcript`: collects the numbered lines and joins them with newlines. */
  method FormatTranscript(transcript: seq<TranscriptLine>) returns (s: string)
    ensures s == Join("\n", NumberedLines(transcript))
    ensures transcript == [] ==> s == ""
  {
    var lines: seq<string> := [];
    for k := 0 to |transcript|
      invariant lines == NumberedLines(transcript[..k])
    {
      lines := lines + [NumberedLine(k + 1, transcript[k])];
    }
    assert transcript[..|transcript|] == transcript;
    s := Join("\n", lines);
  }

  /** Splitting the formatted transcript on newlines gives the numbered lines back when no text holds a newline. */
  lemma FormattedLines(t: seq<TranscriptLine>)
    requires t != []
    requires forall i :: 0 <= i < |t| ==> '\n' !in t[i].text
    ensures Split(Join("\n", NumberedLines(t)), '\n') == NumberedLines(t)
  {
    var lines := NumberedLines(t);
    forall i | 0 <= i < |lines| ensures '\n' !in lines[i] {
      DigitsHaveNoNewline(i + 1);
    }
    SplitJoinChar(lines, '\n');
  }

  /** The decimal text of a number holds no newline. */
  lemma {:induction false} DigitsHaveNoNewline(n: nat)
    ensures '\n' !in IntToString(n)
    decreases n
  {
    if n >= 10 {
      DigitsHaveNoNewline(n / 10);
    }
  }

  /** The defensive fence stripping: backticks off both ends, then a case-insensitive `json` tag. */
  function StripFence(raw: string): (r: string)
    ensures !("```" <= raw) ==> r == raw
    ensures "```" <= raw && !("json" <= Lower(StripChar(raw, '`'))) ==> r == StripChar(raw, '`')
    ensures "```" <= raw && "json" <= Lower(StripChar(raw, '`')) ==> r == Strip(StripChar(raw, '`')[4..])
  {
    if "```" <= raw then
      var t := StripChar(raw, '`');
      if "json" <= Lower(t) then Strip(t[4..]) else t
    else raw
  }

  /** `(response.text or "").strip()` followed by the fence stripping. */
  function ReplyText(text: Option<string>): string {
    StripFence(Strip(text.GetOr("")))
  }

  /** A body wrapped as a fenced json block, the way a model often answers. */
  function FencedJson(body: string): string {
    "```" + ("json" + ("\n" + body + "\n")) + "```"
  }

  /** A reply wrapped as a fenced json block gives back the block's body. */
  lemma StripFenceBlock(body: string)
    requires body != [] && !IsSpace(body[0]) && !IsSpace(body[|body| - 1])
    ensures StripFence(FencedJson(body)) == body
  {
    var inner := "json" + ("\n" + body + "\n");
    FencedParts(body, inner);
    BackticksOff(inner);
    JsonTag(inner);
    TaggedBlock(body, inner, FencedJson(body));
  }

  /** The pieces of a fenced block: three backticks, the tagged body, three backticks. */
  lemma FencedParts(body: string, inner: string)
    requires inner == "json" + ("\n" + body + "\n")
    ensures FencedJson(body) == "```" + inner + "```" && "```" <= FencedJson(body)
    ensures |inner| >= 4 && inner[..4] == "json" && inner[4..] == "\n" + body + "\n"
    ensures inner[0] == 'j' && inner[|inner| - 1] == '\n'
  {
    assert ("```" + inner + "```")[..3] == "```";
  }

  /** The whole reply handling, surrounding whitespace included, gives back a fenced body. */
  lemma ReplyTextFenced(body: string)
    requires body != [] && !IsSpace(body[0]) && !IsSpace(body[|body| - 1])
    ensures ReplyText(Some(FencedJson(body))) == body
  {
    var raw := FencedJson(body);
    assert raw[0] == '`' && raw[|raw| - 1] == '`';
    StripTrimmed(raw);
    StripFenceBlock(body);
  }

  /** The fence branch with its `json` tag, once the backticks are known to come off. */
  lemma TaggedBlock(body: string, inner: string, raw: string)
    requires body != [] && !IsSpace(body[0]) && !IsSpace(body[|body| - 1])
    requires "```" <= raw && StripChar(raw, '`') == inner
    requires |inner| >= 4 && "json" <= Lower(inner) && inner[4..] == "\n" + body + "\n"
    ensures StripFence(raw) == body
  {
    StripNewlines(body);
  }

  /** A string starting with `json` still does once lower-cased. */
  lemma JsonTag(s: string)
    requires |s| >= 4 && s[..4] == "json"
    ensures "json" <= Lower(s)
  {
    var l := Lower(s);
    forall i | 0 <= i < 4 ensures l[i] == s[i] {
      assert s[i] == s[..4][i];
      assert 'a' <= s[i] <= 'z';
    }
    assert l[..4] == s[..4];
  }

  /** Three backticks on each side of a string with other ends come off exactly. */
  lemma BackticksOff(inner: string)
    requires inner != [] && inner[0] != '`' && inner[|inner| - 1] != '`'
    ensures StripChar("```" + inner + "```", '`') == inner
  {
    var drop := Is('`');
    var t := inner + "```";
    var s := "```" + t;
    assert "```" + inner + "```" == s;
    TrimLeftTicks(s, t, 3);
    assert !drop(t[0]);
    TrimRightTicks(t, inner, 3);
  }

  /** `n` leading backticks come off. */
  lemma {:induction false} TrimLeftTicks(s: string, t: string, n: nat)
    requires |s| == |t| + n && s[n..] == t && forall i :: 0 <= i < n ==> s[i] == '`'
    requires t != [] && t[0] != '`'
    ensures TrimLeft(s, Is('`')) == t
    decreases n
  {
    if n > 0 {
      assert Is('`')(s[0]);
      assert s[1..][n - 1..] == t;
      TrimLeftTicks(s[1..], t, n - 1);
    } else {
      assert s == t;
    }
  }

  /** `n` trailing backticks come off. */
  lemma {:induction false} TrimRightTicks(s: string, t: string, n: nat)
    requires |s| == |t| + n && s[..|t|] == t && forall i :: |t| <= i < |s| ==> s[i] == '`'
    requires t != [] && t[|t| - 1] != '`'
    ensures TrimRight(s, Is('`')) == t
    decreases n
  {
    if n > 0 {
      assert Is('`')(s[|s| - 1]);
      assert s[..|s| - 1][..|t|] == t;
      TrimRightTicks(s[..|s| - 1], t, n - 1);
    } else {
      assert s == t;
    }
  }

  // ----- result shaping -----

  /** How the model call ended: it raised, or it answered with possibly no text. */
  datatype CallOutcome = CallRaised(details: string) | Responded(text: Option<string>)

  /** The dict returned after a call answered: an error for bad JSON or a bad shape, else the data. */
  function Shaped(model: string, raw: string, parsed: Option<Value>, needsReport: bool): seq<Entry> {
    match parsed
    case None => [Entry("model", VStr(model)), Entry("error", VStr("invalid_json")), Entry("raw_text", VStr(raw))]
    case Some(p) =>
      if !p.VDict? || (needsReport && !HasKey(p.entries, "clinical_report")) then
        [Entry("model", VStr(model)), Entry("error", VStr("invalid_schema")), Entry("raw_text", VStr(raw))]
      else [Entry("model", VStr(model)), Entry("data", p)]
  }

  /** The dict returned when the call raised. */
  function CallFailed(model: string, details: string, promptVersion: string): seq<Entry> {
    [Entry("model", VStr(model)), Entry("error", VStr("llm_call_failed")),
     Entry("details", VStr(details)), Entry("prompt_version", VStr(promptVersion))]
  }

  /** What `normalize_with_gemini` returns for a given call outcome and parse. */
  function NormalizeWithGemini(model: string, call: CallOutcome, loads: string -> Option<Value>): (r: seq<Entry>)
    ensures WellShaped(r, model)
    ensures HasKey(r, "data") ==> call.Responded? && Lookup(r, "data") == loads(ReplyText(call.text)) && Lookup(r, "data").value.VDict?
  {
    match call
    case CallRaised(d) => CallFailedSpec(model, d, "legacy_v1"); CallFailed(model, d, "legacy_v1")
    case Responded(text) =>
      var raw := ReplyText(text);
      ShapedSpec(model, raw, loads(raw), false);
      Shaped(model, raw, loads(raw), false)
  }

  /** What `generate_report_from_state` returns for a given call outcome and parse. */
  function GenerateReportFromState(model: string, call: CallOutcome, loads: string -> Option<Value>): (r: seq<Entry>)
    ensures WellShaped(r, model)
    ensures HasKey(r, "data") ==>
      && call.Responded? && Lookup(r, "data") == loads(ReplyText(call.text))
      && Lookup(r, "data").value.VDict? && HasKey(Lookup(r, "data").value.entries, "clinical_report")
  {
    match call
    case CallRaised(d) => CallFailedSpec(model, d, "report_v1"); CallFailed(model, d, "report_v1")
    case Responded(text) =>
      var raw := ReplyText(text);
      ShapedSpec(model, raw, loads(raw), true);
      Shaped(model, raw, loads(raw), true)
  }

  /** The model name comes first, and exactly one of `error` and `data` is present. */
  predicate WellShaped(r: seq<Entry>, model: string) {
    && |r| >= 2
    && r[0] == Entry("model", VStr(model))
    && (HasKey(r, "error") <==> !HasKey(r, "data"))
  }

  lemma ShapedSpec(model: string, raw: string, parsed: Option<Value>, needsReport: bool)
    ensures WellShaped(Shaped(model, raw, parsed, needsReport), model)
    ensures var r := Shaped(model, raw, parsed, needsReport);
      && (parsed.None? ==> Lookup(r, "error") == Some(VStr("invalid_json")) && Lookup(r, "raw_text") == Some(VStr(raw)))
      && (parsed.Some? && !parsed.value.VDict? ==> Lookup(r, "error") == Some(VStr("invalid_schema")))
      && (HasKey(r, "data") <==> parsed.Some? && parsed.value.VDict? && (needsReport ==> HasKey(parsed.value.entries, "clinical_report")))
      && (HasKey(r, "data") ==> Lookup(r, "data") == parsed)
  {
    var r := Shaped(model, raw, parsed, needsReport);
    assert r[1..][1..] == [] || r[1..][1..] == [r[2]];
    assert Keys(r) == [r[0].key] + Keys(r[1..]);
    assert Keys(r[1..]) == [r[1].key] + Keys(r[1..][1..]);
  }

  /**
   * Both entry points return a well-shaped dict; a raised call carries its
   * details and the prompt version, and only a dict parse (with a
   * `clinical_report` for the report) is passed on as data.
   */
  lemma ResultShapes(model: string, call: CallOutcome, loads: string -> Option<Value>)
    ensures WellShaped(NormalizeWithGemini(model, call, loads), model)
    ensures WellShaped(GenerateReportFromState(model, call, loads), model)
    ensures call.CallRaised? ==>
      && Lookup(NormalizeWithGemini(model, call, loads), "error") == Some(VStr("llm_call_failed"))
      && Lookup(NormalizeWithGemini(model, call, loads), "prompt_version") == Some(VStr("legacy_v1"))
      && Lookup(GenerateReportFromState(model, call, loads), "prompt_version") == Some(VStr("report_v1"))
      && Lookup(GenerateReportFromState(model, call, loads), "details") == Some(VStr(call.details))
    ensures call.Responded? ==>
      var raw := ReplyText(call.text);
      && (HasKey(NormalizeWithGemini(model, call, loads), "data") <==> loads(raw).Some? && loads(raw).value.VDict?)
      && (HasKey(GenerateReportFromState(model, call, loads), "data") <==>
            loads(raw).Some? && loads(raw).value.VDict? && HasKey(loads(raw).value.entries, "clinical_report"))
  {
    match call {
      case CallRaised(d) =>
        CallFailedSpec(model, d, "legacy_v1");
        CallFailedSpec(model, d, "report_v1");
      case Responded(text) =>
        var raw := ReplyText(text);
        ShapedSpec(model, raw, loads(raw), false);
        ShapedSpec(model, raw, loads(raw), true);
    }
  }

  lemma CallFailedSpec(model: string, details: string, promptVersion: string)
    ensures WellShaped(CallFailed(model, details, promptVersion), model)
    ensures Lookup(CallFailed(model, details, promptVersion), "error") == Some(VStr("llm_call_failed"))
    ensures Lookup(CallFailed(model, details, promptVersion), "details") == Some(VStr(details))
    ensures Lookup(CallFailed(model, details, promptVersion), "prompt_version") == Some(VStr(promptVersion))
  {
    var r := CallFailed(model, details, promptVersion);
    assert r[1..] == r[1..2] + r[2..];
    assert r[1..][1..] == r[2..];
    assert r[2..][1..] == r[3..];
    assert Keys(r) == ["model", "error", "details", "prompt_version"];
  }
}
