/**
 * The pure parts of the consultation socket: the starting structured state,
 * the replay of the two edit logs, the scheduler's gates and the numbering
 * of utterances sent to the extractor.
 */
module Websocket {
  import opened Wrappers
  import opened PyValue
  import opened SessionModels

  const SILENCE_THRESHOLD_SECONDS: int := 12
  const MIN_UPDATE_INTERVAL: int := 20
  const MIN_UTTERANCES_PER_UPDATE: nat := 3

  /** The seven list sections every consultation starts with, besides `patient`. */
  const ListSectionNames: seq<string> :=
    ["utterances", "symptoms", "medications", "diagnosis", "advice", "investigations", "tests"]

  /** The patient record with nothing known yet. */
  function EmptyPatient(): Value {
    VDict([Entry("name", VNull), Entry("age", VNull), Entry("gender", VNull)])
  }

  /** `_base_structured_state()`. */
  function BaseStructuredState(): State {
    map["patient" := EmptyPatient(),
        "utterances" := VList([]), "symptoms" := VList([]), "medications" := VList([]),
        "diagnosis" := VList([]), "advice" := VList([]),
        "investigations" := VList([]), "tests" := VList([])]
  }

  /** The starting patient: name, age and gender, all null. */
  lemma EmptyPatientShape()
    ensures var p := EmptyPatient();
      && p.VDict? && Keys(p.entries) == ["name", "age", "gender"]
      && forall i :: 0 <= i < |p.entries| ==> p.entries[i].val == VNull
  {
    var es := EmptyPatient().entries;
    assert es[0].key == "name" && es[1].key == "age" && es[2].key == "gender";
    assert Keys(es) == [es[0].key, es[1].key, es[2].key];
  }

  /** The starting state: a patient with three null fields and seven empty lists. */
  lemma BaseStructuredStateShape()
    ensures "patient" in BaseStructuredState() && BaseStructuredState()["patient"] == EmptyPatient()
    ensures forall k :: k in ListSectionNames ==> k in BaseStructuredState() && BaseStructuredState()[k] == VList([])
  {
    forall k | k in ListSectionNames ensures k in BaseStructuredState() && BaseStructuredState()[k] == VList([]) {
      var i :| 0 <= i < |ListSectionNames| && ListSectionNames[i] == k;
    }
  }

  /** The starting state has the patient and the seven list sections as its keys. */
  lemma BaseStructuredStateKeys()
    ensures BaseStructuredState().Keys == {"patient"} + set k | k in ListSectionNames
  {
    var keys := set k | k in ListSectionNames;
    assert keys == {"utterances", "symptoms", "medications", "diagnosis", "advice", "investigations", "tests"} by {
      forall k | k in keys
        ensures k in {"utterances", "symptoms", "medications", "diagnosis", "advice", "investigations", "tests"}
      {
        var i :| 0 <= i < |ListSectionNames| && ListSectionNames[i] == k;
      }
      assert ListSectionNames[0] in keys && ListSectionNames[1] in keys && ListSectionNames[2] in keys;
      assert ListSectionNames[3] in keys && ListSectionNames[4] in keys && ListSectionNames[5] in keys;
      assert ListSectionNames[6] in keys;
    }
  }

  // ----- transcript edits -----

  /** One edit applied to the utterance it names: only `text` and `speaker` edits do anything. */
  function ApplyTranscriptEdit(u: FinalUtterance, e: TranscriptEdit): FinalUtterance {
    if e.field == "text" then FinalUtterance(u.utteranceId, u.timestamp, e.newValue, u.speaker)
    else if e.field == "speaker" then FinalUtterance(u.utteranceId, u.timestamp, u.text, e.newValue)
    else u
  }

  /** An utterance after the edits of the log that name it, in log order. */
  function Replay(u: FinalUtterance, edits: seq<TranscriptEdit>): (r: FinalUtterance)
    ensures r.utteranceId == u.utteranceId && r.timestamp == u.timestamp
    decreases |edits|
  {
    if edits == [] then u
    else
      var v := Replay(u, edits[..|edits| - 1]);
      var e := edits[|edits| - 1];
      if e.utteranceId == u.utteranceId then ApplyTranscriptEdit(v, e) else v
  }

  /** The new value of the last edit of `field` on utterance `id`, or `default` when there is none. */
  function LastValue(edits: seq<TranscriptEdit>, id: string, field: string, default: string): string
    decreases |edits|
  {
    if edits == [] then default
    else
      var e := edits[|edits| - 1];
      if e.utteranceId == id && e.field == field then e.newValue
      else LastValue(edits[..|edits| - 1], id, field, default)
  }

  /**
   * Replaying a log amounts to: the last `text` edit of the utterance sets its
   * text, the last `speaker` edit sets its speaker, and nothing else matters —
   * not edits of other utterances, not edits of other fields, not earlier edits.
   */
  lemma {:induction false} ReplayLastWins(u: FinalUtterance, edits: seq<TranscriptEdit>)
    ensures Replay(u, edits) == FinalUtterance(u.utteranceId, u.timestamp,
      LastValue(edits, u.utteranceId, "text", u.text),
      LastValue(edits, u.utteranceId, "speaker", u.speaker))
    decreases |edits|
  {
    if edits != [] {
      ReplayLastWins(u, edits[..|edits| - 1]);
    }
  }

  /** `{u.utterance_id: u for u in transcript}`: the last utterance for each id. */
  function ById(transcript: seq<FinalUtterance>): (r: map<string, FinalUtterance>)
    ensures r.Keys == set u | u in transcript :: u.utteranceId
    ensures forall id :: id in r ==> r[id].utteranceId == id && r[id] in transcript
    decreases |transcript|
  {
    if transcript == [] then map[]
    else
      var u := transcript[|transcript| - 1];
      var front := transcript[..|transcript| - 1];
      assert transcript == front + [u];
      ById(front)[u.utteranceId := u]
  }

  /** Utterance ids that occur once each. */
  predicate DistinctIds(transcript: seq<FinalUtterance>) {
    forall i, j :: 0 <= i < j < |transcript| ==> transcript[i].utteranceId != transcript[j].utteranceId
  }

  /** With distinct ids, each utterance is its own entry. */
  lemma {:induction false} ByIdDistinct(transcript: seq<FinalUtterance>, i: nat)
    requires DistinctIds(transcript) && i < |transcript|
    ensures ById(transcript)[transcript[i].utteranceId] == transcript[i]
    decreases |transcript|
  {
    var n := |transcript| - 1;
    if i < n {
      var front := transcript[..n];
      assert DistinctIds(front) by {
        forall a, b | 0 <= a < b < |front| ensures front[a].utteranceId != front[b].utteranceId {
          assert front[a] == transcript[a] && front[b] == transcript[b];
        }
      }
      assert front[i] == transcript[i];
      ByIdDistinct(front, i);
    }
  }

  /** `apply_transcript_edits`: replays the log over a dict of utterances by id. */
  method ApplyTranscriptEdits(transcript: seq<FinalUtterance>, edits: seq<TranscriptEdit>)
    returns (r: seq<FinalUtterance>)
    ensures |r| == |transcript|
    ensures forall i :: 0 <= i < |r| ==> r[i].utteranceId == transcript[i].utteranceId
    ensures forall i :: 0 <= i < |r| ==> r[i] == Replay(ById(transcript)[transcript[i].utteranceId], edits)
    ensures DistinctIds(transcript) ==> forall i :: 0 <= i < |r| ==> r[i] == Replay(transcript[i], edits)
  {
    var byId := ById(transcript);
    var edited := byId;
    for k := 0 to |edits|
      invariant edited.Keys == byId.Keys
      invariant forall id :: id in edited ==> edited[id] == Replay(byId[id], edits[..k])
    {
      assert edits[..k + 1][..k] == edits[..k];
      var e := edits[k];
      if e.utteranceId !in edited {
        continue;
      }
      var u := edited[e.utteranceId];
      if e.field == "text" {
        edited := edited[e.utteranceId := FinalUtterance(u.utteranceId, u.timestamp, e.newValue, u.speaker)];
      } else if e.field == "speaker" {
        edited := edited[e.utteranceId := FinalUtterance(u.utteranceId, u.timestamp, u.text, e.newValue)];
      }
    }
    assert edits[..|edits|] == edits;
    r := seq(|transcript|, i requires 0 <= i < |transcript| => edited[transcript[i].utteranceId]);
    if DistinctIds(transcript) {
      forall i | 0 <= i < |r| ensures r[i] == Replay(transcript[i], edits) {
        ByIdDistinct(transcript, i);
      }
    }
  }

  // ----- structured edits -----

  /** `d.get("name")` of a dict, with a missing key read as `None`. */
  function NameOf(es: seq<Entry>): Value {
    Lookup(es, "name").GetOr(VNull)
  }

  /** The `modify` test: a dict entry whose name equals the edit value's name under Python's `==`. */
  predicate NameMatches(v: Value, value: seq<Entry>) {
    v.VDict? && PyEq(NameOf(v.entries), NameOf(value))
  }

  /** Every matching entry replaced by the edit value, everything else left where it was. */
  function ModifyByName(xs: seq<Value>, value: seq<Entry>): (r: seq<Value>)
    ensures |r| == |xs|
  {
    seq(|xs|, i requires 0 <= i < |xs| => if NameMatches(xs[i], value) then VDict(value) else xs[i])
  }

  /** `[v for v in xs if v != value]`, with Python's `!=`. */
  function RemoveAll(xs: seq<Value>, value: Value): (r: seq<Value>)
    decreases |xs|
  {
    if xs == [] then []
    else
      var last := xs[|xs| - 1];
      RemoveAll(xs[..|xs| - 1], value) + (if !PyEq(last, value) then [last] else [])
  }

  /** One structured edit applied to the copy, with the errors Python raises on a section of the wrong type. */
  function EditStep(out: State, e: StructuredEdit): (r: Result<State, PyError>)
    ensures r.Ok? ==> r.value.Keys == out.Keys
    ensures e.section !in out ==> r == Ok(out)
    ensures r.Ok? ==> forall k :: k in out && k != e.section ==> r.value[k] == out[k]
  {
    if e.section !in out then Ok(out)
    else if e.action == "add" then
      match out[e.section]
      case VList(xs) => Ok(out[e.section := VList(xs + [VDict(e.value)])])
      case _ => Err(AttributeError)
    else if e.action == "remove" then
      match Iter(out[e.section])
      case Err(err) => Err(err)
      case Ok(items) => Ok(out[e.section := VList(RemoveAll(items, VDict(e.value)))])
    else if e.action == "modify" then
      match out[e.section]
      case VList(xs) => Ok(out[e.section := VList(ModifyByName(xs, e.value))])
      case VTuple(xs) =>
        if exists i :: 0 <= i < |xs| && NameMatches(xs[i], e.value) then Err(TypeError) else Ok(out)
      case VStr(_) => Ok(out)
      case VDict(_) => Ok(out)
      case _ => Err(TypeError)
    else Ok(out)
  }

  /** The state after a whole log of structured edits, or the first error. */
  function ReplayStructured(state: State, edits: seq<StructuredEdit>): Result<State, PyError>
    decreases |edits|
  {
    if edits == [] then Ok(state)
    else
      match ReplayStructured(state, edits[..|edits| - 1])
      case Err(err) => Err(err)
      case Ok(s) => EditStep(s, edits[|edits| - 1])
  }

  /** The replay stops at the first edit that raises. */
  lemma {:induction false} ReplayStructuredFails(state: State, edits: seq<StructuredEdit>, k: nat, s: State)
    requires k < |edits| && ReplayStructured(state, edits[..k]) == Ok(s) && EditStep(s, edits[k]).Err?
    ensures ReplayStructured(state, edits) == EditStep(s, edits[k])
    decreases |edits|
  {
    var n := |edits| - 1;
    if n == k {
      assert edits[..n] == edits[..k];
    } else {
      assert edits[..n][..k] == edits[..k];
      ReplayStructuredFails(state, edits[..n], k, s);
    }
  }

  /**
   * The `modify` loop over one section: assigns the edit value at every
   * matching position, which a tuple refuses.
   */
  method ModifySection(section: Value, value: seq<Entry>) returns (r: Result<Value, PyError>)
    requires section.VList? || section.VTuple?
    ensures section.VList? ==> r == Ok(VList(ModifyByName(section.items, value)))
    ensures section.VTuple? ==>
      r == if exists i :: 0 <= i < |section.elems| && NameMatches(section.elems[i], value)
           then Err(TypeError) else Ok(section)
  {
    var xs := if section.VList? then section.items else section.elems;
    var ys := xs;
    for i := 0 to |xs|
      invariant |ys| == |xs|
      invariant forall j :: 0 <= j < i ==> ys[j] == ModifyByName(xs, value)[j]
      invariant forall j :: i <= j < |xs| ==> ys[j] == xs[j]
      invariant section.VTuple? ==> forall j :: 0 <= j < i ==> !NameMatches(xs[j], value)
    {
      if NameMatches(ys[i], value) {
        if section.VTuple? {
          return Err(TypeError);
        }
        ys := ys[i := VDict(value)];
      }
    }
    if section.VList? {
      assert ys == ModifyByName(xs, value);
      return Ok(VList(ys));
    }
    return Ok(section);
  }

  /** The `remove` comprehension: keeps, in order, every entry Python finds unequal to the value. */
  method RemoveSection(items: seq<Value>, value: Value) returns (kept: seq<Value>)
    ensures kept == RemoveAll(items, value)
  {
    kept := [];
    for j := 0 to |items|
      invariant kept == RemoveAll(items[..j], value)
    {
      assert items[..j + 1][..j] == items[..j];
      if !PyEq(items[j], value) {
        kept := kept + [items[j]];
      }
    }
    assert items[..|items|] == items;
  }

  /** `apply_structured_edits`: works on a copy and replays the log in order. */
  method ApplyStructuredEdits(state: State, edits: seq<StructuredEdit>) returns (r: Result<State, PyError>)
    ensures r == ReplayStructured(state, edits)
  {
    var out := state;
    for k := 0 to |edits|
      invariant ReplayStructured(state, edits[..k]) == Ok(out)
    {
      assert edits[..k + 1][..k] == edits[..k];
      var e := edits[k];
      var section := e.section;
      if section !in out {
        continue;
      }
      if e.action == "add" {
        if !out[section].VList? {
          ReplayStructuredFails(state, edits, k, out);
          return Err(AttributeError);
        }
        out := out[section := VList(out[section].items + [VDict(e.value)])];
      } else if e.action == "remove" {
        var items := Iter(out[section]);
        if items.Err? {
          ReplayStructuredFails(state, edits, k, out);
          return Err(items.error);
        }
        var kept := RemoveSection(items.value, VDict(e.value));
        out := out[section := VList(kept)];
      } else if e.action == "modify" {
        var current := out[section];
        if current.VList? || current.VTuple? {
          var modified := ModifySection(current, e.value);
          if modified.Err? {
            ReplayStructuredFails(state, edits, k, out);
            return Err(modified.error);
          }
          if current.VList? {
            out := out[section := modified.value];
          }
        } else if !current.VStr? && !current.VDict? {
          ReplayStructuredFails(state, edits, k, out);
          return Err(TypeError);
        }
      }
    }
    assert edits[..|edits|] == edits;
    return Ok(out);
  }

  /** A replay that succeeds keeps the key set: absent sections are never created. */
  lemma {:induction false} ReplayStructuredKeys(state: State, edits: seq<StructuredEdit>)
    requires ReplayStructured(state, edits).Ok?
    ensures ReplayStructured(state, edits).value.Keys == state.Keys
    decreases |edits|
  {
    if edits != [] {
      ReplayStructuredKeys(state, edits[..|edits| - 1]);
    }
  }

  /** A section that holds a list still holds one after any edit. */
  lemma EditStepKeepsList(out: State, e: StructuredEdit, k: string)
    requires k in out && out[k].VList? && EditStep(out, e).Ok?
    ensures EditStep(out, e).value[k].VList?
  {
  }

  /** Sections that held lists still hold lists after a successful replay. */
  lemma {:induction false} ReplayStructuredKeepsLists(state: State, edits: seq<StructuredEdit>, keys: set<string>)
    requires forall k :: k in keys ==> k in state && state[k].VList?
    requires ReplayStructured(state, edits).Ok?
    ensures forall k :: k in keys ==> k in ReplayStructured(state, edits).value && ReplayStructured(state, edits).value[k].VList?
    decreases |edits|
  {
    if edits != [] {
      var front := edits[..|edits| - 1];
      ReplayStructuredKeepsLists(state, front, keys);
      var s := ReplayStructured(state, front).value;
      forall k | k in keys ensures k in ReplayStructured(state, edits).value && ReplayStructured(state, edits).value[k].VList? {
        EditStepKeepsList(s, edits[|edits| - 1], k);
      }
    }
  }

  /** A log whose edits all name absent sections leaves the state as it was. */
  lemma {:induction false} ReplayStructuredAbsent(state: State, edits: seq<StructuredEdit>)
    requires forall i :: 0 <= i < |edits| ==> edits[i].section !in state
    ensures ReplayStructured(state, edits) == Ok(state)
    decreases |edits|
  {
    if edits != [] {
      ReplayStructuredAbsent(state, edits[..|edits| - 1]);
    }
  }

  /** Adding the same value twice gives two entries at the end of the section. */
  lemma AddTwice(state: State, e: StructuredEdit)
    requires e.action == "add" && e.section in state && state[e.section].VList?
    ensures ReplayStructured(state, [e, e]) ==
      Ok(state[e.section := VList(state[e.section].items + [VDict(e.value), VDict(e.value)])])
  {
    var xs := state[e.section].items;
    var v := VDict(e.value);
    assert [e, e][..1] == [e];
    assert [e][..0] == [];
    assert ReplayStructured(state, [e]) == EditStep(state, e);
    var once := state[e.section := VList(xs + [v])];
    assert EditStep(state, e) == Ok(once);
    assert ReplayStructured(state, [e, e]) == EditStep(once, e);
    assert once[e.section].items == xs + [v];
    assert EditStep(once, e) == Ok(once[e.section := VList(xs + [v] + [v])]);
    assert xs + [v] + [v] == xs + [v, v];
    assert once[e.section := VList(xs + [v, v])] == state[e.section := VList(xs + [v, v])];
  }

  /**
   * `remove` deletes every entry Python finds equal to the value, whatever
   * the key order of a dict, and keeps each other entry as often as before.
   */
  lemma {:induction false} RemoveAllCounts(xs: seq<Value>, value: Value)
    ensures forall i :: 0 <= i < |RemoveAll(xs, value)| ==> !PyEq(RemoveAll(xs, value)[i], value)
    ensures forall y :: PyEq(y, value) ==> multiset(RemoveAll(xs, value))[y] == 0
    ensures forall y :: !PyEq(y, value) ==> multiset(RemoveAll(xs, value))[y] == multiset(xs)[y]
    decreases |xs|
  {
    if xs != [] {
      var front := xs[..|xs| - 1];
      RemoveAllCounts(front, value);
      assert xs == front + [xs[|xs| - 1]];
    }
  }

  /** `remove` keeps the surviving entries in their order: it distributes over concatenation. */
  lemma {:induction false} RemoveAllAppend(xs: seq<Value>, ys: seq<Value>, value: Value)
    ensures RemoveAll(xs + ys, value) == RemoveAll(xs, value) + RemoveAll(ys, value)
    decreases |ys|
  {
    if ys == [] {
      assert xs + ys == xs;
    } else {
      var n := |ys| - 1;
      assert (xs + ys)[..|xs + ys| - 1] == xs + ys[..n];
      RemoveAllAppend(xs, ys[..n], value);
    }
  }

  /**
   * A stored symptom is removed by an edit value holding the same keys in
   * another order, as Python's dict comparison ignores order.
   */
  lemma RemoveIgnoresKeyOrder()
    ensures RemoveAll([VDict([Entry("name", VStr("fever")), Entry("duration", VStr("2d"))])],
                      VDict([Entry("duration", VStr("2d")), Entry("name", VStr("fever"))])) == []
  {
    var stored := [Entry("name", VStr("fever")), Entry("duration", VStr("2d"))];
    var edit := [Entry("duration", VStr("2d")), Entry("name", VStr("fever"))];
    assert Keys(stored) == ["name", "duration"] && Keys(edit) == ["duration", "name"];
    assert Lookup(edit, "name") == Some(VStr("fever")) && Lookup(edit, "duration") == Some(VStr("2d"));
    assert PyEq(VDict(stored), VDict(edit));
    assert [VDict(stored)][..0] == [];
  }

  /** Removing twice is removing once. */
  lemma {:induction false} RemoveAllIdempotent(xs: seq<Value>, value: Value)
    ensures RemoveAll(RemoveAll(xs, value), value) == RemoveAll(xs, value)
    decreases |xs|
  {
    if xs != [] {
      var front := xs[..|xs| - 1];
      var last := xs[|xs| - 1];
      RemoveAllIdempotent(front, value);
      var tail := if !PyEq(last, value) then [last] else [];
      RemoveAllAppend(RemoveAll(front, value), tail, value);
      if !PyEq(last, value) {
        assert RemoveAll(tail, value) == RemoveAll([], value) + [last] by {
          assert tail[..0] == [];
        }
      }
    }
  }

  /**
   * `modify` replaces every matching dict, not only the first; other entries,
   * non-dicts among them, stay at their positions; modifying again changes nothing.
   */
  lemma {:induction false} ModifyByNameSpec(xs: seq<Value>, value: seq<Entry>)
    ensures forall i :: 0 <= i < |xs| && NameMatches(xs[i], value) ==> ModifyByName(xs, value)[i] == VDict(value)
    ensures forall i :: 0 <= i < |xs| && !xs[i].VDict? ==> ModifyByName(xs, value)[i] == xs[i]
    ensures forall i :: 0 <= i < |xs| && !NameMatches(xs[i], value) ==> ModifyByName(xs, value)[i] == xs[i]
    ensures ModifyByName(ModifyByName(xs, value), value) == ModifyByName(xs, value)
  {
    var once := ModifyByName(xs, value);
    PyEqRefl(NameOf(value));
    forall i | 0 <= i < |xs| ensures ModifyByName(once, value)[i] == once[i] {
      if NameMatches(xs[i], value) {
        assert NameMatches(once[i], value);
      }
    }
  }

  // ----- scheduler gates -----

  /** The three early returns of `run_incremental_update`, in their order. */
  predicate ShouldRunUpdate(batch: nat, force: bool, now: int, lastUpdate: int) {
    if batch == 0 then false
    else if !force && batch < MIN_UTTERANCES_PER_UPDATE then false
    else if !force && now - lastUpdate < MIN_UPDATE_INTERVAL then false
    else true
  }

  /** An update runs iff the batch is non-empty and either it is forced or both thresholds are met. */
  lemma ShouldRunUpdateSpec(batch: nat, force: bool, now: int, lastUpdate: int)
    ensures ShouldRunUpdate(batch, force, now, lastUpdate) <==>
      batch > 0 && (force || (batch >= 3 && now - lastUpdate >= 20))
    ensures force ==> (ShouldRunUpdate(batch, force, now, lastUpdate) <==> batch > 0)
  {
  }

  /** What one wake-up of the silence watcher does. */
  datatype SilenceDecision = Stop | Wait | Fire(pendingFrom: nat)

  /** The silence watcher's tests, in their order, with integer clocks. */
  function SilenceDecide(active: bool, now: int, lastTextTime: int, lastProcessedIndex: nat, transcriptLength: nat)
    : (d: SilenceDecision)
    ensures d == Stop <==> !active
    ensures d.Fire? <==>
      active && now - lastTextTime >= SILENCE_THRESHOLD_SECONDS && lastProcessedIndex < transcriptLength
    ensures d.Fire? ==> d.pendingFrom == lastProcessedIndex
  {
    if !active then Stop
    else if now - lastTextTime < SILENCE_THRESHOLD_SECONDS then Wait
    else if lastProcessedIndex >= transcriptLength then Wait
    else Fire(lastProcessedIndex)
  }

  // ----- utterance numbering -----

  /** The dict sent for the `n`th utterance of a batch. */
  function UtteranceDict(n: int, u: FinalUtterance): Value {
    VDict([Entry("index", VInt(n)), Entry("speaker", VStr(u.speaker)),
           Entry("text", VStr(u.text)), Entry("timestamp", VStr(u.timestamp))])
  }

  /** The batch as dicts numbered from 1, as both the update and the finalize step build it. */
  function UtteranceDicts(us: seq<FinalUtterance>): (r: seq<Value>)
    ensures |r| == |us|
  {
    seq(|us|, i requires 0 <= i < |us| => UtteranceDict(i + 1, us[i]))
  }

  /** A numbered dict carries its number and the utterance's own speaker, text and timestamp. */
  lemma UtteranceDictFields(n: int, u: FinalUtterance)
    ensures var es := UtteranceDict(n, u).entries;
      && Lookup(es, "index") == Some(VInt(n))
      && Lookup(es, "speaker") == Some(VStr(u.speaker))
      && Lookup(es, "text") == Some(VStr(u.text))
      && Lookup(es, "timestamp") == Some(VStr(u.timestamp))
  {
    var es := UtteranceDict(n, u).entries;
    assert es[0].key == "index" && es[1].key == "speaker" && es[2].key == "text" && es[3].key == "timestamp";
    LookupDistinct(es);
  }

  /** Entry `i` carries index `i + 1` and the utterance's own speaker, text and timestamp. */
  lemma UtteranceDictsNumbered(us: seq<FinalUtterance>, i: nat)
    requires i < |us|
    ensures var d := UtteranceDicts(us)[i];
      && d.VDict?
      && Lookup(d.entries, "index") == Some(VInt(i + 1))
      && Lookup(d.entries, "speaker") == Some(VStr(us[i].speaker))
      && Lookup(d.entries, "text") == Some(VStr(us[i].text))
      && Lookup(d.entries, "timestamp") == Some(VStr(us[i].timestamp))
  {
    assert UtteranceDicts(us)[i] == UtteranceDict(i + 1, us[i]);
    UtteranceDictFields(i + 1, us[i]);
  }
}
