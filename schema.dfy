/**
 * The merge of an extraction result into the previous structured state:
 * replace-or-keep over a fixed set of sections, and the index-keyed
 * utterance merge.
 */
module Schema {
  import opened Wrappers
  import opened PyText
  import opened PyValue
  import opened SessionModels

  /** The sections a merge keeps; `patient`, `investigations` and `tests` are not among them. */
  const RequiredKeys: set<string> := {"utterances", "symptoms", "medications", "diagnosis", "advice"}

  /**
   * `key in candidate and isinstance(candidate[key], list)` with Python's
   * behaviour on a candidate that is not a dict: membership in a list or a
   * string succeeds or fails, and a successful one is followed by a subscript
   * with a string, which raises `TypeError`; other values are not iterable.
   */
  function CandidateList(candidate: Value, key: string): (r: Result<Option<seq<Value>>, PyError>)
    ensures r.Err? ==> r.error == TypeError
    ensures candidate.VDict? ==>
              && r.Ok?
              && r.value == (match Lookup(candidate.entries, key)
                             case Some(VList(xs)) => Some(xs)
                             case _ => None)
  {
    match candidate
    case VDict(es) =>
      (match Lookup(es, key)
       case Some(VList(xs)) => Ok(Some(xs))
       case _ => Ok(None))
    case VList(xs) => if VStr(key) in xs then Err(TypeError) else Ok(None)
    case VTuple(xs) => if VStr(key) in xs then Err(TypeError) else Ok(None)
    case VStr(s) => if Contains(s, key) then Err(TypeError) else Ok(None)
    case _ => Err(TypeError)
  }

  /** The value a section gets: the candidate's list, else the previous value. */
  function Section(previous: State, candidate: Value, key: string): Value
    requires key in previous
  {
    match CandidateList(candidate, key)
    case Ok(Some(xs)) => VList(xs)
    case _ => previous[key]
  }

  /** Whether some section's test raises; the set's iteration order decides only which one. */
  predicate Raises(candidate: Value) {
    exists k :: k in RequiredKeys && CandidateList(candidate, k).Err?
  }

  /** What `normalize_structured_state(previous, candidate)` returns or raises. */
  function Normalized(previous: State, candidate: Value): (r: Result<State, PyError>)
    requires RequiredKeys <= previous.Keys
    ensures r.Ok? ==> r.value.Keys == RequiredKeys
    ensures r.Ok? ==> forall k :: k in RequiredKeys ==> r.value[k].VList? || r.value[k] == previous[k]
    ensures r.Err? ==> r.error == TypeError
    ensures candidate.VDict? ==> r.Ok?
  {
    if Raises(candidate) then Err(TypeError)
    else Ok(map k | k in RequiredKeys :: Section(previous, candidate, k))
  }

  /** `normalize_structured_state`: fills a fresh dict one required section at a time. */
  method NormalizeStructuredState(previous: State, candidate: Value) returns (r: Result<State, PyError>)
    requires RequiredKeys <= previous.Keys
    ensures r == Normalized(previous, candidate)
  {
    var normalized: State := map[];
    var todo := RequiredKeys;
    while todo != {}
      invariant todo <= RequiredKeys
      invariant normalized.Keys == RequiredKeys - todo
      invariant forall k :: k in normalized ==>
        CandidateList(candidate, k).Ok? && normalized[k] == Section(previous, candidate, k)
      decreases todo
    {
      var key :| key in todo;
      var c := CandidateList(candidate, key);
      if c.Err? {
        return Err(c.error);
      }
      if c.value.Some? {
        normalized := normalized[key := VList(c.value.value)];
      } else {
        normalized := normalized[key := previous[key]];
      }
      todo := todo - {key};
    }
    assert normalized == map k | k in RequiredKeys :: Section(previous, candidate, k);
    return Ok(normalized);
  }

  /** Every given section of a state holds a list. */
  predicate ListSections(s: State, keys: set<string>) {
    forall k :: k in keys ==> k in s && s[k].VList?
  }

  /** A dict candidate's list replaces its section wholesale; anything else keeps the previous value. */
  lemma ReplaceOrKeep(previous: State, candidate: seq<Entry>, k: string)
    requires RequiredKeys <= previous.Keys && k in RequiredKeys
    ensures Normalized(previous, VDict(candidate)).Ok?
    ensures Normalized(previous, VDict(candidate)).value[k] ==
      match Lookup(candidate, k)
      case Some(VList(xs)) => VList(xs)
      case _ => previous[k]
  {
  }

  /** Sections that were lists stay lists, whatever the candidate holds. */
  lemma NormalizedKeepsLists(previous: State, candidate: Value)
    requires RequiredKeys <= previous.Keys && ListSections(previous, RequiredKeys)
    ensures Normalized(previous, candidate).Ok? ==> ListSections(Normalized(previous, candidate).value, RequiredKeys)
  {
  }

  lemma DictSection(previous: State, again: seq<Entry>, k: string, v: Value)
    requires k in previous && v.VList? && Lookup(again, k) == Some(v)
    ensures Section(previous, VDict(again), k) == v
  {
  }

  /**
   * Normalizing again, against any previous state, with a dict candidate that
   * carries the result's sections gives the result back.
   */
  lemma NormalizedIdempotent(r: State, previous: State, again: seq<Entry>)
    requires r.Keys == RequiredKeys && ListSections(r, RequiredKeys)
    requires RequiredKeys <= previous.Keys
    requires forall k :: k in RequiredKeys ==> Lookup(again, k) == Some(r[k])
    ensures Normalized(previous, VDict(again)) == Ok(r)
  {
    var r' := map k | k in RequiredKeys :: Section(previous, VDict(again), k);
    forall k | k in RequiredKeys ensures r'[k] == r[k] {
      DictSection(previous, again, k, r[k]);
    }
    assert r' == r;
    assert !Raises(VDict(again));
  }

  // ----- utterance merge -----

  /** The errors a lookup by index can raise. */
  predicate LookupError(e: PyError) {
    e.KeyError? || e.TypeError? || e.AttributeError?
  }

  /** `u["index"]` as a dict key: the subscript's errors, and `TypeError` for an unhashable index. */
  function IndexKey(u: Value): (r: Result<Value, PyError>)
    ensures r.Ok? ==> Hashable(r.value) && Get(u, "index") == Some(r.value)
    ensures r.Err? ==> LookupError(r.error)
  {
    match Subscript(u, "index")
    case Err(e) => Err(e)
    case Ok(idx) => if Hashable(idx) then Ok(idx) else Err(TypeError)
  }

  /** `{u["index"]: u for u in previous}`: the last utterance for each index. */
  function ByIndex(previous: seq<Value>): (r: Result<map<Value, Value>, PyError>)
    ensures r.Ok? ==> forall i :: 0 <= i < |previous| ==> IndexKey(previous[i]).Ok?
    ensures r.Ok? ==> forall i :: 0 <= i < |previous| ==> IndexKey(previous[i]).value in r.value
    ensures r.Err? ==> exists i :: 0 <= i < |previous| && IndexKey(previous[i]) == Err(r.error)
    ensures r.Err? ==> LookupError(r.error)
    decreases |previous|
  {
    if previous == [] then Ok(map[])
    else
      match ByIndex(previous[..|previous| - 1])
      case Err(e) => Err(e)
      case Ok(m) =>
        var front := previous[..|previous| - 1];
        assert forall i :: 0 <= i < |front| ==> front[i] == previous[i];
        var u := previous[|previous| - 1];
        match IndexKey(u)
        case Err(e) => Err(e)
        case Ok(idx) => Ok(m[idx := u])
  }

  /** The candidate entry's `u.get("index")`: `AttributeError` on a non-dict, `TypeError` when unhashable. */
  function CandidateIndex(u: Value): (r: Result<Value, PyError>)
    ensures r.Ok? ==> u.VDict? && Hashable(r.value)
    ensures r.Err? ==> LookupError(r.error)
  {
    match GetOr(u, "index", VNull)
    case Err(e) => Err(e)
    case Ok(idx) => if Hashable(idx) then Ok(idx) else Err(TypeError)
  }

  /** The merged entry for one candidate entry: the previous one with that index if any. */
  function MergedEntry(byIndex: map<Value, Value>, u: Value): (r: Result<Value, PyError>)
    ensures r.Err? ==> LookupError(r.error)
  {
    match CandidateIndex(u)
    case Err(e) => Err(e)
    case Ok(idx) => Ok(if idx in byIndex then byIndex[idx] else u)
  }

  /** The merge loop's output over a prefix of the candidate entries. */
  function MergedPrefix(byIndex: map<Value, Value>, updated: seq<Value>): (r: Result<seq<Value>, PyError>)
    ensures r.Ok? ==> |r.value| == |updated|
    ensures r.Ok? ==> forall i :: 0 <= i < |updated| ==> MergedEntry(byIndex, updated[i]) == Ok(r.value[i])
    ensures r.Err? ==> LookupError(r.error)
    decreases |updated|
  {
    if updated == [] then Ok([])
    else
      match MergedPrefix(byIndex, updated[..|updated| - 1])
      case Err(e) => Err(e)
      case Ok(front) =>
        match MergedEntry(byIndex, updated[|updated| - 1])
        case Err(e) => Err(e)
        case Ok(x) => Ok(front + [x])
  }

  /** What `merge_utterances_with_speakers(previous, updated)` returns or raises. */
  function Merged(previous: seq<Value>, updated: seq<Value>): (r: Result<seq<Value>, PyError>)
    ensures r.Ok? ==> |r.value| == |updated|
    ensures r.Err? ==> LookupError(r.error)
  {
    match ByIndex(previous)
    case Err(e) => Err(e)
    case Ok(m) => MergedPrefix(m, updated)
  }

  /** `merge_utterances_with_speakers`: one entry per candidate entry, appended in order. */
  method MergeUtterancesWithSpeakers(previous: seq<Value>, updated: seq<Value>) returns (r: Result<seq<Value>, PyError>)
    ensures r == Merged(previous, updated)
  {
    var prevByIndex := ByIndex(previous);
    if prevByIndex.Err? {
      return Err(prevByIndex.error);
    }
    var m := prevByIndex.value;
    var merged: seq<Value> := [];
    for k := 0 to |updated|
      invariant MergedPrefix(m, updated[..k]) == Ok(merged)
    {
      ghost var pre := updated[..k + 1];
      assert pre[..k] == updated[..k];
      var u := updated[k];
      assert pre[k] == u;
      var idx := CandidateIndex(u);
      if idx.Err? {
        MergedPrefixFails(m, updated, k);
        return Err(idx.error);
      }
      assert MergedEntry(m, u) == Ok(if idx.value in m then m[idx.value] else u);
      if idx.value in m {
        merged := merged + [m[idx.value]];
      } else {
        merged := merged + [u];
      }
    }
    assert updated[..|updated|] == updated;
    return Ok(merged);
  }

  /** The merge stops at the first candidate entry that raises. */
  lemma {:induction false} MergedPrefixFails(byIndex: map<Value, Value>, updated: seq<Value>, k: nat)
    requires k < |updated| && MergedPrefix(byIndex, updated[..k]).Ok?
    requires MergedEntry(byIndex, updated[k]).Err?
    ensures MergedPrefix(byIndex, updated) == Err(MergedEntry(byIndex, updated[k]).error)
    decreases |updated|
  {
    var n := |updated| - 1;
    if n == k {
      assert updated[..n] == updated[..k];
    } else {
      assert updated[..n][..k] == updated[..k];
      MergedPrefixFails(byIndex, updated[..n], k);
    }
  }

  /** The entry `ByIndex` keeps for an index is the last previous utterance carrying it. */
  lemma {:induction false} ByIndexLast(previous: seq<Value>, idx: Value)
    requires ByIndex(previous).Ok? && idx in ByIndex(previous).value
    ensures exists i ::
              && 0 <= i < |previous|
              && IndexKey(previous[i]) == Ok(idx)
              && ByIndex(previous).value[idx] == previous[i]
              && forall j :: i < j < |previous| ==> IndexKey(previous[j]) != Ok(idx)
    decreases |previous|
  {
    var n := |previous| - 1;
    var front := previous[..n];
    var m := ByIndex(front).value;
    var k := IndexKey(previous[n]).value;
    assert ByIndex(previous).value == m[k := previous[n]];
    if k == idx {
      assert IndexKey(previous[n]) == Ok(idx) && ByIndex(previous).value[idx] == previous[n];
    } else {
      assert idx in m && ByIndex(previous).value[idx] == m[idx];
      ByIndexLast(front, idx);
      var i :| 0 <= i < n && IndexKey(front[i]) == Ok(idx) && m[idx] == front[i]
               && forall j :: i < j < n ==> IndexKey(front[j]) != Ok(idx);
      assert front[i] == previous[i];
      assert forall j :: i < j < |previous| ==> IndexKey(previous[j]) != Ok(idx) by {
        forall j | i < j < |previous| ensures IndexKey(previous[j]) != Ok(idx) {
          if j < n {
            assert previous[j] == front[j];
            assert IndexKey(front[j]) != Ok(idx);
          } else {
            assert j == n && IndexKey(previous[n]) == Ok(k);
          }
        }
      }
    }
  }

  /**
   * Previous utterances are kept verbatim, speaker included, and only where
   * the candidate names their index; every other merged entry is the
   * candidate's own.
   */
  lemma MergedEntries(previous: seq<Value>, updated: seq<Value>, i: nat)
    requires Merged(previous, updated).Ok? && i < |updated|
    ensures |Merged(previous, updated).value| == |updated|
    ensures var x := Merged(previous, updated).value[i];
      || x == updated[i]
      || exists j :: 0 <= j < |previous| && x == previous[j]
           && IndexKey(previous[j]) == CandidateIndex(updated[i])
           && forall l :: j < l < |previous| ==> IndexKey(previous[l]) != CandidateIndex(updated[i])
  {
    var m := ByIndex(previous).value;
    assert MergedEntry(m, updated[i]).Ok?;
    var idx := CandidateIndex(updated[i]).value;
    if idx in m {
      ByIndexLast(previous, idx);
    }
  }

  /** A previous utterance whose index no candidate entry carries is dropped. */
  lemma MergedDrops(previous: seq<Value>, updated: seq<Value>, j: nat)
    requires Merged(previous, updated).Ok? && j < |previous|
    requires previous[j] !in updated
    requires forall i :: 0 <= i < |updated| ==> CandidateIndex(updated[i]) != IndexKey(previous[j])
    ensures previous[j] !in Merged(previous, updated).value
  {
    var r := Merged(previous, updated).value;
    var m := ByIndex(previous).value;
    if previous[j] in r {
      var i :| 0 <= i < |r| && r[i] == previous[j];
      assert MergedEntry(m, updated[i]) == Ok(r[i]);
      var idx := CandidateIndex(updated[i]).value;
      assert idx in m && m[idx] == previous[j];
      ByIndexLast(previous, idx);
      assert false;
    }
  }
}
