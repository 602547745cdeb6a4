/**
 * `apply_speaker_labels`: writes each label's speaker into the utterance dict
 * with that index. The dicts are shared between the caller's list and the
 * index, so the model returns both the result and the caller's list as the
 * writes leave it; a shared dict is named by its position in the caller's list.
 */
module Speaker {
  import opened Wrappers
  import opened PyValue
  import opened Schema

  /** `by_index`: its keys in insertion order, and the position of the dict each key holds. */
  datatype Index = Index(order: seq<Value>, pos: map<Value, nat>)

  /** Both views after the writes: the returned list and the caller's list. */
  datatype Labelled = Labelled(result: seq<Value>, utterances: seq<Value>)

  /** Positions that name distinct dicts carrying their key, in a list of `n`. */
  predicate Positions(us: seq<Value>, pos: map<Value, nat>) {
    forall k :: k in pos ==> pos[k] < |us| && IndexKey(us[pos[k]]) == Ok(k)
  }

  /** `{u["index"]: u for u in utterances}`: first-appearance order, last dict per key. */
  function Indexed(us: seq<Value>): (r: Result<Index, PyError>)
    ensures r.Ok? ==> forall k :: k in r.value.pos ==> r.value.pos[k] < |us|
    ensures r.Ok? ==> forall k :: k in r.value.order <==> k in r.value.pos
    decreases |us|
  {
    if us == [] then Ok(Index([], map[]))
    else
      var n := |us| - 1;
      match Indexed(us[..n])
      case Err(e) => Err(e)
      case Ok(ix) =>
        match IndexKey(us[n])
        case Err(e) => Err(e)
        case Ok(k) => Ok(Index(if k in ix.pos then ix.order else ix.order + [k], ix.pos[k := n]))
  }

  /** Every position the index holds carries its key. */
  lemma {:induction false} IndexedPositions(us: seq<Value>)
    requires Indexed(us).Ok?
    ensures Positions(us, Indexed(us).value.pos)
    decreases |us|
  {
    if us != [] {
      var n := |us| - 1;
      var front := us[..n];
      IndexedPositions(front);
      var pos := Indexed(front).value.pos;
      var last := IndexKey(us[n]).value;
      var all := Indexed(us).value.pos;
      assert all == pos[last := n];
      forall k | k in all ensures all[k] < |us| && IndexKey(us[all[k]]) == Ok(k) {
        if k == last {
          assert all[k] == n;
        } else {
          assert all[k] == pos[k] && IndexKey(front[pos[k]]) == Ok(k);
          assert us[pos[k]] == front[pos[k]];
        }
      }
      assert Positions(us, all);
    }
  }

  /** Every key of the list is held at its last position. */
  lemma {:induction false} IndexedLast(us: seq<Value>)
    requires Indexed(us).Ok?
    ensures forall i :: 0 <= i < |us| ==>
      && IndexKey(us[i]).Ok?
      && IndexKey(us[i]).value in Indexed(us).value.pos
      && i <= Indexed(us).value.pos[IndexKey(us[i]).value]
    decreases |us|
  {
    if us != [] {
      var n := |us| - 1;
      var front := us[..n];
      IndexedLast(front);
      var pos := Indexed(front).value.pos;
      var k := IndexKey(us[n]).value;
      var all := Indexed(us).value.pos;
      assert all == pos[k := n];
      forall i | 0 <= i < |us|
        ensures && IndexKey(us[i]).Ok?
                && IndexKey(us[i]).value in all
                && i <= all[IndexKey(us[i]).value]
      {
        if i < n {
          assert front[i] == us[i];
          var key := IndexKey(front[i]).value;
          assert IndexKey(us[i]) == Ok(key);
          assert key in pos && i <= pos[key];
          if key == k {
            assert all[key] == n;
          } else {
            assert all[key] == pos[key];
          }
        } else {
          assert IndexKey(us[i]) == Ok(k) && all[k] == n;
        }
      }
    }
  }

  /** The order lists each key once. */
  lemma {:induction false} IndexedDistinct(us: seq<Value>)
    requires Indexed(us).Ok?
    ensures forall a, b :: 0 <= a < b < |Indexed(us).value.order| ==>
      Indexed(us).value.order[a] != Indexed(us).value.order[b]
    decreases |us|
  {
    if us != [] {
      IndexedDistinct(us[..|us| - 1]);
    }
  }

  /** The first position whose dict carries key `k`, or the length when none does. */
  function FirstAt(us: seq<Value>, k: Value): (r: nat)
    ensures r <= |us|
    ensures r < |us| ==> IndexKey(us[r]) == Ok(k)
    ensures forall c :: 0 <= c < |us| && IndexKey(us[c]) == Ok(k) ==> r <= c
    decreases |us|
  {
    if us == [] then 0
    else
      var n := |us| - 1;
      var f := FirstAt(us[..n], k);
      assert forall c :: 0 <= c < n ==> us[..n][c] == us[c];
      if f < n then f else if IndexKey(us[n]) == Ok(k) then n else n + 1
  }

  /** A key found in the front of the list is found at the same place in the whole list. */
  lemma FirstAtFront(us: seq<Value>, x: Value)
    requires us != [] && FirstAt(us[..|us| - 1], x) < |us| - 1
    ensures FirstAt(us, x) == FirstAt(us[..|us| - 1], x)
  {
  }

  /** Keys come in `order` as they first appear in the list. */
  lemma {:induction false} IndexedFirstAppearance(us: seq<Value>, i: nat, j: nat)
    requires Indexed(us).Ok? && i < j < |Indexed(us).value.order|
    ensures FirstAt(us, Indexed(us).value.order[i]) < FirstAt(us, Indexed(us).value.order[j]) < |us|
    decreases |us|
  {
    var n := |us| - 1;
    var front := us[..n];
    var ix := Indexed(front).value;
    var k := IndexKey(us[n]).value;
    var order := Indexed(us).value.order;
    assert order == if k in ix.pos then ix.order else ix.order + [k];
    var oi, oj := order[i], order[j];
    if j < |ix.order| {
      assert oi == ix.order[i] && oj == ix.order[j];
      IndexedFirstAppearance(front, i, j);
      FirstAtFront(us, oi);
      FirstAtFront(us, oj);
    } else {
      assert oj == k && k !in ix.pos && oi == ix.order[i];
      IndexedLast(front);
      forall c | 0 <= c < n ensures IndexKey(front[c]) != Ok(k) {
        assert IndexKey(front[c]).value in ix.pos;
      }
      assert FirstAt(front, k) == n;
      assert FirstAt(us, k) == n;
      IndexedPositions(front);
      var p := ix.pos[oi];
      assert IndexKey(front[p]) == Ok(oi);
      assert FirstAt(front, oi) <= p < n;
      FirstAtFront(us, oi);
    }
  }

  /** `u["speaker"] = sp` on a dict. */
  function SetSpeaker(u: Value, sp: Value): Value {
    match u
    case VDict(es) => VDict(Put(es, "speaker", sp))
    case _ => u
  }

  /** One label: ignored when its index names no utterance, else written into that dict. */
  function LabelStep(cur: seq<Value>, pos: map<Value, nat>, s: Value): (r: Result<seq<Value>, PyError>)
    requires forall k :: k in pos ==> pos[k] < |cur|
    ensures r.Ok? ==> |r.value| == |cur|
  {
    match IndexKey(s)
    case Err(e) => Err(e)
    case Ok(idx) =>
      if idx !in pos then Ok(cur)
      else
        match Subscript(s, "speaker")
        case Err(e) => Err(e)
        case Ok(sp) => Ok(cur[pos[idx] := SetSpeaker(cur[pos[idx]], sp)])
  }

  /** The caller's list after the labels of `labels`, in order, or the first error. */
  function Labels(us: seq<Value>, pos: map<Value, nat>, labels: seq<Value>): (r: Result<seq<Value>, PyError>)
    requires forall k :: k in pos ==> pos[k] < |us|
    ensures r.Ok? ==> |r.value| == |us|
    decreases |labels|
  {
    if labels == [] then Ok(us)
    else
      match Labels(us, pos, labels[..|labels| - 1])
      case Err(e) => Err(e)
      case Ok(cur) => LabelStep(cur, pos, labels[|labels| - 1])
  }

  /** What `apply_speaker_labels` returns or raises, with the caller's list as it is left. */
  function SpeakerLabels(us: seq<Value>, labels: seq<Value>): Result<Labelled, PyError> {
    match Indexed(us)
    case Err(e) => Err(e)
    case Ok(ix) =>
      match Labels(us, ix.pos, labels)
      case Err(e) => Err(e)
      case Ok(cur) =>
        Ok(Labelled(Listed(ix, cur), cur))
  }

  /** `list(by_index.values())`: the dict each key ends up naming, in key order. */
  function Listed(ix: Index, cur: seq<Value>): seq<Value>
    requires forall k :: k in ix.order ==> k in ix.pos && ix.pos[k] < |cur|
  {
    seq(|ix.order|, i requires 0 <= i < |ix.order| => cur[ix.pos[ix.order[i]]])
  }

  /** One step of the index build: an earlier error is passed on. */
  lemma IndexedErrStep(us: seq<Value>, e: PyError)
    requires us != [] && Indexed(us[..|us| - 1]) == Err(e)
    ensures Indexed(us) == Err(e)
  {
  }

  /** One step of the index build: the last dict's key error is raised. */
  lemma IndexedKeyStep(us: seq<Value>, ix: Index)
    requires us != [] && Indexed(us[..|us| - 1]) == Ok(ix) && IndexKey(us[|us| - 1]).Err?
    ensures Indexed(us) == Err(IndexKey(us[|us| - 1]).error)
  {
  }

  /** An error in building the index of a prefix is the error of the whole build. */
  lemma {:induction false} IndexedErrPersists(us: seq<Value>, k: nat, e: PyError)
    requires k <= |us| && Indexed(us[..k]) == Err(e)
    ensures Indexed(us) == Err(e)
    decreases |us|
  {
    if k == |us| {
      assert us[..k] == us;
    } else {
      var front := us[..|us| - 1];
      assert front[..k] == us[..k];
      IndexedErrPersists(front, k, e);
      IndexedErrStep(us, e);
    }
  }

  /** The index build stops at the first dict whose key raises. */
  lemma IndexedFails(us: seq<Value>, k: nat, ix: Index)
    requires k < |us| && Indexed(us[..k]) == Ok(ix) && IndexKey(us[k]).Err?
    ensures Indexed(us) == Err(IndexKey(us[k]).error)
  {
    var pre := us[..k + 1];
    assert pre[..k] == us[..k] && pre[k] == us[k];
    IndexedKeyStep(pre, ix);
    IndexedErrPersists(us, k + 1, IndexKey(us[k]).error);
  }

  /** One label step after an earlier error passes the error on. */
  lemma LabelsErrStep(us: seq<Value>, pos: map<Value, nat>, labels: seq<Value>, e: PyError)
    requires forall x :: x in pos ==> pos[x] < |us|
    requires labels != [] && Labels(us, pos, labels[..|labels| - 1]) == Err(e)
    ensures Labels(us, pos, labels) == Err(e)
  {
  }

  /** An error over a prefix of the labels is the error over all of them. */
  lemma {:induction false} LabelsErrPersists(us: seq<Value>, pos: map<Value, nat>, labels: seq<Value>, k: nat, e: PyError)
    requires forall x :: x in pos ==> pos[x] < |us|
    requires k <= |labels| && Labels(us, pos, labels[..k]) == Err(e)
    ensures Labels(us, pos, labels) == Err(e)
    decreases |labels|
  {
    if k == |labels| {
      assert labels[..k] == labels;
    } else {
      var front := labels[..|labels| - 1];
      assert front[..k] == labels[..k];
      LabelsErrPersists(us, pos, front, k, e);
      LabelsErrStep(us, pos, labels, e);
    }
  }

  /** The labels stop at the first one that raises. */
  lemma LabelsFails(us: seq<Value>, pos: map<Value, nat>, labels: seq<Value>, k: nat, cur: seq<Value>)
    requires forall x :: x in pos ==> pos[x] < |us|
    requires k < |labels| && Labels(us, pos, labels[..k]) == Ok(cur)
    requires LabelStep(cur, pos, labels[k]).Err?
    ensures Labels(us, pos, labels) == LabelStep(cur, pos, labels[k])
  {
    var pre := labels[..k + 1];
    assert pre[..k] == labels[..k] && pre[k] == labels[k];
    assert Labels(us, pos, pre) == LabelStep(cur, pos, labels[k]);
    LabelsErrPersists(us, pos, labels, k + 1, LabelStep(cur, pos, labels[k]).error);
  }

  /** The dict comprehension that builds `by_index`. */
  method BuildIndex(utterances: seq<Value>) returns (r: Result<Index, PyError>)
    ensures r == Indexed(utterances)
  {
    var order: seq<Value> := [];
    var pos: map<Value, nat> := map[];
    for k := 0 to |utterances|
      invariant Indexed(utterances[..k]) == Ok(Index(order, pos))
    {
      assert utterances[..k + 1][..k] == utterances[..k];
      var idx := IndexKey(utterances[k]);
      if idx.Err? {
        IndexedFails(utterances, k, Index(order, pos));
        return Err(idx.error);
      }
      if idx.value !in pos {
        order := order + [idx.value];
      }
      pos := pos[idx.value := k];
    }
    assert utterances[..|utterances|] == utterances;
    return Ok(Index(order, pos));
  }

  /** The loop over `speaker_map`, writing into the shared dicts. */
  method WriteLabels(utterances: seq<Value>, pos: map<Value, nat>, speakerMap: seq<Value>)
    returns (r: Result<seq<Value>, PyError>)
    requires forall k :: k in pos ==> pos[k] < |utterances|
    ensures r == Labels(utterances, pos, speakerMap)
  {
    var cur := utterances;
    for k := 0 to |speakerMap|
      invariant Labels(utterances, pos, speakerMap[..k]) == Ok(cur)
    {
      assert speakerMap[..k + 1][..k] == speakerMap[..k];
      var s := speakerMap[k];
      var idx := IndexKey(s);
      if idx.Err? {
        LabelsFails(utterances, pos, speakerMap, k, cur);
        return Err(idx.error);
      }
      if idx.value in pos {
        var sp := Subscript(s, "speaker");
        if sp.Err? {
          LabelsFails(utterances, pos, speakerMap, k, cur);
          return Err(sp.error);
        }
        var j := pos[idx.value];
        cur := cur[j := SetSpeaker(cur[j], sp.value)];
      }
    }
    assert speakerMap[..|speakerMap|] == speakerMap;
    return Ok(cur);
  }

  /** `apply_speaker_labels`: builds the index, writes the labels, lists the index's dicts. */
  method ApplySpeakerLabels(utterances: seq<Value>, speakerMap: seq<Value>) returns (r: Result<Labelled, PyError>)
    ensures r == SpeakerLabels(utterances, speakerMap)
  {
    var ix := BuildIndex(utterances);
    if ix.Err? {
      return Err(ix.error);
    }
    var cur := WriteLabels(utterances, ix.value.pos, speakerMap);
    if cur.Err? {
      return Err(cur.error);
    }
    var result := Listed(ix.value, cur.value);
    return Ok(Labelled(result, cur.value));
  }

  // ----- properties -----

  /** The speaker of the last label with index `k`, if any. */
  function LastSpeaker(labels: seq<Value>, k: Value): Option<Value>
    decreases |labels|
  {
    if labels == [] then None
    else
      var s := labels[|labels| - 1];
      if IndexKey(s) == Ok(k) then Get(s, "speaker")
      else LastSpeaker(labels[..|labels| - 1], k)
  }

  /** Positions the index does not name. */
  predicate Unnamed(pos: map<Value, nat>, j: nat) {
    forall k :: k in pos ==> pos[k] != j
  }

  /** Writing a speaker twice leaves the second. */
  lemma SetSpeakerTwice(u: Value, a: Value, b: Value)
    ensures SetSpeaker(SetSpeaker(u, a), b) == SetSpeaker(u, b)
  {
    if u.VDict? {
      PutPut(u.entries, "speaker", a, b);
    }
  }

  /**
   * The dict an index names ends with the speaker of the last label for that
   * index, or stays as it was without one; dicts the index does not name are
   * never written.
   */
  lemma {:induction false} LabelsSpec(us: seq<Value>, pos: map<Value, nat>, labels: seq<Value>)
    requires Positions(us, pos)
    requires Labels(us, pos, labels).Ok?
    ensures forall k :: k in pos ==>
              Labels(us, pos, labels).value[pos[k]] ==
              match LastSpeaker(labels, k)
              case None => us[pos[k]]
              case Some(sp) => SetSpeaker(us[pos[k]], sp)
    ensures forall j :: 0 <= j < |us| && Unnamed(pos, j) ==> Labels(us, pos, labels).value[j] == us[j]
    decreases |labels|
  {
    if labels != [] {
      var n := |labels| - 1;
      var front := labels[..n];
      var s := labels[n];
      LabelsSpec(us, pos, front);
      var cur := Labels(us, pos, front).value;
      var all := Labels(us, pos, labels).value;
      var idx := IndexKey(s).value;
      if idx in pos {
        var sp := Subscript(s, "speaker").value;
        var p := pos[idx];
        assert all == cur[p := SetSpeaker(cur[p], sp)];
        forall k | k in pos
          ensures all[pos[k]] ==
            match LastSpeaker(labels, k)
            case None => us[pos[k]]
            case Some(sp) => SetSpeaker(us[pos[k]], sp)
        {
          if k == idx {
            assert LastSpeaker(labels, k) == Some(sp);
            match LastSpeaker(front, k) {
              case None =>
              case Some(a) => SetSpeakerTwice(us[pos[k]], a, sp);
            }
          } else {
            assert IndexKey(us[pos[k]]) == Ok(k) && IndexKey(us[p]) == Ok(idx);
            assert pos[k] != p;
            assert LastSpeaker(labels, k) == LastSpeaker(front, k);
          }
        }
        forall j | 0 <= j < |us| && Unnamed(pos, j) ensures all[j] == us[j] {
          assert j != p;
        }
      } else {
        assert all == cur;
        forall k | k in pos ensures LastSpeaker(labels, k) == LastSpeaker(front, k) {
          assert k != idx;
        }
      }
    }
  }

  /** Writing the speaker changes that key only; every other key of the dict keeps its value. */
  lemma SetSpeakerOthers(u: Value, sp: Value, k: string)
    requires u.VDict? && k != "speaker"
    ensures SetSpeaker(u, sp).VDict? && Lookup(SetSpeaker(u, sp).entries, k) == Lookup(u.entries, k)
    ensures Lookup(SetSpeaker(u, sp).entries, "speaker") == Some(sp)
  {
    LookupPut(u.entries, "speaker", sp, k);
    LookupPut(u.entries, "speaker", sp, "speaker");
  }

  /**
   * The result has one dict per distinct index, in first-appearance order,
   * each the last dict with that index as the caller's list now holds it; the
   * caller's list keeps its length.
   */
  lemma SpeakerLabelsSpec(us: seq<Value>, labels: seq<Value>)
    requires SpeakerLabels(us, labels).Ok?
    ensures var ix := Indexed(us).value; var out := SpeakerLabels(us, labels).value;
      && |out.utterances| == |us|
      && |out.result| == |ix.order|
      && (forall i :: 0 <= i < |out.result| ==> out.result[i] == out.utterances[ix.pos[ix.order[i]]])
      && (forall a, b :: 0 <= a < b < |ix.order| ==> ix.order[a] != ix.order[b])
      && (forall i :: 0 <= i < |us| ==> IndexKey(us[i]).Ok? && IndexKey(us[i]).value in ix.order)
      && (forall k :: k in ix.pos ==>
            && IndexKey(us[ix.pos[k]]) == Ok(k)
            && forall j :: ix.pos[k] < j < |us| ==> IndexKey(us[j]) != Ok(k))
  {
    var ix := Indexed(us).value;
    IndexedPositions(us);
    IndexedLast(us);
    IndexedDistinct(us);
    forall k | k in ix.pos ensures forall j :: ix.pos[k] < j < |us| ==> IndexKey(us[j]) != Ok(k) {
      forall j | ix.pos[k] < j < |us| ensures IndexKey(us[j]) != Ok(k) {
        assert j <= ix.pos[IndexKey(us[j]).value];
      }
    }
  }
}
