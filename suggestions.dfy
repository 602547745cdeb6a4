/**
 * System suggestions from similar past cases: the query text built from a
 * consultation's state, and the tally of the diagnoses, tests and medications
 * recorded in the metadata of the cases the vector store returns, keeping the
 * three most common of each.
 */
module Suggestions {
  import opened Wrappers
  import opened PyText
  import opened PyValue
  import opened SessionModels
  import opened ChromaStore

  // ----- normalising and the query -----

  /** What `_normalize_list` returns: only lists are flattened; a tuple is one scalar. */
  function ListStrings(v: Value): seq<string>
    decreases v
  {
    match v
    case VNull => []
    case VList(xs) => ItemListStrings(xs)
    case VDict(es) => [DictString(es)]
    case _ => [Str(v)]
  }

  function ItemListStrings(xs: seq<Value>): seq<string>
    decreases xs
  {
    if xs == [] then [] else ItemListStrings(xs[..|xs| - 1]) + ListStrings(xs[|xs| - 1])
  }

  /** `_normalize_list`: recursion on the items, extending `out`. */
  method NormalizeList(v: Value) returns (out: seq<string>)
    ensures out == ListStrings(v)
    decreases v
  {
    out := [];
    if v.VNull? {
      return out;
    }
    if v.VList? {
      var xs := v.items;
      for k := 0 to |xs|
        invariant out == ItemListStrings(xs[..k])
      {
        assert xs[..k + 1][..k] == xs[..k];
        assert xs[k] < v;
        var s := NormalizeList(xs[k]);
        out := out + s;
      }
      assert xs[..|xs|] == xs;
      return out;
    }
    if v.VDict? {
      var s := PreferredString(v.entries);
      out := out + [s];
      return out;
    }
    out := out + [Str(v)];
  }

  /** The parts of the query: each non-empty list under its heading. */
  function QueryParts(state: State): seq<string> {
    var symptoms := ListStrings(Field(state, "symptoms"));
    var investigations := ListStrings(Field(state, "investigations"));
    (if symptoms != [] then ["Symptoms: " + Join(", ", symptoms)] else [])
    + (if investigations != [] then ["Investigations: " + Join(", ", investigations)] else [])
  }

  /** What `build_query_text` returns. */
  function QueryText(state: State): string {
    var parts := QueryParts(state);
    if parts == [] then "" else Join(". ", parts)
  }

  /** `build_query_text`, appending one part at a time. */
  method BuildQueryText(state: State) returns (q: string)
    ensures q == QueryText(state)
  {
    var parts: seq<string> := [];
    var symptoms := NormalizeList(Field(state, "symptoms"));
    if symptoms != [] {
      parts := parts + ["Symptoms: " + Join(", ", symptoms)];
    }
    var investigations := NormalizeList(Field(state, "investigations"));
    if investigations != [] {
      parts := parts + ["Investigations: " + Join(", ", investigations)];
    }
    if parts == [] {
      return "";
    }
    return Join(". ", parts);
  }

  // ----- counting -----

  /** One `Counter` entry: a name and how often it was seen. */
  datatype Count = Count(name: string, n: nat)

  /** A `Counter`: its entries in the order the names were first seen. */
  type Counter = seq<Count>

  /** How often `x` was counted. */
  function CountOf(c: Counter, x: string): nat {
    if c == [] then 0 else if c[0].name == x then c[0].n else CountOf(c[1..], x)
  }

  /** Counting `x` once more: its entry is incremented, or a new entry appended. */
  function Bump(c: Counter, x: string): Counter {
    if c == [] then [Count(x, 1)]
    else if c[0].name == x then [Count(x, c[0].n + 1)] + c[1..]
    else [c[0]] + Bump(c[1..], x)
  }

  /** `counter.update(items)`. */
  function Update(c: Counter, items: seq<string>): Counter
    decreases |items|
  {
    if items == [] then c else Bump(Update(c, items[..|items| - 1]), items[|items| - 1])
  }

  /** `[d.strip() for d in s.split(",") if d.strip()]`. */
  function Pieces(parts: seq<string>): (r: seq<string>)
    ensures forall i :: 0 <= i < |r| ==> r[i] != ""
  {
    if parts == [] then []
    else (if Strip(parts[0]) != "" then [Strip(parts[0])] else []) + Pieces(parts[1..])
  }

  /** The three counters of the tally. */
  datatype Counters = Counters(diagnosis: Counter, tests: Counter, medications: Counter)

  /** Counting one field of a metadata dict, if present; a field that is not a string has no `split`. */
  function CountField(c: Counter, meta: seq<Entry>, key: string): Result<Counter, PyError> {
    match Lookup(meta, key)
    case None => Ok(c)
    case Some(v) => if v.VStr? then Ok(Update(c, Pieces(Split(v.s, ',')))) else Err(AttributeError)
  }

  /** One turn of the tally loop: non-dict entries are skipped. */
  function TallyStep(cs: Counters, meta: Value): Result<Counters, PyError> {
    if !meta.VDict? then Ok(cs)
    else
      match CountField(cs.diagnosis, meta.entries, "diagnosis")
      case Err(e) => Err(e)
      case Ok(d) =>
        match CountField(cs.tests, meta.entries, "tests")
        case Err(e) => Err(e)
        case Ok(t) =>
          match CountField(cs.medications, meta.entries, "medications")
          case Err(e) => Err(e)
          case Ok(m) => Ok(Counters(d, t, m))
  }

  /** The counters after the loop over the metadata entries, or the first error. */
  function Tallied(metas: seq<Value>): Result<Counters, PyError>
    decreases |metas|
  {
    if metas == [] then Ok(Counters([], [], []))
    else
      match Tallied(metas[..|metas| - 1])
      case Err(e) => Err(e)
      case Ok(cs) => TallyStep(cs, metas[|metas| - 1])
  }

  lemma {:induction false} TalliedFails(metas: seq<Value>, k: nat, cs: Counters)
    requires k < |metas| && Tallied(metas[..k]) == Ok(cs) && TallyStep(cs, metas[k]).Err?
    ensures Tallied(metas) == TallyStep(cs, metas[k])
    decreases |metas|
  {
    var n := |metas| - 1;
    if n == k {
      assert metas[..n] == metas[..k];
    } else {
      assert metas[..n][..k] == metas[..k];
      assert metas[..n][k] == metas[k];
      TalliedFails(metas[..n], k, cs);
    }
  }

  /** The tally loop, updating the three counters in place. */
  method TallyMetadata(metas: seq<Value>) returns (r: Result<Counters, PyError>)
    ensures r == Tallied(metas)
  {
    var diagnosis: Counter := [];
    var tests: Counter := [];
    var medications: Counter := [];
    for k := 0 to |metas|
      invariant Tallied(metas[..k]) == Ok(Counters(diagnosis, tests, medications))
    {
      assert metas[..k + 1][..k] == metas[..k];
      var meta := metas[k];
      if !meta.VDict? {
        continue;
      }
      var step := TallyStep(Counters(diagnosis, tests, medications), meta);
      if step.Err? {
        TalliedFails(metas, k, Counters(diagnosis, tests, medications));
        return Err(step.error);
      }
      diagnosis, tests, medications := step.value.diagnosis, step.value.tests, step.value.medications;
    }
    assert metas[..|metas|] == metas;
    return Ok(Counters(diagnosis, tests, medications));
  }

  // ----- most_common -----

  /** The first entry with the highest count. */
  function ArgMax(c: Counter): (r: nat)
    requires c != []
    ensures r < |c|
    decreases |c|
  {
    if |c| == 1 then 0
    else
      var j := ArgMax(c[..|c| - 1]);
      if c[|c| - 1].n > c[j].n then |c| - 1 else j
  }

  /** The chosen entry has the highest count, and every entry before it a lower one. */
  lemma {:induction false} ArgMaxSpec(c: Counter)
    requires c != []
    ensures forall i :: 0 <= i < |c| ==> c[i].n <= c[ArgMax(c)].n
    ensures forall i :: 0 <= i < ArgMax(c) ==> c[i].n < c[ArgMax(c)].n
    decreases |c|
  {
    if |c| > 1 {
      var front := c[..|c| - 1];
      ArgMaxSpec(front);
      assert forall i :: 0 <= i < |front| ==> front[i] == c[i];
    }
  }

  function Remove(c: Counter, i: nat): (r: Counter)
    requires i < |c|
    ensures |r| == |c| - 1
  {
    c[..i] + c[i + 1..]
  }

  /** `counter.most_common(n)`: highest counts first, ties in first-seen order. */
  function Top(c: Counter, n: nat): (r: Counter)
    decreases n
  {
    if n == 0 || c == [] then []
    else
      var i := ArgMax(c);
      [c[i]] + Top(Remove(c, i), n - 1)
  }

  /** The entries `most_common(n)` leaves out. */
  function Rest(c: Counter, n: nat): Counter
    decreases n
  {
    if n == 0 || c == [] then c else Rest(Remove(c, ArgMax(c)), n - 1)
  }

  // ----- the suggestion -----

  /** `{"based_on_cases": …, "diagnosis": […], "tests": […], "medications": […]}`, each list of `{name, count}`. */
  datatype Suggestion = Suggestion(basedOnCases: nat, diagnosis: Counter, tests: Counter, medications: Counter)

  const Zero: Suggestion := Suggestion(0, [], [], [])

  /** `metadatas[0]` on a truthy value. */
  function First(v: Value): Result<Value, PyError> {
    match v
    case VList(xs) => if xs == [] then Err(TypeError) else Ok(xs[0])
    case VTuple(xs) => if xs == [] then Err(TypeError) else Ok(xs[0])
    case VStr(s) => if s == "" then Err(TypeError) else Ok(VStr([s[0]]))
    case VDict(_) => Err(KeyError)
    case _ => Err(TypeError)
  }

  /**
   * The tally and top-3 part of `generate_system_suggestions`; `results` is
   * what the store's query returned, or `None` when the query raised.
   */
  function Suggested(state: State, results: Option<Value>): (r: Result<Suggestion, PyError>)
    ensures r != Ok(Zero) ==> results.Some? && !IsBlank(QueryText(state))
    ensures r.Ok? && r.value != Zero ==>
      results.Some? && GetOr(results.value, "metadatas", VList([VList([])])).Ok?
      && Truthy(GetOr(results.value, "metadatas", VList([VList([])])).value)
  {
    if IsBlank(QueryText(state)) then Ok(Zero)
    else
      match results
      case None => Ok(Zero)
      case Some(res) =>
        match GetOr(res, "metadatas", VList([VList([])]))
        case Err(e) => Err(e)
        case Ok(metadatas) =>
          if !Truthy(metadatas) then Ok(Zero)
          else
            match First(metadatas)
            case Err(e) => Err(e)
            case Ok(first) =>
              if !Truthy(first) then Ok(Zero)
              else
                match Iter(first)
                case Err(e) => Err(e)
                case Ok(metas) =>
                  match Tallied(metas)
                  case Err(e) => Err(e)
                  case Ok(cs) =>
                    Ok(Suggestion(|metas|, Top(cs.diagnosis, 3), Top(cs.tests, 3), Top(cs.medications, 3)))
  }

  /** `generate_system_suggestions` after the query. */
  method GenerateSystemSuggestions(state: State, results: Option<Value>) returns (r: Result<Suggestion, PyError>)
    ensures r == Suggested(state, results)
  {
    var query := BuildQueryText(state);
    if Strip(query) == "" {
      return Ok(Zero);
    }
    if results.None? {
      return Ok(Zero);
    }
    var metadatas := GetOr(results.value, "metadatas", VList([VList([])]));
    if metadatas.Err? {
      return Err(metadatas.error);
    }
    if !Truthy(metadatas.value) {
      return Ok(Zero);
    }
    var first := First(metadatas.value);
    if first.Err? {
      return Err(first.error);
    }
    if !Truthy(first.value) {
      return Ok(Zero);
    }
    var metas := Iter(first.value);
    if metas.Err? {
      return Err(metas.error);
    }
    var cs := TallyMetadata(metas.value);
    if cs.Err? {
      return Err(cs.error);
    }
    var c := cs.value;
    return Ok(Suggestion(|metas.value|, Top(c.diagnosis, 3), Top(c.tests, 3), Top(c.medications, 3)));
  }

  // ----- properties -----

  /** A value without tuples normalises the same way in both modules; a tuple is where they differ. */
  lemma {:induction false} NormalizersAgree(v: Value)
    requires NoTuples(v)
    ensures ListStrings(v) == Strings(v)
    decreases v
  {
    match v
    case VList(xs) => ItemsAgree(xs);
    case _ =>
  }

  lemma {:induction false} ItemsAgree(xs: seq<Value>)
    requires forall i :: 0 <= i < |xs| ==> NoTuples(xs[i])
    ensures ItemListStrings(xs) == ItemStrings(xs)
    decreases xs
  {
    if xs != [] {
      ItemsAgree(xs[..|xs| - 1]);
      NormalizersAgree(xs[|xs| - 1]);
    }
  }

  predicate NoTuples(v: Value)
    decreases v
  {
    match v
    case VTuple(_) => false
    case VList(xs) => forall i :: 0 <= i < |xs| ==> NoTuples(xs[i])
    case _ => true
  }

  /** A tuple is flattened by the vector store's normaliser but stringified whole here. */
  lemma TupleDiffers(xs: seq<Value>)
    ensures ListStrings(VTuple(xs)) == [Str(VTuple(xs))]
    ensures Strings(VTuple(xs)) == ItemStrings(xs)
  {
  }

  /** The lists are concatenated in order. */
  lemma {:induction false} ItemListStringsConcat(xs: seq<Value>, ys: seq<Value>)
    ensures ItemListStrings(xs + ys) == ItemListStrings(xs) + ItemListStrings(ys)
    decreases |ys|
  {
    if ys == [] {
      assert xs + ys == xs;
    } else {
      var n := |ys| - 1;
      LastOfConcat(xs, ys);
      ItemListStringsConcat(xs, ys[..n]);
    }
  }

  /** Dropping the last item of `xs + ys`, for a non-empty `ys`. */
  lemma LastOfConcat(xs: seq<Value>, ys: seq<Value>)
    requires ys != []
    ensures ItemListStrings(xs + ys) == ItemListStrings(xs + ys[..|ys| - 1]) + ListStrings(ys[|ys| - 1])
    ensures ItemListStrings(ys) == ItemListStrings(ys[..|ys| - 1]) + ListStrings(ys[|ys| - 1])
  {
    var zs := xs + ys;
    assert zs[..|zs| - 1] == xs + ys[..|ys| - 1];
  }

  /** The query is empty exactly when both lists normalise to nothing, and is then the only blank query. */
  lemma QueryTextSpec(state: State)
    ensures QueryText(state) == "" <==>
      ListStrings(Field(state, "symptoms")) == [] && ListStrings(Field(state, "investigations")) == []
    ensures IsBlank(QueryText(state)) <==> QueryText(state) == ""
  {
    var parts := QueryParts(state);
    if parts != [] {
      JoinFirst(". ", parts);
      var q := QueryText(state);
      assert parts[0][0] in "SI";
      assert !IsSpace(q[0]);
    }
  }

  /** Counting `x` adds one to its count and leaves every other name's count. */
  lemma {:induction false} BumpCount(c: Counter, x: string, y: string)
    ensures CountOf(Bump(c, x), y) == CountOf(c, y) + (if x == y then 1 else 0)
  {
    if c != [] && c[0].name != x {
      BumpCount(c[1..], x, y);
    }
  }

  /** After `update`, each name's count has grown by its number of occurrences. */
  lemma {:induction false} UpdateCount(c: Counter, items: seq<string>, y: string)
    ensures CountOf(Update(c, items), y) == CountOf(c, y) + multiset(items)[y]
    decreases |items|
  {
    if items != [] {
      var n := |items| - 1;
      UpdateCount(c, items[..n], y);
      BumpCount(Update(c, items[..n]), items[n], y);
      assert items == items[..n] + [items[n]];
    }
  }

  /** Every count is at least one. */
  predicate Positive(c: Counter) {
    forall i :: 0 <= i < |c| ==> c[i].n >= 1
  }

  lemma {:induction false} BumpPositive(c: Counter, x: string)
    requires Positive(c)
    ensures Positive(Bump(c, x))
  {
    if c != [] && c[0].name != x {
      BumpPositive(c[1..], x);
    }
  }

  lemma {:induction false} UpdatePositive(c: Counter, items: seq<string>)
    requires Positive(c)
    ensures Positive(Update(c, items))
    decreases |items|
  {
    if items != [] {
      UpdatePositive(c, items[..|items| - 1]);
      BumpPositive(Update(c, items[..|items| - 1]), items[|items| - 1]);
    }
  }

  lemma {:induction false} TalliedPositive(metas: seq<Value>)
    requires Tallied(metas).Ok?
    ensures var cs := Tallied(metas).value; Positive(cs.diagnosis) && Positive(cs.tests) && Positive(cs.medications)
    decreases |metas|
  {
    if metas != [] {
      var n := |metas| - 1;
      TalliedPositive(metas[..n]);
      var cs := Tallied(metas[..n]).value;
      var meta := metas[n];
      if meta.VDict? {
        FieldPositive(cs.diagnosis, meta.entries, "diagnosis");
        FieldPositive(cs.tests, meta.entries, "tests");
        FieldPositive(cs.medications, meta.entries, "medications");
      }
    }
  }

  lemma FieldPositive(c: Counter, meta: seq<Entry>, key: string)
    requires Positive(c)
    ensures CountField(c, meta, key).Ok? ==> Positive(CountField(c, meta, key).value)
  {
    var v := Lookup(meta, key);
    if v.Some? && v.value.VStr? {
      UpdatePositive(c, Pieces(Split(v.value.s, ',')));
    }
  }

  /** Removing one entry removes exactly it from the multiset. */
  lemma RemoveMultiset(c: Counter, i: nat)
    requires i < |c|
    ensures multiset(Remove(c, i)) + multiset{c[i]} == multiset(c)
  {
    assert c == c[..i] + [c[i]] + c[i + 1..];
  }

  /** `most_common(n)` splits the counter: what it keeps and what it leaves are together the counter. */
  lemma {:induction false} TopPartition(c: Counter, n: nat)
    ensures multiset(Top(c, n)) + multiset(Rest(c, n)) == multiset(c)
    decreases n
  {
    if n != 0 && c != [] {
      var c' := Remove(c, ArgMax(c));
      TopPartition(c', n - 1);
      TopPartitionStep(c, n);
    }
  }

  /** The partition of the counter left after taking a highest entry extends to the whole counter. */
  lemma TopPartitionStep(c: Counter, n: nat)
    requires n != 0 && c != []
    requires var c' := Remove(c, ArgMax(c)); multiset(Top(c', n - 1)) + multiset(Rest(c', n - 1)) == multiset(c')
    ensures multiset(Top(c, n)) + multiset(Rest(c, n)) == multiset(c)
  {
    var i := ArgMax(c);
    var c' := Remove(c, i);
    RemoveMultiset(c, i);
    PrependPartition(c[i], Top(c', n - 1), Rest(c', n - 1), c', c);
    TopStep(c, n);
  }

  /** One step of `most_common(n)`: a highest entry comes first, then the rest of the counter's top entries. */
  lemma TopStep(c: Counter, n: nat)
    requires n != 0 && c != []
    ensures Top(c, n) == [c[ArgMax(c)]] + Top(Remove(c, ArgMax(c)), n - 1)
    ensures Rest(c, n) == Rest(Remove(c, ArgMax(c)), n - 1)
  {
  }

  /** Putting back the entry taken out keeps a partition a partition. */
  lemma PrependPartition(x: Count, t: Counter, r: Counter, c': Counter, c: Counter)
    requires multiset(t) + multiset(r) == multiset(c')
    requires multiset(c') + multiset{x} == multiset(c)
    ensures multiset([x] + t) + multiset(r) == multiset(c)
  {
    assert multiset([x] + t) == multiset{x} + multiset(t);
  }

  /** `most_common(n)` keeps `n` entries, or all of them when there are fewer. */
  lemma {:induction false} TopSize(c: Counter, n: nat)
    ensures |Top(c, n)| == if n < |c| then n else |c|
    decreases n
  {
    if n != 0 && c != [] {
      TopSize(Remove(c, ArgMax(c)), n - 1);
    }
  }

  /** No entry left after removing a highest one counts more than it. */
  lemma RemoveBelow(c: Counter, i: nat)
    requires i < |c|
    requires forall k :: 0 <= k < |c| ==> c[k].n <= c[i].n
    ensures forall e :: e in Remove(c, i) ==> e.n <= c[i].n
  {
    RemoveMultiset(c, i);
    forall e | e in Remove(c, i) ensures e.n <= c[i].n {
      assert e in multiset(c);
    }
  }

  /** What `most_common(n)` keeps and leaves are entries of the counter. */
  lemma TopMembers(c: Counter, n: nat)
    ensures forall e :: e in Top(c, n) ==> e in c
    ensures forall e :: e in Rest(c, n) ==> e in c
  {
    TopPartition(c, n);
    forall e | e in Top(c, n) ensures e in c { assert e in multiset(Top(c, n)); }
    forall e | e in Rest(c, n) ensures e in c { assert e in multiset(Rest(c, n)); }
  }

  /** The kept entries come in non-increasing order of count. */
  lemma {:induction false} TopSorted(c: Counter, n: nat)
    ensures forall i, j :: 0 <= i < j < |Top(c, n)| ==> Top(c, n)[i].n >= Top(c, n)[j].n
    decreases n
  {
    if n != 0 && c != [] {
      var i := ArgMax(c);
      var x := c[i];
      var c' := Remove(c, i);
      TopSorted(c', n - 1);
      TopMembers(c', n - 1);
      ArgMaxSpec(c);
      RemoveBelow(c, i);
      var t' := Top(c', n - 1);
      var top := Top(c, n);
      assert top == [x] + t';
      forall a, b | 0 <= a < b < |top| ensures top[a].n >= top[b].n {
        assert top[b] == t'[b - 1];
        if a == 0 { assert t'[b - 1] in t'; }
        else { assert top[a] == t'[a - 1]; }
      }
    }
  }

  /** No entry left out counts more than any kept one. */
  lemma {:induction false} TopDominates(c: Counter, n: nat)
    ensures forall i, e :: 0 <= i < |Top(c, n)| && e in Rest(c, n) ==> e.n <= Top(c, n)[i].n
    decreases n
  {
    if n != 0 && c != [] {
      var i := ArgMax(c);
      var x := c[i];
      var c' := Remove(c, i);
      TopDominates(c', n - 1);
      TopMembers(c', n - 1);
      ArgMaxSpec(c);
      RemoveBelow(c, i);
      var t' := Top(c', n - 1);
      var r' := Rest(c', n - 1);
      var top := Top(c, n);
      assert top == [x] + t';
      assert Rest(c, n) == r';
      forall a, e | 0 <= a < |top| && e in r' ensures e.n <= top[a].n {
        if a != 0 { assert top[a] == t'[a - 1]; }
      }
    }
  }

  /** Each list has at most three entries, sorted by non-increasing count, every count at least one. */
  lemma SuggestedSpec(state: State, results: Option<Value>)
    requires Suggested(state, results).Ok?
    ensures var s := Suggested(state, results).value;
      && |s.diagnosis| <= 3 && |s.tests| <= 3 && |s.medications| <= 3
      && (forall i :: 0 <= i < |s.diagnosis| ==> s.diagnosis[i].n >= 1)
      && (forall i :: 0 <= i < |s.tests| ==> s.tests[i].n >= 1)
      && (forall i :: 0 <= i < |s.medications| ==> s.medications[i].n >= 1)
      && (forall i, j :: 0 <= i < j < |s.diagnosis| ==> s.diagnosis[i].n >= s.diagnosis[j].n)
      && (forall i, j :: 0 <= i < j < |s.tests| ==> s.tests[i].n >= s.tests[j].n)
      && (forall i, j :: 0 <= i < j < |s.medications| ==> s.medications[i].n >= s.medications[j].n)
  {
    var s := Suggested(state, results).value;
    if s != Zero {
      var metas := Iter(First(GetOr(results.value, "metadatas", VList([VList([])])).value).value).value;
      var cs := Tallied(metas).value;
      TalliedPositive(metas);
      TopKept(cs.diagnosis, 3);
      TopKept(cs.tests, 3);
      TopKept(cs.medications, 3);
    }
  }

  /** The shape `most_common(n)` promises of a counter whose counts are all positive. */
  lemma TopKept(c: Counter, n: nat)
    requires Positive(c)
    ensures |Top(c, n)| <= n
    ensures forall i :: 0 <= i < |Top(c, n)| ==> Top(c, n)[i].n >= 1
    ensures forall i, j :: 0 <= i < j < |Top(c, n)| ==> Top(c, n)[i].n >= Top(c, n)[j].n
  {
    TopPartition(c, n);
    TopSize(c, n);
    TopSorted(c, n);
    forall i | 0 <= i < |Top(c, n)| ensures Top(c, n)[i].n >= 1 {
      assert Top(c, n)[i] in multiset(c);
    }
  }

  /** The zero result: a blank query, a failed query, or no metadata. */
  lemma ZeroCases(state: State, results: Option<Value>)
    ensures IsBlank(QueryText(state)) ==> Suggested(state, results) == Ok(Zero)
    ensures results.None? ==> Suggested(state, results) == Ok(Zero)
    ensures results == Some(VDict([])) ==> Suggested(state, results) == Ok(Zero)
    ensures results == Some(VDict([Entry("metadatas", VList([VList([])]))])) ==> Suggested(state, results) == Ok(Zero)
    ensures results == Some(VDict([Entry("metadatas", VList([]))])) ==> Suggested(state, results) == Ok(Zero)
  {
    if !IsBlank(QueryText(state)) && results == Some(VDict([])) {
      assert First(VList([VList([])])) == Ok(VList([]));
    }
  }

  /** A query result holding one list of metadata entries reads back as that list. */
  lemma MetadatasRead(metas: seq<Value>)
    requires metas != []
    ensures var res := VDict([Entry("metadatas", VList([VList(metas)]))]);
      && GetOr(res, "metadatas", VList([VList([])])) == Ok(VList([VList(metas)]))
      && Truthy(VList([VList(metas)]))
      && First(VList([VList(metas)])) == Ok(VList(metas))
      && Truthy(VList(metas))
      && Iter(VList(metas)) == Ok(metas)
  {
    var es := [Entry("metadatas", VList([VList(metas)]))];
    assert Lookup(es, "metadatas") == Some(VList([VList(metas)]));
  }

  /** `based_on_cases` counts every metadata entry, the non-dict ones included, which count nothing. */
  lemma BasedOnCases(state: State, metas: seq<Value>)
    requires !IsBlank(QueryText(state)) && metas != []
    requires Tallied(metas).Ok?
    ensures var results := Some(VDict([Entry("metadatas", VList([VList(metas)]))]));
      Suggested(state, results).Ok? && Suggested(state, results).value.basedOnCases == |metas|
  {
    MetadatasRead(metas);
    CountedCases(state, VDict([Entry("metadatas", VList([VList(metas)]))]), metas);
  }

  /** Once the first list of metadata entries is read, it is what `based_on_cases` counts. */
  lemma CountedCases(state: State, res: Value, metas: seq<Value>)
    requires !IsBlank(QueryText(state)) && Tallied(metas).Ok?
    requires GetOr(res, "metadatas", VList([VList([])])) == Ok(VList([VList(metas)]))
    requires Truthy(VList([VList(metas)])) && First(VList([VList(metas)])) == Ok(VList(metas))
    requires Truthy(VList(metas)) && Iter(VList(metas)) == Ok(metas)
    ensures Suggested(state, Some(res)).Ok? && Suggested(state, Some(res)).value.basedOnCases == |metas|
  {
  }

  lemma SkipNonDict(cs: Counters, meta: Value)
    requires !meta.VDict?
    ensures TallyStep(cs, meta) == Ok(cs)
  {
  }

  /**
   * The stored metadata reads back: splitting a `_safe_join` on "," and
   * stripping each piece gives its stripped non-blank strings, provided none
   * of them holds a comma.
   */
  lemma SafeJoinPieces(v: Value)
    requires forall i :: 0 <= i < |NonBlank(Strings(v))| ==> ',' !in NonBlank(Strings(v))[i]
    ensures Pieces(Split(SafeJoin(v), ',')) == Stripped(NonBlank(Strings(v)))
  {
    var ps := NonBlank(Strings(v));
    if ps == [] {
      SplitNoSep("", ',');
      assert Strip("") == "";
    } else {
      SplitJoin("", ps);
      assert "" + Join(", ", ps) == Join(", ", ps);
      assert "" + ps[0] == ps[0];
      PiecesContinued(ps[1..]);
      assert Strip(ps[0]) != "";
    }
  }

  function Stripped(ps: seq<string>): seq<string> {
    if ps == [] then [] else [Strip(ps[0])] + Stripped(ps[1..])
  }

  lemma {:induction false} PiecesContinued(ps: seq<string>)
    requires forall i :: 0 <= i < |ps| ==> !IsBlank(ps[i])
    ensures Pieces(Continued(ps)) == Stripped(ps)
    decreases |ps|
  {
    if ps != [] {
      StripSpacePrefix(ps[0]);
      PiecesContinued(ps[1..]);
      assert Continued(ps)[1..] == Continued(ps[1..]);
    }
  }
}
