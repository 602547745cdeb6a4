/**
 * The pure part of the vector store: turning any section value into a list
 * of strings, joining the non-blank ones, and the document text and metadata
 * a finished consultation is stored under.
 */
module ChromaStore {
  import opened Wrappers
  import opened PyText
  import opened PyValue
  import opened SessionModels

  /** The keys a dict entry is named by, in order of preference. */
  const PreferredKeys: seq<string> := ["name", "value", "label"]

  /** The value of the first of `keys` that the dict holds with a truthy value. */
  function FirstTruthy(es: seq<Entry>, keys: seq<string>): (r: Option<Value>)
    ensures r.Some? ==> Truthy(r.value) && exists i :: 0 <= i < |keys| && Lookup(es, keys[i]) == r
    ensures r.Some? ==>
      exists i :: 0 <= i < |keys| && Lookup(es, keys[i]) == r
        && forall j :: 0 <= j < i ==> Lookup(es, keys[j]).None? || !Truthy(Lookup(es, keys[j]).value)
    ensures r.None? <==> forall i :: 0 <= i < |keys| ==> Lookup(es, keys[i]).None? || !Truthy(Lookup(es, keys[i]).value)
    decreases |keys|
  {
    if keys == [] then None
    else
      var found := Lookup(es, keys[0]);
      if found.Some? && Truthy(found.value) then found
      else
        var r := FirstTruthy(es, keys[1..]);
        assert forall i :: 0 <= i < |keys| - 1 ==> keys[1..][i] == keys[i + 1];
        r
  }

  /** The one string a dict becomes: its preferred name, or `str(dict)`. */
  function DictString(es: seq<Entry>): string {
    match FirstTruthy(es, PreferredKeys)
    case Some(v) => Str(v)
    case None => Str(VDict(es))
  }

  /** What `_normalize_to_strings` returns: lists and tuples are flattened in order. */
  function Strings(v: Value): seq<string>
    decreases v
  {
    match v
    case VNull => []
    case VList(xs) => ItemStrings(xs)
    case VTuple(xs) => ItemStrings(xs)
    case VDict(es) => [DictString(es)]
    case _ => [Str(v)]
  }

  /** The concatenated strings of the items, in order. */
  function ItemStrings(xs: seq<Value>): seq<string>
    decreases xs
  {
    if xs == [] then [] else ItemStrings(xs[..|xs| - 1]) + Strings(xs[|xs| - 1])
  }

  /** The dict branch: the loop over the preferred keys, leaving at the first truthy one. */
  method PreferredString(es: seq<Entry>) returns (s: string)
    ensures s == DictString(es)
  {
    var keys := PreferredKeys;
    for k := 0 to |keys|
      invariant FirstTruthy(es, keys[k..]) == FirstTruthy(es, keys)
    {
      assert keys[k..][1..] == keys[k + 1..];
      var found := Lookup(es, keys[k]);
      if found.Some? && Truthy(found.value) {
        return Str(found.value);
      }
    }
    return Str(VDict(es));
  }

  /** `_normalize_to_strings`: recursion on the items, extending `out`. */
  method NormalizeToStrings(v: Value) returns (out: seq<string>)
    ensures out == Strings(v)
    decreases v
  {
    out := [];
    if v.VNull? {
      return out;
    }
    if v.VList? || v.VTuple? {
      var xs := if v.VList? then v.items else v.elems;
      for k := 0 to |xs|
        invariant out == ItemStrings(xs[..k])
      {
        assert xs[..k + 1][..k] == xs[..k];
        assert xs[k] < v;
        var s := NormalizeToStrings(xs[k]);
        out := out + s;
      }
      assert xs[..|xs|] == xs;
      return out;
    }
    if v.VDict? {
      var s := PreferredString(v.entries);
      out := out + [s];
      return out;
    }
    out := out + [Str(v)];
  }

  /** `_safe_join`: the non-blank strings joined by ", ". */
  function SafeJoin(v: Value): string {
    Join(", ", NonBlank(Strings(v)))
  }

  /** `structured_state.get(key)`. */
  function Field(state: State, key: string): Value {
    if key in state then state[key] else VNull
  }

  /** One section of the document: its title and the join, if the join is non-empty. */
  function Labelled(title: string, joined: string): seq<string> {
    if joined == "" then [] else [title + ": " + joined]
  }

  /** The sections of `build_document`, in its fixed order. */
  function DocumentSections(state: State): seq<string> {
    Labelled("Diagnosis", SafeJoin(Field(state, "diagnosis")))
    + Labelled("Medications", SafeJoin(Field(state, "medications")))
    + Labelled("Tests advised", SafeJoin(Field(state, "tests")))
    + Labelled("Symptoms", SafeJoin(Field(state, "symptoms")))
    + Labelled("Investigations", SafeJoin(Field(state, "investigations")))
    + Labelled("Advice", SafeJoin(Field(state, "advice")))
  }

  const Fallback: string := "Clinical consultation recorded."

  /** The document text: the sections joined by ". ", or the fallback when there is none. */
  function Document(state: State): string {
    var sections := DocumentSections(state);
    if sections == [] then Fallback else Join(". ", sections)
  }

  /** `if joined: sections.append(f"{title}: {joined}")`. */
  method AddSection(sections: seq<string>, title: string, joined: string) returns (r: seq<string>)
    ensures r == sections + Labelled(title, joined)
  {
    r := sections;
    if joined != "" {
      r := r + [title + ": " + joined];
    }
  }

  /** `build_document`, appending one section at a time. */
  method BuildDocument(state: State) returns (doc: string)
    ensures doc == Document(state)
  {
    var sections: seq<string> := [];
    var diagnosis := SafeJoin(Field(state, "diagnosis"));
    sections := AddSection(sections, "Diagnosis", diagnosis);
    assert sections == Labelled("Diagnosis", diagnosis);
    var medications := SafeJoin(Field(state, "medications"));
    sections := AddSection(sections, "Medications", medications);
    var tests := SafeJoin(Field(state, "tests"));
    sections := AddSection(sections, "Tests advised", tests);
    var symptoms := SafeJoin(Field(state, "symptoms"));
    sections := AddSection(sections, "Symptoms", symptoms);
    var investigations := SafeJoin(Field(state, "investigations"));
    sections := AddSection(sections, "Investigations", investigations);
    var advice := SafeJoin(Field(state, "advice"));
    sections := AddSection(sections, "Advice", advice);
    if sections == [] {
      return Fallback;
    }
    return Join(". ", sections);
  }

  /** The entry of `metadata` a non-empty join adds. */
  function MetaEntry(key: string, joined: string): seq<Entry> {
    if joined == "" then [] else [Entry(key, VStr(joined))]
  }

  /** The dict `build_metadata` returns. */
  function Metadata(state: State): seq<Entry> {
    MetaEntry("diagnosis", SafeJoin(Field(state, "diagnosis")))
    + MetaEntry("tests", SafeJoin(Field(state, "tests")))
    + [Entry("source", VStr("ai_scribe_v1"))]
  }

  /** `build_metadata`, assigning one key at a time. */
  method BuildMetadata(state: State) returns (m: seq<Entry>)
    ensures m == Metadata(state)
  {
    m := [];
    var diagnosis := SafeJoin(Field(state, "diagnosis"));
    if diagnosis != "" {
      m := Put(m, "diagnosis", VStr(diagnosis));
    }
    assert m == MetaEntry("diagnosis", diagnosis);
    var tests := SafeJoin(Field(state, "tests"));
    if tests != "" {
      PutAbsent(m, "tests", VStr(tests));
      m := Put(m, "tests", VStr(tests));
    }
    assert m == MetaEntry("diagnosis", diagnosis) + MetaEntry("tests", tests);
    PutAbsent(m, "source", VStr("ai_scribe_v1"));
    m := Put(m, "source", VStr("ai_scribe_v1"));
  }

  // ----- properties -----

  /** A joined string is empty exactly when every string is blank. */
  lemma {:induction false} JoinEmpty(sep: string, parts: seq<string>)
    requires sep != []
    ensures Join(sep, parts) == "" <==> parts == [] || (|parts| == 1 && parts[0] == "")
    decreases |parts|
  {
    if |parts| > 1 {
      JoinEmpty(sep, parts[1..]);
    }
  }

  /** `_safe_join` is empty exactly when the value normalises to blank strings only. */
  lemma SafeJoinEmpty(v: Value)
    ensures SafeJoin(v) == "" <==> NonBlank(Strings(v)) == []
  {
    var parts := NonBlank(Strings(v));
    JoinEmpty(", ", parts);
    if |parts| == 1 {
      assert !IsBlank(parts[0]);
    }
  }

  /** The first character of a join is that of its first part. */
  lemma JoinFirst(sep: string, parts: seq<string>)
    requires parts != [] && parts[0] != ""
    ensures Join(sep, parts) != [] && Join(sep, parts)[0] == parts[0][0]
  {
  }

  /** Strings none of which is empty or starts like the fallback. */
  predicate Titled(xs: seq<string>) {
    forall i :: 0 <= i < |xs| ==> xs[i] != "" && xs[i][0] != 'C'
  }

  lemma TitledLabelled(title: string, joined: string)
    requires title != "" && title[0] != 'C'
    ensures Titled(Labelled(title, joined))
  {
    if joined != "" {
      assert (title + ": " + joined)[0] == title[0];
    }
  }

  lemma TitledConcat(a: seq<string>, b: seq<string>)
    requires Titled(a) && Titled(b)
    ensures Titled(a + b)
  {
    assert forall i :: |a| <= i < |a + b| ==> (a + b)[i] == b[i - |a|];
  }

  /** No section is empty, and none starts with the fallback's first letter. */
  lemma SectionsTitled(state: State)
    ensures Titled(DocumentSections(state))
  {
    var d, m, t := SafeJoin(Field(state, "diagnosis")), SafeJoin(Field(state, "medications")), SafeJoin(Field(state, "tests"));
    var y, i, a := SafeJoin(Field(state, "symptoms")), SafeJoin(Field(state, "investigations")), SafeJoin(Field(state, "advice"));
    TitledLabelled("Diagnosis", d);
    TitledLabelled("Medications", m);
    TitledLabelled("Tests advised", t);
    TitledLabelled("Symptoms", y);
    TitledLabelled("Investigations", i);
    TitledLabelled("Advice", a);
    var l1, l2, l3 := Labelled("Diagnosis", d), Labelled("Medications", m), Labelled("Tests advised", t);
    var l4, l5, l6 := Labelled("Symptoms", y), Labelled("Investigations", i), Labelled("Advice", a);
    TitledConcat(l1, l2);
    TitledConcat(l1 + l2, l3);
    TitledConcat(l1 + l2 + l3, l4);
    TitledConcat(l1 + l2 + l3 + l4, l5);
    TitledConcat(l1 + l2 + l3 + l4 + l5, l6);
  }

  /** The document is never empty, and is the fallback exactly when all six sections are empty. */
  lemma DocumentSpec(state: State)
    ensures Document(state) != ""
    ensures Document(state) == Fallback <==>
      && SafeJoin(Field(state, "diagnosis")) == "" && SafeJoin(Field(state, "medications")) == ""
      && SafeJoin(Field(state, "tests")) == "" && SafeJoin(Field(state, "symptoms")) == ""
      && SafeJoin(Field(state, "investigations")) == "" && SafeJoin(Field(state, "advice")) == ""
  {
    var sections := DocumentSections(state);
    if sections != [] {
      SectionsTitled(state);
      JoinFirst(". ", sections);
      assert Fallback[0] == 'C';
    }
  }

  /** The metadata's keys: the two joins present exactly when non-empty, then the source tag. */
  lemma MetadataKeys(state: State)
    ensures var d := SafeJoin(Field(state, "diagnosis")); var t := SafeJoin(Field(state, "tests"));
      Keys(Metadata(state)) == (if d != "" then ["diagnosis"] else []) + (if t != "" then ["tests"] else []) + ["source"]
  {
    var a := MetaEntry("diagnosis", SafeJoin(Field(state, "diagnosis")));
    var b := MetaEntry("tests", SafeJoin(Field(state, "tests")));
    KeysConcat(a, b);
    KeysConcat(a + b, [Entry("source", VStr("ai_scribe_v1"))]);
  }

  /** The source tag is always there; each join is stored under its key when non-empty. */
  lemma MetadataLookups(state: State)
    ensures var m := Metadata(state);
      var d := SafeJoin(Field(state, "diagnosis")); var t := SafeJoin(Field(state, "tests"));
      && Lookup(m, "source") == Some(VStr("ai_scribe_v1"))
      && Lookup(m, "diagnosis") == (if d != "" then Some(VStr(d)) else None)
      && Lookup(m, "tests") == (if t != "" then Some(VStr(t)) else None)
  {
    var d := SafeJoin(Field(state, "diagnosis"));
    var t := SafeJoin(Field(state, "tests"));
    var a, b, c := MetaEntry("diagnosis", d), MetaEntry("tests", t), [Entry("source", VStr("ai_scribe_v1"))];
    assert Keys(a) == (if d != "" then ["diagnosis"] else []);
    assert Keys(b) == (if t != "" then ["tests"] else []);
    KeysConcat(a, b);
    LookupConcat(a + b, c, "source");
    LookupConcat(a + b, c, "diagnosis");
    LookupConcat(a + b, c, "tests");
    LookupConcat(a, b, "source");
    LookupConcat(a, b, "diagnosis");
    LookupConcat(a, b, "tests");
  }
}
