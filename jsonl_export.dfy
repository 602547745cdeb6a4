/**
 * The training-set record written for a finished consultation: the inputs
 * (symptoms, investigations) and outputs (diagnosis, tests, medications,
 * advice) of the structured state, each normalised to a list of strings.
 * Its `_normalize_list` is the same function as the suggestion engine's, so
 * `Suggestions.ListStrings` serves both.
 */
module JsonlExport {
  import opened Wrappers
  import opened PyValue
  import opened SessionModels
  import opened ChromaStore
  import opened Suggestions

  const SchemaVersion := "v1"
  const Source := "ai_scribe_v1"

  /** One section of the state as the list of strings written out; a missing key reads as `None`. */
  function Section(state: State, key: string): Value {
    StrList(ListStrings(Field(state, key)))
  }

  function InputEntries(state: State): seq<Entry> {
    [Entry("symptoms", Section(state, "symptoms")), Entry("investigations", Section(state, "investigations"))]
  }

  function OutputEntries(state: State): seq<Entry> {
    [ Entry("diagnosis", Section(state, "diagnosis")), Entry("tests", Section(state, "tests")),
      Entry("medications", Section(state, "medications")), Entry("advice", Section(state, "advice")) ]
  }

  /** The record `export_session` serialises, one JSON line per session. */
  function Record(sessionId: string, state: State, language: string := "hi"): Value {
    VDict([ Entry("schema_version", VStr(SchemaVersion)), Entry("session_id", VStr(sessionId)),
            Entry("language", VStr(language)), Entry("input", VDict(InputEntries(state))),
            Entry("output", VDict(OutputEntries(state))), Entry("meta", VDict([Entry("source", VStr(Source))])) ])
  }

  /** `export_session` up to the file append: the record the line is made from. */
  method ExportSession(sessionId: string, state: State, language: string := "hi") returns (record: Value)
    ensures record == Record(sessionId, state, language)
  {
    var symptoms := NormalizeList(Field(state, "symptoms"));
    var investigations := NormalizeList(Field(state, "investigations"));
    var diagnosis := NormalizeList(Field(state, "diagnosis"));
    var tests := NormalizeList(Field(state, "tests"));
    var medications := NormalizeList(Field(state, "medications"));
    var advice := NormalizeList(Field(state, "advice"));
    var input := VDict([Entry("symptoms", StrList(symptoms)), Entry("investigations", StrList(investigations))]);
    var output := VDict([ Entry("diagnosis", StrList(diagnosis)), Entry("tests", StrList(tests)),
                          Entry("medications", StrList(medications)), Entry("advice", StrList(advice)) ]);
    record := VDict([ Entry("schema_version", VStr(SchemaVersion)), Entry("session_id", VStr(sessionId)),
                      Entry("language", VStr(language)), Entry("input", input),
                      Entry("output", output), Entry("meta", VDict([Entry("source", VStr(Source))])) ]);
  }

  // ----- properties -----

  /** The record's keys, in order, and its fixed fields. */
  lemma RecordShape(sessionId: string, state: State, language: string)
    ensures var r := Record(sessionId, state, language).entries;
      && Keys(r) == ["schema_version", "session_id", "language", "input", "output", "meta"]
      && Lookup(r, "schema_version") == Some(VStr("v1"))
      && Lookup(r, "session_id") == Some(VStr(sessionId))
      && Lookup(r, "language") == Some(VStr(language))
      && Lookup(r, "input") == Some(VDict(InputEntries(state)))
      && Lookup(r, "output") == Some(VDict(OutputEntries(state)))
      && Lookup(r, "meta") == Some(VDict([Entry("source", VStr("ai_scribe_v1"))]))
  {
    var r := Record(sessionId, state, language).entries;
    LookupDistinct(r);
    assert r[0].key == "schema_version" && r[1].key == "session_id" && r[2].key == "language";
    assert r[3].key == "input" && r[4].key == "output" && r[5].key == "meta";
  }

  /** Without a language the record says "hi". */
  lemma DefaultLanguage(sessionId: string, state: State)
    ensures Lookup(Record(sessionId, state).entries, "language") == Some(VStr("hi"))
  {
    RecordShape(sessionId, state, "hi");
  }

  /** The input holds the normalised symptoms and investigations. */
  lemma InputSections(state: State)
    ensures var i := InputEntries(state);
      && Keys(i) == ["symptoms", "investigations"]
      && Lookup(i, "symptoms") == Some(StrList(ListStrings(Field(state, "symptoms"))))
      && Lookup(i, "investigations") == Some(StrList(ListStrings(Field(state, "investigations"))))
  {
    var i := InputEntries(state);
    LookupDistinct(i);
    assert i[0].key == "symptoms" && i[1].key == "investigations";
  }

  /** The output holds the normalised diagnosis, tests, medications and advice. */
  lemma OutputSections(state: State)
    ensures var o := OutputEntries(state);
      && Keys(o) == ["diagnosis", "tests", "medications", "advice"]
      && Lookup(o, "diagnosis") == Some(StrList(ListStrings(Field(state, "diagnosis"))))
      && Lookup(o, "tests") == Some(StrList(ListStrings(Field(state, "tests"))))
      && Lookup(o, "medications") == Some(StrList(ListStrings(Field(state, "medications"))))
      && Lookup(o, "advice") == Some(StrList(ListStrings(Field(state, "advice"))))
  {
    var o := OutputEntries(state);
    LookupDistinct(o);
    assert o[0].key == "diagnosis" && o[1].key == "tests" && o[2].key == "medications" && o[3].key == "advice";
  }

  /** A section the state does not have is written as an empty list. */
  lemma MissingSectionEmpty(state: State, key: string)
    requires key !in state
    ensures Section(state, key) == VList([])
  {
  }

  /** A section already a list of strings is written unchanged, so exporting is idempotent on what it writes. */
  lemma {:induction false} StringsKept(ss: seq<string>)
    ensures ListStrings(StrList(ss)) == ss
    decreases |ss|
  {
    if ss != [] {
      var n := |ss| - 1;
      StringsKept(ss[..n]);
      var items := StrList(ss).items;
      assert items[..n] == StrList(ss[..n]).items;
      assert ListStrings(items[n]) == [ss[n]];
      assert ListStrings(StrList(ss)) == ItemListStrings(items[..n]) + ListStrings(items[n]);
      assert ss == ss[..n] + [ss[n]];
    }
  }

  /** Normalising a written section again gives the same section. */
  lemma SectionIdempotent(state: State, key: string)
    ensures StrList(ListStrings(Section(state, key))) == Section(state, key)
  {
    StringsKept(ListStrings(Field(state, key)));
  }
}
