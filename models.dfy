/** The transcript line record shared by the extractor and the trust gate. */
module Models {
  import opened PyValue

  /** One line of a transcript; `speaker` is one of "patient", "doctor", "unknown" by convention. */
  datatype TranscriptLine = TranscriptLine(speaker: string, text: string, timestamp: string)

  /** The line as the dict it is at run time. */
  function LineValue(l: TranscriptLine): Value {
    VDict([Entry("speaker", VStr(l.speaker)), Entry("text", VStr(l.text)), Entry("timestamp", VStr(l.timestamp))])
  }

  /** A transcript as a list of dicts. */
  function TranscriptValue(t: seq<TranscriptLine>): (v: Value)
    ensures v.VList? && |v.items| == |t|
  {
    VList(seq(|t|, i requires 0 <= i < |t| => LineValue(t[i])))
  }
}
