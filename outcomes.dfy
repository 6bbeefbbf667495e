/** Values shared by every part of the model: Python's None / Java's null, and
    the outcome of a step the model treats as opaque (a download, a Whisper
    transcription, a Gemini call, a broker publish), which either returns a
    value or raises an exception carrying a message. */
module Outcomes {

  datatype Option<+T> = None | Some(value: T)

  datatype Outcome<+T> = Returns(value: T) | Raises(message: string)

  /** Python truthiness of an optional string: None and "" are falsy. */
  predicate TruthyStr(o: Option<string>)
  {
    o.Some? && o.value != ""
  }
}
