/**
 * What the pipeline's two callbacks put on the progress queue
 * (app.py:98-108), what the stream loop observes while it waits
 * (app.py:122-124, 159), and how the pipeline task ends (app.py:176).
 */
module Events {
  import opened Types

  /** A value in a progress event's `extra` dict: bytes, or anything JSON can serialise. */
  datatype Value = Blob(bytes: seq<byte>) | Plain(json: string)

  /** The `extra` dict of `on_progress`; `None` behaves as `{}` everywhere it is read. */
  type Extra = map<string, Value>

  /** The key whose value is the draft notebook (app.py:135). */
  const DraftKey: string := "draft_bytes"

  /** One queued tuple: `("thinking", text)` or `("progress", step, name, detail, extra)`. */
  datatype Event =
    | Thinking(text: string)
    | Progress(step: int, name: string, detail: string, extra: Extra)

  /** One turn of the streaming loop: an event arrived, or the one-second wait ran out. */
  datatype Observation = Received(event: Event) | Timeout

  /** `task.result()`: the notebook's bytes, or the text of the exception it re-raises. */
  datatype Outcome = Finished(notebook: seq<byte>) | Failed(message: string)

  /** A progress event that carries a draft (app.py:135). */
  predicate CarriesDraft(e: Event) {
    e.Progress? && DraftKey in e.extra
  }
}
