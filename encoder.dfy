/**
 * The `event_stream` generator of `generate` (app.py:94-184): a state
 * machine STREAMING -> DRAINING -> FINALIZING -> DONE that turns what
 * the pipeline reported into frames and writes the draft and the final
 * notebook to the store on the way.
 *
 * The task, the queue and the one-second timer are replaced by what they
 * deliver: `trace`, the observations of the streaming loop in the order
 * they were made until `task.done()` turned true; `drain`, the events
 * still queued then; `outcome`, `task.result()`. Whether a write lands is
 * decided by the environment: `writes[i]` for a draft carried by
 * `trace[i]`, `finalWrite` for the notebook.
 *
 * The functions below give the frames and the store each phase
 * produces; `RunEventStream` is the generator's loop, proved to produce
 * them.
 */
module Encoder {
  import opened Types
  import opened Events
  import opened Store
  import Ids
  import Sse

  /** What the stream has sent so far, and the store as it then stands. */
  datatype Emitted = Emitted(frames: seq<Sse.Frame>, store: Store)

  /** The `error` text when a draft's file is not there after writing it (app.py:151). */
  const DraftNotWritten: string := "Draft file not written"

  /** The start of the `TypeError` text `f.write` raises for a value that is not bytes. */
  const NotBytes: string := "a bytes-like object is required"

  /** `len(b) // 1024` (app.py:148, 180). */
  function SizeKb(content: seq<byte>): nat {
    |content| / 1024
  }

  /** `extra` is put in the payload only if it is truthy, i.e. non-empty (app.py:156-157, 171-172). */
  function ExtraIfAny(extra: Extra): Option<Extra> {
    if |extra| == 0 then None else Some(extra)
  }

  // ---- STREAMING (app.py:122-160) ----------------------------------------

  /** One event taken off the queue while the task runs (app.py:127-158). */
  function StreamEvent(e: Event, w: WriteOutcome, draftId: string, s: Store): Emitted {
    match e
    case Thinking(text) => Emitted([Sse.Thinking(text)], s)
    case Progress(step, name, detail, extra) =>
      if DraftKey in extra then
        var stripped := extra - {DraftKey};
        var path := PathFor(draftId);
        match extra[DraftKey]
        case Blob(content) =>
          (match w
           case Written =>
             Emitted([Sse.Progress(step, name, detail, Some(stripped)), Sse.DraftReady(draftId, SizeKb(content))],
                     s[path := content])
           case Lost => Emitted([Sse.Error(DraftNotWritten)], s - {path})
           case Refused(reason) => Emitted([Sse.Error(reason)], s))
        case Plain(_) =>
          // `open` creates the empty file; `f.write` of a non-bytes value raises.
          (match w
           case Refused(reason) => Emitted([Sse.Error(reason)], s)
           case _ => Emitted([Sse.Error(NotBytes)], s[path := []]))
      else Emitted([Sse.Progress(step, name, detail, ExtraIfAny(extra))], s)
  }

  /** One turn of the streaming loop: an event, or a keepalive after an idle second (app.py:159-160). */
  function StreamStep(o: Observation, w: WriteOutcome, draftId: string, s: Store): Emitted {
    match o
    case Timeout => Emitted([Sse.Keepalive], s)
    case Received(e) => StreamEvent(e, w, draftId, s)
  }

  /** The streaming phase over the whole trace, turn by turn. */
  function Streaming(trace: seq<Observation>, writes: seq<WriteOutcome>, draftId: string, s0: Store): Emitted
    requires |writes| == |trace|
    decreases |trace|
  {
    if trace == [] then Emitted([], s0)
    else
      var n := |trace| - 1;
      var before := Streaming(trace[..n], writes[..n], draftId, s0);
      var step := StreamStep(trace[n], writes[n], draftId, before.store);
      Emitted(before.frames + step.frames, step.store)
  }

  // ---- DRAINING (app.py:163-173) -----------------------------------------

  /**
   * One event left on the queue: `thinking` is dropped, a draft is
   * stripped but neither written nor announced.
   */
  function DrainEvent(e: Event): seq<Sse.Frame> {
    match e
    case Thinking(_) => []
    case Progress(step, name, detail, extra) =>
      [Sse.Progress(step, name, detail, ExtraIfAny(extra - {DraftKey}))]
  }

  /** The drain over the queue's leftover events, in queue order. */
  function Drained(queue: seq<Event>): seq<Sse.Frame>
    decreases |queue|
  {
    if queue == [] then []
    else Drained(queue[..|queue| - 1]) + DrainEvent(queue[|queue| - 1])
  }

  // ---- FINALIZING (app.py:175-184) ---------------------------------------

  function Finalize(outcome: Outcome, w: WriteOutcome, jobId: string, s: Store): Emitted {
    match outcome
    case Failed(message) => Emitted([Sse.Error(message)], s)
    case Finished(notebook) =>
      match w
      case Written => Emitted([Sse.Complete(jobId, SizeKb(notebook))], s[PathFor(jobId) := notebook])
      case Lost => Emitted([Sse.Complete(jobId, SizeKb(notebook))], s - {PathFor(jobId)})
      case Refused(reason) => Emitted([Sse.Error(reason)], s)
  }

  /** The whole stream: the three phases one after the other, then DONE. */
  function EventStream(trace: seq<Observation>, writes: seq<WriteOutcome>, drain: seq<Event>,
                       outcome: Outcome, finalWrite: WriteOutcome, jobId: string, s0: Store): Emitted
    requires |writes| == |trace|
  {
    var streamed := Streaming(trace, writes, Ids.DraftIdOf(jobId), s0);
    var last := Finalize(outcome, finalWrite, jobId, streamed.store);
    Emitted(streamed.frames + Drained(drain) + last.frames, last.store)
  }

  /** STREAMING: the `while not task.done()` loop (app.py:122-160). */
  method StreamPhase(trace: seq<Observation>, writes: seq<WriteOutcome>, draftId: string, store0: Store)
    returns (frames: seq<Sse.Frame>, store: Store)
    requires |writes| == |trace|
    ensures Emitted(frames, store) == Streaming(trace, writes, draftId, store0)
  {
    var draftPath := PathFor(draftId);
    frames, store := [], store0;
    var i := 0;
    while i < |trace|
      invariant 0 <= i <= |trace|
      invariant Emitted(frames, store) == Streaming(trace[..i], writes[..i], draftId, store0)
    {
      assert trace[..i + 1][..i] == trace[..i] && writes[..i + 1][..i] == writes[..i];
      var o := trace[i];
      if o.Timeout? {
        frames := frames + [Sse.Keepalive];
      } else if o.event.Thinking? {
        frames := frames + [Sse.Thinking(o.event.text)];
      } else {
        var extra := o.event.extra;
        if DraftKey in extra {
          var draft := extra[DraftKey];
          extra := extra - {DraftKey};
          var w := writes[i];
          if w.Refused? {
            frames := frames + [Sse.Error(w.reason)];
          } else if draft.Plain? {
            store := store[draftPath := []];
            frames := frames + [Sse.Error(NotBytes)];
          } else {
            store := if w.Written? then store[draftPath := draft.bytes] else store - {draftPath};
            if draftPath in store {
              frames := frames + [Sse.Progress(o.event.step, o.event.name, o.event.detail, Some(extra))];
              frames := frames + [Sse.DraftReady(draftId, |draft.bytes| / 1024)];
            } else {
              frames := frames + [Sse.Error(DraftNotWritten)];
            }
          }
        } else {
          var data := if |extra| > 0 then Some(extra) else None;
          frames := frames + [Sse.Progress(o.event.step, o.event.name, o.event.detail, data)];
        }
      }
      i := i + 1;
    }
    assert trace[..|trace|] == trace && writes[..|writes|] == writes;
  }

  /** Draining one more event of the queue appends that event's frames. */
  lemma DrainedStep(drain: seq<Event>, taken: nat)
    requires taken < |drain|
    ensures Drained(drain[..taken + 1]) == Drained(drain[..taken]) + DrainEvent(drain[taken])
  {
    assert drain[..taken + 1][..taken] == drain[..taken];
  }

  /** DRAINING: `while not progress_queue.empty()` (app.py:163-173); never waits, never writes. */
  method DrainPhase(drain: seq<Event>) returns (frames: seq<Sse.Frame>)
    ensures frames == Drained(drain)
  {
    frames := [];
    var queue := drain;
    ghost var taken := 0;
    while queue != []
      invariant taken <= |drain| && queue == drain[taken..]
      invariant frames == Drained(drain[..taken])
      decreases |queue|
    {
      var event := queue[0];
      queue := queue[1..];
      var more: seq<Sse.Frame> := [];
      if event.Progress? {
        var extra := event.extra;
        if DraftKey in extra {
          extra := extra - {DraftKey};
        }
        assert extra == event.extra - {DraftKey};
        var data := if |extra| > 0 then Some(extra) else None;
        more := [Sse.Progress(event.step, event.name, event.detail, data)];
      }
      assert more == DrainEvent(event);
      DrainedStep(drain, taken);
      frames := frames + more;
      taken := taken + 1;
    }
    assert drain[..taken] == drain;
  }

  /** FINALIZING: `task.result()`, the notebook written, `complete` or `error` (app.py:175-184). */
  method FinalizePhase(outcome: Outcome, finalWrite: WriteOutcome, jobId: string, store0: Store)
    returns (frame: Sse.Frame, store: Store)
    ensures Emitted([frame], store) == Finalize(outcome, finalWrite, jobId, store0)
  {
    store := store0;
    if outcome.Finished? {
      var notebook := outcome.notebook;
      if finalWrite.Refused? {
        frame := Sse.Error(finalWrite.reason);
      } else {
        var path := PathFor(jobId);
        store := if finalWrite.Written? then store[path := notebook] else store - {path};
        frame := Sse.Complete(jobId, |notebook| / 1024);
      }
    } else {
      frame := Sse.Error(outcome.message);
    }
  }

  /** The generator itself: the three phases in order, then DONE. */
  method RunEventStream(trace: seq<Observation>, writes: seq<WriteOutcome>, drain: seq<Event>,
                        outcome: Outcome, finalWrite: WriteOutcome, jobId: string, store0: Store)
    returns (frames: seq<Sse.Frame>, store: Store)
    requires |writes| == |trace|
    ensures Emitted(frames, store) == EventStream(trace, writes, drain, outcome, finalWrite, jobId, store0)
  {
    var draftId := Ids.DraftIdOf(jobId);
    var streamed, drained, last;
    streamed, store := StreamPhase(trace, writes, draftId, store0);
    drained := DrainPhase(drain);
    last, store := FinalizePhase(outcome, finalWrite, jobId, store);
    frames := streamed + drained + [last];
  }
}
