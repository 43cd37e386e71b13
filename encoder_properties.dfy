/**
 * What the stream encoder guarantees about the order and content of the
 * frames it sends and about the store it leaves behind, proved of the
 * functions `RunEventStream` is shown to compute.
 */
module EncoderProperties {
  import opened Types
  import opened Events
  import opened Store
  import Ids
  import Sse
  import opened Encoder

  /** The file, if any, that the store holds under a name. */
  function Lookup(s: Store, path: string): Option<seq<byte>> {
    if path in s then Some(s[path]) else None
  }

  predicate AllDraftFree(frames: seq<Sse.Frame>) {
    forall k :: 0 <= k < |frames| ==> Sse.DraftFree(frames[k])
  }

  /**
   * A turn of the loop that leaves the store alone: a keepalive, an event
   * without a draft, or a draft whose `open` or `write` raised before
   * anything was created.
   */
  predicate LeavesStore(o: Observation, w: WriteOutcome) {
    o.Timeout? || !CarriesDraft(o.event) || w.Refused?
  }

  // ---- Order: the trace is consumed left to right --------------------------

  /**
   * Streaming a trace in two parts gives the frames of the first part
   * followed by those of the second, the second starting from the store
   * the first left: frames keep the order of the events, and nothing in
   * one turn (a failed draft write included) ends the stream.
   */
  lemma {:induction false} StreamingAppend(t1: seq<Observation>, w1: seq<WriteOutcome>,
                                           t2: seq<Observation>, w2: seq<WriteOutcome>,
                                           draftId: string, s0: Store)
    requires |w1| == |t1| && |w2| == |t2|
    ensures var a := Streaming(t1, w1, draftId, s0);
            var b := Streaming(t2, w2, draftId, a.store);
            Streaming(t1 + t2, w1 + w2, draftId, s0) == Emitted(a.frames + b.frames, b.store)
    decreases |t2|
  {
    var a := Streaming(t1, w1, draftId, s0);
    if t2 == [] {
      assert t1 + t2 == t1 && w1 + w2 == w1;
      assert a.frames + [] == a.frames;
    } else {
      var n := |t2| - 1;
      var t, w := t1 + t2, w1 + w2;
      var m := |t| - 1;
      assert m == |t1| + n;
      assert t[..m] == t1 + t2[..n];
      assert w[..m] == w1 + w2[..n];
      assert t[m] == t2[n] && w[m] == w2[n];
      StreamingAppend(t1, w1, t2[..n], w2[..n], draftId, s0);
      var b0 := Streaming(t2[..n], w2[..n], draftId, a.store);
      var step := StreamStep(t2[n], w2[n], draftId, b0.store);
      assert Streaming(t[..m], w[..m], draftId, s0) == Emitted(a.frames + b0.frames, b0.store);
      assert Streaming(t2, w2, draftId, a.store) == Emitted(b0.frames + step.frames, step.store);
      assert Streaming(t, w, draftId, s0) == Emitted(a.frames + b0.frames + step.frames, step.store);
      assert a.frames + b0.frames + step.frames == a.frames + (b0.frames + step.frames);
    }
  }

  // ---- The draft's bytes never reach the wire ------------------------------

  lemma StepDraftFree(o: Observation, w: WriteOutcome, draftId: string, s: Store)
    ensures AllDraftFree(StreamStep(o, w, draftId, s).frames)
  {
  }

  lemma {:induction false} StreamingDraftFree(trace: seq<Observation>, writes: seq<WriteOutcome>, draftId: string, s0: Store)
    requires |writes| == |trace|
    ensures AllDraftFree(Streaming(trace, writes, draftId, s0).frames)
    decreases |trace|
  {
    if trace != [] {
      var n := |trace| - 1;
      StreamingDraftFree(trace[..n], writes[..n], draftId, s0);
      StepDraftFree(trace[n], writes[n], draftId, Streaming(trace[..n], writes[..n], draftId, s0).store);
    }
  }

  /** The progress events of the queue, in queue order. */
  function ProgressEvents(queue: seq<Event>): (ps: seq<Event>)
    ensures |ps| <= |queue|
    ensures forall j :: 0 <= j < |ps| ==> ps[j].Progress?
    decreases |queue|
  {
    if queue == [] then []
    else
      var last := queue[|queue| - 1];
      ProgressEvents(queue[..|queue| - 1]) + (if last.Progress? then [last] else [])
  }

  /**
   * The drain sends one `progress` frame per queued progress event, in
   * order, carrying that event's step, name and detail; its `extra` is
   * the event's without the draft key, sent only when that is non-empty
   * (so a draft alone in `extra` gives no `extra` at all, unlike
   * streaming). `thinking` events are dropped, nothing else is sent
   * (app.py:163-173).
   */
  lemma {:induction false} DrainedShape(queue: seq<Event>)
    ensures |Drained(queue)| == |ProgressEvents(queue)|
    ensures forall j :: 0 <= j < |Drained(queue)| ==>
      var f := Drained(queue)[j];
      var e := ProgressEvents(queue)[j];
      && f.Progress? && f.step == e.step && f.name == e.name && f.detail == e.detail
      && (f.extra.Some? <==> |e.extra - {DraftKey}| > 0)
      && (f.extra.Some? ==> f.extra.value == e.extra - {DraftKey})
    ensures AllDraftFree(Drained(queue))
    decreases |queue|
  {
    if queue != [] {
      DrainedShape(queue[..|queue| - 1]);
    }
  }

  /** Every frame the drain sends is a `progress` frame. */
  lemma DrainedOnlyProgress(queue: seq<Event>)
    ensures forall k :: 0 <= k < |Drained(queue)| ==> Drained(queue)[k].Progress?
  {
    DrainedShape(queue);
  }

  /**
   * A progress event whose `extra` holds only the draft is sent with
   * `extra: {}` while streaming (once the draft is written) but with no
   * `extra` at all by the drain (app.py:145 against app.py:170-172).
   */
  lemma DraftAloneExtra(step: int, name: string, detail: string, bytes: seq<byte>, draftId: string, s: Store)
    ensures var e := Progress(step, name, detail, map[DraftKey := Blob(bytes)]);
      && StreamEvent(e, Written, draftId, s).frames[0] == Sse.Progress(step, name, detail, Some(map[]))
      && DrainEvent(e) == [Sse.Progress(step, name, detail, None)]
  {
    var extra: Extra := map[DraftKey := Blob(bytes)];
    assert extra - {DraftKey} == map[];
  }

  /** No frame the stream sends, in any phase, carries `draft_bytes` (app.py:135-136, 168-169). */
  lemma NoDraftBytesOnWire(trace: seq<Observation>, writes: seq<WriteOutcome>, drain: seq<Event>,
                           outcome: Outcome, finalWrite: WriteOutcome, jobId: string, s0: Store)
    requires |writes| == |trace|
    ensures AllDraftFree(EventStream(trace, writes, drain, outcome, finalWrite, jobId, s0).frames)
  {
    StreamingDraftFree(trace, writes, Ids.DraftIdOf(jobId), s0);
    DrainedShape(drain);
  }

  // ---- A draft is announced only once it is stored -------------------------

  /** For each frame of the streaming phase, the store at the moment it was yielded. */
  ghost function EmissionStores(trace: seq<Observation>, writes: seq<WriteOutcome>, draftId: string, s0: Store): (stores: seq<Store>)
    requires |writes| == |trace|
    ensures |stores| == |Streaming(trace, writes, draftId, s0).frames|
    decreases |trace|
  {
    if trace == [] then []
    else
      var n := |trace| - 1;
      var before := Streaming(trace[..n], writes[..n], draftId, s0);
      var step := StreamStep(trace[n], writes[n], draftId, before.store);
      EmissionStores(trace[..n], writes[..n], draftId, s0) + seq(|step.frames|, _ => step.store)
  }

  /** Within one turn, `draft_ready` comes only second, after the stripped `progress`, with the file in place. */
  lemma StepDraftReady(o: Observation, w: WriteOutcome, draftId: string, s: Store)
    ensures var step := StreamStep(o, w, draftId, s);
      forall j :: 0 <= j < |step.frames| && step.frames[j].DraftReady? ==>
        j == 1 && step.frames[0].Progress? && step.frames[0].extra.Some? &&
        step.frames[j].jobId == draftId && PathFor(draftId) in step.store &&
        SizeKb(step.store[PathFor(draftId)]) == step.frames[j].sizeKb
  {
  }

  /**
   * Every `draft_ready` frame names the draft id and is immediately
   * preceded by the stripped `progress` frame; when either of the two was
   * yielded the store already held the draft under the draft id's file,
   * of the announced size (app.py:137-149).
   */
  lemma {:induction false} DraftAnnouncedOnlyWhenStored(trace: seq<Observation>, writes: seq<WriteOutcome>, draftId: string, s0: Store)
    requires |writes| == |trace|
    ensures var frames := Streaming(trace, writes, draftId, s0).frames;
      var stores := EmissionStores(trace, writes, draftId, s0);
      |stores| == |frames| &&
      forall k :: 0 <= k < |frames| && frames[k].DraftReady? ==>
        frames[k].jobId == draftId && 0 < k &&
        frames[k - 1].Progress? && frames[k - 1].extra.Some? && stores[k - 1] == stores[k] &&
        PathFor(draftId) in stores[k] && SizeKb(stores[k][PathFor(draftId)]) == frames[k].sizeKb
    decreases |trace|
  {
    if trace != [] {
      var n := |trace| - 1;
      var before := Streaming(trace[..n], writes[..n], draftId, s0);
      var step := StreamStep(trace[n], writes[n], draftId, before.store);
      var frames := Streaming(trace, writes, draftId, s0).frames;
      var stores := EmissionStores(trace, writes, draftId, s0);
      DraftAnnouncedOnlyWhenStored(trace[..n], writes[..n], draftId, s0);
      StepDraftReady(trace[n], writes[n], draftId, before.store);
      assert frames == before.frames + step.frames;
      var m := |before.frames|;
      forall k | m <= k < |frames| && frames[k].DraftReady?
        ensures k - 1 >= m && frames[k - 1] == step.frames[0] && stores[k - 1] == stores[k] == step.store
      {
        assert frames[k] == step.frames[k - m];
      }
    }
  }

  /**
   * A draft-bearing event in the streaming phase: written, it yields the
   * stripped `progress` (its `extra` kept even when now empty) and then
   * `draft_ready` with the size in KiB, the file holding the bytes
   * unchanged; not written, it yields exactly one `error` frame and
   * nothing else (app.py:135-153).
   */
  lemma DraftEventFrames(e: Event, w: WriteOutcome, draftId: string, s: Store)
    requires CarriesDraft(e)
    ensures var r := StreamEvent(e, w, draftId, s);
      var stripped := e.extra - {DraftKey};
      if e.extra[DraftKey].Blob? && w.Written? then
        r.frames == [Sse.Progress(e.step, e.name, e.detail, Some(stripped)),
                     Sse.DraftReady(draftId, SizeKb(e.extra[DraftKey].bytes))] &&
        Lookup(r.store, PathFor(draftId)) == Some(e.extra[DraftKey].bytes)
      else
        |r.frames| == 1 && r.frames[0].Error? &&
        (w.Refused? ==> r.frames[0].error == w.reason && r.store == s)
    ensures var r := StreamEvent(e, w, draftId, s);
      e.extra[DraftKey].Blob? && w.Lost? ==>
        r.frames == [Sse.Error(DraftNotWritten)] && Lookup(r.store, PathFor(draftId)) == None
    ensures var r := StreamEvent(e, w, draftId, s);
      e.extra[DraftKey].Plain? && !w.Refused? ==>
        r.frames == [Sse.Error(NotBytes)] && Lookup(r.store, PathFor(draftId)) == Some([])
    ensures forall p :: p != PathFor(draftId) ==>
      Lookup(StreamEvent(e, w, draftId, s).store, p) == Lookup(s, p)
  {
  }

  /**
   * A progress event without a draft yields one `progress` frame, with
   * `extra` exactly when `extra` is non-empty; the store is untouched
   * (app.py:154-158).
   */
  lemma PlainProgressFrame(e: Event, w: WriteOutcome, draftId: string, s: Store)
    requires e.Progress? && !CarriesDraft(e)
    ensures var r := StreamEvent(e, w, draftId, s);
      r.store == s && |r.frames| == 1 && r.frames[0].Progress? &&
      r.frames[0].step == e.step && r.frames[0].name == e.name && r.frames[0].detail == e.detail &&
      (r.frames[0].extra.Some? <==> |e.extra| > 0) &&
      (r.frames[0].extra.Some? ==> r.frames[0].extra.value == e.extra)
  {
  }

  // ---- The store -----------------------------------------------------------

  /** The streaming phase writes no file but the draft's. */
  lemma {:induction false} StreamingTouchesOnlyDraft(trace: seq<Observation>, writes: seq<WriteOutcome>, draftId: string, s0: Store, p: string)
    requires |writes| == |trace|
    requires p != PathFor(draftId)
    ensures Lookup(Streaming(trace, writes, draftId, s0).store, p) == Lookup(s0, p)
    decreases |trace|
  {
    if trace != [] {
      var n := |trace| - 1;
      StreamingTouchesOnlyDraft(trace[..n], writes[..n], draftId, s0, p);
    }
  }

  /** Turns without a draft, or whose draft write was refused, leave the store as it was. */
  lemma {:induction false} StreamingWithoutDrafts(trace: seq<Observation>, writes: seq<WriteOutcome>, draftId: string, s0: Store)
    requires |writes| == |trace|
    requires forall k :: 0 <= k < |trace| ==> LeavesStore(trace[k], writes[k])
    ensures Streaming(trace, writes, draftId, s0).store == s0
    decreases |trace|
  {
    if trace != [] {
      var n := |trace| - 1;
      StreamingWithoutDrafts(trace[..n], writes[..n], draftId, s0);
    }
  }

  // ---- Keepalives ----------------------------------------------------------

  function CountKeepalives(frames: seq<Sse.Frame>): nat
    decreases |frames|
  {
    if frames == [] then 0 else (if frames[0].Keepalive? then 1 else 0) + CountKeepalives(frames[1..])
  }

  function CountTimeouts(trace: seq<Observation>): nat
    decreases |trace|
  {
    if trace == [] then 0 else (if trace[0].Timeout? then 1 else 0) + CountTimeouts(trace[1..])
  }

  lemma {:induction false} CountKeepalivesAppend(a: seq<Sse.Frame>, b: seq<Sse.Frame>)
    ensures CountKeepalives(a + b) == CountKeepalives(a) + CountKeepalives(b)
    decreases |a|
  {
    if a == [] {
      assert a + b == b;
    } else {
      CountKeepalivesAppend(a[1..], b);
      assert (a + b)[1..] == a[1..] + b;
    }
  }

  lemma {:induction false} NoKeepalives(frames: seq<Sse.Frame>)
    requires forall j :: 0 <= j < |frames| ==> !frames[j].Keepalive?
    ensures CountKeepalives(frames) == 0
    decreases |frames|
  {
    if frames != [] {
      NoKeepalives(frames[1..]);
    }
  }

  lemma {:induction false} CountTimeoutsLast(trace: seq<Observation>)
    requires trace != []
    ensures CountTimeouts(trace) ==
      CountTimeouts(trace[..|trace| - 1]) + (if trace[|trace| - 1].Timeout? then 1 else 0)
    decreases |trace|
  {
    if |trace| > 1 {
      CountTimeoutsLast(trace[1..]);
      assert trace[1..][..|trace| - 2] == trace[..|trace| - 1][1..];
    }
  }

  /** A turn yields one keepalive if it was an idle second, none otherwise. */
  lemma StepKeepalives(o: Observation, w: WriteOutcome, draftId: string, s: Store)
    ensures CountKeepalives(StreamStep(o, w, draftId, s).frames) == if o.Timeout? then 1 else 0
  {
    var f := StreamStep(o, w, draftId, s).frames;
    if o.Timeout? {
      assert f[1..] == [];
    } else {
      NoKeepalives(f);
    }
  }

  /**
   * Exactly one keepalive per idle second of the streaming loop, and no
   * other turn yields one (app.py:159-160).
   */
  lemma {:induction false} KeepalivesMatchTimeouts(trace: seq<Observation>, writes: seq<WriteOutcome>, draftId: string, s0: Store)
    requires |writes| == |trace|
    ensures CountKeepalives(Streaming(trace, writes, draftId, s0).frames) == CountTimeouts(trace)
    decreases |trace|
  {
    if trace != [] {
      var n := |trace| - 1;
      var before := Streaming(trace[..n], writes[..n], draftId, s0);
      var step := StreamStep(trace[n], writes[n], draftId, before.store);
      assert Streaming(trace, writes, draftId, s0).frames == before.frames + step.frames;
      KeepalivesMatchTimeouts(trace[..n], writes[..n], draftId, s0);
      CountKeepalivesAppend(before.frames, step.frames);
      CountTimeoutsLast(trace);
      StepKeepalives(trace[n], writes[n], draftId, before.store);
    }
  }

  // ---- The terminal frame ----------------------------------------------------

  lemma {:induction false} StreamingHasNoComplete(trace: seq<Observation>, writes: seq<WriteOutcome>, draftId: string, s0: Store)
    requires |writes| == |trace|
    ensures forall k :: 0 <= k < |Streaming(trace, writes, draftId, s0).frames| ==>
      !Streaming(trace, writes, draftId, s0).frames[k].Complete?
    decreases |trace|
  {
    if trace != [] {
      var n := |trace| - 1;
      StreamingHasNoComplete(trace[..n], writes[..n], draftId, s0);
    }
  }

  /**
   * Exactly one terminal frame ends the stream, and after the drain
   * starts no keepalive, `thinking` or `draft_ready` is sent. On a
   * finished task whose notebook is written, the store maps the job id's
   * file to the notebook and the last frame is `complete` with its size;
   * a failed task ends with `error` and its message and writes nothing.
   * The draft's file is as the streaming phase left it, and no file other
   * than the two ids' is ever touched (app.py:163-184).
   */
  lemma TerminalFrame(trace: seq<Observation>, writes: seq<WriteOutcome>, drain: seq<Event>,
                      outcome: Outcome, finalWrite: WriteOutcome, jobId: string, s0: Store)
    requires |writes| == |trace|
    ensures var r := EventStream(trace, writes, drain, outcome, finalWrite, jobId, s0);
      var draftId := Ids.DraftIdOf(jobId);
      var a := Streaming(trace, writes, draftId, s0);
      var last := r.frames[|r.frames| - 1];
      && |r.frames| == |a.frames| + |Drained(drain)| + 1
      && r.frames[..|a.frames|] == a.frames
      && (last.Complete? || last.Error?)
      && (forall k :: 0 <= k < |r.frames| - 1 ==> !r.frames[k].Complete?)
      && (forall k :: |a.frames| <= k < |r.frames| ==>
            !r.frames[k].Keepalive? && !r.frames[k].Thinking? && !r.frames[k].DraftReady?)
      && (outcome.Failed? ==> last == Sse.Error(outcome.message) && r.store == a.store)
      && (outcome.Finished? && finalWrite.Refused? ==> last == Sse.Error(finalWrite.reason) && r.store == a.store)
      && (outcome.Finished? && !finalWrite.Refused? ==> last == Sse.Complete(jobId, SizeKb(outcome.notebook)))
      && (outcome.Finished? && finalWrite.Written? ==> Lookup(r.store, PathFor(jobId)) == Some(outcome.notebook))
      && (!(outcome.Finished? && !finalWrite.Refused?) ==> Lookup(r.store, PathFor(jobId)) == Lookup(s0, PathFor(jobId)))
      && Lookup(r.store, PathFor(draftId)) == Lookup(a.store, PathFor(draftId))
      && (forall p :: p != PathFor(jobId) && p != PathFor(draftId) ==> Lookup(r.store, p) == Lookup(s0, p))
  {
    var draftId := Ids.DraftIdOf(jobId);
    var a := Streaming(trace, writes, draftId, s0);
    var r := EventStream(trace, writes, drain, outcome, finalWrite, jobId, s0);
    var d := Drained(drain);
    assert PathFor(jobId) != PathFor(draftId) by {
      assert |PathFor(jobId)| != |PathFor(draftId)|;
    }
    StreamingHasNoComplete(trace, writes, draftId, s0);
    DrainedOnlyProgress(drain);
    StreamingTouchesOnlyDraft(trace, writes, draftId, s0, PathFor(jobId));
    forall p | p != PathFor(jobId) && p != PathFor(draftId) ensures Lookup(r.store, p) == Lookup(s0, p) {
      StreamingTouchesOnlyDraft(trace, writes, draftId, s0, p);
    }
    assert r.frames == a.frames + d + [r.frames[|r.frames| - 1]];
    forall k | 0 <= k < |r.frames| - 1 ensures !r.frames[k].Complete? {
      if k < |a.frames| {
        assert r.frames[k] == a.frames[k];
      } else {
        assert r.frames[k] == d[k - |a.frames|];
      }
    }
    forall k | |a.frames| <= k < |r.frames| - 1
      ensures !r.frames[k].Keepalive? && !r.frames[k].Thinking? && !r.frames[k].DraftReady?
    {
      assert r.frames[k] == d[k - |a.frames|];
    }
  }
}
