/**
 * The `generate` handler end to end (app.py:77-184): validation, the
 * two ids, the event stream; and what `download` then finds in the store
 * (app.py:200-206).
 */
module App {
  import opened Types
  import opened Events
  import opened Store
  import Ids
  import Upload
  import Sse
  import opened Encoder
  import opened EncoderProperties
  import opened DownloadEndpoint

  /** The handler's answer: an `HTTPException` before any job exists, or the job's event stream. */
  datatype Reply =
    | Declined(status: int, reason: Upload.Rejection)
    | Streamed(jobId: string, draftId: string, frames: seq<Sse.Frame>)

  /**
   * `generate`: the upload is validated before anything else; a refused
   * upload creates no job, invokes no pipeline and writes nothing. An
   * admitted one gets the ids `uuidHex[:12]` and `job_id + "_draft"` and
   * its event stream. What the pipeline reports while it runs (`trace`,
   * `drain`, `outcome`) and how each write fares (`writes`, `finalWrite`)
   * come from outside.
   */
  method Generate(filename: Option<string>, apiKey: string, upload: seq<byte>, maxUploadMb: int,
                  uuidHex: string, trace: seq<Observation>, writes: seq<WriteOutcome>, drain: seq<Event>,
                  outcome: Outcome, finalWrite: WriteOutcome, store0: Store)
    returns (reply: Reply, store: Store)
    requires Ids.IsUuidHex(uuidHex)
    requires |writes| == |trace|
    ensures var a := Upload.ValidateUpload(filename, apiKey, |upload|, maxUploadMb);
      a.Rejected? ==> reply == Declined(Upload.Status(a.reason), a.reason) && store == store0
    ensures var a := Upload.ValidateUpload(filename, apiKey, |upload|, maxUploadMb);
      a.Admitted? ==>
        && reply.Streamed?
        && reply.jobId == Ids.JobIdOf(uuidHex) && reply.draftId == Ids.DraftIdOf(reply.jobId)
        && Emitted(reply.frames, store) == EventStream(trace, writes, drain, outcome, finalWrite, reply.jobId, store0)
  {
    var verdict := Upload.ValidateUpload(filename, apiKey, |upload|, maxUploadMb);
    if verdict.Rejected? {
      return Declined(Upload.Status(verdict.reason), verdict.reason), store0;
    }
    var jobId := uuidHex[..Ids.JobIdLength];
    var draftId := jobId + Ids.DraftSuffix;
    var frames;
    frames, store := RunEventStream(trace, writes, drain, outcome, finalWrite, jobId, store0);
    reply := Streamed(jobId, draftId, frames);
  }

  /**
   * Whenever `draft_ready` is yielded, `download` of the id it names
   * serves, at that moment, a file of the announced size.
   */
  lemma AnnouncedDraftDownloadable(uuidHex: string, trace: seq<Observation>, writes: seq<WriteOutcome>, s0: Store, k: nat)
    requires Ids.IsUuidHex(uuidHex)
    requires |writes| == |trace|
    requires var frames := Streaming(trace, writes, Ids.DraftIdOf(Ids.JobIdOf(uuidHex)), s0).frames;
      k < |frames| && frames[k].DraftReady?
    ensures var draftId := Ids.DraftIdOf(Ids.JobIdOf(uuidHex));
      var frames := Streaming(trace, writes, draftId, s0).frames;
      var r := Download(frames[k].jobId, EmissionStores(trace, writes, draftId, s0)[k]);
      r.Served? && SizeKb(r.content) == frames[k].sizeKb
  {
    Ids.DerivedIdsValid(uuidHex);
    DraftAnnouncedOnlyWhenStored(trace, writes, Ids.DraftIdOf(Ids.JobIdOf(uuidHex)), s0);
  }

  /**
   * A draft written during streaming and not replaced later (every later
   * turn carries no draft, or its draft write was refused) is, once the
   * stream is over, served byte for byte under the draft id, whatever
   * the task's outcome.
   */
  lemma DraftRetrievable(uuidHex: string, t1: seq<Observation>, e: Event, t2: seq<Observation>,
                         writes: seq<WriteOutcome>, drain: seq<Event>, outcome: Outcome,
                         finalWrite: WriteOutcome, s0: Store)
    requires Ids.IsUuidHex(uuidHex)
    requires |writes| == |t1| + 1 + |t2|
    requires CarriesDraft(e) && e.extra[DraftKey].Blob? && writes[|t1|] == Written
    requires forall k :: 0 <= k < |t2| ==> LeavesStore(t2[k], writes[|t1| + 1 + k])
    ensures var jobId := Ids.JobIdOf(uuidHex);
      var r := EventStream(t1 + [Received(e)] + t2, writes, drain, outcome, finalWrite, jobId, s0);
      Download(Ids.DraftIdOf(jobId), r.store) == Served(e.extra[DraftKey].bytes)
  {
    var jobId := Ids.JobIdOf(uuidHex);
    var draftId := Ids.DraftIdOf(jobId);
    Ids.DerivedIdsValid(uuidHex);
    var t0 := t1 + [Received(e)];
    var w0, w2 := writes[..|t0|], writes[|t0|..];
    assert writes == w0 + w2;
    assert t0 + t2 == t1 + [Received(e)] + t2;
    StreamingAppend(t0, w0, t2, w2, draftId, s0);
    var a := Streaming(t0, w0, draftId, s0);
    assert t0[..|t1|] == t1 && t0[|t1|] == Received(e);
    DraftEventFrames(e, Written, draftId, Streaming(t1, w0[..|t1|], draftId, s0).store);
    assert Lookup(a.store, PathFor(draftId)) == Some(e.extra[DraftKey].bytes);
    StreamingWithoutDrafts(t2, w2, draftId, a.store);
    TerminalFrame(t0 + t2, writes, drain, outcome, finalWrite, jobId, s0);
  }

  /**
   * After `complete`, `download` of the job id serves the notebook byte
   * for byte, and the draft id is served as the streaming phase left it.
   */
  lemma FinalRetrievable(uuidHex: string, trace: seq<Observation>, writes: seq<WriteOutcome>, drain: seq<Event>,
                         notebook: seq<byte>, s0: Store)
    requires Ids.IsUuidHex(uuidHex)
    requires |writes| == |trace|
    ensures var jobId := Ids.JobIdOf(uuidHex);
      var draftId := Ids.DraftIdOf(jobId);
      var r := EventStream(trace, writes, drain, Finished(notebook), Written, jobId, s0);
      && r.frames[|r.frames| - 1] == Sse.Complete(jobId, SizeKb(notebook))
      && Download(jobId, r.store) == Served(notebook)
      && Download(draftId, r.store) == Download(draftId, Streaming(trace, writes, draftId, s0).store)
  {
    Ids.DerivedIdsValid(uuidHex);
    TerminalFrame(trace, writes, drain, Finished(notebook), Written, Ids.JobIdOf(uuidHex), s0);
  }
}
