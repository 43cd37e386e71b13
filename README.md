# paper-to-notebook web core, modelled in Dafny

The web application turns an uploaded PDF into a Jupyter notebook. Its
`generate` handler checks the upload and gives the job two ids: a final
id and a draft id. It then streams the pipeline's progress to the client
as server-sent events. A draft notebook is stored and announced while the
job runs, and the final notebook is stored and announced when it ends.
Its `download` handler serves either stored file by id.

The model covers:

- **Validation** (`Upload`, `Ids`, `DownloadEndpoint`): the three ordered
  upload checks (PDF name, non-blank key, size ceiling → 400, 400, 413),
  the ids `uuid.hex[:12]` and `job_id + "_draft"`, and the download
  allow-list with its 400/404 lookup.
- **The artifact store** (`Store`): the temporary directory, as a map from
  file name (`<id>.ipynb`) to bytes. The environment decides what happens
  to each write (`Written`, `Lost`, `Refused(reason)`).
- **The stream encoder** (`Encoder`): the `event_stream` generator. It has
  three phases. STREAMING is a loop over the observed trace of events and
  idle seconds. DRAINING flushes the events still queued. FINALIZING
  handles the task's result. Each phase is an imperative method (the
  first two with their loops), proved to compute a specification
  function. `EncoderProperties` proves what the frames and the store
  then satisfy.
- **SSE framing** (`Sse`): `event: <name>\ndata: <json>\n\n` and
  `: keepalive\n\n`, with `json.dumps` passed in as a function. A parser
  for this framing is proved to read the body back, one block per frame.
- **The admission gate** (`Admission`): the three-permit semaphore, as a
  counter that every pipeline call leaves as it found it.
- **`generate` end to end** (`App`).

The drain does not apply the streaming rules (app.py:163-173): it drops
`thinking` events, and it strips a draft's bytes without writing or
announcing them. See `Encoder.DrainEvent` and
`EncoderProperties.DrainedShape`.

`error` frames are not only terminal. A failed draft write sends one in
the middle of the stream, and streaming goes on after it. So "one
terminal frame, last" is stated as follows: the last frame is `complete`
or `error`; `complete` is never sent earlier; and after the drain starts
no keepalive, `thinking` or `draft_ready` frame is sent
(`EncoderProperties.TerminalFrame`).

## Model

| member | source | states |
|---|---|---|
| `Ids.JobIdOf` | app.py:91 | the job id has 12 characters, all lower-case hex |
| `Ids.WithoutUnderscoresMembers` | app.py:202 | `replace("_", "")` keeps exactly the characters that are not `_` |
| `Ids.ValidJobIdIff` | app.py:202 | `IsValidJobId` (the check on `job_id.replace("_", "")`): an id passes iff every character is an ASCII letter, digit or `_` and at least one is a letter or digit (so `""` and `"___"` fail) |
| `Ids.DerivedIdsValid` | app.py:91-92 | the job id and `job_id + "_draft"` both pass the download check, and they differ |
| `Upload.TrimStart` | app.py:82 | removes the longest prefix of Python whitespace, and nothing else |
| `Upload.TrimEnd` | app.py:82 | removes the longest suffix of Python whitespace, and nothing else |
| `Upload.StripEmptyIff` | app.py:82-84 | the stripped key is empty iff every character of the key is whitespace |
| `Upload.IsPdfNameIff` | app.py:79-80 | a name passes iff it ends in `.` followed by `p`, `d`, `f` in either case |
| `Upload.ValidationOrder` | app.py:79-89 | `ValidateUpload`'s checks are ordered and total: a bad name gives 400; otherwise a blank key gives 400; otherwise more than `MAX_UPLOAD_MB` MiB gives 413; otherwise admitted, with the stripped non-empty key |
| `Store.PathForInjective` | app.py:204 | two ids with the same file are the same id |
| `DownloadEndpoint.Download` | app.py:202-206 | 400 iff the id fails the allow-list; otherwise 404 iff no file; otherwise serves the stored bytes |
| `DownloadEndpoint.UnsafeIdRejected` | app.py:202-203 | an id with a character outside the allow-list (`/`, `.`), or with no letter or digit, gets 400, and the answer does not depend on the store |
| `DownloadEndpoint.AcceptedPathIsLocal` | app.py:202-204 | an accepted id's file name has no `/`, and its only `.` is the extension's |
| `Sse.DraftFreePayload` | app.py:145-146 | a draft-free frame passes `json.dumps` nothing under `draft_bytes` |
| `Sse.ParseRender` | app.py:128-129 | a frame as `Render` writes it (`event: <name>\ndata: <json>\n\n`, or `: keepalive\n\n`) reads back as its event name and JSON data (or the keepalive comment), and the text after it is left unchanged |
| `Sse.ParseRenderAll` | app.py:122-184 | if `json.dumps` writes no raw line break, the response body parses back into exactly one block per frame, in order |
| `Encoder.StreamPhase` | app.py:122-160 | the streaming loop yields the frames and leaves the store given by `Streaming`, turn by turn |
| `Encoder.DrainPhase` | app.py:163-173 | the drain loop yields the frames given by `Drained` |
| `Encoder.FinalizePhase` | app.py:175-184 | finalising yields one frame and leaves the store given by `Finalize` |
| `Encoder.RunEventStream` | app.py:94-184 | the generator's output is the streaming frames, then the drain frames, then the final frame, and its store is `EventStream`'s |
| `EncoderProperties.StreamingAppend` | app.py:122-160 | streaming two parts of a trace gives the first part's frames, then the second's (run from the store the first left): order is kept, and no turn ends the stream |
| `EncoderProperties.StepDraftFree` | app.py:134-158 | no streaming turn yields a frame with `draft_bytes` |
| `EncoderProperties.StreamingDraftFree` | app.py:122-160 | no streaming frame carries `draft_bytes` |
| `EncoderProperties.DrainedShape` | app.py:163-173 | `DrainEvent`, over the queue: the j-th drained frame is a `progress` frame carrying the j-th queued progress event's step, name and detail, with `extra` (the event's minus `draft_bytes`) iff that is non-empty; there is one frame per progress event, none for `thinking` events, and none with `draft_bytes` |
| `EncoderProperties.DraftAloneExtra` | app.py:145-172 | a progress event whose `extra` holds only the draft is sent with `extra: {}` while streaming, but with no `extra` by the drain |
| `EncoderProperties.NoDraftBytesOnWire` | app.py:135-169 | no frame of the whole stream carries `draft_bytes` |
| `EncoderProperties.StepDraftReady` | app.py:143-149 | within one turn, `draft_ready` is only the second frame: after a `progress` with `extra`, naming the draft id, with the file stored at the announced size |
| `EncoderProperties.DraftAnnouncedOnlyWhenStored` | app.py:137-149 | every `draft_ready` names the draft id and directly follows the stripped `progress`; when both were yielded, the store held the draft at the announced size |
| `EncoderProperties.DraftEventFrames` | app.py:135-153 | `StreamEvent` on a draft: a written draft yields the stripped `progress` (with `extra`, even if now empty) and then `draft_ready{draft_id, len//1024}`, and stores the bytes unchanged; any other outcome yields exactly one `error` and no `progress`: the exception's text with the store unchanged when the write raised, `Draft file not written` with no draft file when the file is missing after writing, and the `TypeError` with an empty draft file when the value is not bytes; no other file is touched |
| `EncoderProperties.PlainProgressFrame` | app.py:154-158 | `StreamEvent` on a progress event without a draft: it yields one `progress` frame, with `extra` iff `extra` is non-empty, and touches no file |
| `EncoderProperties.StreamingTouchesOnlyDraft` | app.py:138-141 | streaming writes no file but the draft id's |
| `EncoderProperties.StreamingWithoutDrafts` | app.py:126-160 | turns without a draft, or whose draft write raised before creating the file, leave the store unchanged |
| `EncoderProperties.KeepalivesMatchTimeouts` | app.py:159-160 | the streaming phase sends exactly one keepalive per idle second, and no other turn sends one |
| `EncoderProperties.StreamingHasNoComplete` | app.py:122-160 | streaming never sends `complete` |
| `EncoderProperties.TerminalFrame` | app.py:163-184 | the last frame is `complete` or `error`, and `complete` is never sent earlier; after the drain starts, no keepalive, `thinking` or `draft_ready` is sent; on success with a written file the store maps the job id to the notebook and the last frame is `complete{job_id, len//1024}`; a failed task ends with `error{msg}` and writes nothing under the job id; the draft's file is as streaming left it; no other file changes |
| `Admission.Gate.constructor` | app.py:42 | the gate starts with three permits, none in use |
| `Admission.Gate.Acquire` | app.py:111 | taking a permit raises the in-use count by one, within the limit |
| `Admission.Gate.Release` | app.py:111 | giving a permit back lowers the in-use count by one |
| `Admission.RunInThread` | app.py:110-118 | the pipeline call runs with the in-use count one above its value before (so within the limit), and the in-use count afterwards is what it was before, whatever the outcome |
| `App.Generate` | app.py:77-92 | a refused upload gives its status, with no job and no file written; an admitted one gets the ids `uuid[:12]` and `+ "_draft"` and the stream `EventStream` describes |
| `App.AnnouncedDraftDownloadable` | app.py:137-149 | at the moment `draft_ready` is yielded, downloading the id it names serves a file of the announced size |
| `App.DraftRetrievable` | app.py:137-149 | a written draft is served byte for byte under the draft id after the stream ends, whatever the outcome, when every later turn carries no draft or has its draft write refused |
| `App.FinalRetrievable` | app.py:175-181 | after `complete`, the job id serves the notebook byte for byte, and the draft id serves what streaming left |

## Left out

- Framework wiring: FastAPI routing, CORS middleware and headers, the
  `OPTIONS` handler, the `StreamingResponse` and `FileResponse` wrappers
  (media type, suggested file name), and the `index`, `favicon` and
  `health` handlers. They are transport only.
- Concurrency and time: `run_in_executor`, `run_coroutine_threadsafe`,
  `create_task` and `wait_for(timeout=1.0)`. They are replaced by what
  they deliver: the observation trace, the drain list and the outcome.
  The race in which a callback's `put` lands after the drain has found
  the queue empty (that event is lost) is not modelled. Client disconnect
  and cancellation are not modelled either.
- `Admission.Gate.Acquire`: waiting for a free permit is not modelled.
  The method's precondition stands for the moment the semaphore grants
  one.
- `Admission.RunInThread`: its precondition that a permit is free stands
  in for the wait in `async with _generation_semaphore`, which is not
  modelled. Several jobs waiting for the gate at once are not modelled
  either.
- `run_web_pipeline` and the `config` constants are external. The
  pipeline is represented by the trace and the outcome, and
  `MAX_UPLOAD_MB` is a parameter. `uuid.uuid4()` is a parameter too
  (32 lower-case hex digits).
- Real file I/O: the store is a map, and the environment gives each
  write's outcome. A refused write leaves the store unchanged, so a
  partly written file is not modelled. The one exception is a
  `draft_bytes` value that is not bytes: `open` creates the empty file and
  `f.write` then raises, and the model reproduces both steps.
- `Encoder.NotBytes` is only the start of Python's `TypeError` text. The
  full text also names the value's type.
- `json.dumps` is a parameter of the rendering and is taken to be total.
  An `extra` that holds a value it cannot encode (bytes under some other
  key, say) makes it raise with `TypeError`. The model captures none of
  the three outcomes:
  - at app.py:146 the exception is caught at app.py:152, so the draft
    file stays written, an `error` frame is sent, and no `draft_ready`
    is sent;
  - at app.py:158 the exception escapes the generator and ends the
    response with no terminal frame;
  - at app.py:173 the same happens during the drain.
- `extra.pop("draft_bytes")` changes the pipeline's own dict in place.
  The model strips a copy, so that aliasing is not captured.
- The 413 message formats `size_mb` as a float (`:.1f`). Its text is not
  modelled: `Upload.Rejection.TooLarge` carries the byte count and the
  ceiling instead. The size check itself, `len / 2**20 > MAX_UPLOAD_MB`,
  is the exact integer comparison `len > MAX_UPLOAD_MB * 1048576`.
- `str.isalnum` and `str.lower` are modelled on ASCII only. So the model
  refuses download ids with non-ASCII letters or digits, which Python
  would accept. For the name check this makes no difference: no
  non-ASCII character lowers to `.`, `p`, `d` or `f`. `str.strip` uses
  Python's full list of whitespace code points.
- A final write that returns but leaves no file (`Lost`) still gets
  `complete`, as in the code, which does not check for the file after
  writing (app.py:178-181). `App.FinalRetrievable` is therefore stated
  for `Written` only.
