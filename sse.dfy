/**
 * The frames of the event stream and their text on the wire:
 * `event: <name>\ndata: <json>\n\n`, and `: keepalive\n\n` for an idle
 * second (app.py:129, 146, 149, 151, 153, 158, 160, 173, 181, 184).
 * `json.dumps` stays abstract: it is the parameter `encode`.
 */
module Sse {
  import opened Types
  import opened Events

  datatype Frame =
    | Thinking(text: string)
    | Progress(step: int, name: string, detail: string, extra: Option<Extra>)
    | DraftReady(jobId: string, sizeKb: nat)
    | Complete(jobId: string, sizeKb: nat)
    | Error(error: string)
    | Keepalive

  /** A JSON value of a frame's payload. */
  datatype Json = Int(i: int) | Str(s: string) | Object(members: Extra)

  /** The dict handed to `json.dumps`, its keys in insertion order. */
  type Payload = seq<(string, Json)>

  /** No frame may carry the draft's bytes under their key. */
  predicate DraftFree(f: Frame) {
    f.Progress? && f.extra.Some? ==> DraftKey !in f.extra.value
  }

  function EventName(f: Frame): string
    requires !f.Keepalive?
  {
    match f
    case Thinking(_) => "thinking"
    case Progress(_, _, _, _) => "progress"
    case DraftReady(_, _) => "draft_ready"
    case Complete(_, _) => "complete"
    case Error(_) => "error"
  }

  function PayloadOf(f: Frame): Payload
    requires !f.Keepalive?
  {
    match f
    case Thinking(text) => [("text", Str(text))]
    case Progress(step, name, detail, extra) =>
      [("step", Int(step)), ("name", Str(name)), ("detail", Str(detail))] +
      (if extra.Some? then [("extra", Object(extra.value))] else [])
    case DraftReady(id, kb) => [("job_id", Str(id)), ("size_kb", Int(kb))]
    case Complete(id, kb) => [("job_id", Str(id)), ("size_kb", Int(kb))]
    case Error(e) => [("error", Str(e))]
  }

  /** A draft-free frame hands `json.dumps` nothing under the draft key. */
  lemma DraftFreePayload(f: Frame)
    requires !f.Keepalive? && DraftFree(f)
    ensures forall k :: 0 <= k < |PayloadOf(f)| && PayloadOf(f)[k].1.Object? ==>
      DraftKey !in PayloadOf(f)[k].1.members
  {
  }

  /** One field line of a block: `<prefix><value>\n`. */
  function Line(prefix: string, value: string): string {
    prefix + value + "\n"
  }

  const KeepaliveText: string := ": keepalive\n\n"

  /** The text one `yield` sends: `event: <name>\ndata: <json>\n\n`, or the keepalive comment. */
  function Render(f: Frame, encode: Payload -> string): string {
    if f.Keepalive? then KeepaliveText
    else Line("event: ", EventName(f)) + Line("data: ", encode(PayloadOf(f))) + "\n"
  }

  /** The whole response body: the frames' texts in order. */
  function RenderAll(frames: seq<Frame>, encode: Payload -> string): string
    decreases |frames|
  {
    if frames == [] then [] else Render(frames[0], encode) + RenderAll(frames[1..], encode)
  }

  /** `json.dumps` without `indent` writes no raw line break. */
  predicate SingleLine(f: Frame, encode: Payload -> string) {
    f.Keepalive? || '\n' !in encode(PayloadOf(f))
  }

  // ---- Reading the stream back -------------------------------------------

  /** One block of the stream as a client reads it. */
  datatype Block = Named(event: string, data: string) | Comment(text: string)

  /** The block a client should read for a frame. */
  function Expected(f: Frame, encode: Payload -> string): Block {
    if f.Keepalive? then Comment("keepalive") else Named(EventName(f), encode(PayloadOf(f)))
  }

  /** The blocks a client should read for a sequence of frames: one per frame, in order. */
  function ExpectedAll(frames: seq<Frame>, encode: Payload -> string): (bs: seq<Block>)
    ensures |bs| == |frames|
    ensures forall k :: 0 <= k < |frames| ==> bs[k] == Expected(frames[k], encode)
    decreases |frames|
  {
    if frames == [] then [] else [Expected(frames[0], encode)] + ExpectedAll(frames[1..], encode)
  }

  /** The index of the first line break, or the length when there is none. */
  function LineEnd(s: string): (k: nat)
    ensures k <= |s|
    ensures forall i :: 0 <= i < k ==> s[i] != '\n'
    ensures k < |s| ==> s[k] == '\n'
    decreases |s|
  {
    if s == [] || s[0] == '\n' then 0 else 1 + LineEnd(s[1..])
  }

  predicate StartsWith(s: string, prefix: string) {
    |prefix| <= |s| && s[..|prefix|] == prefix
  }

  /** Reads the line `<prefix><value>\n` off the front of `s`: the value and what follows. */
  function ReadLine(s: string, prefix: string): (r: Option<(string, string)>)
    ensures r.Some? ==> |r.value.1| < |s|
  {
    if !StartsWith(s, prefix) then None
    else
      var rest := s[|prefix|..];
      var k := LineEnd(rest);
      if k == |rest| then None else Some((rest[..k], rest[k + 1..]))
  }

  /** Reads one block, terminated by an empty line, off the front of `s`. */
  function ParseBlock(s: string): (r: Option<(Block, string)>)
    ensures r.Some? ==> |r.value.1| < |s|
  {
    if StartsWith(s, "event: ") then
      match ReadLine(s, "event: ")
      case None => None
      case Some((name, rest)) =>
        match ReadLine(rest, "data: ")
        case None => None
        case Some((data, rest2)) =>
          if StartsWith(rest2, "\n") then Some((Named(name, data), rest2[1..])) else None
    else
      match ReadLine(s, ": ")
      case None => None
      case Some((text, rest)) =>
        if StartsWith(rest, "\n") then Some((Comment(text), rest[1..])) else None
  }

  /** Reads a whole body into blocks; `None` if some part is not a block. */
  function ParseStream(s: string): Option<seq<Block>>
    decreases |s|
  {
    if s == [] then Some([])
    else
      match ParseBlock(s)
      case None => None
      case Some((b, rest)) =>
        match ParseStream(rest)
        case None => None
        case Some(bs) => Some([b] + bs)
  }

  lemma {:induction false} ReadLineOf(prefix: string, value: string, tail: string)
    requires '\n' !in value
    ensures ReadLine(Line(prefix, value) + tail, prefix) == Some((value, tail))
  {
    var s := Line(prefix, value) + tail;
    assert s[..|prefix|] == prefix;
    var rest := s[|prefix|..];
    assert rest == value + "\n" + tail;
    assert rest[|value|] == '\n';
    forall i | 0 <= i < |value| ensures rest[i] != '\n' {
      assert rest[i] == value[i];
      assert value[i] in value;
    }
    assert LineEnd(rest) == |value|;
    assert rest[..|value|] == value;
    assert rest[|value| + 1..] == tail;
  }

  /** A named block is read back as its name and data. */
  lemma ParseNamed(name: string, data: string, tail: string)
    requires '\n' !in name && '\n' !in data
    ensures ParseBlock(Line("event: ", name) + Line("data: ", data) + "\n" + tail) == Some((Named(name, data), tail))
  {
    var first := Line("event: ", name);
    var rest := Line("data: ", data) + ("\n" + tail);
    var s := first + Line("data: ", data) + "\n" + tail;
    assert s == first + rest;
    ReadLineOf("event: ", name, rest);
    ReadLineOf("data: ", data, "\n" + tail);
    assert s[..7] == first[..7] == "event: ";
    assert ("\n" + tail)[..1] == "\n";
    assert ("\n" + tail)[1..] == tail;
  }

  /** The keepalive comment is read back as a comment. */
  lemma ParseKeepalive(tail: string)
    ensures ParseBlock(KeepaliveText + tail) == Some((Comment("keepalive"), tail))
  {
    var s := KeepaliveText + tail;
    assert KeepaliveText == Line(": ", "keepalive") + "\n";
    assert s == Line(": ", "keepalive") + ("\n" + tail);
    ReadLineOf(": ", "keepalive", "\n" + tail);
    assert s[0] == ':';
    assert !StartsWith(s, "event: ");
    assert ("\n" + tail)[..1] == "\n";
    assert ("\n" + tail)[1..] == tail;
  }

  /** Every frame is read back as the block it stands for, leaving the rest untouched. */
  lemma ParseRender(f: Frame, encode: Payload -> string, tail: string)
    requires SingleLine(f, encode)
    ensures ParseBlock(Render(f, encode) + tail) == Some((Expected(f, encode), tail))
  {
    if f.Keepalive? {
      ParseKeepalive(tail);
    } else {
      var name := EventName(f);
      assert '\n' !in name;
      ParseNamed(name, encode(PayloadOf(f)), tail);
    }
  }

  /**
   * The body is unambiguous: a client splitting it into blocks gets
   * back, in order, exactly one block per frame sent.
   */
  lemma {:induction false} ParseRenderAll(frames: seq<Frame>, encode: Payload -> string)
    requires forall k :: 0 <= k < |frames| ==> SingleLine(frames[k], encode)
    ensures ParseStream(RenderAll(frames, encode)) == Some(ExpectedAll(frames, encode))
    decreases |frames|
  {
    if frames != [] {
      var restText := RenderAll(frames[1..], encode);
      ParseRender(frames[0], encode, restText);
      ParseRenderAll(frames[1..], encode);
      var text := RenderAll(frames, encode);
      assert text == Render(frames[0], encode) + restText;
      assert text != [] by {
        assert |Render(frames[0], encode)| > 0;
      }
    }
  }
}
