/** The frames of one file transfer: which of them a receiver accepts, and that the frames a sender
    cuts a file into are accepted and rebuild it. */
module UploadFrames {
  import opened VersionedStore

  type byte = bv8

  const MAX_CHUNK := 256 * 1024
  const SMALL_CHUNK := 16384

  datatype Request = Request(id: string, fileName: string, mimeType: string, size: int, modifiedAt: string)

  datatype Frame =
    | FileBegin(id: string, size: int, mime: string, fileName: string, modifiedAt: string, encoding: string)
    | FileChunk(id: string, payload: seq<byte>)
    | FileEnd(id: string)

  /** A transfer under way. */
  datatype Progress = Progress(request: Request, begun: bool, received: seq<byte>, chunks: nat)

  datatype Verdict = Continue(state: Progress) | Complete(bytes: seq<byte>) | Refused(state: Progress)

  /** Enough for a file in the smallest chunks, and sixteen more. */
  function MaxChunks(size: nat): nat {
    (size + SMALL_CHUNK - 1) / SMALL_CHUNK + 16
  }

  predicate BeginMatches(request: Request, f: Frame)
    requires f.FileBegin?
  {
    && f.size == request.size && f.mime == request.mimeType && f.fileName == request.fileName
    && f.modifiedAt == request.modifiedAt && f.encoding == "binary"
  }

  predicate TooLong(p: Progress, payload: seq<byte>) {
    payload == [] || |payload| > MAX_CHUNK || |p.received| + |payload| > p.request.size
  }

  /** What a receiver makes of a frame for its transfer. */
  function Accept(p: Progress, f: Frame): Verdict
    requires p.request.size >= 0
  {
    if f.FileBegin? then
      if p.begun || !BeginMatches(p.request, f) then Refused(p) else Continue(p.(begun := true))
    else if !p.begun then Refused(p)
    else if f.FileChunk? then
      if TooLong(p, f.payload) then Refused(p)
      else
        var counted := p.(chunks := p.chunks + 1);
        if counted.chunks > MaxChunks(p.request.size) then Refused(counted)
        else Continue(counted.(received := p.received + f.payload))
    else if |p.received| != p.request.size then Refused(p)
    else Complete(p.received)
  }

  function Fresh(request: Request): Progress {
    Progress(request, false, [], 0)
  }

  /** A receiver fed frame after frame, until it refuses one or the file is complete. */
  function Feed(p: Progress, frames: seq<Frame>): Verdict
    requires p.request.size >= 0
    decreases |frames|
  {
    if frames == [] then Continue(p)
    else
      var v := Accept(p, frames[0]);
      if v.Continue? && frames[1..] != [] then Feed(v.state, frames[1..]) else v
  }

  // ----- The sender -----

  function Chunks(id: string, bytes: seq<byte>): seq<Frame>
    decreases |bytes|
  {
    if bytes == [] then []
    else if |bytes| <= MAX_CHUNK then [FileChunk(id, bytes)]
    else [FileChunk(id, bytes[..MAX_CHUNK])] + Chunks(id, bytes[MAX_CHUNK..])
  }

  function BeginOf(request: Request): Frame {
    FileBegin(request.id, request.size, request.mimeType, request.fileName, request.modifiedAt, "binary")
  }

  function FramesOf(request: Request, bytes: seq<byte>): seq<Frame> {
    [BeginOf(request)] + Chunks(request.id, bytes) + [FileEnd(request.id)]
  }

  /** Concatenation of the payloads. */
  function Payload(frames: seq<Frame>): seq<byte> {
    if frames == [] then []
    else (if frames[0].FileChunk? then frames[0].payload else []) + Payload(frames[1..])
  }

  /** How many more chunks the rest of the file may still need. */
  function Needed(n: nat): nat {
    (n + MAX_CHUNK - 1) / MAX_CHUNK
  }

  /** From any point of the file on, its remaining chunks and the end are accepted and complete it. */
  lemma {:induction false} ChunksRebuild(p: Progress, rest: seq<byte>)
    requires p.begun && p.request.size == |p.received| + |rest|
    requires p.chunks + Needed(|rest|) <= MaxChunks(p.request.size)
    ensures Feed(p, Chunks(p.request.id, rest) + [FileEnd(p.request.id)]) == Complete(p.received + rest)
    decreases |rest|
  {
    var frames := Chunks(p.request.id, rest) + [FileEnd(p.request.id)];
    if rest == [] {
      assert frames == [FileEnd(p.request.id)];
    } else {
      var n := if |rest| <= MAX_CHUNK then |rest| else MAX_CHUNK;
      var q := p.(received := p.received + rest[..n], chunks := p.chunks + 1);
      assert rest[..n] + rest[n..] == rest;
      assert frames[0] == FileChunk(p.request.id, rest[..n]);
      assert frames[1..] == Chunks(p.request.id, rest[n..]) + [FileEnd(p.request.id)];
      assert Needed(|rest|) == Needed(|rest[n..]|) + 1;
      assert Accept(p, frames[0]) == Continue(q);
      ChunksRebuild(q, rest[n..]);
      assert q.received + rest[n..] == p.received + rest;
    }
  }

  /** The frames a file is sent in are accepted by a receiver expecting it, and rebuild its bytes. */
  lemma SentFramesRebuild(request: Request, bytes: seq<byte>)
    requires request.size == |bytes|
    ensures Feed(Fresh(request), FramesOf(request, bytes)) == Complete(bytes)
  {
    var begun := Fresh(request).(begun := true);
    var rest := Chunks(request.id, bytes) + [FileEnd(request.id)];
    assert FramesOf(request, bytes) == [BeginOf(request)] + rest;
    assert FramesOf(request, bytes)[1..] == rest;
    ChunksRebuild(begun, bytes);
    assert begun.received + bytes == bytes;
  }

  /** The frames up to number n carry the file, and frame n ends it. */
  ghost predicate EndsAt(p: Progress, frames: seq<Frame>, bytes: seq<byte>, n: nat) {
    && n < |frames| && frames[n].FileEnd? && bytes == p.received + Payload(frames[..n]) && |bytes| == p.request.size
  }

  /** Whatever frames a receiver took, a complete file is exactly the payloads it accepted, and of
      the declared size. */
  lemma {:induction false} CompleteIsPayload(p: Progress, frames: seq<Frame>) returns (n: nat)
    requires p.request.size >= 0 && Feed(p, frames).Complete?
    ensures EndsAt(p, frames, Feed(p, frames).bytes, n)
    decreases |frames|
  {
    var v := Accept(p, frames[0]);
    if v.Continue? {
      var m := CompleteIsPayload(v.state, frames[1..]);
      n := m + 1;
      assert frames[..n] == [frames[0]] + frames[1..][..m];
      assert frames[..n][1..] == frames[1..][..m];
    } else {
      n := 0;
    }
  }
}
