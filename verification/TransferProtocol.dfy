/** The controller's side of chunked file transfer: writes buffered by id, and ranged reads. */
module TransferProtocol {
  import opened Common

  const CHUNK: nat := 4 * 1024 * 1024

  type Byte = n: nat | n < 256

  /** A buffered write: the temporary file's bytes, and how many the controller counted. */
  datatype Write = Write(path: string, buffer: seq<Byte>, offset: nat)

  datatype Server = Server(files: map<string, seq<Byte>>, writes: map<nat, Write>, nextId: nat, dirty: bool)

  /** `landed` says whether the final move into place succeeds; `paths` are what a removal deletes. */
  datatype Request =
    | Begin(path: string)
    | Chunk(id: nat, at: int, content: seq<Byte>)
    | Commit(id: nat, landed: bool)
    | Abort(id: nat)
    | Remove(paths: set<string>)
    | Read(path: string, offset: nat, limit: nat)

  datatype Response =
    | Began(id: nat)
    | Done
    | Content(bytes: seq<Byte>, nextOffset: nat, complete: bool)
    | NotFound
    | Refused

  /** The bytes of a ranged read. */
  function Range(bytes: seq<Byte>, offset: nat, limit: nat): seq<Byte> {
    if offset >= |bytes| then [] else bytes[offset..Min(|bytes|, offset + limit)]
  }

  function ReadResponse(s: Server, path: string, offset: nat, limit: nat): Response {
    if limit < 1 || limit > CHUNK then Refused
    else if path !in s.files then NotFound
    else
      var bytes := Range(s.files[path], offset, limit);
      Content(bytes, offset + |bytes|, |bytes| < limit)
  }

  function Serve(s: Server, r: Request): (Server, Response) {
    match r
    case Begin(path) => (s.(writes := s.writes[s.nextId := Write(path, [], 0)], nextId := s.nextId + 1),
                         Began(s.nextId))
    case Chunk(id, at, content) =>
      if id !in s.writes || at != s.writes[id].offset then (s, Refused)
      else
        var w := s.writes[id];
        (s.(writes := s.writes[id := Write(w.path, w.buffer + content, w.offset + |content|)]), Done)
    case Commit(id, landed) =>
      if id !in s.writes then (s, Refused)
      else if !landed then (s.(writes := s.writes - {id}), Refused)
      else (s.(files := s.files[s.writes[id].path := s.writes[id].buffer], writes := s.writes - {id}, dirty := true),
            Done)
    case Abort(id) => (s.(writes := s.writes - {id}), Done)
    case Remove(paths) => (s.(files := s.files - paths, dirty := true), Done)
    case Read(path, offset, limit) => (s, ReadResponse(s, path, offset, limit))
  }

  /** Ids are never reused, and a buffer holds as many bytes as were counted. */
  predicate Sound(s: Server) {
    forall id | id in s.writes :: id < s.nextId && s.writes[id].offset == |s.writes[id].buffer|
  }

  lemma ServeSound(s: Server, r: Request)
    requires Sound(s)
    ensures Sound(Serve(s, r).0) && s.nextId <= Serve(s, r).0.nextId
  {
  }

  // ------------------------------------------------------------------ Other clients

  /** A request of another client: it names another write, and does not touch this path. */
  predicate Foreign(s: Server, mine: Option<nat>, path: string, r: Request) {
    match r
    case Begin(_) => true
    case Chunk(id, _, _) => mine != Some(id)
    case Commit(id, _) => mine != Some(id) && (id in s.writes ==> s.writes[id].path != path)
    case Abort(id) => mine != Some(id)
    case Remove(paths) => path !in paths
    case Read(_, _, _) => true
  }

  /** The server after other clients' requests; those that are not foreign are left out. */
  function Meanwhile(s: Server, mine: Option<nat>, path: string, others: seq<Request>): Server
    decreases |others|
  {
    if others == [] then s
    else Meanwhile(if Foreign(s, mine, path, others[0]) then Serve(s, others[0]).0 else s, mine, path, others[1..])
  }

  lemma {:induction false} ForeignKeeps(s: Server, mine: Option<nat>, path: string, others: seq<Request>)
    requires Sound(s) && (mine.Some? ==> mine.value < s.nextId)
    ensures var t := Meanwhile(s, mine, path, others);
      && Sound(t) && s.nextId <= t.nextId
      && (path in t.files <==> path in s.files) && (path in s.files ==> t.files[path] == s.files[path])
      && (mine.Some? ==> (mine.value in t.writes <==> mine.value in s.writes))
      && (mine.Some? && mine.value in s.writes ==> t.writes[mine.value] == s.writes[mine.value])
    decreases |others|
  {
    if others != [] {
      var next := if Foreign(s, mine, path, others[0]) then Serve(s, others[0]).0 else s;
      ServeSound(s, others[0]);
      ForeignKeeps(next, mine, path, others[1..]);
    }
  }

  /** Whatever changes a file leaves the mark that there is something to capture. */
  lemma {:induction false} ChangesAreMarked(s: Server, mine: Option<nat>, path: string, requests: seq<Request>)
    ensures var t := Meanwhile(s, mine, path, requests);
      (t.files != s.files ==> t.dirty) && (s.dirty ==> t.dirty)
    decreases |requests|
  {
    if requests != [] {
      var next := if Foreign(s, mine, path, requests[0]) then Serve(s, requests[0]).0 else s;
      ChangesAreMarked(next, mine, path, requests[1..]);
    }
  }

  /** ... and nothing else does. */
  lemma OnlyChangesMark(s: Server, r: Request)
    requires !s.dirty && Serve(s, r).0.dirty
    ensures r.Commit? || r.Remove?
  {
  }

  // ------------------------------------------------------------------ Runs with others in between

  /** One client's requests in order, with other clients' requests before each of them. */
  function Interleaved(s: Server, mine: Option<nat>, path: string, requests: seq<Request>,
                       others: nat -> seq<Request>): Server {
    if requests == [] then s
    else
      var n := |requests| - 1;
      var before := Interleaved(s, mine, path, requests[..n], others);
      Serve(Meanwhile(before, mine, path, others(n)), requests[n]).0
  }

  lemma InterleavedStep(s: Server, mine: Option<nat>, path: string, requests: seq<Request>, r: Request,
                        others: nat -> seq<Request>)
    ensures Interleaved(s, mine, path, requests + [r], others)
         == Serve(Meanwhile(Interleaved(s, mine, path, requests, others), mine, path, others(|requests|)), r).0
  {
    assert (requests + [r])[..|requests|] == requests;
  }

  /** Chunk `k` of the bytes, as the client cuts them. */
  function ChunkRequest(id: nat, bytes: seq<Byte>, k: nat): Request {
    Chunk(id, k * CHUNK, Range(bytes, k * CHUNK, CHUNK))
  }

  function ChunkRequests(id: nat, bytes: seq<Byte>, count: nat): (requests: seq<Request>)
    ensures |requests| == count
  {
    if count == 0 then [] else ChunkRequests(id, bytes, count - 1) + [ChunkRequest(id, bytes, count - 1)]
  }

  /** The client sends at least one chunk, and no empty chunk after the first. */
  function ChunkCount(bytes: seq<Byte>): nat {
    if bytes == [] then 1 else (|bytes| + CHUNK - 1) / CHUNK
  }

  /** After the first `k` chunks and other clients' requests, the next chunk is accepted. */
  lemma ChunkStep(s: Server, id: nat, path: string, bytes: seq<Byte>, k: nat, others: seq<Request>)
    requires Sound(s) && id in s.writes && k * CHUNK <= |bytes|
        && s.writes[id] == Write(path, bytes[..k * CHUNK], k * CHUNK)
    ensures var t := Serve(Meanwhile(s, Some(id), path, others), ChunkRequest(id, bytes, k)).0;
      && Sound(t) && id in t.writes
      && t.writes[id] == Write(path, bytes[..Min(|bytes|, (k + 1) * CHUNK)], Min(|bytes|, (k + 1) * CHUNK))
  {
    ForeignKeeps(s, Some(id), path, others);
    ServeSound(Meanwhile(s, Some(id), path, others), ChunkRequest(id, bytes, k));
    var start := k * CHUNK;
    assert bytes[..start] + Range(bytes, start, CHUNK) == bytes[..Min(|bytes|, start + CHUNK)];
  }

  lemma ChunkStarts(bytes: seq<Byte>, k: nat)
    requires k < ChunkCount(bytes)
    ensures k * CHUNK <= |bytes|
  {
  }

  lemma ChunkNeeded(bytes: seq<Byte>, k: nat)
    requires k == 0 || k * CHUNK < |bytes|
    ensures k < ChunkCount(bytes)
  {
  }

  lemma ChunksCover(bytes: seq<Byte>)
    ensures |bytes| <= ChunkCount(bytes) * CHUNK
  {
  }

  lemma AllChunks(bytes: seq<Byte>, k: nat)
    requires bytes != [] && k > 0 && (k - 1) * CHUNK < |bytes| <= k * CHUNK
    ensures ChunkCount(bytes) == k
  {
  }

  /** The write holds the first `count` chunks of the bytes. */
  predicate Filled(s: Server, id: nat, path: string, bytes: seq<Byte>, count: nat) {
    var length := Min(|bytes|, count * CHUNK);
    Sound(s) && id in s.writes && s.writes[id] == Write(path, bytes[..length], length)
  }

  lemma OneMoreChunk(s: Server, id: nat, path: string, bytes: seq<Byte>, k: nat, others: seq<Request>)
    requires Filled(s, id, path, bytes, k) && k < ChunkCount(bytes)
    ensures Filled(Serve(Meanwhile(s, Some(id), path, others), ChunkRequest(id, bytes, k)).0, id, path, bytes, k + 1)
  {
    ChunkStarts(bytes, k);
    ChunkStep(s, id, path, bytes, k, others);
  }

  lemma {:induction false} ChunksFill(s: Server, id: nat, path: string, bytes: seq<Byte>, count: nat,
                                      others: nat -> seq<Request>)
    requires Filled(s, id, path, bytes, 0) && count <= ChunkCount(bytes)
    ensures Filled(Interleaved(s, Some(id), path, ChunkRequests(id, bytes, count), others), id, path, bytes, count)
  {
    if count > 0 {
      ChunksFill(s, id, path, bytes, count - 1, others);
      var requests, r := ChunkRequests(id, bytes, count - 1), ChunkRequest(id, bytes, count - 1);
      InterleavedStep(s, Some(id), path, requests, r, others);
      OneMoreChunk(Interleaved(s, Some(id), path, requests, others), id, path, bytes, count - 1, others(count - 1));
    }
  }

  /** Whatever other clients do meanwhile, the client's chunks and its commit leave exactly its bytes
      at its path. */
  lemma WriteCommits(s: Server, id: nat, path: string, bytes: seq<Byte>, others: nat -> seq<Request>)
    requires Sound(s) && id in s.writes && s.writes[id] == Write(path, [], 0)
    ensures var count := ChunkCount(bytes);
      var t := Interleaved(s, Some(id), path, ChunkRequests(id, bytes, count) + [Commit(id, true)], others);
      path in t.files && t.files[path] == bytes
  {
    var count := ChunkCount(bytes);
    var chunks := ChunkRequests(id, bytes, count);
    assert bytes[..0] == [];
    ChunksFill(s, id, path, bytes, count, others);
    InterleavedStep(s, Some(id), path, chunks, Commit(id, true), others);
    ForeignKeeps(Interleaved(s, Some(id), path, chunks, others), Some(id), path, others(count));
    ChunksCover(bytes);
    assert bytes[..Min(|bytes|, count * CHUNK)] == bytes;
  }

  /** An abort after the commit finds nothing to forget: the bytes stay. */
  lemma AbortComesTooLate(s: Server, id: nat, path: string, bytes: seq<Byte>, others: nat -> seq<Request>)
    requires Sound(s) && id in s.writes && s.writes[id] == Write(path, [], 0)
    ensures var sent := ChunkRequests(id, bytes, ChunkCount(bytes)) + [Commit(id, true)];
      var t := Interleaved(s, Some(id), path, sent + [Abort(id)], others);
      path in t.files && t.files[path] == bytes
  {
    var sent := ChunkRequests(id, bytes, ChunkCount(bytes)) + [Commit(id, true)];
    WriteCommits(s, id, path, bytes, others);
    InterleavedStep(s, Some(id), path, sent, Abort(id), others);
    InterleavedSound(s, Some(id), path, sent, others);
    ForeignKeeps(Interleaved(s, Some(id), path, sent, others), Some(id), path, others(|sent|));
  }

  lemma {:induction false} InterleavedSound(s: Server, mine: Option<nat>, path: string, requests: seq<Request>,
                                            others: nat -> seq<Request>)
    requires Sound(s) && (mine.Some? ==> mine.value < s.nextId)
    ensures var t := Interleaved(s, mine, path, requests, others); Sound(t) && s.nextId <= t.nextId
    decreases |requests|
  {
    if requests != [] {
      var n := |requests| - 1;
      InterleavedSound(s, mine, path, requests[..n], others);
      var before := Interleaved(s, mine, path, requests[..n], others);
      ForeignKeeps(before, mine, path, others(n));
      ServeSound(Meanwhile(before, mine, path, others(n)), requests[n]);
    }
  }

  // ------------------------------------------------------------------ Ranged reads

  function Sum(limits: seq<nat>): nat {
    if limits == [] then 0 else Sum(limits[..|limits| - 1]) + limits[|limits| - 1]
  }

  /** What reads with these limits give, each from where the one before ended, and where the last one ended. */
  function ReadOn(s: Server, path: string, limits: seq<nat>): Option<(seq<Byte>, nat)> {
    if limits == [] then Some(([], 0))
    else
      match ReadOn(s, path, limits[..|limits| - 1])
      case None => None
      case Some((bytes, offset)) =>
        match Serve(s, Read(path, offset, limits[|limits| - 1])).1
        case Content(more, next, _) => Some((bytes + more, next))
        case _ => None
  }

  /** Whatever the limits of the reads, up to 4 MiB each, together they give the front of the file without a gap. */
  lemma {:induction false} ReadsAddUp(s: Server, path: string, limits: seq<nat>)
    requires path in s.files && forall k | 0 <= k < |limits| :: 1 <= limits[k] <= 4_194_304
    ensures var end := Min(|s.files[path]|, Sum(limits)); ReadOn(s, path, limits) == Some((s.files[path][..end], end))
  {
    if limits != [] {
      var n := |limits| - 1;
      ReadsAddUp(s, path, limits[..n]);
      OneMoreRead(s, path, Sum(limits[..n]), limits[n]);
    }
  }

  /** A read from where the earlier ones ended says that it is complete exactly when it asks beyond the end. */
  lemma LastReadIsComplete(s: Server, path: string, limits: seq<nat>, limit: nat)
    requires path in s.files && 1 <= limit <= 4_194_304
    requires forall k | 0 <= k < |limits| :: 1 <= limits[k] <= 4_194_304
    ensures var before := ReadOn(s, path, limits);
      before.Some? && var r := Serve(s, Read(path, before.value.1, limit)).1;
        r.Content? && (r.complete <==> |s.files[path]| < Sum(limits) + limit)
  {
    ReadsAddUp(s, path, limits);
    OneMoreRead(s, path, Sum(limits), limit);
  }

  lemma OneMoreRead(s: Server, path: string, start: nat, limit: nat)
    requires path in s.files && 1 <= limit <= 4_194_304
    ensures var bytes := s.files[path];
      var from, end := Min(|bytes|, start), Min(|bytes|, start + limit);
      var r := Serve(s, Read(path, from, limit)).1;
      && r.Content? && bytes[..from] + r.bytes == bytes[..end] && r.nextOffset == end
      && (r.complete <==> |bytes| < start + limit)
  {
  }

  /** Any other limit is refused, and so is a file that is not there. */
  lemma ReadIsRefused(s: Server, path: string, offset: nat, limit: nat)
    ensures ReadResponse(s, path, offset, limit).Content? <==> path in s.files && 1 <= limit <= 4_194_304
    ensures ReadResponse(s, path, offset, limit).NotFound? <==> path !in s.files && 1 <= limit <= 4_194_304
  {
  }
}
