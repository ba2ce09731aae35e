/** The controller object and the client loops that write and read files through it in chunks. */
module Transfer {
  import opened Common
  import opened TransferProtocol

  class Controller {
    var files: map<string, seq<Byte>>
    var writes: map<nat, Write>
    var nextId: nat
    var dirty: bool

    ghost predicate Valid()
      reads this
    {
      Sound(View())
    }

    ghost function View(): Server
      reads this
    {
      Server(files, writes, nextId, dirty)
    }

    constructor ()
      ensures Valid() && View() == Server(map[], map[], 0, false)
    {
      files, writes, nextId, dirty := map[], map[], 0, false;
    }

    method BeginWrite(path: string) returns (id: nat)
      requires Valid()
      modifies `writes, `nextId
      ensures Valid() && (View(), Began(id)) == Serve(old(View()), Begin(path))
    {
      id := nextId;
      writes := writes[id := Write(path, [], 0)];
      nextId := nextId + 1;
    }

    method WriteChunk(id: nat, offset: int, content: seq<Byte>) returns (response: Response)
      requires Valid()
      modifies `writes
      ensures Valid() && (View(), response) == Serve(old(View()), Chunk(id, offset, content))
    {
      if id !in writes { return Refused; }
      var entry := writes[id];
      if offset != entry.offset { return Refused; }
      writes := writes[id := entry.(buffer := entry.buffer + content, offset := entry.offset + |content|)];
      response := Done;
    }

    method CommitWrite(id: nat, landed: bool) returns (response: Response)
      requires Valid()
      modifies `files, `writes, `dirty
      ensures Valid() && (View(), response) == Serve(old(View()), Commit(id, landed))
    {
      if id !in writes { return Refused; }
      var entry := writes[id];
      writes := writes - {id};
      if !landed { return Refused; }
      files := files[entry.path := entry.buffer];
      dirty := true;
      response := Done;
    }

    method AbortWrite(id: nat)
      requires Valid()
      modifies `writes
      ensures Valid() && View() == Serve(old(View()), Abort(id)).0
    {
      writes := writes - {id};
    }

    method RemovePaths(paths: set<string>)
      requires Valid()
      modifies `files, `dirty
      ensures Valid() && View() == Serve(old(View()), Remove(paths)).0
    {
      files := files - paths;
      dirty := true;
    }

    method ReadFile(path: string, offset: nat, limit: nat) returns (response: Response)
      ensures response == ReadResponse(View(), path, offset, limit)
    {
      if limit < 1 || limit > CHUNK { return Refused; }
      if path !in files { return NotFound; }
      var bytes := Range(files[path], offset, limit);
      response := Content(bytes, offset + |bytes|, |bytes| < limit);
    }

    method Handle(r: Request)
      requires Valid()
      modifies this
      ensures Valid() && View() == Serve(old(View()), r).0
    {
      match r
      case Begin(path) => var _ := BeginWrite(path);
      case Chunk(id, at, content) => var _ := WriteChunk(id, at, content);
      case Commit(id, landed) => var _ := CommitWrite(id, landed);
      case Abort(id) => AbortWrite(id);
      case Remove(paths) => RemovePaths(paths);
      case Read(_, _, _) =>
    }

    /** Handles other clients' requests between two requests of one client. */
    method HandleOthers(mine: Option<nat>, path: string, others: seq<Request>)
      requires Valid() && (mine.Some? ==> mine.value < nextId)
      modifies this
      ensures Valid() && View() == Meanwhile(old(View()), mine, path, others)
    {
      for i := 0 to |others|
        invariant Valid()
        invariant Meanwhile(View(), mine, path, others[i..]) == Meanwhile(old(View()), mine, path, others)
      {
        assert others[i..][1..] == others[i + 1..];
        if Foreign(Server(files, writes, nextId, dirty), mine, path, others[i]) {
          Handle(others[i]);
        }
      }
      assert others[|others|..] == [];
    }
  }

  /** What becomes of a request: it never arrives, it is served but the client does not learn of it
      (the response is lost or the caller aborts), or it is answered. */
  datatype Delivery = Lost | Unanswered | Answered

  /** The commit is reached and its move into place succeeds. */
  predicate TakesEffect(bytes: seq<Byte>, begin: Delivery, chunks: nat -> Delivery, commit: Delivery, landed: bool) {
    && begin.Answered? && (forall k: nat | k < ChunkCount(bytes) :: chunks(k).Answered?)
    && !commit.Lost? && landed
  }

  /** The path holds in `after` what it held in `before`. */
  predicate SameFile(before: map<string, seq<Byte>>, after: map<string, seq<Byte>>, path: string) {
    (path in after <==> path in before) && (path in before ==> after[path] == before[path])
  }

  predicate Buffered(s: Server, id: nat, path: string, bytes: seq<Byte>, count: nat) {
    id < s.nextId && id in s.writes && count <= |bytes| && s.writes[id] == Write(path, bytes[..count], count)
  }

  /** Sends the chunk at `offset`; a failure aborts the write. */
  method SendChunk(server: Controller, id: nat, path: string, bytes: seq<Byte>, offset: nat, delivery: Delivery,
                   others: seq<Request>)
    returns (ok: bool)
    requires server.Valid() && offset <= |bytes| && Buffered(server.View(), id, path, bytes, offset)
    modifies server
    ensures server.Valid() && SameFile(old(server.files), server.files, path) && ok == delivery.Answered?
    ensures ok ==> Buffered(server.View(), id, path, bytes, Min(|bytes|, offset + CHUNK))
  {
    ForeignKeeps(server.View(), Some(id), path, others);
    server.HandleOthers(Some(id), path, others);
    var chunk := bytes[offset..Min(|bytes|, offset + CHUNK)];
    assert bytes[..offset] + chunk == bytes[..Min(|bytes|, offset + CHUNK)];
    var response := Refused;
    if !delivery.Lost? {
      response := server.WriteChunk(id, offset, chunk);
    }
    ok := delivery.Answered? && response == Done;
    if !ok { server.AbortWrite(id); }
  }

  /** Sends the commit; a failure aborts the write, which may be too late. */
  method SendCommit(server: Controller, id: nat, path: string, bytes: seq<Byte>, delivery: Delivery, landed: bool,
                    others: seq<Request>)
    returns (ok: bool)
    requires server.Valid() && Buffered(server.View(), id, path, bytes, |bytes|)
    modifies server
    ensures server.Valid() && ok == (delivery.Answered? && landed)
    ensures if !delivery.Lost? && landed then path in server.files && server.files[path] == bytes
            else SameFile(old(server.files), server.files, path)
  {
    ForeignKeeps(server.View(), Some(id), path, others);
    server.HandleOthers(Some(id), path, others);
    assert bytes[..|bytes|] == bytes;
    var response := Refused;
    if !delivery.Lost? {
      response := server.CommitWrite(id, landed);
    }
    ok := delivery.Answered? && response == Done;
    if !ok { server.AbortWrite(id); }
  }

  /** The client's write: chunks until the bytes are out, then the commit; any failure aborts. The path
      ends up with all the bytes exactly if the commit took effect, whatever the client is told: a
      commit that took effect unanswered is reported as a failure. The functions `others` and `late` give
      what other clients send before each chunk and at the end. */
  method WriteFile(server: Controller, path: string, bytes: seq<Byte>, begin: Delivery, chunks: nat -> Delivery,
                   commit: Delivery, landed: bool, others: nat -> seq<Request>, late: seq<Request>)
    returns (ok: bool)
    requires server.Valid()
    modifies server
    ensures server.Valid() && (ok <==> TakesEffect(bytes, begin, chunks, commit, landed) && commit.Answered?)
    ensures if TakesEffect(bytes, begin, chunks, commit, landed)
        then path in server.files && server.files[path] == bytes
            else SameFile(old(server.files), server.files, path)
  {
    if begin.Lost? { return false; }
    var id := server.BeginWrite(path);
    if begin.Unanswered? { return false; }
    var offset, sent := 0, 0;
    while offset < |bytes| || offset == 0
      invariant server.Valid() && SameFile(old(server.files), server.files, path)
      invariant Buffered(server.View(), id, path, bytes, Min(|bytes|, offset))
      invariant offset == sent * CHUNK && (sent > 0 ==> bytes != [] && offset - CHUNK < |bytes|)
      invariant forall k: nat | k < sent :: chunks(k).Answered?
      decreases |bytes| + CHUNK - offset
    {
      ok := SendChunk(server, id, path, bytes, offset, chunks(sent), others(sent));
      if !ok {
        ChunkNeeded(bytes, sent);
        return;
      }
      if |bytes| == 0 { break; }
      offset, sent := offset + CHUNK, sent + 1;
    }
    if bytes != [] { AllChunks(bytes, sent); }
    ok := SendCommit(server, id, path, bytes, commit, landed, late);
  }

  /** A write whose commit is served but not answered fails and leaves its bytes: for every path and
      bytes, the abort that follows comes too late. */
  method UnansweredCommit(server: Controller, path: string, bytes: seq<Byte>) returns (ok: bool)
    requires server.Valid()
    modifies server
    ensures !ok && path in server.files && server.files[path] == bytes
  {
    ok := WriteFile(server, path, bytes, Answered, k => Answered, Unanswered, true, k => [], []);
  }

  /** The client's read: chunks until one is short. An exact multiple of the chunk size ends with an
      empty chunk. */
  method ReadFile(server: Controller, path: string, others: nat -> seq<Request>) returns (content: Option<seq<Byte>>)
    requires server.Valid()
    modifies server
    ensures server.Valid()
    ensures content == if path in old(server.files) then Some(old(server.files)[path]) else None
    ensures (path in server.files <==> path in old(server.files))
         && (path in server.files ==> server.files[path] == old(server.files)[path])
  {
    var next := server.ReadFile(path, 0, CHUNK);
    if next == NotFound { return None; }
    var bytes: seq<Byte> := [];
    ghost var all := server.files[path];
    while true
      invariant server.Valid() && path in server.files && server.files[path] == all
      invariant |bytes| <= |all| && bytes == all[..|bytes|]
      invariant next == Content(Range(all, |bytes|, CHUNK), |bytes| + |Range(all, |bytes|, CHUNK)|,
                                |Range(all, |bytes|, CHUNK)| < CHUNK)
      decreases |all| - |bytes|, if next.complete then 0 else 1
    {
      assert bytes + next.bytes == all[..next.nextOffset];
      bytes := bytes + next.bytes;
      if next.complete {
        assert bytes == all;
        return Some(bytes);
      }
      ForeignKeeps(server.View(), None, path, others(next.nextOffset / CHUNK));
      server.HandleOthers(None, path, others(next.nextOffset / CHUNK));
      next := server.ReadFile(path, next.nextOffset, CHUNK);
    }
  }

  /** Whatever other clients do to other paths, what is read back is what was written. */
  method WriteThenRead(server: Controller, path: string, bytes: seq<Byte>, others: nat -> seq<Request>,
                       late: seq<Request>, readers: nat -> seq<Request>)
    returns (content: Option<seq<Byte>>)
    requires server.Valid()
    modifies server
    ensures content == Some(bytes)
  {
    var ok := WriteFile(server, path, bytes, Answered, k => Answered, Answered, true, others, late);
    content := ReadFile(server, path, readers);
  }
}
