/**
 * `DATA_LAKE_STORAGE_GEN1#create`: make the landing directory, create the
 * file, then stream the input into it with one APPEND per 4 MiB read. The
 * server is an oracle; the method returns the outcome of `create` together
 * with the requests it sent, in order.
 */
module Upload {
  import opened Wrappers
  import opened Http
  import opened Chunking
  import opened Landing

  /** `chunk_size = 4 * 1024 * 1024`. */
  const ChunkSize: nat := 4 * 1024 * 1024

  /** One APPEND to `path` per chunk, in chunk order. */
  function Appends(account: string, path: string, chunks: seq<seq<byte>>): (r: seq<Request>)
    ensures |r| == |chunks|
    ensures forall i :: 0 <= i < |r| ==> r[i].body == Raw(chunks[i])
  {
    seq(|chunks|, i requires 0 <= i < |chunks| => AppendRequest(account, path, chunks[i]))
  }

  lemma AppendsSnoc(account: string, path: string, chunks: seq<seq<byte>>, chunk: seq<byte>)
    ensures Appends(account, path, chunks + [chunk])
         == Appends(account, path, chunks) + [AppendRequest(account, path, chunk)]
  {
  }

  lemma DoneStep<T>(done: seq<T>, x: T, rest: seq<T>)
    ensures (done + [x]) + rest == done + ([x] + rest)
  {
  }

  /** The bytes a request carries (nothing for a request without a raw body). */
  function RawBytes(r: Request): seq<byte>
  {
    if r.body.Raw? then r.body.bytes else []
  }

  function RawBodies(reqs: seq<Request>): seq<seq<byte>>
  {
    seq(|reqs|, i requires 0 <= i < |reqs| => RawBytes(reqs[i]))
  }

  /**
   * The bodies of the APPEND run are the input's chunks in order, and they
   * concatenate back to the input; there are ceil(n / 4 MiB) of them, that is
   * the one count c with (c - 1) * 4 MiB < n <= c * 4 MiB.
   */
  lemma AppendsRebuildInput(account: string, target: string, data: seq<byte>)
    ensures var a := Appends(account, target, Chunks(data, ChunkSize));
      && |data| <= |a| * ChunkSize
      && (|a| > 0 ==> (|a| - 1) * ChunkSize < |data|)
      && RawBodies(a) == Chunks(data, ChunkSize)
      && Flatten(RawBodies(a)) == data
  {
    var c := Chunks(data, ChunkSize);
    assert RawBodies(Appends(account, target, c)) == c;
    ChunksFlatten(data, ChunkSize);
    ChunksCount(data, ChunkSize);
  }

  /**
   * Every APPEND of the run goes to the same file, carries 1 to 4 MiB, and
   * all but the last carry exactly 4 MiB.
   */
  lemma AppendsBounded(account: string, target: string, data: seq<byte>)
    ensures var a := Appends(account, target, Chunks(data, ChunkSize));
      && (forall r :: r in a ==> r == AppendRequest(account, target, RawBytes(r)))
      && (forall r :: r in a ==> 0 < |RawBytes(r)| <= ChunkSize)
      && (forall i :: 0 <= i < |a| - 1 ==> |RawBytes(a[i])| == ChunkSize)
  {
    var c := Chunks(data, ChunkSize);
    var a := Appends(account, target, c);
    ChunksSizes(data, ChunkSize);
    forall r | r in a
      ensures r == AppendRequest(account, target, RawBytes(r))
      ensures 0 < |RawBytes(r)| <= ChunkSize
    {
      var i :| 0 <= i < |a| && a[i] == r;
      assert RawBytes(r) == c[i];
    }
    forall i | 0 <= i < |a| - 1
      ensures |RawBytes(a[i])| == ChunkSize
    {
      assert RawBytes(a[i]) == c[i];
    }
  }

  /**
   * The `until file.eof?` loop: read up to 4 MiB, APPEND it to the target,
   * repeat. `append` only prints its reply and `create` drops the code it
   * returns, so the replies play no part.
   */
  method SendAppends(account: string, target: string, data: seq<byte>)
    returns (appends: seq<Request>)
    ensures appends == Appends(account, target, Chunks(data, ChunkSize))
  {
    appends := [];
    var pos := 0;
    ghost var done: seq<seq<byte>> := [];
    while pos < |data|
      invariant 0 <= pos <= |data|
      invariant done + Chunks(data[pos..], ChunkSize) == Chunks(data, ChunkSize)
      invariant appends == Appends(account, target, done)
      decreases |data| - pos
    {
      var n := Min(ChunkSize, |data| - pos);
      var chunk := data[pos..pos + n];
      ChunksStep(data, ChunkSize, pos);
      DoneStep(done, chunk, Chunks(data[pos + n..], ChunkSize));
      AppendsSnoc(account, target, done, chunk);
      appends := appends + [AppendRequest(account, target, chunk)];
      done := done + [chunk];
      pos := pos + n;
    }
    assert data[pos..] == [];
  }

  /** What a call of `create` returns or raises, with the requests it sent in order. */
  datatype Run = Run(result: Result<int, Failure>, sent: seq<Request>)

  /**
   * `create(filename, file, overwrite, category, source, type)` on account
   * `account` by a client holding `clientId` and `clientSecret`, with the
   * stream's contents `data` and today's `date`.
   *
   * The MKDIRS reply is run through `JSON.parse`; a reply that is not JSON
   * raises before anything else is sent. Otherwise CREATE follows, then one
   * APPEND per chunk of the input, and the result is the CREATE status code,
   * whatever the APPEND replies were.
   */
  method Create(account: string, clientId: string, clientSecret: string,
                filename: string, data: seq<byte>, overwrite: bool, category: string, source: string, kind: string, date: Date, server: Server)
    returns (run: Run)
    ensures |run.sent| >= 1
    ensures run.sent[0] == MkdirsRequest(account, LandingDir(category, source, kind, date), LandingPermission,
                                         clientId, clientSecret)
    ensures run.result.Err? <==> server(0, run.sent[0]).body.Malformed?
    ensures run.result.Err? ==> run.result == Err(ParserError) && |run.sent| == 1
    ensures run.result.Ok? ==>
              var target := TargetPath(LandingDir(category, source, kind, date), filename);
              && |run.sent| >= 2
              && run.sent[1] == CreateRequest(account, target, overwrite)
              && run.result.value == server(1, run.sent[1]).code
              && run.sent[2..] == Appends(account, target, Chunks(data, ChunkSize))
              && |data| <= (|run.sent| - 2) * ChunkSize
              && (|run.sent| > 2 ==> (|run.sent| - 3) * ChunkSize < |data|)
              && Flatten(RawBodies(run.sent[2..])) == data
  {
    var dir := LandingDir(category, source, kind, date);
    var mkdirs := MkdirsRequest(account, dir, LandingPermission, clientId, clientSecret);
    var listing := ParseBody(server(0, mkdirs));
    if listing.Err? {
      return Run(Err(listing.error), [mkdirs]);
    }
    var target := TargetPath(dir, filename);
    var create := CreateRequest(account, target, overwrite);
    var response := server(1, create);
    var appends := SendAppends(account, target, data);
    var sent := [mkdirs, create] + appends;
    assert sent[2..] == appends;
    AppendsRebuildInput(account, target, data);
    run := Run(Ok(response.code), sent);
  }
}
