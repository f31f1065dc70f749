// Downloading a session artifact in chunks.
module ArtifactDownload {
  import opened Options

  type Byte = bv8

  const CHUNK: nat := 262144
  const MAX_SIZE: nat := 67108864

  datatype Artifact = Artifact(id: string, digest: string)

  datatype Reply = Reply(id: string, digest: string, offset: int, totalSize: int, data: seq<Byte>)

  // What the server answers to the k-th request, for the offset asked.
  type Server = (nat, nat) -> Reply

  function Min(a: int, b: int): int {
    if a < b then a else b
  }

  predicate Accepts(artifact: Artifact, total: Option<int>, offset: nat, r: Reply) {
    && r.id == artifact.id && r.digest == artifact.digest && r.offset == offset
    && 1 <= r.totalSize <= MAX_SIZE && (total.Some? ==> total.value == r.totalSize)
    && |r.data| == Min(CHUNK, r.totalSize - offset)
  }

  // The first n chunks, asked for one behind the other.
  function Chunks(server: Server, n: nat): seq<Byte> {
    if n == 0 then [] else Chunks(server, n - 1) + server(n - 1, |Chunks(server, n - 1)|).data
  }

  // The request for chunk k starts where the chunks before it end.
  function ReplyAt(server: Server, k: nat): Reply {
    server(k, |Chunks(server, k)|)
  }

  ghost predicate Serves(server: Server, artifact: Artifact, file: seq<Byte>) {
    forall k, offset: nat | offset < |file| ::
      server(k, offset) == Reply(artifact.id, artifact.digest, offset, |file|, file[offset..Min(offset + CHUNK, |file|)])
  }

  lemma RequestCount(size: nat, n: nat)
    requires (n - 1) * CHUNK < size <= n * CHUNK && size <= MAX_SIZE
    ensures n == (size + CHUNK - 1) / CHUNK && n <= 256
  {
  }

  // The first n replies are all accepted, with one total size.
  ghost predicate AllAccepted(server: Server, artifact: Artifact, total: int, n: nat) {
    n == 0 || (AllAccepted(server, artifact, total, n - 1)
               && Accepts(artifact, Some(total), |Chunks(server, n - 1)|, ReplyAt(server, n - 1)))
  }

  lemma AcceptOne(server: Server, artifact: Artifact, total: int, n: nat)
    requires AllAccepted(server, artifact, total, n)
    requires Accepts(artifact, Some(total), |Chunks(server, n)|, ReplyAt(server, n))
    ensures AllAccepted(server, artifact, total, n + 1)
  {
  }

  // The k-th reply starts where the one before ended and is a whole chunk unless it is the last.
  lemma {:induction false} AcceptedAt(server: Server, artifact: Artifact, total: int, n: nat, k: nat)
    requires AllAccepted(server, artifact, total, n) && k < n
    ensures Accepts(artifact, Some(total), |Chunks(server, k)|, ReplyAt(server, k))
    ensures |Chunks(server, k + 1)| == |Chunks(server, k)| + Min(CHUNK, total - |Chunks(server, k)|)
  {
    if k < n - 1 { AcceptedAt(server, artifact, total, n - 1, k); }
  }

  // The k-th reply is of the artifact, in its version, and holds the k-th 256 KiB of at most 64 MiB.
  predicate WholeChunk(artifact: Artifact, total: int, k: nat, r: Reply) {
    && r.id == artifact.id && r.digest == artifact.digest && r.totalSize == total && 1 <= total <= 64 * 1024 * 1024
    && r.offset == k * 256 * 1024 && |r.data| == if (k + 1) * 256 * 1024 <= total then 256 * 1024 else total - k * 256 * 1024
  }

  lemma {:induction false} ChunksAdd(server: Server, artifact: Artifact, total: int, n: nat)
    requires AllAccepted(server, artifact, total, n) && 0 <= total && (n - 1) * CHUNK < total
    ensures |Chunks(server, n)| == if n * CHUNK <= total then n * CHUNK else total
  {
    if n > 0 { ChunksAdd(server, artifact, total, n - 1); }
  }

  // What was downloaded came in whole chunks, one behind the other, all of the same artifact.
  lemma DownloadedInChunks(server: Server, artifact: Artifact, all: seq<Byte>, requests: nat, k: nat)
    requires Outcome(server, artifact, Some(all), requests) && k < requests
    ensures WholeChunk(artifact, |all|, k, ReplyAt(server, k))
    ensures all[k * CHUNK..k * CHUNK + |ReplyAt(server, k).data|] == ReplyAt(server, k).data
  {
    AcceptedAt(server, artifact, |all|, requests, k);
    AcceptedPrefix(server, artifact, |all|, requests, k);
    assert k * CHUNK < |all|;
    ChunksAdd(server, artifact, |all|, k);
    ChunksStay(server, requests, k + 1);
    var before, data := Chunks(server, k), ReplyAt(server, k).data;
    assert Chunks(server, k + 1) == before + data;
    assert Chunks(server, k + 1)[|before|..] == data;
    assert all[..|before| + |data|] == before + data;
    assert all[|before|..|before| + |data|] == all[..|before| + |data|][|before|..];
  }

  lemma {:induction false} AcceptedPrefix(server: Server, artifact: Artifact, total: int, n: nat, k: nat)
    requires AllAccepted(server, artifact, total, n) && k <= n
    ensures AllAccepted(server, artifact, total, k)
  {
    if k < n { AcceptedPrefix(server, artifact, total, n - 1, k); }
  }

  lemma {:induction false} ChunksStay(server: Server, n: nat, k: nat)
    requires k <= n
    ensures Chunks(server, k) <= Chunks(server, n)
  {
    if k < n { ChunksStay(server, n - 1, k); }
  }

  // The download ends with exactly the declared size after one request per chunk, or at the first
  // reply that is refused.
  ghost predicate Outcome(server: Server, artifact: Artifact, bytes: Option<seq<Byte>>, requests: nat) {
    && 1 <= requests <= 256
    && match bytes
       case Some(all) =>
         && all == Chunks(server, requests) && 1 <= |all| <= MAX_SIZE
         && AllAccepted(server, artifact, |all|, requests) && requests == (|all| + CHUNK - 1) / CHUNK
       case None => exists total: Option<int> :: RefusedAfter(server, artifact, total, requests)
  }

  // The last of the requests is refused, the ones before it are not.
  ghost predicate RefusedAfter(server: Server, artifact: Artifact, total: Option<int>, requests: nat) {
    && requests >= 1
    && var k := requests - 1;
       && (total.None? <==> k == 0)
       && (total.Some? ==> AllAccepted(server, artifact, total.value, k) && k * CHUNK < total.value)
       && !Accepts(artifact, total, |Chunks(server, k)|, ReplyAt(server, k))
  }

  // Every reply is checked against the first.
  method DownloadArtifact(artifact: Artifact, server: Server) returns (bytes: Option<seq<Byte>>, requests: nat)
    ensures Outcome(server, artifact, bytes, requests)
  {
    var parts: seq<Byte> := [];
    var offset: nat := 0;
    var total: Option<int> := None;
    requests := 0;
    while true
      invariant parts == Chunks(server, requests) && offset == |parts| == requests * CHUNK
      invariant total.None? <==> requests == 0
      invariant total.Some? ==> 1 <= total.value <= MAX_SIZE && offset < total.value
      invariant total.Some? ==> AllAccepted(server, artifact, total.value, requests)
      decreases (if total.None? then MAX_SIZE + 1 else total.value) - offset
    {
      var reply := server(requests, offset);
      assert reply == ReplyAt(server, requests);
      if reply.id != artifact.id || reply.digest != artifact.digest || reply.offset != offset
         || reply.totalSize < 1 || reply.totalSize > MAX_SIZE || (total.Some? && total.value != reply.totalSize) {
        assert RefusedAfter(server, artifact, total, requests + 1);
        return None, requests + 1;
      }
      if |reply.data| != Min(CHUNK, reply.totalSize - offset) {
        assert RefusedAfter(server, artifact, total, requests + 1);
        return None, requests + 1;
      }
      total := Some(reply.totalSize);
      assert Accepts(artifact, total, offset, reply);
      AcceptOne(server, artifact, total.value, requests);
      parts := parts + reply.data;
      offset := offset + |reply.data|;
      requests := requests + 1;
      if offset >= total.value {
        RequestCount(offset, requests);
        return Some(parts), requests;
      }
    }
  }

  lemma {:induction false} ChunksOfFile(server: Server, artifact: Artifact, file: seq<Byte>, n: nat)
    requires Serves(server, artifact, file) && n * CHUNK < |file| + CHUNK
    ensures Chunks(server, n) == file[..Min(n * CHUNK, |file|)]
  {
    if n > 0 {
      ChunksOfFile(server, artifact, file, n - 1);
    }
  }

  lemma ServedIsAccepted(server: Server, artifact: Artifact, file: seq<Byte>, total: Option<int>, k: nat)
    requires Serves(server, artifact, file) && 1 <= |file| <= MAX_SIZE && k * CHUNK < |file|
    requires total.Some? ==> total.value == |file|
    ensures Accepts(artifact, total, |Chunks(server, k)|, ReplyAt(server, k)) && ReplyAt(server, k).totalSize == |file|
  {
    ChunksOfFile(server, artifact, file, k);
  }

  // Whenever a server serves a file of an accepted size, what arrives is the file.
  lemma ServedIsDownloaded(server: Server, artifact: Artifact, file: seq<Byte>, bytes: Option<seq<Byte>>, requests: nat)
    requires Serves(server, artifact, file) && 1 <= |file| <= MAX_SIZE && Outcome(server, artifact, bytes, requests)
    ensures bytes == Some(file)
  {
    ServedIsAccepted(server, artifact, file, None, 0);
    if bytes.Some? {
      AcceptedAt(server, artifact, |bytes.value|, requests, 0);
      ChunksOfFile(server, artifact, file, requests);
      assert file[..|file|] == file;
    } else {
      var total: Option<int> :| RefusedAfter(server, artifact, total, requests);
      if total.Some? { AcceptedAt(server, artifact, total.value, requests - 1, 0); }
      ServedIsAccepted(server, artifact, file, total, requests - 1);
    }
  }
}
