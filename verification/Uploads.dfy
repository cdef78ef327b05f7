/** The body of a PUT (src/handler.rs): chunks go upstream one by one while a
    bounded copy is kept for the cache. */
module Uploads {
  import opened Prelude

  datatype Chunk = Data(bytes: Bytes) | Broken

  /** What the loop has done so far: the bytes handed upstream, the copy kept
      for the cache, whether that copy was given up, and the reported size. */
  datatype Upload = Upload(sent: Bytes, buffer: Bytes, capped: bool, total: nat)

  function SaturatingAdd(max: nat, a: nat, b: nat): nat {
    if a + b <= max then a + b else max
  }

  function Start(cap: nat): Upload {
    Upload([], [], cap == 0, 0)
  }

  function Feed(cap: nat, max: nat, u: Upload, chunk: Bytes): Upload {
    var v := u.(sent := u.sent + chunk, total := SaturatingAdd(max, u.total, |chunk|));
    if u.capped then v
    else
      var remaining := if |u.buffer| <= cap then cap - |u.buffer| else 0;
      if remaining == 0 then v.(capped := true)
      else if |chunk| <= remaining then v.(buffer := u.buffer + chunk)
      else v.(buffer := u.buffer + chunk[..remaining], capped := true)
  }

  function FeedAll(cap: nat, max: nat, chunks: seq<Bytes>): Upload {
    if chunks == [] then Start(cap)
    else Feed(cap, max, FeedAll(cap, max, chunks[..|chunks| - 1]), chunks[|chunks| - 1])
  }

  function Concat(chunks: seq<Bytes>): Bytes {
    if chunks == [] then [] else Concat(chunks[..|chunks| - 1]) + chunks[|chunks| - 1]
  }

  /** The copy is a prefix of what went upstream, never above the cap, and it is
      all of it as long as it has not been given up. */
  predicate Sound(cap: nat, u: Upload) {
    && u.buffer <= u.sent
    && |u.buffer| <= cap
    && (!u.capped ==> u.buffer == u.sent && cap > 0)
  }

  lemma FeedSound(cap: nat, max: nat, u: Upload, chunk: Bytes)
    requires Sound(cap, u)
    ensures Sound(cap, Feed(cap, max, u, chunk))
    ensures Feed(cap, max, u, chunk).sent == u.sent + chunk
  {}

  /** No chunk arrived while the copy was already full. */
  predicate NoLateChunk(cap: nat, chunks: seq<Bytes>) {
    forall i :: 0 <= i < |chunks| ==> |Concat(chunks[..i])| < cap
  }

  lemma LateAt(cap: nat, chunks: seq<Bytes>)
    requires chunks != []
    ensures var front := chunks[..|chunks| - 1];
      NoLateChunk(cap, chunks) <==> NoLateChunk(cap, front) && |Concat(front)| < cap
  {
    var front := chunks[..|chunks| - 1];
    assert forall i :: 0 <= i < |front| ==> chunks[..i] == front[..i];
    assert chunks[..|front|] == front;
  }

  /** Everything the loop guarantees for every chunking and every cap: upstream
      gets the concatenation, the copy is a sound prefix, and the copy survives
      exactly when the cap is positive, the body fits, and no chunk came late. */
  lemma {:induction false} FeedAllMeaning(cap: nat, max: nat, chunks: seq<Bytes>)
    ensures var u := FeedAll(cap, max, chunks);
      && u.sent == Concat(chunks)
      && Sound(cap, u)
      && (!u.capped <==> cap > 0 && |Concat(chunks)| <= cap && NoLateChunk(cap, chunks))
      && u.total == if |Concat(chunks)| <= max then |Concat(chunks)| else max
  {
    if chunks != [] {
      var n := |chunks| - 1;
      var front := chunks[..n];
      FeedAllMeaning(cap, max, front);
      LateAt(cap, chunks);
      FeedSound(cap, max, FeedAll(cap, max, front), chunks[n]);
    }
  }

  lemma {:induction false} ConcatPrefix(chunks: seq<Bytes>, i: nat)
    requires i < |chunks|
    ensures |Concat(chunks[..i])| + |chunks[i]| <= |Concat(chunks)|
  {
    var n := |chunks| - 1;
    var front := chunks[..n];
    if i < n {
      ConcatPrefix(front, i);
      assert front[..i] == chunks[..i];
    } else {
      assert chunks[..i] == front;
    }
  }

  /** The fetch path's rule (src/handler.rs:559). */
  predicate Admitted(cap: nat, body: Bytes) {
    cap > 0 && |body| <= cap
  }

  /** Split into non-empty chunks, a body is kept exactly when the fetch path
      would have cached it, however it was split; and it is kept whole. */
  lemma {:induction false} ChunkingIndependent(cap: nat, max: nat, chunks: seq<Bytes>)
    requires forall i :: 0 <= i < |chunks| ==> chunks[i] != []
    ensures !FeedAll(cap, max, chunks).capped <==> Admitted(cap, Concat(chunks))
    ensures Admitted(cap, Concat(chunks)) ==> FeedAll(cap, max, chunks).buffer == Concat(chunks)
  {
    FeedAllMeaning(cap, max, chunks);
    if |Concat(chunks)| <= cap {
      forall i | 0 <= i < |chunks| ensures |Concat(chunks[..i])| < cap {
        ConcatPrefix(chunks, i);
      }
    }
  }

  /** With empty chunks the two paths differ: any body of exactly the cap, however
      it was split, is dropped when an empty chunk follows it, although it is the
      same body, the fetch path keeps it, and it is kept without that chunk. */
  lemma {:induction false} EmptyChunkDropsFullBody(chunks: seq<Bytes>, max: nat)
    requires chunks != [] && forall i :: 0 <= i < |chunks| ==> chunks[i] != []
    ensures var cap := |Concat(chunks)|;
      && Concat(chunks + [[]]) == Concat(chunks) && Admitted(cap, Concat(chunks))
      && FeedAll(cap, max, chunks + [[]]).capped && !FeedAll(cap, max, chunks).capped
  {
    var cap, n := |Concat(chunks)|, |chunks|;
    assert (chunks + [[]])[..n] == chunks;
    assert Concat(chunks) == Concat(chunks[..n - 1]) + chunks[n - 1];
    FeedAllMeaning(cap, max, chunks + [[]]);
    ChunkingIndependent(cap, max, chunks);
  }

  /** No read of the request body fails. */
  predicate Intact(stream: seq<Chunk>) {
    forall i :: 0 <= i < |stream| ==> stream[i].Data?
  }

  /** The data of a body that is read without failure. */
  function Chunks(stream: seq<Chunk>): (r: seq<Bytes>)
    requires Intact(stream)
    ensures |r| == |stream| && forall i :: 0 <= i < |r| ==> stream[i] == Data(r[i])
  {
    seq(|stream|, i requires 0 <= i < |stream| => stream[i].bytes)
  }

  /** The buffering loop. `received` is what the multipart writer was given. */
  method ReceiveBody(stream: seq<Chunk>, cap: nat, max: nat)
    returns (ok: bool, received: seq<Bytes>, buffer: Bytes, capped: bool, totalBytes: nat)
    ensures ok <==> Intact(stream)
    ensures ok ==> received == Chunks(stream)
    ensures |received| <= |stream|
    ensures !ok ==> |received| < |stream| && stream[|received|].Broken?
    ensures forall i :: 0 <= i < |received| ==> stream[i] == Data(received[i])
    ensures FeedAll(cap, max, received) == Upload(Concat(received), buffer, capped, totalBytes)
    ensures buffer <= Concat(received) && |buffer| <= cap
    ensures !capped ==> buffer == Concat(received)
    ensures !capped <==> Admitted(cap, Concat(received)) && NoLateChunk(cap, received)
  {
    totalBytes := 0;
    received := [];
    buffer := [];
    capped := cap == 0;
    ok := true;
    var next := 0;
    while next < |stream|
      invariant 0 <= next <= |stream|
      invariant |received| == next
      invariant forall i :: 0 <= i < next ==> stream[i] == Data(received[i])
      invariant FeedAll(cap, max, received) == Upload(Concat(received), buffer, capped, totalBytes)
      invariant ok
    {
      if stream[next].Broken? {
        FeedAllMeaning(cap, max, received);
        ok := false;
        return;
      }
      var chunk := stream[next].bytes;
      totalBytes := SaturatingAdd(max, totalBytes, |chunk|);
      if !capped {
        var remaining := if |buffer| <= cap then cap - |buffer| else 0;
        if remaining == 0 {
          capped := true;
        } else if |chunk| <= remaining {
          buffer := buffer + chunk;
        } else {
          buffer := buffer + chunk[..remaining];
          capped := true;
        }
      }
      assert (received + [chunk])[..next] == received;
      received := received + [chunk];
      next := next + 1;
    }
    FeedAllMeaning(cap, max, received);
  }
}
