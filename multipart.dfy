/** The multipart part of the upload: every chunk of the file is uploaded in
    order, with at most 15 attempts each, under a bucket credential that an
    InvalidAccessKeyId error replaces; then the session is completed, or
    aborted when a chunk runs out of attempts.

    The object store, the open API and the file are collaborators whose answers
    are inputs (`Env`). The run is described by a trace of what was called
    with what (`Trace`); `SessionOutcome` is the specification of the loop. */
module Multipart {
  import opened Base
  import opened Response
  import opened Sdk

  const MaxPartAttempts: nat := 15
  const AuthErrorMarker: string := "InvalidAccessKeyId"

  /** A planned chunk of the file (the SDK's FileChunk). */
  datatype Chunk = Chunk(number: int, offset: int, size: int)

  /** Proof of one uploaded part, needed to complete the session. */
  datatype UploadPart = UploadPart(partNumber: int, etag: string)

  /** An object-store client bound to one bucket, with the credential it signs with. */
  datatype Bucket = Bucket(endpoint: string, accessId: string, accessSecret: string, securityToken: string, name: string)

  /** The answer to one UploadPart call: the ETag or an error, and how many
      bytes the call read from the file before it returned. */
  datatype PartReply = PartReply(result: Result<string>, consumed: nat)

  /** The answers of the collaborators. `uploadPart(c, k, b, pos)` answers the
      k-th attempt for the c-th chunk made with bucket b and the file at
      position pos; `refresh(c, k)` is the open-API answer to the credential
      refresh made after that attempt. */
  datatype Env = Env(
    connect: OssParam -> Option<Error>,               // oss.New and client.Bucket
    signUrl: (Bucket, string) -> Result<string>,
    putBytes: (Bucket, string, seq<byte>) -> Option<Error>,
    putFile: (Bucket, string, string) -> Option<Error>,
    split: Result<seq<Chunk>>,                        // SplitFileByPartSize
    initiate: (Bucket, string) -> Result<string>,     // the multipart session id
    open: Option<Error>,                              // os.Open of the file
    uploadPart: (nat, nat, Bucket, int) -> PartReply,
    refresh: (nat, nat) -> Answer<UploadResponse>,
    complete: (Bucket, seq<UploadPart>) -> Option<Error>)

  /** getBucket: a client for the param's endpoint and credential, bound to its bucket. */
  function GetBucket(p: OssParam, connect: OssParam -> Option<Error>): (r: Result<Bucket>)
    ensures r.Err? <==> connect(p).Some?
    ensures r.Err? ==> r.error == connect(p).value
    ensures r.Ok? ==> r.value.endpoint == p.endpoint && r.value.name == p.ossBucket
    ensures r.Ok? ==> r.value.accessId == p.tempAccessId && r.value.accessSecret == p.tempAccessSecret
                      && r.value.securityToken == p.securityToken
  {
    match connect(p)
    case Some(e) => Err(e)
    case None => Ok(Bucket(p.endpoint, p.tempAccessId, p.tempAccessSecret, p.securityToken, p.ossBucket))
  }

  /** refreshBucket: a renewed credential from the open API, then a client for
      the first param it returns. The envelope is not checked a second time. */
  function RefreshBucket(answer: Answer<UploadResponse>, connect: OssParam -> Option<Error>): (r: Result<Bucket>)
    ensures Receive(answer).Err? ==> r == Err(Receive(answer).error)
    ensures Receive(answer).Ok? && Receive(answer).value.data == [] ==> r == Err(NoUploadParam)
    ensures Receive(answer).Ok? && Receive(answer).value.data != [] ==>
              r == GetBucket(Receive(answer).value.data[0], connect)
  {
    match Receive(answer)
    case Err(e) => Err(e)
    case Ok(resp) => if |resp.data| < 1 then Err(NoUploadParam) else GetBucket(resp.data[0], connect)
  }

  predicate IsAuthError(e: Error)
  {
    Contains(Message(e), AuthErrorMarker)
  }

  /** One UploadPart attempt: where the file cursor stood, the bucket used,
      the answer, and the refresh it triggered, if any. */
  datatype Attempt = Attempt(cursor: int, bucket: Bucket, reply: Result<string>, refresh: Option<Result<Bucket>>)

  /** The attempts made for one chunk. */
  datatype ChunkLog = ChunkLog(chunk: Chunk, attempts: seq<Attempt>)

  /** What one doUpload call did: signed-URL PUTs, multipart sessions opened,
      the attempts per chunk, abort calls, and the part lists completed. */
  datatype Trace = Trace(puts: nat, sessions: nat, chunks: seq<ChunkLog>, aborts: nat, completions: seq<seq<UploadPart>>)

  /** The bucket in use after an attempt. */
  function BucketAfter(a: Attempt): Bucket
  {
    if a.refresh.Some? && a.refresh.value.Ok? then a.refresh.value.value else a.bucket
  }

  predicate RefreshFailed(a: Attempt)
  {
    a.refresh.Some? && a.refresh.value.Err?
  }

  /** The attempt was the k-th call for chunk c: made with the cursor at the
      chunk's offset, answered by the store, and followed by a refresh exactly
      when the error says InvalidAccessKeyId. */
  predicate AnsweredBy(env: Env, c: nat, k: nat, chunk: Chunk, a: Attempt)
  {
    a.cursor == chunk.offset
    && a.reply == env.uploadPart(c, k, a.bucket, a.cursor).result
    && a.refresh == (if a.reply.Err? && IsAuthError(a.reply.error)
                     then Some(RefreshBucket(env.refresh(c, k), env.connect)) else None)
  }

  function BucketAfterRun(start: Bucket, attempts: seq<Attempt>): Bucket
  {
    if attempts == [] then start else BucketAfter(attempts[|attempts| - 1])
  }

  /** The bucket in use before the k-th attempt. */
  function BucketBefore(start: Bucket, attempts: seq<Attempt>, k: nat): Bucket
    requires k <= |attempts|
  {
    if k == 0 then start else BucketAfter(attempts[k - 1])
  }

  /** An attempt after which the loop tried again: the part failed and no
      refresh failed. */
  predicate Retried(a: Attempt)
  {
    a.reply.Err? && !RefreshFailed(a)
  }

  /** The attempts made so far for the c-th chunk, starting with bucket
      `start`: the k-th was answered as the k-th call, every attempt before the
      last was retried, and each used the bucket the one before it left. */
  predicate Retries(env: Env, c: nat, chunk: Chunk, start: Bucket, attempts: seq<Attempt>)
    decreases |attempts|
  {
    attempts != [] ==>
      var init := attempts[..|attempts| - 1];
      var a := attempts[|attempts| - 1];
      Retries(env, c, chunk, start, init)
      && (init != [] ==> Retried(init[|init| - 1]))
      && a.bucket == BucketAfterRun(start, init)
      && AnsweredBy(env, c, |init|, chunk, a)
  }

  /** A complete run of the retry loop for the c-th chunk: between 1 and 15
      attempts chained from bucket `start`; every attempt but the last failed,
      and the last succeeded, failed to refresh, or was the 15th. */
  predicate ChunkRun(env: Env, c: nat, chunk: Chunk, start: Bucket, cl: ChunkLog)
  {
    cl.chunk == chunk && 1 <= |cl.attempts| <= MaxPartAttempts
    && Retries(env, c, chunk, start, cl.attempts)
    && (cl.attempts[|cl.attempts| - 1].reply.Ok? || RefreshFailed(cl.attempts[|cl.attempts| - 1])
        || |cl.attempts| == MaxPartAttempts)
  }

  predicate Succeeded(cl: ChunkLog)
  {
    |cl.attempts| > 0 && cl.attempts[|cl.attempts| - 1].reply.Ok?
  }

  predicate RefreshFailedAt(cl: ChunkLog)
  {
    |cl.attempts| > 0 && RefreshFailed(cl.attempts[|cl.attempts| - 1])
  }

  /** The chunk's attempts ran out without a part and without a failed refresh. */
  predicate Exhausted(cl: ChunkLog)
  {
    |cl.attempts| > 0 && !Succeeded(cl) && !RefreshFailedAt(cl)
  }

  function RefreshError(cl: ChunkLog): Error
    requires RefreshFailedAt(cl)
  {
    cl.attempts[|cl.attempts| - 1].refresh.value.error
  }

  predicate AllSucceeded(log: seq<ChunkLog>)
  {
    forall c :: 0 <= c < |log| ==> Succeeded(log[c])
  }

  /** The bucket in use once the chunks of `log` are done. */
  function EndBucket(b0: Bucket, log: seq<ChunkLog>): Bucket
  {
    if log == [] then b0 else BucketAfterRun(b0, log[|log| - 1].attempts)
  }

  /** The bucket the c-th chunk starts with. */
  function StartBucket(b0: Bucket, log: seq<ChunkLog>, c: nat): Bucket
    requires c <= |log|
  {
    EndBucket(b0, log[..c])
  }

  /** The chunks were processed in order, each by a complete run of the retry
      loop starting with the bucket the earlier chunks left, and the loop only
      moved on after a chunk produced a part. */
  predicate RunLog(env: Env, chunks: seq<Chunk>, b0: Bucket, log: seq<ChunkLog>)
    decreases |log|
  {
    |log| <= |chunks|
    && (log != [] ==>
          var init := log[..|log| - 1];
          RunLog(env, chunks, b0, init)
          && (init != [] ==> Succeeded(init[|init| - 1]))
          && ChunkRun(env, |init|, chunks[|init|], EndBucket(b0, init), log[|log| - 1]))
  }

  function PartOf(cl: ChunkLog): UploadPart
    requires Succeeded(cl)
  {
    UploadPart(cl.chunk.number, cl.attempts[|cl.attempts| - 1].reply.value)
  }

  /** The parts list: one part per chunk that produced one, in chunk order. */
  function PartsOf(log: seq<ChunkLog>): (parts: seq<UploadPart>)
    ensures |parts| <= |log|
  {
    if log == [] then []
    else
      var last := log[|log| - 1];
      PartsOf(log[..|log| - 1]) + (if Succeeded(last) then [PartOf(last)] else [])
  }

  /** The specification of the chunk loop and what follows it (the session
      being open and the file opened). */
  predicate SessionOutcome(env: Env, fileName: string, chunks: seq<Chunk>, b0: Bucket,
                           err: Option<Error>, t: Trace)
  {
    RunLog(env, chunks, b0, t.chunks)
    && t.aborts <= 1 && |t.completions| <= 1
    // the loop leaves early only at a chunk that produced no part
    && (|t.chunks| < |chunks| ==> t.chunks != [] && !Succeeded(t.chunks[|t.chunks| - 1]))
    // CompleteMultipartUpload runs exactly when every chunk produced its part
    && (t.completions != [] <==> |t.chunks| == |chunks| && AllSucceeded(t.chunks))
    && (t.completions != [] ==>
          t.completions[0] == PartsOf(t.chunks) && t.aborts == 0
          && err == env.complete(EndBucket(b0, t.chunks), t.completions[0]))
    // a chunk out of attempts aborts the session once and names the chunk
    && (t.aborts == 1 <==> t.chunks != [] && Exhausted(t.chunks[|t.chunks| - 1]))
    && (t.aborts == 1 ==> err == Some(PartExhausted(fileName, t.chunks[|t.chunks| - 1].chunk.number)))
    // a failed refresh returns its error at once, with no abort and no complete
    && (t.chunks != [] && RefreshFailedAt(t.chunks[|t.chunks| - 1]) ==>
          err == Some(RefreshError(t.chunks[|t.chunks| - 1])))
  }

  /** The k-th attempt in the recursive description of the attempts. */
  lemma {:induction false} RetriesAt(env: Env, c: nat, chunk: Chunk, start: Bucket, attempts: seq<Attempt>, k: nat)
    requires Retries(env, c, chunk, start, attempts) && k < |attempts|
    ensures AnsweredBy(env, c, k, chunk, attempts[k])
    ensures attempts[k].bucket == BucketBefore(start, attempts, k)
    ensures k < |attempts| - 1 ==> Retried(attempts[k])
  {
    var init := attempts[..|attempts| - 1];
    if k < |init| {
      RetriesAt(env, c, chunk, start, init, k);
      assert init[k] == attempts[k];
      assert k > 0 ==> init[k - 1] == attempts[k - 1];
    }
  }

  /** The recursive description of the attempts, read as statements about
      each attempt. */
  lemma RetriesAnswered(env: Env, c: nat, chunk: Chunk, start: Bucket, attempts: seq<Attempt>)
    requires Retries(env, c, chunk, start, attempts)
    ensures forall k :: 0 <= k < |attempts| ==>
              AnsweredBy(env, c, k, chunk, attempts[k]) && attempts[k].bucket == BucketBefore(start, attempts, k)
    ensures forall k :: 0 <= k < |attempts| - 1 ==> Retried(attempts[k])
  {
    forall k | 0 <= k < |attempts|
      ensures AnsweredBy(env, c, k, chunk, attempts[k]) && attempts[k].bucket == BucketBefore(start, attempts, k)
      ensures k < |attempts| - 1 ==> Retried(attempts[k])
    {
      RetriesAt(env, c, chunk, start, attempts, k);
    }
  }

  /** Every chunk of a run log but the last produced a part. */
  lemma {:induction false} RunLogSucceeded(env: Env, chunks: seq<Chunk>, b0: Bucket, log: seq<ChunkLog>)
    requires RunLog(env, chunks, b0, log)
    ensures forall c :: 0 <= c < |log| - 1 ==> Succeeded(log[c])
  {
    if log != [] {
      RunLogSucceeded(env, chunks, b0, log[..|log| - 1]);
    }
  }

  /** The recursive description of the log, read as a statement about each
      chunk: the c-th entry is a complete run for chunks[c] starting with the
      bucket the entries before it left. */
  lemma {:induction false} RunLogChunks(env: Env, chunks: seq<Chunk>, b0: Bucket, log: seq<ChunkLog>)
    requires RunLog(env, chunks, b0, log)
    ensures |log| <= |chunks|
    ensures forall c :: 0 <= c < |log| ==> ChunkRun(env, c, chunks[c], StartBucket(b0, log, c), log[c])
  {
    if log != [] {
      var init := log[..|log| - 1];
      RunLogChunks(env, chunks, b0, init);
      forall c | 0 <= c < |log|
        ensures ChunkRun(env, c, chunks[c], StartBucket(b0, log, c), log[c])
      {
        if c < |init| {
          assert log[..c] == init[..c] && log[c] == init[c];
          assert StartBucket(b0, log, c) == StartBucket(b0, init, c);
        } else {
          assert log[..c] == init;
        }
      }
    }
  }

  /** With every chunk done, the parts list holds one part per chunk, in order. */
  lemma {:induction false} PartsOfAll(log: seq<ChunkLog>)
    requires AllSucceeded(log)
    ensures |PartsOf(log)| == |log|
    ensures forall i :: 0 <= i < |log| ==> PartsOf(log)[i] == PartOf(log[i])
  {
    if log != [] {
      var init := log[..|log| - 1];
      assert AllSucceeded(init) by {
        forall c | 0 <= c < |init| ensures Succeeded(init[c]) {
          assert init[c] == log[c];
        }
      }
      PartsOfAll(init);
      var last := log[|log| - 1];
      assert Succeeded(last);
      var parts := PartsOf(log);
      assert parts == PartsOf(init) + [PartOf(last)];
      forall i | 0 <= i < |log|
        ensures parts[i] == PartOf(log[i])
      {
        if i < |init| {
          assert parts[i] == PartsOf(init)[i] && init[i] == log[i];
        }
      }
    }
  }

  lemma RunLogExtend(env: Env, chunks: seq<Chunk>, b0: Bucket, log: seq<ChunkLog>, cl: ChunkLog)
    requires RunLog(env, chunks, b0, log) && |log| < |chunks|
    requires log != [] ==> Succeeded(log[|log| - 1])
    requires ChunkRun(env, |log|, chunks[|log|], EndBucket(b0, log), cl)
    ensures RunLog(env, chunks, b0, log + [cl])
  {
    assert (log + [cl])[..|log|] == log;
  }

  lemma RetriesExtend(env: Env, c: nat, chunk: Chunk, start: Bucket, attempts: seq<Attempt>, a: Attempt)
    requires Retries(env, c, chunk, start, attempts)
    requires attempts != [] ==> Retried(attempts[|attempts| - 1])
    requires a.bucket == BucketAfterRun(start, attempts) && AnsweredBy(env, c, |attempts|, chunk, a)
    ensures Retries(env, c, chunk, start, attempts + [a])
  {
    assert (attempts + [a])[..|attempts|] == attempts;
  }

  lemma PartsOfAppend(log: seq<ChunkLog>, cl: ChunkLog)
    requires Succeeded(cl)
    ensures PartsOf(log + [cl]) == PartsOf(log) + [PartOf(cl)]
  {
    assert (log + [cl])[..|log|] == log;
  }

  lemma RefreshFailureOutcome(env: Env, fileName: string, chunks: seq<Chunk>, b0: Bucket, log: seq<ChunkLog>)
    requires RunLog(env, chunks, b0, log) && log != [] && RefreshFailedAt(log[|log| - 1])
    ensures SessionOutcome(env, fileName, chunks, b0, Some(RefreshError(log[|log| - 1])), Trace(0, 1, log, 0, []))
  {
  }

  lemma ExhaustedOutcome(env: Env, fileName: string, chunks: seq<Chunk>, b0: Bucket, log: seq<ChunkLog>)
    requires RunLog(env, chunks, b0, log) && log != [] && Exhausted(log[|log| - 1])
    ensures SessionOutcome(env, fileName, chunks, b0, Some(PartExhausted(fileName, log[|log| - 1].chunk.number)),
                           Trace(0, 1, log, 1, []))
  {
  }

  lemma CompletedOutcome(env: Env, fileName: string, chunks: seq<Chunk>, b0: Bucket, log: seq<ChunkLog>)
    requires RunLog(env, chunks, b0, log) && |log| == |chunks|
    requires log != [] ==> Succeeded(log[|log| - 1])
    ensures SessionOutcome(env, fileName, chunks, b0, env.complete(EndBucket(b0, log), PartsOf(log)),
                           Trace(0, 1, log, 0, [PartsOf(log)]))
  {
    RunLogSucceeded(env, chunks, b0, log);
  }

  /** An answer that makes the loop try again with the same bucket. */
  predicate PlainFailure(r: Result<string>)
  {
    r.Err? && !IsAuthError(r.error)
  }

  /** Each attempt after the first uses the bucket the attempt before it
      left: the renewed one after a successful InvalidAccessKeyId refresh, the
      same one otherwise. */
  lemma ChunkRunBuckets(env: Env, c: nat, chunk: Chunk, start: Bucket, cl: ChunkLog)
    requires ChunkRun(env, c, chunk, start, cl)
    ensures cl.attempts[0].bucket == start
    ensures forall k :: 0 <= k < |cl.attempts| - 1 ==>
              cl.attempts[k + 1].bucket
              == (if cl.attempts[k].refresh.Some? && cl.attempts[k].refresh.value.Ok?
                  then cl.attempts[k].refresh.value.value else cl.attempts[k].bucket)
  {
    forall k | 0 <= k < |cl.attempts| - 1
      ensures cl.attempts[k + 1].bucket == BucketAfter(cl.attempts[k])
    {
      RetriesAt(env, c, chunk, start, cl.attempts, k + 1);
    }
    RetriesAt(env, c, chunk, start, cl.attempts, 0);
  }

  /** A chunk whose store answers every one of its 15 attempts with an error
      other than InvalidAccessKeyId uses all 15 and produces no part. */
  lemma ExhaustedAfterPlainFailures(env: Env, c: nat, chunk: Chunk, start: Bucket, cl: ChunkLog)
    requires ChunkRun(env, c, chunk, start, cl)
    requires forall k: nat, b: Bucket :: k < MaxPartAttempts ==> PlainFailure(env.uploadPart(c, k, b, chunk.offset).result)
    ensures |cl.attempts| == MaxPartAttempts && Exhausted(cl)
  {
    RetriesAnswered(env, c, chunk, start, cl.attempts);
    var n := |cl.attempts|;
    var last := cl.attempts[n - 1];
    assert AnsweredBy(env, c, n - 1, chunk, last);
    assert PlainFailure(env.uploadPart(c, n - 1, last.bucket, chunk.offset).result);
  }

  /** A part rejected three times with InvalidAccessKeyId, each time with a
      successful refresh, and accepted on the fourth attempt: the run has four
      attempts, the first three each refreshed the credential, the fourth used
      the credential of the third refresh, and the chunk produced its part. */
  lemma AuthFailuresThenSuccess(env: Env, c: nat, chunk: Chunk, start: Bucket, cl: ChunkLog)
    requires ChunkRun(env, c, chunk, start, cl)
    requires forall k: nat, b: Bucket :: k < 3 ==>
               env.uploadPart(c, k, b, chunk.offset).result.Err?
               && IsAuthError(env.uploadPart(c, k, b, chunk.offset).result.error)
    requires forall k: nat :: k < 3 ==> RefreshBucket(env.refresh(c, k), env.connect).Ok?
    requires forall b: Bucket :: env.uploadPart(c, 3, b, chunk.offset).result.Ok?
    ensures |cl.attempts| == 4 && Succeeded(cl)
    ensures forall k :: 0 <= k < 3 ==> cl.attempts[k].refresh == Some(RefreshBucket(env.refresh(c, k), env.connect))
    ensures cl.attempts[3].bucket == RefreshBucket(env.refresh(c, 2), env.connect).value
  {
    RetriesAnswered(env, c, chunk, start, cl.attempts);
    ChunkRunBuckets(env, c, chunk, start, cl);
    var n := |cl.attempts|;
    assert AnsweredBy(env, c, n - 1, chunk, cl.attempts[n - 1]);
    if n > 3 {
      assert AnsweredBy(env, c, 3, chunk, cl.attempts[3]);
      assert AnsweredBy(env, c, 2, chunk, cl.attempts[2]);
    }
  }

  /** An attempt is determined by its position and the bucket it used. */
  lemma AnsweredDetermined(env: Env, c: nat, k: nat, chunk: Chunk, x: Attempt, y: Attempt)
    requires AnsweredBy(env, c, k, chunk, x) && AnsweredBy(env, c, k, chunk, y) && x.bucket == y.bucket
    ensures x == y
  {
  }

  /** The first n attempts of two runs with the same answers are the same. */
  lemma {:induction false} RetriesAgree(env: Env, c: nat, chunk: Chunk, start: Bucket, a1: seq<Attempt>, a2: seq<Attempt>, n: nat)
    requires Retries(env, c, chunk, start, a1) && Retries(env, c, chunk, start, a2)
    requires n <= |a1| && n <= |a2|
    ensures forall k :: 0 <= k < n ==> a1[k] == a2[k]
  {
    if n > 0 {
      RetriesAgree(env, c, chunk, start, a1, a2, n - 1);
      RetriesAt(env, c, chunk, start, a1, n - 1);
      RetriesAt(env, c, chunk, start, a2, n - 1);
      if n > 1 {
        assert a1[n - 2] == a2[n - 2];
      }
      assert BucketBefore(start, a1, n - 1) == BucketBefore(start, a2, n - 1);
      AnsweredDetermined(env, c, n - 1, chunk, a1[n - 1], a2[n - 1]);
    }
  }

  /** A complete run cannot be a proper prefix of another: its last attempt
      would have been retried. */
  lemma ChunkRunLength(env: Env, c: nat, chunk: Chunk, start: Bucket, cl1: ChunkLog, cl2: ChunkLog)
    requires ChunkRun(env, c, chunk, start, cl1) && ChunkRun(env, c, chunk, start, cl2)
    requires |cl1.attempts| <= |cl2.attempts|
    ensures |cl1.attempts| == |cl2.attempts|
  {
    var n := |cl1.attempts|;
    RetriesAgree(env, c, chunk, start, cl1.attempts, cl2.attempts, n);
    RetriesAt(env, c, chunk, start, cl2.attempts, n - 1);
    assert cl1.attempts[n - 1] == cl2.attempts[n - 1];
  }

  /** The retry loop is determined by the answers it gets: two complete runs
      for the same chunk, answers and starting bucket are the same run. */
  lemma ChunkRunUnique(env: Env, c: nat, chunk: Chunk, start: Bucket, cl1: ChunkLog, cl2: ChunkLog)
    requires ChunkRun(env, c, chunk, start, cl1) && ChunkRun(env, c, chunk, start, cl2)
    ensures cl1 == cl2
  {
    if |cl1.attempts| <= |cl2.attempts| {
      ChunkRunLength(env, c, chunk, start, cl1, cl2);
    } else {
      ChunkRunLength(env, c, chunk, start, cl2, cl1);
    }
    RetriesAgree(env, c, chunk, start, cl1.attempts, cl2.attempts, |cl1.attempts|);
    assert cl1.attempts == cl2.attempts;
  }

  /** Once CompleteMultipartUpload is called, it gets one part per chunk,
      each numbered as its chunk and carrying the ETag of its last attempt. */
  lemma CompletedWithAllParts(env: Env, fileName: string, chunks: seq<Chunk>, b0: Bucket, err: Option<Error>, t: Trace)
    requires SessionOutcome(env, fileName, chunks, b0, err, t) && t.completions != []
    ensures |t.completions| == 1 && |t.completions[0]| == |chunks| == |t.chunks|
    ensures forall i :: 0 <= i < |chunks| ==>
              t.completions[0][i].partNumber == chunks[i].number
              && t.completions[0][i].etag == t.chunks[i].attempts[|t.chunks[i].attempts| - 1].reply.value
  {
    var log := t.chunks;
    RunLogChunks(env, chunks, b0, log);
    PartsOfAll(log);
    forall i | 0 <= i < |chunks|
      ensures t.completions[0][i].partNumber == chunks[i].number
    {
      assert ChunkRun(env, i, chunks[i], StartBucket(b0, log, i), log[i]);
    }
  }

  /** No error from the chunk loop means the session was completed, with
      every chunk's part, and the completion call reported no error. */
  lemma SessionSucceeded(env: Env, fileName: string, chunks: seq<Chunk>, b0: Bucket, t: Trace)
    requires SessionOutcome(env, fileName, chunks, b0, None, t)
    ensures |t.chunks| == |chunks| && AllSucceeded(t.chunks) && t.aborts == 0
    ensures |t.completions| == 1 && |t.completions[0]| == |chunks|
    ensures forall i :: 0 <= i < |chunks| ==> t.completions[0][i].partNumber == chunks[i].number
    ensures env.complete(EndBucket(b0, t.chunks), t.completions[0]) == None
  {
    var log := t.chunks;
    RunLogSucceeded(env, chunks, b0, log);
    RunLogChunks(env, chunks, b0, log);
    if log != [] {
      assert ChunkRun(env, |log| - 1, chunks[|log| - 1], StartBucket(b0, log, |log| - 1), log[|log| - 1]);
    }
    CompletedWithAllParts(env, fileName, chunks, b0, None, t);
  }

  /** One attempt of the retry loop: seek the file to the chunk's offset,
      upload the part with `bucket`, and on an InvalidAccessKeyId error ask for
      a new credential. Returns the attempt and the cursor it leaves, past the
      bytes UploadPart read. */
  method TryPart(env: Env, c: nat, k: nat, chunk: Chunk, bucket: Bucket)
    returns (a: Attempt, cursor: int)
    ensures AnsweredBy(env, c, k, chunk, a) && a.bucket == bucket
    ensures cursor == chunk.offset + env.uploadPart(c, k, bucket, chunk.offset).consumed
  {
    cursor := chunk.offset;   // fd.Seek(chunk.Offset, SEEK_SET)
    var reply := env.uploadPart(c, k, bucket, cursor);
    a := Attempt(cursor, bucket, reply.result, None);
    cursor := cursor + reply.consumed;
    if reply.result.Err? && IsAuthError(reply.result.error) {
      a := a.(refresh := Some(RefreshBucket(env.refresh(c, k), env.connect)));
    }
  }

  /** The retry loop of doUpload for the c-th chunk, entered with bucket
      `start` and the file cursor at `cursor0`. Returns the attempts, whether a
      part was produced, the error of a failed refresh, and the bucket and
      cursor it leaves. */
  method UploadChunk(env: Env, c: nat, chunk: Chunk, start: Bucket, cursor0: int)
    returns (cl: ChunkLog, has: bool, refreshErr: Option<Error>, bucket: Bucket, cursor: int)
    ensures ChunkRun(env, c, chunk, start, cl)
    ensures has <==> Succeeded(cl)
    ensures refreshErr.Some? <==> RefreshFailedAt(cl)
    ensures refreshErr.Some? ==> refreshErr.value == RefreshError(cl)
    ensures !RefreshFailedAt(cl) ==> bucket == BucketAfterRun(start, cl.attempts)
    ensures var last := cl.attempts[|cl.attempts| - 1];
            cursor == chunk.offset + env.uploadPart(c, |cl.attempts| - 1, last.bucket, chunk.offset).consumed
  {
    bucket, cursor := start, cursor0;
    has, refreshErr := false, None;
    var attempts: seq<Attempt> := [];
    var i := 0;
    while i < MaxPartAttempts
      invariant 0 <= i <= MaxPartAttempts && |attempts| == i
      invariant Retries(env, c, chunk, start, attempts) && bucket == BucketAfterRun(start, attempts)
      invariant attempts != [] ==> Retried(attempts[|attempts| - 1])
      invariant attempts != [] ==>
                  cursor == chunk.offset
                            + env.uploadPart(c, i - 1, attempts[i - 1].bucket, chunk.offset).consumed
    {
      var a;
      a, cursor := TryPart(env, c, i, chunk, bucket);
      RetriesExtend(env, c, chunk, start, attempts, a);
      attempts := attempts + [a];
      if a.reply.Ok? {
        has := true;
        break;
      }
      if RefreshFailed(a) {
        // doUpload returns the refresh error at once
        refreshErr := Some(a.refresh.value.error);
        break;
      }
      bucket := BucketAfter(a);
      i := i + 1;
    }
    cl := ChunkLog(chunk, attempts);
  }

  /** The loop of doUpload over `chunks`, once the session is open and the
      file is open at position 0, starting with bucket `b0`. */
  method UploadChunks(env: Env, fileName: string, chunks: seq<Chunk>, b0: Bucket)
    returns (err: Option<Error>, t: Trace)
    ensures t.puts == 0 && t.sessions == 1
    ensures SessionOutcome(env, fileName, chunks, b0, err, t)
  {
    var bucket := b0;
    var parts: seq<UploadPart> := [];
    var cursor := 0;
    var log: seq<ChunkLog> := [];
    var idx := 0;
    while idx < |chunks|
      invariant 0 <= idx <= |chunks| && |log| == idx
      invariant RunLog(env, chunks, b0, log) && (log != [] ==> Succeeded(log[|log| - 1]))
      invariant bucket == EndBucket(b0, log)
      invariant parts == PartsOf(log)
    {
      var chunk := chunks[idx];
      var cl, has, refreshErr;
      cl, has, refreshErr, bucket, cursor := UploadChunk(env, idx, chunk, bucket, cursor);
      RunLogExtend(env, chunks, b0, log, cl);
      if refreshErr.Some? {
        log := log + [cl];
        RefreshFailureOutcome(env, fileName, chunks, b0, log);
        return refreshErr, Trace(0, 1, log, 0, []);
      }
      if !has {
        log := log + [cl];
        ExhaustedOutcome(env, fileName, chunks, b0, log);
        // bucket.AbortMultipartUpload(imur); its result is ignored
        return Some(PartExhausted(fileName, chunk.number)), Trace(0, 1, log, 1, []);
      }
      parts := parts + [PartOf(cl)];
      PartsOfAppend(log, cl);
      log := log + [cl];
      idx := idx + 1;
    }
    CompletedOutcome(env, fileName, chunks, b0, log);
    err := env.complete(bucket, parts);
    t := Trace(0, 1, log, 0, [parts]);
  }
}
