# openyouku upload pipeline, modelled in Dafny

This project models the upload core of the `openyouku` Go client for the Youku
open API:

- the SDK's call assembly: system parameters, the caller's form values and
  the signed `opensysparams` item. It also models the rule that rejects a
  response body whose `e.error_code` or `e.code` is negative.
- the `Uploader`:
  - its constructors and parameter map;
  - the create call that yields an upload parameter (`OssParam`);
  - the override with a custom bucket;
  - `doUpload`. This is a single signed-URL PUT for in-memory content or a
    whole file. Otherwise it is a multipart session: each chunk gets up to 15
    attempts, an `InvalidAccessKeyId` error triggers a credential refresh,
    the session is aborted when a chunk runs out of attempts and completed
    when every chunk produced its part.
- the registration: `SaveVideo` and its completion call, retried up to five
  times.
- the block partition of the file checksum `getmd5`.

The model has one module per concern:

| module | file | models |
|---|---|---|
| `Base` | base.dfy | bytes, `Option`, `Result`, the client's errors and their texts, `fmt.Sprint` of integers, `strings.Contains` |
| `Response` | response.dfy | the response records of response.go |
| `Sdk` | sdk.dfy | `GetBytes`/`PostBytes` without the HTTP exchange |
| `Checksum` | checksum.dfy | `getmd5` |
| `Registrar` | registrar.dfy | `doComplete`, `SaveVideo` |
| `Multipart` | multipart.dfy | the chunk loop of `doUpload`, `getBucket`, `refreshBucket` |
| `Uploader` | uploader.dfy | the `Uploader` class and the rest of `doUpload` |

The collaborators are inputs, not code:

- The object store is modelled by `Multipart.Env`. It holds one function per
  OSS call, and `uploadPart(c, k, b, pos)` answers the k-th attempt for the
  c-th chunk.
- The open API's replies are `Sdk.Reply` and `Sdk.Answer`: the raw reply plus
  what JSON decoding makes of it.
- The clock, the signing of the system parameters and the MD5 digest are
  also parameters.

A run of `doUpload` is described by a `Trace`. It records the PUTs made, the
sessions opened, the attempts per chunk, the aborts, and the part lists
passed to `CompleteMultipartUpload`.

`Multipart.SessionOutcome` specifies the chunk loop. It is built on recursive
descriptions of the attempts (`Retries`) and of the chunks (`RunLog`). The
lemmas `RetriesAnswered` and `RunLogChunks` restate these as facts about
each attempt and each chunk.

`SaveVideo` keeps the source's quirk. When the fifth completion call returns
no error but empty `data`, whatever the first four answered, the loop ends
with no error and `vresp.Data[0]` indexes an empty slice. `Registrar.SaveVideo` reports this case as
`Err(IndexOutOfRange)`, the run-time panic, rather than as a result.

`doUpload` aborts the session only when a chunk runs out of attempts. A
failed refresh, a failed `os.Open` after `InitiateMultipartUpload` and a
failed `CompleteMultipartUpload` return without an abort (`SessionOutcome`,
`UploadOutcome`).

## Model

| member | source | states |
|---|---|---|
| Sdk.NewSysParams | sdk.go:29-37 | the system parameters carry the given action, the client id, format "json", version "3.0" and the current Unix time; the access token is set exactly when the client has a non-empty one |
| Sdk.EncodeValues | sdk.go:43-47 | the `url.Values` built from the caller's map has the same keys, each holding exactly the caller's value |
| Sdk.CheckReply | sdk.go:61-70 | a body is accepted exactly when it decodes and neither `error_code` nor `code` is negative; a negative one gives an error with `error_msg`; transport and decoding errors pass through unchanged |
| Sdk.GetBytes | sdk.go:27-72 | the query carries the signed system parameters and every caller value; the outcome is the acceptance rule applied to the reply |
| Sdk.PostBytes | sdk.go:86-130 | the form holds every caller key plus `opensysparams`, which carries the signature and overrides a caller key of that name; the other caller values are kept; the same acceptance rule as GET applies |
| Registrar.CompleteParams | uploader.go:266-273 | `upload_token` is always sent; `ow_oss_bucket` and `ow_oss_object` are sent exactly when non-empty, with their values; nothing else is sent |
| Registrar.DoComplete | uploader.go:274-288 | a completion call fails with PostBytes' error, and otherwise yields the decoded response: the second envelope check cannot reject what PostBytes accepted |
| Registrar.SaveVideo | uploader.go:290-322 | meets `SaveOutcome`: a save error or empty save data fails without any completion call; otherwise 1 to 5 completion calls with the same parameters are made, each earlier one unconfirmed and the last confirmed or the fifth; the result is the last call's error, its first video, or the index panic for a final empty answer without error |
| Checksum.BlockCount | uploader.go:362 | the block count is the integer ceiling of size/8192: enough blocks to cover the file, no more, and zero only for an empty file |
| Checksum.BlocksFullButLast | uploader.go:364-366 | every block but the last is 8192 bytes; the last holds the rest and is non-empty |
| Checksum.GetMd5 | uploader.go:352-373 | an open error is returned; otherwise the digest is over the whole content, read in `ceil(size/8192)` buffers of `min(8192, rest)` bytes each, whose sizes sum to the file size |
| Multipart.GetBucket | uploader.go:190-199 | the bucket client uses the param's endpoint, temporary id, secret and security token and is bound to its bucket; a client error is returned |
| Multipart.RefreshBucket | uploader.go:95-115 | a refresh fails with the API or decoding error, or "Can not get oss upload param" for empty data, and otherwise connects with the first returned param |
| Multipart.TryPart | uploader.go:154-165 | an attempt seeks the file to the chunk's offset, uploads with the current bucket, and refreshes exactly when the error contains "InvalidAccessKeyId"; the file position is left past the bytes the part read |
| Multipart.UploadChunk | uploader.go:152-171 | the retry loop makes 1 to 15 attempts chained through the refreshed buckets and stops at the first success, the first failed refresh, or the 15th attempt; it reports whether a part was produced, the refresh error, and the file position the last attempt left |
| Multipart.UploadChunks | uploader.go:150-186 | the loop over the chunks meets `SessionOutcome`: chunks in order, each run from the bucket the previous chunks left; a failed refresh returns its error; an exhausted chunk aborts once with an error naming the chunk; if every chunk produced a part, the session is completed with the parts list and the completion's error is returned |
| Multipart.RetriesAnswered | uploader.go:153-171 | every attempt of a chunk was made with the reader at the chunk's offset, with the bucket the earlier attempts left, answered by the store as that attempt; every attempt but the last failed without a failed refresh |
| Multipart.ChunkRunBuckets | uploader.go:159-165 | the first attempt uses the bucket in hand; after an InvalidAccessKeyId refresh the next attempt uses the renewed bucket; after any other error it uses the same bucket |
| Multipart.ExhaustedAfterPlainFailures | uploader.go:153-177 | fifteen errors other than InvalidAccessKeyId use all 15 attempts and produce no part, which makes the chunk exhausted |
| Multipart.AuthFailuresThenSuccess | uploader.go:153-171 | three InvalidAccessKeyId rejections, each refreshed successfully, and then an acceptance give exactly four attempts; the first three refreshed, the fourth used the third refresh's bucket, and the part is produced |
| Multipart.ChunkRunUnique | uploader.go:152-171 | the retry loop is determined by the answers it gets: two complete runs for the same chunk and starting bucket are equal |
| Multipart.RunLogSucceeded | uploader.go:150-178 | the loop moves to the next chunk only after the current one produced a part |
| Multipart.RunLogChunks | uploader.go:150-178 | the c-th chunk's run uses `chunks[c]` and starts with the bucket the earlier chunks left, so a refreshed credential carries over to later chunks |
| Multipart.PartsOfAll | uploader.go:144-170 | when every chunk produced a part, the parts list holds exactly one part per chunk, in chunk order |
| Multipart.RefreshFailureOutcome | uploader.go:160-163 | a failed refresh returns its error with no abort and no completion |
| Multipart.ExhaustedOutcome | uploader.go:172-177 | an exhausted chunk aborts the session once, returns the error naming its chunk number, and does not complete |
| Multipart.CompletedOutcome | uploader.go:179-186 | after every chunk produced a part, the session is completed once, with the parts list and the bucket in hand, and that call's error is returned |
| Multipart.CompletedWithAllParts | uploader.go:150-180 | CompleteMultipartUpload is only called with one part per chunk, numbered as the chunk and carrying its ETag |
| Multipart.SessionSucceeded | uploader.go:150-186 | no error from the chunk loop means every chunk produced its part, nothing was aborted, and the completion succeeded |
| Uploader.UploadSucceeded | uploader.go:118-188 | doUpload returns no error only after one PUT (bytes or a whole file) or a completed session holding every chunk's part in order |
| Uploader.Uploader.DoUpload | uploader.go:118-188 | doUpload meets `UploadOutcome`: connect and signing errors are returned with nothing sent; content or non-part uploads make one PUT and open no session; split and initiate errors are wrapped; an open error returns with the session open; otherwise the chunk loop's specification holds |
| Uploader.CustomParam | uploader.go:218-225 | a custom param replaces only the endpoint, bucket, access id, secret and security token; object, token, video id and expiry are kept |
| Uploader.ResultData | uploader.go:234-242 | the result carries the video id and upload token from the API; the alternate bucket and object are set only with a custom param, to the custom bucket and the object used |
| Uploader.Uploader.Upload | uploader.go:201-245 | a create answer that grants no parameter fails as `CreateRejected` says (the decoding or API error unchanged, a negative `error_code` with its message, empty data with NoUploadParam) with nothing uploaded; otherwise doUpload runs on the overridden param, and success reports `ResultData` |
| Uploader.Uploader.UploadAndSave | uploader.go:324-350 | a create answer that grants no parameter fails as `CreateRejected` says, with nothing uploaded; the upload runs without a custom bucket; an upload error is returned without saving; otherwise the result and the completion calls meet SaveVideo's specification `SaveOutcome` for the reported data, each completion call sending only the upload token |
| Uploader.Uploader.GetUploadToken | uploader.go:78-92 | the create call records `client_ip` and `server_type` "oupload" in the parameter map and sends the whole map; its outcome is the acceptance rule followed by decoding |
| Uploader.Uploader.Set | uploader.go:73-75 | one key of the parameter map is set and the rest is kept |
| Uploader.Uploader.constructor | uploader.go:41-51 | NewUploader holds the content and the name, with `file_name`, `file_size` (the content length) and `file_md5` (the digest of the content) set |
| Uploader.Uploader.ForFile | uploader.go:53-58 | a file uploader starts with no content and only `file_name` set |
| Uploader.Uploader.NewWithFile | uploader.go:53-71 | a stat or checksum error is returned; otherwise the uploader has no content and `file_name`, `file_size` (from stat) and `file_md5` (the digest of the file) set |

## Left out

- The HTTP transport, the endpoint URL and the percent-encoding of query and form: the model stops at the query map and form map handed to `http.Get`/`http.Post`.
- `SignParm` and the JSON encoding of the signed system parameters are not part of this model: `sign` is a parameter.
- JSON decoding: the decoded records and any decoding error are inputs (`Reply.envelope`, `Answer.decoded`).
- `time.Now`: the Unix time is the parameter `now`.
- The random `client_ip` (uploader.go:79-80): the address is a parameter. Its format and ranges are not modelled.
- The Aliyun OSS SDK calls are not modelled; each call's answer is a field of `Env`:
  - `oss.New`/`Bucket`, `SignURL`, `PutObjectWithURL`, `PutObjectFromFileWithURL`;
  - `SplitFileByPartSize` with the 5 MiB chunk size, an input chunk list;
  - `InitiateMultipartUpload`, `UploadPart`, `CompleteMultipartUpload`;
  - `AbortMultipartUpload`, counted in the trace, whose result the code ignores.
- The client's 20-second header timeout is not modelled.
- `os.Open`/`os.Stat` and the file reads: their outcomes are inputs. `fd.Close` is not modelled.
- Multipart.TryPart: the bytes `UploadPart` reads are an input count from the store; the trace records the file position before each attempt, and the method returns the position after it.
- Checksum.GetMd5: MD5 and `%x` are the parameter `digest`. The integer ceiling stands for `math.Ceil` on floats, which is exact for files below 2^53 bytes. Every `file.Read` is taken to fill its buffer, since the code ignores short reads and read errors.
- Multipart.RefreshBucket: the getsts request's parameters (`upload_token`, `oss_bucket`, `oss_object` of `p`, uploader.go:96-100) are not recorded; the refresh answers are indexed by chunk and attempt.
- The `VideoParam` record and `doSave`'s struct-to-map JSON projection: the save reply is an input.
- beego logging, the floating-point `cost` fields, and the untyped `data` of the generic `Response`.
- `GetToken`, `RefreshToken`, `Get`, `Post`, `GetUploader` and `GetUploaderWithFile`: thin wrappers or stubs outside the upload core.
