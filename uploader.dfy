/** The uploader: it asks the open API where to put a video, uploads the
    bytes or the file to the object store (in one PUT or in chunks), and
    reports the video's id and upload token. */
module Uploader {
  import opened Base
  import opened Response
  import opened Sdk
  import opened Multipart
  import Checksum
  import Registrar

  const CreateAction: string := "youku.video.upload.create"
  const ServerType: string := "oupload"

  /** No call to the object store was made. */
  const NoCalls: Trace := Trace(0, 0, [], 0, [])
  /** One signed-URL PUT and nothing else. */
  const OnePut: Trace := Trace(1, 0, [], 0, [])

  /** What doUpload does with parameter `p`, for an uploader holding `content`
      (None for a file uploader) and `fileName`. */
  predicate UploadOutcome(content: Option<seq<byte>>, fileName: string, p: OssParam, part: bool, env: Env,
                          err: Option<Error>, t: Trace)
  {
    match GetBucket(p, env.connect)
    case Err(e) => err == Some(e) && t == NoCalls
    case Ok(bucket) =>
      match env.signUrl(bucket, p.ossObject)
      case Err(e) => err == Some(e) && t == NoCalls
      case Ok(url) =>
        if content.Some? then err == env.putBytes(bucket, url, content.value) && t == OnePut
        else if !part then err == env.putFile(bucket, url, fileName) && t == OnePut
        else
          match env.split
          case Err(e) => err == Some(SplitFailed(e)) && t == NoCalls
          case Ok(chunks) =>
            match env.initiate(bucket, p.ossObject)
            case Err(e) => err == Some(InitFailed(e)) && t == NoCalls
            case Ok(_) =>
              if env.open.Some? then err == env.open && t == Trace(0, 1, [], 0, [])
              else t.puts == 0 && t.sessions == 1 && SessionOutcome(env, fileName, chunks, bucket, err, t)
  }

  /** doUpload reports no error only when the object reached the store: one
      PUT for bytes or a whole file, or, in parts, one part per chunk in chunk
      order followed by a completion that reported no error. */
  lemma UploadSucceeded(content: Option<seq<byte>>, fileName: string, p: OssParam, part: bool, env: Env, t: Trace)
    requires UploadOutcome(content, fileName, p, part, env, None, t)
    ensures GetBucket(p, env.connect).Ok? && env.signUrl(GetBucket(p, env.connect).value, p.ossObject).Ok?
    ensures content.Some? || !part ==> t == OnePut
    ensures content.None? && part ==>
              env.split.Ok? && env.initiate(GetBucket(p, env.connect).value, p.ossObject).Ok? && env.open.None?
              && t.puts == 0 && t.sessions == 1 && t.aborts == 0 && |t.chunks| == |env.split.value|
              && |t.completions| == 1 && |t.completions[0]| == |env.split.value|
              && (forall i :: 0 <= i < |env.split.value| ==> t.completions[0][i].partNumber == env.split.value[i].number)
              && env.complete(EndBucket(GetBucket(p, env.connect).value, t.chunks), t.completions[0]) == None
  {
    if content.None? && part {
      SessionSucceeded(env, fileName, env.split.value, GetBucket(p, env.connect).value, t);
    }
  }

  /** The parameter the upload uses: the one the API returned, with the
      endpoint, bucket and credential of `custom` when one is given. */
  function CustomParam(p: OssParam, custom: Option<OssParam>): (q: OssParam)
    ensures custom.None? ==> q == p
    ensures custom.Some? ==>
              q.endpoint == custom.value.endpoint && q.ossBucket == custom.value.ossBucket
              && q.tempAccessId == custom.value.tempAccessId && q.tempAccessSecret == custom.value.tempAccessSecret
              && q.securityToken == custom.value.securityToken
    ensures q.ossObject == p.ossObject && q.uploadToken == p.uploadToken && q.vid == p.vid
            && q.expireTime == p.expireTime
  {
    match custom
    case None => p
    case Some(c) =>
      p.(endpoint := c.endpoint, ossBucket := c.ossBucket, tempAccessId := c.tempAccessId,
         tempAccessSecret := c.tempAccessSecret, securityToken := c.securityToken)
  }

  /** What Upload reports: the video id and token the API returned, and with a
      custom bucket the bucket and object the file went to. */
  function ResultData(p: OssParam, custom: Option<OssParam>): (d: VideoData)
    ensures d.vid == p.vid && d.uploadToken == p.uploadToken
    ensures custom.None? ==> d.owOssBucket == "" && d.owOssObject == ""
    ensures custom.Some? ==> d.owOssBucket == custom.value.ossBucket
                             && d.owOssObject == CustomParam(p, custom).ossObject
  {
    var d := VideoData(p.vid, p.uploadToken, "", "");
    if custom.Some? then d.(owOssBucket := custom.value.ossBucket, owOssObject := CustomParam(p, custom).ossObject)
    else d
  }

  /** The error a result carries, if any. */
  function ErrorOf<T>(r: Result<T>): Option<Error>
  {
    if r.Err? then Some(r.error) else None
  }

  /** The decoded create answer carries a usable parameter. */
  predicate Granted(token: Answer<UploadResponse>)
  {
    Receive(token).Ok? && Receive(token).value.error.errorCode >= 0 && Receive(token).value.data != []
  }

  /** How a create answer that grants no parameter fails: a decoding or API
      error is returned unchanged, a negative `error_code` gives its message,
      and empty data gives NoUploadParam. */
  predicate CreateRejected<T>(token: Answer<UploadResponse>, r: Result<T>)
  {
    (Receive(token).Err? ==> r == Err(Receive(token).error))
    && (Receive(token).Ok? && Receive(token).value.error.errorCode < 0 ==>
          r == Err(Upstream(Receive(token).value.error.errorMsg)))
    && (Receive(token).Ok? && Receive(token).value.error.errorCode >= 0 && Receive(token).value.data == [] ==>
          r == Err(NoUploadParam))
  }

  class Uploader {
    var content: Option<seq<byte>>
    var fileName: string
    var apiParam: map<string, string>
    var sdk: Client   // the credentials PostBytes signs each call with

    /** NewUploader: an uploader for bytes held in memory. */
    constructor (sdk: Client, name: string, content: Option<seq<byte>>, digest: seq<byte> -> string)
      ensures this.content == content && fileName == name && this.sdk == sdk
      ensures var bytes := if content.Some? then content.value else [];
              apiParam == map["file_name" := name, "file_size" := Decimal(|bytes|), "file_md5" := digest(bytes)]
    {
      this.content := content;
      fileName := name;
      apiParam := map[];
      this.sdk := sdk;
      new;
      var bytes := if content.Some? then content.value else [];
      Set("file_name", name);
      Set("file_size", Decimal(|bytes|));
      Set("file_md5", digest(bytes));
    }

    /** The part of NewUploaderWithFile before the file is examined. */
    constructor ForFile(sdk: Client, filename: string)
      ensures content == None && fileName == filename && this.sdk == sdk
      ensures apiParam == map["file_name" := filename]
    {
      content := None;
      fileName := filename;
      apiParam := map["file_name" := filename];
      this.sdk := sdk;
    }

    /** NewUploaderWithFile: `stat` is the file size os.Stat reports and
        `file` what opening and reading the file yields. */
    static method NewWithFile(sdk: Client, filename: string, stat: Result<nat>, file: Result<seq<byte>>,
                              digest: seq<byte> -> string)
      returns (r: Result<Uploader>)
      ensures stat.Err? ==> r == Err(stat.error)
      ensures stat.Ok? && file.Err? ==> r == Err(file.error)
      ensures stat.Ok? && file.Ok? ==>
                r.Ok? && fresh(r.value) && r.value.content == None && r.value.fileName == filename
                && r.value.sdk == sdk
                && r.value.apiParam == map["file_name" := filename, "file_size" := Decimal(stat.value),
                                           "file_md5" := digest(file.value)]
    {
      var u := new Uploader.ForFile(sdk, filename);
      if stat.Err? {
        return Err(stat.error);
      }
      var md5, _ := Checksum.GetMd5(file, digest);
      if md5.Err? {
        return Err(md5.error);
      }
      u.Set("file_size", Decimal(stat.value));
      u.Set("file_md5", md5.value);
      r := Ok(u);
    }

    /** Sets one parameter of the create call. */
    method Set(k: string, v: string)
      modifies this`apiParam
      ensures apiParam == old(apiParam)[k := v]
    {
      apiParam := apiParam[k := v];
    }

    /** getUploadToken: records the client address and the server type, and
        sends the create call; `token` is its answer. `req` is the action and
        the caller map handed to PostBytes, which adds the signed
        `opensysparams` item built from `sdk` (see `Sdk.PostBytes`). */
    method GetUploadToken(clientIp: string, token: Answer<UploadResponse>)
      returns (req: Request, r: Result<UploadResponse>)
      modifies this`apiParam
      ensures apiParam == old(apiParam)["client_ip" := clientIp]["server_type" := ServerType]
      ensures req == Request(CreateAction, apiParam)
      ensures r == Receive(token)
    {
      Set("client_ip", clientIp);
      Set("server_type", ServerType);
      req := Request(CreateAction, apiParam);
      r := Receive(token);
    }

    /** doUpload: covers the ways an upload with parameter `p` can go. */
    method DoUpload(p: OssParam, part: bool, env: Env) returns (err: Option<Error>, t: Trace)
      ensures UploadOutcome(content, fileName, p, part, env, err, t)
    {
      var b := GetBucket(p, env.connect);
      if b.Err? {
        return Some(b.error), NoCalls;
      }
      var bucket := b.value;
      var signed := env.signUrl(bucket, p.ossObject);
      if signed.Err? {
        return Some(signed.error), NoCalls;
      }
      if content.Some? {
        return env.putBytes(bucket, signed.value, content.value), OnePut;
      }
      if !part {
        return env.putFile(bucket, signed.value, fileName), OnePut;
      }
      if env.split.Err? {
        return Some(SplitFailed(env.split.error)), NoCalls;
      }
      var chunks := env.split.value;
      var imur := env.initiate(bucket, p.ossObject);
      if imur.Err? {
        return Some(InitFailed(imur.error)), NoCalls;
      }
      if env.open.Some? {
        // the session stays open: nothing aborts it
        return env.open, Trace(0, 1, [], 0, []);
      }
      err, t := UploadChunks(env, fileName, chunks, bucket);
    }

    /** Upload: asks for an upload parameter, overrides it with `custom`, and
        uploads. The `error_code` read here belongs to the same "e" object
        that PostBytes has already accepted, so in practice this check never
        fires; the model takes it from the decoded response as the code does. */
    method Upload(part: bool, custom: Option<OssParam>, clientIp: string, token: Answer<UploadResponse>, env: Env)
      returns (r: Result<VideoData>, req: Request, t: Trace)
      modifies this`apiParam
      ensures apiParam == old(apiParam)["client_ip" := clientIp]["server_type" := ServerType]
      ensures req == Request(CreateAction, apiParam)
      ensures !Granted(token) ==> CreateRejected(token, r) && t == NoCalls
      ensures Granted(token) ==>
                var p := Receive(token).value.data[0];
                UploadOutcome(content, fileName, CustomParam(p, custom), part, env, ErrorOf(r), t)
                && (r.Ok? ==> r.value == ResultData(p, custom))
    {
      var upresp;
      req, upresp := GetUploadToken(clientIp, token);
      if upresp.Err? {
        return Err(upresp.error), req, NoCalls;
      }
      if upresp.value.error.errorCode < 0 {
        return Err(Upstream(upresp.value.error.errorMsg)), req, NoCalls;
      }
      if |upresp.value.data| < 1 {
        return Err(NoUploadParam), req, NoCalls;
      }
      var param := CustomParam(upresp.value.data[0], custom);
      var err;
      err, t := DoUpload(param, part, env);
      if err.Some? {
        return Err(err.value), req, t;
      }
      r := Ok(ResultData(upresp.value.data[0], custom));
    }

    /** UploadAndSave: the upload without a custom bucket, then SaveVideo
        with the reported data; `save` and `complete` answer the save and the
        completion calls. `uploaded` is the outcome of the upload step. */
    method UploadAndSave(part: bool, clientIp: string, token: Answer<UploadResponse>, env: Env,
                         save: Answer<VideoResponse>, complete: nat -> Answer<VideoResponse>)
      returns (r: Result<VideoData>, uploaded: Result<VideoData>, req: Request, t: Trace, sent: seq<Request>)
      modifies this`apiParam
      ensures apiParam == old(apiParam)["client_ip" := clientIp]["server_type" := ServerType]
      ensures req == Request(CreateAction, apiParam)
      ensures !Granted(token) ==> CreateRejected(token, uploaded) && t == NoCalls
      ensures Granted(token) ==>
                var p := Receive(token).value.data[0];
                UploadOutcome(content, fileName, p, part, env, ErrorOf(uploaded), t)
                && (uploaded.Ok? ==> uploaded.value == VideoData(p.vid, p.uploadToken, "", ""))
      ensures uploaded.Err? ==> r == uploaded && sent == []
      ensures uploaded.Ok? ==> Registrar.SaveOutcome(uploaded.value, save, complete, r, sent)
      ensures uploaded.Ok? ==>
                forall i :: 0 <= i < |sent| ==>
                  sent[i] == Request(Registrar.CompleteAction, map["upload_token" := uploaded.value.uploadToken])
    {
      uploaded, req, t := Upload(part, None, clientIp, token, env);
      sent := [];
      if uploaded.Err? {
        r := uploaded;
        return;
      }
      r, sent := Registrar.SaveVideo(uploaded.value, save, complete);
      assert Registrar.CompleteParams(uploaded.value) == map["upload_token" := uploaded.value.uploadToken];
    }
  }
}
