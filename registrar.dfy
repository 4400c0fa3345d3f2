/** Registering an uploaded object as a video: the save call (one attempt)
    and the completion call, retried up to five times. */
module Registrar {
  import opened Base
  import opened Response
  import opened Sdk

  const SaveAction: string := "youku.video.upload.save"
  const CompleteAction: string := "youku.video.upload.complete"
  const MaxCompleteAttempts: nat := 5

  /** Parameters of the completion call: the upload token always, the
      alternate bucket and object only when they are set. */
  function CompleteParams(data: VideoData): (r: map<string, string>)
    ensures "upload_token" in r && r["upload_token"] == data.uploadToken
    ensures "ow_oss_bucket" in r <==> data.owOssBucket != ""
    ensures "ow_oss_bucket" in r ==> r["ow_oss_bucket"] == data.owOssBucket
    ensures "ow_oss_object" in r <==> data.owOssObject != ""
    ensures "ow_oss_object" in r ==> r["ow_oss_object"] == data.owOssObject
    ensures r.Keys <= {"upload_token", "ow_oss_bucket", "ow_oss_object"}
  {
    var params := map["upload_token" := data.uploadToken];
    var params := if data.owOssBucket != "" then params["ow_oss_bucket" := data.owOssBucket] else params;
    if data.owOssObject != "" then params["ow_oss_object" := data.owOssObject] else params
  }

  /** One completion call. After PostBytes accepted the body, the envelope is
      decoded and checked a second time; that check can never fail, so the
      outcome is PostBytes' error or the decoded response. */
  function DoComplete(answer: Answer<VideoResponse>): (r: Result<VideoResponse>)
    ensures CheckReply(answer.http).Err? ==> r == Err(CheckReply(answer.http).error)
    ensures CheckReply(answer.http).Ok? ==> r == answer.decoded
  {
    match CheckReply(answer.http)
    case Err(e) => Err(e)
    case Ok(_) =>
      match answer.http.envelope
      case Err(e) => Err(e)
      case Ok(base) => if base.errorCode < 0 then Err(Upstream(base.errorMsg)) else answer.decoded
  }

  /** A completion call that ends the retry loop: no error and some data. */
  predicate Confirmed(res: Result<VideoResponse>)
  {
    res.Ok? && |res.value.data| > 0
  }

  /** The specification of SaveVideo for the video `data`, the save reply
      `save` and the i-th completion reply `complete(i)`: the result `r` and
      the parameters `sent` of every completion call made. */
  predicate SaveOutcome(data: VideoData, save: Answer<VideoResponse>, complete: nat -> Answer<VideoResponse>,
                        r: Result<VideoData>, sent: seq<Request>)
  {
    (forall i :: 0 <= i < |sent| ==> sent[i] == Request(CompleteAction, CompleteParams(data)))
    // a failed or empty save makes no completion call
    && (Receive(save).Err? ==> r == Err(SaveFailed(Receive(save).error)) && sent == [])
    && (Receive(save).Ok? && Receive(save).value.data == [] ==> r == Err(SaveEmpty) && sent == [])
    // otherwise up to five calls, stopping at the first confirmed one
    && (Receive(save).Ok? && Receive(save).value.data != [] ==>
          1 <= |sent| <= MaxCompleteAttempts
          && (forall i :: 0 <= i < |sent| - 1 ==> !Confirmed(DoComplete(complete(i))))
          && (Confirmed(DoComplete(complete(|sent| - 1))) || |sent| == MaxCompleteAttempts))
    // the last call decides the result; a final empty answer without error panics
    && (Receive(save).Ok? && Receive(save).value.data != [] ==>
          var last := DoComplete(complete(|sent| - 1));
          (last.Err? ==> r == Err(CompleteFailed(last.error)))
          && (Confirmed(last) ==> r == Ok(last.value.data[0]))
          && (last.Ok? && last.value.data == [] ==> r == Err(IndexOutOfRange)))
  }

  /** Saves the video (reply `save`) and confirms it, the i-th completion call
      getting reply `complete(i)`. Also returns the parameters of every
      completion call made. */
  method SaveVideo(data: VideoData, save: Answer<VideoResponse>, complete: nat -> Answer<VideoResponse>)
    returns (r: Result<VideoData>, sent: seq<Request>)
    ensures SaveOutcome(data, save, complete, r, sent)
  {
    sent := [];
    var vresp := Receive(save);
    if vresp.Err? {
      return Err(SaveFailed(vresp.error)), sent;
    }
    if |vresp.value.data| < 1 {
      return Err(SaveEmpty), sent;
    }
    var i := 0;
    while i < MaxCompleteAttempts
      invariant 0 <= i <= MaxCompleteAttempts && |sent| == i
      invariant forall j :: 0 <= j < |sent| ==> sent[j] == Request(CompleteAction, CompleteParams(data))
      invariant forall j :: 0 <= j < i ==> !Confirmed(DoComplete(complete(j)))
      invariant i > 0 ==> vresp == DoComplete(complete(i - 1))
    {
      vresp := DoComplete(complete(i));
      sent := sent + [Request(CompleteAction, CompleteParams(data))];
      if vresp.Err? {
        i := i + 1;
        continue;
      }
      if |vresp.value.data| < 1 {
        i := i + 1;
        continue;
      }
      break;
    }
    if vresp.Err? {
      return Err(CompleteFailed(vresp.error)), sent;
    }
    if |vresp.value.data| == 0 {
      // the loop ran out with an empty answer and no error: data[0] panics
      return Err(IndexOutOfRange), sent;
    }
    r := Ok(vresp.value.data[0]);
  }
}
