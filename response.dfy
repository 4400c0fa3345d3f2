/** The response records of the open API. The floating-point `cost` and the
    untyped `data` of the generic envelope are not part of this model. */
module Response {

  /** The "e" object every response carries. */
  datatype ResponseError = ResponseError(
    code: int,
    provider: string,
    desc: string,
    errorCode: int,
    errorMsg: string)

  datatype AccessToken = AccessToken(
    expireTime: int,
    rexpireTime: int,
    startTime: int,
    accessToken: string,
    refreshToken: string,
    openId: string)

  datatype TokenResponse = TokenResponse(errno: int, errText: string, token: AccessToken)

  /** Where and with which short-lived credential an object is to be uploaded. */
  datatype OssParam = OssParam(
    endpoint: string,
    expireTime: string,
    ossBucket: string,
    ossObject: string,
    securityToken: string,
    tempAccessId: string,
    tempAccessSecret: string,
    uploadToken: string,
    vid: string)

  datatype UploadResponse = UploadResponse(error: ResponseError, data: seq<OssParam>)

  /** The registered video; the ow_oss fields name an alternate bucket/object. */
  datatype VideoData = VideoData(
    vid: string,
    uploadToken: string,
    owOssBucket: string,
    owOssObject: string)

  datatype VideoResponse = VideoResponse(error: ResponseError, data: seq<VideoData>)
}
