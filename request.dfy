/** The decision rules of the HTTP client WXApi/WXApi/request.py: the cached
    access token of an `MPCenter`, the classification of a server response,
    the choice of QR-code parameters and the checks before a media upload.
    Clocks are parameters (whole seconds since the epoch); the HTTP calls
    themselves are not part of this model. */
module Request {
  import opened Common

  datatype RequestError =
    | WeChatError(errcode: int) // the server answered with a non-zero errcode
    | StatusTypeError           // `"..." + status_code` on a failed response
    | MissingKey(key: string)   // KeyError on the token response
    | CompareWithNone           // a cached token without an expiry date
    | RecursionLimit            // `access_token` calling itself without end
    | FileMissing
    | FileTooLarge
    | UnsupportedFile
    | SceneOutOfRange
    | SceneTooLong

  // ---------------------------------------------------------------------------
  // valid_response

  /** What the client sees of a response: its status, and the `errcode` of its
      JSON body when it has one. */
  datatype Response<T> = Response(ok: bool, statusCode: int, errcode: Option<int>, body: T)

  /** `valid_response`: a successful status with no errcode or a zero errcode
      yields the body; a non-zero errcode is the server's error; any other
      status fails building its own error message. */
  function ValidResponse<T>(res: Response<T>): (r: Result<T, RequestError>)
    ensures r.Ok? <==> res.ok && (res.errcode.None? || res.errcode == Some(0))
    ensures r.Ok? ==> r.value == res.body
    ensures res.ok && res.errcode.Some? && res.errcode.value != 0 ==> r == Err(WeChatError(res.errcode.value))
    ensures !res.ok ==> r == Err(StatusTypeError)
  {
    if res.ok then
      if res.errcode.Some? then
        if res.errcode.value == 0 then Ok(res.body) else Err(WeChatError(res.errcode.value))
      else Ok(res.body)
    else Err(StatusTypeError)
  }

  // ---------------------------------------------------------------------------
  // The access-token cache.

  /** The JSON answer of the token endpoint: each key may be missing. */
  datatype TokenReply = TokenReply(expiresIn: Option<int>, accessToken: Option<string>)

  /** The margin, in seconds, by which a fresh token is taken to expire early. */
  const ExpiryMargin := 60

  /** The token cache of an `MPCenter`: the token and the instant it expires. */
  datatype TokenCache = TokenCache(token: Option<string>, expiry: Option<int>)

  /** The cached token may be returned at time `now`. */
  predicate Fresh(enabled: bool, c: TokenCache, now: int) {
    enabled && c.token.Some? && c.expiry.Some? && c.expiry.value > now
  }

  /** What the `access_token` property returns at time `now`, and the cache it
      leaves, when `replies` are the answers to successive refreshes: a fresh
      cached token is returned, a cached token without expiry cannot be
      compared, and otherwise a refresh is stored and the property asked again. */
  function AccessTokenOutcome(enabled: bool, c: TokenCache, now: int, replies: seq<TokenReply>)
    : (r: (Result<string, RequestError>, TokenCache))
    decreases |replies|
    ensures r.0.Ok? ==> Fresh(enabled, r.1, now) && r.1.token == Some(r.0.value)
    ensures !enabled ==> r.0.Err?
  {
    if enabled && c.token.Some? && c.expiry.None? then (Err(CompareWithNone), c)
    else if Fresh(enabled, c, now) then (Ok(c.token.value), c)
    else if |replies| == 0 then (Err(RecursionLimit), c)
    else if replies[0].expiresIn.None? then (Err(MissingKey("expires_in")), c)
    else if replies[0].accessToken.None? then (Err(MissingKey("access_token")), c)
    else
      var refreshed := TokenCache(replies[0].accessToken, Some(replies[0].expiresIn.value + now - ExpiryMargin));
      AccessTokenOutcome(enabled, refreshed, now, replies[1..])
  }

  /** A complete reply whose lifetime is at most the margin leaves a stale
      cache, so the property keeps refreshing: the token returned is the one
      of the first reply that lives longer than the margin, provided every
      reply before it is complete. */
  lemma {:induction false} FirstLastingReply(c: TokenCache, now: int, replies: seq<TokenReply>, k: nat)
    requires !Fresh(true, c, now) && !(c.token.Some? && c.expiry.None?)
    requires k < |replies|
    requires forall j :: 0 <= j <= k ==> replies[j].expiresIn.Some? && replies[j].accessToken.Some?
    requires forall j :: 0 <= j < k ==> replies[j].expiresIn.value <= ExpiryMargin
    requires replies[k].expiresIn.value > ExpiryMargin
    decreases k
    ensures AccessTokenOutcome(true, c, now, replies)
            == (Ok(replies[k].accessToken.value),
                TokenCache(replies[k].accessToken, Some(replies[k].expiresIn.value + now - ExpiryMargin)))
  {
    var refreshed := TokenCache(replies[0].accessToken, Some(replies[0].expiresIn.value + now - ExpiryMargin));
    if k > 0 {
      FirstLastingReply(refreshed, now, replies[1..], k - 1);
    }
  }

  /** A reply missing a key ends the property with that `KeyError` when every
      earlier reply was complete but short-lived. */
  lemma {:induction false} IncompleteReplyFails(c: TokenCache, now: int, replies: seq<TokenReply>, k: nat)
    requires !Fresh(true, c, now) && !(c.token.Some? && c.expiry.None?)
    requires k < |replies|
    requires forall j :: 0 <= j < k ==> replies[j].expiresIn.Some? && replies[j].accessToken.Some?
                                        && replies[j].expiresIn.value <= ExpiryMargin
    requires replies[k].expiresIn.None? || replies[k].accessToken.None?
    decreases k
    ensures AccessTokenOutcome(true, c, now, replies).0
            == Err(MissingKey(if replies[k].expiresIn.None? then "expires_in" else "access_token"))
  {
    if k > 0 {
      var refreshed := TokenCache(replies[0].accessToken, Some(replies[0].expiresIn.value + now - ExpiryMargin));
      IncompleteReplyFails(refreshed, now, replies[1..], k - 1);
    }
  }

  class MPCenter {
    var appId: Option<string>
    var appSecret: Option<string>
    var enableCache: bool
    var tokenCache: Option<string>
    var tokenExpiry: Option<int>

    /** The cached token may be returned at time `now`. */
    predicate CacheValid(now: int)
      reads this
    {
      Fresh(enableCache, Cache(), now)
    }

    function Cache(): TokenCache
      reads this
    {
      TokenCache(tokenCache, tokenExpiry)
    }

    constructor (appId: Option<string>, appSecret: Option<string>, enableTokenCache: bool,
                 token: Option<string>, expires: Option<int>)
      ensures this.appId == appId && this.appSecret == appSecret && enableCache == enableTokenCache
      ensures tokenCache == token && tokenExpiry == expires
    {
      this.appId := appId;
      this.appSecret := appSecret;
      enableCache := enableTokenCache;
      tokenCache := token;
      tokenExpiry := expires;
    }

    /** `update`: an empty or missing application id keeps the old one; the
        secret is always replaced. */
    method Update(newAppId: Option<string>, newAppSecret: Option<string>)
      modifies this
      ensures appId == if newAppId.Some? && newAppId.value != "" then newAppId else old(appId)
      ensures appSecret == newAppSecret
      ensures enableCache == old(enableCache) && tokenCache == old(tokenCache) && tokenExpiry == old(tokenExpiry)
    {
      if newAppId.Some? && newAppId.value != "" {
        appId := newAppId;
      }
      appSecret := newAppSecret;
    }

    /** `refresh_access_token` given the endpoint's answer `rs` and the time
        `now`: the new token expires a margin before the server says. */
    method RefreshAccessToken(rs: TokenReply, now: int) returns (r: Result<TokenReply, RequestError>)
      modifies this
      ensures rs.expiresIn.None? ==> r == Err(MissingKey("expires_in"))
      ensures rs.expiresIn.Some? && rs.accessToken.None? ==> r == Err(MissingKey("access_token"))
      ensures r.Err? ==> tokenCache == old(tokenCache) && tokenExpiry == old(tokenExpiry)
      ensures r.Ok? <==> rs.expiresIn.Some? && rs.accessToken.Some?
      ensures r.Ok? ==> r.value == rs && tokenCache == rs.accessToken
                        && tokenExpiry == Some(rs.expiresIn.value + now - ExpiryMargin)
      ensures r.Ok? ==> (CacheValid(now) <==> enableCache && rs.expiresIn.value > ExpiryMargin)
      ensures appId == old(appId) && appSecret == old(appSecret) && enableCache == old(enableCache)
    {
      if rs.expiresIn.None? {
        return Err(MissingKey("expires_in"));
      }
      var expiresIn := rs.expiresIn.value;
      if rs.accessToken.None? {
        return Err(MissingKey("access_token"));
      }
      tokenCache := rs.accessToken;
      tokenExpiry := Some(expiresIn + now - ExpiryMargin);
      r := Ok(rs);
    }

    /** The `access_token` property at time `now`, where `replies` are the
        answers the token endpoint gives to successive refreshes. It returns
        the cached token while it is valid and otherwise refreshes and asks
        again; when the replies run out, the recursion has not ended. */
    method AccessToken(now: int, replies: seq<TokenReply>) returns (r: Result<string, RequestError>)
      modifies this
      decreases |replies|
      ensures old(CacheValid(now)) ==> r == Ok(old(tokenCache).value) && tokenCache == old(tokenCache)
      ensures old(enableCache && tokenCache.Some? && tokenExpiry.None?) ==> r == Err(CompareWithNone)
      ensures r.Ok? ==> CacheValid(now) && tokenCache == Some(r.value)
      ensures !old(enableCache) ==> r.Err?
      ensures (!old(CacheValid(now)) && old(enableCache) && !old(tokenCache.Some? && tokenExpiry.None?)
               && |replies| > 0 && replies[0].accessToken.Some? && replies[0].expiresIn.Some?
               && replies[0].expiresIn.value > ExpiryMargin)
              ==> r == Ok(replies[0].accessToken.value)
      ensures (r, Cache()) == AccessTokenOutcome(old(enableCache), old(Cache()), now, replies)
      ensures appId == old(appId) && appSecret == old(appSecret) && enableCache == old(enableCache)
    {
      if enableCache && tokenCache.Some? {
        if tokenExpiry.None? {
          return Err(CompareWithNone);
        }
        if tokenExpiry.value > now {
          return Ok(tokenCache.value);
        }
      }
      if |replies| == 0 {
        return Err(RecursionLimit);
      }
      var refreshed := RefreshAccessToken(replies[0], now);
      if refreshed.Err? {
        return Err(refreshed.error);
      }
      r := AccessToken(now, replies[1..]);
    }
  }

  // ---------------------------------------------------------------------------
  // create_qrcode

  /** The longest lifetime of a temporary QR code: thirty days, in seconds. */
  const MaxTemporarySeconds := 2592000

  datatype Scene = IntScene(id: int) | StrScene(text: string)

  datatype QrParams =
    | QrScene(sceneStr: string)
    | QrLimitScene(sceneId: int)
    | QrLimitStrScene(sceneStr: string)

  /** The parameters `create_qrcode` posts for a scene and a lifetime. */
  function QrParamsFor(scene: Scene, expireSeconds: int): (r: Result<QrParams, RequestError>)
    ensures r.Ok? <==> match scene
                       case IntScene(n) => expireSeconds <= MaxTemporarySeconds || 1 <= n <= 100000
                       case StrScene(s) => |s| <= 64
    ensures r.Ok? ==> (r.value.QrScene? <==> scene.IntScene? && expireSeconds <= MaxTemporarySeconds)
    ensures r.Ok? && r.value.QrScene? ==> r.value.sceneStr == "123"
    ensures r.Ok? && r.value.QrLimitScene? ==> scene == IntScene(r.value.sceneId)
    ensures r.Ok? && r.value.QrLimitStrScene? ==> scene == StrScene(r.value.sceneStr)
    ensures scene.IntScene? && expireSeconds > MaxTemporarySeconds && !(1 <= scene.id <= 100000)
            ==> r == Err(SceneOutOfRange)
    ensures scene.StrScene? && |scene.text| > 64 ==> r == Err(SceneTooLong)
  {
    if expireSeconds <= MaxTemporarySeconds && scene.IntScene? then Ok(QrScene("123"))
    else if scene.IntScene? then
      if !(1 <= scene.id < 100001) then Err(SceneOutOfRange) else Ok(QrLimitScene(scene.id))
    else if |scene.text| > 64 then Err(SceneTooLong)
    else Ok(QrLimitStrScene(scene.text))
  }

  /** A temporary code carries the same parameters whatever integer scene it
      was asked for. */
  lemma TemporarySceneIgnored(a: int, b: int, expireSeconds: int)
    requires expireSeconds <= MaxTemporarySeconds
    ensures QrParamsFor(IntScene(a), expireSeconds) == QrParamsFor(IntScene(b), expireSeconds)
  {
  }

  // ---------------------------------------------------------------------------
  // upload_media

  const UploadBase := "http://file.api.weixin.qq.com/cgi-bin/media/upload"

  /** The kinds of upload and the file endings each accepts. */
  predicate Supported(filePath: string, fileType: string) {
    (fileType == "image" && EndsWith(filePath, "jpg"))
    || (fileType == "thumb" && EndsWith(filePath, "jpg"))
    || (fileType == "voice" && (EndsWith(filePath, "amr") || EndsWith(filePath, "mp3")))
    || (fileType == "video" && EndsWith(filePath, "mp4"))
  }

  /** The largest file, in bytes, each kind of upload accepts. */
  function SizeCap(fileType: string): nat {
    match fileType
    case "image" => 128 * 1024
    case "thumb" => 64 * 1024
    case "voice" => 256 * 1024
    case "video" => 1024 * 1024
    case _ => 0
  }

  /** The checks of `upload_media` before it posts, given whether the file
      exists and its size: the URL it posts to, or why it refuses. */
  function UploadUrl(filePath: string, fileType: string, fileExists: bool, size: nat): (r: Result<string, RequestError>)
    ensures r.Ok? <==> fileExists && Supported(filePath, fileType) && size <= SizeCap(fileType)
    ensures !fileExists ==> r == Err(FileMissing)
    ensures fileExists && !Supported(filePath, fileType) ==> r == Err(UnsupportedFile)
    ensures fileExists && Supported(filePath, fileType) && size > SizeCap(fileType) ==> r == Err(FileTooLarge)
    ensures r.Ok? ==> StartsWith(r.value, UploadBase + "&type=") && r.value[|UploadBase + "&type="|..] == fileType
  {
    var url := UploadBase + "&type=";
    if !fileExists then Err(FileMissing)
    else if EndsWith(filePath, "jpg") && fileType == "image" then
      if size > 128 * 1024 then Err(FileTooLarge) else Ok(url + fileType)
    else if EndsWith(filePath, "jpg") && fileType == "thumb" then
      if size > 64 * 1024 then Err(FileTooLarge) else Ok(url + fileType)
    else if (EndsWith(filePath, "amr") || EndsWith(filePath, "mp3")) && fileType == "voice" then
      if size > 256 * 1024 then Err(FileTooLarge) else Ok(url + fileType)
    else if EndsWith(filePath, "mp4") && fileType == "video" then
      if size > 1 * 1024 * 1024 then Err(FileTooLarge) else Ok(url + fileType)
    else Err(UnsupportedFile)
  }
}
