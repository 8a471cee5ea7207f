/**
 * The content client: every operation obtains a token, sends one request and
 * reads the decoded reply. The transport is left out: what an operation
 * would send is part of its result and the reply (or the exception) is an
 * input. Every failure becomes the operation's failure value.
 */
module WeChatContent {
  import opened Wrappers
  import opened PyText
  import opened Json
  import TokenCaching

  const ApiBase: string := "https://api.weixin.qq.com/cgi-bin/"

  datatype Endpoint = AddMaterial | UploadMedia | AddDraft | BatchGetDrafts | DeleteDraftEndpoint | SubmitPublish

  /** The path of an endpoint below the API base. */
  function Path(e: Endpoint): string
  {
    match e
    case AddMaterial => "material/add_material"
    case UploadMedia => "media/upload"
    case AddDraft => "draft/add"
    case BatchGetDrafts => "draft/batchget"
    case DeleteDraftEndpoint => "draft/delete"
    case SubmitPublish => "freepublish/submit"
  }

  /** Whether an endpoint takes an image upload, whose url also carries `&type=image`. */
  predicate IsImageUpload(e: Endpoint)
  {
    e == AddMaterial || e == UploadMedia
  }

  /**
   * The request url of an endpoint: the base, the path, then the token as the
   * `access_token` query parameter, which can be read back from its place.
   */
  function Url(e: Endpoint, token: string): (r: string)
    ensures var head := ApiBase + Path(e) + "?access_token=";
            && |r| >= |head| + |token|
            && r[..|head|] == head
            && r[|head|..|head| + |token|] == token
            && r[|head| + |token|..] == (if IsImageUpload(e) then "&type=image" else "")
  {
    var head := ApiBase + Path(e) + "?access_token=";
    var r := head + token + (if IsImageUpload(e) then "&type=image" else "");
    assert r[..|head|] == head;
    assert r[|head|..|head| + |token|] == token;
    r
  }

  /** A POST body: the image file as the multipart field `media`, or a JSON document. */
  datatype Payload = MultipartImage(path: string) | JsonBody(body: Json)

  /** A POST to `url`, which carries `accessToken` as its query parameter. */
  datatype Request = Request(endpoint: Endpoint, url: string, accessToken: string, payload: Payload)

  /** What a request came to: the decoded reply, or an exception (the transport, decoding). */
  datatype Response = Reply(body: Json) | Raised

  /** An operation's outcome: the request it sent, if any, and its result. */
  datatype Call<T> = Call(sent: Option<Request>, result: T)

  /** `if not token: return <failure>`: no token and the empty token both stop an operation. */
  predicate HasToken(token: Option<string>)
  {
    IsTruthy(token)
  }

  // ----- reading replies -----

  /**
   * `data["media_id"] if "media_id" in data else None`; a reply that is not an
   * object yields None, and so does a `media_id` of null, which Python reads
   * as `None` too.
   */
  function MediaIdOf(resp: Response): (r: Option<Json>)
    ensures r.Some? <==> resp.Reply? && resp.body.JObj? && "media_id" in resp.body.fields
                         && resp.body.fields["media_id"] != JNull
    ensures r.Some? ==> r.value == resp.body.fields["media_id"] && r.value != JNull
  {
    match resp
    case Reply(JObj(fields)) =>
      if "media_id" in fields && fields["media_id"] != JNull then Some(fields["media_id"]) else None
    case _ => None
  }

  /** `data.get("errcode", -1) == 0`; a reply that is not an object raises, which is a failure. */
  function ErrcodeIsZero(resp: Response): (ok: bool)
    ensures ok <==> resp.Reply? && resp.body.JObj? && "errcode" in resp.body.fields
                    && EqualsZero(resp.body.fields["errcode"])
  {
    match resp
    case Reply(body) =>
      var code := DictGet(body, "errcode", JInt(-1));
      code.Some? && EqualsZero(code.value)
    case Raised => false
  }

  // ----- drafts -----

  /** The article of `create_draft`; the cover id is added only when it is truthy. */
  function DraftArticle(title: string, content: string, thumbMediaId: Option<string>, showCoverPic: int)
    : (a: map<string, Json>)
    ensures a.Keys == {"title", "content", "show_cover_pic", "need_open_comment", "only_fans_can_comment"}
                      + (if IsTruthy(thumbMediaId) then {"thumb_media_id"} else {})
    ensures a["title"] == JStr(title) && a["content"] == JStr(content)
    ensures a["show_cover_pic"] == JInt(showCoverPic)
    ensures a["need_open_comment"] == JInt(1) && a["only_fans_can_comment"] == JInt(0)
    ensures IsTruthy(thumbMediaId) ==> a["thumb_media_id"] == JStr(thumbMediaId.value)
  {
    var article := map[
      "title" := JStr(title),
      "content" := JStr(content),
      "show_cover_pic" := JInt(showCoverPic),
      "need_open_comment" := JInt(1),
      "only_fans_can_comment" := JInt(0)];
    if IsTruthy(thumbMediaId) then article["thumb_media_id" := JStr(thumbMediaId.value)] else article
  }

  /** The body of the draft/add request: a one-article `articles` list. */
  function DraftBody(title: string, content: string, thumbMediaId: Option<string>, showCoverPic: int): (b: Json)
    ensures b.JObj? && b.fields.Keys == {"articles"}
    ensures b.fields["articles"].JArr? && |b.fields["articles"].elems| == 1
    ensures b.fields["articles"].elems[0] == JObj(DraftArticle(title, content, thumbMediaId, showCoverPic))
  {
    JObj(map["articles" := JArr([JObj(DraftArticle(title, content, thumbMediaId, showCoverPic))])])
  }

  /** One entry of the `list_drafts` result. Missing fields are None (`JNull`), `""` or `0`, as written. */
  datatype DraftSummary = DraftSummary(mediaId: Json, title: Json, updateTime: Json)

  /**
   * The projection of one listed item, or None when the comprehension raises on
   * it: the item and its `content` must be objects, and `news_item` (by default
   * a list holding one empty object) must be a non-empty list whose first
   * element is an object.
   */
  function ProjectItem(item: Json): (r: Option<DraftSummary>)
    ensures r.Some? <==>
              && item.JObj?
              && GetOr(item.fields, "content", JObj(map[])).JObj?
              && var news := GetOr(GetOr(item.fields, "content", JObj(map[])).fields, "news_item", JArr([JObj(map[])]));
                 news.JArr? && |news.elems| > 0 && news.elems[0].JObj?
    ensures r.Some? ==>
              var news := GetOr(GetOr(item.fields, "content", JObj(map[])).fields, "news_item", JArr([JObj(map[])]));
              r.value == DraftSummary(GetOr(item.fields, "media_id", JNull),
                                      GetOr(news.elems[0].fields, "title", JStr("")),
                                      GetOr(item.fields, "update_time", JInt(0)))
  {
    match item
    case JObj(fields) =>
      var content := GetOr(fields, "content", JObj(map[]));
      var news := DictGet(content, "news_item", JArr([JObj(map[])]));
      if news.Some? && news.value.JArr? && |news.value.elems| > 0 && news.value.elems[0].JObj? then
        Some(DraftSummary(GetOr(fields, "media_id", JNull),
                          GetOr(news.value.elems[0].fields, "title", JStr("")),
                          GetOr(fields, "update_time", JInt(0))))
      else None
    case _ => None
  }

  /** The comprehension over all items: item by item, in order, or nothing at all if any item raises. */
  function ProjectItems(items: seq<Json>): (r: Option<seq<DraftSummary>>)
    ensures r.Some? <==> forall i :: 0 <= i < |items| ==> ProjectItem(items[i]).Some?
    ensures r.Some? ==> |r.value| == |items|
    ensures r.Some? ==> forall i :: 0 <= i < |items| ==> r.value[i] == ProjectItem(items[i]).value
    decreases |items|
  {
    if items == [] then Some([])
    else
      var head := ProjectItem(items[0]);
      var tail := ProjectItems(items[1..]);
      if head.Some? && tail.Some? then Some([head.value] + tail.value) else None
  }

  /**
   * The drafts of a `draft/batchget` reply: the projected `item` list, or the
   * empty list when there is no such list or projecting it raises.
   */
  function DraftsOf(resp: Response): (r: seq<DraftSummary>)
    ensures resp.Raised? || !resp.body.JObj? || "item" !in resp.body.fields ==> r == []
    // a listed page is projected item by item, in order
    ensures (&& resp.Reply? && resp.body.JObj? && "item" in resp.body.fields && resp.body.fields["item"].JArr?
             && ProjectItems(resp.body.fields["item"].elems).Some?) ==>
              r == ProjectItems(resp.body.fields["item"].elems).value
              && |r| == |resp.body.fields["item"].elems|
    // an `item` that is not a list, or an item that cannot be projected, empties the page
    ensures (&& resp.Reply? && resp.body.JObj? && "item" in resp.body.fields
             && (!resp.body.fields["item"].JArr? || ProjectItems(resp.body.fields["item"].elems).None?)) ==> r == []
    ensures r != [] ==> resp.Reply? && resp.body.JObj? && "item" in resp.body.fields
                        && resp.body.fields["item"].JArr?
                        && ProjectItems(resp.body.fields["item"].elems) == Some(r)
  {
    match resp
    case Reply(JObj(fields)) =>
      if "item" in fields && fields["item"].JArr? then
        ProjectItems(fields["item"].elems).GetOr([])
      else []
    case _ => []
  }

  // ----- the operations -----

  /**
   * `upload_image`: a permanent image material; its media id, or None. `readable` says whether
   * the file at `imagePath` can be opened; when it cannot, the exception is
   * raised before anything is sent.
   */
  function UploadImage(token: Option<string>, imagePath: string, readable: bool, resp: Response): (c: Call<Option<Json>>)
    ensures !HasToken(token) ==> c == Call(None, None)
    ensures HasToken(token) && !readable ==> c == Call(None, None)
    ensures HasToken(token) && readable ==> c.sent == Some(Request(AddMaterial, Url(AddMaterial, token.value), token.value, MultipartImage(imagePath)))
    ensures c.result.Some? <==> HasToken(token) && readable && MediaIdOf(resp).Some?
    ensures c.result.Some? ==> c.result == MediaIdOf(resp)
  {
    if !HasToken(token) || !readable then Call(None, None)
    else Call(Some(Request(AddMaterial, Url(AddMaterial, token.value), token.value, MultipartImage(imagePath))), MediaIdOf(resp))
  }

  /**
   * `upload_temp_image`: a temporary image; its media id, or None. `readable` says whether
   * the file at `imagePath` can be opened; when it cannot, the exception is
   * raised before anything is sent.
   */
  function UploadTempImage(token: Option<string>, imagePath: string, readable: bool, resp: Response): (c: Call<Option<Json>>)
    ensures !HasToken(token) ==> c == Call(None, None)
    ensures HasToken(token) && !readable ==> c == Call(None, None)
    ensures HasToken(token) && readable ==> c.sent == Some(Request(UploadMedia, Url(UploadMedia, token.value), token.value, MultipartImage(imagePath)))
    ensures c.result.Some? <==> HasToken(token) && readable && MediaIdOf(resp).Some?
    ensures c.result.Some? ==> c.result == MediaIdOf(resp)
  {
    if !HasToken(token) || !readable then Call(None, None)
    else Call(Some(Request(UploadMedia, Url(UploadMedia, token.value), token.value, MultipartImage(imagePath))), MediaIdOf(resp))
  }

  /** `create_draft`: the new draft's media id, or None. */
  function CreateDraft(token: Option<string>, title: string, content: string, thumbMediaId: Option<string>,
                       showCoverPic: int, resp: Response): (c: Call<Option<Json>>)
    ensures !HasToken(token) ==> c == Call(None, None)
    ensures HasToken(token) ==>
              c.sent == Some(Request(AddDraft, Url(AddDraft, token.value), token.value,
                                     JsonBody(DraftBody(title, content, thumbMediaId, showCoverPic))))
    ensures c.result.Some? <==> HasToken(token) && MediaIdOf(resp).Some?
    ensures c.result.Some? ==> c.result == MediaIdOf(resp)
  {
    if !HasToken(token) then Call(None, None)
    else Call(Some(Request(AddDraft, Url(AddDraft, token.value), token.value, JsonBody(DraftBody(title, content, thumbMediaId, showCoverPic)))),
              MediaIdOf(resp))
  }

  /** `list_drafts(offset, count)`: one page of drafts; empty on any failure. */
  function ListDrafts(token: Option<string>, offset: int, count: int, resp: Response): (c: Call<seq<DraftSummary>>)
    ensures !HasToken(token) ==> c == Call(None, [])
    ensures HasToken(token) ==>
              c.sent == Some(Request(BatchGetDrafts, Url(BatchGetDrafts, token.value), token.value,
                                     JsonBody(JObj(map["offset" := JInt(offset), "count" := JInt(count)]))))
    ensures HasToken(token) ==> c.result == DraftsOf(resp)
  {
    if !HasToken(token) then Call(None, [])
    else Call(Some(Request(BatchGetDrafts, Url(BatchGetDrafts, token.value), token.value,
                           JsonBody(JObj(map["offset" := JInt(offset), "count" := JInt(count)])))),
              DraftsOf(resp))
  }

  /** `delete_draft(media_id)`: whether the reply's errcode is 0. */
  function DeleteDraft(token: Option<string>, mediaId: string, resp: Response): (c: Call<bool>)
    ensures !HasToken(token) ==> c == Call(None, false)
    ensures HasToken(token) ==>
              c.sent == Some(Request(DeleteDraftEndpoint, Url(DeleteDraftEndpoint, token.value), token.value, JsonBody(JObj(map["media_id" := JStr(mediaId)]))))
    ensures c.result <==> HasToken(token) && ErrcodeIsZero(resp)
  {
    if !HasToken(token) then Call(None, false)
    else Call(Some(Request(DeleteDraftEndpoint, Url(DeleteDraftEndpoint, token.value), token.value, JsonBody(JObj(map["media_id" := JStr(mediaId)])))),
              ErrcodeIsZero(resp))
  }

  /** `publish_draft(media_id)`: whether the reply's errcode is 0. */
  function PublishDraft(token: Option<string>, mediaId: string, resp: Response): (c: Call<bool>)
    ensures !HasToken(token) ==> c == Call(None, false)
    ensures HasToken(token) ==>
              c.sent == Some(Request(SubmitPublish, Url(SubmitPublish, token.value), token.value, JsonBody(JObj(map["media_id" := JStr(mediaId)]))))
    ensures c.result <==> HasToken(token) && ErrcodeIsZero(resp)
  {
    if !HasToken(token) then Call(None, false)
    else Call(Some(Request(SubmitPublish, Url(SubmitPublish, token.value), token.value, JsonBody(JObj(map["media_id" := JStr(mediaId)])))),
              ErrcodeIsZero(resp))
  }

  /**
   * The six operations with their arguments; for an upload, `readable` says
   * whether its image file can be opened.
   */
  datatype Operation =
    | UploadImageOp(imagePath: string, readable: bool)
    | UploadTempImageOp(imagePath: string, readable: bool)
    | CreateDraftOp(title: string, content: string, thumbMediaId: Option<string>, showCoverPic: int)
    | ListDraftsOp(offset: int, count: int)
    | DeleteDraftOp(mediaId: string)
    | PublishDraftOp(mediaId: string)

  datatype Outcome = MediaId(id: Option<Json>) | Drafts(drafts: seq<DraftSummary>) | Done(ok: bool)

  /** Whether an outcome is its operation's failure value (`None`, `[]`, `False`). */
  predicate IsFailureValue(o: Outcome)
  {
    match o
    case MediaId(id) => id.None?
    case Drafts(ds) => ds == []
    case Done(ok) => !ok
  }

  function Perform(op: Operation, token: Option<string>, resp: Response): Call<Outcome>
  {
    match op
    case UploadImageOp(path, readable) =>
      var c := UploadImage(token, path, readable, resp); Call(c.sent, MediaId(c.result))
    case UploadTempImageOp(path, readable) =>
      var c := UploadTempImage(token, path, readable, resp); Call(c.sent, MediaId(c.result))
    case CreateDraftOp(title, content, thumb, show) =>
      var c := CreateDraft(token, title, content, thumb, show, resp); Call(c.sent, MediaId(c.result))
    case ListDraftsOp(offset, count) =>
      var c := ListDrafts(token, offset, count, resp); Call(c.sent, Drafts(c.result))
    case DeleteDraftOp(id) =>
      var c := DeleteDraft(token, id, resp); Call(c.sent, Done(c.result))
    case PublishDraftOp(id) =>
      var c := PublishDraft(token, id, resp); Call(c.sent, Done(c.result))
  }

  /** Without a token no operation sends anything, and each yields its failure value. */
  lemma NoTokenNoRequest(op: Operation, token: Option<string>, resp: Response)
    requires !HasToken(token)
    ensures Perform(op, token, resp).sent.None?
    ensures IsFailureValue(Perform(op, token, resp).result)
  {
  }

  /**
   * With a token every operation sends exactly one request, carrying the
   * token, except an upload whose file cannot be opened, which sends nothing.
   */
  lemma RequestCarriesToken(op: Operation, token: Option<string>, resp: Response)
    requires HasToken(token)
    ensures Perform(op, token, resp).sent.Some? <==> !((op.UploadImageOp? || op.UploadTempImageOp?) && !op.readable)
    ensures Perform(op, token, resp).sent.Some? ==> Perform(op, token, resp).sent.value.accessToken == token.value
    ensures Perform(op, token, resp).sent.Some? ==>
              Perform(op, token, resp).sent.value.url == Url(Perform(op, token, resp).sent.value.endpoint, token.value)
  {
  }

  /** An exception never escapes: it always yields the operation's failure value. */
  lemma RaisedGivesFailure(op: Operation, token: Option<string>)
    ensures IsFailureValue(Perform(op, token, Raised).result)
  {
  }

  /** The article carries a `thumb_media_id` key exactly when the cover id is truthy. */
  lemma CoverIdOnlyWhenGiven(title: string, content: string, thumbMediaId: Option<string>, showCoverPic: int)
    ensures "thumb_media_id" in DraftArticle(title, content, thumbMediaId, showCoverPic) <==> IsTruthy(thumbMediaId)
  {
    var a := DraftArticle(title, content, thumbMediaId, showCoverPic);
    if "thumb_media_id" in a {
      assert "thumb_media_id" in a.Keys;
    }
  }

  /** A reply without `errcode` counts as errcode -1: the operation fails. */
  lemma MissingErrcodeFails(fields: map<string, Json>)
    requires "errcode" !in fields
    ensures !ErrcodeIsZero(Reply(JObj(fields)))
  {
  }

  /** An item without `content` projects to an empty title. */
  lemma NoContentEmptyTitle(fields: map<string, Json>)
    requires "content" !in fields
    ensures ProjectItem(JObj(fields)) ==
            Some(DraftSummary(GetOr(fields, "media_id", JNull), JStr(""), GetOr(fields, "update_time", JInt(0))))
  {
  }

  /** A well-formed item projects to its id, the title of its first news item and its update time. */
  lemma WellFormedItem(mediaId: string, title: string, rest: seq<Json>, updateTime: int)
    ensures ProjectItem(JObj(map[
              "media_id" := JStr(mediaId),
              "content" := JObj(map["news_item" := JArr([JObj(map["title" := JStr(title)])] + rest)]),
              "update_time" := JInt(updateTime)]))
            == Some(DraftSummary(JStr(mediaId), JStr(title), JInt(updateTime)))
  {
  }

  /** One item whose `news_item` list is empty makes the whole page empty. */
  lemma EmptyNewsItemSpoilsPage(items: seq<Json>, k: nat, fields: map<string, Json>)
    requires k < |items|
    requires items[k] == JObj(fields)
    requires "content" in fields && fields["content"] == JObj(map["news_item" := JArr([])])
    ensures DraftsOf(Reply(JObj(map["item" := JArr(items)]))) == []
  {
    assert ProjectItem(items[k]).None?;
  }

  /** Projecting two runs of items one after the other is projecting each run: all-or-nothing composes. */
  lemma {:induction false} ProjectItemsAppend(a: seq<Json>, b: seq<Json>)
    ensures ProjectItems(a + b).Some? <==> ProjectItems(a).Some? && ProjectItems(b).Some?
    ensures ProjectItems(a + b).Some? ==> ProjectItems(a + b).value == ProjectItems(a).value + ProjectItems(b).value
    decreases |a|
  {
    if a == [] {
      assert a + b == b;
    } else {
      assert (a + b)[0] == a[0] && (a + b)[1..] == a[1..] + b;
      ProjectItemsAppend(a[1..], b);
    }
  }

  /** `create_draft("Hello", "<p>Hi</p>")` without a cover, answered with {"media_id": "M1"}. */
  lemma DraftWithoutCoverScenario(token: string)
    requires token != ""
    ensures var c := CreateDraft(Some(token), "Hello", "<p>Hi</p>", None, 0, Reply(JObj(map["media_id" := JStr("M1")])));
            && c.result == Some(JStr("M1"))
            && c.sent.Some? && c.sent.value.payload.JsonBody?
            && "thumb_media_id" !in c.sent.value.payload.body.fields["articles"].elems[0].fields
  {
  }

  // ----- the client object -----

  /** The credentials the environment supplies (`WECHAT_APP_ID`, `WECHAT_APP_SECRET`, both "" when unset). */
  datatype Config = Config(appId: string, appSecret: string)

  /** The client: its credentials and the shared token cache. */
  class WeChatApi {
    const appId: string
    const appSecret: string
    const tokenCache: TokenCaching.TokenCache

    /** `WeChatAPI(app_id, app_secret)`: a falsy argument falls back to the configured value. */
    constructor (appId: Option<string>, appSecret: Option<string>, config: Config, tokenCache: TokenCaching.TokenCache)
      ensures this.appId == (if IsTruthy(appId) then appId.value else config.appId)
      ensures this.appSecret == (if IsTruthy(appSecret) then appSecret.value else config.appSecret)
      ensures this.tokenCache == tokenCache
    {
      this.appId := if IsTruthy(appId) then appId.value else config.appId;
      this.appSecret := if IsTruthy(appSecret) then appSecret.value else config.appSecret;
      this.tokenCache := tokenCache;
    }

    /**
     * One operation: a token from the cache (`_get_token`), then the request.
     * `now`, `issuedAt` and `issue` are what the cache sees if it must ask the
     * issuer; `resp` is what the content request came to.
     */
    method Run(op: Operation, now: real, issuedAt: real, issue: TokenCaching.Issue, resp: Response)
      returns (tokenRequest: Option<TokenCaching.TokenRequest>, call: Call<Outcome>)
      modifies tokenCache
      ensures var lookup := TokenCaching.GetToken(old(tokenCache.entries), appId, appSecret, now, issuedAt, issue);
              && tokenCache.entries == lookup.entries
              && tokenRequest == lookup.request
              && call == Perform(op, lookup.token, resp)
    {
      var token;
      token, tokenRequest := tokenCache.GetAccessToken(appId, appSecret, now, issuedAt, issue);
      call := Perform(op, token, resp);
    }
  }

  /** The module-level `_api_instance` slot behind `get_wechat_api`. */
  class WeChatApiSlot {
    var instance: WeChatApi?

    constructor ()
      ensures instance == null
    {
      instance := null;
    }

    /** `get_wechat_api()`: the first call builds the client on the shared cache; later calls return it. */
    method GetWeChatApi(config: Config, caches: TokenCaching.TokenCacheSlot) returns (api: WeChatApi)
      modifies this, caches
      ensures old(instance) != null ==> api == old(instance) && caches.instance == old(caches.instance)
      ensures old(instance) == null ==>
                fresh(api) && api.appId == config.appId && api.appSecret == config.appSecret
                && api.tokenCache == caches.instance
                && (old(caches.instance) != null ==> caches.instance == old(caches.instance))
      ensures instance == api
    {
      if instance == null {
        var cache := caches.GetTokenCache();
        instance := new WeChatApi(None, None, config, cache);
      }
      api := instance;
    }
  }
}
