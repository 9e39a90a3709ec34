/** What `upload_file` promises about the calls it makes, stated over the exchanges
    one call of `Protocol.UploadFile` adds to the trace.

    "Lines" in the comments below are lines of `remarkable2cloud/remarkablecloud.py`. */
module ProtocolProperties {
  import opened Python
  import opened Json
  import Bundle
  import opened Protocol

  /** The exchanges added between two states of a client. */
  function Added(before: Client, after: Client): seq<Exchange>
    requires before.trace <= after.trace
  {
    after.trace[|before.trace|..]
  }

  predicate Is(x: Exchange, e: Endpoint) {
    x.call.endpoint == e
  }

  predicate Answered(x: Exchange, status: int) {
    x.response.Reply? && x.response.status == status
  }

  /** A reply to the upload request that hands out the (non-empty) blob URL `url`. */
  predicate Grants(response: Response, url: string) {
    response.Reply? && ExtractBlobUrl(response) == Returned(JStr(url)) && url != ""
  }

  /** The exchanges of the upload-request step: the first PUT, and after a 401 the token
      exchange and, when that answered 200, the second PUT with the device-token headers. */
  lemma RequestUploadTrace(c: Client, id: string)
    ensures var r := RequestUpload(c, id);
      var url := BaseUrl(c.storageServer) + "/" + UploadRequestPath;
      var body := JsonBody(UploadRequestBody(id));
      && c.trace <= r.next.trace
      && var n := Added(c, r.next);
      && 1 <= |n| <= 3
      && n[0].call == Call(UploadRequest, url, SetUserTokenHeader(c).headers, body)
      && (|n| >= 2 <==> Answered(n[0], 401))
      && (|n| >= 2 ==> Is(n[1], TokenExchange) && n[1].call.headers == DeviceHeaders(c.deviceToken))
      && (|n| == 3 <==> |n| >= 2 && Answered(n[1], 200))
      && (|n| == 3 ==> n[2].call == Call(UploadRequest, url, DeviceHeaders(c.deviceToken), body))
      && (r.out.Raised? <==> n[|n| - 1].response.Fault?)
      && (r.out.Returned? ==> r.out.value == n[if |n| == 2 then 0 else |n| - 1].response)
      && (r.out.Returned? ==> r.out.value.Reply?)
      && SameSettings(c, r.next)
      && r.next.headers == (if |n| == 1 then SetUserTokenHeader(c).headers else DeviceHeaders(c.deviceToken))
      && (|n| == 3 ==> r.next.userToken == Some(n[1].response.text))
      && (|n| != 3 ==> r.next.userToken == c.userToken)
  {
    var url := BaseUrl(c.storageServer) + "/" + UploadRequestPath;
    var body := JsonBody(UploadRequestBody(id));
    var c1 := SetUserTokenHeader(c);
    var first := Send(c1, UploadRequest, url, body);
    var x0 := Exchange(Call(UploadRequest, url, c1.headers, body), Next(c.script));
    assert first.next.trace == c.trace + [x0];
    if !first.out.Raised? && first.out.value.status == 401 {
      var renewed := ObtainUserToken(first.next);
      var x1 := renewed.next.trace[|renewed.next.trace| - 1];
      assert renewed.next.trace == c.trace + [x0, x1];
      if !renewed.out.Raised? && renewed.out.value {
        var second := Send(renewed.next, UploadRequest, url, body);
        var x2 := Exchange(Call(UploadRequest, url, renewed.next.headers, body), Next(renewed.next.script));
        assert second.next.trace == c.trace + [x0, x1, x2];
        assert Added(c, second.next) == [x0, x1, x2];
      } else {
        assert Added(c, renewed.next) == [x0, x1];
      }
    } else {
      assert Added(c, first.next) == [x0];
    }
  }

  /** The exchanges of storing the blob: the bundle PUT without Authorization changes,
      and after a 200 the rename PUT with the user token. */
  lemma StoreBlobTrace(c: Client, t: Bundle.Templates, a: UploadArgs, id: string, blobUrl: Json)
    ensures var r := StoreBlob(c, t, a, id, blobUrl);
      && c.trace <= r.next.trace
      && SameSettings(c, r.next) && r.next.userToken == c.userToken
      && (!blobUrl.JStr? ==> r == Step(Raised(MissingSchema), c))
      && (blobUrl.JStr? ==>
        var n := Added(c, r.next);
        && 1 <= |n| <= 2
        && n[0].call == Call(BlobPut, blobUrl.s, c.headers, BundleBody(Bundle.MakeBundle(t, id, a.fileBytes)))
        && (|n| == 2 <==> Answered(n[0], 200))
        && (|n| == 2 ==> n[1].call == Call(UpdateStatus, BaseUrl(c.storageServer) + "/" + UpdateStatusPath,
                                           c.headers[Authorization := Bearer(Render(c.userToken))],
                                           JsonBody(RenameBody(id, VisibleName(a)))))
        && (r.out.Raised? <==> n[|n| - 1].response.Fault?)
        && (r.out.Returned? && |n| == 1 ==> r.next.headers == c.headers)
        && (r.out.Returned? && |n| == 2 ==> r.next.headers == c.headers - {Authorization}))
  {
    if blobUrl.JStr? {
      var put := Send(c, BlobPut, blobUrl.s, BundleBody(Bundle.MakeBundle(t, id, a.fileBytes)));
      var x0 := put.next.trace[|c.trace|];
      assert Added(c, put.next) == [x0];
      if !put.out.Raised? && put.out.value.status == 200 {
        var named := SetNameForUuid(put.next, id, VisibleName(a), 1);
        var x1 := named.next.trace[|c.trace| + 1];
        assert named.next.trace == c.trace + [x0, x1];
        assert Added(c, named.next) == [x0, x1];
      }
    }
  }

  /** The last reply of the upload-request step grants a blob URL. */
  predicate Granted(c: Client, id: string) {
    var request := RequestUpload(c, id);
    request.out.Returned? && request.out.value.Reply?
    && ExtractBlobUrl(request.out.value).Returned?
    && var j := ExtractBlobUrl(request.out.value).value; j.JStr? && j.s != ""
  }

  /** The state in which the bundle PUT is made: after the upload request, with
      Authorization removed. */
  function Cleared(c: Client, id: string): Client {
    DelAuthorizationHeader(RequestUpload(c, id).next).next
  }

  /** The granted blob URL. */
  function GrantedUrl(c: Client, id: string): string
    requires Granted(c, id)
  {
    ExtractBlobUrl(RequestUpload(c, id).out.value).value.s
  }

  /** Once a user token is held, `upload_file` never returns False: it returns the id, with
      Authorization removed, or raises; and its exchanges extend those of the request step. */
  lemma AfterTokenOutcome(c: Client, t: Bundle.Templates, a: UploadArgs, id: string)
    ensures var u := AfterToken(c, t, a, id);
      && RequestUpload(c, id).next.trace <= u.next.trace
      && SameSettings(c, u.next)
      && (u.out.Returned? ==> u.out.value == ReturnedUuid(id) && Authorization !in u.next.headers)
  {
    RequestUploadTrace(c, id);
    var request := RequestUpload(c, id);
    if request.out.Returned? && ExtractBlobUrl(request.out.value).Returned? {
      var blobUrl := ExtractBlobUrl(request.out.value).value;
      if Truthy(blobUrl) {
        StoreBlobTrace(Cleared(c, id), t, a, id, blobUrl);
      }
    }
  }

  /** Without a granted blob URL nothing is sent after the upload request. */
  lemma AfterTokenWithoutGrant(c: Client, t: Bundle.Templates, a: UploadArgs, id: string)
    requires !Granted(c, id)
    ensures AfterToken(c, t, a, id).next.trace == RequestUpload(c, id).next.trace
  {
    RequestUploadTrace(c, id);
    var request := RequestUpload(c, id);
    if request.out.Returned? && ExtractBlobUrl(request.out.value).Returned? {
      var blobUrl := ExtractBlobUrl(request.out.value).value;
      if Truthy(blobUrl) {
        StoreBlobTrace(Cleared(c, id), t, a, id, blobUrl);
      }
    }
  }

  /** With a granted blob URL the blob is stored from the cleared state. */
  lemma AfterTokenWithGrant(c: Client, t: Bundle.Templates, a: UploadArgs, id: string)
    requires Granted(c, id)
    ensures AfterToken(c, t, a, id).next.trace
         == StoreBlob(Cleared(c, id), t, a, id, JStr(GrantedUrl(c, id))).next.trace
    ensures AfterToken(c, t, a, id).next.userToken
         == StoreBlob(Cleared(c, id), t, a, id, JStr(GrantedUrl(c, id))).next.userToken
  {
    var request := RequestUpload(c, id);
    var blobUrl := ExtractBlobUrl(request.out.value).value;
    assert AfterToken(c, t, a, id) == Conclude(Cleared(c, id), t, a, id, blobUrl);
  }

  /** Lines 106-108 as seen in the trace: a held user token means nothing is sent;
      otherwise exactly one token exchange is appended, with the device-token headers,
      and the step returns True exactly when it was answered 200. */
  lemma TokenTrace(c: Client)
    ensures var k := AcquireUserToken(c);
      && c.trace <= k.next.trace && SameSettings(c, k.next)
      && (Present(c.userToken) ==> k == Step(Returned(true), c))
      && (!Present(c.userToken) ==>
        var x := Added(c, k.next);
        && |x| == 1
        && x[0].call == Call(TokenExchange, BaseUrl(c.webappServer) + "/" + NewUserTokenPath,
                             DeviceHeaders(c.deviceToken), NoBody)
        && k.next.script == Rest(c.script)
        && (k.out == Returned(true) <==> Answered(x[0], 200))
        && (k.out.Raised? <==> x[0].response.Fault?))
  {
    if !Present(c.userToken) {
      var k := ObtainUserToken(c);
      assert Added(c, k.next) == [k.next.trace[|c.trace|]];
    }
  }

  /** Once the token step returned True, `upload_file` continues with the held token. */
  lemma PastToken(c: Client, t: Bundle.Templates, a: UploadArgs)
    requires a.isFile && AcquireUserToken(c).out == Returned(true)
    ensures UploadFile(c, t, a) == AfterToken(AcquireUserToken(c).next, t, a, DocumentId(a))
  {
  }

  /** The held-token state from which an upload that got past the token check goes on. */
  function Held(c: Client): Client {
    AcquireUserToken(c).next
  }

  /** Without a granted blob URL an upload ends with the exchanges of its request step. */
  lemma UploadWithoutGrant(c: Client, t: Bundle.Templates, a: UploadArgs)
    requires a.isFile && AcquireUserToken(c).out == Returned(true)
    requires !Granted(Held(c), DocumentId(a))
    ensures UploadFile(c, t, a).next.trace == RequestUpload(Held(c), DocumentId(a)).next.trace
  {
    PastToken(c, t, a);
    AfterTokenWithoutGrant(Held(c), t, a, DocumentId(a));
  }

  /** With a granted blob URL an upload ends with the exchanges of storing the blob. */
  lemma UploadWithGrant(c: Client, t: Bundle.Templates, a: UploadArgs)
    requires a.isFile && AcquireUserToken(c).out == Returned(true)
    requires Granted(Held(c), DocumentId(a))
    ensures UploadFile(c, t, a).next.trace
         == StoreBlob(Cleared(Held(c), DocumentId(a)), t, a, DocumentId(a), JStr(GrantedUrl(Held(c), DocumentId(a)))).next.trace
    ensures UploadFile(c, t, a).next.userToken
         == StoreBlob(Cleared(Held(c), DocumentId(a)), t, a, DocumentId(a), JStr(GrantedUrl(Held(c), DocumentId(a)))).next.userToken
  {
    PastToken(c, t, a);
    AfterTokenWithGrant(Held(c), t, a, DocumentId(a));
  }

  /** The upload-request step of an upload that got past the token check. */
  function Request(c: Client, a: UploadArgs): Step<Response> {
    RequestUpload(Held(c), DocumentId(a))
  }

  /** The blob-storing step of an upload whose request was granted a blob URL. */
  function Store(c: Client, t: Bundle.Templates, a: UploadArgs): Step<()>
    requires Granted(Held(c), DocumentId(a))
  {
    var id := DocumentId(a);
    StoreBlob(Cleared(Held(c), id), t, a, id, JStr(GrantedUrl(Held(c), id)))
  }

  /** Every step only appends to the trace. */
  lemma TokenGrows(c: Client)
    ensures c.trace <= Held(c).trace && SameSettings(c, Held(c))
  {
  }

  lemma RequestGrows(c: Client, id: string)
    ensures c.trace <= RequestUpload(c, id).next.trace
    ensures Cleared(c, id).trace == RequestUpload(c, id).next.trace
    ensures SameSettings(c, Cleared(c, id))
  {
    RequestUploadTrace(c, id);
  }

  lemma StoreGrows(c: Client, t: Bundle.Templates, a: UploadArgs, id: string, blobUrl: Json)
    ensures c.trace <= StoreBlob(c, t, a, id, blobUrl).next.trace
    ensures StoreBlob(c, t, a, id, blobUrl).next.userToken == c.userToken
  {
  }

  /** Exchanges added over consecutive steps are the concatenation of those of each step. */
  lemma {:induction false} AddedInSteps(p: seq<Exchange>, q: seq<Exchange>, r: seq<Exchange>, s: seq<Exchange>)
    requires p <= q <= r <= s
    ensures s[|p|..] == q[|p|..] + r[|q|..] + s[|r|..]
  {
    assert s[|p|..] == s[|p|..|q|] + s[|q|..|r|] + s[|r|..];
  }

  /** The exchanges of a granted upload: token step, request step, storing step. */
  lemma SplitGranted(c: Client, t: Bundle.Templates, a: UploadArgs)
    requires a.isFile && AcquireUserToken(c).out == Returned(true)
    requires Granted(Held(c), DocumentId(a))
    ensures c.trace <= Held(c).trace <= Request(c, a).next.trace <= Store(c, t, a).next.trace
    ensures UploadFile(c, t, a).next.trace == Store(c, t, a).next.trace
    ensures Added(c, UploadFile(c, t, a).next)
         == Added(c, Held(c)) + Added(Held(c), Request(c, a).next) + Added(Request(c, a).next, Store(c, t, a).next)
  {
    var id := DocumentId(a);
    TokenGrows(c);
    RequestGrows(Held(c), id);
    StoreGrows(Cleared(Held(c), id), t, a, id, JStr(GrantedUrl(Held(c), id)));
    UploadWithGrant(c, t, a);
    AddedInSteps(c.trace, Held(c).trace, Request(c, a).next.trace, Store(c, t, a).next.trace);
  }

  /** The exchanges of an upload past the token check without a grant: token step and
      request step. */
  lemma SplitNotGranted(c: Client, t: Bundle.Templates, a: UploadArgs)
    requires a.isFile && AcquireUserToken(c).out == Returned(true)
    requires !Granted(Held(c), DocumentId(a))
    ensures c.trace <= Held(c).trace <= Request(c, a).next.trace
    ensures UploadFile(c, t, a).next.trace == Request(c, a).next.trace
    ensures Added(c, UploadFile(c, t, a).next) == Added(c, Held(c)) + Added(Held(c), Request(c, a).next)
  {
    TokenGrows(c);
    RequestGrows(Held(c), DocumentId(a));
    UploadWithoutGrant(c, t, a);
    var r := Request(c, a).next.trace;
    AddedInSteps(c.trace, Held(c).trace, r, r);
  }

  /** An upload stopped by the token step ends in the state that step left. */
  lemma StoppedAtToken(c: Client, t: Bundle.Templates, a: UploadArgs)
    requires a.isFile && AcquireUserToken(c).out != Returned(true)
    ensures UploadFile(c, t, a).next == Held(c)
    ensures UploadFile(c, t, a).out == (if AcquireUserToken(c).out.Raised? then Raised(AcquireUserToken(c).out.error)
                                        else Returned(ReturnedFalse))
  {
  }

  /** The exchanges of an upload past the token check, in three consecutive parts: the
      token step's `x`, the request step's `r` and the storing step's `s`. */
  lemma Parts(c: Client, t: Bundle.Templates, a: UploadArgs) returns (x: seq<Exchange>, r: seq<Exchange>, s: seq<Exchange>)
    requires a.isFile && AcquireUserToken(c).out == Returned(true)
    ensures c.trace <= Held(c).trace <= Request(c, a).next.trace <= UploadFile(c, t, a).next.trace
    ensures Added(c, UploadFile(c, t, a).next) == x + r + s
    ensures x == Added(c, Held(c)) && r == Added(Held(c), Request(c, a).next)
    ensures Granted(Held(c), DocumentId(a)) ==>
      Request(c, a).next.trace <= Store(c, t, a).next.trace && s == Added(Request(c, a).next, Store(c, t, a).next)
    ensures !Granted(Held(c), DocumentId(a)) ==> s == []
  {
    x := Added(c, Held(c));
    r := Added(Held(c), Request(c, a).next);
    if Granted(Held(c), DocumentId(a)) {
      SplitGranted(c, t, a);
      s := Added(Request(c, a).next, Store(c, t, a).next);
    } else {
      SplitNotGranted(c, t, a);
      s := [];
    }
  }

  /** Storing a blob PUTs the bundle and then possibly renames; it makes no other call. */
  lemma StoreKinds(c: Client, t: Bundle.Templates, a: UploadArgs, id: string, url: string)
    ensures c.trace <= StoreBlob(c, t, a, id, JStr(url)).next.trace
    ensures var s := Added(c, StoreBlob(c, t, a, id, JStr(url)).next);
      && 1 <= |s| <= 2 && (|s| == 2 ==> Is(s[1], UpdateStatus))
      && s[0].call == Call(BlobPut, url, c.headers, BundleBody(Bundle.MakeBundle(t, id, a.fileBytes)))
      && NoneTo(s, UploadRequest) && NoneTo(s, TokenExchange)
      && (|s| == 2 <==> Answered(s[0], 200))
      && (|s| == 2 ==> s[1].call == Call(UpdateStatus, BaseUrl(c.storageServer) + "/" + UpdateStatusPath, s[1].call.headers,
                                         JsonBody(RenameBody(id, VisibleName(a))))
                       && Authorization in s[1].call.headers
                       && s[1].call.headers[Authorization] == Bearer(Render(c.userToken)))
  {
    StoreBlobTrace(c, t, a, id, JStr(url));
  }

  /** The storing part of a granted upload. */
  lemma StorePart(c: Client, t: Bundle.Templates, a: UploadArgs)
    requires Granted(Held(c), DocumentId(a))
    ensures Request(c, a).next.trace <= Store(c, t, a).next.trace
    ensures var s := Added(Request(c, a).next, Store(c, t, a).next);
      && 1 <= |s| <= 2 && (|s| == 2 ==> Is(s[1], UpdateStatus))
      && s[0].call == Call(BlobPut, GrantedUrl(Held(c), DocumentId(a)), Cleared(Held(c), DocumentId(a)).headers,
                           BundleBody(Bundle.MakeBundle(t, DocumentId(a), a.fileBytes)))
      && Authorization !in s[0].call.headers
      && NoneTo(s, UploadRequest) && NoneTo(s, TokenExchange)
      && PutsBundleFirst(s, Bundle.MakeBundle(t, DocumentId(a), a.fileBytes), GrantedUrl(Held(c), DocumentId(a)))
  {
    var id := DocumentId(a);
    RequestGrows(Held(c), id);
    StoreKinds(Cleared(Held(c), id), t, a, id, GrantedUrl(Held(c), id));
  }

  /** Any upload only appends to the trace. */
  lemma UploadGrows(c: Client, t: Bundle.Templates, a: UploadArgs)
    ensures c.trace <= UploadFile(c, t, a).next.trace
  {
    if a.isFile {
      TokenGrows(c);
      if AcquireUserToken(c).out == Returned(true) {
        var x, r, s := Parts(c, t, a);
      } else {
        StoppedAtToken(c, t, a);
      }
    }
  }

  /** No exchange of `s` goes to endpoint `e`. */
  predicate NoneTo(s: seq<Exchange>, e: Endpoint) {
    forall k | 0 <= k < |s| :: !Is(s[k], e)
  }

  /** Two upload requests in `n` are a PUT refused with 401, a token exchange answered
      200 and the same PUT repeated with the headers `retry`. */
  predicate RetriedOnce(n: seq<Exchange>, retry: Headers) {
    forall i, j | 0 <= i < j < |n| && Is(n[i], UploadRequest) && Is(n[j], UploadRequest) ::
      && j == i + 2 && Answered(n[i], 401)
      && Is(n[i + 1], TokenExchange) && Answered(n[i + 1], 200)
      && n[j].call == n[i].call.(headers := retry)
  }

  lemma {:induction false} RetriedOnceInside(x: seq<Exchange>, r: seq<Exchange>, s: seq<Exchange>, retry: Headers)
    requires NoneTo(x, UploadRequest) && RetriedOnce(r, retry) && NoneTo(s, UploadRequest)
    ensures RetriedOnce(x + r + s, retry)
  {
    var n := x + r + s;
    forall i, j | 0 <= i < j < |n| && Is(n[i], UploadRequest) && Is(n[j], UploadRequest)
      ensures j == i + 2 && Answered(n[i], 401)
      ensures Is(n[i + 1], TokenExchange) && Answered(n[i + 1], 200)
      ensures n[j].call == n[i].call.(headers := retry)
    {
      assert n[i] == r[i - |x|] && n[j] == r[j - |x|];
      assert n[i + 1] == r[i + 1 - |x|];
    }
  }

  lemma RequestRetriedOnce(c: Client, id: string)
    ensures c.trace <= RequestUpload(c, id).next.trace
    ensures RetriedOnce(Added(c, RequestUpload(c, id).next), DeviceHeaders(c.deviceToken))
  {
    RequestUploadTrace(c, id);
  }

  /** The token step makes no call but the token exchange. */
  lemma TokenPartKinds(c: Client)
    ensures c.trace <= Held(c).trace && Held(c).deviceToken == c.deviceToken
    ensures var x := Added(c, Held(c));
      NoneTo(x, UploadRequest) && NoneTo(x, BlobPut) && NoneTo(x, UpdateStatus)
  {
    TokenTrace(c);
  }

  /** Lines 109-118: the upload request is PUT at most twice; a second PUT comes two
      exchanges after the first, only after the first was refused with 401 and a token
      exchange in between answered 200, and it repeats the first with the device-token
      headers that exchange left in place. */
  lemma {:induction false} UploadRequestRetry(c: Client, t: Bundle.Templates, a: UploadArgs)
    ensures c.trace <= UploadFile(c, t, a).next.trace
    ensures RetriedOnce(Added(c, UploadFile(c, t, a).next), DeviceHeaders(c.deviceToken))
  {
    UploadGrows(c, t, a);
    TokenPartKinds(c);
    if !a.isFile {
    } else if AcquireUserToken(c).out != Returned(true) {
      StoppedAtToken(c, t, a);
      RetriedOnceInside(Added(c, Held(c)), [], [], DeviceHeaders(c.deviceToken));
    } else {
      var x, r, s := Parts(c, t, a);
      RequestRetriedOnce(Held(c), DocumentId(a));
      if Granted(Held(c), DocumentId(a)) {
        StorePart(c, t, a);
      }
      RetriedOnceInside(x, r, s, DeviceHeaders(c.deviceToken));
    }
  }

  /** Every bundle PUT in `n` follows an upload request whose reply granted that URL, and
      carries no Authorization header and the bundle `bundle`. */
  predicate BlobPutsGranted(n: seq<Exchange>, bundle: Bundle.Bundle) {
    forall i | 0 <= i < |n| && Is(n[i], BlobPut) ::
      && 0 < i && Is(n[i - 1], UploadRequest) && Grants(n[i - 1].response, n[i].call.url)
      && Authorization !in n[i].call.headers && n[i].call.body == BundleBody(bundle)
  }

  /** Every upload request in `n` whose reply grants a URL is followed by a PUT to it. */
  ghost predicate GrantsUsed(n: seq<Exchange>) {
    forall i, url | 0 <= i < |n| && Is(n[i], UploadRequest) && Grants(n[i].response, url) ::
      i + 1 < |n| && Is(n[i + 1], BlobPut) && n[i + 1].call.url == url
  }

  /** The request step makes no bundle PUT and no rename. */
  lemma RequestKinds(c: Client, id: string)
    ensures c.trace <= RequestUpload(c, id).next.trace
    ensures var r := Added(c, RequestUpload(c, id).next);
      && NoneTo(r, BlobPut) && NoneTo(r, UpdateStatus)
      && 1 <= |r| && r[0].call == Call(UploadRequest, BaseUrl(c.storageServer) + "/" + UploadRequestPath,
                                       c.headers[Authorization := Bearer(Render(c.userToken))],
                                       JsonBody(UploadRequestBody(id)))
  {
    RequestUploadTrace(c, id);
    var r := Added(c, RequestUpload(c, id).next);
    forall k | 0 <= k < |r|
      ensures Is(r[k], UploadRequest) || Is(r[k], TokenExchange)
    {
      assert k == 0 || k == 1 || k == 2;
    }
  }

  /** Only the last exchange of `r` can grant a URL, only when `granted`, and then it
      grants `url`. */
  ghost predicate OnlyLastGrants(r: seq<Exchange>, granted: bool, url: string) {
    && (forall i, u | 0 <= i < |r| && Is(r[i], UploadRequest) && Grants(r[i].response, u) ::
          granted && i == |r| - 1 && u == url)
    && (granted ==> |r| > 0 && Is(r[|r| - 1], UploadRequest) && Grants(r[|r| - 1].response, url))
  }

  /** `s` starts with the PUT of `bundle` to `url` without Authorization, and makes no
      other bundle PUT and no upload request. */
  predicate PutsBundleFirst(s: seq<Exchange>, bundle: Bundle.Bundle, url: string) {
    && 1 <= |s| <= 2 && s[0].call == Call(BlobPut, url, s[0].call.headers, BundleBody(bundle))
    && Authorization !in s[0].call.headers
    && (|s| == 2 ==> !Is(s[1], BlobPut)) && NoneTo(s, UploadRequest)
  }

  /** The URL granted to the request step, or "" when none was. */
  function UrlOf(c: Client, id: string): string {
    if Granted(c, id) then GrantedUrl(c, id) else ""
  }

  /** Only the last exchange of the request step can grant a URL, and it does exactly
      when the step's reply was granted. */
  lemma {:induction false} RequestGrants(c: Client, id: string)
    ensures c.trace <= RequestUpload(c, id).next.trace
    ensures OnlyLastGrants(Added(c, RequestUpload(c, id).next), Granted(c, id), UrlOf(c, id))
  {
    RequestUploadTrace(c, id);
    var request := RequestUpload(c, id);
    var r := Added(c, request.next);
    forall i, url | 0 <= i < |r| && Is(r[i], UploadRequest) && Grants(r[i].response, url)
      ensures i == |r| - 1 && Granted(c, id) && url == GrantedUrl(c, id)
    {
      assert !Answered(r[i], 401);
      assert i != 1;
    }
  }

  lemma {:induction false} GateInside(x: seq<Exchange>, r: seq<Exchange>, s: seq<Exchange>,
                                      bundle: Bundle.Bundle, granted: bool, url: string)
    requires NoneTo(x, UploadRequest) && NoneTo(x, BlobPut) && NoneTo(r, BlobPut)
    requires OnlyLastGrants(r, granted, url)
    requires granted ==> PutsBundleFirst(s, bundle, url)
    requires !granted ==> s == []
    ensures BlobPutsGranted(x + r + s, bundle) && GrantsUsed(x + r + s)
  {
    var n := x + r + s;
    forall i | 0 <= i < |n| && Is(n[i], BlobPut)
      ensures 0 < i && Is(n[i - 1], UploadRequest) && Grants(n[i - 1].response, n[i].call.url)
      ensures Authorization !in n[i].call.headers && n[i].call.body == BundleBody(bundle)
    {
      if |x| + |r| <= i {
        assert i == |x| + |r| && n[i - 1] == r[|r| - 1];
      }
    }
    forall i, u | 0 <= i < |n| && Is(n[i], UploadRequest) && Grants(n[i].response, u)
      ensures i + 1 < |n| && Is(n[i + 1], BlobPut) && n[i + 1].call.url == u
    {
      assert n[i] == r[i - |x|];
      assert n[i + 1] == s[0];
    }
  }

  /** Lines 119-149: the bundle is PUT only to a blob URL granted by the reply to an
      upload request, right after it, without the Authorization header and holding the
      document's bundle; and every granted URL is used. */
  lemma {:induction false} BlobPutGate(c: Client, t: Bundle.Templates, a: UploadArgs)
    ensures c.trace <= UploadFile(c, t, a).next.trace
    ensures var n := Added(c, UploadFile(c, t, a).next);
      BlobPutsGranted(n, Bundle.MakeBundle(t, DocumentId(a), a.fileBytes)) && GrantsUsed(n)
  {
    UploadGrows(c, t, a);
    TokenPartKinds(c);
    var bundle := Bundle.MakeBundle(t, DocumentId(a), a.fileBytes);
    if !a.isFile {
    } else if AcquireUserToken(c).out != Returned(true) {
      StoppedAtToken(c, t, a);
      GateInside(Added(c, Held(c)), [], [], bundle, false, "");
    } else {
      var h, id := Held(c), DocumentId(a);
      var x, r, s := Parts(c, t, a);
      RequestKinds(h, id);
      RequestGrants(h, id);
      if Granted(h, id) {
        StorePart(c, t, a);
      }
      GateInside(x, r, s, bundle, Granted(h, id), UrlOf(h, id));
    }
  }

  /** Every rename in `n` is its last exchange and follows a bundle PUT answered 200; it
      goes to `url` with the body `body`, authorised with the user token `token`. */
  predicate RenamesFollowStoredBlob(n: seq<Exchange>, url: string, body: Json, token: string) {
    forall i | 0 <= i < |n| && Is(n[i], UpdateStatus) ::
      && i == |n| - 1 && 0 < i && Is(n[i - 1], BlobPut) && Answered(n[i - 1], 200)
      && n[i].call.url == url && n[i].call.body == JsonBody(body)
      && Authorization in n[i].call.headers && n[i].call.headers[Authorization] == Bearer(token)
  }

  /** Every bundle PUT in `n` answered 200 is followed by a rename. */
  predicate StoredBlobsRenamed(n: seq<Exchange>) {
    forall i | 0 <= i < |n| && Is(n[i], BlobPut) && Answered(n[i], 200) ::
      i + 1 < |n| && Is(n[i + 1], UpdateStatus)
  }

  lemma {:induction false} RenameInside(x: seq<Exchange>, r: seq<Exchange>, s: seq<Exchange>,
                                        url: string, body: Json, token: string)
    requires NoneTo(x, BlobPut) && NoneTo(x, UpdateStatus) && NoneTo(r, BlobPut) && NoneTo(r, UpdateStatus)
    requires s == [] || (
      && 1 <= |s| <= 2 && Is(s[0], BlobPut) && (|s| == 2 <==> Answered(s[0], 200))
      && (|s| == 2 ==> s[1].call == Call(UpdateStatus, url, s[1].call.headers, JsonBody(body))
                       && Authorization in s[1].call.headers && s[1].call.headers[Authorization] == Bearer(token)))
    ensures RenamesFollowStoredBlob(x + r + s, url, body, token) && StoredBlobsRenamed(x + r + s)
  {
    var n := x + r + s;
    forall i | 0 <= i < |n| && Is(n[i], UpdateStatus)
      ensures i == |n| - 1 && 0 < i && Is(n[i - 1], BlobPut) && Answered(n[i - 1], 200)
      ensures n[i].call.url == url && n[i].call.body == JsonBody(body)
      ensures Authorization in n[i].call.headers && n[i].call.headers[Authorization] == Bearer(token)
    {
      assert n[i] == s[i - |x| - |r|];
      assert n[i - 1] == s[0];
    }
    forall i | 0 <= i < |n| && Is(n[i], BlobPut) && Answered(n[i], 200)
      ensures i + 1 < |n| && Is(n[i + 1], UpdateStatus)
    {
      assert n[i] == s[i - |x| - |r|];
      assert n[i + 1] == s[1];
    }
  }

  /** The storing part of a granted upload ends with the rename exactly when the bundle
      PUT answered 200. */
  lemma StoreRenames(c: Client, t: Bundle.Templates, a: UploadArgs)
    requires a.isFile && AcquireUserToken(c).out == Returned(true)
    requires Granted(Held(c), DocumentId(a))
    ensures Request(c, a).next.trace <= Store(c, t, a).next.trace
    ensures var s := Added(Request(c, a).next, Store(c, t, a).next);
      && 1 <= |s| <= 2 && Is(s[0], BlobPut) && (|s| == 2 <==> Answered(s[0], 200))
      && (|s| == 2 ==> s[1].call == Call(UpdateStatus, BaseUrl(c.storageServer) + "/" + UpdateStatusPath, s[1].call.headers,
                                         JsonBody(RenameBody(DocumentId(a), VisibleName(a))))
                       && Authorization in s[1].call.headers
                       && s[1].call.headers[Authorization] == Bearer(Render(UploadFile(c, t, a).next.userToken)))
  {
    var h, id := Held(c), DocumentId(a);
    TokenGrows(c);
    RequestGrows(h, id);
    UploadWithGrant(c, t, a);
    StoreGrows(Cleared(h, id), t, a, id, JStr(GrantedUrl(h, id)));
    StoreKinds(Cleared(h, id), t, a, id, GrantedUrl(h, id));
  }

  /** Lines 155-161: the document is renamed only after its bundle PUT answered 200, as the
      last call of the upload, with its id and visible name, authorised with the user
      token; and every bundle PUT answered 200 is followed by the rename. */
  lemma {:induction false} RenameAfterStoredBlob(c: Client, t: Bundle.Templates, a: UploadArgs)
    ensures c.trace <= UploadFile(c, t, a).next.trace
    ensures var n := Added(c, UploadFile(c, t, a).next);
      && RenamesFollowStoredBlob(n, BaseUrl(c.storageServer) + "/" + UpdateStatusPath,
                                 RenameBody(DocumentId(a), VisibleName(a)), Render(UploadFile(c, t, a).next.userToken))
      && StoredBlobsRenamed(n)
  {
    UploadGrows(c, t, a);
    TokenPartKinds(c);
    var url := BaseUrl(c.storageServer) + "/" + UpdateStatusPath;
    var body := RenameBody(DocumentId(a), VisibleName(a));
    var token := Render(UploadFile(c, t, a).next.userToken);
    if !a.isFile {
    } else if AcquireUserToken(c).out != Returned(true) {
      StoppedAtToken(c, t, a);
      RenameInside(Added(c, Held(c)), [], [], url, body, token);
    } else {
      var x, r, s := Parts(c, t, a);
      RequestKinds(Held(c), DocumentId(a));
      if Granted(Held(c), DocumentId(a)) {
        StoreRenames(c, t, a);
      }
      RenameInside(x, r, s, url, body, token);
    }
  }

  /** Lines 97-163: `upload_file` returns False exactly when the path is not a file or the
      one token exchange it needed was answered with a status other than 200; a returned
      id is the document id, returned with Authorization cleared from the headers. */
  lemma {:induction false} UploadOutcome(c: Client, t: Bundle.Templates, a: UploadArgs)
    ensures c.trace <= UploadFile(c, t, a).next.trace && SameSettings(c, UploadFile(c, t, a).next)
    ensures !a.isFile ==> UploadFile(c, t, a) == Step(Returned(ReturnedFalse), c)
    ensures var u := UploadFile(c, t, a);
      var n := Added(c, u.next);
      u.out == Returned(ReturnedFalse) <==>
        !a.isFile || (|n| == 1 && Is(n[0], TokenExchange) && n[0].response.Reply? && n[0].response.status != 200)
    ensures var u := UploadFile(c, t, a);
      u.out.Returned? && u.out.value.ReturnedUuid? ==>
        u.out.value.uuid == DocumentId(a) && Authorization !in u.next.headers
  {
    UploadGrows(c, t, a);
    TokenTrace(c);
    if a.isFile {
      if AcquireUserToken(c).out != Returned(true) {
        StoppedAtToken(c, t, a);
      } else {
        var x, r, s := Parts(c, t, a);
        PastToken(c, t, a);
        AfterTokenOutcome(Held(c), t, a, DocumentId(a));
        RequestKinds(Held(c), DocumentId(a));
        assert Added(c, UploadFile(c, t, a).next)[|x|] == r[0];
      }
    }
  }

  /** With a user token held the first call of an upload is the upload request carrying it. */
  lemma FirstCallWithToken(c: Client, t: Bundle.Templates, a: UploadArgs)
    requires a.isFile && Present(c.userToken)
    ensures c.trace <= UploadFile(c, t, a).next.trace
    ensures var n := Added(c, UploadFile(c, t, a).next);
      && 1 <= |n|
      && n[0].call == Call(UploadRequest, BaseUrl(c.storageServer) + "/" + UploadRequestPath,
                           c.headers[Authorization := Bearer(c.userToken.value)],
                           JsonBody(UploadRequestBody(DocumentId(a))))
  {
    var x, r, s := Parts(c, t, a);
    RequestKinds(c, DocumentId(a));
    assert Added(c, UploadFile(c, t, a).next)[0] == r[0];
  }

  /** Without a user token the first call of an upload is the token exchange, and the
      upload request follows it, with the new token, exactly when it answered 200. */
  lemma FirstCallWithoutToken(c: Client, t: Bundle.Templates, a: UploadArgs)
    requires a.isFile && !Present(c.userToken)
    ensures c.trace <= UploadFile(c, t, a).next.trace
    ensures var n := Added(c, UploadFile(c, t, a).next);
      && 1 <= |n|
      && n[0].call == Call(TokenExchange, BaseUrl(c.webappServer) + "/" + NewUserTokenPath,
                           DeviceHeaders(c.deviceToken), NoBody)
      && (!Answered(n[0], 200) ==> |n| == 1)
      && (Answered(n[0], 200) ==> 2 <= |n| && n[1].call == Call(UploadRequest,
            BaseUrl(c.storageServer) + "/" + UploadRequestPath,
            DeviceHeaders(c.deviceToken)[Authorization := Bearer(n[0].response.text)],
            JsonBody(UploadRequestBody(DocumentId(a)))))
  {
    TokenTrace(c);
    if AcquireUserToken(c).out != Returned(true) {
      StoppedAtToken(c, t, a);
    } else {
      var x, r, s := Parts(c, t, a);
      RequestKinds(Held(c), DocumentId(a));
      assert Added(c, UploadFile(c, t, a).next)[1] == r[0];
    }
  }

  /** Lines 106-113: the device token is exchanged only when no user token is held. */
  lemma TokenExchangeOnlyWhenNeeded(c: Client, t: Bundle.Templates, a: UploadArgs)
    requires a.isFile
    ensures c.trace <= UploadFile(c, t, a).next.trace
    ensures var n := Added(c, UploadFile(c, t, a).next);
      1 <= |n| && (Is(n[0], TokenExchange) <==> !Present(c.userToken))
  {
    if Present(c.userToken) {
      FirstCallWithToken(c, t, a);
    } else {
      FirstCallWithoutToken(c, t, a);
    }
  }

  /** Lines 165-168: `set_name_for_uuid` ignores its version argument and always sends
      version 1. */
  lemma VersionIgnored(c: Client, id: string, visibleName: string, v1: int, v2: int)
    ensures SetNameForUuid(c, id, visibleName, v1) == SetNameForUuid(c, id, visibleName, v2)
  {
  }
}
