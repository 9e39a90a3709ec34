/** The upload protocol of the cloud client as a pure state machine.

    A `Client` value holds everything `ReMarkableCloud` reads or writes: its
    device and user tokens, the two server names, the session's header map, and
    a scripted network. Each network call appends the request it made, with the
    headers it carried, and the response it got to `trace`, consuming the next
    entry of `script`; an exhausted script or a scripted `Fault` stands for an
    exception of the transport, which nothing in the client catches.

    "Lines" in the comments below are lines of `remarkable2cloud/remarkablecloud.py`. */
module Protocol {
  import opened Python
  import opened Json
  import Text
  import Bundle

  type Headers = map<string, string>

  const Schema := "https"
  const DocumentStorageHost := "document-storage-production-dot-remarkable-production.appspot.com"
  const WebappHost := "webapp-production-dot-remarkable-production.appspot.com"
  const UpdateStatusPath := "document-storage/json/2/upload/update-status"
  const UploadRequestPath := "document-storage/json/2/upload/request"
  const NewUserTokenPath := "token/json/2/user/new"
  const Authorization := "Authorization"

  /** The bearer credential form of section 2.1 of RFC 6750. */
  function Bearer(token: string): string {
    "Bearer " + token
  }

  /** How an f-string prints the optional user token: None prints as "None". */
  function Render(token: Option<string>): string {
    match token
    case None => "None"
    case Some(s) => s
  }

  /** The header map that replaces the session's headers before a token exchange. */
  function DeviceHeaders(deviceToken: string): (h: Headers)
    ensures h.Keys == {"Accept", "Accept-encoding", "Accept-language", Authorization}
    ensures h[Authorization] == Bearer(deviceToken)
  {
    map[
      "Accept" := "*/*",
      "Accept-encoding" := "gzip, deflate, br",
      "Accept-language" := "en-GB,en;q=0.9,es-ES;q=0.8,es;q=0.7,en-US;q=0.6",
      Authorization := Bearer(deviceToken)
    ]
  }

  /** `schema://server`, the base of every URL on a server. */
  function BaseUrl(server: string): (url: string)
    ensures |url| == |Schema| + 3 + |server|
    ensures url[..|Schema| + 3] == "https://" && url[|Schema| + 3..] == server
  {
    Schema + "://" + server
  }

  datatype Endpoint = TokenExchange | UploadRequest | BlobPut | UpdateStatus

  datatype Payload = NoBody | JsonBody(json: Json) | BundleBody(entries: Bundle.Bundle)

  /** A request as it left the session, with the headers the session held. */
  datatype Call = Call(endpoint: Endpoint, url: string, headers: Headers, body: Payload)

  /** What the network answered: a status, the body text and the body decoded as
      JSON (None when it is not JSON), or a transport failure. */
  datatype Response = Reply(status: int, text: string, json: Option<Json>) | Fault

  datatype Exchange = Exchange(call: Call, response: Response)

  datatype Client = Client(
    deviceToken: string,
    storageServer: string,
    webappServer: string,
    userToken: Option<string>,
    headers: Headers,
    trace: seq<Exchange>,
    script: seq<Response>)

  /** The result of one operation and the client state after it. */
  datatype Step<+T> = Step(out: Outcome<T>, next: Client)

  /** The fields that no network call and no header change touches. */
  predicate SameSettings(c: Client, d: Client) {
    d.deviceToken == c.deviceToken && d.storageServer == c.storageServer && d.webappServer == c.webappServer
  }

  function Next(script: seq<Response>): Response {
    if script == [] then Fault else script[0]
  }

  function Rest(script: seq<Response>): seq<Response> {
    if script == [] then [] else script[1..]
  }

  /** One call through the session: it carries the current headers, records the
      exchange and yields the reply, or raises when the transport fails. */
  function Send(c: Client, endpoint: Endpoint, url: string, body: Payload): (r: Step<Response>)
    ensures r.next == c.(trace := c.trace + [Exchange(Call(endpoint, url, c.headers, body), Next(c.script))],
                         script := Rest(c.script))
    ensures r.out.Raised? <==> Next(c.script).Fault?
    ensures r.out.Raised? ==> r.out.error == ConnectionError
    ensures r.out.Returned? ==> r.out.value == Next(c.script) && r.out.value.Reply?
  {
    var response := Next(c.script);
    var d := c.(trace := c.trace + [Exchange(Call(endpoint, url, c.headers, body), response)],
                script := Rest(c.script));
    if response.Fault? then Step(Raised(ConnectionError), d) else Step(Returned(response), d)
  }

  /** `obtain_user_token`: replace the whole header map by one that authorises with
      the device token, POST to the token endpoint, and keep the body of a 200
      answer as the user token. */
  function ObtainUserToken(c: Client): (r: Step<bool>)
    ensures SameSettings(c, r.next) && r.next.headers == DeviceHeaders(c.deviceToken)
    ensures r.next.trace == c.trace + [Exchange(
      Call(TokenExchange, BaseUrl(c.webappServer) + "/" + NewUserTokenPath, DeviceHeaders(c.deviceToken), NoBody),
      Next(c.script))]
    ensures r.next.script == Rest(c.script)
    ensures r.out == Returned(true) <==> Next(c.script).Reply? && Next(c.script).status == 200
    ensures r.out.Raised? <==> Next(c.script).Fault?
    ensures r.out == Returned(true) ==> r.next.userToken == Some(Next(c.script).text)
    ensures r.out != Returned(true) ==> r.next.userToken == c.userToken
  {
    var c1 := c.(headers := DeviceHeaders(c.deviceToken));
    var sent := Send(c1, TokenExchange, BaseUrl(c.webappServer) + "/" + NewUserTokenPath, NoBody);
    if sent.out.Raised? then Step(Raised(sent.out.error), sent.next)
    else if sent.out.value.status == 200 then
      Step(Returned(true), sent.next.(userToken := Some(sent.out.value.text)))
    else Step(Returned(false), sent.next)
  }

  /** `del_authorization_header`: removes the Authorization key, and only it, and
      reports whether it was there. */
  function DelAuthorizationHeader(c: Client): (r: Step<bool>)
    ensures r.out == Returned(Authorization in c.headers)
    ensures Authorization !in r.next.headers
    ensures forall k :: k != Authorization ==>
      (k in r.next.headers <==> k in c.headers) && (k in c.headers ==> r.next.headers[k] == c.headers[k])
    ensures r.next == c.(headers := r.next.headers)
  {
    if Authorization in c.headers then Step(Returned(true), c.(headers := c.headers - {Authorization}))
    else Step(Returned(false), c)
  }

  /** `set_device_token_header`: Authorization becomes the device bearer token; other keys stay. */
  function SetDeviceTokenHeader(c: Client): (d: Client)
    ensures d.headers.Keys == c.headers.Keys + {Authorization}
    ensures d.headers[Authorization] == Bearer(c.deviceToken)
    ensures forall k :: k in c.headers && k != Authorization ==> d.headers[k] == c.headers[k]
    ensures d == c.(headers := d.headers)
  {
    c.(headers := c.headers[Authorization := Bearer(c.deviceToken)])
  }

  /** `set_user_token_header`: Authorization becomes the user bearer token (an absent
      token prints as "None"); other keys stay. */
  function SetUserTokenHeader(c: Client): (d: Client)
    ensures d.headers.Keys == c.headers.Keys + {Authorization}
    ensures d.headers[Authorization] == Bearer(Render(c.userToken))
    ensures Present(c.userToken) ==> d.headers[Authorization] == Bearer(c.userToken.value)
    ensures forall k :: k in c.headers && k != Authorization ==> d.headers[k] == c.headers[k]
    ensures d == c.(headers := d.headers)
  {
    c.(headers := c.headers[Authorization := Bearer(Render(c.userToken))])
  }

  /** The JSON array sent to reserve an upload slot: the id at version 1. */
  function UploadRequestBody(id: string): (j: Json)
    ensures j.JArr? && |j.items| == 1 && j.items[0].JObj?
    ensures var f := j.items[0].fields;
      f.Keys == {"ID", "Version"} && f["ID"] == JStr(id) && f["Version"] == JNum(1)
  {
    JArr([JObj(map["ID" := JStr(id), "Version" := JNum(1)])])
  }

  /** The JSON array sent to name a document; the key is spelled `VissibleName` and the
      version is always 1. */
  function RenameBody(id: string, visibleName: string): (j: Json)
    ensures j.JArr? && |j.items| == 1 && j.items[0].JObj?
    ensures var f := j.items[0].fields;
      f.Keys == {"ID", "Type", "Version", "VissibleName"} &&
      f["ID"] == JStr(id) && f["Type"] == JStr("DocumentType") && f["Version"] == JNum(1) &&
      f["VissibleName"] == JStr(visibleName)
  {
    JArr([JObj(map["ID" := JStr(id), "Type" := JStr("DocumentType"), "Version" := JNum(1),
                   "VissibleName" := JStr(visibleName)])])
  }

  /** `set_name_for_uuid`: with the user token as Authorization, PUT the rename body to
      the update-status endpoint, then remove Authorization. The status is not reported
      and `version` is not used. */
  function SetNameForUuid(c: Client, id: string, visibleName: string, version: int): (r: Step<()>)
    ensures SameSettings(c, r.next) && r.next.userToken == c.userToken
    ensures r.next.trace == c.trace + [Exchange(
      Call(UpdateStatus, BaseUrl(c.storageServer) + "/" + UpdateStatusPath,
           c.headers[Authorization := Bearer(Render(c.userToken))], JsonBody(RenameBody(id, visibleName))),
      Next(c.script))]
    ensures r.next.script == Rest(c.script)
    ensures r.out.Raised? <==> Next(c.script).Fault?
    ensures r.out.Returned? ==> r.next.headers == c.headers - {Authorization}
    ensures r.out.Raised? ==> r.next.headers == c.headers[Authorization := Bearer(Render(c.userToken))]
  {
    var c1 := SetUserTokenHeader(c);
    var sent := Send(c1, UpdateStatus, BaseUrl(c.storageServer) + "/" + UpdateStatusPath,
                     JsonBody(RenameBody(id, visibleName)));
    if sent.out.Raised? then Step(Raised(sent.out.error), sent.next)
    else Step(Returned(()), DelAuthorizationHeader(sent.next).next)
  }

  /** The arguments of `upload_file`, with the file system and `uuid4()` as inputs. */
  datatype UploadArgs = UploadArgs(
    filePath: string,
    isFile: bool,              // `isfile(file_path)`
    fileBytes: seq<byte>,      // what `open(file_path, 'rb')` reads
    fileUuid: Option<string>,
    overrideName: Option<string>,
    freshUuid: string)         // what `str(uuid4())` would give

  /** What `upload_file` returns: False or a document id. */
  datatype UploadReturn = ReturnedFalse | ReturnedUuid(uuid: string)

  /** The document id of an upload: the supplied one unless it is None or empty. */
  function DocumentId(a: UploadArgs): (id: string)
    ensures Present(a.fileUuid) ==> id == a.fileUuid.value
    ensures !Present(a.fileUuid) ==> id == a.freshUuid
    ensures a.freshUuid != "" ==> id != ""
  {
    if Present(a.fileUuid) then a.fileUuid.value else a.freshUuid
  }

  /** The name given to the document: the override unless it is None or empty, else the
      file's base name. */
  function VisibleName(a: UploadArgs): (name: string)
    ensures Present(a.overrideName) ==> name == a.overrideName.value
    ensures !Present(a.overrideName) ==> name == Text.Basename(a.filePath) && '/' !in name
  {
    if Present(a.overrideName) then a.overrideName.value else Text.Basename(a.filePath)
  }

  /** Lines 106-108: a held user token is kept and nothing is sent; otherwise exactly one
      token exchange is made with the device-token headers, and only its 200 answer
      yields a user token (its body). */
  function AcquireUserToken(c: Client): (r: Step<bool>)
    ensures c.trace <= r.next.trace && SameSettings(c, r.next)
    ensures Present(c.userToken) ==> r == Step(Returned(true), c)
    ensures !Present(c.userToken) ==>
      && r.next.trace == c.trace + [Exchange(
           Call(TokenExchange, BaseUrl(c.webappServer) + "/" + NewUserTokenPath, DeviceHeaders(c.deviceToken), NoBody),
           Next(c.script))]
      && r.next.script == Rest(c.script)
      && r.next.headers == DeviceHeaders(c.deviceToken)
      && (r.out == Returned(true) <==> Next(c.script).Reply? && Next(c.script).status == 200)
      && (r.out.Raised? <==> Next(c.script).Fault?)
      && (r.out == Returned(true) ==> r.next.userToken == Some(Next(c.script).text))
      && (r.out != Returned(true) ==> r.next.userToken == c.userToken)
  {
    if Present(c.userToken) then Step(Returned(true), c) else ObtainUserToken(c)
  }

  /** Lines 109-118: PUT the upload request with the user token, and when it is refused
      with 401 and a fresh token exchange succeeds, PUT it once more with the headers
      that exchange left. Yields the last reply. */
  function RequestUpload(c: Client, id: string): (r: Step<Response>)
    ensures c.trace < r.next.trace && |r.next.trace| <= |c.trace| + 3
    ensures SameSettings(c, r.next)
    ensures r.out.Returned? ==> r.out.value.Reply?
    ensures r.next.userToken == c.userToken || |r.next.trace| >= |c.trace| + 2
  {
    var url := BaseUrl(c.storageServer) + "/" + UploadRequestPath;
    var body := JsonBody(UploadRequestBody(id));
    var first := Send(SetUserTokenHeader(c), UploadRequest, url, body);
    if first.out.Raised? || first.out.value.status != 401 then first
    else
      var renewed := ObtainUserToken(first.next);
      if renewed.out.Raised? then Step(Raised(renewed.out.error), renewed.next)
      else if renewed.out.value then Send(renewed.next, UploadRequest, url, body)
      else Step(first.out, renewed.next)
  }

  /** Lines 120-122: a one-element list stands for its element. */
  function Normalize(j: Json): (o: Json)
    ensures o == j || j == JArr([o])
    ensures j == JArr([o]) <==> j.JArr? && |j.items| == 1
  {
    if j.JArr? && |j.items| == 1 then j.items[0] else j
  }

  /** The reply object says `Success` is true and carries a truthy `BlobURLPut`. */
  predicate OffersBlobUrl(o: Json) {
    o.JObj? && "Success" in o.fields && Truthy(o.fields["Success"])
    && "BlobURLPut" in o.fields && Truthy(o.fields["BlobURLPut"])
  }

  /** Lines 123-127 on a decoded body: the `BlobURLPut` value when `Success` is present
      and true; Python's `in` and `[]` raise on a value that is not a dict once the key
      test passes. */
  function BlobUrlField(j: Json): (r: Outcome<Json>)
    ensures (r.Returned? && Truthy(r.value)) <==> OffersBlobUrl(Normalize(j))
    ensures r.Returned? && Truthy(r.value) ==> r.value == Normalize(j).fields["BlobURLPut"]
    ensures r.Raised? ==> r.error == TypeError
    ensures r.Raised? <==> !Normalize(j).JObj? && Contains(Normalize(j), "Success") != Returned(false)
  {
    var o := Normalize(j);
    var hasSuccess :- Contains(o, "Success");
    if !hasSuccess then Returned(JNull)
    else
      var success :- Subscript(o, "Success");
      if !Truthy(success) then Returned(JNull)
      else if Contains(o, "BlobURLPut") != Returned(true) then Returned(JNull)
      else Subscript(o, "BlobURLPut")
  }

  /** Lines 119-127: only a 200 reply is decoded; a body that is not JSON raises. */
  function ExtractBlobUrl(reply: Response): (r: Outcome<Json>)
    requires reply.Reply?
    ensures reply.status != 200 ==> r == Returned(JNull)
    ensures reply.status == 200 && reply.json.None? ==> r == Raised(JsonDecodeError)
    ensures reply.status == 200 && reply.json.Some? ==> r == BlobUrlField(reply.json.value)
    ensures (r.Returned? && Truthy(r.value)) <==>
      reply.status == 200 && reply.json.Some? && OffersBlobUrl(Normalize(reply.json.value))
    ensures r.Returned? && Truthy(r.value) ==> r.value == Normalize(reply.json.value).fields["BlobURLPut"]
  {
    if reply.status != 200 then Returned(JNull)
    else if reply.json.None? then Raised(JsonDecodeError)
    else BlobUrlField(reply.json.value)
  }

  /** Lines 130-161, entered with a truthy blob URL: PUT the bundle to it, and when that
      answers 200 name the document. A URL that is not a string is refused by the
      transport before anything is sent. */
  function StoreBlob(c: Client, t: Bundle.Templates, a: UploadArgs, id: string, blobUrl: Json): (r: Step<()>)
    ensures c.trace <= r.next.trace && SameSettings(c, r.next) && r.next.userToken == c.userToken
    ensures !blobUrl.JStr? ==> r == Step(Raised(MissingSchema), c)
    ensures blobUrl.JStr? ==> |c.trace| + 1 <= |r.next.trace| <= |c.trace| + 2
    ensures r.out.Returned? && |r.next.trace| == |c.trace| + 2 ==> Authorization !in r.next.headers
  {
    if !blobUrl.JStr? then Step(Raised(MissingSchema), c)
    else
      var put := Send(c, BlobPut, blobUrl.s, BundleBody(Bundle.MakeBundle(t, id, a.fileBytes)));
      if put.out.Raised? then Step(Raised(put.out.error), put.next)
      else if put.out.value.status == 200 then SetNameForUuid(put.next, id, VisibleName(a), 1)
      else Step(Returned(()), put.next)
  }

  /** Lines 130-163, after the Authorization header was cleared: store the blob when a
      blob URL was obtained, clear Authorization again and return the id. */
  function Conclude(c: Client, t: Bundle.Templates, a: UploadArgs, id: string, blobUrl: Json): (r: Step<UploadReturn>)
    ensures c.trace <= r.next.trace && SameSettings(c, r.next)
    ensures r.out.Returned? ==> r.out.value == ReturnedUuid(id) && Authorization !in r.next.headers
    ensures !Truthy(blobUrl) ==> r == Step(Returned(ReturnedUuid(id)), c.(headers := c.headers - {Authorization}))
  {
    var stored := if Truthy(blobUrl) then StoreBlob(c, t, a, id, blobUrl) else Step(Returned(()), c);
    if stored.out.Raised? then Step(Raised(stored.out.error), stored.next)
    else Step(Returned(ReturnedUuid(id)), DelAuthorizationHeader(stored.next).next)
  }

  /** Lines 119-163, given the last reply to the upload request. */
  function ProcessReply(c: Client, t: Bundle.Templates, a: UploadArgs, id: string, reply: Response): (r: Step<UploadReturn>)
    requires reply.Reply?
    ensures c.trace <= r.next.trace && SameSettings(c, r.next)
    ensures r.out.Returned? ==> r.out.value == ReturnedUuid(id) && Authorization !in r.next.headers
    ensures reply.status != 200 ==> r == Step(Returned(ReturnedUuid(id)), c.(headers := c.headers - {Authorization}))
  {
    var blobUrl := ExtractBlobUrl(reply);
    if blobUrl.Raised? then Step(Raised(blobUrl.error), c)
    else Conclude(DelAuthorizationHeader(c).next, t, a, id, blobUrl.value)
  }

  /** Lines 113-163, once a user token is held. */
  function AfterToken(c: Client, t: Bundle.Templates, a: UploadArgs, id: string): (r: Step<UploadReturn>)
    ensures c.trace < r.next.trace && SameSettings(c, r.next)
    ensures r.out.Returned? ==> r.out.value == ReturnedUuid(id) && Authorization !in r.next.headers
  {
    var request := RequestUpload(c, id);
    if request.out.Raised? then Step(Raised(request.out.error), request.next)
    else ProcessReply(request.next, t, a, id, request.out.value)
  }

  /** `upload_file`: False for a path that is not a file or when the token exchange it
      needed failed; otherwise the document id, returned with Authorization cleared. */
  function UploadFile(c: Client, t: Bundle.Templates, a: UploadArgs): (r: Step<UploadReturn>)
    ensures c.trace <= r.next.trace && SameSettings(c, r.next)
    ensures !a.isFile ==> r == Step(Returned(ReturnedFalse), c)
    ensures a.isFile && r.out == Returned(ReturnedFalse) ==>
      !Present(c.userToken) && |r.next.trace| == |c.trace| + 1
    ensures r.out.Returned? && r.out.value.ReturnedUuid? ==>
      r.out.value.uuid == DocumentId(a) && Authorization !in r.next.headers
  {
    if !a.isFile then Step(Returned(ReturnedFalse), c)
    else
      var token := AcquireUserToken(c);
      if token.out.Raised? then Step(Raised(token.out.error), token.next)
      else if !token.out.value then Step(Returned(ReturnedFalse), token.next)
      else AfterToken(token.next, t, a, DocumentId(a))
  }
}
