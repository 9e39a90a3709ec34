/** `ReMarkableCloud` as a class whose methods change its fields and its session's
    header map in place, each proved to take the state exactly as the matching
    function of `Protocol` says.

    "Lines" in the comments below are lines of `remarkable2cloud/remarkablecloud.py`. */
module Cloud {
  import opened Python
  import opened Json
  import Bundle
  import P = Protocol

  /** The HTTP session: a mutable header map in front of a scripted network. */
  class HttpSession {
    var headers: P.Headers
    var trace: seq<P.Exchange>
    var script: seq<P.Response>

    constructor (headers: P.Headers, script: seq<P.Response>)
      ensures this.headers == headers && trace == [] && this.script == script
    {
      this.headers := headers;
      this.trace := [];
      this.script := script;
    }

    /** Sends one request carrying the current headers and returns the next scripted
        response (a `Fault` once the script is used up). */
    method Request(endpoint: P.Endpoint, url: string, body: P.Payload) returns (response: P.Response)
      modifies this
      ensures response == P.Next(old(script))
      ensures trace == old(trace) + [P.Exchange(P.Call(endpoint, url, headers, body), response)]
      ensures script == P.Rest(old(script)) && headers == old(headers)
    {
      response := P.Next(script);
      trace := trace + [P.Exchange(P.Call(endpoint, url, headers, body), response)];
      script := P.Rest(script);
    }
  }

  class ReMarkableCloud {
    var deviceToken: string
    var userToken: Option<string>
    var storageServer: string
    var webappServer: string
    const session: HttpSession

    /** The client's state as the protocol functions see it. */
    function State(): P.Client
      reads this, session
    {
      P.Client(deviceToken, storageServer, webappServer, userToken, session.headers, session.trace, session.script)
    }

    /** A client on the production servers whose session starts with the given
        browser-like headers and talks to the given scripted network. */
    constructor (deviceToken: string, userToken: Option<string>, basicHeaders: P.Headers, script: seq<P.Response>)
      ensures State() == P.Client(deviceToken, P.DocumentStorageHost, P.WebappHost, userToken, basicHeaders, [], script)
      ensures fresh(session)
    {
      this.deviceToken := deviceToken;
      this.userToken := userToken;
      this.storageServer := P.DocumentStorageHost;
      this.webappServer := P.WebappHost;
      this.session := new HttpSession(basicHeaders, script);
    }

    method SetStorageServer(server: string)
      modifies this
      ensures State() == old(State()).(storageServer := server)
    {
      storageServer := server;
    }

    method SetWebappServer(server: string)
      modifies this
      ensures State() == old(State()).(webappServer := server)
    {
      webappServer := server;
    }

    function StorageBaseUrl(): string
      reads this
    {
      P.BaseUrl(storageServer)
    }

    function WebappBaseUrl(): string
      reads this
    {
      P.BaseUrl(webappServer)
    }

    method ObtainUserToken() returns (obtained: Outcome<bool>)
      modifies this, session
      ensures P.Step(obtained, State()) == P.ObtainUserToken(old(State()))
    {
      session.headers := P.DeviceHeaders(deviceToken);
      var response := session.Request(P.TokenExchange, WebappBaseUrl() + "/" + P.NewUserTokenPath, P.NoBody);
      if response.Fault? {
        return Raised(ConnectionError);
      }
      if response.status == 200 {
        userToken := Some(response.text);
        obtained := Returned(true);
      } else {
        obtained := Returned(false);
      }
    }

    method DelAuthorizationHeader() returns (removed: bool)
      modifies session
      ensures removed == (P.Authorization in old(session.headers))
      ensures session.headers == old(session.headers) - {P.Authorization}
      ensures P.Step(Returned(removed), State()) == P.DelAuthorizationHeader(old(State()))
    {
      if P.Authorization in session.headers {
        session.headers := session.headers - {P.Authorization};
        return true;
      }
      return false;
    }

    method SetDeviceTokenHeader()
      modifies session
      ensures session.headers == old(session.headers)[P.Authorization := P.Bearer(deviceToken)]
      ensures State() == P.SetDeviceTokenHeader(old(State()))
    {
      session.headers := session.headers[P.Authorization := P.Bearer(deviceToken)];
    }

    method SetUserTokenHeader()
      modifies session
      ensures session.headers == old(session.headers)[P.Authorization := P.Bearer(P.Render(userToken))]
      ensures State() == P.SetUserTokenHeader(old(State()))
    {
      session.headers := session.headers[P.Authorization := P.Bearer(P.Render(userToken))];
    }

    method SetNameForUuid(uuid: string, visibleName: string, version: int) returns (r: Outcome<()>)
      modifies session
      ensures P.Step(r, State()) == P.SetNameForUuid(old(State()), uuid, visibleName, version)
    {
      SetUserTokenHeader();
      var url := StorageBaseUrl() + "/" + P.UpdateStatusPath;
      var data := P.RenameBody(uuid, visibleName);
      var setNameRequest := session.Request(P.UpdateStatus, url, P.JsonBody(data));
      if setNameRequest.Fault? {
        return Raised(ConnectionError);
      }
      var _ := DelAuthorizationHeader();
      r := Returned(());
    }

    /** Lines 106-108 of `upload_file`: exchange the device token only when no user
        token is held. */
    method AcquireUserToken() returns (obtained: Outcome<bool>)
      modifies this, session
      ensures P.Step(obtained, State()) == P.AcquireUserToken(old(State()))
    {
      obtained := Returned(true);
      if !Present(userToken) {
        obtained := ObtainUserToken();
      }
    }

    /** Lines 109-118 of `upload_file`: the upload-request PUT with its one retry. */
    method RequestUpload(fileUuid: string) returns (uploadRequest: Outcome<P.Response>)
      modifies this, session
      ensures P.Step(uploadRequest, State()) == P.RequestUpload(old(State()), fileUuid)
    {
      var url := StorageBaseUrl() + "/" + P.UploadRequestPath;
      var data := P.UploadRequestBody(fileUuid);
      SetUserTokenHeader();
      var response := session.Request(P.UploadRequest, url, P.JsonBody(data));
      if response.Fault? {
        return Raised(ConnectionError);
      }
      // One retry when the user token is refused.
      if response.status == 401 {
        var obtained := ObtainUserToken();
        if obtained.Raised? {
          return Raised(obtained.error);
        }
        if obtained.value {
          response := session.Request(P.UploadRequest, url, P.JsonBody(data));
          if response.Fault? {
            return Raised(ConnectionError);
          }
        }
      }
      return Returned(response);
    }

    /** Lines 130-161 of `upload_file`, entered with a truthy blob URL: PUT the bundle,
        and name the document when that PUT answers 200. */
    method StoreBlob(t: Bundle.Templates, a: P.UploadArgs, fileUuid: string, blobUrl: Json) returns (r: Outcome<()>)
      modifies session
      ensures P.Step(r, State()) == P.StoreBlob(old(State()), t, a, fileUuid, blobUrl)
    {
      if !blobUrl.JStr? {
        return Raised(MissingSchema);
      }
      var files := Bundle.MakeBundle(t, fileUuid, a.fileBytes);
      var blobPut := session.Request(P.BlobPut, blobUrl.s, P.BundleBody(files));
      if blobPut.Fault? {
        return Raised(ConnectionError);
      }
      if blobPut.status == 200 {
        r := SetNameForUuid(fileUuid, P.VisibleName(a), 1);
      } else {
        r := Returned(());
      }
    }

    /** Lines 119-127 of `upload_file`: decode a 200 reply, let a one-element list stand
        for its element, and take `BlobURLPut` when `Success` is there and true. */
    method ReadBlobUrl(uploadRequest: P.Response) returns (blobUrl: Outcome<Json>)
      requires uploadRequest.Reply?
      ensures blobUrl == P.ExtractBlobUrl(uploadRequest)
    {
      blobUrl := Returned(JNull);
      if uploadRequest.status == 200 {
        if uploadRequest.json.None? {
          return Raised(JsonDecodeError);
        }
        var response := uploadRequest.json.value;
        if response.JArr? && |response.items| == 1 {
          response := response.items[0];
        }
        var hasSuccess := Contains(response, "Success");
        if hasSuccess.Raised? {
          return Raised(hasSuccess.error);
        }
        if hasSuccess.value {
          var success := Subscript(response, "Success");
          if success.Raised? {
            return Raised(success.error);
          }
          if Truthy(success.value) && Contains(response, "BlobURLPut") == Returned(true) {
            blobUrl := Subscript(response, "BlobURLPut");
          }
        }
      }
    }

    method UploadFile(t: Bundle.Templates, a: P.UploadArgs) returns (r: Outcome<P.UploadReturn>)
      modifies this, session
      ensures P.Step(r, State()) == P.UploadFile(old(State()), t, a)
    {
      if !a.isFile {
        return Returned(P.ReturnedFalse);
      }
      var fileUuid := if Present(a.fileUuid) then a.fileUuid.value else a.freshUuid;
      var obtained := AcquireUserToken();
      if obtained.Raised? {
        return Raised(obtained.error);
      }
      if !obtained.value {
        return Returned(P.ReturnedFalse);
      }
      ghost var acquired := State();
      assert P.UploadFile(old(State()), t, a) == P.AfterToken(acquired, t, a, fileUuid);

      var requested := RequestUpload(fileUuid);
      if requested.Raised? {
        return Raised(requested.error);
      }
      var uploadRequest := requested.value;
      ghost var replied := State();
      assert P.AfterToken(acquired, t, a, fileUuid) == P.ProcessReply(replied, t, a, fileUuid, uploadRequest);
      r := ProcessReply(t, a, fileUuid, uploadRequest);
    }

    /** Lines 119-163 of `upload_file`, given the last reply to the upload request: read
        the blob URL, clear Authorization, store the blob when there is a URL, clear
        Authorization again and return the id. */
    method ProcessReply(t: Bundle.Templates, a: P.UploadArgs, fileUuid: string, uploadRequest: P.Response)
      returns (r: Outcome<P.UploadReturn>)
      requires uploadRequest.Reply?
      modifies session
      ensures P.Step(r, State()) == P.ProcessReply(old(State()), t, a, fileUuid, uploadRequest)
    {
      var extracted := ReadBlobUrl(uploadRequest);
      if extracted.Raised? {
        return Raised(extracted.error);
      }
      var blobUrl := extracted.value;
      var _ := DelAuthorizationHeader();
      ghost var cleared := State();
      if Truthy(blobUrl) {
        var stored := StoreBlob(t, a, fileUuid, blobUrl);
        if stored.Raised? {
          return Raised(stored.error);
        }
      }
      assert P.Conclude(cleared, t, a, fileUuid, blobUrl) == P.Step(Returned(P.ReturnedUuid(fileUuid)), P.DelAuthorizationHeader(State()).next);
      var _ := DelAuthorizationHeader();
      return Returned(P.ReturnedUuid(fileUuid));
    }
  }
}
