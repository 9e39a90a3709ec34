# reMarkable cloud uploader: upload protocol and configuration

This project models the core of a small client that uploads a file to the reMarkable
cloud. It has two parts.

- `ReMarkableCloud` (`remarkable2cloud/remarkablecloud.py`). An HTTP session with a mutable
  header map, a long-lived device token and an optional short-lived user token. It handles:
  - the token exchange;
  - the upload-request PUT, with its single retry on 401;
  - the PUT of the document bundle to the blob URL the server grants;
  - the rename call that gives the document its visible name.
- `ReMarkableConfiguration` (`remarkable2cloud/remarkableconfig.py`). A YAML file that holds
  a device token for each device name. It handles:
  - scaffolding the file with a placeholder token when it is missing;
  - looking up the device token for a device name.

The model is organised in layers:

- `Protocol`, a pure state machine. Its `Client` record holds everything the client reads or
  writes:
  - the two tokens and the two server names;
  - the session headers;
  - a scripted network: `script` is the sequence of responses the network will give, and
    `trace` records every call made, with the headers it carried and the response it got.
  A `Fault`, or a call after the script runs out, stands for a transport exception. Python
  exceptions are `Outcome.Raised` values.
- `Cloud.ReMarkableCloud`, an imperative class with the same fields. Each of its methods
  updates the fields and the session's header map in place, and is proved to reach exactly
  the state the matching `Protocol` function gives.
- `ProtocolProperties`, lemmas about every call sequence `upload_file` can produce:
  - how the retry goes;
  - the gate on the blob PUT;
  - when the rename happens;
  - what the upload returns.
- `Configuration`:
  - the token lookups, as functions over the decoded file;
  - `ReMarkableConfiguration`, a class over the file-system state (the file exists, the
    directory exists, the decoded contents).
- Helper modules:
  - `Json`: decoded values, truthiness, and Python's `in` and `[]`;
  - `Text`: `str.replace` and `os.path.basename`;
  - `Bundle`: the three-entry document bundle.

The model follows the code as written, including these behaviours:

- After a 401, `obtain_user_token` replaces the whole header map with device-token headers.
  As a result, the retried upload-request PUT is authorised with the device token, not the
  new user token.
- `upload_file` returns the document id even when no blob URL was granted.
- The rename body spells its key `VissibleName`, and the `version` argument is not used.
- A failed token exchange leaves the device-token Authorization header set.
- `get_user_token` reads the `device_token` field and does not check for the placeholder.
- Only the three entry names have the document id substituted; the content-descriptor body
  (`basic_file_ext_content`) is shipped as it is.

Some failures of the upload reply raise rather than give a result:

- A 200 reply whose body is not JSON raises `JSONDecodeError`; it is not turned into False.
- A reply that is not a dict but holds `Success` (a list of several elements holding the
  string, or a string containing it) raises `TypeError` at the subscript.
- A 200 reply whose body is a list or string without `Success` (`[]`, `"ok"`, `[1, 2]`)
  gives no blob URL and raises nothing, so the document id is returned.

## Model

| member | source | states |
|---|---|---|
| Protocol.DeviceHeaders | remarkable2cloud/remarkablecloud.py:70-75 | The token-exchange header map has exactly the keys Accept, Accept-encoding, Accept-language and Authorization, and its Authorization is the device token as a bearer credential. |
| Protocol.BaseUrl | remarkable2cloud/remarkablecloud.py:53-67 | A base URL is `https://` followed by the server name, with nothing else added. |
| Protocol.ObtainUserToken | remarkable2cloud/remarkablecloud.py:69-83 | The headers become the device headers. Exactly one token-exchange POST is recorded, carrying those headers. The result is True exactly when the answer is 200, and then the user token becomes the answer's body; otherwise the token is unchanged. A transport fault raises. |
| Protocol.DelAuthorizationHeader | remarkable2cloud/remarkablecloud.py:85-89 | Authorization is removed and nothing else changes. The result says whether Authorization was present. |
| Protocol.SetDeviceTokenHeader | remarkable2cloud/remarkablecloud.py:91-92 | Authorization is added or overwritten with the device bearer token; every other header and field is kept. |
| Protocol.SetUserTokenHeader | remarkable2cloud/remarkablecloud.py:94-95 | Authorization becomes the user bearer token, and an absent token prints as "None"; every other header and field is kept. |
| Protocol.RenameBody | remarkable2cloud/remarkablecloud.py:168 | The rename body is a one-element array. Its object has exactly the keys ID, Type, Version and VissibleName: the id, `DocumentType`, always 1, and the name given. |
| Protocol.SetNameForUuid | remarkable2cloud/remarkablecloud.py:165-173 | Exactly one update-status PUT is recorded, using up one scripted reply. It carries the rename body and the current headers with the user bearer token. Afterwards the headers are the old ones without Authorization. If the transport raised, they are the old ones with the user bearer token set. Tokens and servers are unchanged. |
| Protocol.AcquireUserToken | remarkable2cloud/remarkablecloud.py:106-108 | A held, non-empty user token is kept and nothing is sent. Otherwise exactly one token exchange is recorded, using up one scripted reply and carrying the device headers, which stay set. The result is True exactly when it got 200, and then the user token becomes the reply's body; otherwise the token is unchanged. A transport fault raises. |
| ProtocolProperties.TokenTrace | remarkable2cloud/remarkablecloud.py:106-108 | The same promise, stated over the exchanges the token step adds to the trace. With a token held there are none. Otherwise there is one token exchange with the device headers, using up one scripted reply, answered 200 exactly when the step returns True. |
| Protocol.Send | remarkable2cloud/remarkablecloud.py:77 | One call through the session records exactly one exchange carrying the current headers and consumes one scripted response; it yields that reply, or raises ConnectionError exactly when the transport faults. |
| Protocol.Normalize | remarkable2cloud/remarkablecloud.py:120-122 | The decoded reply is kept as it is, except that a list of exactly one element is replaced by that element. |
| Protocol.BlobUrlField | remarkable2cloud/remarkablecloud.py:120-127 | A one-element list is unwrapped first. The result is a truthy URL exactly when the reply object has a truthy `Success` and a truthy `BlobURLPut`, and the URL is that field. It raises, always with TypeError, exactly when the value is not a dict but `'Success' in` it holds. A list or string without `Success` gives no URL and no exception. |
| Protocol.ExtractBlobUrl | remarkable2cloud/remarkablecloud.py:119-127 | A reply other than 200 yields no URL. A 200 reply whose body is not JSON raises JSONDecodeError. A truthy URL comes out exactly when the reply is 200, is JSON, and its (unwrapped) object has a truthy `Success` and a truthy `BlobURLPut`, and the URL is that field. |
| Protocol.RequestUpload | remarkable2cloud/remarkablecloud.py:109-118 | The request step adds one to three calls and keeps the servers and the device token. It yields a reply, never a fault, and it changes the user token only when it made a token exchange. |
| Protocol.StoreBlob | remarkable2cloud/remarkablecloud.py:130-161 | A URL that is not a string raises MissingSchema with nothing sent. Otherwise one or two calls are added and the user token is kept; when a second call (the rename) was made and nothing raised, Authorization is gone. |
| Protocol.ProcessReply | remarkable2cloud/remarkablecloud.py:119-163 | Handling the last reply returns only the document id, with Authorization cleared. A reply other than 200 sends nothing: the id is returned and only Authorization is removed. |
| Protocol.DocumentId | remarkable2cloud/remarkablecloud.py:101-102 | The caller's uuid is used when given, otherwise the freshly generated one; a non-empty generated uuid gives a non-empty id. |
| Protocol.VisibleName | remarkable2cloud/remarkablecloud.py:157-160 | The caller's name is used when given, otherwise the file's base name, which holds no '/'. |
| Protocol.UploadRequestBody | remarkable2cloud/remarkablecloud.py:105 | The upload request body is a one-element list of an object with exactly the keys `ID` (the document id) and `Version` (1). |
| Protocol.Conclude | remarkable2cloud/remarkablecloud.py:128-163 | After the reply is read, the step keeps the settings and only appends to the trace. A returned value is the document id, with Authorization cleared. A falsy blob URL sends nothing and only removes Authorization. |
| Protocol.AfterToken | remarkable2cloud/remarkablecloud.py:113-163 | Once a user token is held, at least one call is made, the settings are kept and a returned value is the document id with Authorization cleared. |
| Protocol.UploadFile | remarkable2cloud/remarkablecloud.py:97-163 | `upload_file` only appends to the trace and keeps the servers and the device token. A path that is not a file gives False with nothing changed. A False for an existing file comes only when no user token was held and exactly one call was made (the exchange; `ProtocolProperties.UploadOutcome` adds that it was answered with something other than 200). A returned id is the document id, with Authorization cleared. |
| Json.Contains | remarkable2cloud/remarkablecloud.py:123 | Python's `in`: key membership for a dict, element membership for a list, substring for a string, and TypeError for anything else. |
| Json.Subscript | remarkable2cloud/remarkableconfig.py:61 | Python's `[]`: only a dict holding the key yields a value, which is that key's value. A dict without the key raises KeyError; anything else raises TypeError. |
| Text.Basename | remarkable2cloud/remarkablecloud.py:160 | The base name is the longest suffix of the path that holds no '/'. |
| Text.ReplaceAll | remarkable2cloud/remarkablecloud.py:131-133 | `str.replace` leaves a string that does not contain the pattern unchanged. |
| Text.ReplaceAtLeftmost | remarkable2cloud/remarkablecloud.py:131-133 | `str.replace` on `pre + pat + post`, when no occurrence of the pattern starts inside `pre`, keeps `pre`, puts the replacement in place of that leftmost occurrence and goes on replacing in `post`. |
| Bundle.MakeBundle | remarkable2cloud/remarkablecloud.py:131-147 | The bundle has three entries in order: the descriptor body, an empty page-data entry, and the file's bytes unchanged. Each entry is named by its template with every `{{UUID}}` replaced by the document id. |
| Bundle.BundleLayout | remarkable2cloud/remarkablecloud.py:131-148 | Reading the bundle back: when the three names are pairwise distinct, each is found with its own content, and the document entry holds the file's bytes unchanged. |
| Bundle.SubstitutePlacesId | remarkable2cloud/remarkablecloud.py:131-133 | In a template `pre{{UUID}}post` with no earlier placeholder, the text before it is kept, the document id takes the placeholder's place and the rest is substituted in turn. |
| Cloud.ReMarkableCloud.constructor | remarkable2cloud/remarkablecloud.py:27-43 | A new client is on the production servers, has the given tokens and starting headers, and has an empty trace. |
| Cloud.ReMarkableCloud.SetStorageServer | remarkable2cloud/remarkablecloud.py:49-51 | The storage server becomes the given name, and nothing else changes. |
| Cloud.ReMarkableCloud.SetWebappServer | remarkable2cloud/remarkablecloud.py:61-63 | The webapp server becomes the given name, and nothing else changes. |
| Cloud.ReMarkableCloud.ObtainUserToken | remarkable2cloud/remarkablecloud.py:69-83 | The in-place token exchange reaches exactly the result and state of `Protocol.ObtainUserToken`. |
| Cloud.ReMarkableCloud.DelAuthorizationHeader | remarkable2cloud/remarkablecloud.py:85-89 | Deletes Authorization from the session's map, and reports whether it was there. |
| Cloud.ReMarkableCloud.SetDeviceTokenHeader | remarkable2cloud/remarkablecloud.py:91-92 | Sets the session's Authorization to the device bearer token in place. |
| Cloud.ReMarkableCloud.SetUserTokenHeader | remarkable2cloud/remarkablecloud.py:94-95 | Sets the session's Authorization to the user bearer token in place. |
| Cloud.ReMarkableCloud.SetNameForUuid | remarkable2cloud/remarkablecloud.py:165-173 | The rename reaches exactly the state of `Protocol.SetNameForUuid`. |
| Cloud.ReMarkableCloud.AcquireUserToken | remarkable2cloud/remarkablecloud.py:106-108 | The token step reaches exactly the state of `Protocol.AcquireUserToken`. |
| Cloud.ReMarkableCloud.RequestUpload | remarkable2cloud/remarkablecloud.py:109-118 | The upload request and its single retry reach exactly the state of `Protocol.RequestUpload`, whose call sequence `ProtocolProperties.RequestUploadTrace` states. |
| Cloud.ReMarkableCloud.ReadBlobUrl | remarkable2cloud/remarkablecloud.py:119-127 | Reading the reply gives exactly `Protocol.ExtractBlobUrl` of it. |
| Cloud.HttpSession.Request | remarkable2cloud/remarkablecloud.py:77 | Each `session.post`/`put` sends the session's current headers and appends exactly that call and its scripted reply to the trace; a used-up script answers with a fault. The headers are unchanged. |
| Cloud.ReMarkableCloud.StoreBlob | remarkable2cloud/remarkablecloud.py:130-161 | The bundle PUT and the rename reach exactly the state of `Protocol.StoreBlob`, whose call sequence `ProtocolProperties.StoreBlobTrace` states. |
| Cloud.ReMarkableCloud.ProcessReply | remarkable2cloud/remarkablecloud.py:119-163 | Handling the last upload-request reply reaches exactly the state of `Protocol.ProcessReply`. |
| Cloud.ReMarkableCloud.UploadFile | remarkable2cloud/remarkablecloud.py:97-163 | The whole upload, done in place, reaches exactly the result and state of `Protocol.UploadFile`, the function the `ProtocolProperties` lemmas are about. |
| ProtocolProperties.RequestUploadTrace | remarkable2cloud/remarkablecloud.py:109-118 | The request step makes one to three calls. First comes a PUT with the user bearer token. A token exchange follows exactly when that PUT got 401. A second PUT, with the device headers, follows exactly when the exchange got 200, and the user token is then that exchange's reply body; in every other case the user token is unchanged. The step yields the last PUT's reply, or the first reply when the exchange failed, and it raises exactly when the last call faulted. |
| ProtocolProperties.StoreBlobTrace | remarkable2cloud/remarkablecloud.py:130-161 | A URL that is not a string raises MissingSchema with no call. Otherwise the bundle is PUT to the URL with the current headers. A rename with the user bearer token follows exactly when that PUT got 200. After the rename, the headers are the old ones without Authorization. |
| ProtocolProperties.UploadRequestRetry | remarkable2cloud/remarkablecloud.py:113-118 | Over a whole upload, two upload requests come two calls apart, after a 401 and a token exchange answered 200. The second repeats the first with the device-token headers. There is never a third. |
| ProtocolProperties.BlobPutGate | remarkable2cloud/remarkablecloud.py:119-149 | Every bundle PUT comes right after an upload request whose reply granted that URL. It carries no Authorization header and holds the document's bundle. Every granted URL is used. |
| ProtocolProperties.RenameAfterStoredBlob | remarkable2cloud/remarkablecloud.py:155-161 | A rename is only ever the last call of the upload, right after a bundle PUT answered 200. It uses the update-status URL, the document's id and visible name, and the user bearer token. Every bundle PUT answered 200 is followed by a rename. |
| ProtocolProperties.UploadOutcome | remarkable2cloud/remarkablecloud.py:97-163 | The upload returns False exactly when the path is not a file, or when its only call was a token exchange answered with something other than 200. A returned id is the supplied or generated document id, and comes with Authorization cleared. Servers and the device token never change. |
| ProtocolProperties.FirstCallWithToken | remarkable2cloud/remarkablecloud.py:106-113 | With a user token held, the first call is the upload request, carrying that token. |
| ProtocolProperties.FirstCallWithoutToken | remarkable2cloud/remarkablecloud.py:106-113 | Without a user token, the first call is the token exchange with the device headers. The upload request follows, with the new token, exactly when the exchange got 200. |
| ProtocolProperties.TokenExchangeOnlyWhenNeeded | remarkable2cloud/remarkablecloud.py:106-108 | For an existing file, the first call is a token exchange if and only if no user token is held. |
| ProtocolProperties.VersionIgnored | remarkable2cloud/remarkablecloud.py:165-169 | The rename gives the same result and state whatever version is passed. |
| Configuration.DeviceName | remarkable2cloud/remarkableconfig.py:64-65 | A None or empty device name becomes `reMarkable2`; any other name is kept. |
| Configuration.TokenIn | remarkable2cloud/remarkableconfig.py:59-61 | The lookup succeeds exactly when each of `devices`, `device`, the device name and the token type is a key of a dict, and then yields the nested value. It raises KeyError exactly when the first level that fails is a dict without the next key, and TypeError otherwise. |
| Configuration.DeviceTokenIn | remarkable2cloud/remarkableconfig.py:63-74 | The stored device token is returned exactly when it exists and does not print with a leading '#'. A missing key (device or token) and a placeholder become ValueError, so a KeyError never escapes. TypeError propagates exactly when a level is not a dict. |
| Configuration.UserTokenIn | remarkable2cloud/remarkableconfig.py:76-79 | The lookup succeeds exactly when a `device_token` is stored and returns that stored value. It raises only KeyError or TypeError, KeyError exactly when a key is missing. It agrees with `DeviceTokenIn` when that returns, and can return a placeholder that `DeviceTokenIn` refuses. |
| Configuration.DefaultData | remarkable2cloud/remarkableconfig.py:34-44 | The default data holds only `devices`: `default` is `reMarkable2`, the only device is `reMarkable2`, its device token is the placeholder, and its last user token is empty. |
| Configuration.ReMarkableConfiguration.GetAToken | remarkable2cloud/remarkableconfig.py:59-61 | A missing file raises FileNotFoundError; otherwise the result is the nested lookup `TokenIn` of the stored contents. |
| Configuration.ReMarkableConfiguration.LoadConfig | remarkable2cloud/remarkableconfig.py:56-57 | Loading yields the stored contents exactly when the file exists, and raises FileNotFoundError otherwise. |
| Configuration.ReMarkableConfiguration.GetDeviceToken | remarkable2cloud/remarkableconfig.py:63-74 | A missing file raises FileNotFoundError; otherwise the result is `DeviceTokenIn` of the stored contents, and is never a KeyError. |
| Configuration.ReMarkableConfiguration.GetUserToken | remarkable2cloud/remarkableconfig.py:76-79 | A missing file raises FileNotFoundError; otherwise the result is `UserTokenIn` of the stored contents. |
| Configuration.ReMarkableConfiguration.GenerateBasicConfig | remarkable2cloud/remarkableconfig.py:33-54 | With a file present it returns False and changes nothing. Otherwise the directory and the file exist afterwards, the file holds the default data, and it returns None. |
| Configuration.ReMarkableConfiguration.Init | remarkable2cloud/remarkableconfig.py:9-20 | With a file present nothing changes. Without one it creates the directory and the default file and raises ValueError. From then on every device-token lookup raises ValueError. |
| Configuration.ScaffoldedConfigRefused | remarkable2cloud/remarkableconfig.py:34-44 | On the default data every device name is refused with ValueError. `reMarkable2` holds the placeholder, and no other device exists. |
| Configuration.UserTokenOfScaffoldedConfig | remarkable2cloud/remarkableconfig.py:76-79 | On the default data, `get_user_token` hands out the placeholder, while `get_device_token` refuses it. |
| Configuration.DefaultDeviceLookedUp | remarkable2cloud/remarkableconfig.py:64-65 | A None, an empty and the explicit name `reMarkable2` look up the same token. |
| Configuration.StoredTokenReturned | remarkable2cloud/remarkableconfig.py:67-79 | For any configuration whose stored device token is the string `token`, `get_device_token` refuses it with ValueError when it starts with '#' and otherwise returns it unchanged. `get_user_token` returns it either way. |

## Left out

- HTTP transport: the network is a scripted sequence of responses, so timeouts, redirects and the `requests` library's own behaviour are not modelled. Every transport exception is `ConnectionError`.
- URL validation by `requests` is not modelled. As a modelling choice, a truthy blob URL that is not a string raises `MissingSchema` before any call (`requests` would first turn it into a string and refuse it, with `InvalidSchema` for a dict, for example). A string URL is always sent, even one that `requests` would refuse for lacking a scheme.
- The browser-like header map set by the constructor is a constructor parameter rather than its literal contents.
- The zip archive encoding (`construct_zip_payload`): the bundle is modelled as its ordered list of entries.
- The filename templates and the descriptor body from `remarkable_structures`, which are not part of this model. They are a `Bundle.Templates` parameter.
- `uuid4()`: the freshly generated id is an argument (`freshUuid`).
- `isfile` and the file's bytes are arguments of the upload.
- The configuration file's path, `expanduser` and `join` are left out: the class holds the file's existence, its directory's existence and its decoded contents.
- The YAML dump and load are taken as a faithful round trip. YAML parse errors and scalars outside the `Json` value kinds (floats, dates) are not modelled.
- The directory permissions given to `makedirs` are left out.
- The DEBUG-level write of the archive to `/tmp/blob.zip` is left out, since it does not affect the result or the calls.
- Logging and `coloredlogs` are left out.
- The command-line script and the process exit codes are left out.
- JSON numbers are integers only, because the upload reply is only tested for truthiness and keys.
- `Cloud.ReMarkableCloud.UploadFile`: the body of `upload_file` is split into the methods `AcquireUserToken`, `RequestUpload`, `ProcessReply`, `ReadBlobUrl` and `StoreBlob` so that each part is proved on its own. The sequence of calls and state changes is the same.
- `str(token)` for a non-string token is modelled only as far as `startswith('#')` goes: only a string can print with a leading '#'.
