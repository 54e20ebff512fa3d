/**
 * The Google Drive REST client: a cached bearer token that sign-in, sign-out,
 * lazy fetching and request setup each update in their own way, the query
 * string sent to the files-listing endpoint, the normalisation of its
 * responses, and the URL and error message of a download.
 *
 * The sign-in library, `fetch` and the native download bridge are not part of
 * this model: each of their answers is a parameter (a value, or a total
 * function from the request to the answer).
 */
module GoogleDriveClient {

  const ApiEndpoint := "https://www.googleapis.com/drive/v3"
  const ConditionInMyDrive := "'me' in owners"
  const ConditionInShared := "sharedWithMe"
  const ConditionInRoot := "'root' in parents"
  const FolderMimeType := "application/vnd.google-apps.folder"
  const PdfMimeType := "application/pdf"
  const FieldsProjection := "nextPageToken,files(mimeType,id,name,webContentLink,trashed,modifiedTime,size)"
  const DefaultScopes := ["https://www.googleapis.com/auth/drive.metadata.readonly",
                          "https://www.googleapis.com/auth/drive.readonly"]
  const IdTokenEmptyMessage := "idToken empty"
  const DownloadFailedMessage := "Failed to download file"

  /** The extra filter that is appended to `q`: always empty. */
  const ExtraFilter := ""

  datatype Option<T> = None | Some(value: T)

  /** A file record of the listing endpoint. A field the record lacks is "" (or None for `size`). */
  datatype GoogleFile = GoogleFile(
    id: string,
    name: string,
    mimeType: string,
    size: Option<nat>,
    modifiedTime: string,
    webContentLink: string)

  /** A parsed JSON body: `null`, or an object with an optional `files` member and other members. */
  datatype Json = Null | Object(files: Option<seq<GoogleFile>>, members: map<string, string>)

  /** What the client throws. */
  datatype Error =
    | SignInError(code: string)      // a rejection of the sign-in library, with its status code
    | NetworkError(message: string)  // a rejection of `fetch` or of `response.json()`
    | ErrorBody(body: Json)          // the parsed body of a non-ok response, thrown as it is
    | Message(message: string)       // an `Error` the client raises itself

  datatype Result<T> = Ok(value: T) | Err(error: Error)

  /** A provider call that resolves to nothing of interest, or rejects. */
  datatype Outcome = Pass | Fail(error: Error)

  /** The provider's tokens; an `idToken` of null is "". */
  datatype Tokens = Tokens(idToken: string, accessToken: string)

  datatype HttpResponse = HttpResponse(ok: bool, json: Result<Json>)

  datatype RequestOptions = RequestOptions(verb: string, headers: seq<(string, string)>)

  /** The configuration handed to the sign-in library. */
  datatype SignInConfig = SignInConfig(webClientId: string, scopes: seq<string>, shouldFetchBasicProfile: bool)

  /** The answer of the native download bridge: the local uri, or a rejection with its message ("" if none). */
  datatype NativeReply = Resolved(uri: string) | Rejected(message: string)

  /** `isFoler`: a record is a folder exactly when its MIME type is Drive's folder type. */
  predicate IsFolder(file: GoogleFile)
    ensures IsFolder(file) <==> file.mimeType == "application/vnd.google-apps.folder"
    ensures IsFolder(file) ==> file.mimeType != PdfMimeType
  {
    file.mimeType == FolderMimeType
  }

  /** `Array.prototype.join`: the parts with `sep` between neighbours. */
  function Join(parts: seq<string>, sep: string): string
  {
    if |parts| == 0 then ""
    else if |parts| == 1 then parts[0]
    else parts[0] + sep + Join(parts[1..], sep)
  }

  /** A join starts with its first part and ends with its last. */
  lemma {:induction false} JoinEnds(parts: seq<string>, sep: string)
    requires |parts| > 0
    ensures parts[0] <= Join(parts, sep)
    ensures var r, last := Join(parts, sep), parts[|parts| - 1];
            |last| <= |r| && r[|r| - |last|..] == last
  {
    if |parts| > 1 {
      JoinEnds(parts[1..], sep);
      var r, rest, last := Join(parts, sep), Join(parts[1..], sep), parts[|parts| - 1];
      assert r == parts[0] + sep + rest;
      assert r[|r| - |last|..] == rest[|rest| - |last|..];
    }
  }

  /** The fixed filter that ANDs the conditions with "a PDF or a folder". */
  const MimeFilter := " and (mimeType='" + PdfMimeType + "' or mimeType='" + FolderMimeType + "')"

  /** The `q` value: the conditions joined with AND, then the fixed MIME filter and the (empty) extra filter. */
  function FilterQuery(conditions: seq<string>): (r: string)
    ensures r == Join(conditions, " and ") + MimeFilter
  {
    Join(conditions, " and ") + MimeFilter + ExtraFilter
  }

  /** The (name, value) pairs of the query, in the order of `Object.entries`. */
  function QueryEntries(apiKey: string, conditions: seq<string>): seq<(string, string)>
  {
    [("key", apiKey), ("pageSize", "100"), ("spaces", "drive"), ("orderBy", "folder"),
     ("fields", FieldsProjection), ("q", FilterQuery(conditions))]
  }

  function EntryText(entry: (string, string)): string
  {
    entry.0 + "=" + entry.1
  }

  /** `Object.entries(options).map(item => item.join('='))`: each pair as `name=value`, in order. */
  function QueryTexts(apiKey: string, conditions: seq<string>): seq<string>
  {
    var entries := QueryEntries(apiKey, conditions);
    seq(|entries|, i requires 0 <= i < |entries| => EntryText(entries[i]))
  }

  /** Six parts joined: the separator between each pair of neighbours. */
  lemma {:induction false} JoinSix(a: string, b: string, c: string, d: string, e: string, f: string, sep: string)
    ensures Join([a, b, c, d, e, f], sep) == a + sep + b + sep + c + sep + d + sep + e + sep + f
  {
    var p := [a, b, c, d, e, f];
    assert p[4..] == [e, f] && p[4..][1..] == [f];
    assert p[3..] == [d, e, f] && p[3..][1..] == p[4..];
    assert p[2..] == [c, d, e, f] && p[2..][1..] == p[3..];
    assert p[1..] == [b, c, d, e, f] && p[1..][1..] == p[2..];
    assert Join(p[5..], sep) == f;
    var j4 := Join(p[4..], sep);
    assert j4 == e + sep + f;
    var j3 := Join(p[3..], sep);
    assert j3 == d + sep + j4;
    var j2 := Join(p[2..], sep);
    assert j2 == c + sep + j3;
    var j1 := Join(p[1..], sep);
    assert j1 == b + sep + j2;
    assert Join(p, sep) == a + sep + j1;
  }

  /**
   * `_buildQueryOptions`: every pair as `name=value`, joined with `&`, with no
   * URL-encoding. The `mimetypes` argument is not used.
   */
  function BuildQueryOptions(apiKey: string, conditions: seq<string>, mimetypes: seq<string>): string
  {
    Join(QueryTexts(apiKey, conditions), "&")
  }

  /**
   * The query string written out: the six pairs in order, the `q` value being
   * the joined conditions and the MIME filter, whatever `mimetypes` is.
   */
  lemma {:induction false} BuildQueryOptionsSpelledOut(apiKey: string, conditions: seq<string>, mimetypes: seq<string>)
    ensures BuildQueryOptions(apiKey, conditions, mimetypes)
            == "key=" + apiKey + "&" + "pageSize=100" + "&" + "spaces=drive" + "&" + "orderBy=folder"
               + "&" + "fields=" + FieldsProjection + "&" + "q=" + Join(conditions, " and ") + MimeFilter
  {
    var texts := QueryTexts(apiKey, conditions);
    var q := Join(conditions, " and ");
    assert texts[0] == "key=" + apiKey;
    assert texts[1] == "pageSize=100";
    assert texts[2] == "spaces=drive";
    assert texts[3] == "orderBy=folder";
    assert texts[4] == "fields=" + FieldsProjection;
    assert texts[5] == "q=" + (q + MimeFilter);
    assert texts == [texts[0], texts[1], texts[2], texts[3], texts[4], texts[5]];
    JoinSix("key=" + apiKey, "pageSize=100", "spaces=drive", "orderBy=folder",
            "fields=" + FieldsProjection, "q=" + (q + MimeFilter), "&");
  }

  /** The condition lists of `listMyDrive`, `listSharedDrive` and `listFiles`. */
  const MyDriveConditions := [ConditionInMyDrive, ConditionInRoot]
  const SharedConditions := [ConditionInShared]

  /** The one condition of a folder listing: the quoted id, then ` in parents`. */
  function FolderConditions(folderId: string): (r: seq<string>)
    ensures |r| == 1 && |r[0]| == |folderId| + 13
    ensures r[0][0] == '\'' && r[0][1..|r[0]| - 12] == folderId && r[0][|r[0]| - 12..] == "' in parents"
  {
    ["'" + folderId + "' in parents"]
  }

  /** The URL of a listing request. */
  function ListUrl(apiKey: string, conditions: seq<string>): string
  {
    ApiEndpoint + "/files?" + BuildQueryOptions(apiKey, conditions, [])
  }

  /** `_parseAndHandleErrors`: an ok body is returned, any other parsed body is thrown. */
  function ParseAndHandleErrors(response: HttpResponse): (r: Result<Json>)
    ensures response.json.Err? ==> r == response.json
    ensures response.json.Ok? ==> (r.Ok? <==> response.ok)
    ensures r.Ok? ==> r == response.json
    ensures response.json.Ok? && !response.ok ==> r == Err(ErrorBody(response.json.value))
  {
    match response.json
    case Err(e) => Err(e)
    case Ok(body) => if response.ok then Ok(body) else Err(ErrorBody(body))
  }

  /**
   * The normalisation of an ok body: a non-empty `files` is kept as it is; a
   * missing or empty one, or a null body, is `[]`.
   */
  function FilesOf(body: Json): (r: seq<GoogleFile>)
    ensures body.Object? && body.files.Some? && body.files.value != [] ==> r == body.files.value
    ensures body.Null? || body.files.None? || body.files == Some([]) ==> r == []
    ensures r == [] || (body.Object? && body.files == Some(r))
  {
    if body.Object? && body.files.Some? && |body.files.value| > 0 then body.files.value else []
  }

  /**
   * `_requestToDrive`: a rejection of `fetch` or of parsing and the error body
   * of a non-ok response are thrown unchanged; an ok body yields its files.
   */
  function RequestToDrive(fetched: Result<HttpResponse>): (r: Result<seq<GoogleFile>>)
    ensures r.Ok? <==> fetched.Ok? && fetched.value.ok && fetched.value.json.Ok?
    ensures fetched.Err? ==> r == Err(fetched.error)
    ensures fetched.Ok? && fetched.value.json.Err? ==> r == Err(fetched.value.json.error)
    ensures fetched.Ok? && !fetched.value.ok && fetched.value.json.Ok? ==> r == Err(ErrorBody(fetched.value.json.value))
    ensures r.Ok? ==> r.value == FilesOf(fetched.value.json.value)
  {
    match fetched
    case Err(e) => Err(e)
    case Ok(response) =>
      match ParseAndHandleErrors(response)
      case Err(e) => Err(e)
      case Ok(body) => Ok(FilesOf(body))
  }

  /**
   * The token a lookup yields: the cached one when it is non-empty, otherwise
   * the provider's `accessToken` (or the provider's rejection).
   */
  function CachedToken(apiToken: string, provider: Result<Tokens>): (r: Result<string>)
    ensures apiToken != "" ==> r == Ok(apiToken)
    ensures apiToken == "" ==> (r.Ok? <==> provider.Ok?)
    ensures apiToken == "" && provider.Ok? ==> r.value == provider.value.accessToken
    ensures apiToken == "" && provider.Err? ==> r.error == provider.error
  {
    if apiToken != "" then Ok(apiToken)
    else match provider
      case Ok(tokens) => Ok(tokens.accessToken)
      case Err(e) => Err(e)
  }

  /** The cached token after a lookup: the looked-up token, or the old one if the lookup failed. */
  function TokenAfterLookup(apiToken: string, provider: Result<Tokens>): string
  {
    match CachedToken(apiToken, provider)
    case Ok(t) => t
    case Err(_) => apiToken
  }

  /**
   * Once a lookup has stored a non-empty token, any later lookup returns it
   * whatever the provider would answer.
   */
  lemma SecondLookupIsCached(apiToken: string, first: Result<Tokens>, second: Result<Tokens>)
    requires CachedToken(apiToken, first).Ok? && CachedToken(apiToken, first).value != ""
    ensures CachedToken(TokenAfterLookup(apiToken, first), second) == CachedToken(apiToken, first)
  {
  }

  /** A lookup repeated with the same provider answer changes nothing more. */
  lemma LookupIdempotent(apiToken: string, provider: Result<Tokens>)
    ensures TokenAfterLookup(TokenAfterLookup(apiToken, provider), provider) == TokenAfterLookup(apiToken, provider)
  {
  }

  function AuthHeaders(token: string): seq<(string, string)>
  {
    [("Authorization", "Bearer " + token)]
  }

  /** The request options `_configureGetOptions` resolves to, given the cached token. */
  function GetOptionsResult(apiToken: string, provider: Result<Tokens>): (r: Result<RequestOptions>)
    ensures r.Ok? <==> CachedToken(apiToken, provider).Ok?
    ensures r.Err? ==> apiToken == "" && provider.Err? && r.error == provider.error
    ensures r.Ok? ==> r.value.verb == "GET"
    ensures r.Ok? ==> r.value.headers == [("Authorization", "Bearer " + TokenAfterLookup(apiToken, provider))]
  {
    match CachedToken(apiToken, provider)
    case Ok(t) => Ok(RequestOptions("GET", AuthHeaders(t)))
    case Err(e) => Err(e)
  }

  /** The result of a listing request with the given conditions, from the cached token, key and oracles. */
  function ListResult(apiToken: string, apiKey: string, conditions: seq<string>, provider: Result<Tokens>,
                      fetch: (string, RequestOptions) -> Result<HttpResponse>): (r: Result<seq<GoogleFile>>)
    ensures apiToken == "" && provider.Err? ==> r == Err(provider.error)
    ensures apiToken != "" || provider.Ok? ==>
              r == RequestToDrive(fetch(ListUrl(apiKey, conditions),
                                        RequestOptions("GET", AuthHeaders(TokenAfterLookup(apiToken, provider)))))
  {
    match GetOptionsResult(apiToken, provider)
    case Err(e) => Err(e)
    case Ok(options) => RequestToDrive(fetch(ListUrl(apiKey, conditions), options))
  }

  /**
   * Every listing request carries the fixed key-to-fields prefix and ends with
   * the fixed MIME filter; between them the first condition comes first and the
   * last condition last.
   */
  lemma QueryAlwaysFiltered(apiKey: string, conditions: seq<string>, mimetypes: seq<string>)
    ensures var r := BuildQueryOptions(apiKey, conditions, mimetypes);
            var prefix := "key=" + apiKey + "&" + "pageSize=100" + "&" + "spaces=drive" + "&" + "orderBy=folder"
                         + "&" + "fields=" + FieldsProjection + "&" + "q=";
            var suffix := MimeFilter;
            && prefix <= r
            && |prefix| + |suffix| <= |r|
            && r[|r| - |suffix|..] == suffix
            && r[|prefix|..|r| - |suffix|] == Join(conditions, " and ")
            && (|conditions| > 0 ==>
                  var q, last := r[|prefix|..|r| - |suffix|], conditions[|conditions| - 1];
                  && conditions[0] <= q
                  && |last| <= |q| && q[|q| - |last|..] == last)
  {
    BuildQueryOptionsSpelledOut(apiKey, conditions, mimetypes);
    if |conditions| > 0 {
      JoinEnds(conditions, " and ");
    }
  }

  /** Distinct folder ids give distinct conditions, so the folder listing is determined by the id. */
  lemma FolderConditionsInjective(a: string, b: string)
    requires FolderConditions(a) == FolderConditions(b)
    ensures a == b
  {
    var ca, cb := FolderConditions(a)[0], FolderConditions(b)[0];
    assert ca[1..|ca| - 12] == a;
    assert cb[1..|cb| - 12] == b;
  }

  /** The scopes requested: the given list when there is one (even an empty one), else the two read-only scopes. */
  function ResolveScopes(scopes: Option<seq<string>>): (r: seq<string>)
    ensures scopes.Some? ==> r == scopes.value
    ensures scopes.None? ==> r == DefaultScopes
  {
    match scopes
    case Some(s) => s
    case None => DefaultScopes
  }

  /** The content URL of a file: the endpoint's `files/`, the id, then `?alt=media`. */
  function DownloadUrl(fileId: string): (r: string)
    ensures var n := |ApiEndpoint| + 7;
            && |r| == n + |fileId| + 10
            && r[..n] == ApiEndpoint + "/files/"
            && r[n..|r| - 10] == fileId
            && r[|r| - 10..] == "?alt=media"
  {
    ApiEndpoint + "/files/" + fileId + "?alt=media"
  }

  /** The message of a failed download: the bridge's own, or a fixed fallback when it has none. */
  function DownloadErrorMessage(message: string): (r: string)
    ensures r != ""
    ensures message != "" ==> r == message
    ensures message == "" ==> r == "Failed to download file"
  {
    if message != "" then message else DownloadFailedMessage
  }

  class GoogleDrive {
    var apiToken: string
    var androidClientId: string
    var iosClientId: string
    var apiKey: string

    /** How many times the provider's `getTokens` has been asked. */
    ghost var tokenQueries: nat

    constructor ()
      ensures apiToken == "" && androidClientId == "" && iosClientId == "" && apiKey == ""
      ensures tokenQueries == 0
    {
      apiToken, androidClientId, iosClientId, apiKey := "", "", "", "";
      tokenQueries := 0;
    }

    /** `getToken`: the cached token when there is one; otherwise the provider's, which is stored. */
    method GetToken(provider: Result<Tokens>) returns (r: Result<string>)
      modifies this`apiToken, this`tokenQueries
      ensures r == CachedToken(old(apiToken), provider)
      ensures apiToken == TokenAfterLookup(old(apiToken), provider)
      ensures r.Ok? ==> apiToken == r.value
      ensures old(apiToken) != "" ==> apiToken == old(apiToken) && tokenQueries == old(tokenQueries)
      ensures old(apiToken) == "" ==> tokenQueries == old(tokenQueries) + 1
    {
      if apiToken != "" {
        return Ok(apiToken);
      }
      tokenQueries := tokenQueries + 1;
      match provider
      case Err(e) =>
        r := Err(e);
      case Ok(tokens) =>
        apiToken := tokens.accessToken;
        r := Ok(apiToken);
    }

    /**
     * `config`: stores the key and both client ids and returns what is given to
     * the sign-in library: the platform's client id and the resolved scopes.
     */
    method Config(key: string, androidId: string, iosId: string, scopes: Option<seq<string>>, isAndroid: bool)
      returns (cfg: SignInConfig)
      modifies this`androidClientId, this`iosClientId, this`apiKey
      ensures apiKey == key && androidClientId == androidId && iosClientId == iosId
      ensures cfg.webClientId == (if isAndroid then androidId else iosId)
      ensures cfg.scopes == ResolveScopes(scopes)
      ensures cfg.shouldFetchBasicProfile
    {
      androidClientId := androidId;
      iosClientId := iosId;
      apiKey := key;
      var driveScopes := ResolveScopes(scopes);
      var webClientId := if isAndroid then androidClientId else iosClientId;
      cfg := SignInConfig(webClientId, driveScopes, true);
    }

    /**
     * `signInGoogle`: each provider step's rejection is rethrown unchanged. Once
     * the tokens arrive the access token is stored, before the id token is
     * checked, so it stays stored when a missing id token makes sign-in fail.
     */
    method SignInGoogle(playServices: Outcome, signIn: Outcome, provider: Result<Tokens>) returns (r: Result<string>)
      modifies this`apiToken, this`tokenQueries
      ensures playServices.Fail? ==> r == Err(playServices.error)
      ensures playServices.Pass? && signIn.Fail? ==> r == Err(signIn.error)
      ensures playServices.Pass? && signIn.Pass? && provider.Err? ==> r == Err(provider.error)
      ensures playServices.Fail? || signIn.Fail? || provider.Err? ==> apiToken == old(apiToken)
      ensures playServices.Pass? && signIn.Pass? && provider.Ok? ==>
                && apiToken == provider.value.accessToken
                && r == (if provider.value.idToken != "" then Ok(provider.value.idToken)
                         else Err(Message(IdTokenEmptyMessage)))
      ensures tokenQueries == old(tokenQueries) + (if playServices.Pass? && signIn.Pass? then 1 else 0)
    {
      if playServices.Fail? {
        return Err(playServices.error);
      }
      if signIn.Fail? {
        return Err(signIn.error);
      }
      tokenQueries := tokenQueries + 1;
      match provider
      case Err(e) =>
        r := Err(e);
      case Ok(tokens) =>
        apiToken := tokens.accessToken;
        if tokens.idToken != "" {
          r := Ok(tokens.idToken);
        } else {
          r := Err(Message(IdTokenEmptyMessage));
        }
    }

    /** `signOut`: clears the cached token once the provider has signed out; a rejection leaves it. */
    method SignOut(provider: Outcome) returns (r: Outcome)
      modifies this`apiToken
      ensures r == provider
      ensures provider.Pass? ==> apiToken == ""
      ensures provider.Fail? ==> apiToken == old(apiToken)
    {
      if provider.Fail? {
        return provider;
      }
      apiToken := "";
      r := Pass;
    }

    /**
     * `_configureGetOptions`: asks the provider only when no token is cached,
     * then sends the cached token as a bearer token.
     */
    method ConfigureGetOptions(provider: Result<Tokens>) returns (r: Result<RequestOptions>)
      modifies this`apiToken, this`tokenQueries
      ensures r == GetOptionsResult(old(apiToken), provider)
      ensures apiToken == TokenAfterLookup(old(apiToken), provider)
      ensures r.Ok? ==> r.value == RequestOptions("GET", [("Authorization", "Bearer " + apiToken)])
      ensures tokenQueries == old(tokenQueries) + (if old(apiToken) == "" then 1 else 0)
    {
      if apiToken == "" {
        tokenQueries := tokenQueries + 1;
        match provider
        case Err(e) =>
          return Err(e);
        case Ok(tokens) =>
          apiToken := tokens.accessToken;
      }
      r := Ok(RequestOptions("GET", AuthHeaders(apiToken)));
    }

    /** A listing request with the given conditions. */
    method List(conditions: seq<string>, provider: Result<Tokens>,
                fetch: (string, RequestOptions) -> Result<HttpResponse>) returns (r: Result<seq<GoogleFile>>)
      modifies this`apiToken, this`tokenQueries
      ensures r == ListResult(old(apiToken), apiKey, conditions, provider, fetch)
      ensures apiToken == TokenAfterLookup(old(apiToken), provider)
      ensures tokenQueries == old(tokenQueries) + (if old(apiToken) == "" then 1 else 0)
    {
      var options := ConfigureGetOptions(provider);
      match options
      case Err(e) =>
        r := Err(e);
      case Ok(o) =>
        r := RequestToDrive(fetch(ListUrl(apiKey, conditions), o));
    }

    /** `listMyDrive`: the files the user owns at the top of the drive. */
    method ListMyDrive(provider: Result<Tokens>, fetch: (string, RequestOptions) -> Result<HttpResponse>)
      returns (r: Result<seq<GoogleFile>>)
      modifies this`apiToken, this`tokenQueries
      ensures r == ListResult(old(apiToken), apiKey, ["'me' in owners", "'root' in parents"], provider, fetch)
      ensures apiToken == TokenAfterLookup(old(apiToken), provider)
      ensures tokenQueries == old(tokenQueries) + (if old(apiToken) == "" then 1 else 0)
    {
      r := List(MyDriveConditions, provider, fetch);
    }

    /** `listSharedDrive`: the files shared with the user. */
    method ListSharedDrive(provider: Result<Tokens>, fetch: (string, RequestOptions) -> Result<HttpResponse>)
      returns (r: Result<seq<GoogleFile>>)
      modifies this`apiToken, this`tokenQueries
      ensures r == ListResult(old(apiToken), apiKey, ["sharedWithMe"], provider, fetch)
      ensures apiToken == TokenAfterLookup(old(apiToken), provider)
      ensures tokenQueries == old(tokenQueries) + (if old(apiToken) == "" then 1 else 0)
    {
      r := List(SharedConditions, provider, fetch);
    }

    /** `listFiles`: the children of one folder. */
    method ListFiles(folderId: string, provider: Result<Tokens>, fetch: (string, RequestOptions) -> Result<HttpResponse>)
      returns (r: Result<seq<GoogleFile>>)
      modifies this`apiToken, this`tokenQueries
      ensures r == ListResult(old(apiToken), apiKey, ["'" + folderId + "' in parents"], provider, fetch)
      ensures apiToken == TokenAfterLookup(old(apiToken), provider)
      ensures tokenQueries == old(tokenQueries) + (if old(apiToken) == "" then 1 else 0)
    {
      r := List(FolderConditions(folderId), provider, fetch);
    }

    /**
     * `downloadFile`: asks the bridge for the file's content URL with the
     * cached token (which it does not refresh); a rejection becomes an error
     * whose message is never empty.
     */
    method DownloadFile(file: GoogleFile, bridge: (string, string, seq<(string, string)>) -> NativeReply)
      returns (r: Result<string>)
      ensures var reply := bridge(DownloadUrl(file.id), file.name,
                                  [("Authorization", "Bearer " + apiToken)]);
              && (r.Ok? <==> reply.Resolved?)
              && (reply.Resolved? ==> r.value == reply.uri)
              && (reply.Rejected? ==> r == Err(Message(DownloadErrorMessage(reply.message))))
              && (reply.Rejected? ==> r.error.message != "" && (reply.message != "" ==> r.error.message == reply.message))
    {
      var reply := bridge(DownloadUrl(file.id), file.name, AuthHeaders(apiToken));
      match reply
      case Resolved(uri) =>
        r := Ok(uri);
      case Rejected(message) =>
        r := Err(Message(DownloadErrorMessage(message)));
    }
  }

  /**
   * Two `getToken` calls on a fresh client: when the first stores a non-empty
   * token, the second returns the same value without a new provider query.
   */
  method RepeatedGetToken(first: Result<Tokens>, second: Result<Tokens>) returns (r1: Result<string>, r2: Result<string>)
    ensures first.Err? ==> r1 == Err(first.error)
    ensures first.Ok? ==> r1 == Ok(first.value.accessToken)
    ensures first.Ok? && first.value.accessToken != "" ==> r2 == r1
  {
    var drive := new GoogleDrive();
    r1 := drive.GetToken(first);
    ghost var queries := drive.tokenQueries;
    r2 := drive.GetToken(second);
    assert r1.Ok? && r1.value != "" ==> drive.tokenQueries == queries;
  }

  /**
   * Sign-in and then sign-out on a fresh client: after a sign-out the provider
   * accepted, the next `getToken` asks the provider again; after one it
   * rejected, the token stored by sign-in is still returned.
   */
  method SignOutForgetsToken(signInTokens: Tokens, signOut: Outcome, later: Result<Tokens>)
    returns (signedIn: Result<string>, signedOut: Outcome, next: Result<string>)
    ensures signedIn == (if signInTokens.idToken != "" then Ok(signInTokens.idToken) else Err(Message(IdTokenEmptyMessage)))
    ensures signedOut == signOut
    ensures signOut.Pass? ==> next == CachedToken("", later)
    ensures signOut.Fail? && signInTokens.accessToken != "" ==> next == Ok(signInTokens.accessToken)
  {
    var drive := new GoogleDrive();
    signedIn := drive.SignInGoogle(Pass, Pass, Ok(signInTokens));
    signedOut := drive.SignOut(signOut);
    next := drive.GetToken(later);
  }
}
