# Google Drive picker: client and navigation, in Dafny

This project models the two pieces of sequential logic in a React Native Google
Drive file picker.

- **The Drive client** (`googleDrive.ts`, module `GoogleDriveClient` in
  `drive_client.dfy`). The class `GoogleDrive` holds a cached bearer token
  (`apiToken`), the API key and the two platform client ids.
  - `getToken`, `signInGoogle`, `signOut` and `_configureGetOptions` each
    update the token in their own way.
  - `config` stores the key and the ids, and chooses the scopes and the
    platform's client id.
  - The three listings build a query string. Each is `name=value` pairs
    joined with `&`. The `q` pair is the view's conditions joined with ` and `,
    followed by a fixed "PDF or folder" filter.
  - Responses are normalised. A non-empty `files` list is returned as it is,
    anything else ok becomes `[]`, and a non-ok body is thrown unchanged.
  - `downloadFile` builds the content URL and the error-message fallback.
- **The picker screen** (`GoogleDrivePicker/GoogleDrivePicker.tsx`, module
  `DrivePicker` in `drive_picker.dfy`). The class `GoogleDrivePicker` holds the
  breadcrumb stack `paths`, the shown entries `data` and the `loading` flag.
  - The stack's last element selects one of three listings.
  - A folder listing is shown behind a go-up entry with id `PREVIOUS`.
  - Pressing that entry pops the stack, and pressing a folder pushes its id.
    Any other entry is downloaded and turned into a `LocalFile`.
  - Two display helpers: the `DD/MM/YY` date text and the choice of size unit.

The sign-in library, `fetch` and the native download bridge are foreign code.
Each of their answers is a parameter of the model:
- a `Result` or `Outcome` value for a sign-in library call;
- a total function from URL and options to a response, for `fetch`;
- a total function from URL, file name and headers to a reply, for the bridge.

A ghost counter `tokenQueries` on the client counts the calls to the provider's
`getTokens`. This states "served from the cache, the provider was not asked".

In these places the code does something a reader might not expect, and the model follows the code:
- Exactly 1073741824 bytes is shown in MB, not GB, because the comparison is a
  strict `>`.
- `signOut` clears the token only when the provider's sign-out resolves. A
  rejection leaves the token in place.
- A token lookup returns whatever `accessToken` the provider gives, including an
  empty one. It is not checked to be non-empty.
- `signInGoogle` rethrows every provider error unchanged. It sorts no error
  into separate categories.

Other facts the model makes explicit:
- The one-instance accessor never stores its instance, so the picker's client is
  a fresh, unconfigured one. Its requests carry an empty `key`.
- Pushing a folder and popping it restores the stack. While `loading` is set,
  the screen draws a spinner over the whole list, so entries are pressed only
  while `loading` is clear. Any such press keeps the screen well formed, and so
  does any reload that follows it, whether it fails, or succeeds with an ordinary listing
  (`PressKeepsWellformed`, `LoadData`).
- A failed reload leaves the old entries in `data` with `loading` still set, so
  the spinner stays over them. A stale go-up entry pressed a second time would
  empty the stack, and the next load would then ask for the children of the
  folder `undefined` (`StaleGoBackEmptiesPaths`). That press can happen only if
  it gets past the spinner.
- The picker never pushes `Shared`, so the shared view is unreachable from the
  screen (`SharedViewUnreachable`).

## Model

| member | source | states |
|---|---|---|
| `GoogleDriveClient.BuildQueryOptionsSpelledOut` | googleDrive.ts:120-133 | The query is exactly `key=<apiKey>&pageSize=100&spaces=drive&orderBy=folder&fields=<projection>&q=<conditions joined by " and "> and (mimeType='application/pdf' or mimeType='application/vnd.google-apps.folder')`, in that order and without URL-encoding. The `mimetypes` argument does not affect it, and the appended empty filter changes nothing. |
| `GoogleDriveClient.JoinSix` | googleDrive.ts:131-132 | Joining the six `name=value` texts puts exactly one `&` between neighbours. |
| `GoogleDriveClient.QueryAlwaysFiltered` | googleDrive.ts:120-133 | For every condition list, the query starts with the fixed key-to-fields prefix and ends with the fixed two-MIME-type filter. Between them are exactly the joined conditions, starting with the first condition and ending with the last. |
| `GoogleDriveClient.JoinEnds` | googleDrive.ts:127 | A join of a non-empty list starts with its first part and ends with its last part. |
| `GoogleDriveClient.IsFolder` | googleDrive.ts:41-43 | A record is a folder exactly when its MIME type is `application/vnd.google-apps.folder`, so a folder is never a PDF. |
| `GoogleDriveClient.FilterQuery` | googleDrive.ts:127-130 | The `q` value is the conditions joined with ` and `, followed by the fixed MIME filter. The appended empty filter adds nothing. |
| `GoogleDriveClient.FolderConditions` | googleDrive.ts:160-164 | A folder listing has exactly one condition: a quote, the folder id, then `' in parents`. |
| `GoogleDriveClient.FolderConditionsInjective` | googleDrive.ts:160-164 | The folder condition `'<id>' in parents` determines the folder id. |
| `GoogleDriveClient.ParseAndHandleErrors` | googleDrive.ts:110-118 | An ok response yields its parsed body. A non-ok response with a parsed body fails with that body unchanged. A body that fails to parse fails with the parse error. |
| `GoogleDriveClient.RequestToDrive` | googleDrive.ts:135-146 | The result is ok exactly when fetch resolved, the response is ok and its body parsed. A fetch rejection, a parse rejection and a non-ok body are each rethrown unchanged. An ok result is the body's files normalised. |
| `GoogleDriveClient.FilesOf` | googleDrive.ts:139-145 | A non-empty `files` is returned as it is. A missing or empty `files`, or a null body, gives `[]`. The result is always either `[]` or exactly the body's `files`. |
| `GoogleDriveClient.CachedToken` | googleDrive.ts:34-39 | A non-empty cached token is returned. Otherwise the result is the provider's `accessToken`, or its rejection. |
| `GoogleDriveClient.SecondLookupIsCached` | googleDrive.ts:34-39 | After a lookup that stored a non-empty token, a second lookup returns the same value whatever the provider would answer. |
| `GoogleDriveClient.LookupIdempotent` | googleDrive.ts:100-102 | Repeating a lookup with the same provider answer leaves the cached token as the first lookup left it. |
| `GoogleDriveClient.GetOptionsResult` | googleDrive.ts:98-108 | Request setup fails exactly when the lookup fails, which happens only with no token cached, and then with the provider's rejection unchanged. Otherwise it is a `GET` with the single header `Authorization: Bearer <token after the lookup>`. |
| `GoogleDriveClient.ListResult` | googleDrive.ts:148-164 | A listing fails with the provider's rejection when no token is cached and the provider rejects. Otherwise it is the normalised response to `<endpoint>/files?<query>`, sent with the bearer header of the cached token. |
| `GoogleDriveClient.ResolveScopes` | googleDrive.ts:49-52 | A given scope list is used as it is, even an empty one. An absent list gives the two read-only Drive scopes. |
| `GoogleDriveClient.DownloadUrl` | googleDrive.ts:169 | The content URL is exactly `<endpoint>/files/`, then the file id, then `?alt=media`, so the id can be read back from it. |
| `GoogleDriveClient.DownloadErrorMessage` | googleDrive.ts:175 | A failed download's message is never empty. It is the bridge's own message when that is non-empty, and otherwise `Failed to download file`. |
| `GoogleDriveClient.GoogleDrive.constructor` | googleDrive.ts:13-16 | A new client has an empty token, empty ids and an empty key, and has not yet asked the provider. |
| `GoogleDriveClient.GoogleDrive.GetToken` | googleDrive.ts:34-39 | With a token cached, the call returns it and changes nothing, and the provider is not asked. Otherwise the provider is asked once, and its `accessToken` is stored and returned. A rejection is returned and the token is left as it was. |
| `GoogleDriveClient.GoogleDrive.Config` | googleDrive.ts:45-65 | The key and both client ids are stored. The sign-in configuration carries the Android id on Android and the iOS id elsewhere, the resolved scopes, and `shouldFetchBasicProfile`. |
| `GoogleDriveClient.GoogleDrive.SignInGoogle` | googleDrive.ts:67-90 | The first provider step to reject decides the error, which is rethrown unchanged, and the token is left as it was. When the tokens arrive, `accessToken` is stored before `idToken` is checked. The call then returns a non-empty `idToken`, or fails with `idToken empty` with the access token still stored. |
| `GoogleDriveClient.GoogleDrive.SignOut` | googleDrive.ts:92-96 | After the provider's sign-out resolves, the token is empty whatever the prior state. A rejection is rethrown and the token is kept. |
| `GoogleDriveClient.GoogleDrive.ConfigureGetOptions` | googleDrive.ts:98-108 | The provider is asked only when no token is cached. The request always carries `Authorization: Bearer <apiToken>` with the token as it is afterwards. |
| `GoogleDriveClient.GoogleDrive.List` | googleDrive.ts:150-151 | One listing request with the given conditions. Its result and the new token are those of `ListResult` and the token lookup. |
| `GoogleDriveClient.GoogleDrive.ListMyDrive` | googleDrive.ts:148-152 | It lists with the conditions `'me' in owners` and `'root' in parents`. |
| `GoogleDriveClient.GoogleDrive.ListSharedDrive` | googleDrive.ts:154-158 | It lists with the condition `sharedWithMe`. |
| `GoogleDriveClient.GoogleDrive.ListFiles` | googleDrive.ts:160-164 | It lists with the condition `'<folderId>' in parents`. |
| `GoogleDriveClient.GoogleDrive.DownloadFile` | googleDrive.ts:166-177 | It asks the bridge for `<endpoint>/files/<id>?alt=media` with the file's name and the cached bearer token, and does not refresh that token. It resolves to the bridge's uri, or fails with the bridge's message or the fallback. |
| `GoogleDriveClient.RepeatedGetToken` | googleDrive.ts:34-39 | On a fresh client, a first call returns the provider's token or rejection. When that token is non-empty, a second call returns the same result. |
| `GoogleDriveClient.SignOutForgetsToken` | googleDrive.ts:92-96 | After sign-in and an accepted sign-out, the next lookup goes to the provider. After a rejected sign-out, the token stored by sign-in is still returned. |
| `DrivePicker.ViewOf` | GoogleDrivePicker/GoogleDrivePicker.tsx:39-50 | A tail of `My Drive` selects the owned root listing and `Shared` selects the shared listing. Any other tail selects that folder's children. An empty stack has an undefined tail, which is sent as the folder `undefined`. |
| `DrivePicker.ConditionsFor` | GoogleDrivePicker/GoogleDrivePicker.tsx:43-50 | The root view lists with `'me' in owners` and `'root' in parents`, and the shared view with `sharedWithMe`. A folder view lists with `'<id>' in parents`. |
| `DrivePicker.ConditionsForInjective` | GoogleDrivePicker/GoogleDrivePicker.tsx:43-50 | Two views that send the same conditions are the same view, so the request determines which listing is shown. |
| `DrivePicker.Displayed` | GoogleDrivePicker/GoogleDrivePicker.tsx:43-51 | A folder listing is shown as the go-up entry followed by the fetched entries in order, one longer than the listing. The two top-level views show the listing as it is. |
| `DrivePicker.Classify` | GoogleDrivePicker/GoogleDrivePicker.tsx:57-62 | An entry with id `PREVIOUS` goes back. Otherwise an entry whose MIME type is `application/vnd.google-apps.folder` opens its id, and anything else is downloaded. |
| `DrivePicker.PathsAfter` | GoogleDrivePicker/GoogleDrivePicker.tsx:57-61 | Going back removes exactly the last path, and an empty stack stays empty. Opening appends the folder id and keeps the earlier paths. A download leaves the stack unchanged. |
| `DrivePicker.PushThenPop` | GoogleDrivePicker/GoogleDrivePicker.tsx:57-61 | Opening a folder and then pressing the go-up entry restores the stack. |
| `DrivePicker.ToLocalFile` | GoogleDrivePicker/GoogleDrivePicker.tsx:66-72 | The picked file's uri is the download's result. Its name and size are the entry's, and both `mimetype` and `type` are the entry's MIME type. |
| `DrivePicker.InitialWellformed` | GoogleDrivePicker/GoogleDrivePicker.tsx:27-31 | The initial state `paths == ['My Drive']`, with no entries and `loading` clear, is well formed. |
| `DrivePicker.LoadKeepsWellformed` | GoogleDrivePicker/GoogleDrivePicker.tsx:38-52 | For a well-formed stack, a successful load of an ordinary listing shows entries that fit it: a go-up entry only above the root, and no folder named like a top-level view. |
| `DrivePicker.PressKeepsWellformed` | GoogleDrivePicker/GoogleDrivePicker.tsx:54-61 | Pressing an entry shown while `loading` is clear leaves a well-formed stack: never empty, `My Drive` at the bottom, and no `My Drive` or `Shared` above it. |
| `DrivePicker.SharedViewUnreachable` | GoogleDrivePicker/GoogleDrivePicker.tsx:43-61 | With a well-formed stack the tail is never `Shared`. |
| `DrivePicker.SentinelOnlyAboveRoot` | GoogleDrivePicker/GoogleDrivePicker.tsx:43-51 | In a well-formed state with `loading` clear, a shown go-up entry means the stack has a folder id above the root, and that folder is the view. |
| `DrivePicker.StaleGoBackEmptiesPaths` | GoogleDrivePicker/GoogleDrivePicker.tsx:38-61 | After a go-up press from a folder on the root and a failed reload, the stale entries pass as well formed only because `loading` is still set. A second press of the stale go-up entry would empty the stack, and the next load would ask for the folder `undefined`. |
| `DrivePicker.DecimalString` | GoogleDrivePicker/GoogleDrivePicker.tsx:108-110 | A number's decimal text ends in its units digit. From 10 upwards its second-to-last character is the tens digit, and it is one character long exactly below 10. |
| `DrivePicker.LastTwo` | GoogleDrivePicker/GoogleDrivePicker.tsx:108-110 | `.slice(-2)` gives the last two characters, or the whole text when it is shorter. |
| `DrivePicker.TwoDigits` | GoogleDrivePicker/GoogleDrivePicker.tsx:108-110 | The last two characters of `'0' + n` are the tens digit and the units digit of `n`. |
| `DrivePicker.TwoDigitsRoundTrip` | GoogleDrivePicker/GoogleDrivePicker.tsx:108-110 | Reading the two characters back gives `n mod 100`. |
| `DrivePicker.FormatTime` | GoogleDrivePicker/GoogleDrivePicker.tsx:107-112 | The text has 8 characters with `/` at positions 2 and 5. It holds the two-digit day, then the month index plus one, then the year. |
| `DrivePicker.FormatTimeRoundTrip` | GoogleDrivePicker/GoogleDrivePicker.tsx:107-112 | For a day in 1..31 and a month index in 0..11, the text reads back to the day, the month and the year modulo 100. |
| `DrivePicker.SizeUnitOf` | GoogleDrivePicker/GoogleDrivePicker.tsx:122-129 | No size is shown exactly for an absent or zero size. A size shown in GB or MB is above its unit's divisor. A size shown in MB or KB is at most 1024 of its unit. |
| `DrivePicker.SizeUnitRanges` | GoogleDrivePicker/GoogleDrivePicker.tsx:122-129 | GB is chosen exactly above 1073741824 bytes and MB exactly in (1048576, 1073741824]. KB is chosen exactly in (0, 1048576], and no unit for an absent or zero size. |
| `DrivePicker.ExactPowersFallBelow` | GoogleDrivePicker/GoogleDrivePicker.tsx:123-127 | Exactly 1073741824 bytes is shown in MB and exactly 1048576 bytes in KB. 500 bytes is shown in KB, and 0 bytes shows no size. |
| `DrivePicker.SizeUnitMonotone` | GoogleDrivePicker/GoogleDrivePicker.tsx:122-129 | A larger size is never shown in a smaller unit. |
| `DrivePicker.GoogleDrivePicker.constructor` | GoogleDrivePicker/GoogleDrivePicker.tsx:23-31 | The initial state is `paths == ['My Drive']`, `data == []` and `loading == false`, with a fresh client that has no token and an empty key and has not asked the provider. |
| `DrivePicker.GoogleDrivePicker.LoadData` | GoogleDrivePicker/GoogleDrivePicker.tsx:38-52 | It requests the listing the tail selects. On success it shows that listing, with the go-up entry in front for a folder, and clears `loading`. On failure the old entries stay and `loading` stays set. The provider is asked exactly when no token is cached. For a well-formed stack the screen ends well formed, unless the listing succeeds with an entry that is not ordinary. |
| `DrivePicker.GoogleDrivePicker.HandleItemPressed` | GoogleDrivePicker/GoogleDrivePicker.tsx:54-82 | The stack becomes `PathsAfter` of the press, and a go-up or folder press reloads for the new tail. Any other entry leaves the stack and the entries as they were, and downloads the file. The result is the picked `LocalFile` or the download error, and `loading` ends cleared. The provider is asked only by a reload, and only when no token is cached. A press made while `loading` is clear keeps the screen well formed, unless a reload succeeds with an entry that is not ordinary. |
| `DrivePicker.BrowseIntoFolderAndBack` | GoogleDrivePicker/GoogleDrivePicker.tsx:34-61 | A fresh screen loads the root, opens a folder and presses go-up. That makes three requests: the root conditions, the folder condition and the root conditions again, all with an empty key. The folder's entries are shown behind the go-up entry. The stack ends at `['My Drive']` with the root listing shown as it is, without a go-up entry. The provider is asked once when its first token is non-empty, and on all three loads otherwise. |

## Left out

- The sign-in library's calls (`configure`, `hasPlayServices`, `signIn`, `getTokens`, `signOut`, `isSignedIn`) are foreign code. Their answers are parameters, and `config` returns the configuration it would pass to `configure`.
- `isSignedIn` only combines two answers of the sign-in library. It has no logic of the client's own and is not modelled.
- `fetch`, `Headers`, `response.json()` and the promise plumbing are not modelled. A response is its `ok` flag and its parsed (or failed) body, and the headers are a list of name-value pairs.
- The native download bridge is a parameter. Only its URL, file name, headers and the error-message fallback are modelled.
- The one-instance accessor `getInstance` is process-wide wiring. It is modelled only through its effect: each picker gets a fresh client.
- The platform check is a boolean parameter of `Config`.
- Drive's wire format sends `size` as a decimal string. The model follows the declared type, a number, which is absent or a natural number of bytes.
- A record's absent string fields, such as those of the go-up entry, are modelled as `""`, and an absent `size` as `None`. An `idToken` of null is `""`.
- The rounding `Math.round(x / d * 10) / 10` and the number text it produces are floating point. Only the choice of unit and the range of `size / divisor` are modelled.
- Date parsing (`new Date(modifiedTime)`) is not modelled. `FormatTime` takes the day of the month, the zero-based month index and the full year as natural numbers, so invalid dates (`NaN` parts) and negative years are left out.
- Rendering, `FlatList`, the `Back` and `Sign out` buttons, and `handleSignOut` (a sign-out followed by `onBack`) are user interface.
- The spinner is modelled only through its effect: it covers the list while `loading` is set, so the well-formedness contracts are stated for presses made while `loading` is clear. `HandleItemPressed` itself accepts a press in any state.
- `setState` is modelled as an immediate update, with its callback run right after it. `loadData` sets `loading` first. A listing that rejects then leaves `data` as it was and `loading` set, and nothing catches the rejection.
- Overlapping requests are not modelled: each navigation's reload completes before the next press.
- The props callbacks `handlePick`, `handleError` and `onBack` are assumed present. A press returns what it would hand to them instead of calling them.
- `HandleItemPressed`: the well-formedness it keeps is stated only for a press of an entry shown while `loading` is clear, and only when a successful reload returns an ordinary listing. An ordinary listing has no entry with id `PREVIOUS` and no folder whose id is `My Drive` or `Shared`. Drive never returns such entries, but nothing in the code checks for them.
- `GoogleDrivePicker/style.ts` is styling data.
