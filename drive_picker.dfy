/**
 * The file picker screen: a breadcrumb stack of paths whose last element picks
 * one of three listings, a go-up sentinel shown in folder listings, the
 * reaction to a pressed entry (go up, open a folder, or pick a file), and two
 * display helpers (the date text and the size unit).
 *
 * Rendering and the props' callbacks are not modelled. The spinner, drawn
 * over the whole list while `loading` is set, is modelled only through its
 * effect: entries are pressed while `loading` is clear. The callbacks are not
 * called; what a press hands to `handlePick` or
 * `handleError` is returned instead.
 */
module DrivePicker {
  import opened GoogleDriveClient

  const RootPath := "My Drive"
  const SharedPath := "Shared"
  const PreviousId := "PREVIOUS"

  /** The go-up entry `{ id: 'PREVIOUS' }`: every other field is absent. */
  const Previous := GoogleFile(PreviousId, "", "", None, "", "")

  /** Which listing a path tail selects. */
  datatype View = MyDrive | SharedWithMe | Folder(folderId: string)

  /**
   * The view selected by the last path. An empty stack has no last element, so
   * the tail is `undefined`, which is neither top-level name and is sent as the
   * folder id "undefined".
   */
  function ViewOf(paths: seq<string>): (v: View)
    ensures |paths| > 0 && paths[|paths| - 1] == RootPath <==> v == MyDrive
    ensures |paths| > 0 && paths[|paths| - 1] == SharedPath <==> v == SharedWithMe
    ensures v.Folder? && |paths| > 0 ==> v.folderId == paths[|paths| - 1]
    ensures |paths| == 0 ==> v == Folder("undefined")
  {
    if |paths| == 0 then Folder("undefined")
    else
      var tail := paths[|paths| - 1];
      if tail == RootPath then MyDrive
      else if tail == SharedPath then SharedWithMe
      else Folder(tail)
  }

  /** The conditions of the listing a view asks the client for. */
  function ConditionsFor(v: View): (r: seq<string>)
    ensures v == MyDrive ==> r == ["'me' in owners", "'root' in parents"]
    ensures v == SharedWithMe ==> r == ["sharedWithMe"]
    ensures v.Folder? ==> r == ["'" + v.folderId + "' in parents"]
  {
    match v
    case MyDrive => MyDriveConditions
    case SharedWithMe => SharedConditions
    case Folder(id) => FolderConditions(id)
  }

  /**
   * What the list shows after a listing: a folder listing gets the go-up entry
   * in front, with the fetched entries after it in their order; the two
   * top-level views show the listing as it is.
   */
  function Displayed(v: View, listing: seq<GoogleFile>): (d: seq<GoogleFile>)
    ensures v.Folder? ==> |d| == |listing| + 1 && d[0] == Previous && d[1..] == listing
    ensures !v.Folder? ==> d == listing
  {
    if v.Folder? then [Previous] + listing else listing
  }

  /** What pressing an entry does. */
  datatype Press = GoBack | Open(folderId: string) | Download

  /** The sentinel id is checked first, then the folder type; anything else is downloaded. */
  function Classify(file: GoogleFile): (p: Press)
    ensures p == GoBack <==> file.id == PreviousId
    ensures p.Open? <==> file.id != PreviousId && file.mimeType == "application/vnd.google-apps.folder"
    ensures p.Open? ==> p.folderId == file.id
  {
    if file.id == PreviousId then GoBack
    else if IsFolder(file) then Open(file.id)
    else Download
  }

  /** The path stack after a press: go-up drops the last element (nothing on an empty stack), a folder is pushed. */
  function PathsAfter(paths: seq<string>, file: GoogleFile): (r: seq<string>)
    ensures Classify(file) == GoBack ==> r == if |paths| == 0 then [] else paths[..|paths| - 1]
    ensures Classify(file).Open? ==> |r| == |paths| + 1 && r[..|paths|] == paths && r[|paths|] == file.id
    ensures Classify(file) == Download ==> r == paths
  {
    match Classify(file)
    case GoBack => if |paths| == 0 then [] else paths[..|paths| - 1]
    case Open(id) => paths + [id]
    case Download => paths
  }

  /** Opening a folder and then pressing the go-up entry restores the stack. */
  lemma PushThenPop(paths: seq<string>, folder: GoogleFile)
    requires Classify(folder).Open?
    ensures PathsAfter(PathsAfter(paths, folder), Previous) == paths
  {
  }

  /** The record handed to `handlePick`. */
  datatype LocalFile = LocalFile(uri: string, mimetype: string, fileType: string, name: string, size: Option<nat>)

  /** The local file made from a downloaded entry: the uri of the download, the rest copied from the entry. */
  function ToLocalFile(file: GoogleFile, uri: string): (l: LocalFile)
    ensures l.uri == uri && l.name == file.name && l.size == file.size
    ensures l.mimetype == file.mimeType && l.fileType == file.mimeType
  {
    LocalFile(uri, file.mimeType, file.mimeType, file.name, file.size)
  }

  /** What a press ends with: a navigation and the outcome of its reload, a picked file, or a failed download. */
  datatype PressOutcome = Navigated(loaded: Result<seq<GoogleFile>>) | Picked(file: LocalFile) | PickFailed(error: Error)

  /** A listing as Drive returns it: no entry uses the sentinel id, and no folder id is a top-level name. */
  ghost predicate OrdinaryListing(listing: seq<GoogleFile>)
  {
    forall i | 0 <= i < |listing| ::
      listing[i].id != PreviousId && (IsFolder(listing[i]) ==> listing[i].id != RootPath && listing[i].id != SharedPath)
  }

  /** Different views ask for different listings: the request determines the view. */
  lemma ConditionsForInjective(v: View, w: View)
    requires ConditionsFor(v) == ConditionsFor(w)
    ensures v == w
  {
    if v.Folder? && w.Folder? {
      FolderConditionsInjective(v.folderId, w.folderId);
    }
  }

  /** The path stack as navigation keeps it: the root at the bottom, only ordinary folder ids above it. */
  ghost predicate StackWellformed(paths: seq<string>)
  {
    && |paths| >= 1
    && paths[0] == RootPath
    && (forall i | 1 <= i < |paths| :: paths[i] != RootPath && paths[i] != SharedPath)
  }

  /** The shown entries fit the stack: a go-up entry only above the root, and no folder named like a top-level view. */
  ghost predicate ShownWellformed(paths: seq<string>, data: seq<GoogleFile>)
  {
    && (forall i | 0 <= i < |data| :: data[i].id == PreviousId ==> |paths| >= 2)
    && (forall i | 0 <= i < |data| :: IsFolder(data[i]) ==> data[i].id != RootPath && data[i].id != SharedPath)
  }

  /**
   * The screen's state as navigation keeps it. While `loading` is set the
   * spinner covers the list, so the entries then shown (perhaps those of an
   * earlier stack) need not fit the stack.
   */
  ghost predicate Wellformed(paths: seq<string>, data: seq<GoogleFile>, loading: bool)
  {
    StackWellformed(paths) && (!loading ==> ShownWellformed(paths, data))
  }

  /** The initial state is well formed. */
  lemma InitialWellformed()
    ensures Wellformed([RootPath], [], false)
  {
  }

  /** A successful load of an ordinary listing for a well-formed stack shows entries that fit it. */
  lemma LoadKeepsWellformed(paths: seq<string>, listing: seq<GoogleFile>)
    requires StackWellformed(paths)
    requires OrdinaryListing(listing)
    ensures Wellformed(paths, Displayed(ViewOf(paths), listing), false)
  {
  }

  /** Pressing an entry shown while the spinner is off leaves a well-formed stack. */
  lemma PressKeepsWellformed(paths: seq<string>, data: seq<GoogleFile>, file: GoogleFile)
    requires Wellformed(paths, data, false)
    requires file in data
    ensures StackWellformed(PathsAfter(paths, file))
  {
  }

  /** In a well-formed state the shared view is never selected: nothing shown pushes "Shared". */
  lemma SharedViewUnreachable(paths: seq<string>)
    requires StackWellformed(paths)
    ensures ViewOf(paths) != SharedWithMe
  {
  }

  /** With the spinner off, a shown go-up entry means a folder opened above the root. */
  lemma SentinelOnlyAboveRoot(paths: seq<string>, data: seq<GoogleFile>)
    requires Wellformed(paths, data, false)
    requires Previous in data
    ensures |paths| >= 2 && ViewOf(paths) == Folder(paths[|paths| - 1])
  {
  }

  /**
   * A reload that fails leaves the old entries in `data` with the spinner on.
   * From a folder opened on the root, pressing the go-up entry and failing to
   * reload leaves a state that is well formed only because the spinner covers
   * the list. A second press of the stale go-up entry, were it to get past the
   * spinner, would empty the stack, and the next load would ask for the
   * children of the folder "undefined".
   */
  lemma StaleGoBackEmptiesPaths(folderId: string)
    requires folderId != RootPath && folderId != SharedPath
    ensures var shown := Displayed(ViewOf([RootPath, folderId]), []);
            var once := PathsAfter([RootPath, folderId], shown[0]);
            && Wellformed([RootPath, folderId], shown, false)
            && once == [RootPath]
            && Wellformed(once, shown, true)
            && !Wellformed(once, shown, false)
            && PathsAfter(once, shown[0]) == []
            && ViewOf(PathsAfter(once, shown[0])) == Folder("undefined")
  {
  }

  /** The two digits of a number, as characters. */
  function DigitChar(d: nat): char
    requires d < 10
  {
    ('0' as int + d) as char
  }

  function DigitValue(c: char): nat
  {
    if '0' <= c <= '9' then (c as int - '0' as int) as nat else 0
  }

  /** The decimal text of a natural number, as a template literal prints it. */
  function DecimalString(n: nat): (s: string)
    ensures |s| >= 1
    ensures s[|s| - 1] == DigitChar(n % 10)
    ensures n < 10 <==> |s| == 1
    ensures n >= 10 ==> s[|s| - 2] == DigitChar(n / 10 % 10)
  {
    if n < 10 then [DigitChar(n)] else DecimalString(n / 10) + [DigitChar(n % 10)]
  }

  /** `.slice(-2)`: the last two characters, or the whole text when it is shorter. */
  function LastTwo(s: string): (r: string)
    ensures |r| == if |s| <= 2 then |s| else 2
    ensures r == s[|s| - |r|..]
  {
    if |s| <= 2 then s else s[|s| - 2..]
  }

  /** `` `0${n}`.slice(-2) ``: the tens and units digits of the number. */
  function TwoDigits(n: nat): (r: string)
    ensures r == [DigitChar(n / 10 % 10), DigitChar(n % 10)]
  {
    var s := "0" + DecimalString(n);
    assert n < 10 ==> n / 10 % 10 == 0;
    LastTwo(s)
  }

  /** Reading two digits back. */
  function ParseTwoDigits(s: string): nat
    requires |s| == 2
  {
    10 * DigitValue(s[0]) + DigitValue(s[1])
  }

  lemma DigitRoundTrip(d: nat)
    requires d < 10
    ensures DigitValue(DigitChar(d)) == d
  {
  }

  /** The two digits read back give the number modulo 100. */
  lemma TwoDigitsRoundTrip(n: nat)
    ensures ParseTwoDigits(TwoDigits(n)) == n % 100
  {
    var t, u := n / 10 % 10, n % 10;
    DigitRoundTrip(t);
    DigitRoundTrip(u);
    TensAndUnits(n);
    assert ParseTwoDigits(TwoDigits(n)) == 10 * t + u;
  }

  /** The tens and units digits depend only on the number modulo 100. */
  lemma TensAndUnits(n: nat)
    ensures n / 10 % 10 == n % 100 / 10
    ensures n % 10 == n % 100 % 10
  {
    var q, r := n / 100, n % 100;
    assert n == 100 * q + r;
    assert n / 10 == 10 * q + r / 10;
  }

  /**
   * `_formatTime`: `DD/MM/YY` from the day of the month, the zero-based month
   * index and the full year, each cut to its last two digits.
   */
  function FormatTime(day: nat, monthIndex: nat, year: nat): (r: string)
    ensures |r| == 8 && r[2] == '/' && r[5] == '/'
    ensures r[..2] == TwoDigits(day) && r[3..5] == TwoDigits(monthIndex + 1) && r[6..] == TwoDigits(year)
  {
    TwoDigits(day) + "/" + TwoDigits(monthIndex + 1) + "/" + TwoDigits(year)
  }

  /** For a real date the day and month are read back exactly, and the year modulo 100. */
  lemma FormatTimeRoundTrip(day: nat, monthIndex: nat, year: nat)
    requires 1 <= day <= 31 && monthIndex <= 11
    ensures var r := FormatTime(day, monthIndex, year);
            && ParseTwoDigits(r[..2]) == day
            && ParseTwoDigits(r[3..5]) == monthIndex + 1
            && ParseTwoDigits(r[6..]) == year % 100
  {
    var r := FormatTime(day, monthIndex, year);
    assert r[..2] == TwoDigits(day) && r[3..5] == TwoDigits(monthIndex + 1) && r[6..] == TwoDigits(year);
    TwoDigitsReadBack(day);
    TwoDigitsReadBack(monthIndex + 1);
    TwoDigitsRoundTrip(year);
  }

  lemma TwoDigitsReadBack(n: nat)
    requires n < 100
    ensures ParseTwoDigits(TwoDigits(n)) == n
  {
    DigitRoundTrip(n / 10);
    DigitRoundTrip(n % 10);
  }

  const Gigabyte := 1073741824
  const Megabyte := 1048576
  const Kilobyte := 1024

  /** The unit a size is shown in; `NoUnit` is the empty size text. */
  datatype SizeUnit = GB | MB | KB | NoUnit

  /** The size-unit chain of `_renderItem`: strict comparisons, and an absent or zero size shows nothing. */
  function SizeUnitOf(size: Option<nat>): (u: SizeUnit)
    ensures u == NoUnit <==> size == None || size.value == 0
    ensures u == GB || u == MB ==> size.value > Divisor(u)
    ensures u == MB || u == KB ==> size.value <= 1024 * Divisor(u)
  {
    if size.Some? && size.value > Gigabyte then GB
    else if size.Some? && size.value > Megabyte then MB
    else if size.Some? && size.value != 0 then KB
    else NoUnit
  }

  /** The divisor of each unit. */
  function Divisor(u: SizeUnit): nat
  {
    match u
    case GB => Gigabyte
    case MB => Megabyte
    case KB => Kilobyte
    case NoUnit => 1
  }

  /** Which sizes fall in which unit; each bound is strict below and inclusive above. */
  lemma SizeUnitRanges(size: Option<nat>)
    ensures SizeUnitOf(size) == GB <==> size.Some? && size.value > 1073741824
    ensures SizeUnitOf(size) == MB <==> size.Some? && 1048576 < size.value <= 1073741824
    ensures SizeUnitOf(size) == KB <==> size.Some? && 0 < size.value <= 1048576
    ensures SizeUnitOf(size) == NoUnit <==> size == None || size == Some(0)
  {
  }

  /** Exactly one gibibyte is shown in MB and exactly one mebibyte in KB. */
  lemma ExactPowersFallBelow()
    ensures SizeUnitOf(Some(1073741824)) == MB
    ensures SizeUnitOf(Some(1048576)) == KB
    ensures SizeUnitOf(Some(500)) == KB
    ensures SizeUnitOf(Some(0)) == NoUnit
  {
  }

  function UnitRank(u: SizeUnit): nat
  {
    match u
    case NoUnit => 0
    case KB => 1
    case MB => 2
    case GB => 3
  }

  /** A larger size is never shown in a smaller unit. */
  lemma SizeUnitMonotone(a: nat, b: nat)
    requires a <= b
    ensures UnitRank(SizeUnitOf(Some(a))) <= UnitRank(SizeUnitOf(Some(b)))
  {
  }

  class GoogleDrivePicker {
    /** The client instance; the one-instance accessor never stores it, so each screen gets a fresh one. */
    const drive: GoogleDrive
    var paths: seq<string>
    var data: seq<GoogleFile>
    var loading: bool

    ghost predicate Valid()
      reads this
    {
      Wellformed(paths, data, loading)
    }

    constructor ()
      ensures paths == [RootPath] && data == [] && !loading
      ensures fresh(drive) && drive.apiToken == "" && drive.apiKey == "" && drive.tokenQueries == 0
      ensures Valid()
    {
      drive := new GoogleDrive();
      paths := [RootPath];
      data := [];
      loading := false;
    }

    /**
     * `loadData`: asks for the listing the stack's tail selects and shows it,
     * with the go-up entry in front for a folder. A failed listing leaves the
     * old entries and the spinner on.
     */
    method LoadData(provider: Result<Tokens>, fetch: (string, RequestOptions) -> Result<HttpResponse>)
      returns (loaded: Result<seq<GoogleFile>>)
      modifies this`data, this`loading, drive`apiToken, drive`tokenQueries
      ensures loaded == ListResult(old(drive.apiToken), drive.apiKey, ConditionsFor(ViewOf(paths)), provider, fetch)
      ensures drive.apiToken == TokenAfterLookup(old(drive.apiToken), provider)
      ensures loaded.Ok? ==> data == Displayed(ViewOf(paths), loaded.value) && !loading
      ensures loaded.Err? ==> data == old(data) && loading
      ensures drive.tokenQueries == old(drive.tokenQueries) + (if old(drive.apiToken) == "" then 1 else 0)
      ensures StackWellformed(paths) && (loaded.Ok? ==> OrdinaryListing(loaded.value)) ==> Valid()
    {
      var view := ViewOf(paths);
      loading := true;
      var listing: Result<seq<GoogleFile>>;
      match view {
        case MyDrive =>
          listing := drive.ListMyDrive(provider, fetch);
        case SharedWithMe =>
          listing := drive.ListSharedDrive(provider, fetch);
        case Folder(id) =>
          listing := drive.ListFiles(id, provider, fetch);
      }
      loaded := listing;
      if listing.Ok? {
        data := Displayed(view, listing.value);
        loading := false;
        if StackWellformed(paths) && OrdinaryListing(listing.value) {
          LoadKeepsWellformed(paths, listing.value);
        }
      }
    }

    /**
     * `handleItemPressed`: the go-up entry drops the last path and a folder
     * pushes its id, each followed by a reload; any other entry is downloaded
     * and becomes a local file, or its error, with the stack left as it is.
     */
    method HandleItemPressed(file: GoogleFile, provider: Result<Tokens>,
                             fetch: (string, RequestOptions) -> Result<HttpResponse>,
                             bridge: (string, string, seq<(string, string)>) -> NativeReply)
      returns (outcome: PressOutcome)
      modifies this`paths, this`data, this`loading, drive`apiToken, drive`tokenQueries
      ensures paths == PathsAfter(old(paths), file)
      ensures Classify(file) != Download ==>
                && outcome.Navigated?
                && outcome.loaded == ListResult(old(drive.apiToken), drive.apiKey, ConditionsFor(ViewOf(paths)),
                                                provider, fetch)
                && drive.apiToken == TokenAfterLookup(old(drive.apiToken), provider)
                && (outcome.loaded.Ok? ==> data == Displayed(ViewOf(paths), outcome.loaded.value) && !loading)
                && (outcome.loaded.Err? ==> data == old(data) && loading)
                && drive.tokenQueries == old(drive.tokenQueries) + (if old(drive.apiToken) == "" then 1 else 0)
      ensures Classify(file) == Download ==>
                && data == old(data) && !loading && drive.apiToken == old(drive.apiToken)
                && drive.tokenQueries == old(drive.tokenQueries)
                && var reply := bridge(DownloadUrl(file.id), file.name, [("Authorization", "Bearer " + drive.apiToken)]);
                   && (reply.Resolved? ==> outcome == Picked(ToLocalFile(file, reply.uri)))
                   && (reply.Rejected? ==> outcome == PickFailed(Message(DownloadErrorMessage(reply.message))))
      ensures (old(Valid()) && !old(loading) && file in old(data) &&
               (outcome.Navigated? && outcome.loaded.Ok? ==> OrdinaryListing(outcome.loaded.value))) ==> Valid()
    {
      if Valid() && !loading && file in data {
        PressKeepsWellformed(paths, data, file);
      }
      match Classify(file) {
        case GoBack | Open(_) =>
          paths := PathsAfter(paths, file);
          var loaded := LoadData(provider, fetch);
          outcome := Navigated(loaded);
        case Download =>
          loading := true;
          var uri := drive.DownloadFile(file, bridge);
          match uri {
            case Ok(u) =>
              outcome := Picked(ToLocalFile(file, u));
            case Err(e) =>
              outcome := PickFailed(e);
          }
          loading := false;
      }
    }
  }

  /**
   * A fresh screen loads the root, opens a folder and presses the go-up entry:
   * the three loads ask for the root, the folder and the root again, the
   * folder is shown behind a go-up entry, and the screen ends at the root with
   * the root listing shown as it is. The screen's client is fresh, so every
   * request carries an empty key, and the provider is asked once when its
   * first token is non-empty and on every load otherwise.
   */
  method BrowseIntoFolderAndBack(folder: GoogleFile, provider: Result<Tokens>,
                                 fetch: (string, RequestOptions) -> Result<HttpResponse>,
                                 bridge: (string, string, seq<(string, string)>) -> NativeReply)
    returns (first: Result<seq<GoogleFile>>, second: Result<seq<GoogleFile>>, third: Result<seq<GoogleFile>>,
             shownInFolder: seq<GoogleFile>, shownAtEnd: seq<GoogleFile>, pathsAtEnd: seq<string>,
             ghost asked: nat)
    requires Classify(folder).Open? && folder.id != RootPath && folder.id != SharedPath
    ensures first == ListResult("", "", ["'me' in owners", "'root' in parents"], provider, fetch)
    ensures second == ListResult(TokenAfterLookup("", provider), "", ["'" + folder.id + "' in parents"], provider, fetch)
    ensures second.Ok? ==> |shownInFolder| == |second.value| + 1 && shownInFolder[0] == Previous
                           && shownInFolder[1..] == second.value
    ensures third == ListResult(TokenAfterLookup("", provider), "", ["'me' in owners", "'root' in parents"], provider, fetch)
    ensures third.Ok? ==> shownAtEnd == third.value
    ensures pathsAtEnd == [RootPath]
    ensures asked == if provider.Ok? && provider.value.accessToken != "" then 1 else 3
  {
    ghost var token := TokenAfterLookup("", provider);
    ghost var later := if token == "" then 1 else 0;
    var screen := new GoogleDrivePicker();
    first := screen.LoadData(provider, fetch);
    assert screen.drive.apiToken == token && screen.drive.tokenQueries == 1;
    var entered := screen.HandleItemPressed(folder, provider, fetch, bridge);
    assert screen.paths == [RootPath, folder.id];
    assert screen.drive.apiToken == token && screen.drive.tokenQueries == 1 + later;
    second := entered.loaded;
    shownInFolder := screen.data;
    var back := screen.HandleItemPressed(Previous, provider, fetch, bridge);
    assert screen.paths == [RootPath];
    third := back.loaded;
    shownAtEnd := screen.data;
    pathsAtEnd := screen.paths;
    asked := screen.drive.tokenQueries;
  }
}
