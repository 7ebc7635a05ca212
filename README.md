# Mission Control dashboard, modelled in Dafny

Mission Control is a personal dashboard made of independent widgets. This project models the logic behind them:

- **the flight price store** behind `/api/flights`: GET reads it; POST applies one price observation to one route (`Flights`, with `FlightDataFile` standing for the JSON data file);
- **the flight monitor's display helpers**: chart scale, trend icon, colour and label, stop wording, date labels (`FlightChart`);
- **the quick-capture list**: add, tick off, delete, filtered view, counts and the Markdown export (`QuickCapture`, with `CaptureList` holding the list);
- **the project tracker**: status filter, case-insensitive search, stats bar, add, status change (`ProjectTracker`, with `ProjectBoard` holding the list);
- **the projects API** `/api/projects`: GET, whole-list POST, and the PATCH find-and-merge (`ProjectsApi`, with `ProjectStore` standing for the key-value store key);
- **the case tracker**: hosting-service detection, Google Drive preview and download links, the Dropbox direct-download rewrite, and the attorney, checklist and file list updates with their counts (`IkeaCase`, with `CaseTracker` holding the widget's data).

Two modules hold what the widgets share:

- `Basics`: an `Option` for undefined/null, `Filter` (Array.prototype.filter) with its algebra, `FirstIndex` (findIndex/find), and the subsequence relation.
- `Text`: the JavaScript string operations the widgets call:
  - trim, over the ECMAScript white-space set;
  - ASCII toLowerCase;
  - indexOf/includes;
  - replace with a string pattern;
  - split on one character, and join.

Every state change the source makes is a method of a class. Its `ensures` gives the new state as a pure function of the old state and the inputs, and lemmas prove the source's promises about those functions. Each method:

- replaces a React state cell (`setItems`, `setProjects`, `setData`);
- or, in the POST and PATCH handlers, updates a record or array in place and then writes it back.

Clock readings (`now`, an ISO timestamp), generated ids (`Date.now()`), the answer to `confirm()`, the configured API key and the request's Authorization header are parameters. "Today" is `IsoDate(now)`, the part before the `T`, which is what `toISOString().split('T')[0]` gives.

Some behaviour of the code is easy to expect otherwise; the model follows the code:

- **Lowest price.** `lowestPrice` is a running minimum that starts from the stored value: for Kona it starts at 698 although the current price is 718, and each new price lowers it only when it is lower still. It is not the minimum of the prices the data has seen. `Flights.LowestIsMinimumOfObserved` states what the code computes.
- **Partial updates.** Airline and duration are overwritten only by a truthy value, so an empty string is ignored; stops is overwritten by any value that is not undefined, 0 included.
- **Price validation.** No price validation exists: a zero or negative price is applied like any other.
- **Price alerts.** The "Set Alert" button has no handler, and the alert price only feeds its own input box: it is never compared with a price, so there is no alert logic.
- **Seed time stamps.** The seed routes are built once, when the route module is loaded, so their `lastChecked` and the seed `lastUpdated` are the load time (`FlightDataFile.loadedAt`), not the time of the request that reads them.

## Model

| member | source | states |
|---|---|---|
| Flights.StatusCode | src/app/api/flights/route.ts:94-103 | 200 exactly for a successful update, 401 exactly for a request without the expected bearer token, 404 exactly for an unknown route |
| Flights.ExpectedAuthorization | src/app/api/flights/route.ts:93-96 | the header must be "Bearer " and the configured key, or "Bearer nero-update-key" when the key is unset or empty |
| Flights.FindRoute | src/app/api/flights/route.ts:99 | a found index is in range and holds a route with the id; that it is the first such route, and None exactly when there is none, is stated by Flights.FindRouteSpec |
| Flights.FindRouteSpec | src/app/api/flights/route.ts:99-103 | the route found is the first with the id; none is found exactly when no route has it |
| Flights.NewTrend | src/app/api/flights/route.ts:120-127 | down exactly when the price fell, up exactly when it rose, stable exactly when it is unchanged |
| Flights.KeepLast | src/app/api/flights/route.ts:136 | `slice(-n)` for n ≥ 1, as used with 14: the last min(n, length) entries, as a suffix |
| Flights.UpdateRoutes | src/app/api/flights/route.ts:99-136 | None exactly when no route has the id; otherwise same length, only the first route with the id is replaced by its updated version, every other route unchanged |
| Flights.PartialUpdate | src/app/api/flights/route.ts:109-113 | price and lastChecked always set; airline and duration change only to a supplied non-empty value; stops follows any supplied value, 0 included; identity fields never change |
| Flights.LowestPriceRunningMinimum | src/app/api/flights/route.ts:115-118 | lowestPrice never increases, never exceeds the new current price, and is either the old lowest or the new price |
| Flights.TrendReplacesPrevious | src/app/api/flights/route.ts:120-127 | the prior trend has no influence on the new one; stable exactly for an unchanged price |
| Flights.KeepLastShort | src/app/api/flights/route.ts:136 | a history within the cap is kept whole |
| Flights.HistoryBounded | src/app/api/flights/route.ts:129-136 | the history never exceeds 14 entries after an update |
| Flights.UpsertToday | src/app/api/flights/route.ts:129-135 | specified by Flights.UpsertRepricesFirstToday and Flights.UpsertAppendsToday: the first entry for today is repriced, or (today, price) is appended |
| Flights.UpdatedHistory | src/app/api/flights/route.ts:129-136 | specified by Flights.HistoryBounded, Flights.TodayRecorded and Flights.UpdatedHistoryKeepsUniqueDates: the upsert followed by `slice(-14)` |
| Flights.UpsertRepricesFirstToday | src/app/api/flights/route.ts:130-132 | with an entry dated today, the first such entry gets the new price, nothing is added, every other entry is unchanged |
| Flights.UpsertAppendsToday | src/app/api/flights/route.ts:133-136 | without one, (today, price) is appended; after the cap it is the last entry, preceded by the most recent old entries |
| Flights.TodayRecorded | src/app/api/flights/route.ts:129-136 | from a history within the cap, today's price is in the updated history |
| Flights.UpsertKeepsUniqueDates | src/app/api/flights/route.ts:129-135 | updating or appending today's point keeps at most one entry per date |
| Flights.SuffixKeepsUniqueDates | src/app/api/flights/route.ts:136 | trimming the history to its newest entries keeps dates unique |
| Flights.UpdatedHistoryKeepsUniqueDates | src/app/api/flights/route.ts:129-136 | at most one entry per date is preserved by an update |
| Flights.SameDayCollapseExisting | src/app/api/flights/route.ts:130-136 | a second same-day update over an existing day entry equals the second update alone and does not grow the history |
| Flights.SameDayCollapseAppended | src/app/api/flights/route.ts:130-136 | the same when the first update appended the day |
| Flights.SameDayUpdatesCollapse | src/app/api/flights/route.ts:129-136 | two updates on one day leave one entry with the later price: the second acts as if the first had not happened |
| Flights.LowestIsMinimumOfObserved | src/app/api/flights/route.ts:115-118 | after any sequence of updates, lowestPrice is the minimum of the initial lowest price and every price applied |
| Flights.UpdatedRoute | src/app/api/flights/route.ts:105-136 | specified by Flights.PartialUpdate, Flights.LowestPriceRunningMinimum, Flights.NewTrend and the history lemmas; Flights.UpdateRoute proves the source's field-by-field mutation equal to it |
| Flights.UpdateRoute | src/app/api/flights/route.ts:105-136 | the field-by-field in-place mutation yields exactly the updated route |
| Flights.ReadData | src/app/api/flights/route.ts:60-71 | the file's data when it can be read; otherwise the two seed routes, with empty histories and every time stamp the load time |
| Flights.FlightDataFile.Get | src/app/api/flights/route.ts:80-84 | GET answers the file's data, or the seed data built at load time when there is none |
| Flights.FlightDataFile.Post | src/app/api/flights/route.ts:87-150 | a wrong bearer token is Unauthorized and nothing is written; an unknown id is RouteNotFound and nothing is written; otherwise the file holds the updated routes stamped `now`, and the response carries id, destination name, old price, new price and trend |
| Flights.KonaUnchangedPrice | src/app/api/flights/route.ts:28-41 | on the seed data, Kona re-checked at 718 is stable, keeps lowest 698 and records one entry for the day |
| Flights.SeedStampsOfOtherRoute | src/app/api/flights/route.ts:26-58 | with the file missing, a POST to Kona stamps Kona with the request time while Hilo keeps the load-time stamp |
| Flights.UnknownRouteNotFound | src/app/api/flights/route.ts:99-103 | an unknown id matches no seed route |
| FlightChart.MaxPrice | src/components/FlightMonitor.tsx:80 | for a non-empty history: at least every price and equal to one of them; None exactly for an empty history |
| FlightChart.MinPrice | src/components/FlightMonitor.tsx:81 | for a non-empty history: at most every price and equal to one of them; None exactly for an empty history |
| FlightChart.PriceRange | src/components/FlightMonitor.tsx:82 | at least 1; max − min when they differ; 1 when all prices are equal |
| FlightChart.TrendIcon | src/components/FlightMonitor.tsx:84-90 | specified by FlightChart.TrendRenderings and FlightChart.UpdateRendersTrend: rising, falling, and the arrow for anything else |
| FlightChart.TrendColor | src/components/FlightMonitor.tsx:92-98 | specified by FlightChart.TrendRenderings and FlightChart.UpdateRendersTrend: red for up, green for down, gray for anything else |
| FlightChart.TrendLabel | src/components/FlightMonitor.tsx:127 | specified by FlightChart.TrendRenderings and FlightChart.UpdateRendersTrend: "Dropping", "Rising", otherwise "Stable" |
| FlightChart.TrendRenderings | src/components/FlightMonitor.tsx:84-98 | any string other than "up"/"down" renders as stable; the three trends get pairwise different icons, colours and labels |
| FlightChart.UpdateRendersTrend | src/components/FlightMonitor.tsx:121-127 | a route updated by the flights API would render, if shown: a price that fell green "Dropping" with the falling icon, one that rose red "Rising", an unchanged one gray "Stable" with the arrow icon; the monitor renders its own static list and never reads the API, so the lemma relates the two pieces, not a call |
| FlightChart.StopWord | src/components/FlightMonitor.tsx:133 | "stops" exactly when stops > 1, "stop" for 0 and 1 |
| FlightChart.DateLabel | src/components/FlightMonitor.tsx:164 | specified by FlightChart.IsoDateLabel and FlightChart.DateLabelWithoutDash: the date's pieces after the first dash, joined by '/' |
| FlightChart.IsoDateLabel | src/components/FlightMonitor.tsx:164 | "YYYY-MM-DD" is labelled "MM/DD" |
| FlightChart.DateLabelWithoutDash | src/components/FlightMonitor.tsx:164 | a date without '-' gets an empty label |
| FlightChart.ActiveRoute | src/components/FlightMonitor.tsx:79 | the selected route is the first route in the list with the selected id; none means no route has it |
| FlightChart.InitialChart | src/components/FlightMonitor.tsx:25-82 | the initially selected Kona route exists; its chart spans 718 to 755, a range of 37 |
| Text.Trim | src/components/QuickCapture.tsx:84-89 | the result is no longer than the input and starts and ends with a non-white-space character; Text.TrimEmptyIff, Text.TrimIsInfix and Text.TrimIdempotent state the rest |
| Text.Lower | src/components/ProjectTracker.tsx:133 | same length, and no upper-case ASCII letter remains |
| Text.IndexOf | src/components/IkeaCase.tsx:225-228 | a found index is an occurrence and no earlier index is one; None exactly when the pattern occurs nowhere |
| Text.Contains | src/components/ProjectTracker.tsx:133 | specified by Text.ContainsIff |
| Text.ContainsIff | src/components/ProjectTracker.tsx:133 | includes holds exactly when the pattern occurs somewhere |
| Text.Split | src/components/FlightMonitor.tsx:164 | at least one piece, and no piece holds the separator; Text.JoinSplit and Text.SplitJoin relate it to Text.Join |
| Text.Join | src/components/QuickCapture.tsx:122 | a single piece is returned as it is; Text.JoinSplit, Text.SplitJoin and Text.JoinAppend state the rest |
| Text.TrimEmptyIff | src/components/QuickCapture.tsx:84 | `!s.trim()` holds exactly for all-white-space strings |
| Text.TrimIdempotent | src/components/QuickCapture.tsx:89 | trimming a trimmed string changes nothing |
| Text.TrimIsInfix | src/components/QuickCapture.tsx:89 | the trimmed string is a contiguous piece of the input |
| Text.LowerOfUpper | src/components/ProjectTracker.tsx:133 | upper-casing before lower-casing changes nothing |
| Text.ReplaceFirst | src/components/IkeaCase.tsx:259 | without an occurrence the string is unchanged; with one the length changes by the length difference |
| Text.ReplaceFirstShape | src/components/IkeaCase.tsx:259 | the text before the first occurrence is kept, the replacement follows, then the rest after the pattern |
| Text.JoinSplit | src/components/FlightMonitor.tsx:164 | joining a split with its separator gives the string back |
| Text.SplitJoin | src/components/QuickCapture.tsx:118-122 | splitting a join of separator-free parts gives the parts back |
| Text.IsoDate | src/app/api/flights/route.ts:105 | specified by Text.IsoDateOfTimestamp: the part of an ISO timestamp before the `T` |
| Text.IsoDateOfTimestamp | src/app/api/flights/route.ts:105 | the day of "DATE" + "T" + time is DATE |
| Basics.Filter | src/components/QuickCapture.tsx:104-110 | no longer than its input, and a value is kept exactly when it is in the input and passes; Basics.FilterMultiset and Basics.FilterIsSubsequence state multiplicity and order |
| Basics.FirstIndex | src/app/api/flights/route.ts:99 | a found index is in range and passes, every earlier index fails, and None means every index fails |
| Basics.FilterMultiset | src/components/QuickCapture.tsx:104-106 | filter keeps every copy of an element that passes and no copy of one that does not |
| Basics.FilterFilter | src/components/QuickCapture.tsx:108-110 | two chained filters are one filter by the conjunction |
| QuickCapture.WithItemAdded | src/components/QuickCapture.tsx:83-96 | blank input changes nothing; otherwise one new open item with the trimmed text in front, the old items after it in order |
| QuickCapture.AddedContentIsTrimmed | src/components/QuickCapture.tsx:84-89 | the stored content is non-empty, has no white space at either end and is its own trim |
| QuickCapture.Toggled | src/components/QuickCapture.tsx:98-102 | same length; every field but completed kept; completed flips exactly on items with the id |
| QuickCapture.ToggleTwice | src/components/QuickCapture.tsx:98-102 | toggling the same id twice restores the list |
| QuickCapture.Without | src/components/QuickCapture.tsx:104-106 | specified by QuickCapture.DeleteSpec |
| QuickCapture.DeleteSpec | src/components/QuickCapture.tsx:104-106 | no item with the id remains, every copy of every other item remains, order is kept |
| QuickCapture.FilteredItems | src/components/QuickCapture.tsx:108-110 | specified by QuickCapture.FilteredItemsSpec and QuickCapture.FilteredItemsCounts |
| QuickCapture.FilteredItemsSpec | src/components/QuickCapture.tsx:108-110 | the view is a subsequence of the list, and an item is in it exactly when its type passes and it is open or completed items are shown |
| QuickCapture.FilteredItemsCounts | src/components/QuickCapture.tsx:108-110 | an item that passes is shown as many times as it occurs in the list, one that does not is not shown |
| QuickCapture.PendingCount | src/components/QuickCapture.tsx:112 | specified by QuickCapture.PendingAtMostTasks and QuickCapture.AddItemCounts |
| QuickCapture.IdeasCount | src/components/QuickCapture.tsx:113 | specified by QuickCapture.AddItemCounts |
| QuickCapture.PendingAtMostTasks | src/components/QuickCapture.tsx:112 | pending count ≤ number of tasks ≤ number of items |
| QuickCapture.AddItemCounts | src/components/QuickCapture.tsx:112-113 | adding an idea raises the idea count by one and a task the pending count by one, nothing else |
| QuickCapture.ExportMarkdown | src/components/QuickCapture.tsx:115-122 | the document is the dated title line and a blank line, followed by the item lines joined by newlines |
| QuickCapture.ExportRecoverable | src/components/QuickCapture.tsx:115-122 | when no content or project holds a newline, the item lines can be read back from the document after its header |
| QuickCapture.ExportLines | src/components/QuickCapture.tsx:118-122 | one line per item |
| QuickCapture.ExportLine | src/components/QuickCapture.tsx:119-121 | specified by QuickCapture.ExportLineShape |
| QuickCapture.ExportLineShape | src/components/QuickCapture.tsx:119-121 | a line starts "- [" exactly for tasks, "- [x]" exactly for completed ones, shows the content right after checkbox and icon, and ends with " (project)" after the content exactly when the item names a non-empty project, with nothing after the content otherwise |
| QuickCapture.ExportLinesRecoverable | src/components/QuickCapture.tsx:118-122 | when no content or project holds a line break, splitting the body on "\n" gives back the item lines in order |
| QuickCapture.ExportEmpty | src/components/QuickCapture.tsx:116-117 | an empty list exports the title with the day alone |
| QuickCapture.ExportAppend | src/components/QuickCapture.tsx:117-122 | one more item adds "\n" and its line at the end |
| QuickCapture.CaptureList.AddItem | src/components/QuickCapture.tsx:83-96 | the list becomes the list with the item added |
| QuickCapture.CaptureList.ToggleComplete | src/components/QuickCapture.tsx:98-102 | the list becomes the toggled list |
| QuickCapture.CaptureList.DeleteItem | src/components/QuickCapture.tsx:104-106 | the list loses the items with the id |
| ProjectTracker.FilteredProjects | src/components/ProjectTracker.tsx:131-133 | specified by ProjectTracker.FilteredProjectsSpec and ProjectTracker.FilteredProjectsCounts |
| ProjectTracker.FilteredProjectsSpec | src/components/ProjectTracker.tsx:131-133 | the view is a subsequence, and a project is in it exactly when its status passes and its lower-cased name includes the lower-cased search |
| ProjectTracker.FilteredProjectsCounts | src/components/ProjectTracker.tsx:131-133 | a project that passes is shown as many times as it occurs in the list, one that does not is not shown |
| ProjectTracker.EmptySearchMatches | src/components/ProjectTracker.tsx:133 | every name matches the empty search |
| ProjectTracker.UnfilteredShowsAll | src/components/ProjectTracker.tsx:131-133 | 'all' with an empty search lists every project, in order |
| ProjectTracker.SearchIgnoresCase | src/components/ProjectTracker.tsx:133 | searches with equal lower-case forms list the same projects |
| ProjectTracker.UpperCaseSearch | src/components/ProjectTracker.tsx:133 | an upper-cased search lists the same projects |
| ProjectTracker.ProjectStats | src/components/ProjectTracker.tsx:135-140 | total is the list length and bounds each status count |
| ProjectTracker.StatsAccounting | src/components/ProjectTracker.tsx:135-140 | live + building + ideas + paused = total |
| ProjectTracker.StatsBounded | src/components/ProjectTracker.tsx:135-140 | live + building + ideas ≤ total |
| ProjectTracker.WithProjectAdded | src/components/ProjectTracker.tsx:142-155 | a blank name changes nothing; otherwise one project in front with the untrimmed name, given status and priority, revenue "-", today's date, no links; old list after it |
| ProjectTracker.AddProjectStats | src/components/ProjectTracker.tsx:135-155 | an added project raises the total and exactly its status's count by one |
| ProjectTracker.StatusUpdated | src/components/ProjectTracker.tsx:157-161 | same length; projects with the id get the status and today's date; others unchanged |
| ProjectTracker.StatusUpdateKeepsFields | src/components/ProjectTracker.tsx:157-161 | no field other than status and lastUpdated changes |
| ProjectTracker.StatusUpdateIdempotent | src/components/ProjectTracker.tsx:157-161 | repeating the change on the same day changes nothing more |
| ProjectTracker.StatusUpdateShownUnderFilter | src/components/ProjectTracker.tsx:131-161 | after the change, each project with the id is listed under its new status filter |
| ProjectTracker.ProjectBoard.AddProject | src/components/ProjectTracker.tsx:142-155 | the list becomes the list with the project added |
| ProjectTracker.ProjectBoard.UpdateStatus | src/components/ProjectTracker.tsx:157-161 | the list becomes the status-updated list for today |
| ProjectsApi.Merge | src/app/api/projects/route.ts:102-106 | the merged project's lastUpdated is today |
| ProjectsApi.MergeFields | src/app/api/projects/route.ts:102-106 | each field carried by the update replaces the stored one, id included; every other field keeps its value; lastUpdated is today whatever the update says |
| ProjectsApi.MergeEmpty | src/app/api/projects/route.ts:102-106 | an empty update only stamps the date |
| ProjectsApi.MergeIdempotent | src/app/api/projects/route.ts:102-106 | the same update twice on one day equals once |
| ProjectsApi.MergeCompose | src/app/api/projects/route.ts:102-106 | two merges equal one merge with the later-wins combination of the updates |
| ProjectsApi.PatchedList | src/app/api/projects/route.ts:95-106 | None exactly when no project has the id; otherwise same length, only the first project with the id is merged, all others unchanged |
| ProjectsApi.PatchOnlyFirstMatch | src/app/api/projects/route.ts:96-102 | a project behind an earlier one with the same id comes through unchanged |
| ProjectsApi.ListOf | src/app/api/projects/route.ts:38-44 | initialized exactly when the key holds a list; an empty list when it does not, the stored list when it does |
| ProjectsApi.ProjectStore.Get | src/app/api/projects/route.ts:38-44 | initialized exactly when the key has been written; the stored list when it has, an empty list when it has not |
| ProjectsApi.PatchStatus | src/app/api/projects/route.ts:91-110 | 200 exactly for a merged project, 400 exactly for a missing id or updates, 404 exactly for an unknown id |
| ProjectsApi.PostStatus | src/app/api/projects/route.ts:65-71 | 200 exactly when the list was saved, 400 exactly for a body whose `projects` is not an array |
| ProjectsApi.ProjectStore.Post | src/app/api/projects/route.ts:63-71 | a non-array is rejected and nothing is written; otherwise the list is stored whole and its length reported |
| ProjectsApi.ProjectStore.Patch | src/app/api/projects/route.ts:89-110 | missing or empty id, or missing updates: 400, nothing written; an absent key counts as an empty list; no project with the id: 404, nothing written; otherwise the store holds the patched list and the response carries the merged project |
| IkeaCase.GetFileService | src/components/IkeaCase.tsx:224-230 | Google exactly for drive/docs links; Dropbox, OneDrive and iCloud each exactly when all earlier hosts are absent and theirs is present; Other when none is present |
| IkeaCase.IdRunLength | src/components/IkeaCase.tsx:238 | the run of [a-zA-Z0-9_-] characters is maximal: all id characters, ended by the end of the string or a non-id character |
| IkeaCase.DriveIdFrom | src/components/IkeaCase.tsx:238 | the leftmost position where "/d/" is followed by an id character; none exactly when there is no such position |
| IkeaCase.DriveFileId | src/components/IkeaCase.tsx:238-240 | the capture group: none exactly when the pattern matches nowhere; otherwise a non-empty maximal id run right after the leftmost match |
| IkeaCase.GetPreviewUrl | src/components/IkeaCase.tsx:233-245 | a Google link with a file id becomes the Drive preview URL of that id; every other link is returned unchanged |
| IkeaCase.GetDownloadUrl | src/components/IkeaCase.tsx:248-263 | Google with id: the Drive download URL; Dropbox: first share host, then first "?dl=0" replaced; all else, Google without an id included, unchanged and never null |
| IkeaCase.PreviewLinkRoundTrip | src/components/IkeaCase.tsx:237-241 | a preview URL is a Google link whose file id is the id it was built from |
| IkeaCase.PreviewIdempotent | src/components/IkeaCase.tsx:233-245 | the preview of a preview URL is the same URL |
| IkeaCase.DownloadLinkStable | src/components/IkeaCase.tsx:250-255 | a Drive download URL is a Google link with no file-id match, so requesting its download URL returns it unchanged |
| IkeaCase.ShareHostReplaced | src/components/IkeaCase.tsx:259 | a share link is a Dropbox link and its host is replaced by the user-content host |
| IkeaCase.ShareFlagReplaced | src/components/IkeaCase.tsx:259 | then its "?dl=0" becomes "?dl=1" |
| IkeaCase.DropboxShareLink | src/components/IkeaCase.tsx:258-260 | the download URL of "https://www.dropbox.com/s/PATH?dl=0" is "https://dl.dropboxusercontent.com/s/PATH?dl=1" |
| IkeaCase.DropboxDirectLink | src/components/IkeaCase.tsx:258-260 | a Dropbox link without the share host and without "?dl=0" is returned unchanged |
| IkeaCase.AttorneyStatusSet | src/components/IkeaCase.tsx:630-635 | same length; attorneys with the id get the status and nothing else changes |
| IkeaCase.AttorneyNotesSet | src/components/IkeaCase.tsx:637-642 | same length; attorneys with the id get the notes and nothing else changes |
| IkeaCase.ChecklistToggled | src/components/IkeaCase.tsx:644-649 | same length; only completed changes, and it flips exactly on items with the id |
| IkeaCase.ToggleChecklistTwice | src/components/IkeaCase.tsx:644-649 | toggling twice restores the checklist |
| IkeaCase.WithAttorney | src/components/IkeaCase.tsx:651-662 | a blank name changes nothing; otherwise the form's fields, status pending and empty notes, appended at the end |
| IkeaCase.WithFile | src/components/IkeaCase.tsx:664-674 | a blank name changes nothing; otherwise the form's fields dated today, appended at the end |
| IkeaCase.WithTask | src/components/IkeaCase.tsx:676-685 | a blank task changes nothing; otherwise an open item with the untrimmed text appended at the end |
| IkeaCase.FilesWithout | src/components/IkeaCase.tsx:290-294 | specified by IkeaCase.DeleteFileSpec |
| IkeaCase.DeleteFileSpec | src/components/IkeaCase.tsx:290-294 | no file with the id remains, every copy of every other file remains (duplicates that updateFile can create included), order is kept |
| IkeaCase.FileReplaced | src/components/IkeaCase.tsx:296-299 | same length; every file with the edited file's id is replaced by it, the others kept |
| IkeaCase.FileReplacedIdempotent | src/components/IkeaCase.tsx:296-299 | saving the same edit again changes nothing |
| IkeaCase.CompletedTasks | src/components/IkeaCase.tsx:687 | specified by IkeaCase.CountsBounded and IkeaCase.AddCounts |
| IkeaCase.PendingAttorneys | src/components/IkeaCase.tsx:688 | specified by IkeaCase.CountsBounded and IkeaCase.AddCounts |
| IkeaCase.ContactedAttorneys | src/components/IkeaCase.tsx:689 | specified by IkeaCase.CountsBounded and IkeaCase.AddCounts |
| IkeaCase.CountsBounded | src/components/IkeaCase.tsx:687-689 | completed ≤ checklist length; pending + contacted ≤ number of attorneys |
| IkeaCase.AddCounts | src/components/IkeaCase.tsx:651-689 | an added attorney is one more pending and changes the contacted count not; an added task leaves the completed count unchanged |
| IkeaCase.CaseTracker.UpdateAttorneyStatus | src/components/IkeaCase.tsx:630-635 | only the attorney list changes, to its status-updated form |
| IkeaCase.CaseTracker.UpdateAttorneyNotes | src/components/IkeaCase.tsx:637-642 | only the attorney list changes, to its notes-updated form |
| IkeaCase.CaseTracker.ToggleChecklist | src/components/IkeaCase.tsx:644-649 | only the checklist changes, to its toggled form |
| IkeaCase.CaseTracker.AddAttorney | src/components/IkeaCase.tsx:651-662 | only the attorney list changes, by the added attorney |
| IkeaCase.CaseTracker.AddFile | src/components/IkeaCase.tsx:664-674 | only the file list changes, by the added file dated today |
| IkeaCase.CaseTracker.AddTask | src/components/IkeaCase.tsx:676-685 | only the checklist changes, by the added task |
| IkeaCase.CaseTracker.DeleteFile | src/components/IkeaCase.tsx:290-294 | declined: nothing changes; confirmed: only the file list changes, losing the files with the id |
| IkeaCase.CaseTracker.UpdateFile | src/components/IkeaCase.tsx:296-299 | only the file list changes, with the edited file in place |

## Left out

- File I/O in the flights route (`existsSync`, `readFileSync`, `writeFileSync`). The file is the `contents` field; a missing or unparseable file is None and reads as the seed data. A failed write is not modelled.
- The Redis client, the environment-variable checks and their 503 answers, the 500 answers of the catch blocks, and the health route. These are connection plumbing.
- HTTP and JSON handling. The request body arrives already decoded:
  - a POST to `/api/projects` whose `projects` is not an array arrives as None;
  - a falsy PATCH `id` or `updates` arrives as None (an empty-string id is checked explicitly);
  - a truthy non-object `updates` value and unknown keys in it are not modelled.
- The flights route's catch-all 400 for a malformed body is not modelled. The body is parsed before the key check, so such a request gets 400 even when unauthorized.
- Prices and stops are mathematical integers. Floating-point prices, NaN and a price sent as a string are not modelled.
- The chart bar height is a floating-point percentage and is not modelled.
- FlightChart.MaxPrice, FlightChart.MinPrice, FlightChart.PriceRange: for an empty history the source computes −Infinity, Infinity and −Infinity; the model answers None instead.
- FlightChart.ActiveRoute: the source asserts the selected route exists (`!`); the model returns None when it does not.
- Flights.FlightDataFile.Post: the handler reads the clock three times, for `today`, for `lastChecked` and for the file's `lastUpdated`. The model uses one reading, `now`, for all three, so it cannot show a POST near midnight whose history day differs from the day of `lastChecked`. The three readings that stamp the seed data at load time are one reading too, `loadedAt`.
- The seed data is one module-level object, and a POST on a missing file updates that object in place before writing it. Were the write to fail, later reads would see the updated seed; the model does not capture this aliasing, since a failed write is not modelled.
- A flights POST body without `price` is not modelled: the code would set `currentPrice` to undefined, leave `lowestPrice` alone, write the trend 'stable' and record a history point without a price. `PriceUpdate.price` is always present.
- A flights POST body with `stops: null` is not modelled: null passes the `!== undefined` test and would be stored. `PriceUpdate.stops` is a number or absent.
- The statute-of-limitations countdown depends on the wall clock and floating-point division, and is not modelled.
- Browser effects are not modelled:
  - localStorage loading and saving, and the demo items loaded on first use;
  - the clipboard copy and its timer;
  - the Blob and anchor download of the Markdown export;
  - `toLocaleDateString`.
- Resetting a form after an add and closing the add dialogs are UI state and are not modelled.
- Text.Lower: toLowerCase is modelled on ASCII letters only; other letters keep their case.
- The regular expression `/\/d\/([a-zA-Z0-9_-]+)/` is modelled as an explicit scan: the leftmost "/d/" followed by an id character, then the longest run of id characters.
- QuickCapture.Toggled: an item stored without `completed` counts as not completed.
- Rendering is not modelled: the JSX, the style tables, and the tab switching of the page.
