// The case tracker widget: attorneys contacted about the case, a
// checklist of tasks and a list of case files with links to file hosting
// services. It classifies a link by its hosting service, rewrites Google
// Drive links into preview and download links and Dropbox share links into
// direct downloads, and updates the three lists. CaseTracker holds the
// `data` state cell.
module IkeaCase {
  import opened Basics
  import opened Text

  datatype AttorneyStatus = Contacted | Pending | Declined | Interested | Hired

  datatype Attorney = Attorney(
    id: string,
    name: string,
    firm: string,
    phone: Option<string>,
    email: Option<string>,
    website: Option<string>,
    status: AttorneyStatus,
    notes: string,
    dateContacted: Option<string>,
    specialty: Option<string>)

  datatype ChecklistItem = ChecklistItem(
    id: string,
    task: string,
    completed: bool,
    dueDate: Option<string>,
    notes: Option<string>)

  datatype FileType = Document | Photo | Video | Report | Correspondence

  datatype CaseFile = CaseFile(
    id: string,
    name: string,
    kind: FileType,
    url: Option<string>,
    localPath: Option<string>,
    description: Option<string>,
    dateAdded: string)

  datatype CaseData = CaseData(
    attorneys: seq<Attorney>,
    checklist: seq<ChecklistItem>,
    files: seq<CaseFile>,
    notes: string)

  /** The add-attorney form: every field is a string, empty when not filled in. */
  datatype AttorneyForm = AttorneyForm(
    name: string, firm: string, phone: string, email: string, website: string, specialty: string)

  /** The add-file form. */
  datatype FileForm = FileForm(name: string, kind: FileType, url: string, description: string)

  // ---------------------------------------------------------------------
  // Links to hosted files

  datatype FileService = Google | Dropbox | OneDrive | ICloud | Other

  predicate IsGoogleLink(url: string) {
    Contains(url, "drive.google.com") || Contains(url, "docs.google.com")
  }

  predicate IsOneDriveLink(url: string) {
    Contains(url, "onedrive.live.com") || Contains(url, "1drv.ms")
  }

  /** getFileService: the host names are tried in a fixed order, Google
      first, and the first that occurs in the link decides. */
  function GetFileService(url: string): (s: FileService)
    ensures s == Google <==> IsGoogleLink(url)
    ensures s == Dropbox <==> !IsGoogleLink(url) && Contains(url, "dropbox.com")
    ensures s == OneDrive <==> !IsGoogleLink(url) && !Contains(url, "dropbox.com") && IsOneDriveLink(url)
    ensures s == ICloud <==>
      !IsGoogleLink(url) && !Contains(url, "dropbox.com") && !IsOneDriveLink(url) && Contains(url, "icloud.com")
    ensures s == Other <==>
      !IsGoogleLink(url) && !Contains(url, "dropbox.com") && !IsOneDriveLink(url) && !Contains(url, "icloud.com")
  {
    if IsGoogleLink(url) then Google
    else if Contains(url, "dropbox.com") then Dropbox
    else if IsOneDriveLink(url) then OneDrive
    else if Contains(url, "icloud.com") then ICloud
    else Other
  }

  /** The characters of a Drive file id: [a-zA-Z0-9_-]. */
  predicate IsIdChar(c: char) {
    ('a' <= c <= 'z') || ('A' <= c <= 'Z') || ('0' <= c <= '9') || c == '_' || c == '-'
  }

  /** The pattern /\/d\/([a-zA-Z0-9_-]+)/ can match at `j`: "/d/" followed by
      at least one id character. */
  predicate DriveIdAt(url: string, j: int) {
    OccursAt(url, "/d/", j) && j + 3 < |url| && IsIdChar(url[j + 3])
  }

  /** The length of the run of id characters starting at `k`. */
  function IdRunLength(url: string, k: nat): (n: nat)
    requires k <= |url|
    ensures k + n <= |url|
    ensures forall i :: k <= i < k + n ==> IsIdChar(url[i])
    ensures k + n == |url| || !IsIdChar(url[k + n])
    decreases |url| - k
  {
    if k < |url| && IsIdChar(url[k]) then 1 + IdRunLength(url, k + 1) else 0
  }

  /** The leftmost position from `k` on where the pattern matches. */
  function DriveIdFrom(url: string, k: nat): (r: Option<nat>)
    requires k <= |url|
    ensures r.Some? ==> k <= r.value && DriveIdAt(url, r.value)
    ensures r.Some? ==> forall j :: k <= j < r.value ==> !DriveIdAt(url, j)
    ensures r.None? ==> forall j :: k <= j <= |url| ==> !DriveIdAt(url, j)
    decreases |url| - k
  {
    if DriveIdAt(url, k) then Some(k)
    else if k == |url| then None
    else DriveIdFrom(url, k + 1)
  }

  /** The pattern's capture group: the longest run of id characters after
      the leftmost "/d/" that is followed by one. */
  function DriveFileId(url: string): (id: Option<string>)
    ensures id.None? <==> forall j :: 0 <= j <= |url| ==> !DriveIdAt(url, j)
    ensures id.Some? ==> id.value != [] && forall i :: 0 <= i < |id.value| ==> IsIdChar(id.value[i])
    ensures id.Some? ==>
      (exists j :: 0 <= j && DriveIdAt(url, j) && (forall k :: 0 <= k < j ==> !DriveIdAt(url, k)) &&
         j + 3 + |id.value| <= |url| && url[j + 3..j + 3 + |id.value|] == id.value &&
         (j + 3 + |id.value| == |url| || !IsIdChar(url[j + 3 + |id.value|])))
  {
    match DriveIdFrom(url, 0)
    case None => None
    case Some(j) =>
      var n := IdRunLength(url, j + 3);
      Some(url[j + 3..j + 3 + n])
  }

  /** A match of "/d/", character by character. */
  lemma SlashDSlash(s: string, j: int)
    ensures OccursAt(s, "/d/", j) <==>
      0 <= j && j + 3 <= |s| && s[j] == '/' && s[j + 1] == 'd' && s[j + 2] == '/'
  {
    if 0 <= j && j + 3 <= |s| {
      assert s[j..j + 3] == [s[j], s[j + 1], s[j + 2]];
    }
  }

  const DriveHost: string := "drive.google.com"
  const PreviewPrefix: string := "https://" + DriveHost + "/file" + "/d/"
  const PreviewSuffix: string := "/preview"
  const DownloadPrefix: string := "https://" + DriveHost + "/uc?export=download&id="

  /** Where the Drive host and the "/d/" pattern sit in the two link prefixes. */
  lemma PrefixLayout()
    ensures |PreviewPrefix| == 32 && |DownloadPrefix| == 47
    ensures PreviewPrefix[8..24] == DriveHost && DownloadPrefix[8..24] == DriveHost
    ensures PreviewPrefix[29..32] == "/d/"
    ensures forall j :: 0 <= j < 29 ==>
      !(PreviewPrefix[j] == '/' && PreviewPrefix[j + 1] == 'd' && PreviewPrefix[j + 2] == '/')
  {
  }

  lemma DownloadPrefixLayout()
    ensures forall j :: 0 <= j < 24 ==>
      !(DownloadPrefix[j] == '/' && DownloadPrefix[j + 1] == 'd' && DownloadPrefix[j + 2] == '/')
    ensures forall j :: 24 <= j < 45 ==>
      !(DownloadPrefix[j] == '/' && DownloadPrefix[j + 1] == 'd' && DownloadPrefix[j + 2] == '/')
  {
  }

  /** getPreviewUrl: a Google link with a file id becomes the Drive preview
      page of that file; every other link is returned as it is. */
  function GetPreviewUrl(url: string): (r: string)
    ensures GetFileService(url) == Google && DriveFileId(url).Some? ==>
      r == PreviewPrefix + DriveFileId(url).value + PreviewSuffix
    ensures GetFileService(url) != Google || DriveFileId(url).None? ==> r == url
  {
    if GetFileService(url) == Google && DriveFileId(url).Some? then
      PreviewPrefix + DriveFileId(url).value + PreviewSuffix
    else url
  }

  /** getDownloadUrl: a Google link with a file id becomes the Drive download
      link; a Dropbox link has its first "www.dropbox.com" replaced by the
      direct-download host and then its first "?dl=0" by "?dl=1"; every other
      link is returned as it is (so the result is never null). */
  function GetDownloadUrl(url: string): (r: string)
    ensures GetFileService(url) == Google && DriveFileId(url).Some? ==>
      r == DownloadPrefix + DriveFileId(url).value
    ensures GetFileService(url) == Dropbox ==>
      r == ReplaceFirst(ReplaceFirst(url, "www.dropbox.com", "dl.dropboxusercontent.com"), "?dl=0", "?dl=1")
    ensures GetFileService(url) != Google && GetFileService(url) != Dropbox ==> r == url
    ensures GetFileService(url) == Google && DriveFileId(url).None? ==> r == url
  {
    var service := GetFileService(url);
    if service == Google && DriveFileId(url).Some? then DownloadPrefix + DriveFileId(url).value
    else if service == Dropbox then
      ReplaceFirst(ReplaceFirst(url, "www.dropbox.com", "dl.dropboxusercontent.com"), "?dl=0", "?dl=1")
    else url
  }

  /** A Drive preview link is read back as the file it shows: it is a Google
      link and its file id is the one it was built from. */
  lemma PreviewLinkRoundTrip(id: string)
    requires id != [] && forall i :: 0 <= i < |id| ==> IsIdChar(id[i])
    ensures GetFileService(PreviewPrefix + id + PreviewSuffix) == Google
    ensures DriveFileId(PreviewPrefix + id + PreviewSuffix) == Some(id)
  {
    PrefixLayout();
    var url := PreviewPrefix + id + PreviewSuffix;
    assert url[..32] == PreviewPrefix;
    assert url[8..24] == DriveHost;
    assert OccursAt(url, "drive.google.com", 8);
    forall j | 0 <= j < 29 ensures !DriveIdAt(url, j) {
      SlashDSlash(url, j);
      assert url[j] == PreviewPrefix[j] && url[j + 1] == PreviewPrefix[j + 1] && url[j + 2] == PreviewPrefix[j + 2];
    }
    assert DriveIdAt(url, 29) by {
      assert url[29..32] == "/d/";
      assert url[32] == id[0];
    }
    var r := DriveIdFrom(url, 0);
    assert r == Some(29);
    var n := IdRunLength(url, 32);
    assert url[32..32 + |id|] == id;
    assert forall i :: 32 <= i < 32 + |id| ==> url[i] == id[i - 32];
    assert url[32 + |id|] == '/';
    assert n == |id|;
  }

  /** Asking for the preview of a preview link gives the same link. */
  lemma PreviewIdempotent(url: string)
    ensures GetPreviewUrl(GetPreviewUrl(url)) == GetPreviewUrl(url)
  {
    if GetFileService(url) == Google && DriveFileId(url).Some? {
      PreviewLinkRoundTrip(DriveFileId(url).value);
    }
  }

  /** The download link of a Drive file is a Google link with no "/d/" id
      pattern in it, so asking again leaves it as it is. */
  lemma DownloadLinkStable(id: string)
    requires forall i :: 0 <= i < |id| ==> IsIdChar(id[i])
    ensures GetFileService(DownloadPrefix + id) == Google
    ensures DriveFileId(DownloadPrefix + id).None?
    ensures GetDownloadUrl(DownloadPrefix + id) == DownloadPrefix + id
  {
    PrefixLayout();
    DownloadPrefixLayout();
    var url := DownloadPrefix + id;
    assert url[8..24] == DriveHost;
    assert OccursAt(url, "drive.google.com", 8);
    forall j | 0 <= j <= |url| ensures !DriveIdAt(url, j) {
      SlashDSlash(url, j);
      if j + 3 <= |url| {
        if j + 2 < 47 {
          assert url[j] == DownloadPrefix[j] && url[j + 1] == DownloadPrefix[j + 1] && url[j + 2] == DownloadPrefix[j + 2];
        } else {
          assert url[j + 2] == id[j + 2 - 47];
        }
      }
    }
  }

  /** A Dropbox link without the share host and without "?dl=0" downloads as it is. */
  lemma DropboxDirectLink(url: string)
    requires GetFileService(url) == Dropbox
    requires !Contains(url, "www.dropbox.com") && !Contains(url, "?dl=0")
    ensures GetDownloadUrl(url) == url
  {
  }

  const ShareHost: string := "www.dropbox.com"
  const DirectHost: string := "dl.dropboxusercontent.com"

  /** A Dropbox share link for `path`, and the direct link it is rewritten to. */
  function ShareLink(path: string): string { "https://" + ShareHost + "/s/" + path + "?dl=0" }
  function DirectLink(path: string): string { "https://" + DirectHost + "/s/" + path + "?dl=1" }

  lemma ShareHostReplaced(path: string)
    ensures Contains(ShareLink(path), "dropbox.com")
    ensures ReplaceFirst(ShareLink(path), ShareHost, DirectHost) == "https://" + DirectHost + "/s/" + path + "?dl=0"
  {
    var url := ShareLink(path);
    assert url[12..23] == "dropbox.com";
    assert OccursAt(url, "dropbox.com", 12);
    assert url[8..23] == ShareHost;
    forall k | 0 <= k < 8 ensures !OccursAt(url, ShareHost, k) {
      OccursAtHead(url, ShareHost, k);
      assert url[k] == "https://"[k];
    }
    IndexOfLeftmost(url, ShareHost, 8);
    assert url[..8] == "https://";
    assert url[23..] == "/s/" + path + "?dl=0";
  }

  lemma NoQuestionMark()
    ensures forall k :: 0 <= k < |"https://" + DirectHost + "/s/"| ==> ("https://" + DirectHost + "/s/")[k] != '?'
  {
  }

  lemma ShareFlagReplaced(path: string)
    requires '?' !in path
    ensures ReplaceFirst("https://" + DirectHost + "/s/" + path + "?dl=0", "?dl=0", "?dl=1") == DirectLink(path)
  {
    var head := "https://" + DirectHost + "/s/";
    var once := head + path + "?dl=0";
    var m := |head| + |path|;
    assert once[m..m + 5] == "?dl=0";
    NoQuestionMark();
    forall k | 0 <= k < m ensures !OccursAt(once, "?dl=0", k) {
      OccursAtHead(once, "?dl=0", k);
      if k < |head| {
        assert once[k] == head[k];
      } else {
        assert once[k] == path[k - |head|];
      }
    }
    IndexOfLeftmost(once, "?dl=0", m);
    assert once[..m] == head + path;
    assert once[m + 5..] == [];
  }

  /** A Dropbox share link ("?dl=0") becomes the direct-download link of the
      same file ("?dl=1" on the user-content host). */
  lemma DropboxShareLink(path: string)
    requires '?' !in path
    requires !IsGoogleLink(ShareLink(path))
    ensures GetFileService(ShareLink(path)) == Dropbox
    ensures GetDownloadUrl(ShareLink(path)) == DirectLink(path)
  {
    ShareHostReplaced(path);
    ShareFlagReplaced(path);
  }

  // ---------------------------------------------------------------------
  // List updates

  /** updateAttorneyStatus: the attorneys with the id get the status. */
  function AttorneyStatusSet(attorneys: seq<Attorney>, id: string, status: AttorneyStatus): (r: seq<Attorney>)
    ensures |r| == |attorneys|
    ensures forall i :: 0 <= i < |attorneys| ==> r[i] == attorneys[i].(status := r[i].status)
    ensures forall i :: 0 <= i < |attorneys| && attorneys[i].id == id ==> r[i].status == status
    ensures forall i :: 0 <= i < |attorneys| && attorneys[i].id != id ==> r[i] == attorneys[i]
  {
    seq(|attorneys|, i requires 0 <= i < |attorneys| =>
      if attorneys[i].id == id then attorneys[i].(status := status) else attorneys[i])
  }

  /** updateAttorneyNotes: the attorneys with the id get the notes. */
  function AttorneyNotesSet(attorneys: seq<Attorney>, id: string, notes: string): (r: seq<Attorney>)
    ensures |r| == |attorneys|
    ensures forall i :: 0 <= i < |attorneys| ==> r[i] == attorneys[i].(notes := r[i].notes)
    ensures forall i :: 0 <= i < |attorneys| && attorneys[i].id == id ==> r[i].notes == notes
    ensures forall i :: 0 <= i < |attorneys| && attorneys[i].id != id ==> r[i] == attorneys[i]
  {
    seq(|attorneys|, i requires 0 <= i < |attorneys| =>
      if attorneys[i].id == id then attorneys[i].(notes := notes) else attorneys[i])
  }

  /** toggleChecklist: the items with the id have `completed` flipped. */
  function ChecklistToggled(checklist: seq<ChecklistItem>, id: string): (r: seq<ChecklistItem>)
    ensures |r| == |checklist|
    ensures forall i :: 0 <= i < |checklist| ==>
      r[i] == checklist[i].(completed := r[i].completed)
    ensures forall i :: 0 <= i < |checklist| ==> (r[i].completed != checklist[i].completed <==> checklist[i].id == id)
  {
    seq(|checklist|, i requires 0 <= i < |checklist| =>
      if checklist[i].id == id then checklist[i].(completed := !checklist[i].completed) else checklist[i])
  }

  /** Ticking the same item twice restores the checklist. */
  lemma ToggleChecklistTwice(checklist: seq<ChecklistItem>, id: string)
    ensures ChecklistToggled(ChecklistToggled(checklist, id), id) == checklist
  {
  }

  /** addAttorney: a blank name changes nothing; otherwise the form becomes a
      new attorney, still to be contacted and without notes, at the end. */
  function WithAttorney(attorneys: seq<Attorney>, form: AttorneyForm, id: string): (r: seq<Attorney>)
    ensures AllSpace(form.name) ==> r == attorneys
    ensures !AllSpace(form.name) ==>
      && |r| == |attorneys| + 1 && r[..|attorneys|] == attorneys
      && r[|attorneys|] == Attorney(id, form.name, form.firm, Some(form.phone), Some(form.email),
                                    Some(form.website), Pending, "", None, Some(form.specialty))
  {
    TrimEmptyIff(form.name);
    if Trim(form.name) == "" then attorneys
    else attorneys + [Attorney(id, form.name, form.firm, Some(form.phone), Some(form.email),
                               Some(form.website), Pending, "", None, Some(form.specialty))]
  }

  /** addFile: a blank name changes nothing; otherwise the form becomes a new
      file added today, at the end. */
  function WithFile(files: seq<CaseFile>, form: FileForm, id: string, today: string): (r: seq<CaseFile>)
    ensures AllSpace(form.name) ==> r == files
    ensures !AllSpace(form.name) ==>
      && |r| == |files| + 1 && r[..|files|] == files
      && r[|files|] == CaseFile(id, form.name, form.kind, Some(form.url), None, Some(form.description), today)
  {
    TrimEmptyIff(form.name);
    if Trim(form.name) == "" then files
    else files + [CaseFile(id, form.name, form.kind, Some(form.url), None, Some(form.description), today)]
  }

  /** addTask: a blank task changes nothing; otherwise an open item with the
      task text as typed goes at the end. */
  function WithTask(checklist: seq<ChecklistItem>, task: string, id: string): (r: seq<ChecklistItem>)
    ensures AllSpace(task) ==> r == checklist
    ensures !AllSpace(task) ==>
      && |r| == |checklist| + 1 && r[..|checklist|] == checklist
      && r[|checklist|] == ChecklistItem(id, task, false, None, None)
  {
    TrimEmptyIff(task);
    if Trim(task) == "" then checklist
    else checklist + [ChecklistItem(id, task, false, None, None)]
  }

  /** deleteFile once confirmed: keep the files whose id differs. */
  function FilesWithout(files: seq<CaseFile>, id: string): seq<CaseFile> {
    Filter(files, (f: CaseFile) => f.id != id)
  }

  /** Deleting removes every file with the id, keeps every copy of every
      other file, and keeps their order. */
  lemma DeleteFileSpec(files: seq<CaseFile>, id: string)
    ensures forall i :: 0 <= i < |FilesWithout(files, id)| ==> FilesWithout(files, id)[i].id != id
    ensures forall i :: 0 <= i < |files| && files[i].id != id ==> files[i] in FilesWithout(files, id)
    ensures forall f :: multiset(FilesWithout(files, id))[f] == if f.id != id then multiset(files)[f] else 0
    ensures IsSubsequence(FilesWithout(files, id), files)
  {
    var r := FilesWithout(files, id);
    FilterIsSubsequence(files, (f: CaseFile) => f.id != id);
    FilterMultiset(files, (f: CaseFile) => f.id != id);
    forall i | 0 <= i < |r| ensures r[i].id != id {
      assert r[i] in r;
    }
  }

  /** updateFile: every file with the edited file's id is replaced by it. */
  function FileReplaced(files: seq<CaseFile>, edited: CaseFile): (r: seq<CaseFile>)
    ensures |r| == |files|
    ensures forall i :: 0 <= i < |files| && files[i].id == edited.id ==> r[i] == edited
    ensures forall i :: 0 <= i < |files| && files[i].id != edited.id ==> r[i] == files[i]
    ensures forall i :: 0 <= i < |r| ==> r[i] == edited || r[i] in files
  {
    seq(|files|, i requires 0 <= i < |files| => if files[i].id == edited.id then edited else files[i])
  }

  /** Saving an unchanged edit changes nothing once every file with that id is it. */
  lemma FileReplacedIdempotent(files: seq<CaseFile>, edited: CaseFile)
    ensures FileReplaced(FileReplaced(files, edited), edited) == FileReplaced(files, edited)
  {
  }

  // ---------------------------------------------------------------------
  // Counts

  predicate IsCompleted(c: ChecklistItem) { c.completed }
  predicate IsPending(a: Attorney) { a.status == Pending }
  predicate IsContacted(a: Attorney) { a.status == Contacted || a.status == Interested }

  function CompletedTasks(checklist: seq<ChecklistItem>): nat {
    |Filter(checklist, IsCompleted)|
  }

  function PendingAttorneys(attorneys: seq<Attorney>): nat {
    |Filter(attorneys, IsPending)|
  }

  function ContactedAttorneys(attorneys: seq<Attorney>): nat {
    |Filter(attorneys, IsContacted)|
  }

  /** Each count is at most its list's length, and no attorney is counted
      both as pending and as contacted. */
  lemma CountsBounded(data: CaseData)
    ensures CompletedTasks(data.checklist) <= |data.checklist|
    ensures PendingAttorneys(data.attorneys) + ContactedAttorneys(data.attorneys) <= |data.attorneys|
  {
    FilterDisjoint(data.attorneys, IsPending, IsContacted);
  }

  /** A new attorney is one more to contact; a new task is not yet completed. */
  lemma {:induction false} AddCounts(data: CaseData, form: AttorneyForm, task: string, id: string)
    ensures PendingAttorneys(WithAttorney(data.attorneys, form, id)) ==
      PendingAttorneys(data.attorneys) + (if AllSpace(form.name) then 0 else 1)
    ensures ContactedAttorneys(WithAttorney(data.attorneys, form, id)) == ContactedAttorneys(data.attorneys)
    ensures CompletedTasks(WithTask(data.checklist, task, id)) == CompletedTasks(data.checklist)
  {
    var a := WithAttorney(data.attorneys, form, id);
    if !AllSpace(form.name) {
      assert a == data.attorneys + [a[|data.attorneys|]];
      FilterAppend(data.attorneys, [a[|data.attorneys|]], IsPending);
      FilterAppend(data.attorneys, [a[|data.attorneys|]], IsContacted);
    }
    var c := WithTask(data.checklist, task, id);
    if !AllSpace(task) {
      assert c == data.checklist + [c[|data.checklist|]];
      FilterAppend(data.checklist, [c[|data.checklist|]], IsCompleted);
    }
  }

  // ---------------------------------------------------------------------
  // The widget's state

  class CaseTracker {
    var data: CaseData

    constructor (initial: CaseData)
      ensures data == initial
    {
      data := initial;
    }

    method UpdateAttorneyStatus(id: string, status: AttorneyStatus)
      modifies this
      ensures data == old(data).(attorneys := AttorneyStatusSet(old(data).attorneys, id, status))
    {
      data := data.(attorneys := AttorneyStatusSet(data.attorneys, id, status));
    }

    method UpdateAttorneyNotes(id: string, notes: string)
      modifies this
      ensures data == old(data).(attorneys := AttorneyNotesSet(old(data).attorneys, id, notes))
    {
      data := data.(attorneys := AttorneyNotesSet(data.attorneys, id, notes));
    }

    method ToggleChecklist(id: string)
      modifies this
      ensures data == old(data).(checklist := ChecklistToggled(old(data).checklist, id))
    {
      data := data.(checklist := ChecklistToggled(data.checklist, id));
    }

    method AddAttorney(form: AttorneyForm, id: string)
      modifies this
      ensures data == old(data).(attorneys := WithAttorney(old(data).attorneys, form, id))
    {
      if Trim(form.name) == "" {
        return;
      }
      var attorney := Attorney(id, form.name, form.firm, Some(form.phone), Some(form.email),
                               Some(form.website), Pending, "", None, Some(form.specialty));
      data := data.(attorneys := data.attorneys + [attorney]);
    }

    method AddFile(form: FileForm, id: string, now: string)
      modifies this
      ensures data == old(data).(files := WithFile(old(data).files, form, id, IsoDate(now)))
    {
      if Trim(form.name) == "" {
        return;
      }
      var file := CaseFile(id, form.name, form.kind, Some(form.url), None, Some(form.description), IsoDate(now));
      data := data.(files := data.files + [file]);
    }

    method AddTask(task: string, id: string)
      modifies this
      ensures data == old(data).(checklist := WithTask(old(data).checklist, task, id))
    {
      if Trim(task) == "" {
        return;
      }
      data := data.(checklist := data.checklist + [ChecklistItem(id, task, false, None, None)]);
    }

    /** deleteFile: `confirmed` is the answer to the confirmation dialog. */
    method DeleteFile(id: string, confirmed: bool)
      modifies this
      ensures !confirmed ==> data == old(data)
      ensures confirmed ==> data == old(data).(files := FilesWithout(old(data).files, id))
    {
      if confirmed {
        data := data.(files := FilesWithout(data.files, id));
      }
    }

    method UpdateFile(edited: CaseFile)
      modifies this
      ensures data == old(data).(files := FileReplaced(old(data).files, edited))
    {
      data := data.(files := FileReplaced(data.files, edited));
    }
  }
}
