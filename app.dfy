/** The application shell (App.tsx): the derived list of visible items,
    folder navigation with its breadcrumb trail, the device-permission gate
    around actions, and the small routing rules for clicks, deletes,
    uploads, new folders and downloads. */
module App {
  import opened Types
  import opened JsStrings
  import opened StorageService
  import opened PreviewModal

  // ---------------------------------------------------------------------
  // Array.prototype.filter

  /** `s.filter(p)`. */
  function Filter<T(==,!new)>(s: seq<T>, p: T -> bool): (r: seq<T>)
    ensures forall x :: x in r <==> x in s && p(x)
    ensures |r| <= |s|
  {
    if s == [] then []
    else if p(s[0]) then [s[0]] + Filter(s[1..], p)
    else Filter(s[1..], p)
  }

  /** `a` is `b` with some elements left out and the rest in their order. */
  predicate IsSubsequence<T(==,!new)>(a: seq<T>, b: seq<T>)
    decreases |b|
  {
    if a == [] then true
    else if b == [] then false
    else if a[0] == b[0] then IsSubsequence(a[1..], b[1..])
    else IsSubsequence(a, b[1..])
  }

  /** Both tests. */
  function And<T>(p: T -> bool, q: T -> bool): T -> bool {
    x => p(x) && q(x)
  }

  /** Filtering keeps the order of what it keeps. */
  lemma {:induction false} FilterIsSubsequence<T(!new)>(s: seq<T>, p: T -> bool)
    ensures IsSubsequence(Filter(s, p), s)
  {
    if s != [] {
      var r := Filter(s, p);
      FilterIsSubsequence(s[1..], p);
      if p(s[0]) {
        assert r[1..] == Filter(s[1..], p);
      } else if r != [] {
        assert p(r[0]);
        assert r[0] != s[0];
      }
    }
  }

  /** Two filters in a row are one filter with both tests. */
  lemma {:induction false} FilterFilter<T(!new)>(s: seq<T>, p: T -> bool, q: T -> bool)
    ensures Filter(Filter(s, p), q) == Filter(s, And(p, q))
  {
    if s != [] {
      FilterFilter(s[1..], p, q);
      if p(s[0]) {
        assert Filter(s, p)[1..] == Filter(s[1..], p);
      }
    }
  }

  /** Tests that agree on the elements give the same filter. */
  lemma {:induction false} FilterCongruent<T(!new)>(s: seq<T>, p: T -> bool, q: T -> bool)
    requires forall x :: x in s ==> p(x) == q(x)
    ensures Filter(s, p) == Filter(s, q)
  {
    if s != [] {
      FilterCongruent(s[1..], p, q);
    }
  }

  /** Filtering twice with the same test is filtering once. */
  lemma FilterIdempotent<T(!new)>(s: seq<T>, p: T -> bool)
    ensures Filter(Filter(s, p), p) == Filter(s, p)
  {
    FilterFilter(s, p, p);
    FilterCongruent(s, And(p, p), p);
  }

  /** A filtered listing keeps the listing's folders-first, newest-first order. */
  lemma {:induction false} FilterKeepsSorted(s: seq<DriveItem>, p: DriveItem -> bool)
    requires Sorted(s)
    ensures Sorted(Filter(s, p))
  {
    if s != [] {
      var rest := Filter(s[1..], p);
      assert Sorted(s[1..]) by {
        forall i, j | 0 <= i < j < |s[1..]| ensures Compare(s[1..][i], s[1..][j]) <= 0 {
          assert s[1..][i] == s[i + 1] && s[1..][j] == s[j + 1];
        }
      }
      FilterKeepsSorted(s[1..], p);
      if p(s[0]) {
        var r := Filter(s, p);
        forall i, j | 0 <= i < j < |r| ensures Compare(r[i], r[j]) <= 0 {
          if i == 0 {
            assert r[j] == rest[j - 1];
            assert r[j] in s[1..];
            var k :| 0 <= k < |s[1..]| && s[1..][k] == r[j];
            assert s[k + 1] == r[j];
          } else {
            assert r[i] == rest[i - 1] && r[j] == rest[j - 1];
          }
        }
      }
    }
  }

  // ---------------------------------------------------------------------
  // The visible items (the effect that computes `filteredItems`)

  /** Not in the recycle bin. */
  predicate Live(x: DriveItem) { !IsDeleted(x) }

  predicate IsImage(x: DriveItem) { x.fileType == IMAGE }

  predicate IsNote(x: DriveItem) { x.fileType == NOTE }

  /** Filed directly in `folder`: at the root a missing or empty parent id
      counts (`!i.parentId`), elsewhere the parent id must be `folder`. */
  predicate InFolder(x: DriveItem, folder: Option<string>) {
    match folder
    case None => !Truthy(x.parentId)
    case Some(f) => x.parentId == Some(f)
  }

  /** The name contains the query, both lower-cased. */
  predicate NameMatches(x: DriveItem, query: string) {
    Contains(Lower(x.name), Lower(query))
  }

  function InFolderTest(folder: Option<string>): DriveItem -> bool {
    x => InFolder(x, folder)
  }

  function MatchesTest(query: string): DriveItem -> bool {
    x => NameMatches(x, query)
  }

  /** When an item belongs in the view, stated test by test: the recycle
      bin shows exactly the deleted items and every other view only live
      ones; Images, Notes and Starred restrict the kind or the star; My
      Drive without a search shows one folder; a search keeps the matching
      names, across all folders. */
  predicate Shown(x: DriveItem, filter: FilterType, query: string, folder: Option<string>) {
    (IsDeleted(x) <==> filter == TRASH) &&
    (filter == IMAGES ==> x.fileType == IMAGE) &&
    (filter == NOTES ==> x.fileType == NOTE) &&
    (filter == FAVORITES ==> IsFavorite(x)) &&
    (filter == ALL && query == "" ==> InFolder(x, folder)) &&
    (query != "" ==> NameMatches(x, query))
  }

  function ShownTest(filter: FilterType, query: string, folder: Option<string>): DriveItem -> bool {
    x => Shown(x, filter, query, folder)
  }

  /** `filteredItems` as the effect computes it: a chain of filters over the
      listing. */
  function VisibleItems(items: seq<DriveItem>, filter: FilterType, query: string,
                        folder: Option<string>): (r: seq<DriveItem>)
    ensures forall x :: x in r <==> x in items && Shown(x, filter, query, folder)
  {
    var kept := if filter == TRASH then Filter(items, IsDeleted) else Filter(items, Live);
    var narrowed :=
      match filter
      case IMAGES => Filter(kept, IsImage)
      case NOTES => Filter(kept, IsNote)
      case FAVORITES => Filter(kept, IsFavorite)
      case ALL => if query != "" then kept else Filter(kept, InFolderTest(folder))
      case TRASH => kept;
    if query != "" then Filter(narrowed, MatchesTest(query)) else narrowed
  }

  /** Two filters in a row are one filter by a test they jointly decide. */
  lemma TwoFilters(items: seq<DriveItem>, p: DriveItem -> bool, q: DriveItem -> bool, t: DriveItem -> bool)
    requires forall x :: x in items ==> (p(x) && q(x) <==> t(x))
    ensures Filter(Filter(items, p), q) == Filter(items, t)
  {
    FilterFilter(items, p, q);
    FilterCongruent(items, And(p, q), t);
  }

  /** Three filters in a row are one filter by a test they jointly decide. */
  lemma ThreeFilters(items: seq<DriveItem>, p: DriveItem -> bool, q: DriveItem -> bool,
                     u: DriveItem -> bool, t: DriveItem -> bool)
    requires forall x :: x in items ==> (p(x) && q(x) && u(x) <==> t(x))
    ensures Filter(Filter(Filter(items, p), q), u) == Filter(items, t)
  {
    FilterFilter(items, p, q);
    FilterFilter(items, And(p, q), u);
    FilterCongruent(items, And(And(p, q), u), t);
  }

  /** The recycle bin's chain is one filter by `Shown`. */
  lemma TrashIsOneFilter(items: seq<DriveItem>, query: string, folder: Option<string>)
    ensures VisibleItems(items, TRASH, query, folder) == Filter(items, ShownTest(TRASH, query, folder))
  {
    var t := ShownTest(TRASH, query, folder);
    if query != "" {
      TwoFilters(items, IsDeleted, MatchesTest(query), t);
    } else {
      FilterCongruent(items, IsDeleted, t);
    }
  }

  /** My Drive's chain is one filter by `Shown`. */
  lemma AllIsOneFilter(items: seq<DriveItem>, query: string, folder: Option<string>)
    ensures VisibleItems(items, ALL, query, folder) == Filter(items, ShownTest(ALL, query, folder))
  {
    var t := ShownTest(ALL, query, folder);
    if query != "" {
      TwoFilters(items, Live, MatchesTest(query), t);
    } else {
      TwoFilters(items, Live, InFolderTest(folder), t);
    }
  }

  /** The chain of Images, Notes or Starred, whose kind test is `kind`, is
      one filter by `Shown`. */
  lemma KindIsOneFilter(items: seq<DriveItem>, filter: FilterType, kind: DriveItem -> bool,
                        query: string, folder: Option<string>)
    requires filter == IMAGES || filter == NOTES || filter == FAVORITES
    requires kind == (match filter case IMAGES => IsImage case NOTES => IsNote case _ => IsFavorite)
    ensures VisibleItems(items, filter, query, folder) == Filter(items, ShownTest(filter, query, folder))
  {
    var t := ShownTest(filter, query, folder);
    if query != "" {
      ThreeFilters(items, Live, kind, MatchesTest(query), t);
    } else {
      TwoFilters(items, Live, kind, t);
    }
  }

  /** The chain is one filter by `Shown`: the view is an order-preserving
      subsequence of the listing. */
  lemma VisibleItemsSpec(items: seq<DriveItem>, filter: FilterType, query: string, folder: Option<string>)
    ensures VisibleItems(items, filter, query, folder) == Filter(items, ShownTest(filter, query, folder))
    ensures IsSubsequence(VisibleItems(items, filter, query, folder), items)
  {
    match filter
    case TRASH => TrashIsOneFilter(items, query, folder);
    case ALL => AllIsOneFilter(items, query, folder);
    case IMAGES => KindIsOneFilter(items, filter, IsImage, query, folder);
    case NOTES => KindIsOneFilter(items, filter, IsNote, query, folder);
    case FAVORITES => KindIsOneFilter(items, filter, IsFavorite, query, folder);
    FilterIsSubsequence(items, ShownTest(filter, query, folder));
  }

  /** Computing the view of a view changes nothing. */
  lemma VisibleItemsIdempotent(items: seq<DriveItem>, filter: FilterType, query: string, folder: Option<string>)
    ensures VisibleItems(VisibleItems(items, filter, query, folder), filter, query, folder)
         == VisibleItems(items, filter, query, folder)
  {
    var v := VisibleItems(items, filter, query, folder);
    VisibleItemsSpec(items, filter, query, folder);
    VisibleItemsSpec(v, filter, query, folder);
    FilterIdempotent(items, ShownTest(filter, query, folder));
  }

  /** Every view of a sorted listing is sorted the same way: folders first,
      newest first within folders and within files. */
  lemma ViewKeepsListingOrder(items: seq<DriveItem>, filter: FilterType, query: string, folder: Option<string>)
    requires FoldersFirst(items) && NewestFirstInGroup(items)
    ensures var v := VisibleItems(items, filter, query, folder);
      FoldersFirst(v) && NewestFirstInGroup(v)
  {
    SortedMeansFoldersThenNewest(items);
    VisibleItemsSpec(items, filter, query, folder);
    FilterKeepsSorted(items, ShownTest(filter, query, folder));
    SortedMeansFoldersThenNewest(VisibleItems(items, filter, query, folder));
  }

  /** The views one by one. The recycle bin: exactly the deleted items
      (narrowed by the search), whatever their kind or folder. Every other
      view: no deleted item, and only images, notes or starred items in
      those views. My Drive without a search: exactly the live items filed
      in the current folder. A search in My Drive: exactly the live items
      whose name matches, in any folder. */
  lemma ViewByFilter(items: seq<DriveItem>, filter: FilterType, query: string, folder: Option<string>, x: DriveItem)
    ensures filter == TRASH && query == "" ==>
      (x in VisibleItems(items, filter, query, folder) <==> x in items && IsDeleted(x))
    ensures filter != TRASH && x in VisibleItems(items, filter, query, folder) ==>
      !IsDeleted(x) &&
      (filter == IMAGES ==> x.fileType == IMAGE) &&
      (filter == NOTES ==> x.fileType == NOTE) &&
      (filter == FAVORITES ==> IsFavorite(x))
    ensures filter == ALL && query == "" ==>
      (x in VisibleItems(items, filter, query, folder) <==> x in items && !IsDeleted(x) && InFolder(x, folder))
    ensures filter == ALL && query != "" ==>
      (x in VisibleItems(items, filter, query, folder) <==> x in items && !IsDeleted(x) && NameMatches(x, query))
  {
  }

  /** A folder F1 at the root holding a note: the root shows only the
      folder, and inside F1 only the note shows. */
  lemma FolderScenario(folder: DriveItem, note: DriveItem)
    requires folder.fileType == FOLDER && folder.id == "F1" && folder.parentId == None && !IsDeleted(folder)
    requires note.fileType == NOTE && note.parentId == Some("F1") && !IsDeleted(note)
    ensures VisibleItems([folder, note], ALL, "", None) == [folder]
    ensures VisibleItems([folder, note], ALL, "", Some("F1")) == [note]
  {
    assert [folder, note][1..] == [note];
    assert "F1" != "";
    VisibleItemsSpec([folder, note], ALL, "", None);
    VisibleItemsSpec([folder, note], ALL, "", Some("F1"));
  }

  /** A search in My Drive for "report" finds "Report.txt" at the root and
      "report2.png" inside a folder alike. */
  lemma SearchScenario(atRoot: DriveItem, inFolder: DriveItem, folder: Option<string>)
    requires atRoot.name == "Report.txt" && atRoot.parentId == None && !IsDeleted(atRoot)
    requires inFolder.name == "report2.png" && inFolder.parentId.Some? && !IsDeleted(inFolder)
    ensures VisibleItems([atRoot, inFolder], ALL, "report", folder) == [atRoot, inFolder]
  {
    var q := "report";
    assert Lower(q) == q;
    var a := Lower(atRoot.name);
    assert a[0..6] == q;
    assert OccursAt(a, Lower(q), 0);
    var b := Lower(inFolder.name);
    assert b[0..6] == q;
    assert OccursAt(b, Lower(q), 0);
    assert [atRoot, inFolder][1..] == [inFolder];
    VisibleItemsSpec([atRoot, inFolder], ALL, q, folder);
  }

  // ---------------------------------------------------------------------
  // Breadcrumbs and the current folder

  /** One step of the breadcrumb trail; the root's id is `null`. */
  datatype Crumb = Crumb(id: Option<string>, name: string)

  const ROOT_CRUMB: Crumb := Crumb(None, "My Drive")

  /** Where the user is: the current folder and the trail leading to it. */
  datatype Location = Location(folder: Option<string>, trail: seq<Crumb>)

  const AT_ROOT: Location := Location(None, [ROOT_CRUMB])

  /** The trail starts at the root crumb, only the root crumb has no id,
      and the last crumb names the current folder. */
  predicate LocationValid(loc: Location) {
    |loc.trail| >= 1 && loc.trail[0] == ROOT_CRUMB &&
    (forall i :: 1 <= i < |loc.trail| ==> loc.trail[i].id.Some?) &&
    loc.trail[|loc.trail| - 1].id == loc.folder
  }

  /** Opening a folder (`handleItemClick` on a FOLDER): push its crumb and
      make it current. */
  function Entered(loc: Location, folder: DriveItem): (r: Location)
    ensures LocationValid(loc) ==> LocationValid(r)
    ensures |r.trail| == |loc.trail| + 1 && r.trail[..|loc.trail|] == loc.trail
    ensures r.folder == Some(folder.id)
  {
    Location(Some(folder.id), loc.trail + [Crumb(Some(folder.id), folder.name)])
  }

  /** `handleBreadcrumbClick(index)`: cut the trail after crumb `index` and
      make that crumb's folder current. */
  function ClimbedTo(loc: Location, index: int): (r: Location)
    requires 0 <= index < |loc.trail|
    ensures LocationValid(loc) ==> LocationValid(r)
    ensures |r.trail| == index + 1 && r.trail == loc.trail[..index + 1]
    ensures LocationValid(loc) ==> (r.folder == None <==> index == 0)
  {
    Location(loc.trail[index].id, loc.trail[..index + 1])
  }

  /** `handleFilterChange(filter)`: any view but My Drive goes back to the root. */
  function AfterFilterChange(loc: Location, filter: FilterType): (r: Location)
    ensures filter != ALL ==> r == AT_ROOT
    ensures filter == ALL ==> r == loc
    ensures LocationValid(loc) ==> LocationValid(r)
  {
    if filter != ALL then AT_ROOT else loc
  }

  /** With a valid trail the user is at the root exactly when the trail is
      the root crumb alone. */
  lemma AtRootIffSingleCrumb(loc: Location)
    requires LocationValid(loc)
    ensures loc.folder == None <==> loc.trail == [ROOT_CRUMB]
  {
    assert |loc.trail| > 1 ==> loc.trail[|loc.trail| - 1].id.Some?;
    assert |loc.trail| == 1 ==> loc.trail == [ROOT_CRUMB];
  }

  /** Clicking the crumb before the one just pushed undoes opening the folder. */
  lemma EnterThenClimbBack(loc: Location, folder: DriveItem)
    requires LocationValid(loc)
    ensures ClimbedTo(Entered(loc, folder), |loc.trail| - 1) == loc
  {
    var e := Entered(loc, folder);
    assert e.trail[..|loc.trail|] == loc.trail;
  }

  /** Clicking the last crumb changes nothing; clicking crumb `j` after crumb
      `i >= j` is clicking crumb `j` directly. */
  lemma ClimbingComposes(loc: Location, i: int, j: int)
    requires LocationValid(loc) && 0 <= j <= i < |loc.trail|
    ensures ClimbedTo(loc, |loc.trail| - 1) == loc
    ensures ClimbedTo(ClimbedTo(loc, i), j) == ClimbedTo(loc, j)
  {
    assert loc.trail[..|loc.trail|] == loc.trail;
    assert loc.trail[..i + 1][..j + 1] == loc.trail[..j + 1];
  }

  // ---------------------------------------------------------------------
  // The permission gate

  /** The closures handed to `checkPermission`. */
  datatype Action = NewNote | EditNote(note: DriveItem) | NewFolder | Upload | OpenAI

  /** The gate's state: granted or not, the action waiting for an answer,
      and whether the permission dialog is open. */
  datatype Gate = Gate(granted: bool, pending: Option<Action>, dialogOpen: bool)

  /** An action waits only while the dialog asks for a permission not yet given. */
  predicate GateValid(g: Gate) {
    g.pending.Some? ==> g.dialogOpen && !g.granted
  }

  /** A gate step: the new gate and the action it runs now, if any. */
  datatype Step = Step(gate: Gate, run: Option<Action>)

  /** `checkPermission(action)`: run at once when granted, otherwise park the
      action and open the dialog. */
  function Request(g: Gate, a: Action): (s: Step)
    ensures GateValid(g) ==> GateValid(s.gate)
    ensures g.granted ==> s == Step(g, Some(a))
    ensures !g.granted ==> s.run == None && s.gate.pending == Some(a) && s.gate.dialogOpen && !s.gate.granted
  {
    if g.granted then Step(g, Some(a)) else Step(Gate(false, Some(a), true), None)
  }

  /** `handlePermissionConfirm`: grant, close the dialog, run the parked
      action once and drop it. */
  function Confirm(g: Gate): (s: Step)
    ensures GateValid(s.gate) && s.gate.granted && !s.gate.dialogOpen && s.gate.pending == None
    ensures s.run == g.pending
  {
    Step(Gate(true, None, false), g.pending)
  }

  /** `handlePermissionCancel`: close the dialog and drop the parked action
      without running it. */
  function Cancel(g: Gate): (s: Step)
    ensures GateValid(s.gate) && s.run == None && s.gate.granted == g.granted
    ensures s.gate.pending == None && !s.gate.dialogOpen
  {
    Step(Gate(g.granted, None, false), None)
  }

  /** Without permission, an action runs exactly when the dialog is
      confirmed, and then once; after that every request runs at once. */
  lemma ConfirmRunsParkedActionOnce(g: Gate, a: Action, b: Action)
    requires !g.granted
    ensures Request(g, a).run == None
    ensures Confirm(Request(g, a).gate).run == Some(a)
    ensures Confirm(Confirm(Request(g, a).gate).gate).run == None
    ensures Request(Confirm(Request(g, a).gate).gate, b).run == Some(b)
    ensures Cancel(Request(g, a).gate).run == None && !Cancel(Request(g, a).gate).gate.granted
  {
  }

  // ---------------------------------------------------------------------
  // Routing rules

  /** `handleDelete`: permanent in the recycle bin, a move to it elsewhere. */
  datatype DeleteKind = Permanent | ToTrash

  function DeleteKindFor(filter: FilterType): (k: DeleteKind)
    ensures k == Permanent <==> filter == TRASH
  {
    if filter == TRASH then Permanent else ToTrash
  }

  /** The question `handleDelete` asks before deleting. */
  function DeleteQuestion(filter: FilterType): (q: string)
    ensures DeleteKindFor(filter) == Permanent ==> q == "Are you sure you want to permanently delete this item?"
    ensures DeleteKindFor(filter) == ToTrash ==> q == "Move this item to Recycle Bin?"
  {
    if filter == TRASH then "Are you sure you want to permanently delete this item?"
    else "Move this item to Recycle Bin?"
  }

  /** The kind an upload is filed as: by the browser's mime type, images
      first, then text. */
  function UploadType(mime: string): (t: FileType)
    ensures t == IMAGE <==> StartsWith(mime, "image/")
    ensures t == NOTE <==> StartsWith(mime, "text/")
    ensures t == FILE <==> !StartsWith(mime, "image/") && !StartsWith(mime, "text/")
  {
    assert StartsWith(mime, "image/") ==> mime[0] == 'i';
    assert StartsWith(mime, "text/") ==> mime[0] == 't';
    if StartsWith(mime, "image/") then IMAGE
    else if StartsWith(mime, "text/") then NOTE
    else FILE
  }

  /** A picked file: its name, its (possibly empty) mime type and its size. */
  datatype PickedFile = PickedFile(name: string, mimeType: string, size: int)

  /** The string `result.split(',')[1]` hands to `atob`: the data URL's
      payload, or "undefined" when the data URL has no comma. */
  function Payload(dataUrl: string): (p: string)
    ensures !Contains(dataUrl, ",") ==> p == "undefined"
    ensures Contains(dataUrl, ",") ==> Some(p) == SecondField(dataUrl) && !Contains(p, ",")
  {
    match SecondField(dataUrl)
    case Some(field) => field
    case None => "undefined"
  }

  /** The record `handleFileUpload` saves for a file read as the data URL
      `dataUrl`. A text file also carries `atob` of the data URL's payload;
      `atob` is a parameter (`None` when it throws), and a data URL without
      a comma hands it the string "undefined". When `atob` throws nothing is
      saved. */
  function UploadedItem(file: PickedFile, dataUrl: string, id: string, now: int,
                        folder: Option<string>, atob: string -> Option<string>): (r: Option<DriveItem>)
    ensures r.None? ==> UploadType(file.mimeType) == NOTE
    ensures UploadType(file.mimeType) != NOTE ==> r.Some? && r.value.content == None
    ensures r.Some? ==>
      r.value.id == id && r.value.name == file.name && r.value.size == file.size &&
      r.value.createdAt == now && r.value.fileType == UploadType(file.mimeType) &&
      r.value.mimeType == Some(file.mimeType) && r.value.url == Some(dataUrl) &&
      r.value.isDeleted == Some(false) && r.value.isFavorite == None && r.value.parentId == folder
    ensures UploadType(file.mimeType) == NOTE ==>
      (r.None? <==> atob(Payload(dataUrl)).None?) &&
      (r.Some? ==> r.value.content == atob(Payload(dataUrl)))
  {
    var record := DriveItem(id, file.name, UploadType(file.mimeType), file.size, now, None,
                            Some(dataUrl), Some(file.mimeType), None, Some(false), None, folder);
    if UploadType(file.mimeType) == NOTE then
      match atob(Payload(dataUrl))
      case Some(text) => Some(record.(content := Some(text)))
      case None => None
    else Some(record)
  }

  /** The record `handleCreateFolder` saves. */
  function NewFolderItem(id: string, name: string, now: int, folder: Option<string>): (r: DriveItem)
    ensures r.fileType == FOLDER && r.size == 0 && r.isDeleted == Some(false)
    ensures r.id == id && r.name == name && r.createdAt == now && r.parentId == folder
    ensures r.content == None && r.url == None && r.mimeType == None && r.isFavorite == None
  {
    DriveItem(id, name, FOLDER, 0, now, None, None, None, None, Some(false), None, folder)
  }

  /** What `handleItemClick` does with an item. */
  datatype ClickRoute = EnterFolder | OpenInEditor | ShowPreview | StartDownload

  /** `isTextLike` of `handleItemClick`: the mime type (as given) names
      text, json or javascript, or the name has a text extension in any case. */
  predicate TextLike(item: DriveItem) {
    var mime := OrEmpty(item.mimeType);
    var name := Lower(item.name);
    Contains(mime, "text") || Contains(mime, "json") || Contains(mime, "javascript") ||
    EndsWith(name, ".txt") || EndsWith(name, ".md") || EndsWith(name, ".json") ||
    EndsWith(name, ".js") || EndsWith(name, ".ts") || EndsWith(name, ".css") ||
    EndsWith(name, ".html") || EndsWith(name, ".xml") || EndsWith(name, ".csv")
  }

  function RouteOf(item: DriveItem): (r: ClickRoute)
    ensures r == EnterFolder <==> item.fileType == FOLDER
    ensures r == OpenInEditor <==> item.fileType == NOTE
    ensures r == ShowPreview <==> item.fileType == IMAGE || (item.fileType == FILE && (IsPdf(item) || TextLike(item)))
  {
    match item.fileType
    case FOLDER => EnterFolder
    case NOTE => OpenInEditor
    case IMAGE => ShowPreview
    case FILE => if IsPdf(item) || TextLike(item) then ShowPreview else StartDownload
  }

  /** Every item a click sends to the preview is one the preview dialog
      renders: an image, a PDF or a text file by the dialog's own test. */
  lemma PreviewedItemsRender(item: DriveItem)
    requires RouteOf(item) == ShowPreview
    ensures Renders(Some(item))
    ensures item.fileType == FILE && TextLike(item) ==> IsTextFile(item)
  {
    var mime := OrEmpty(item.mimeType);
    if Contains(mime, "text") { ContainsLower(mime, "text"); }
    if Contains(mime, "json") { ContainsLower(mime, "json"); }
    if Contains(mime, "javascript") { ContainsLower(mime, "javascript"); }
  }

  /** Where `handleDownload` takes the bytes from. */
  datatype DownloadRef = NoteText(text: string) | Href(url: string)

  /** A note with content downloads its text; otherwise the url is linked;
      an item with neither downloads nothing. */
  function DownloadSource(item: DriveItem): (r: Option<DownloadRef>)
    ensures r.None? <==> !(item.fileType == NOTE && Truthy(item.content)) && !Truthy(item.url)
    ensures r.Some? && r.value.NoteText? ==> item.fileType == NOTE && item.content == Some(r.value.text)
    ensures r.Some? && r.value.Href? ==> item.url == Some(r.value.url) && r.value.url != ""
    ensures item.fileType == NOTE && Truthy(item.content) ==> r == Some(NoteText(item.content.value))
    ensures !(item.fileType == NOTE && Truthy(item.content)) && Truthy(item.url) ==> r == Some(Href(item.url.value))
  {
    if item.fileType == NOTE && Truthy(item.content) then Some(NoteText(item.content.value))
    else if Truthy(item.url) then Some(Href(item.url.value))
    else None
  }

  /** The global shortcuts: Ctrl/Cmd+Shift+A asks for a new note and
      Ctrl/Cmd+Shift+N for a new folder, unless a dialog is open. */
  function ShortcutAction(ctrlOrMeta: bool, shift: bool, key: string, dialogOpen: bool): (r: Option<Action>)
    ensures r.Some? ==> ctrlOrMeta && shift && !dialogOpen
    ensures r == Some(NewNote) <==> ctrlOrMeta && shift && !dialogOpen && key in {"a", "A"}
    ensures r == Some(NewFolder) <==> ctrlOrMeta && shift && !dialogOpen && key in {"n", "N"}
    ensures r.Some? ==> r.value in {NewNote, NewFolder}
  {
    if dialogOpen || !(ctrlOrMeta && shift) then None
    else if key == "a" || key == "A" then Some(NewNote)
    else if key == "n" || key == "N" then Some(NewFolder)
    else None
  }

  // ---------------------------------------------------------------------
  // What the application's operations mean for the listing

  /** An item of the store appears in a listing that holds the store's records. */
  lemma StoredIsListed(m: map<string, DriveItem>, listing: seq<DriveItem>, id: string)
    requires id in m && multiset(listing) == multiset(m.Values)
    ensures m[id] in listing
  {
    assert m[id] in m.Values;
    assert m[id] in multiset(m.Values);
  }

  /** Moving an item to the recycle bin shows it there and in no other view. */
  lemma SoftDeletedMovesToTrash(m: map<string, DriveItem>, id: string, listing: seq<DriveItem>,
                                query: string, folder: Option<string>, filter: FilterType)
    requires Keyed(m) && id in m
    requires multiset(listing) == multiset(SoftDeleted(m, id).Values)
    ensures SoftDeleted(m, id)[id] in VisibleItems(listing, TRASH, "", folder)
    ensures filter != TRASH ==> SoftDeleted(m, id)[id] !in VisibleItems(listing, filter, query, folder)
  {
    StoredIsListed(SoftDeleted(m, id), listing, id);
  }

  /** A folder just created shows in the folder it was created in. */
  lemma CreatedFolderIsListed(m: map<string, DriveItem>, id: string, name: string, now: int,
                              folder: Option<string>, listing: seq<DriveItem>)
    requires multiset(listing) == multiset(Upserted(m, NewFolderItem(id, name, now, folder)).Values)
    ensures Normalized(NewFolderItem(id, name, now, folder)) in VisibleItems(listing, ALL, "", folder)
  {
    StoredIsListed(Upserted(m, NewFolderItem(id, name, now, folder)), listing, id);
  }

  /** An upload shows in the folder it was uploaded to. */
  lemma UploadIsListed(m: map<string, DriveItem>, file: PickedFile, dataUrl: string, id: string, now: int,
                       folder: Option<string>, atob: string -> Option<string>, listing: seq<DriveItem>)
    requires UploadedItem(file, dataUrl, id, now, folder, atob).Some?
    requires multiset(listing) == multiset(Upserted(m, UploadedItem(file, dataUrl, id, now, folder, atob).value).Values)
    ensures Normalized(UploadedItem(file, dataUrl, id, now, folder, atob).value) in VisibleItems(listing, ALL, "", folder)
  {
    StoredIsListed(Upserted(m, UploadedItem(file, dataUrl, id, now, folder, atob).value), listing, id);
  }

  // ---------------------------------------------------------------------
  // The application's state

  /** What the actions open: the note editor (with the note being edited),
      the new-folder dialog and the AI dialog. */
  datatype Panels = Panels(editingNote: Option<DriveItem>, noteEditorOpen: bool,
                           createFolderOpen: bool, aiOpen: bool)

  /** The effect of running an action; `Upload` opens the browser's file
      picker, which is outside the model. */
  function Opened(p: Panels, a: Action): (r: Panels)
    ensures a.NewNote? ==> r == p.(editingNote := None, noteEditorOpen := true)
    ensures a.EditNote? ==> r == p.(editingNote := Some(a.note), noteEditorOpen := true)
    ensures a.NewFolder? ==> r == p.(createFolderOpen := true)
    ensures a.OpenAI? ==> r == p.(aiOpen := true)
    ensures a.Upload? ==> r == p
  {
    match a
    case NewNote => p.(editingNote := None, noteEditorOpen := true)
    case EditNote(note) => p.(editingNote := Some(note), noteEditorOpen := true)
    case NewFolder => p.(createFolderOpen := true)
    case OpenAI => p.(aiOpen := true)
    case Upload => p
  }

  function OpenedIf(p: Panels, run: Option<Action>): Panels {
    match run
    case None => p
    case Some(a) => Opened(p, a)
  }

  function Ran(run: Option<Action>): seq<Action> {
    match run
    case None => []
    case Some(a) => [a]
  }

  class Drive {
    var items: seq<DriveItem>
    var storageStats: StorageStats
    var activeFilter: FilterType
    var searchQuery: string
    var currentFolderId: Option<string>
    var breadcrumbs: seq<Crumb>
    var permissionGranted: bool
    var pendingAction: Option<Action>
    var isPermissionModalOpen: bool
    var editingNote: Option<DriveItem>
    var isNoteEditorOpen: bool
    var isCreateFolderModalOpen: bool
    var isGenAIModalOpen: bool
    var isWelcomeModalOpen: bool
    var previewItem: Option<DriveItem>
    /** Every action run so far, in order. */
    var performed: seq<Action>
    /** Every download started so far, in order. */
    var downloads: seq<DownloadRef>

    function Here(): Location
      reads this
    {
      Location(currentFolderId, breadcrumbs)
    }

    function Permission(): Gate
      reads this
    {
      Gate(permissionGranted, pendingAction, isPermissionModalOpen)
    }

    function Open(): Panels
      reads this
    {
      Panels(editingNote, isNoteEditorOpen, isCreateFolderModalOpen, isGenAIModalOpen)
    }

    /** `filteredItems`. */
    function Filtered(): seq<DriveItem>
      reads this
    {
      VisibleItems(items, activeFilter, searchQuery, currentFolderId)
    }

    /** Any dialog that disables the shortcuts. */
    predicate AnyDialogOpen()
      reads this
    {
      isNoteEditorOpen || isGenAIModalOpen || isCreateFolderModalOpen || isWelcomeModalOpen ||
      previewItem.Some? || isPermissionModalOpen
    }

    ghost predicate Valid()
      reads this
    {
      LocationValid(Here()) && GateValid(Permission())
    }

    /** The first render: My Drive at the root, nothing loaded; permission
        as remembered for the session, the welcome dialog unless seen. */
    constructor (permissionRemembered: bool, welcomeSeen: bool)
      ensures Valid()
      ensures Here() == AT_ROOT && activeFilter == ALL && searchQuery == ""
      ensures items == [] && storageStats == StorageStats(0, 0)
      ensures Permission() == Gate(permissionRemembered, None, false)
      ensures Open() == Panels(None, false, false, false) && previewItem == None
      ensures isWelcomeModalOpen == !welcomeSeen
      ensures performed == [] && downloads == []
    {
      items := [];
      storageStats := StorageStats(0, 0);
      activeFilter := ALL;
      searchQuery := "";
      currentFolderId := None;
      breadcrumbs := [ROOT_CRUMB];
      permissionGranted := permissionRemembered;
      pendingAction := None;
      isPermissionModalOpen := false;
      editingNote := None;
      isNoteEditorOpen := false;
      isCreateFolderModalOpen := false;
      isGenAIModalOpen := false;
      isWelcomeModalOpen := !welcomeSeen;
      previewItem := None;
      performed := [];
      downloads := [];
    }

    /** Run an action's body. */
    method Run(a: Action)
      modifies this`editingNote, this`isNoteEditorOpen, this`isCreateFolderModalOpen,
               this`isGenAIModalOpen, this`performed
      ensures Open() == Opened(old(Open()), a) && performed == old(performed) + [a]
    {
      performed := performed + [a];
      match a
      case NewNote =>
        editingNote := None;
        isNoteEditorOpen := true;
      case EditNote(note) =>
        editingNote := Some(note);
        isNoteEditorOpen := true;
      case NewFolder =>
        isCreateFolderModalOpen := true;
      case OpenAI =>
        isGenAIModalOpen := true;
      case Upload =>
    }

    /** `checkPermission(action)`. */
    method CheckPermission(a: Action)
      requires Valid()
      modifies this`pendingAction, this`isPermissionModalOpen, this`editingNote, this`isNoteEditorOpen,
               this`isCreateFolderModalOpen, this`isGenAIModalOpen, this`performed
      ensures Valid()
      ensures Permission() == Request(old(Permission()), a).gate
      ensures Open() == OpenedIf(old(Open()), Request(old(Permission()), a).run)
      ensures performed == old(performed) + Ran(Request(old(Permission()), a).run)
    {
      if permissionGranted {
        Run(a);
      } else {
        pendingAction := Some(a);
        isPermissionModalOpen := true;
      }
    }

    /** `handlePermissionConfirm`. */
    method HandlePermissionConfirm()
      requires Valid()
      modifies this`permissionGranted, this`pendingAction, this`isPermissionModalOpen, this`editingNote,
               this`isNoteEditorOpen, this`isCreateFolderModalOpen, this`isGenAIModalOpen, this`performed
      ensures Valid()
      ensures Permission() == Confirm(old(Permission())).gate
      ensures Open() == OpenedIf(old(Open()), old(pendingAction))
      ensures performed == old(performed) + Ran(old(pendingAction))
    {
      permissionGranted := true;
      isPermissionModalOpen := false;
      if pendingAction.Some? {
        Run(pendingAction.value);
        pendingAction := None;
      }
    }

    /** `handlePermissionCancel`. */
    method HandlePermissionCancel()
      requires Valid()
      modifies this`pendingAction, this`isPermissionModalOpen
      ensures Valid()
      ensures Permission() == Cancel(old(Permission())).gate
    {
      isPermissionModalOpen := false;
      pendingAction := None;
    }

    /** The window's key handler for the shortcuts. */
    method HandleShortcut(ctrl: bool, meta: bool, shift: bool, key: string)
      requires Valid()
      modifies this`pendingAction, this`isPermissionModalOpen, this`editingNote, this`isNoteEditorOpen,
               this`isCreateFolderModalOpen, this`isGenAIModalOpen, this`performed
      ensures Valid()
      ensures var asked := ShortcutAction(ctrl || meta, shift, key, old(AnyDialogOpen()));
        asked.None? ==> Permission() == old(Permission()) && Open() == old(Open()) && performed == old(performed)
      ensures var asked := ShortcutAction(ctrl || meta, shift, key, old(AnyDialogOpen()));
        asked.Some? ==> (Permission() == Request(old(Permission()), asked.value).gate &&
                         Open() == OpenedIf(old(Open()), Request(old(Permission()), asked.value).run) &&
                         performed == old(performed) + Ran(Request(old(Permission()), asked.value).run))
    {
      var asked := ShortcutAction(ctrl || meta, shift, key, AnyDialogOpen());
      if asked.Some? {
        CheckPermission(asked.value);
      }
    }

    /** What a reload leaves on screen: without a fault, the store's
        records (folders first, newest first, ties in key order) and its
        used space; with an unopenable database, nothing; after a failed
        read, what was shown before. */
    twostate predicate Reloaded(store: ItemStore, fault: StoreFault)
      reads this, store
    {
      (fault == NoFault ==>
        multiset(items) == multiset(store.items.Values) &&
        FoldersFirst(items) && NewestFirstInGroup(items) && TiesByAscendingId(items) &&
        storageStats == StorageStats(MapSum(store.items), TOTAL_STORAGE)) &&
      (fault == OpenFailed ==> items == [] && storageStats == StorageStats(0, TOTAL_STORAGE)) &&
      (fault == ReadFailed ==> items == old(items) && storageStats == old(storageStats))
    }

    /** `refreshData`: reload the listing, then the statistics. A read
        failure is caught and leaves what was shown before. */
    method Refresh(store: ItemStore, fault: StoreFault)
      requires store.Valid()
      modifies this`items, this`storageStats
      ensures Reloaded(store, fault)
    {
      var listing := store.GetItems(fault);
      if listing.Ok? {
        items := listing.value;
        var stats := store.GetStorageStats(fault);
        if stats.Ok? {
          storageStats := stats.value;
        }
      }
    }

    /** Opening a folder: push its crumb, make it current, clear the search. */
    method OpenFolder(folder: DriveItem)
      requires Valid()
      modifies this`currentFolderId, this`breadcrumbs, this`searchQuery
      ensures Valid()
      ensures Here() == Entered(old(Here()), folder) && searchQuery == ""
    {
      currentFolderId := Some(folder.id);
      breadcrumbs := breadcrumbs + [Crumb(Some(folder.id), folder.name)];
      searchQuery := "";
    }

    /** `handleItemClick(item)`. */
    method HandleItemClick(item: DriveItem)
      requires Valid()
      modifies this`currentFolderId, this`breadcrumbs, this`searchQuery, this`pendingAction,
               this`isPermissionModalOpen, this`editingNote, this`isNoteEditorOpen,
               this`isCreateFolderModalOpen, this`isGenAIModalOpen, this`performed,
               this`previewItem, this`downloads
      ensures Valid()
      ensures items == old(items) && storageStats == old(storageStats) && activeFilter == old(activeFilter)
      ensures isWelcomeModalOpen == old(isWelcomeModalOpen)
      ensures RouteOf(item) == EnterFolder ==> Here() == Entered(old(Here()), item) && searchQuery == ""
      ensures RouteOf(item) != EnterFolder ==> Here() == old(Here()) && searchQuery == old(searchQuery)
      ensures RouteOf(item) == OpenInEditor ==>
        Permission() == Request(old(Permission()), EditNote(item)).gate &&
        Open() == OpenedIf(old(Open()), Request(old(Permission()), EditNote(item)).run) &&
        performed == old(performed) + Ran(Request(old(Permission()), EditNote(item)).run)
      ensures RouteOf(item) != OpenInEditor ==>
        Permission() == old(Permission()) && Open() == old(Open()) && performed == old(performed)
      ensures RouteOf(item) == ShowPreview ==> previewItem == Some(item)
      ensures RouteOf(item) != ShowPreview ==> previewItem == old(previewItem)
      ensures RouteOf(item) == StartDownload ==>
        downloads == old(downloads) + match DownloadSource(item) case None => [] case Some(d) => [d]
      ensures RouteOf(item) != StartDownload ==> downloads == old(downloads)
    {
      match RouteOf(item)
      case EnterFolder =>
        OpenFolder(item);
      case OpenInEditor =>
        CheckPermission(EditNote(item));
      case ShowPreview =>
        previewItem := Some(item);
      case StartDownload =>
        var source := DownloadSource(item);
        if source.Some? {
          downloads := downloads + [source.value];
        }
    }

    /** `handleBreadcrumbClick(index)` on a rendered crumb. */
    method HandleBreadcrumbClick(index: int)
      requires Valid() && 0 <= index < |breadcrumbs|
      modifies this`currentFolderId, this`breadcrumbs
      ensures Valid()
      ensures Here() == ClimbedTo(old(Here()), index)
    {
      currentFolderId := breadcrumbs[index].id;
      breadcrumbs := breadcrumbs[..index + 1];
    }

    /** `handleFilterChange(filter)`. */
    method HandleFilterChange(filter: FilterType)
      requires Valid()
      modifies this`activeFilter, this`currentFolderId, this`breadcrumbs
      ensures Valid()
      ensures activeFilter == filter && Here() == AfterFilterChange(old(Here()), filter)
    {
      activeFilter := filter;
      if filter != ALL {
        currentFolderId := None;
        breadcrumbs := [ROOT_CRUMB];
      }
    }

    /** Typing into the search box. */
    method SetSearchQuery(query: string)
      modifies this`searchQuery
      ensures searchQuery == query
    {
      searchQuery := query;
    }

    /** `handleDelete(id)` with the user's answer to the question: delete
        for good in the recycle bin, move to it elsewhere, then reload. */
    method HandleDelete(store: ItemStore, id: string, confirmed: bool, fault: StoreFault)
      requires store.Valid()
      modifies store, this`items, this`storageStats
      ensures store.Valid()
      ensures !confirmed ==> store.items == old(store.items) && items == old(items) && storageStats == old(storageStats)
      ensures confirmed && DeleteKindFor(activeFilter) == Permanent ==> store.items == Removed(old(store.items), id)
      ensures confirmed && DeleteKindFor(activeFilter) == ToTrash ==> store.items == SoftDeleted(old(store.items), id)
      ensures confirmed ==> Reloaded(store, fault)
      ensures confirmed && fault == NoFault && DeleteKindFor(activeFilter) == ToTrash && id in old(store.items) ==>
        store.items[id] in VisibleItems(items, TRASH, "", currentFolderId) && store.items[id] !in Filtered()
    {
      if confirmed {
        if DeleteKindFor(activeFilter) == Permanent {
          store.DeleteItem(id);
        } else {
          store.SoftDeleteItem(id);
        }
        Refresh(store, fault);
        if fault == NoFault && DeleteKindFor(activeFilter) == ToTrash && id in old(store.items) {
          SoftDeletedMovesToTrash(old(store.items), id, items, searchQuery, currentFolderId, activeFilter);
        }
      }
    }

    /** `handleRestore(id)`. */
    method HandleRestore(store: ItemStore, id: string, fault: StoreFault)
      requires store.Valid()
      modifies store, this`items, this`storageStats
      ensures store.Valid() && store.items == Restored(old(store.items), id)
      ensures Reloaded(store, fault)
    {
      store.RestoreItem(id);
      Refresh(store, fault);
    }

    /** `handleToggleStar(id)`. */
    method HandleToggleStar(store: ItemStore, id: string, fault: StoreFault)
      requires store.Valid()
      modifies store, this`items, this`storageStats
      ensures store.Valid() && store.items == FavoriteToggled(old(store.items), id)
      ensures Reloaded(store, fault)
    {
      store.ToggleFavorite(id);
      Refresh(store, fault);
    }

    /** `handleRename(id, newName)`. */
    method HandleRename(store: ItemStore, id: string, newName: string, fault: StoreFault)
      requires store.Valid()
      modifies store, this`items, this`storageStats
      ensures store.Valid() && store.items == Renamed(old(store.items), id, newName)
      ensures Reloaded(store, fault)
    {
      store.RenameItem(id, newName);
      Refresh(store, fault);
    }

    /** `handleCreateFolder(name)`: save a new folder in the current folder
        (`id` and `now` stand for `crypto.randomUUID()` and `Date.now()`),
        then reload; in My Drive without a search it is then on screen. */
    method HandleCreateFolder(store: ItemStore, name: string, id: string, now: int, fault: StoreFault)
      requires store.Valid()
      modifies store, this`items, this`storageStats
      ensures store.Valid()
      ensures store.items == Upserted(old(store.items), NewFolderItem(id, name, now, currentFolderId))
      ensures Reloaded(store, fault)
      ensures fault == NoFault && activeFilter == ALL && searchQuery == "" ==>
        Normalized(NewFolderItem(id, name, now, currentFolderId)) in Filtered()
    {
      var _ := store.SaveItem(NewFolderItem(id, name, now, currentFolderId));
      Refresh(store, fault);
      if fault == NoFault {
        CreatedFolderIsListed(old(store.items), id, name, now, currentFolderId, items);
      }
    }
  }
}
