# My Drive, modelled in Dafny

My Drive is a browser-local file drive. Users upload files, write notes and
create folders. They star, rename, trash, restore, preview and download items.
Everything lives in one IndexedDB object store (`files`) keyed by `id`. This
project models the parts of the application that carry logic and proves
properties about them:

- `types.dfy` (`Types`): the shared records and enumerations. JavaScript's
  optional fields are `Option`, and JavaScript truthiness is written out as
  predicates: `Flag` for optional booleans and `Truthy` for optional strings.
- `js_strings.dfy` (`JsStrings`): the JavaScript string operations the rules
  are built from:
  - `toLowerCase`;
  - `includes`, `startsWith` and `endsWith`;
  - `trim`, using the ECMAScript white-space set;
  - `replace` with a string pattern, which replaces the first occurrence only;
  - `split(',')[1]`;
  - the UTF-8 length a `Blob` gives a string.
- `storage_service.dfy` (`StorageService`): the item repository. The object
  store is a `map` field of the class `ItemStore`. Its methods are the
  upsert, the read-modify-write updates, the hard delete, the listing and
  the statistics. Each method is tied to a function on the map, and the
  properties are proved about those functions:
  - the frame conditions;
  - soft delete followed by restore;
  - the favourite toggle applied twice;
  - the used-space sum;
  - the listing's order and its permutation of the stored records.
- `app.dfy` (`App`): the application shell.
  - The visible list is a chain of filters, proved equal to a single filter
    by a declarative test (`Shown`).
  - Folder navigation is a `Location` holding the current folder and the
    breadcrumb trail.
  - The permission gate is a `Gate`: granted or not, an action waiting for an
    answer, and whether the dialog is open.
  - The routing rules cover clicks, deletes, uploads, new folders, downloads
    and shortcuts.
  - The class `Drive` holds the application state. Its handlers are proved
    against the functions above.
- `file_grid.dfy` (`FileGrid`): the file list. It covers keyboard focus
  movement, the column count, the file-kind badge, and the inline rename
  editor (class `Grid`).
- `preview_modal.dfy` (`PreviewModal`): the preview dialog. It covers the
  text-file test, which items render, and the text a text item shows.
- `note_editor.dfy` (`NoteEditor`): the note editor. It covers the title and
  text it opens with, and the record its save writes.
- `create_folder_modal.dfy` (`CreateFolderModal`): the new-folder dialog
  (class `Dialog`).

Inputs that come from outside the program are parameters:

- `crypto.randomUUID()`, `Date.now()` and `window.innerWidth`;
- the two remembered flags from `sessionStorage` and `localStorage`;
- the user's answer to `confirm`;
- a database failure (`StoreFault`);
- `atob`, and the decoder `decodeURIComponent(escape(atob(…)))`.

Three behaviours of the code differ from what one might expect of a file
store. The model follows the code:

- A listing whose database cannot be opened is an empty list, not an error
  (services/storageService.ts:70-73). A failure of the read request itself
  is still an error.
- Soft delete followed by restore leaves `isDeleted` as `false`, not as it
  was before. `saveItem` also writes `false` into an absent `isDeleted`.
- `createdAt` is not immutable: saving an edited note stamps it with the
  current time (components/NoteEditor.tsx:44).

## Model

| member | source | states |
|---|---|---|
| JsStrings.Lower | components/PreviewModal.tsx:14-15 | `toLowerCase` on ASCII letters: each upper-case letter becomes its lower-case letter, and every other character stays |
| JsStrings.LowerIsLower | components/PreviewModal.tsx:14-15 | lower-casing yields a lower-case string and is idempotent |
| JsStrings.ContainsLower | App.tsx:326-328 | a lower-case word found in a string is also found in its lower-cased form |
| JsStrings.EndsWithLower | components/PreviewModal.tsx:14 | a lower-case suffix survives lower-casing of the string |
| JsStrings.TrimStart | components/FileGrid.tsx:38 | the result is the suffix left after removing leading white space, and it does not start with white space |
| JsStrings.TrimEnd | components/FileGrid.tsx:38 | the result is the prefix left after removing trailing white space, and it does not end with white space |
| JsStrings.Trim | components/FileGrid.tsx:38 | `trim`: leading white space removed, then trailing white space |
| JsStrings.TrimSpec | components/CreateFolderModal.tsx:17-18 | `trim` returns a slice of the input framed by white space, with non-white ends, and it is empty exactly when the input is all white space |
| JsStrings.TrimIdempotent | components/CreateFolderModal.tsx:17-18 | trimming twice is trimming once |
| JsStrings.IndexOfFrom | components/NoteEditor.tsx:20 | the first occurrence at or after a position, or none at all |
| JsStrings.IndexOf | components/PreviewModal.tsx:39 | the first occurrence; none exactly when the pattern does not occur |
| JsStrings.ReplaceFirst | components/NoteEditor.tsx:20 | a string pattern replaces only its first occurrence; without one the string is unchanged |
| JsStrings.SecondField | components/PreviewModal.tsx:39 | `split(',')[1]`: undefined exactly when there is no comma; otherwise the text from just after the first comma up to the next comma or the end |
| JsStrings.FirstField | components/PreviewModal.tsx:39 | the text before the first comma, or the whole string; it holds no comma and ends at a comma or at the end |
| JsStrings.SecondFieldOfTrailingComma | components/PreviewModal.tsx:39-45 | a string whose only comma is last has an empty second field |
| JsStrings.Utf8Length | components/NoteEditor.tsx:43 | the Blob size is between one and four bytes per character, and one per character for ASCII |
| StorageService.Normalized | services/storageService.ts:82 | the saved record differs from the given one only in `isDeleted`, which becomes present and is true exactly when it was true |
| StorageService.Upserted | services/storageService.ts:76-88 | an upsert keyed by `id`: the id maps to the normalised record, other keys are unchanged, and the key invariant is kept |
| StorageService.Renamed | services/storageService.ts:90-104 | only the named record changes, only in its name (plus normalisation); an absent id changes nothing |
| StorageService.SoftDeleted | services/storageService.ts:118-132 | only the named record changes, only in `isDeleted`, which becomes true; an absent id changes nothing |
| StorageService.Restored | services/storageService.ts:134-148 | only the named record changes, only in `isDeleted`, which becomes false; an absent id changes nothing |
| StorageService.FavoriteToggled | services/storageService.ts:150-164 | only the named record changes: `isFavorite` becomes the negation of its truthiness, and nothing else changes beyond normalisation |
| StorageService.Removed | services/storageService.ts:106-116 | exactly the named key disappears, and every other entry is untouched |
| StorageService.SoftDeleteThenRestore | services/storageService.ts:118-148 | soft delete then restore gives back the record with `isDeleted` false; on an absent id both are no-ops |
| StorageService.ToggleFavoriteTwice | services/storageService.ts:150-164 | toggling twice restores the favourite truthiness, normalised, and on an absent id changes nothing |
| StorageService.MapSum | services/storageService.ts:166-168 | the used space: the sum of the sizes of every stored record |
| StorageService.SumSizes | services/storageService.ts:167-168 | `reduce` adding up the sizes of a listing |
| StorageService.MapSumRemove | services/storageService.ts:166-168 | the used space is one record's size plus the used space of the rest |
| StorageService.MapSumReplace | services/storageService.ts:76-170 | replacing a record changes the used space by the difference in size; adding one adds its size |
| StorageService.UsageIgnoresFlagsAndNames | services/storageService.ts:166-170 | soft delete, restore, star and rename leave the used space unchanged, so trashed items still count |
| StorageService.UsageAfterSaveAndDelete | services/storageService.ts:166-170 | a save adds the new size and drops the replaced one; a hard delete drops the removed size |
| StorageService.ValuesRemove | services/storageService.ts:167-168 | removing a key removes exactly its record from the multiset of records |
| StorageService.ListingSum | services/storageService.ts:167-168 | `reduce` over a listing that holds the store's records is the used space |
| StorageService.StrLtTransitive | services/storageService.ts:56 | the key order of `getAll` is transitive |
| StorageService.StrLtTotal | services/storageService.ts:56 | any two distinct keys are ordered |
| StorageService.LeastKeyExists | services/storageService.ts:56 | every non-empty key set has a least key |
| StorageService.Compare | services/storageService.ts:61-65 | a record sorts first exactly when it is a folder and the other is not, or both are in the same group and it is newer; two records tie exactly when they are in the same group and were created at the same time |
| StorageService.SortedMeansFoldersThenNewest | services/storageService.ts:61-65 | ordered for the comparator exactly when folders come first and `createdAt` does not increase within each group |
| StorageService.Insert | services/storageService.ts:61-65 | insertion adds exactly one record |
| StorageService.InsertSorted | services/storageService.ts:61-65 | insertion into an ordered list keeps it ordered |
| StorageService.SortForDisplay | services/storageService.ts:61-65 | the sort is a permutation and its result is ordered for the comparator |
| StorageService.InsertKeepsTies | services/storageService.ts:61-65 | inserting a record with a key below all others keeps ties in key order |
| StorageService.SortKeepsTies | services/storageService.ts:56-65 | the sort is stable: records the comparator ties keep ascending key order |
| StorageService.TakeLeastOrder | services/storageService.ts:56 | appending the least remaining key keeps the output ascending and below what remains |
| StorageService.TakeLeastCount | services/storageService.ts:56 | appending the least remaining record moves it from the rest to the output |
| StorageService.ItemStore.constructor | services/storageService.ts:9-47 | a freshly created store is empty |
| StorageService.ItemStore.SaveItem | services/storageService.ts:76-88 | stores and returns the normalised record; the store becomes `Upserted` of the old store |
| StorageService.ItemStore.RenameItem | services/storageService.ts:90-104 | the store becomes `Renamed` of the old store |
| StorageService.ItemStore.DeleteItem | services/storageService.ts:106-116 | the store becomes `Removed` of the old store |
| StorageService.ItemStore.SoftDeleteItem | services/storageService.ts:118-132 | the store becomes `SoftDeleted` of the old store |
| StorageService.ItemStore.RestoreItem | services/storageService.ts:134-148 | the store becomes `Restored` of the old store |
| StorageService.ItemStore.ToggleFavorite | services/storageService.ts:150-164 | the store becomes `FavoriteToggled` of the old store |
| StorageService.ItemStore.GetAll | services/storageService.ts:56 | every stored record exactly once, in ascending key order |
| StorageService.ItemStore.GetItems | services/storageService.ts:49-74 | an unopenable database gives the empty list and a failed read an error; otherwise a permutation of the records with folders first, newest first within each group, and ties in key order |
| StorageService.ItemStore.GetStorageStats | services/storageService.ts:166-170 | used space is the sum of every record's size, soft-deleted ones included, against 1024⁴ bytes; an unopenable database reports 0 and a failed read an error |
| App.Filter | App.tsx:150-186 | `filter` keeps exactly the elements that pass the test |
| App.FilterIsSubsequence | App.tsx:150-186 | a filter's result is an order-preserving subsequence |
| App.FilterFilter | App.tsx:150-186 | two filters in a row are one filter by both tests |
| App.FilterCongruent | App.tsx:150-186 | tests that agree on the elements give the same result |
| App.FilterIdempotent | App.tsx:150-186 | filtering twice with the same test is filtering once |
| App.FilterKeepsSorted | App.tsx:150-186 | filtering a listing keeps it ordered for the listing's comparator |
| App.TwoFilters | App.tsx:155-163 | two filters in a row are one filter by a test they jointly decide |
| App.ThreeFilters | App.tsx:155-183 | three filters in a row are one filter by a test they jointly decide |
| App.Shown | App.tsx:150-186 | the declarative view test: the recycle bin holds exactly the deleted items; Images, Notes and Starred restrict the kind or the star; My Drive without a search holds one folder; a search keeps the matching names |
| App.VisibleItems | App.tsx:150-186 | an item is visible exactly when it is in the listing and passes `Shown` |
| App.VisibleItemsSpec | App.tsx:150-186 | the chain of filters is one filter by `Shown`, so the view is an order-preserving subsequence of the listing |
| App.VisibleItemsIdempotent | App.tsx:150-186 | the view of a view is the view |
| App.ViewKeepsListingOrder | App.tsx:150-186 | every view of the sorted listing keeps folders first and newest first |
| App.ViewByFilter | App.tsx:153-183 | the recycle bin is exactly the deleted items; other views hold no deleted item and only their kind or starred items; My Drive is one folder, or a search across all folders |
| App.FolderScenario | App.tsx:164-177 | with folder F1 at the root holding a note, the root shows only F1 and F1 shows only the note |
| App.SearchScenario | App.tsx:166-183 | the search "report" finds "Report.txt" at the root and "report2.png" in a folder alike |
| App.Entered | App.tsx:310-315 | opening a folder pushes its crumb, makes it current and keeps the trail valid |
| App.ClimbedTo | App.tsx:339-343 | clicking crumb i cuts the trail to length i+1, makes that crumb's folder current, and keeps the trail valid; the folder is the root exactly for crumb 0 |
| App.AfterFilterChange | App.tsx:345-353 | every view but My Drive resets to the root crumb; My Drive keeps the location |
| App.AtRootIffSingleCrumb | App.tsx:27-30 | with a valid trail, the user is at the root exactly when the trail is the root crumb alone |
| App.EnterThenClimbBack | App.tsx:310-343 | clicking the crumb before a folder just opened undoes the opening |
| App.ClimbingComposes | App.tsx:339-343 | clicking the last crumb changes nothing; two crumb clicks equal the second alone |
| App.Request | App.tsx:90-97 | with permission the action runs at once; otherwise it waits and the dialog opens |
| App.Confirm | App.tsx:99-108 | confirming grants permission, closes the dialog, runs the waiting action and drops it |
| App.Cancel | App.tsx:110-113 | cancelling closes the dialog and drops the waiting action without running it |
| App.ConfirmRunsParkedActionOnce | App.tsx:90-113 | without permission an action runs only on confirmation, exactly once, and afterwards every request runs at once; cancel runs nothing |
| App.DeleteKindFor | App.tsx:188-202 | delete is permanent exactly in the recycle bin |
| App.DeleteQuestion | App.tsx:189-192 | the question asked before a permanent delete and before a move to the recycle bin |
| App.UploadType | App.tsx:261-267 | an upload is an IMAGE exactly for `image/…`, a NOTE exactly for `text/…`, and a FILE otherwise |
| App.Payload | App.tsx:272 | what `result.split(',')[1]` hands to `atob`: the second field of the data URL, or "undefined" when it has no comma |
| App.UploadedItem | App.tsx:256-276 | the saved upload is filed in the current folder with its name, size, mime type and data URL; only text uploads carry content, which is exactly `atob` of the payload, and when that `atob` fails nothing is saved |
| App.NewFolderItem | App.tsx:295-304 | a new folder has size 0, is not deleted, and is filed in the current folder |
| App.TextLike | App.tsx:325-329 | `isTextLike`: the mime type names text, json or javascript, or the name ends with one of nine text extensions in any case |
| App.RouteOf | App.tsx:310-337 | folders are entered, notes open the editor, and images, PDFs and text-like files are previewed; everything else is downloaded |
| App.PreviewedItemsRender | App.tsx:321-333 | every item a click sends to the preview is one the preview dialog renders |
| App.DownloadSource | App.tsx:219-239 | a note with content always downloads its text, even when it also has a url; otherwise a truthy url is linked; with neither, nothing happens |
| App.ShortcutAction | App.tsx:121-144 | Ctrl/Cmd+Shift+A asks for a new note and Ctrl/Cmd+Shift+N for a new folder, only while no dialog is open |
| App.StoredIsListed | services/storageService.ts:56-66 | a stored record appears in a listing that holds the store's records |
| App.SoftDeletedMovesToTrash | App.tsx:188-202 | after a move to the recycle bin the item shows there and in no other view |
| App.CreatedFolderIsListed | App.tsx:295-308 | a new folder shows in My Drive in the folder it was created in |
| App.UploadIsListed | App.tsx:249-285 | an upload shows in My Drive in the folder it was uploaded to |
| App.Opened | App.tsx:355-377 | what each action opens: the note editor (new or with the note), the folder dialog or the AI dialog |
| App.Drive.constructor | App.tsx:18-88 | the first render: My Drive at the root with nothing loaded, permission as remembered for the session, and the welcome dialog unless already seen |
| App.Drive.Filtered | App.tsx:150-186 | `filteredItems`: `VisibleItems` of the loaded items under the active filter, the query and the current folder |
| App.Drive.Run | App.tsx:355-377 | runs an action's body and logs it |
| App.Drive.CheckPermission | App.tsx:90-97 | the gate becomes `Request`'s gate, and exactly the action `Request` runs takes effect |
| App.Drive.HandlePermissionConfirm | App.tsx:99-108 | the gate becomes `Confirm`'s gate, and the waiting action, if any, takes effect once |
| App.Drive.HandlePermissionCancel | App.tsx:110-113 | the gate becomes `Cancel`'s gate |
| App.Drive.HandleShortcut | App.tsx:121-148 | a recognised shortcut goes through the permission gate: the gate becomes `Request`'s, and the panel of the action `Request` runs opens; any other key changes nothing |
| App.Drive.Refresh | App.tsx:59-71 | `Reloaded`: without a fault the items are the store's records, folders first, newest first and ties in key order, with the store's used space; an unopenable database shows nothing; a failed read keeps the old data |
| App.Drive.OpenFolder | App.tsx:312-315 | opening a folder moves the location to `Entered` of the old one, keeps the trail valid and clears the search |
| App.Drive.HandleItemClick | App.tsx:310-337 | each route changes only its own part of the state: the location (with the search cleared), the gate and editor, the preview, or the download log |
| App.Drive.HandleBreadcrumbClick | App.tsx:339-343 | the location becomes `ClimbedTo` of the old one, and the trail stays valid |
| App.Drive.HandleFilterChange | App.tsx:345-353 | sets the filter, and the location becomes `AfterFilterChange` of the old one |
| App.Drive.SetSearchQuery | App.tsx:418 | sets the query |
| App.Drive.HandleDelete | App.tsx:188-202 | without confirmation nothing changes; otherwise the store is hard-deleted in the recycle bin and soft-deleted elsewhere, the screen is `Reloaded` from the new store, and a soft-deleted item then shows in the recycle bin and not in the current view |
| App.Drive.HandleRestore | App.tsx:204-207 | the store becomes `Restored` of the old store, and the screen is `Reloaded` from it |
| App.Drive.HandleToggleStar | App.tsx:209-212 | the store becomes `FavoriteToggled` of the old store, and the screen is `Reloaded` from it |
| App.Drive.HandleRename | App.tsx:214-217 | the store becomes `Renamed` of the old store, and the screen is `Reloaded` from it |
| App.Drive.HandleCreateFolder | App.tsx:295-308 | the new folder is saved in the current folder and the screen is `Reloaded` from the new store; in My Drive without a search the folder is then on screen |
| FileGrid.GridColumns | components/FileGrid.tsx:46-52 | 5, 4, 3 or 2 columns at widths from 1280, 1024 and 768 down |
| FileGrid.GridColumnsMonotone | components/FileGrid.tsx:46-52 | a wider window never has fewer columns |
| FileGrid.Columns | components/FileGrid.tsx:58 | one column exactly in the list view |
| FileGrid.NextIndex | components/FileGrid.tsx:59-79 | arrows move by one or by a row, clamped to the list, and the result stays in range; other keys stay put |
| FileGrid.KeyEffectOf | components/FileGrid.tsx:54-100 | nothing happens during a rename; an arrow moves focus exactly when it changes the clamped index, and only to that index; Enter opens, and F2 starts a rename, exactly for items that are not deleted (F2 also needs a rename handler) |
| FileGrid.FileLabelOf | components/FileGrid.tsx:114-137 | `getFileIconProps` as written: the chain of mime and extension tests |
| FileGrid.FileLabelIsFirstMatch | components/FileGrid.tsx:114-137 | the badge is the first of PDF, DOC, XLS, ZIP, CODE and TXT whose rule matches, else FILE |
| FileGrid.CsvIsSpreadsheet | components/FileGrid.tsx:123 | a `.csv` name in either case gets the XLS badge unless the mime type names an earlier kind |
| FileGrid.RenameOnSave | components/FileGrid.tsx:37-43 | a rename happens exactly for a truthy id, a non-blank name and a present handler, and it carries the trimmed name |
| FileGrid.Grid.constructor | components/FileGrid.tsx:19-20 | no rename is in progress and the text is empty |
| FileGrid.Grid.StartEditing | components/FileGrid.tsx:27-30 | the editor opens on the item with its name |
| FileGrid.Grid.CancelEditing | components/FileGrid.tsx:32-35 | the editor closes and its text is cleared |
| FileGrid.Grid.SetEditName | components/FileGrid.tsx:198 | typing sets the editor's text |
| FileGrid.Grid.SaveEditing | components/FileGrid.tsx:37-43 | the rename is `RenameOnSave` of the old state, and the editor always closes and clears |
| FileGrid.Grid.HandleEditKey | components/FileGrid.tsx:199-203 | in the rename field, Enter saves as `SaveEditing`, Escape cancels, and any other key leaves the editor as it is |
| FileGrid.Grid.HandleKeyDown | components/FileGrid.tsx:54-100 | the effect is `KeyEffectOf`; only F2 changes the editor state, by starting the rename |
| PreviewModal.IsTextFile | components/PreviewModal.tsx:13-30 | every NOTE is text |
| PreviewModal.TextTestIgnoresCase | components/PreviewModal.tsx:14-15 | the text test does not depend on the case of the name or the mime type |
| PreviewModal.IsPdf | components/PreviewModal.tsx:59 | a PDF: the mime type mentions pdf, or the name ends with ".pdf" in any case |
| PreviewModal.Renders | components/PreviewModal.tsx:57-64 | the dialog renders only for an item, and always for images and notes |
| PreviewModal.TextContent | components/PreviewModal.tsx:32-55 | nothing for non-text items; inline content wins for text; the shown string changes only for text items |
| PreviewModal.ContentTakesPrecedence | components/PreviewModal.tsx:33-35 | with inline content, the url and the decoder make no difference |
| PreviewModal.MissingPayloadMessage | components/PreviewModal.tsx:39-46 | a url without a payload after its first comma shows "No content available." |
| NoteEditor.InitialTitle | components/NoteEditor.tsx:18-26 | empty for a new note; otherwise the name with its first ".txt" cut out, or the name itself when it holds none |
| NoteEditor.TitleCutsAt | components/NoteEditor.tsx:20 | the opening title cuts the name at its first ".txt", wherever that is |
| NoteEditor.InitialContent | components/NoteEditor.tsx:21-24 | the note's content, or empty |
| NoteEditor.NoteName | components/NoteEditor.tsx:41 | the saved name always ends with ".txt", and a title already ending so is kept as typed |
| NoteEditor.NoteNameIdempotent | components/NoteEditor.tsx:41 | naming an already named note changes nothing |
| NoteEditor.ReopenedNameUnchanged | components/NoteEditor.tsx:20-41 | a name whose only ".txt" is its ending survives opening and saving |
| NoteEditor.DoubledEndingShrinks | components/NoteEditor.tsx:20-41 | "a.txt.txt" comes back as "a.txt" after opening and saving |
| NoteEditor.SaveNote | components/NoteEditor.tsx:30-49 | no record exactly for a blank title; otherwise a NOTE named by `NoteName`, sized in UTF-8 bytes and typed text/plain, with no parent, no url and no owner; an edit keeps the id and the flags' truthiness, and a new note is unstarred and not deleted |
| NoteEditor.SaveNoteMovesEditedNoteToRoot | components/NoteEditor.tsx:39-49 | saving an edited note that sits in a folder writes it without its folder |
| NoteEditor.SaveNoteInPlace | components/NoteEditor.tsx:39-49 | the same record as `SaveNote`, but an edited note keeps its `parentId` |
| NoteEditor.EditKeepsPlace | components/NoteEditor.tsx:39-49 | with the corrected save, an edit keeps the note's id, folder and flags |
| CreateFolderModal.SubmittedName | components/CreateFolderModal.tsx:15-22 | nothing exactly for a blank field; otherwise the trimmed name, non-empty with non-white ends |
| CreateFolderModal.CreateDisabled | components/CreateFolderModal.tsx:56 | the button is disabled exactly when the field is all white space |
| CreateFolderModal.DisabledIffNothingSubmitted | components/CreateFolderModal.tsx:15-56 | the button is disabled exactly when a submit would create nothing, and resubmitting the submitted name gives the same name |
| CreateFolderModal.Dialog.constructor | components/CreateFolderModal.tsx:12 | the field starts empty and the dialog closed |
| CreateFolderModal.Dialog.Show | App.tsx:362-366 | opening sets the dialog open |
| CreateFolderModal.Dialog.Close | components/CreateFolderModal.tsx:29-49 | Cancel and the close button close the dialog |
| CreateFolderModal.Dialog.SetFolderName | components/CreateFolderModal.tsx:39 | typing sets the field |
| CreateFolderModal.Dialog.HandleSubmit | components/CreateFolderModal.tsx:15-22 | hands over `SubmittedName` of the field; on success it clears the field and closes, on a blank field it changes nothing |

## Left out

- The IndexedDB plumbing is not modelled: `openDB`, the version upgrade, index creation and the promises. The store is an in-memory map. A database failure is the parameter `StoreFault`, and `Refresh` uses one fault for both of its reads.
- Failures of writes (`put`, `delete`) are not modelled: every write succeeds.
- Races between the separate read and write transactions of the read-modify-write operations are not modelled, because the operations run sequentially. For the same reason the unawaited reloads and the concurrent uploads are not modelled either.
- `formatBytes`, the sidebar's usage percentage and the AI dialog's size estimate are not modelled, because they are floating-point arithmetic.
- The mock `registerUser`/`loginUser` and the sign-in page are not modelled: they are stubs.
- The AI image service and its dialog are not modelled: they call an external API.
- Reading files, base64 decoding, Blob URLs and link clicks are not modelled, because they are browser I/O. `atob` and the preview decoder are parameters. A download is logged as the text or url it would use (`DownloadRef`).
- The loop in `handleFileUpload` is not modelled; each file's record is `App.UploadedItem`. In the source, a text upload whose `atob` throws leaves `Promise.all` waiting forever; the model says only that nothing is saved for that file.
- The action run by the Upload button opens the browser's file picker. That has no effect in the model beyond the action log.
- The toasts, the welcome dialog's own buttons, the sidebar, the view-mode toggle, the loading spinner and all rendering are not modelled.
- Focus moves are not modelled: `NextIndex` gives the index that would receive focus, and the DOM's `focus()` is outside the model.
- `handleNoteSaved` and the note editor's own download are not modelled. The first is a reload followed by clearing the edited note. The second is a Blob download of the typed text under `NoteName`.
- StorageService.StrLt: keys are ordered by Unicode code point, not by UTF-16 code unit as IndexedDB does; the two orders differ only for keys mixing characters beyond U+FFFF with characters from U+E000 up, which the generated UUID keys never contain.
- JsStrings.Lower: `toLowerCase` is modelled on ASCII letters only; other characters are left unchanged.
- Types.DriveItem: sizes and timestamps are unbounded integers, not JavaScript doubles.
- Types.DriveItem: `parentId` merges `null` and `undefined` into `None`. Every consumer treats them alike.
- The `ownerId` and `parentId` indexes are not modelled; nothing in the modelled code queries them.

## Findings

| source | as written | input that shows it | evidently intended | confidence | as-written member | corrected member |
|---|---|---|---|---|---|---|
| components/NoteEditor.tsx:39-49 | the saved record has no `parentId`, and `saveItem` replaces the whole record | edit a note whose `parentId` is a folder's id and save it with a non-blank title | the edited note stays in its folder instead of moving to the root | medium, not executed | NoteEditor.SaveNoteMovesEditedNoteToRoot | NoteEditor.SaveNoteInPlace |
