# Context-capture popup: local cache and suggestion lists

This project models the bookkeeping part of the context-capture extension's
popup (`src/popup.js`). That part covers three stored lists:

- the `recent_sessions` cache of entry records, kept in chrome.storage.local;
- the `saved_groups` suggestion list, kept in localStorage;
- the `saved_categories` suggestion list, kept in localStorage.

The operations that change these lists are modelled:

- **sync** (`performSync`): the cache becomes the fetched open threads, newest first, and both suggestion lists grow by set union with the fetched tags;
- **capture** (the save button): it validates the form, signs in, builds the payload, creates the remote document, and only then appends suggestions and updates the cache, which it caps at twenty entries;
- **local removal** (`removeSessionLocal`);
- **suggestion deletion** (`deleteFromStorage`);
- **the "Done" button**: ids with the local `sess_` prefix are removed only locally; other ids are marked done remotely first, then removed locally.

Smaller pieces are modelled too:

- the context-list filter;
- `forceSetOption` and `populateFilter`;
- the session-select labels of `loadRecentSessions`;
- the HTML-escaping step of `renderMarkdown`.

`src/firebase.local.js` is modelled as an abstract remote store (`Firestore.RemoteStore`). It holds a collection of documents plus three flags:

- whether a config was present (`configured`);
- whether the user is signed in;
- whether the network calls complete (`online`).

It keeps the adapter's observed behaviours:

- `saveEntry` throws without a db and forces `status: "open"`;
- `fetchOpenContexts` returns `[]` without a db or on error;
- `markEntryDone` does nothing without a db.

Layout, one module per file:

- `wrappers.dfy`: `Option`, `Result` and `Outcome`;
- `text.dfy`: `trim`, `startsWith`, and the `&`/`<`/`>` escape chain;
- `lists.dfy`: `filter`, insertion-ordered sets, and removal of a value;
- `entries.dfy`: the cache record, the stable newest-first sort, `findIndex`, removal by id, the filter, retagging and the cap;
- `remote.dfy`: the remote store;
- `capture.dfy`: the save handler's pure steps (validation, thread choice, source, payload, cache update);
- `dropdowns.dfy`: the select boxes and the session labels;
- `popup.dfy`: the page state as the class `PopupPage`, with the sync loop and the handlers.

Values the handlers take from outside are parameters (`CaptureEnv`, `activeTabUrl`):

- the clock;
- the random suffix of the temporary id;
- the parsed URL origin;
- the id and time the remote assigns;
- whether an interactive sign-in succeeds.

Three facts about the cache follow from the code:

- a sync **replaces** the cache; it does not merge into it;
- a failed or unconfigured fetch **empties** the cache;
- the capture path caps the cache at **20** entries.

## Model

| member | source | states |
|---|---|---|
| Text.TrimStart | src/popup.js:467 | the result is a suffix of the input, everything dropped is white space, and the result does not start with white space |
| Text.TrimEnd | src/popup.js:467 | the result is a prefix of the input, everything dropped is white space, and the result does not end with white space |
| Text.Trim | src/popup.js:467 | `trim()` never lengthens a string and leaves no white space at either end |
| Text.TrimEmptyIff | src/popup.js:467-468 | a string trims to "" exactly when every character is white space (both directions) |
| Text.TrimRemovesOnlyOuterSpace | src/popup.js:467 | the trimmed string is the slice of the input after its leading white space, and everything outside that slice is white space |
| Text.TrimIdempotent | src/popup.js:467 | trimming a trimmed string changes nothing |
| Text.ReplaceChar | src/popup.js:367 | a global one-character `replace` leaves no occurrence of the character when the replacement does not contain it, and every character of the result comes from the replacement or is a character of the input other than the pattern |
| Text.EscapeHtml | src/popup.js:367 | the `&`, `<`, `>` replace chain leaves no `<` or `>` in its output |
| Text.RenderEscaped | src/popup.js:365-367 | falsy text renders as ""; other text becomes its `EscapeHtml`, which has no `<` or `>` and decodes back to the text |
| Text.EscapeEach | src/popup.js:367 | the per-character reference escaping leaves no `<` or `>` |
| Text.EscapeHtmlIsPerCharacter | src/popup.js:367 | the chain `&` then `<` then `>` equals escaping each character once, so entities are never double-escaped |
| Text.EscapeHtmlRoundTrip | src/popup.js:366-367 | the escaped text contains no `<` or `>`, and decoding the three entities gives back the input |
| Lists.Filter | src/popup.js:225 | `filter` keeps exactly the accepted elements, each with its original multiplicity |
| Lists.FilterConcat | src/popup.js:225 | `filter` distributes over concatenation, so relative order is kept |
| Lists.FilterIdempotent | src/popup.js:225 | filtering twice with the same test equals filtering once |
| Lists.AddIfAbsent | src/popup.js:507-509 | the value is present afterwards; the list is unchanged if it was already there, otherwise the value is appended at the end; no duplicates are introduced |
| Lists.AddAll | src/popup.js:121-126 | adding values to a `Set` keeps the earlier contents as a prefix, yields the union, and introduces no duplicates |
| Lists.Dedup | src/popup.js:118-119 | `[...new Set(s)]` has no duplicates and the same members as `s` |
| Lists.DedupNoDup | src/popup.js:118-119 | a duplicate-free list passes through a `Set` unchanged |
| Lists.RemoveValue | src/popup.js:223-227 | no element equal to the value is left; every other value keeps its count; a duplicate-free list stays duplicate-free |
| Lists.RemoveValueKeepsOrder | src/popup.js:225 | deletion keeps the surviving values in their original order |
| Entries.TruthyTags | src/popup.js:121-124 | the tags the sync loop adds are exactly the truthy group (or category) values of the fetched entries |
| Entries.InsertByTimeSorted | src/popup.js:113 | inserting into a newest-first list ahead of the first entry no newer keeps it newest-first |
| Entries.InsertByTimeCount | src/popup.js:113 | insertion adds exactly the inserted entry, with every other count unchanged |
| Entries.InsertByTimeMembers | src/popup.js:113 | the result holds the inserted entry and the list's entries, and nothing else |
| Entries.SortNewestFirst | src/popup.js:113 | the sort by `b.timestamp - a.timestamp` yields a permutation of the input with timestamps non-increasing |
| Entries.SortKeepsSorted | src/popup.js:113 | the stable sort leaves an already newest-first list unchanged |
| Entries.SortIdempotent | src/popup.js:113 | sorting twice equals sorting once |
| Entries.InsertByTimeTies | src/popup.js:113 | an inserted entry goes ahead of every entry with the same timestamp, which keep their order |
| Entries.SortIsStable | src/popup.js:113 | the sort is stable: for every timestamp, the entries with that timestamp come out in their input order |
| Entries.FirstIndexOf | src/popup.js:526 | `findIndex` returns the first index holding the id, or -1 exactly when no entry has it |
| Entries.RemoveById | src/popup.js:302-306 | no entry with the id is left; every other entry keeps its count; the cache is unchanged when the id is absent |
| Entries.RemoveByIdKeepsOrder | src/popup.js:305 | removal by id keeps the surviving entries in their original order |
| Entries.VisibleContexts | src/popup.js:236-239 | an entry is shown exactly when it is cached and matches both filters ("all" or equal field), with its multiplicity |
| Entries.MatchesFilter | src/popup.js:237-238 | with both filters at "all" every entry matches; a filter other than "all" matches only an entry whose field equals it |
| Entries.AllFiltersShowEverything | src/popup.js:236-239 | with both filters at "all" the whole cache is shown, in order |
| Entries.RetagReply | src/popup.js:525-527 | only the first entry with the referenced id changes, and only its group and category, which take the new values; the length is kept |
| Entries.CapCache | src/popup.js:531 | the cache becomes its first 20 entries when longer, and is untouched when already short enough |
| Firestore.ToEntry | src/firebase.local.js:63-67 | a fetched record carries the document id, its `createdAt` as timestamp, its fields, `content` and no `title` |
| Firestore.OpenContexts | src/firebase.local.js:57-67 | the query yields exactly the open documents with a null `sessionRef` |
| Firestore.MarkDoneIn | src/firebase.local.js:76-77 | `updateDoc` sets status "done" on the documents with the id and changes nothing else |
| Firestore.DoneIsNotRefetched | src/firebase.local.js:57-61 | after a document is marked done, no later fetch returns it |
| Firestore.CreatedDocFetched | src/firebase.local.js:51 | a newly created document is fetched by the next sync exactly when it is an open root, and the fetched set grows by that one record |
| Firestore.RemoteStore.EnsureAuth | src/firebase.local.js:36-40 | succeeds exactly when configured and signed in; fails with the two messages otherwise |
| Firestore.RemoteStore.SignInWithPopup | src/popup.js:475 | the interactive sign-in succeeds exactly when the user completes it, and then the user is signed in |
| Firestore.RemoteStore.SaveEntry | src/firebase.local.js:42-52 | fails with "Cloud sync disabled." without a db; otherwise, when the network call completes, appends the payload with status open under the assigned id and returns that id; nothing is stored on failure |
| Firestore.RemoteStore.FetchOpenContexts | src/firebase.local.js:54-72 | the call never throws; it returns `[]` without a db or when the query fails, and otherwise every open root and nothing else |
| Firestore.RemoteStore.MarkDoneOutcome | src/firebase.local.js:74-78 | mark-done fails exactly when there is a db and either the network fails or no document has the id |
| Firestore.RemoteStore.MarkEntryDone | src/firebase.local.js:74-78 | the documents change, by `MarkDoneIn`, only when a configured and online call succeeds |
| Capture.ValidateCapture | src/popup.js:467-472 | "Content is required" exactly when the trimmed content is empty; "Missing required fields" exactly when the content is present and the resolved group or category is empty; on success, trimmed content and the resolved, non-empty group and category |
| Capture.BlankContentRejected | src/popup.js:467-468 | content made only of white space is rejected with "Content is required" |
| Capture.CreateNewUsesTypedValue | src/popup.js:470 | choosing "create_new" for the group uses the trimmed typed value, and a blank typed value is rejected |
| Capture.CreateNewCategoryUsesTypedValue | src/popup.js:471 | choosing "create_new" for the category uses the trimmed typed value, and a blank typed value is rejected |
| Capture.TempId | src/popup.js:481 | the temporary id starts with `sess_` |
| Capture.ResolveChoice | src/popup.js:470 | a selection other than "create_new" is used as is; "create_new" gives the trimmed typed value, which is empty exactly when the typed value is all white space |
| Capture.ChooseThread | src/popup.js:483-484 | "new" starts a thread under the temporary id; any other selection replies to that id |
| Capture.EntryTypeFor | src/popup.js:496 | "User Highlight" exactly for the context-menu modal, and "User Idea" otherwise |
| Capture.SourceFor | src/popup.js:486-492 | no source without a URL; an unparsable URL fails; otherwise the root is the origin, and `full` chooses between full URL and origin |
| Capture.NoteValue | src/popup.js:495 | None exactly when the trimmed note is empty, otherwise the trimmed note |
| Capture.BuildPayload | src/popup.js:494-499 | exactly one of `sessionId` and `sessionRef` is set, according to the thread; schemaVersion is 3; the content, note, group, category, source and origin are the ones passed in; `entryType` follows the opening mode |
| Capture.CapturePayload | src/popup.js:486-499 | the save stops before the create request exactly when there is a URL without a parsable origin, with "Invalid URL"; otherwise the payload is the one `BuildPayload` makes from the validated fields, the trimmed note, the opening mode, the source and the chosen thread |
| Capture.PayloadIsRootXorReply | src/popup.js:481-484 | "new" gives a `sess_`-prefixed `sessionId` and a null `sessionRef`; any other selection gives a null `sessionId` and that selection as `sessionRef`; schemaVersion is 3 |
| Capture.CreatedDocIsRootIffNewThread | src/popup.js:483-484 | the created document is an open root, and so is fetched by later syncs, exactly when the capture started a new thread |
| Capture.NewRootEntry | src/popup.js:517-524 | the new cache record has the remote id, the content as title, the note, the group, the category and the capture time |
| Capture.CacheAfterSave | src/popup.js:515-531 | the cache after a save has at most 20 entries: a new thread gives at least one and at most one more than before, and a reply gives no more than before |
| Capture.NewThreadGoesFirst | src/popup.js:515-531 | after a new-thread save, index 0 holds the new record with the remote id, the old cache follows in order, and the length is min(n + 1, 20) for a cache of n entries |
| Capture.ReplyOnlyRetags | src/popup.js:525-531 | after a reply save, at most 20 entries remain; each is an original entry at the same index; only the first referenced entry differs, and only in its group and category |
| Dropdowns.HasOption | src/popup.js:403-404 | the option scan finds the value exactly when it is among the options |
| Dropdowns.WithOption | src/popup.js:405-408 | a missing value is inserted at the front; an existing one leaves the options unchanged |
| Dropdowns.WithOptionIdempotent | src/popup.js:401-411 | forcing the same value twice adds it once |
| Dropdowns.KeptSelection | src/popup.js:195 | the previous selection is kept exactly when it is still an item; otherwise "all" |
| Dropdowns.DeleteEnabled | src/popup.js:200-201 | the delete button is enabled exactly when a real value (not "all") is selected |
| Dropdowns.DeletedSuggestionIsDeselected | src/popup.js:195-201 | after a suggestion is deleted, its filter falls back to "all" and its delete button is disabled |
| Dropdowns.SelectBox.ForceSetOption | src/popup.js:401-411 | a falsy value is refused with nothing changed; otherwise the value is ensured among the options (at the front if new) and selected |
| Dropdowns.SelectBox.PopulateFilter | src/popup.js:188-197 | the options become "all" plus the items, and the selection is the kept one or "all" |
| Dropdowns.Prefix | src/popup.js:435 | `substring(0, 35)` is the first 35 characters of a longer string, and the whole string when it is short enough |
| Dropdowns.LabelOf | src/popup.js:435 | the option text is the arrow, then the first 35 characters of the text (all of it when shorter), then the ellipsis |
| Dropdowns.SessionLabelAsWritten | src/popup.js:433-435 | the label is built from the note when it is truthy, otherwise from the title, and the computation throws exactly when the note is falsy and the record has no title |
| Dropdowns.NotelessFetchedRootHasNoLabel | src/popup.js:433-435 | a fetched record without a note makes the label computation throw |
| Dropdowns.SessionLabel | src/popup.js:433-435 | the corrected label uses the note when it is truthy, otherwise the title, and otherwise the content; it agrees with the as-written one wherever that succeeds |
| Dropdowns.SessionOptions | src/popup.js:431-437 | "Start New Thread" first, then one option per cached record in order, valued by its id |
| Dropdowns.FirstUnlabelled | src/popup.js:431-433 | the first record with neither a truthy note nor a title, or the record count when there is none |
| Dropdowns.SessionOptionsAsWritten | src/popup.js:430-436 | as written, the loop keeps the options of the records before the first unlabelled one and then ends with the TypeError |
| Dropdowns.SessionOptionsAsWrittenFails | src/popup.js:430-436 | the as-written loop fails exactly when some cached record has no label, and otherwise builds the same options as `SessionOptions` |
| Popup.SyncGrowsSuggestions | src/popup.js:118-127 | after a sync, every earlier suggestion is kept (a duplicate-free list as a prefix), every truthy fetched tag is present, nothing else is added, and no value appears twice |
| Popup.SyncedSuggestions | src/popup.js:118-127 | the list written back after a sync has no duplicates and keeps every earlier value |
| Popup.SyncSuggestionsIdempotent | src/popup.js:118-127 | syncing twice against the same remote data gives what one sync gives |
| Popup.SyncStep | src/popup.js:121-124 | one loop iteration adds the entry's tag exactly when it is truthy |
| Popup.CollectSuggestions | src/popup.js:118-124 | the loop over the fetched entries computes the union of the saved lists and the fetched tags |
| Popup.PopupPage.TakePendingCapture | src/popup.js:79-91 | a pending capture supplies the text, URL and mode and is then cleared; without one, the mode is "popup_manual" and the active tab's URL, when there is one, becomes the source |
| Popup.PopupPage.LoadRecentSessions | src/popup.js:428-437 | `cachedSessions` becomes the cache, and the session select lists it |
| Popup.PopupPage.PerformSync | src/popup.js:107-139 | the cache is exactly the fetched entries sorted newest first (nothing earlier is kept); each suggestion list becomes its union with the fetched tags |
| Popup.PopupPage.RemoveSessionLocal | src/popup.js:302-308 | the cache loses every entry with the id and nothing else |
| Popup.PopupPage.DeleteFromStorage | src/popup.js:223-227 | the chosen list loses every occurrence of the value, and the other list is untouched |
| Popup.PopupPage.Done | src/popup.js:262-279 | a `sess_` id is removed locally with the remote untouched; any other id is marked done remotely and removed locally only when that call succeeds |
| Popup.PopupPage.ClearCache | src/popup.js:310-317 | once confirmed, all three stored lists are empty; otherwise nothing changes |
| Popup.PopupPage.RecordCapture | src/popup.js:505-532 | missing suggestions are appended, and the cache becomes the new thread in front (or the retagged reply target), capped at 20 |
| Popup.PopupPage.Authenticate | src/popup.js:475 | sign-in passes exactly when there is a config and the user is already signed in or completes the interactive sign-in; afterwards the user is signed in exactly when they were before or, with a config, completed the sign-in |
| Popup.PopupPage.CreateAndRecord | src/popup.js:502-532 | the local writes happen only after the remote create succeeds; a failed create leaves the store and all three lists untouched |
| Popup.PopupPage.SaveValidated | src/popup.js:477-532 | an unparsable URL or a failed create writes nothing; a success stores exactly the built payload and then makes the local writes |
| Popup.PopupPage.SaveSignedIn | src/popup.js:474-532 | a failed sign-in writes nothing and leaves the sign-in state as `Authenticate` describes; otherwise as `SaveValidated` |
| Popup.PopupPage.Save | src/popup.js:464-539 | succeeds exactly when the form validates, sign-in passes, the URL (if any) parses, and the create succeeds; any failure leaves the cache, both suggestion lists and the remote documents unchanged; a success creates one document with the built payload and leaves the suggestions and the cache as `RecordCapture` describes; after a valid form the sign-in state is as `Authenticate` describes, and after an invalid one it is unchanged |

## Left out

- DOM construction and rendering: element lookups, tabs, the accordion, status text, button labels and `alert`s (src/popup.js:4-52, 143-172, 241-299, 534-537). These are UI.
- The Chrome and web storage APIs. The three storage keys are fields read and written whole, and a missing key reads as the empty list.
- Timing: the 50 ms retry for the pending capture, the `setTimeout` delays and `window.close`.
- `init`'s `executeScript` call that copies the page selection into the content box, which runs asynchronously. `TakePendingCapture` models only the pending-capture and active-tab steps.
- `loadDropdowns`, the session-select change handler (which calls `forceSetOption`), `handleCreateNew`, `updateSourceDisplay` and the preview toggle. These only fill or show form controls.
- The configuration panel (src/popup.js:319-359) and how firebase.local.js chooses and initialises a config (src/firebase.local.js:5-32). The result of both is the `configured` flag.
- `Text.RenderEscaped`: only the escape step of `renderMarkdown` is modelled. The code-block, inline-code, bold and newline rewrites (src/popup.js:368-371) use lazy regular expressions and are left out.
- `Firestore.ToEntry`: the `Date.now()` fallback for a document without `createdAt` is not modelled. The model always has a server time.
- `Firestore.ToEntry`: a fetched record keeps only the fields the cache reads. The other payload fields spread by `...doc.data()` are dropped.
- `Firestore.RemoteStore`: the reason a network call fails is not modelled. The `online` flag stands for "the call completes", and it is fixed for the store's lifetime.
- `Firestore.RemoteStore.SaveEntry`: the store does not choose the document ids; they are inputs, and nothing requires them to be distinct.
- `Firestore.CreatedDocFetched`: the fetch order is modelled as creation (append) order. A Firestore query without `orderBy` returns documents by id, and `addDoc` ids are random. After the stable sort this only changes the order of entries with equal timestamps.
- `Dropdowns.SessionOptions`: it labels every record with the corrected `SessionLabel`, so it never fails. The TypeError of the code as written is modelled separately by `SessionOptionsAsWritten`.
- `Popup.PopupPage.LoadRecentSessions`: it builds the options with the corrected `SessionLabel`. It does not model the TypeError that the code as written throws out of `init` or `performSync`, or the steps of those callers that the TypeError skips.
- `Dropdowns.Prefix`: `substring` counts UTF-16 code units; the model counts characters. They differ only for characters outside the Basic Multilingual Plane.
- background.js, src/offscreen.js and vite.config.js hold no logic in this core. They are not part of this model.
- Concurrency between handlers is not modelled. Each handler runs to completion on the state it reads.

## Findings

| source | as written | input that shows it | evidently intended | confidence | as-written member | corrected member |
|---|---|---|---|---|---|---|
| src/popup.js:433-435 | the label text is `s.note ? s.note : s.title`, then `t.substring(0,35)` | a thread captured with an empty note, then synced: the fetched record has `content` and a null note but no `title`, so `t` is undefined and `substring` throws, ending `loadRecentSessions` | fall back to the record's content when there is neither note nor title, so every cached thread gets an option | medium, not executed | Dropdowns.NotelessFetchedRootHasNoLabel | Dropdowns.SessionLabel |
