/** The popup's local state and the operations that change it: sync, capture,
    local removal, suggestion deletion and the "Done" action. The three
    storage keys (`recent_sessions` in chrome.storage.local, `saved_groups`
    and `saved_categories` in localStorage) are fields read and written
    whole; a missing key reads as the empty list. */
module Popup {
  import opened Wrappers
  import opened Text
  import opened Lists
  import opened Entries
  import opened Firestore
  import opened Capture
  import opened Dropdowns

  /** The `pendingCapture` slot background.js fills before opening the popup. */
  datatype PendingCapture = PendingCapture(text: Option<string>, url: Option<string>, mode: string)

  /** What one capture takes from outside the form: the clock, the random
      part of the temporary id, the parsed origin of the page URL (None when
      `new URL` throws), the id and time the remote assigns, and whether an
      interactive sign-in would succeed. */
  datatype CaptureEnv = CaptureEnv(
    now: int,
    tempSuffix: string,
    origin: Option<string>,
    assignedId: string,
    serverTime: int,
    signInSucceeds: bool)

  // ---------------------------------------------------------------------
  // Suggestion lists after a sync

  /** `new Set(saved)`, then `add` of every truthy tag of the fetched
      entries, in their order, written back as `[...set]`. */
  function SyncedSuggestions(saved: seq<string>, fetched: seq<Entry>, kind: Suggestion): (r: seq<string>)
    ensures NoDup(r)
    ensures forall v :: v in saved ==> v in r
  {
    AddAll(Dedup(saved), TruthyTags(fetched, kind))
  }

  /** A sync only grows a suggestion list: nothing earlier is lost (and a
      list without duplicates keeps its order as a prefix), every truthy tag
      fetched is added, nothing else is, and no value appears twice. */
  lemma SyncGrowsSuggestions(saved: seq<string>, fetched: seq<Entry>, kind: Suggestion)
    ensures var r := SyncedSuggestions(saved, fetched, kind);
      && NoDup(r)
      && (forall v :: v in saved ==> v in r)
      && (forall k :: 0 <= k < |fetched| && Truthy(Tag(fetched[k], kind)) ==> Tag(fetched[k], kind).value in r)
      && (forall v :: v in r ==> v in saved || exists k :: 0 <= k < |fetched| && Tag(fetched[k], kind) == Some(v))
      && (NoDup(saved) ==> |saved| <= |r| && r[..|saved|] == saved)
  {
    if NoDup(saved) { DedupNoDup(saved); }
  }

  lemma {:induction false} AddAllPresent(acc: seq<string>, xs: seq<string>)
    requires forall x :: x in xs ==> x in acc
    ensures AddAll(acc, xs) == acc
  {
    if xs != [] {
      AddAllPresent(acc, xs[..|xs| - 1]);
      assert xs[|xs| - 1] in xs;
    }
  }

  /** Syncing twice against the same remote data leaves the suggestion list
      as the first sync left it. */
  lemma SyncSuggestionsIdempotent(saved: seq<string>, fetched: seq<Entry>, kind: Suggestion)
    ensures SyncedSuggestions(SyncedSuggestions(saved, fetched, kind), fetched, kind)
         == SyncedSuggestions(saved, fetched, kind)
  {
    var r := SyncedSuggestions(saved, fetched, kind);
    DedupNoDup(r);
    AddAllPresent(r, TruthyTags(fetched, kind));
  }

  /** One iteration of the sync loop adds the entry's tag if it is truthy. */
  lemma SyncStep(saved: seq<string>, done: seq<Entry>, d: Entry, kind: Suggestion)
    ensures SyncedSuggestions(saved, done + [d], kind) ==
      if Truthy(Tag(d, kind)) then AddIfAbsent(SyncedSuggestions(saved, done, kind), Tag(d, kind).value)
      else SyncedSuggestions(saved, done, kind)
  {
    var tags := TruthyTags(done, kind);
    TruthyTagsSnoc(done, d, kind);
    if Truthy(Tag(d, kind)) {
      AddAllSnoc(Dedup(saved), tags, Tag(d, kind).value);
    } else {
      assert tags + [] == tags;
    }
  }

  /** The loop step of `performSync` stated on the prefix just processed. */
  lemma SyncNext(saved: seq<string>, fetched: seq<Entry>, i: nat, kind: Suggestion)
    requires i < |fetched|
    ensures SyncedSuggestions(saved, fetched[..i + 1], kind) ==
      if Truthy(Tag(fetched[i], kind))
      then AddIfAbsent(SyncedSuggestions(saved, fetched[..i], kind), Tag(fetched[i], kind).value)
      else SyncedSuggestions(saved, fetched[..i], kind)
  {
    assert fetched[..i + 1] == fetched[..i] + [fetched[i]];
    SyncStep(saved, fetched[..i], fetched[i], kind);
  }

  /** The loop of `performSync`: both sets are seeded from the saved lists
      and grown entry by entry. */
  method CollectSuggestions(savedGroups: seq<string>, savedCategories: seq<string>, fetched: seq<Entry>)
    returns (groups: seq<string>, categories: seq<string>)
    ensures groups == SyncedSuggestions(savedGroups, fetched, Groups)
    ensures categories == SyncedSuggestions(savedCategories, fetched, Categories)
  {
    groups := Dedup(savedGroups);
    categories := Dedup(savedCategories);
    var i := 0;
    while i < |fetched|
      invariant 0 <= i <= |fetched|
      invariant groups == SyncedSuggestions(savedGroups, fetched[..i], Groups)
      invariant categories == SyncedSuggestions(savedCategories, fetched[..i], Categories)
    {
      SyncNext(savedGroups, fetched, i, Groups);
      SyncNext(savedCategories, fetched, i, Categories);
      var d := fetched[i];
      if Truthy(d.group) { groups := AddIfAbsent(groups, d.group.value); }
      if Truthy(d.category) { categories := AddIfAbsent(categories, d.category.value); }
      i := i + 1;
    }
    assert fetched[..i] == fetched;
  }

  /** The popup page: its stored lists and its module-level variables. */
  class PopupPage {
    /** chrome.storage.local "recent_sessions". */
    var recentSessions: seq<Entry>
    /** localStorage "saved_groups". */
    var savedGroups: seq<string>
    /** localStorage "saved_categories". */
    var savedCategories: seq<string>
    /** chrome.storage.local "pendingCapture". */
    var pendingCapture: Option<PendingCapture>
    /** The module variable `cachedSessions`, refreshed by `loadRecentSessions`. */
    var cachedSessions: seq<Entry>
    /** The module variables `currentSourceUrl` and `openingMode`. */
    var currentSourceUrl: string
    var openingMode: string

    constructor (recentSessions: seq<Entry>, savedGroups: seq<string>, savedCategories: seq<string>,
                 pendingCapture: Option<PendingCapture>)
      ensures this.recentSessions == recentSessions && this.savedGroups == savedGroups
      ensures this.savedCategories == savedCategories && this.pendingCapture == pendingCapture
      ensures cachedSessions == [] && currentSourceUrl == "" && openingMode == "popup_manual"
    {
      this.recentSessions := recentSessions;
      this.savedGroups := savedGroups;
      this.savedCategories := savedCategories;
      this.pendingCapture := pendingCapture;
      cachedSessions := [];
      currentSourceUrl := "";
      openingMode := "popup_manual";
    }

    /** The stored suggestion list of one kind. */
    function Saved(kind: Suggestion): seq<string>
      reads this
    {
      if kind == Groups then savedGroups else savedCategories
    }

    /** The pending-capture step of `init`: a pending capture supplies the
        text, URL and mode and is then cleared; without one the popup was
        opened by hand and takes the active tab's URL, if any. */
    method TakePendingCapture(activeTabUrl: Option<string>) returns (text: Option<string>)
      modifies this`pendingCapture, this`currentSourceUrl, this`openingMode
      ensures pendingCapture == None
      ensures old(pendingCapture).Some? ==>
        var p := old(pendingCapture).value;
        && text == Some(p.text.GetOr(""))
        && currentSourceUrl == p.url.GetOr("")
        && openingMode == p.mode
      ensures old(pendingCapture).None? ==>
        && text == None
        && openingMode == "popup_manual"
        && currentSourceUrl == activeTabUrl.GetOr(old(currentSourceUrl))
    {
      match pendingCapture {
        case Some(p) =>
          text := Some(p.text.GetOr(""));
          currentSourceUrl := p.url.GetOr("");
          openingMode := p.mode;
          pendingCapture := None;
        case None =>
          text := None;
          openingMode := "popup_manual";
          if activeTabUrl.Some? { currentSourceUrl := activeTabUrl.value; }
      }
    }

    /** `loadRecentSessions`: refreshes `cachedSessions` from the store and
        returns the options of the session select. */
    method LoadRecentSessions() returns (options: seq<SessionOption>)
      modifies this`cachedSessions
      ensures cachedSessions == recentSessions
      ensures options == SessionOptions(recentSessions)
    {
      cachedSessions := recentSessions;
      options := SessionOptions(cachedSessions);
    }

    /** `performSync`: the cache becomes the fetched entries, newest first
        (what was cached before is discarded, and a fetch that fails yields
        an empty cache); each suggestion list is grown with the fetched
        tags. */
    method PerformSync(remote: RemoteStore)
      modifies this`recentSessions, this`savedGroups, this`savedCategories, this`cachedSessions
      ensures recentSessions ==
        SortNewestFirst(if remote.configured && remote.online then OpenContexts(remote.docs) else [])
      ensures savedGroups == SyncedSuggestions(old(savedGroups), recentSessions, Groups)
      ensures savedCategories == SyncedSuggestions(old(savedCategories), recentSessions, Categories)
      ensures cachedSessions == recentSessions
    {
      var freshData := remote.FetchOpenContexts();
      freshData := SortNewestFirst(freshData);
      recentSessions := freshData;
      var groups, categories := CollectSuggestions(savedGroups, savedCategories, freshData);
      savedGroups := groups;
      savedCategories := categories;
      var _ := LoadRecentSessions();
    }

    /** `removeSessionLocal`: drops every cached entry with `id`. */
    method RemoveSessionLocal(id: string)
      modifies this`recentSessions
      ensures recentSessions == RemoveById(old(recentSessions), id)
    {
      var sessions := recentSessions;
      sessions := RemoveById(sessions, id);
      recentSessions := sessions;
    }

    /** `deleteFromStorage`: drops every occurrence of `value` from one
        suggestion list and leaves the other alone. */
    method DeleteFromStorage(kind: Suggestion, value: string)
      modifies this`savedGroups, this`savedCategories
      ensures Saved(kind) == RemoveValue(old(Saved(kind)), value)
      ensures kind == Groups ==> savedCategories == old(savedCategories)
      ensures kind == Categories ==> savedGroups == old(savedGroups)
    {
      if kind == Groups {
        savedGroups := RemoveValue(savedGroups, value);
      } else {
        savedCategories := RemoveValue(savedCategories, value);
      }
    }

    /** The "Done" button: an id with the local prefix is only removed from
        the cache, without a remote call; any other id is first marked done
        remotely and removed from the cache only if that call succeeded. */
    method Done(id: string, remote: RemoteStore) returns (r: Outcome<string>)
      modifies this`recentSessions, remote`docs
      ensures StartsWith(id, LocalIdPrefix) ==> r == Pass && remote.docs == old(remote.docs)
      ensures !StartsWith(id, LocalIdPrefix) ==>
        && r == old(remote.MarkDoneOutcome(id))
        && remote.docs == if remote.configured && remote.online && r.Pass?
                          then MarkDoneIn(old(remote.docs), id) else old(remote.docs)
      ensures recentSessions == if r.Pass? then RemoveById(old(recentSessions), id) else old(recentSessions)
    {
      if StartsWith(id, LocalIdPrefix) {
        RemoveSessionLocal(id);
        return Pass;
      }
      r := remote.MarkEntryDone(id);
      if r.Pass? {
        RemoveSessionLocal(id);
      }
    }

    /** The "Reset local data" button: once confirmed, all three keys are
        removed. */
    method ClearCache(confirmed: bool)
      modifies this`recentSessions, this`savedGroups, this`savedCategories
      ensures confirmed ==> recentSessions == [] && savedGroups == [] && savedCategories == []
      ensures !confirmed ==> recentSessions == old(recentSessions) && savedGroups == old(savedGroups)
                             && savedCategories == old(savedCategories)
    {
      if confirmed {
        savedGroups := [];
        savedCategories := [];
        recentSessions := [];
      }
    }

    /** The local writes that follow a successful create: missing
        suggestions are appended, then the cache gets the new thread in front
        or the reply's target retagged, and is cut to twenty entries. */
    method RecordCapture(f: Fields, thread: Thread, note: Option<string>, realCloudId: string, now: int)
      modifies this`recentSessions, this`savedGroups, this`savedCategories
      ensures savedGroups == AddIfAbsent(old(savedGroups), f.group)
      ensures savedCategories == AddIfAbsent(old(savedCategories), f.category)
      ensures recentSessions == CacheAfterSave(old(recentSessions), thread, realCloudId, f, note, now)
    {
      if f.group !in savedGroups { savedGroups := savedGroups + [f.group]; }
      if f.category !in savedCategories { savedCategories := savedCategories + [f.category]; }

      var sessions := recentSessions;
      match thread {
        case NewThread(_) =>
          sessions := [NewRootEntry(realCloudId, f, note, now)] + sessions;
        case ReplyTo(ref) =>
          if ref != "" {
            var index := FirstIndexOf(sessions, ref);
            if index != -1 {
              sessions := sessions[index := sessions[index].(group := Some(f.group), category := Some(f.category))];
            }
          }
      }
      if |sessions| > CacheLimit { sessions := sessions[..CacheLimit]; }
      recentSessions := sessions;
    }

    /** `if (!auth.currentUser) await ensureAuth().catch(() => signInWithPopup(...))`:
        reading `auth.currentUser` throws when there is no config; a user who
        is not signed in gets the interactive sign-in. */
    static method Authenticate(remote: RemoteStore, signInSucceeds: bool) returns (r: Outcome<CaptureError>)
      modifies remote`signedIn
      ensures r.Pass? <==> remote.configured && (old(remote.signedIn) || signInSucceeds)
      ensures r.Pass? ==> remote.signedIn
      ensures remote.signedIn == (old(remote.signedIn) || (remote.configured && signInSucceeds))
      ensures r.Fail? ==> r.error.AuthFailed?
    {
      if !remote.configured { return Fail(AuthFailed("TypeError: auth is undefined")); }
      if !remote.signedIn {
        var a := remote.EnsureAuth();
        if a.Fail? {
          var s := remote.SignInWithPopup(signInSucceeds);
          if s.Fail? { return Fail(AuthFailed(s.error)); }
        }
      }
      return Pass;
    }

    /** The remote create and, once it succeeds, the local writes. */
    method CreateAndRecord(p: Payload, f: Fields, thread: Thread, note: Option<string>,
                           env: CaptureEnv, remote: RemoteStore)
      returns (r: Result<string, CaptureError>)
      modifies this`recentSessions, this`savedGroups, this`savedCategories, remote`docs
      ensures r.Failure? ==>
        && recentSessions == old(recentSessions)
        && savedGroups == old(savedGroups)
        && savedCategories == old(savedCategories)
        && remote.docs == old(remote.docs)
      ensures r.Success? <==> remote.configured && remote.online
      ensures r.Success? ==>
        && r.value == env.assignedId
        && remote.docs == old(remote.docs) + [Doc(env.assignedId, p, Open, env.serverTime)]
        && savedGroups == AddIfAbsent(old(savedGroups), f.group)
        && savedCategories == AddIfAbsent(old(savedCategories), f.category)
        && recentSessions == CacheAfterSave(old(recentSessions), thread, env.assignedId, f, note, env.now)
    {
      var created := remote.SaveEntry(p, env.assignedId, env.serverTime);
      if created.Failure? { return Failure(CreateFailed(created.error)); }
      RecordCapture(f, thread, note, created.value, env.now);
      r := Success(created.value);
    }

    /** The save handler after validation and sign-in: the payload for the
        page `url` opened in `mode`, the remote create, and then the local
        writes. */
    method SaveValidated(f: Fields, form: Form, env: CaptureEnv, url: string, mode: string, remote: RemoteStore)
      returns (r: Result<string, CaptureError>)
      modifies this`recentSessions, this`savedGroups, this`savedCategories, remote`docs
      ensures r.Failure? ==>
        && recentSessions == old(recentSessions)
        && savedGroups == old(savedGroups)
        && savedCategories == old(savedCategories)
        && remote.docs == old(remote.docs)
      ensures r.Success? <==>
        CapturePayload(f, form, env.tempSuffix, url, env.origin, mode).Success? && remote.configured && remote.online
      ensures r.Success? ==>
        && r.value == env.assignedId
        && remote.docs == old(remote.docs) +
             [Doc(env.assignedId, CapturePayload(f, form, env.tempSuffix, url, env.origin, mode).value,
                  Open, env.serverTime)]
        && savedGroups == AddIfAbsent(old(savedGroups), f.group)
        && savedCategories == AddIfAbsent(old(savedCategories), f.category)
        && recentSessions == CacheAfterSave(old(recentSessions), ChooseThread(form.sessionSelect, TempId(env.tempSuffix)),
                                            env.assignedId, f, NoteValue(form.note), env.now)
    {
      var payload := CapturePayload(f, form, env.tempSuffix, url, env.origin, mode);
      if payload.Failure? { return Failure(payload.error); }
      r := CreateAndRecord(payload.value, f, ChooseThread(form.sessionSelect, TempId(env.tempSuffix)),
                           NoteValue(form.note), env, remote);
    }

    /** The save handler after validation: sign-in, then the rest. */
    method SaveSignedIn(f: Fields, form: Form, env: CaptureEnv, url: string, mode: string, remote: RemoteStore)
      returns (r: Result<string, CaptureError>)
      modifies this`recentSessions, this`savedGroups, this`savedCategories, remote`docs, remote`signedIn
      ensures r.Failure? ==>
        && recentSessions == old(recentSessions)
        && savedGroups == old(savedGroups)
        && savedCategories == old(savedCategories)
        && remote.docs == old(remote.docs)
      ensures remote.signedIn == (old(remote.signedIn) || (remote.configured && env.signInSucceeds))
      ensures r.Success? <==>
        && remote.configured
        && (old(remote.signedIn) || env.signInSucceeds)
        && (url == "" || env.origin.Some?)
        && remote.online
      ensures r.Success? ==>
        && r.value == env.assignedId
        && remote.docs == old(remote.docs) +
             [Doc(env.assignedId, CapturePayload(f, form, env.tempSuffix, url, env.origin, mode).value,
                  Open, env.serverTime)]
        && savedGroups == AddIfAbsent(old(savedGroups), f.group)
        && savedCategories == AddIfAbsent(old(savedCategories), f.category)
        && recentSessions == CacheAfterSave(old(recentSessions), ChooseThread(form.sessionSelect, TempId(env.tempSuffix)),
                                            env.assignedId, f, NoteValue(form.note), env.now)
    {
      var auth := Authenticate(remote, env.signInSucceeds);
      if auth.Fail? { return Failure(auth.error); }
      r := SaveValidated(f, form, env, url, mode, remote);
    }

    /** The save handler. It validates, authenticates, builds the payload and
        creates the remote document; only after the create succeeds does it
        touch the suggestion lists and the cache. */
    method Save(form: Form, env: CaptureEnv, remote: RemoteStore) returns (r: Result<string, CaptureError>)
      modifies this`recentSessions, this`savedGroups, this`savedCategories, remote`docs, remote`signedIn
      ensures ValidateCapture(form).Failure? ==>
        r == Failure(ValidateCapture(form).error) && remote.signedIn == old(remote.signedIn)
      ensures ValidateCapture(form).Success? ==>
        remote.signedIn == (old(remote.signedIn) || (remote.configured && env.signInSucceeds))
      ensures r.Failure? ==>
        && recentSessions == old(recentSessions)
        && savedGroups == old(savedGroups)
        && savedCategories == old(savedCategories)
        && remote.docs == old(remote.docs)
      ensures r.Success? <==>
        && ValidateCapture(form).Success?
        && remote.configured
        && (old(remote.signedIn) || env.signInSucceeds)
        && (old(currentSourceUrl) == "" || env.origin.Some?)
        && remote.online
      ensures r.Success? ==>
        var f := ValidateCapture(form).value;
        && r.value == env.assignedId
        && remote.docs == old(remote.docs) +
             [Doc(env.assignedId, CapturePayload(f, form, env.tempSuffix, old(currentSourceUrl), env.origin, old(openingMode)).value,
                  Open, env.serverTime)]
        && savedGroups == AddIfAbsent(old(savedGroups), f.group)
        && savedCategories == AddIfAbsent(old(savedCategories), f.category)
        && recentSessions == CacheAfterSave(old(recentSessions), ChooseThread(form.sessionSelect, TempId(env.tempSuffix)),
                                            env.assignedId, f, NoteValue(form.note), env.now)
    {
      var v := ValidateCapture(form);
      if v.Failure? { return Failure(v.error); }
      r := SaveSignedIn(v.value, form, env, currentSourceUrl, openingMode, remote);
    }
  }
}
