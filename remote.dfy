/** The remote store as popup.js sees it through firebase.local.js: a
    `raw_entries` collection of documents plus the connection state, with
    the adapter's observed behaviour for each call. Network reachability and
    the outcome of interactive sign-in are inputs, not modelled causes. */
module Firestore {
  import opened Wrappers
  import opened Entries

  /** Capture provenance: `{ full, root, mode }`. */
  datatype Source = Source(full: string, root: string, mode: string)

  /** The document body the capture path sends (popup.js:494-499). */
  datatype Payload = Payload(
    content: string,
    note: Option<string>,
    entryType: string,
    origin: string,
    group: string,
    category: string,
    source: Option<Source>,
    sessionId: Option<string>,
    sessionRef: Option<string>,
    schemaVersion: int)

  /** The `status` values this client writes: "open" and "done". */
  datatype Status = Open | Done

  /** A stored document: its id, the payload, the status `saveEntry` forces
      and the server-assigned creation time. */
  datatype Doc = Doc(id: string, data: Payload, status: Status, createdAt: int)

  /** What `fetchOpenContexts` asks for: open documents with a null `sessionRef`. */
  predicate IsOpenRoot(d: Doc) {
    d.status == Open && d.data.sessionRef == None
  }

  /** `{ id: doc.id, ...doc.data(), timestamp }`, restricted to the fields the
      cache record keeps. A fetched record has `content` and no `title`. */
  function ToEntry(d: Doc): (e: Entry)
    ensures e.id == d.id && e.timestamp == d.createdAt
    ensures e.title == None && e.content == Some(d.data.content)
    ensures e.group == Some(d.data.group) && e.category == Some(d.data.category)
    ensures e.note == d.data.note
  {
    Entry(d.id, None, Some(d.data.content), d.data.note,
          Some(d.data.group), Some(d.data.category), d.createdAt)
  }

  /** The query of `fetchOpenContexts`: every open root, in the order the
      model keeps the collection (creation order). */
  function OpenContexts(docs: seq<Doc>): (r: seq<Entry>)
    ensures |r| <= |docs|
    ensures forall e :: e in r <==> exists d :: d in docs && IsOpenRoot(d) && e == ToEntry(d)
  {
    if docs == [] then []
    else
      assert docs == [docs[0]] + docs[1..];
      (if IsOpenRoot(docs[0]) then [ToEntry(docs[0])] else []) + OpenContexts(docs[1..])
  }

  /** `updateDoc(ref, { status: "done" })` applied to the document with `id`. */
  function MarkDoneIn(docs: seq<Doc>, id: string): (r: seq<Doc>)
    ensures |r| == |docs|
    ensures forall k :: 0 <= k < |docs| ==>
      r[k] == if docs[k].id == id then docs[k].(status := Done) else docs[k]
  {
    if docs == [] then []
    else [if docs[0].id == id then docs[0].(status := Done) else docs[0]] + MarkDoneIn(docs[1..], id)
  }

  predicate HasDoc(docs: seq<Doc>, id: string) {
    exists k :: 0 <= k < |docs| && docs[k].id == id
  }

  /** A document marked done is never fetched again. */
  lemma DoneIsNotRefetched(docs: seq<Doc>, id: string)
    ensures forall e :: e in OpenContexts(MarkDoneIn(docs, id)) ==> e.id != id
  {
    var m := MarkDoneIn(docs, id);
    forall e | e in OpenContexts(m) ensures e.id != id {
      var d :| d in m && IsOpenRoot(d) && e == ToEntry(d);
      var k :| 0 <= k < |m| && m[k] == d;
    }
  }

  /** A newly created root is fetched by the next sync; a newly created
      reply is not fetched at all. The new root comes last in the model's
      creation order. */
  lemma {:induction false} CreatedDocFetched(docs: seq<Doc>, d: Doc)
    ensures OpenContexts(docs + [d]) ==
      OpenContexts(docs) + (if IsOpenRoot(d) then [ToEntry(d)] else [])
    ensures forall e :: e in OpenContexts(docs + [d]) <==>
      e in OpenContexts(docs) || (IsOpenRoot(d) && e == ToEntry(d))
  {
    if docs == [] {
      assert docs + [d] == [d];
      assert [d][1..] == [];
    } else {
      assert (docs + [d])[0] == docs[0];
      assert (docs + [d])[1..] == docs[1..] + [d];
      CreatedDocFetched(docs[1..], d);
    }
  }

  /** The connection state and the collection. */
  class RemoteStore {
    /** Whether `app`, `auth` and `db` were initialised (a config with an
        API key was present). */
    const configured: bool
    /** Whether `auth.currentUser` is set. */
    var signedIn: bool
    /** Whether network calls complete; when false every call that reaches
        the network fails. */
    const online: bool
    /** The `raw_entries` collection. */
    var docs: seq<Doc>

    constructor (configured: bool, signedIn: bool, online: bool, docs: seq<Doc>)
      ensures this.configured == configured && this.signedIn == signedIn
      ensures this.online == online && this.docs == docs
    {
      this.configured := configured;
      this.signedIn := signedIn;
      this.online := online;
      this.docs := docs;
    }

    /** `ensureAuth`: fails without a config, succeeds only for a signed-in user. */
    method EnsureAuth() returns (r: Outcome<string>)
      ensures r.Pass? <==> configured && signedIn
      ensures !configured ==> r == Fail("Missing Config/API Key.")
      ensures configured && !signedIn ==> r == Fail("User not signed in")
    {
      if !configured { return Fail("Missing Config/API Key."); }
      if signedIn { return Pass; }
      return Fail("User not signed in");
    }

    /** `signInWithPopup`; whether the user completes it is an input. */
    method SignInWithPopup(succeeds: bool) returns (r: Outcome<string>)
      modifies this`signedIn
      ensures r.Pass? <==> succeeds
      ensures signedIn == (old(signedIn) || succeeds)
    {
      if succeeds {
        signedIn := true;
        return Pass;
      }
      return Fail("Sign-in failed");
    }

    /** `saveEntry`: throws without a db; otherwise stores the payload with
        `status: "open"` under the id the store assigns and returns that id. */
    method SaveEntry(p: Payload, assignedId: string, serverTime: int) returns (r: Result<string, string>)
      modifies this`docs
      ensures r.Success? <==> configured && online
      ensures !configured ==> r == Failure("Cloud sync disabled.")
      ensures r.Failure? ==> docs == old(docs)
      ensures r.Success? ==> r.value == assignedId && docs == old(docs) + [Doc(assignedId, p, Open, serverTime)]
    {
      if !configured { return Failure("Cloud sync disabled."); }
      if !online { return Failure("Network error"); }
      docs := docs + [Doc(assignedId, p, Open, serverTime)];
      return Success(assignedId);
    }

    /** `fetchOpenContexts`: never throws; `[]` when there is no db or the
        query fails, and otherwise exactly the open roots. */
    method FetchOpenContexts() returns (found: seq<Entry>)
      ensures !configured || !online ==> found == []
      ensures configured && online ==> found == OpenContexts(docs)
      ensures configured && online ==>
        forall e :: e in found <==> exists d :: d in docs && IsOpenRoot(d) && e == ToEntry(d)
    {
      if !configured { return []; }
      if !online { return []; }
      found := OpenContexts(docs);
    }

    /** The outcome `markEntryDone(id)` has in the current state: a no-op
        without a db, a failure when offline or when no document has `id`
        (`updateDoc` on a missing document is rejected). */
    function MarkDoneOutcome(id: string): (r: Outcome<string>)
      reads this
      ensures r.Fail? <==> configured && (!online || !HasDoc(docs, id))
    {
      if !configured then Pass
      else if !online then Fail("Network error")
      else if !HasDoc(docs, id) then Fail("No document to update")
      else Pass
    }

    /** `markEntryDone`. */
    method MarkEntryDone(id: string) returns (r: Outcome<string>)
      modifies this`docs
      ensures r == old(MarkDoneOutcome(id))
      ensures docs == if configured && online && r.Pass? then MarkDoneIn(old(docs), id) else old(docs)
    {
      r := MarkDoneOutcome(id);
      if configured && online && r.Pass? {
        docs := MarkDoneIn(docs, id);
      }
    }
  }
}
