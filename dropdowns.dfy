/** The select boxes popup.js manipulates: `forceSetOption`, `populateFilter`
    and the labels of the session select built by `loadRecentSessions`. */
module Dropdowns {
  import opened Wrappers
  import opened Lists
  import opened Entries

  /** The value of the filter option that shows everything. */
  const AllOption: string := "all"

  /** `value` is in `options`: the loop of `forceSetOption`, which scans
      every option without stopping early. */
  method HasOption(options: seq<string>, value: string) returns (found: bool)
    ensures found <==> value in options
  {
    found := false;
    var i := 0;
    while i < |options|
      invariant 0 <= i <= |options|
      invariant found <==> value in options[..i]
    {
      if options[i] == value { found := true; }
      assert options[..i + 1] == options[..i] + [options[i]];
      i := i + 1;
    }
    assert options[..i] == options;
  }

  /** The option list after `forceSetOption`: `value` inserted at the front
      when it was missing. */
  function WithOption(options: seq<string>, value: string): (r: seq<string>)
    ensures forall x :: x in r <==> x == value || x in options
    ensures |r| == if value in options then |options| else |options| + 1
    ensures r[|r| - |options|..] == options
  {
    if value in options then options else [value] + options
  }

  /** Forcing the same value twice adds it once. */
  lemma WithOptionIdempotent(options: seq<string>, value: string)
    ensures WithOption(WithOption(options, value), value) == WithOption(options, value)
  {
  }

  /** `populateFilter`'s choice: the previous selection survives only if it
      is still one of the items; otherwise the filter falls back to "all". */
  function KeptSelection(items: seq<string>, current: string): (r: string)
    ensures r == current || r == AllOption
    ensures current in items ==> r == current
    ensures current !in items ==> r == AllOption
  {
    if current in items then current else AllOption
  }

  /** The delete button beside a filter is enabled only for a real value. */
  function DeleteEnabled(selected: string): (r: bool)
    ensures r ==> selected != AllOption
    ensures selected != AllOption ==> r
  {
    selected != AllOption
  }

  /** After a suggestion is deleted, re-populating its filter deselects it
      and disables the delete button. */
  lemma DeletedSuggestionIsDeselected(items: seq<string>, v: string)
    ensures KeptSelection(RemoveValue(items, v), v) == AllOption
    ensures !DeleteEnabled(KeptSelection(RemoveValue(items, v), v))
  {
  }

  /** A `<select>` element: its option values in document order and its
      current value. */
  class SelectBox {
    var options: seq<string>
    var value: string

    constructor (options: seq<string>, value: string)
      ensures this.options == options && this.value == value
    {
      this.options := options;
      this.value := value;
    }

    /** `forceSetOption`: refuses a falsy value; otherwise makes sure the
        value is an option (adding it at the front) and selects it. */
    method ForceSetOption(v: string) returns (ok: bool)
      modifies this
      ensures ok <==> v != ""
      ensures ok ==> options == WithOption(old(options), v) && value == v && value in options
      ensures !ok ==> options == old(options) && value == old(value)
    {
      if v == "" { return false; }
      var found := HasOption(options, v);
      if !found {
        options := [v] + options;
      }
      value := v;
      return true;
    }

    /** `populateFilter`: "all" followed by the items, keeping the previous
        selection only if it is still listed. */
    method PopulateFilter(items: seq<string>)
      modifies this
      ensures options == [AllOption] + items
      ensures value == KeptSelection(items, old(value))
      ensures value in options
    {
      var current := value;
      options := [AllOption] + items;
      value := if current in items then current else AllOption;
    }
  }

  // ---------------------------------------------------------------------
  // Session select labels (loadRecentSessions)

  const LabelWidth: nat := 35

  /** `t.substring(0, 35)`. */
  function Prefix(t: string, n: nat): (r: string)
    ensures |r| <= n && |r| <= |t| && r == t[..|r|]
    ensures |t| <= n ==> r == t
    ensures |r| == if |t| <= n then |t| else n
  {
    if |t| <= n then t else t[..n]
  }

  /** The option text: an arrow, at most 35 characters of `t`, and an
      ellipsis. */
  function LabelOf(t: string): (r: string)
    ensures |r| <= LabelWidth + 5
    ensures |t| <= LabelWidth ==> r == "⤷ " + t + "..."
    ensures |t| > LabelWidth ==> r == "⤷ " + t[..LabelWidth] + "..."
  {
    "⤷ " + Prefix(t, LabelWidth) + "..."
  }

  /** AS WRITTEN: `const t = s.note ? s.note : s.title;` and then
      `t.substring(0, 35)`, which throws a TypeError when the note is falsy
      and the record has no `title`. */
  function SessionLabelAsWritten(e: Entry): (r: Result<string, string>)
    ensures r.Failure? <==> !Truthy(e.note) && e.title == None
    ensures Truthy(e.note) ==> r == Success(LabelOf(e.note.value))
    ensures !Truthy(e.note) && e.title.Some? ==> r == Success(LabelOf(e.title.value))
  {
    if Truthy(e.note) then Success(LabelOf(e.note.value))
    else if e.title.Some? then Success(LabelOf(e.title.value))
    else Failure("TypeError: t is undefined")
  }

  /** Every record a sync fetches for a thread saved without a note breaks
      the as-written label: fetched records carry `content`, not `title`. */
  lemma NotelessFetchedRootHasNoLabel(e: Entry)
    requires e.title == None && (e.note == None || e.note == Some(""))
    ensures SessionLabelAsWritten(e).Failure?
  {
  }

  /** CORRECTED: falls back from the note to the title and then to the
      content, so every cached record gets a label. */
  function SessionLabel(e: Entry): (r: string)
    ensures SessionLabelAsWritten(e).Success? ==> r == SessionLabelAsWritten(e).value
    ensures Truthy(e.note) ==> r == LabelOf(e.note.value)
    ensures !Truthy(e.note) && e.title.Some? ==> r == LabelOf(e.title.value)
    ensures !Truthy(e.note) && e.title == None && e.content.Some? ==> r == LabelOf(e.content.value)
  {
    if Truthy(e.note) then LabelOf(e.note.value)
    else if e.title.Some? then LabelOf(e.title.value)
    else LabelOf(e.content.GetOr(""))
  }

  /** An option of the session select: its value and its text. */
  datatype SessionOption = SessionOption(value: string, text: string)

  /** "Start New Thread" first, then one option per cached record, valued by
      the record's id. */
  function SessionOptions(sessions: seq<Entry>): (r: seq<SessionOption>)
    ensures |r| == |sessions| + 1
    ensures r[0].value == "new"
    ensures forall k :: 0 <= k < |sessions| ==>
      r[k + 1] == SessionOption(sessions[k].id, SessionLabel(sessions[k]))
  {
    if sessions == [] then [SessionOption("new", "⚡ Start New Thread")]
    else
      var init := SessionOptions(sessions[..|sessions| - 1]);
      init + [SessionOption(sessions[|sessions| - 1].id, SessionLabel(sessions[|sessions| - 1]))]
  }

  /** The options `loadRecentSessions` has appended, and the error that ended
      its loop if one did. */
  datatype BuiltOptions = BuiltOptions(options: seq<SessionOption>, error: Option<string>)

  /** The index of the first record `SessionLabelAsWritten` cannot label,
      or the number of records when every one has a label. */
  function FirstUnlabelled(sessions: seq<Entry>): (j: nat)
    ensures j <= |sessions|
    ensures forall k :: 0 <= k < j ==> SessionLabelAsWritten(sessions[k]).Success?
    ensures j < |sessions| ==> SessionLabelAsWritten(sessions[j]).Failure?
  {
    if sessions == [] || SessionLabelAsWritten(sessions[0]).Failure? then 0
    else 1 + FirstUnlabelled(sessions[1..])
  }

  /** AS WRITTEN: the `forEach` of `loadRecentSessions` labels each record
      with `SessionLabelAsWritten`, and the first record without a label ends
      the loop with the TypeError, leaving the options appended so far. */
  function SessionOptionsAsWritten(sessions: seq<Entry>): (r: BuiltOptions)
    ensures 1 <= |r.options| <= |sessions| + 1
    ensures r.options == SessionOptions(sessions[..|r.options| - 1])
    ensures r.error == None <==> |r.options| == |sessions| + 1
    ensures r.error != None ==> SessionLabelAsWritten(sessions[|r.options| - 1]).Failure?
    ensures forall k :: 0 <= k < |r.options| - 1 ==> SessionLabelAsWritten(sessions[k]).Success?
  {
    var j := FirstUnlabelled(sessions);
    if j < |sessions| then
      BuiltOptions(SessionOptions(sessions[..j]), Some(SessionLabelAsWritten(sessions[j]).error))
    else
      BuiltOptions(SessionOptions(sessions[..j]), None)
  }

  /** The as-written loop fails exactly when some cached record has no
      label, and where it does not fail it builds what `SessionOptions`
      does. */
  lemma SessionOptionsAsWrittenFails(sessions: seq<Entry>)
    ensures SessionOptionsAsWritten(sessions).error != None <==>
      exists k :: 0 <= k < |sessions| && SessionLabelAsWritten(sessions[k]).Failure?
    ensures SessionOptionsAsWritten(sessions).error == None ==>
      SessionOptionsAsWritten(sessions).options == SessionOptions(sessions)
  {
    var r := SessionOptionsAsWritten(sessions);
    var n := |r.options| - 1;
    if r.error == None {
      assert sessions[..|sessions|] == sessions;
      assert forall k :: 0 <= k < |sessions| ==> SessionLabelAsWritten(sessions[k]).Success?;
    } else {
      assert SessionLabelAsWritten(sessions[n]).Failure?;
    }
  }
}
