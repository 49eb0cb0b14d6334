/** `ListWebDAV`: an incremental listing. Each invocation reads a cursor
    (the newest modification time already listed) from the cluster state,
    lists the remote collection, emits one FlowFile per resource modified
    strictly after the cursor, and, only when something was emitted,
    replaces the state with the newest emitted modification time. */
module ListWebDAV {
  import opened Wrappers
  import opened Longs
  import opened WebDAVTypes
  import opened AbstractWebDAV

  /** The cluster-scoped state map of the processor. */
  type StateMap = map<string, string>

  const LastModifiedKey: string := "lastModified"
  const DefaultCursor: string := "0"

  // ---------------------------------------------------------------------
  // readState / saveState
  // ---------------------------------------------------------------------

  /** `readState` as written: it tests `name` but returns the value of
      "lastModified" (null, here `None`, when that key is absent). */
  function ReadStateAsWritten(state: StateMap, name: string, default: string): (r: Option<string>)
    ensures name !in state ==> r == Some(default)
    ensures name in state ==> (r.None? <==> LastModifiedKey !in state)
    ensures name in state && r.Some? ==> r.value == state[LastModifiedKey]
  {
    if name in state then
      (if LastModifiedKey in state then Some(state[LastModifiedKey]) else None)
    else Some(default)
  }

  /** `readState` as evidently intended: the value under `name`, or the default. */
  function ReadState(state: StateMap, name: string, default: string): (r: string)
    ensures name in state ==> r == state[name]
    ensures name !in state ==> r == default
  {
    if name in state then state[name] else default
  }

  /** At its one call site, with `name` = "lastModified", `readState` as
      written behaves as intended. */
  lemma ReadStateAgreesOnCursorKey(state: StateMap, default: string)
    ensures ReadStateAsWritten(state, LastModifiedKey, default) == Some(ReadState(state, LastModifiedKey, default))
  {
  }

  /** For any other name `readState` as written returns the wrong entry. */
  lemma ReadStateAsWrittenReadsWrongKey()
    ensures var state := map["cursor" := "7", LastModifiedKey := "3"];
      && ReadStateAsWritten(state, "cursor", "0") == Some("3")
      && ReadState(state, "cursor", "0") == "7"
  {
  }

  /** `saveState`: the whole state map is replaced by the single entry. */
  function SavedState(name: string, value: string): (saved: StateMap)
    ensures saved.Keys == {name} && saved[name] == value
  {
    map[name := value]
  }

  /** Whatever `saveState` stores under a name, `readState` of that name
      returns; the intended reading keeps this for every name. */
  lemma SavedStateReadsBack(name: string, value: string, default: string)
    ensures ReadState(SavedState(name, value), name, default) == value
  {
  }

  /** As written, a value saved under any name but "lastModified" reads back
      as null. */
  lemma ReadStateAsWrittenLosesSavedValue(name: string, value: string, default: string)
    requires name != LastModifiedKey
    ensures ReadStateAsWritten(SavedState(name, value), name, default) == None
  {
  }

  /** The cursor an invocation starts from: `Long.parseLong(readState(…, "lastModified", "0"))`;
      `None` is the `NumberFormatException` of a malformed stored value. */
  function Cursor(state: StateMap): (c: Option<Long>)
    ensures LastModifiedKey !in state ==> c == Some(0)
    ensures LastModifiedKey in state ==> c == ParseLong(state[LastModifiedKey])
  {
    assert DecimalValue(DefaultCursor) == 0 by {
      assert DefaultCursor[..0] == [];
    }
    ParseLong(ReadState(state, LastModifiedKey, DefaultCursor))
  }

  /** A saved cursor reads back as the value saved, whatever was there before. */
  lemma SavedCursorReadsBack(n: Long)
    ensures Cursor(SavedState(LastModifiedKey, LongToString(n))) == Some(n)
  {
    ParseLongRoundTrip(n);
  }

  // ---------------------------------------------------------------------
  // createAttributes
  // ---------------------------------------------------------------------

  /** The attribute map `createAttributes` builds for a listed resource. The
      directory flag is written under the key "isDirecotry", spelt as the
      code spells it. */
  function ListingAttributes(r: Resource): (attrs: Attributes)
    ensures {"filename", "path", "etag", "mime.type", "isDirecotry"} <= attrs.Keys
    ensures attrs.Keys <= {"filename", "path", "etag", "mime.type", "isDirecotry", "date.created", "date.modified"}
    ensures attrs["filename"] == Some(r.name) && attrs["path"] == Some(r.path)
    ensures attrs["etag"] == r.etag && attrs["mime.type"] == r.contentType
    ensures attrs["isDirecotry"] == Some(if r.isDirectory then "true" else "false")
    ensures "date.created" in attrs <==> r.creation.Some?
    ensures "date.modified" in attrs <==> r.modified.Some?
    ensures "date.created" in attrs ==>
      attrs["date.created"].Some? && ParseLong(attrs["date.created"].value) == r.creation
    ensures "date.modified" in attrs ==>
      attrs["date.modified"].Some? && ParseLong(attrs["date.modified"].value) == r.modified
  {
    var always: Attributes := map[
      "filename" := Some(r.name),
      "path" := Some(r.path),
      "etag" := r.etag,
      "mime.type" := r.contentType,
      "isDirecotry" := Some(if r.isDirectory then "true" else "false")];
    var withCreated := if r.creation.Some? then
      ParseLongRoundTrip(r.creation.value);
      always["date.created" := Some(LongToString(r.creation.value))]
    else always;
    if r.modified.Some? then
      ParseLongRoundTrip(r.modified.value);
      withCreated["date.modified" := Some(LongToString(r.modified.value))]
    else withCreated
  }

  /** `createAttributes`: fills a fresh map entry by entry. */
  method CreateAttributes(r: Resource) returns (attrs: Attributes)
    ensures attrs == ListingAttributes(r)
  {
    attrs := map[];
    attrs := attrs["filename" := Some(r.name)];
    attrs := attrs["path" := Some(r.path)];
    attrs := attrs["etag" := r.etag];
    attrs := attrs["mime.type" := r.contentType];
    attrs := attrs["isDirecotry" := Some(if r.isDirectory then "true" else "false")];
    if r.creation.Some? {
      attrs := attrs["date.created" := Some(LongToString(r.creation.value))];
    }
    if r.modified.Some? {
      attrs := attrs["date.modified" := Some(LongToString(r.modified.value))];
    }
  }

  /** `createFile`: a new, empty FlowFile carrying the resource's attributes. */
  function ListedFile(r: Resource): (f: FlowFile)
    ensures f.attributes == ListingAttributes(r)
    ensures f.content == [] && !f.penalized
  {
    FlowFile(ListingAttributes(r), [], false)
  }

  /** `createFile`: a new FlowFile with the attributes `createAttributes` builds. */
  method CreateFile(r: Resource) returns (f: FlowFile)
    ensures f == ListedFile(r)
  {
    var attrs := CreateAttributes(r);
    f := FlowFile(attrs, [], false);
  }

  /** The FlowFiles for a run of resources, one each, in the same order. */
  function ListedFiles(rs: seq<Resource>): (files: seq<FlowFile>)
    ensures |files| == |rs|
    ensures forall i :: 0 <= i < |rs| ==> files[i] == ListedFile(rs[i])
    decreases |rs|
  {
    if rs == [] then []
    else ListedFiles(rs[..|rs| - 1]) + [ListedFile(rs[|rs| - 1])]
  }

  // ---------------------------------------------------------------------
  // listDAVFile: the filter and the running maximum
  // ---------------------------------------------------------------------

  /** Every resource of the listing has a modification date. */
  predicate AllDated(listing: seq<Resource>) {
    forall i :: 0 <= i < |listing| ==> listing[i].modified.Some?
  }

  function ModifiedAt(r: Resource): Long
    requires r.modified.Some?
  {
    r.modified.value
  }

  /** The resources `listDAVFile` emits: those modified strictly after the
      cursor, in listing order. */
  function NewResources(listing: seq<Resource>, cursor: int): (sel: seq<Resource>)
    requires AllDated(listing)
    ensures |sel| <= |listing|
    decreases |listing|
  {
    if listing == [] then []
    else
      var last := listing[|listing| - 1];
      NewResources(listing[..|listing| - 1], cursor) + (if ModifiedAt(last) > cursor then [last] else [])
  }

  /** The positions in the listing of the resources `NewResources` keeps. */
  function NewIndices(listing: seq<Resource>, cursor: int): seq<nat>
    requires AllDated(listing)
    decreases |listing|
  {
    if listing == [] then []
    else
      var n := |listing| - 1;
      NewIndices(listing[..n], cursor) + (if ModifiedAt(listing[n]) > cursor then [n] else [])
  }

  /** The value `listDAVFile` returns: a running maximum that starts at 0 and
      looks only at the resources it emits. */
  function MaxModified(listing: seq<Resource>, cursor: int): (m: int)
    requires AllDated(listing)
    ensures m >= 0
    ensures m == 0 || m > cursor
    decreases |listing|
  {
    if listing == [] then 0
    else
      var m := MaxModified(listing[..|listing| - 1], cursor);
      var t := ModifiedAt(listing[|listing| - 1]);
      if t > cursor && t > m then t else m
  }

  /** The maximum modification time over the whole listing, starting from 0. */
  function ListingMax(listing: seq<Resource>): (m: int)
    requires AllDated(listing)
    ensures m >= 0
    decreases |listing|
  {
    if listing == [] then 0
    else
      var m := ListingMax(listing[..|listing| - 1]);
      var t := ModifiedAt(listing[|listing| - 1]);
      if t > m then t else m
  }

  predicate StrictlyIncreasing(s: seq<nat>) {
    forall j, k :: 0 <= j < k < |s| ==> s[j] < s[k]
  }

  /** The kept positions are within the listing and strictly increasing. */
  lemma {:induction false} NewIndicesIncrease(listing: seq<Resource>, cursor: int)
    requires AllDated(listing)
    ensures forall j :: 0 <= j < |NewIndices(listing, cursor)| ==> NewIndices(listing, cursor)[j] < |listing|
    ensures StrictlyIncreasing(NewIndices(listing, cursor))
    decreases |listing|
  {
    if listing != [] {
      NewIndicesIncrease(listing[..|listing| - 1], cursor);
    }
  }

  /** The emitted resources are the listing's entries at the kept positions. */
  lemma {:induction false} NewResourcesAtIndices(listing: seq<Resource>, cursor: int)
    requires AllDated(listing)
    ensures |NewIndices(listing, cursor)| == |NewResources(listing, cursor)|
    ensures forall j :: 0 <= j < |NewIndices(listing, cursor)| ==>
      NewIndices(listing, cursor)[j] < |listing| &&
      NewResources(listing, cursor)[j] == listing[NewIndices(listing, cursor)[j]]
    decreases |listing|
  {
    if listing != [] {
      var n := |listing| - 1;
      NewResourcesAtIndices(listing[..n], cursor);
      NewIndicesIncrease(listing[..n], cursor);
      var idx0 := NewIndices(listing[..n], cursor);
      var sel0 := NewResources(listing[..n], cursor);
      forall j | 0 <= j < |idx0|
        ensures listing[..n][idx0[j]] == listing[idx0[j]]
      {
      }
    }
  }

  /** A position is kept exactly when its resource is newer than the cursor. */
  lemma {:induction false} NewIndicesAreTheNewer(listing: seq<Resource>, cursor: int)
    requires AllDated(listing)
    ensures forall i :: 0 <= i < |listing| ==>
      (i in NewIndices(listing, cursor) <==> ModifiedAt(listing[i]) > cursor)
    decreases |listing|
  {
    if listing != [] {
      var n := |listing| - 1;
      NewIndicesAreTheNewer(listing[..n], cursor);
      NewIndicesIncrease(listing[..n], cursor);
      var idx0 := NewIndices(listing[..n], cursor);
      assert n !in idx0;
      forall i | 0 <= i < n
        ensures listing[..n][i] == listing[i]
      {
      }
    }
  }

  /** The emitted resources are exactly the listing's resources modified after
      the cursor, taken at strictly increasing positions: listing order is
      kept and no listed resource yields two items. */
  lemma NewResourcesAreTheNewerOnes(listing: seq<Resource>, cursor: int)
    requires AllDated(listing)
    ensures var idx := NewIndices(listing, cursor);
      var sel := NewResources(listing, cursor);
      && |idx| == |sel|
      && StrictlyIncreasing(idx)
      && (forall j :: 0 <= j < |idx| ==> idx[j] < |listing| && sel[j] == listing[idx[j]])
      && (forall i :: 0 <= i < |listing| ==> (i in idx <==> ModifiedAt(listing[i]) > cursor))
  {
    NewIndicesIncrease(listing, cursor);
    NewResourcesAtIndices(listing, cursor);
    NewIndicesAreTheNewer(listing, cursor);
  }

  /** Every emitted resource is modified strictly after the cursor, and
      every resource modified after the cursor is emitted. */
  lemma NewResourcesAfterCursor(listing: seq<Resource>, cursor: int)
    requires AllDated(listing)
    ensures forall r :: r in NewResources(listing, cursor) ==> r.modified.Some? && ModifiedAt(r) > cursor
    ensures forall i :: 0 <= i < |listing| && ModifiedAt(listing[i]) > cursor ==>
      listing[i] in NewResources(listing, cursor)
  {
    NewResourcesAreTheNewerOnes(listing, cursor);
    var idx := NewIndices(listing, cursor);
    var sel := NewResources(listing, cursor);
    forall r | r in sel
      ensures r.modified.Some? && ModifiedAt(r) > cursor
    {
      var j :| 0 <= j < |sel| && sel[j] == r;
      assert idx[j] in idx;
    }
    forall i | 0 <= i < |listing| && ModifiedAt(listing[i]) > cursor
      ensures listing[i] in sel
    {
      var j :| 0 <= j < |idx| && idx[j] == i;
    }
  }

  /** Every emitted resource is a resource of the listing. */
  lemma {:induction false} NewResourcesFromListing(listing: seq<Resource>, cursor: int)
    requires AllDated(listing)
    ensures forall r :: r in NewResources(listing, cursor) ==> r in listing
    decreases |listing|
  {
    if listing != [] {
      var n := |listing| - 1;
      NewResourcesFromListing(listing[..n], cursor);
      assert forall r :: r in listing[..n] ==> r in listing;
    }
  }

  /** Nothing is emitted exactly when no resource is newer than the cursor. */
  lemma NothingNewIff(listing: seq<Resource>, cursor: int)
    requires AllDated(listing)
    ensures NewResources(listing, cursor) == [] <==>
      forall i :: 0 <= i < |listing| ==> ModifiedAt(listing[i]) <= cursor
  {
    NewResourcesAfterCursor(listing, cursor);
    if NewResources(listing, cursor) != [] {
      assert NewResources(listing, cursor)[0] in NewResources(listing, cursor);
    }
  }

  /** The listing maximum is at least 0 and every modification time, and is
      either 0 or one of those times. */
  lemma {:induction false} ListingMaxIsMax(listing: seq<Resource>)
    requires AllDated(listing)
    ensures ListingMax(listing) >= 0
    ensures forall i :: 0 <= i < |listing| ==> ModifiedAt(listing[i]) <= ListingMax(listing)
    ensures ListingMax(listing) == 0 ||
      exists i :: 0 <= i < |listing| && ModifiedAt(listing[i]) == ListingMax(listing)
    decreases |listing|
  {
    if listing != [] {
      var n := |listing| - 1;
      ListingMaxIsMax(listing[..n]);
      assert forall i :: 0 <= i < n ==> listing[..n][i] == listing[i];
      if ListingMax(listing) != 0 && ListingMax(listing) != ModifiedAt(listing[n]) {
        var i :| 0 <= i < n && ModifiedAt(listing[..n][i]) == ListingMax(listing[..n]);
        assert ModifiedAt(listing[i]) == ListingMax(listing);
      }
    }
  }

  /** The running maximum over the emitted resources is the maximum over the
      whole listing whenever that exceeds the cursor, and 0 otherwise. */
  lemma {:induction false} MaxModifiedIsListingMax(listing: seq<Resource>, cursor: int)
    requires AllDated(listing)
    ensures MaxModified(listing, cursor) ==
      if ListingMax(listing) > cursor then ListingMax(listing) else 0
    decreases |listing|
  {
    if listing != [] {
      MaxModifiedIsListingMax(listing[..|listing| - 1], cursor);
    }
  }

  /** What the value returned by `listDAVFile` means. With nothing emitted it
      is 0. Otherwise it is above the cursor, at least every modification time
      in the listing, and a `long`; and when the cursor is not negative it is
      the modification time of an emitted resource. */
  lemma MaxModifiedMeaning(listing: seq<Resource>, cursor: int)
    requires AllDated(listing)
    ensures NewResources(listing, cursor) == [] ==> MaxModified(listing, cursor) == 0
    ensures NewResources(listing, cursor) != [] ==>
      && cursor < MaxModified(listing, cursor) == ListingMax(listing)
      && MinLong <= MaxModified(listing, cursor) <= MaxLong
      && (forall i :: 0 <= i < |listing| ==> ModifiedAt(listing[i]) <= MaxModified(listing, cursor))
      && (cursor >= 0 ==> exists r :: r in NewResources(listing, cursor) && r.modified.Some? && ModifiedAt(r) == MaxModified(listing, cursor))
  {
    MaxModifiedIsListingMax(listing, cursor);
    ListingMaxIsMax(listing);
    NothingNewIff(listing, cursor);
    NewResourcesAfterCursor(listing, cursor);
    if NewResources(listing, cursor) != [] {
      var i :| 0 <= i < |listing| && ModifiedAt(listing[i]) > cursor;
      if cursor >= 0 {
        var k :| 0 <= k < |listing| && ModifiedAt(listing[k]) == ListingMax(listing);
        assert listing[k] in NewResources(listing, cursor);
      }
    }
  }

  /** One more resource of the listing extends the filter, its FlowFiles and
      the running maximum by that resource alone. */
  lemma ListingStep(list: seq<Resource>, i: nat, cursor: int)
    requires i < |list| && AllDated(list[..i]) && list[i].modified.Some?
    ensures AllDated(list[..i + 1])
    ensures ModifiedAt(list[i]) > cursor ==>
      && NewResources(list[..i + 1], cursor) == NewResources(list[..i], cursor) + [list[i]]
      && ListedFiles(NewResources(list[..i + 1], cursor)) ==
           ListedFiles(NewResources(list[..i], cursor)) + [ListedFile(list[i])]
      && MaxModified(list[..i + 1], cursor) ==
           if ModifiedAt(list[i]) > MaxModified(list[..i], cursor) then ModifiedAt(list[i])
           else MaxModified(list[..i], cursor)
    ensures ModifiedAt(list[i]) <= cursor ==>
      && NewResources(list[..i + 1], cursor) == NewResources(list[..i], cursor)
      && MaxModified(list[..i + 1], cursor) == MaxModified(list[..i], cursor)
  {
    assert list[..i + 1][..i] == list[..i];
    assert forall k :: 0 <= k < i ==> list[..i][k] == list[..i + 1][k];
    assert list[..i + 1][i] == list[i];
    var r := list[i];
    var sel0 := NewResources(list[..i], cursor);
    if ModifiedAt(r) > cursor {
      assert (sel0 + [r])[..|sel0|] == sel0;
    }
  }

  /** `listDAVFile`: walks the listing in order, emitting a FlowFile for every
      resource modified after the cursor and keeping the largest such time.
      A failed listing is an `IOException`; a resource without a modification
      date dereferences null. */
  method ListDAVFile(listed: Option<seq<Resource>>, lastModified: Long)
    returns (r: Result<(seq<FlowFile>, int), Fault>)
    ensures listed.None? ==> r == Failure(IOError)
    ensures listed.Some? ==> (r.Success? <==> AllDated(listed.value))
    ensures listed.Some? && r.Failure? ==> r.error == NullPointer
    ensures r.Success? ==>
      && r.value.0 == ListedFiles(NewResources(listed.value, lastModified))
      && r.value.1 == MaxModified(listed.value, lastModified)
  {
    if listed.None? {
      return Failure(IOError);
    }
    var list := listed.value;
    var files: seq<FlowFile> := [];
    var maxModified := 0;
    var i := 0;
    while i < |list|
      invariant 0 <= i <= |list|
      invariant AllDated(list[..i])
      invariant files == ListedFiles(NewResources(list[..i], lastModified))
      invariant maxModified == MaxModified(list[..i], lastModified)
    {
      var resource := list[i];
      if resource.modified.None? {
        return Failure(NullPointer);
      }
      ListingStep(list, i, lastModified);
      var modifiedAt := resource.modified.value;
      if modifiedAt > lastModified {
        var file := CreateFile(resource);
        files := files + [file];
        if modifiedAt > maxModified {
          maxModified := modifiedAt;
        }
      }
      i := i + 1;
    }
    assert list[..i] == list;
    return Success((files, maxModified));
  }

  // ---------------------------------------------------------------------
  // onTrigger: one invocation, as a function of the state and the listing
  // ---------------------------------------------------------------------

  /** The effect of one successful invocation: the resources emitted, their
      FlowFiles, and the state afterwards. */
  datatype Pass = Pass(selected: seq<Resource>, files: seq<FlowFile>, state: StateMap)

  /** One invocation of `onTrigger` once authentication, the state read, the
      listing and the state write have succeeded. */
  function Trigger(state: StateMap, listing: seq<Resource>): Result<Pass, Fault> {
    match Cursor(state)
    case None => Failure(NumberFormat)
    case Some(c) => if AllDated(listing) then Success(PassFrom(state, c, listing)) else Failure(NullPointer)
  }

  /** The pass over a fully dated listing from cursor `c`. */
  function PassFrom(state: StateMap, c: Long, listing: seq<Resource>): (p: Pass)
    requires AllDated(listing)
    ensures p.selected == NewResources(listing, c) && p.files == ListedFiles(p.selected)
    ensures p.selected == [] ==> p.state == state
    ensures p.selected != [] ==> p.state == SavedState(LastModifiedKey, LongToString(MaxModified(listing, c)))
  {
    var sel := NewResources(listing, c);
    if sel == [] then Pass([], [], state)
    else Pass(sel, ListedFiles(sel), SavedState(LastModifiedKey, LongToString(MaxModified(listing, c))))
  }

  /** An invocation fails exactly on a malformed stored cursor or an undated
      resource; otherwise it is the pass from the parsed cursor. */
  lemma TriggerFailsIff(state: StateMap, listing: seq<Resource>)
    ensures Trigger(state, listing).Failure? <==> Cursor(state).None? || !AllDated(listing)
    ensures Cursor(state).None? ==> Trigger(state, listing) == Failure(NumberFormat)
    ensures Cursor(state).Some? && !AllDated(listing) ==> Trigger(state, listing) == Failure(NullPointer)
    ensures Trigger(state, listing).Success? ==>
      Trigger(state, listing).value == PassFrom(state, Cursor(state).value, listing)
  {
  }

  /** The state is rewritten exactly when something was emitted, and then it
      becomes the single cursor entry, strictly above the old cursor and equal
      to the newest modification time in the listing. */
  lemma TriggerWritesOnlyWhenNew(state: StateMap, listing: seq<Resource>)
    requires Trigger(state, listing).Success?
    ensures var p := Trigger(state, listing).value;
      && Cursor(state).Some? && AllDated(listing)
      && p.selected == NewResources(listing, Cursor(state).value)
      && p.files == ListedFiles(p.selected)
      && (p.selected == [] <==> p.state == state)
      && (p.selected != [] ==>
            && p.state.Keys == {LastModifiedKey}
            && Cursor(p.state) == Some(ListingMax(listing))
            && ListingMax(listing) > Cursor(state).value)
  {
    var c := Cursor(state).value;
    var p := Trigger(state, listing).value;
    MaxModifiedMeaning(listing, c);
    if p.selected != [] {
      SavedCursorReadsBack(MaxModified(listing, c));
      assert Cursor(p.state) != Cursor(state);
    }
  }

  /** The cursor never moves backwards across a successful invocation. */
  lemma TriggerCursorMonotone(state: StateMap, listing: seq<Resource>)
    requires Trigger(state, listing).Success?
    ensures Cursor(state).Some? && Cursor(Trigger(state, listing).value.state).Some?
    ensures Cursor(state).value <= Cursor(Trigger(state, listing).value.state).value
  {
    TriggerWritesOnlyWhenNew(state, listing);
  }

  /** After an invocation, the cursor is at or above the modification time of
      everything it emitted. */
  lemma TriggerCoversEmitted(state: StateMap, listing: seq<Resource>)
    requires Trigger(state, listing).Success?
    ensures var p := Trigger(state, listing).value;
      forall r :: r in p.selected ==>
        r.modified.Some? && Cursor(p.state).Some? && ModifiedAt(r) <= Cursor(p.state).value
  {
    var p := Trigger(state, listing).value;
    TriggerWritesOnlyWhenNew(state, listing);
    ListingMaxIsMax(listing);
    NewResourcesFromListing(listing, Cursor(state).value);
    forall r | r in p.selected
      ensures r.modified.Some? && ModifiedAt(r) <= Cursor(p.state).value
    {
      var i :| 0 <= i < |listing| && listing[i] == r;
    }
  }

  /** A second invocation over an unchanged listing emits nothing and leaves
      the state alone. */
  lemma TriggerIdempotent(state: StateMap, listing: seq<Resource>)
    requires Trigger(state, listing).Success?
    ensures var p := Trigger(state, listing).value;
      Trigger(p.state, listing) == Success(Pass([], [], p.state))
  {
    var c := Cursor(state).value;
    var p := Trigger(state, listing).value;
    TriggerWritesOnlyWhenNew(state, listing);
    if p.selected != [] {
      MaxModifiedMeaning(listing, c);
      NothingNewIff(listing, ListingMax(listing));
    }
  }

  /** A cursor at or above `t`. */
  ghost predicate CursorAtLeast(state: StateMap, t: int) {
    Cursor(state).Some? && Cursor(state).value >= t
  }

  /** Every resource the invocation emitted is newer than `t`. */
  ghost predicate EmitsOnlyAbove(p: Pass, t: int) {
    forall r :: r in p.selected ==> r.modified.Some? && ModifiedAt(r) > t
  }

  /** An invocation starting at a cursor of at least `t` emits only resources
      newer than `t` and leaves a cursor of at least `t`. */
  lemma TriggerStaysAbove(state: StateMap, listing: seq<Resource>, t: int)
    requires CursorAtLeast(state, t)
    requires Trigger(state, listing).Success?
    ensures CursorAtLeast(Trigger(state, listing).value.state, t)
    ensures EmitsOnlyAbove(Trigger(state, listing).value, t)
  {
    TriggerCursorMonotone(state, listing);
    NewResourcesAfterCursor(listing, Cursor(state).value);
  }

  /** One invocation seen from the state: the pass it made, or `None` when it
      aborted, whether on a malformed cursor, an undated resource, or an I/O
      failure of the state read, the listing or the state write (given here
      as a missing listing). */
  function Attempt(state: StateMap, listing: Option<seq<Resource>>): (a: Option<Pass>)
    ensures a.Some? <==> listing.Some? && Trigger(state, listing.value).Success?
    ensures a.Some? ==> a.value == Trigger(state, listing.value).value
  {
    if listing.Some? && Trigger(state, listing.value).Success? then Some(Trigger(state, listing.value).value)
    else None
  }

  /** The state an invocation leaves: an aborted one leaves it as it was. */
  function After(state: StateMap, a: Option<Pass>): StateMap {
    if a.Some? then a.value.state else state
  }

  /** Successive invocations, each over its own listing, from a starting
      state; an aborted invocation leaves the state to the next one as it
      found it. */
  function Run(state: StateMap, listings: seq<Option<seq<Resource>>>): (passes: seq<Option<Pass>>)
    ensures |passes| == |listings|
    ensures listings != [] ==> passes[0] == Attempt(state, listings[0])
    decreases |listings|
  {
    if listings == [] then []
    else
      var a := Attempt(state, listings[0]);
      [a] + Run(After(state, a), listings[1..])
  }

  /** From a cursor of at least `t`, an invocation, completed or aborted,
      emits only resources newer than `t` and leaves a cursor of at least `t`. */
  lemma AttemptStaysAbove(state: StateMap, listing: Option<seq<Resource>>, t: int)
    requires CursorAtLeast(state, t)
    ensures CursorAtLeast(After(state, Attempt(state, listing)), t)
    ensures Attempt(state, listing).Some? ==> EmitsOnlyAbove(Attempt(state, listing).value, t)
  {
    if Attempt(state, listing).Some? {
      TriggerStaysAbove(state, listing.value, t);
    }
  }

  /** From a cursor of at least `t`, no invocation of a run emits anything
      modified at or before `t`. */
  lemma {:induction false} RunStaysAbove(state: StateMap, listings: seq<Option<seq<Resource>>>, t: int)
    requires CursorAtLeast(state, t)
    ensures forall k :: 0 <= k < |listings| && Run(state, listings)[k].Some? ==>
      EmitsOnlyAbove(Run(state, listings)[k].value, t)
    decreases |listings|
  {
    if listings != [] {
      AttemptStaysAbove(state, listings[0], t);
      RunStaysAbove(After(state, Attempt(state, listings[0])), listings[1..], t);
    }
  }

  /** What the first invocation of a run emits, no later invocation emits. */
  lemma FirstPassNotRepeated(state: StateMap, listings: seq<Option<seq<Resource>>>, j: nat, r: Resource)
    requires 0 < j < |listings|
    requires Run(state, listings)[0].Some? && r in Run(state, listings)[0].value.selected
    ensures Run(state, listings)[j].None? || r !in Run(state, listings)[j].value.selected
  {
    var p := Attempt(state, listings[0]).value;
    TriggerCoversEmitted(state, listings[0].value);
    assert r.modified.Some? && CursorAtLeast(p.state, ModifiedAt(r));
    RunStaysAbove(p.state, listings[1..], ModifiedAt(r));
  }

  /** Invocation `k > 0` of a run is invocation `k - 1` of the run that
      starts from the state the first one leaves. */
  lemma RunTail(state: StateMap, listings: seq<Option<seq<Resource>>>, k: nat)
    requires 0 < k < |listings|
    ensures Run(state, listings)[k] == Run(After(state, Attempt(state, listings[0])), listings[1..])[k - 1]
  {
  }

  /** Across any run of invocations, including aborted ones, a resource
      emitted once is never emitted again, as long as its modification time
      does not change. */
  lemma {:induction false} NeverEmittedTwice(state: StateMap, listings: seq<Option<seq<Resource>>>,
                                             i: nat, j: nat, r: Resource)
    requires i < j < |listings|
    requires Run(state, listings)[i].Some? && r in Run(state, listings)[i].value.selected
    ensures Run(state, listings)[j].None? || r !in Run(state, listings)[j].value.selected
    decreases |listings|
  {
    if i == 0 {
      FirstPassNotRepeated(state, listings, j, r);
    } else {
      RunTail(state, listings, i);
      RunTail(state, listings, j);
      NeverEmittedTwice(After(state, Attempt(state, listings[0])), listings[1..], i - 1, j - 1, r);
    }
  }

  // ---------------------------------------------------------------------
  // Worked cases: two resources modified at 1000 and 2000
  // ---------------------------------------------------------------------

  function ResourceAt(path: string, t: Long): Resource {
    Resource(path, path, None, None, false, None, Some(t), map[])
  }

  /** Over two dated resources, a non-negative cursor at or past the older one's time and
      below the newer one's selects the newer one alone and moves to its time. */
  lemma CursorBetweenTwo(a: Resource, b: Resource, c: int)
    requires a.modified.Some? && b.modified.Some?
    requires 0 <= c && ModifiedAt(a) <= c < ModifiedAt(b)
    ensures AllDated([a, b])
    ensures NewResources([a, b], c) == [b]
    ensures MaxModified([a, b], c) == ModifiedAt(b)
    ensures ListedFiles([b]) == [ListedFile(b)]
  {
    assert [a, b][..1] == [a];
    assert [a][..0] == [];
    assert NewResources([a], c) == [] && MaxModified([a], c) == 0;
    assert [b][..0] == [];
  }

  /** Over two dated resources, a cursor at or past both times selects nothing. */
  lemma CursorPastTwo(a: Resource, b: Resource, c: int)
    requires a.modified.Some? && b.modified.Some?
    requires ModifiedAt(a) <= c && ModifiedAt(b) <= c
    ensures AllDated([a, b])
    ensures NewResources([a, b], c) == []
  {
    assert [a, b][..1] == [a];
    assert [a][..0] == [];
  }

  /** A cursor between the two times emits only the newer resource and saves 2000. */
  lemma CursorBetweenEmitsNewerOnly()
    ensures var a := ResourceAt("/a", 1000);
      var b := ResourceAt("/b", 2000);
      var state := SavedState(LastModifiedKey, LongToString(1500));
      Trigger(state, [a, b]) ==
        Success(Pass([b], [ListedFile(b)], SavedState(LastModifiedKey, LongToString(2000))))
  {
    var a := ResourceAt("/a", 1000);
    var b := ResourceAt("/b", 2000);
    var state := SavedState(LastModifiedKey, LongToString(1500));
    SavedCursorReadsBack(1500);
    CursorBetweenTwo(a, b, 1500);
    var p := PassFrom(state, 1500, [a, b]);
    assert Trigger(state, [a, b]) == Success(p);
  }

  /** A cursor already at the newest time emits nothing and leaves the state as it is. */
  lemma CursorAtNewestEmitsNothing()
    ensures var a := ResourceAt("/a", 1000);
      var b := ResourceAt("/b", 2000);
      var state := SavedState(LastModifiedKey, LongToString(2000));
      Trigger(state, [a, b]) == Success(Pass([], [], state))
  {
    var a := ResourceAt("/a", 1000);
    var b := ResourceAt("/b", 2000);
    var state := SavedState(LastModifiedKey, LongToString(2000));
    SavedCursorReadsBack(2000);
    CursorPastTwo(a, b, 2000);
    var p := PassFrom(state, 2000, [a, b]);
    assert Trigger(state, [a, b]) == Success(p);
  }

  // ---------------------------------------------------------------------
  // The processor
  // ---------------------------------------------------------------------

  /** The processor with the state the host keeps for it: the cluster state
      map and the FlowFiles committed to the success relationship. */
  class ListWebDAVProcessor {
    const base: WebDAVProcessor
    var state: StateMap
    var success: seq<FlowFile>

    constructor (base: WebDAVProcessor)
      ensures this.base == base && state == map[] && success == []
    {
      this.base := base;
      state := map[];
      success := [];
    }

    /** `onTrigger`. The I/O it depends on is given: the parsed URL, whether
        the state can be read and written, and the listing (`None` for an
        `IOException`). Any exception aborts the invocation, and the host then
        rolls the session back, so nothing reaches the success relationship;
        credentials stored by `addAuth` stay. */
    method OnTrigger(cfg: AuthConfig, uri: Option<Uri>, stateReadable: bool,
                     listed: Option<seq<Resource>>, stateWritable: bool)
      returns (outcome: Outcome)
      modifies this, base
      ensures base.credentials ==
        Settled(old(base.credentials), AddAuthCredentials(old(base.credentials), base.workstation, cfg, uri))
      ensures outcome.Completed? <==>
        && AddAuthCredentials(old(base.credentials), base.workstation, cfg, uri).Success?
        && stateReadable && listed.Some?
        && Trigger(old(state), listed.value).Success?
        && (Trigger(old(state), listed.value).value.selected != [] ==> stateWritable)
      ensures outcome.Completed? ==>
        var p := Trigger(old(state), listed.value).value;
        state == p.state && success == old(success) + p.files
      ensures outcome.Aborted? ==> state == old(state) && success == old(success)
    {
      outcome := base.AddAuth(cfg, uri);
      if outcome.Aborted? {
        return;
      }
      if !stateReadable {
        return Aborted(IOError);
      }
      var lastModified := ParseLong(ReadState(state, LastModifiedKey, DefaultCursor));
      if lastModified.None? {
        return Aborted(NumberFormat);
      }
      var listing := ListDAVFile(listed, lastModified.value);
      if listing.Failure? {
        return Aborted(listing.error);
      }
      var files := listing.value.0;
      var maxModified := listing.value.1;
      if files != [] {
        if !stateWritable {
          return Aborted(IOError);
        }
        success := success + files;
        state := SavedState(LastModifiedKey, LongToString(maxModified));
      }
      outcome := Completed;
    }
  }
}
