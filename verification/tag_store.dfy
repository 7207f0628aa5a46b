/** The tag store: the system tag and meta-tag lists, each loaded at most
    once, either handed in by `initTags` or fetched by `loadTags`.

    `loadTags` is split at its `await`: `BeginLoad` runs up to the
    `Promise.all`, and the settling of that promise is a later event that
    finishes the load. Other calls (`initTags`, another `loadTags`) may run
    in between; `World` and `Step` model that interleaving. */
module TagStore {
  import opened Optional

  datatype Tag = Tag(id: int, name: string)

  type TagList = seq<Tag>

  /** The reactive store object. */
  datatype State = State(
    tags: TagList,
    metaTags: TagList,
    isLoading: bool,
    error: Option<string>,
    hasFetchedTags: bool,
    hasFetchedMetaTags: bool)

  const Initial := State([], [], false, None, false, false)

  /** `initTags`' argument: either list may be missing. An array is truthy
      even when empty, so a supplied empty list counts as supplied. */
  datatype Preloaded = Preloaded(tags: Option<TagList>, metaTags: Option<TagList>)

  const TagsUrl := "/api/tags/tags"
  const MetaTagsUrl := "/api/tags/meta_tags"

  const DefaultError := "Failed to load system tags."

  /** `initTags`: each supplied list is taken only when that list has not
      been fetched yet, and is then marked fetched. */
  function InitTags(st: State, pre: Preloaded): (r: State)
    ensures r.isLoading == st.isLoading && r.error == st.error
    ensures (pre.tags.Some? && !st.hasFetchedTags) ==> r.tags == pre.tags.value && r.hasFetchedTags
    ensures !(pre.tags.Some? && !st.hasFetchedTags) ==> r.tags == st.tags && r.hasFetchedTags == st.hasFetchedTags
    ensures (pre.metaTags.Some? && !st.hasFetchedMetaTags) ==> r.metaTags == pre.metaTags.value && r.hasFetchedMetaTags
    ensures !(pre.metaTags.Some? && !st.hasFetchedMetaTags) ==> r.metaTags == st.metaTags && r.hasFetchedMetaTags == st.hasFetchedMetaTags
  {
    var st1 := if pre.tags.Some? && !st.hasFetchedTags then st.(tags := pre.tags.value, hasFetchedTags := true) else st;
    if pre.metaTags.Some? && !st1.hasFetchedMetaTags then st1.(metaTags := pre.metaTags.value, hasFetchedMetaTags := true) else st1
  }

  /** The lists a load in flight asked for, fixed when it started. */
  datatype Pending = Pending(wantTags: bool, wantMeta: bool)

  datatype BeginResult = BeginResult(state: State, pending: Option<Pending>, requests: seq<string>)

  /** `loadTags` up to its `await`: nothing happens while a load is in
      flight or once both lists are present; otherwise the store starts
      loading, clears the error and requests the missing lists, tags first. */
  function BeginLoad(st: State): (r: BeginResult)
    ensures (st.isLoading || (st.hasFetchedTags && st.hasFetchedMetaTags)) <==> r.pending.None?
    ensures r.pending.None? ==> r.state == st && r.requests == []
    ensures r.pending.Some? ==> r.state == st.(isLoading := true, error := None)
    ensures r.pending.Some? ==> r.pending.value == Pending(!st.hasFetchedTags, !st.hasFetchedMetaTags)
    ensures TagsUrl in r.requests <==> r.pending.Some? && !st.hasFetchedTags
    ensures MetaTagsUrl in r.requests <==> r.pending.Some? && !st.hasFetchedMetaTags
    ensures |r.requests| == 2 ==> r.requests == [TagsUrl, MetaTagsUrl]
  {
    if st.isLoading || (st.hasFetchedTags && st.hasFetchedMetaTags) then BeginResult(st, None, [])
    else
      var p := Pending(!st.hasFetchedTags, !st.hasFetchedMetaTags);
      BeginResult(st.(isLoading := true, error := None), Some(p), RequestsOf(p))
  }

  function RequestsOf(p: Pending): seq<string> {
    (if p.wantTags then [TagsUrl] else []) + (if p.wantMeta then [MetaTagsUrl] else [])
  }

  /** How the awaited requests settled: each endpoint's list, or the
      rejection's message when it is an `Error` (`None` for any other
      thrown value). */
  datatype Outcome = Fetched(tagsResult: TagList, metaResult: TagList) | Failed(message: Option<string>)

  /** The array `Promise.all` resolves to: one result per request, in
      request order. */
  function ResultsOf(p: Pending, tagsResult: TagList, metaResult: TagList): (r: seq<TagList>)
    ensures |r| == |RequestsOf(p)|
    ensures forall i :: 0 <= i < |r| ==> r[i] == (if RequestsOf(p)[i] == TagsUrl then tagsResult else metaResult)
  {
    (if p.wantTags then [tagsResult] else []) + (if p.wantMeta then [metaResult] else [])
  }

  /** A load in flight asked for every list that is still missing: the
      fetched flags only ever turn on. */
  predicate Covers(p: Pending, st: State) {
    (!st.hasFetchedTags ==> p.wantTags) && (!st.hasFetchedMetaTags ==> p.wantMeta)
  }

  function FailWith(st: State, message: Option<string>): (r: State)
    ensures r == st.(isLoading := false, error := Some(message.GetOr(DefaultError)))
  {
    st.(isLoading := false, error := Some(message.GetOr(DefaultError)))
  }

  /** The rest of `loadTags` as written: the flags are read again after the
      `await`, and the results are handed out by position to whichever
      lists are missing now. */
  function FinishLoadAsWritten(st: State, p: Pending, outcome: Outcome): (r: State)
    requires Covers(p, st)
    ensures !r.isLoading
    ensures outcome.Failed? ==> r == FailWith(st, outcome.message)
    ensures st.hasFetchedTags ==> r.tags == st.tags && r.hasFetchedTags
    ensures st.hasFetchedMetaTags ==> r.metaTags == st.metaTags && r.hasFetchedMetaTags
    ensures outcome.Fetched? ==> r.hasFetchedTags && r.hasFetchedMetaTags && r.error == st.error
  {
    match outcome
    case Failed(message) => FailWith(st, message)
    case Fetched(tagsResult, metaResult) =>
      var results := ResultsOf(p, tagsResult, metaResult);
      var index := 0;
      var st1 := if !st.hasFetchedTags then st.(tags := results[index], hasFetchedTags := true) else st;
      var index := if !st.hasFetchedTags then index + 1 else index;
      var st2 := if !st1.hasFetchedMetaTags then st1.(metaTags := results[index], hasFetchedMetaTags := true) else st1;
      st2.(isLoading := false)
  }

  /** The rest of `loadTags` with each result going to the list it was
      requested for, and only while that list is still missing. */
  function FinishLoad(st: State, p: Pending, outcome: Outcome): (r: State)
    requires Covers(p, st)
    ensures !r.isLoading
    ensures outcome.Failed? ==> r == FailWith(st, outcome.message)
    ensures st.hasFetchedTags ==> r.tags == st.tags && r.hasFetchedTags
    ensures st.hasFetchedMetaTags ==> r.metaTags == st.metaTags && r.hasFetchedMetaTags
    ensures outcome.Fetched? ==> r.hasFetchedTags && r.hasFetchedMetaTags && r.error == st.error
    ensures outcome.Fetched? && !st.hasFetchedTags ==> r.tags == outcome.tagsResult
    ensures outcome.Fetched? && !st.hasFetchedMetaTags ==> r.metaTags == outcome.metaResult
  {
    match outcome
    case Failed(message) => FailWith(st, message)
    case Fetched(tagsResult, metaResult) =>
      var st1 := if !st.hasFetchedTags then st.(tags := tagsResult, hasFetchedTags := true) else st;
      var st2 := if !st1.hasFetchedMetaTags then st1.(metaTags := metaResult, hasFetchedMetaTags := true) else st1;
      st2.(isLoading := false)
  }

  /** With nothing changed while the requests were out, the two endpoints'
      results land in the same lists either way. */
  lemma FinishAgreesWhenUndisturbed(st: State, outcome: Outcome)
    requires !st.isLoading && !(st.hasFetchedTags && st.hasFetchedMetaTags)
    ensures var b := BeginLoad(st);
      FinishLoadAsWritten(b.state, b.pending.value, outcome) == FinishLoad(b.state, b.pending.value, outcome)
  {
  }

  // ---------------------------------------------------------------------
  // Interleaved calls
  // ---------------------------------------------------------------------

  datatype Event = Init(pre: Preloaded) | Load | Settle(outcome: Outcome)

  /** The store and the load in flight, if any. */
  datatype World = World(store: State, inFlight: Option<Pending>)

  /** One call or settlement. A `Settle` with no load in flight does
      nothing. */
  function StepWith(w: World, e: Event, asWritten: bool): (r: World)
    requires Consistent(w)
    ensures Consistent(r)
  {
    match e
    case Init(pre) => World(InitTags(w.store, pre), w.inFlight)
    case Load =>
      var b := BeginLoad(w.store);
      if b.pending.Some? then World(b.state, b.pending) else w
    case Settle(outcome) =>
      if w.inFlight.None? then w
      else
        var st := if asWritten then FinishLoadAsWritten(w.store, w.inFlight.value, outcome)
                  else FinishLoad(w.store, w.inFlight.value, outcome);
        World(st, None)
  }

  /** A load is in flight exactly while `isLoading` is set, and it asked
      for every list still missing. */
  predicate Consistent(w: World) {
    && (w.inFlight.Some? <==> w.store.isLoading)
    && (w.inFlight.Some? ==> Covers(w.inFlight.value, w.store))
  }

  function Run(w: World, events: seq<Event>, asWritten: bool): (r: World)
    requires Consistent(w)
    ensures Consistent(r)
    decreases |events|
  {
    if |events| == 0 then w else Run(StepWith(w, events[0], asWritten), events[1..], asWritten)
  }

  /** A list once fetched is never replaced, by `initTags` or by a load,
      and its flag stays on. */
  lemma {:induction false} FetchedListsAreNeverOverwritten(w: World, events: seq<Event>, asWritten: bool)
    requires Consistent(w)
    ensures var r := Run(w, events, asWritten);
      && (w.store.hasFetchedTags ==> r.store.hasFetchedTags && r.store.tags == w.store.tags)
      && (w.store.hasFetchedMetaTags ==> r.store.hasFetchedMetaTags && r.store.metaTags == w.store.metaTags)
    decreases |events|
  {
    if |events| > 0 {
      FetchedListsAreNeverOverwritten(StepWith(w, events[0], asWritten), events[1..], asWritten);
    }
  }

  /** Every settlement leaves the store not loading. */
  lemma SettleEndsLoading(w: World, outcome: Outcome, asWritten: bool)
    requires Consistent(w)
    ensures !StepWith(w, Settle(outcome), asWritten).store.isLoading
  {
  }

  /** A failed load records its message and changes no list or flag. */
  lemma FailedLoadKeepsLists(w: World, message: Option<string>, asWritten: bool)
    requires Consistent(w) && w.inFlight.Some?
    ensures var r := StepWith(w, Settle(Failed(message)), asWritten).store;
      && r.error == Some(message.GetOr(DefaultError))
      && r.tags == w.store.tags && r.metaTags == w.store.metaTags
      && r.hasFetchedTags == w.store.hasFetchedTags && r.hasFetchedMetaTags == w.store.hasFetchedMetaTags
  {
  }

  /** The load and the preloaded tags overlap: both lists are requested,
      then `initTags` supplies the tags, then both requests succeed. */
  const MisroutingTrace: seq<Event> := [
    Load,
    Init(Preloaded(Some([Tag(1, "preloaded")]), None)),
    Settle(Fetched([Tag(2, "tag")], [Tag(3, "meta")]))
  ]

  /** As written, the meta-tag list receives the tags endpoint's result. */
  lemma MetaTagsGetTagsResultAsWritten()
    ensures Run(World(Initial, None), MisroutingTrace, true).store.metaTags == [Tag(2, "tag")]
  {
    var w1 := StepWith(World(Initial, None), MisroutingTrace[0], true);
    assert w1.inFlight == Some(Pending(true, true));
    var w2 := StepWith(w1, MisroutingTrace[1], true);
    assert w2.store.hasFetchedTags && !w2.store.hasFetchedMetaTags;
    var w3 := StepWith(w2, MisroutingTrace[2], true);
    assert w3.store.metaTags == [Tag(2, "tag")];
    assert Run(w2, MisroutingTrace[2..], true) == w3;
  }

  /** Routed by request, the same trace gives the meta-tag list its own
      result and keeps the preloaded tags. */
  lemma MetaTagsGetMetaResult()
    ensures var st := Run(World(Initial, None), MisroutingTrace, false).store;
      st.metaTags == [Tag(3, "meta")] && st.tags == [Tag(1, "preloaded")]
  {
    var w1 := StepWith(World(Initial, None), MisroutingTrace[0], false);
    var w2 := StepWith(w1, MisroutingTrace[1], false);
    var w3 := StepWith(w2, MisroutingTrace[2], false);
    assert Run(w2, MisroutingTrace[2..], false) == w3;
  }
}
