/** The state of the `Logbook` view and the transitions that change it.
    The asynchronous `fetch` is split into the request it builds
    (`BuildRequest`), the step that starts it (`BeginFetch`, which turns the
    spinner on) and the step that handles its answer (`ApplyResponse`). Each
    transition runs to completion before the next one starts, as callbacks do
    on the browser's single event loop. */
module LogbookView {
  import opened JsValues
  import opened JsObjects
  import opened Request
  import opened RequestProperties

  /** An entry; the view only passes entries on to the entry list. */
  datatype Entry = Entry(id: int)

  /** The logbook metadata the view shows; both fields are `undefined` in
      the empty object the view starts with. */
  datatype LogbookInfo = LogbookInfo(id: JsVal, name: JsVal)

  /** The decoded body of an entries response. */
  datatype Response = Response(logbook: LogbookInfo, entries: seq<Entry>, count: int)

  /** What the router gives the view: the logbook id of the route, the raw
      query string, and whether navigation asked for a reload. */
  datatype Props = Props(logbookId: JsVal, search: string, reloadLogbook: bool)

  /** A call `this.fetch(logbookId, search, attributeFilters, offset, n)`.
      The URL it requests is `RequestOf`. */
  datatype FetchCall = FetchCall(logbookId: JsVal, search: string, filters: Object,
                                 offset: JsVal, n: JsVal)

  /** The URL requested by a fetch call, where `parsed` is what the query
      parser makes of the call's search string. */
  function RequestOf(call: FetchCall, parsed: Object): (r: string)
    ensures EntriesPath(call.logbookId) < r
    ensures !Truthy(call.offset) ==>
              r == BuildRequest(call.logbookId, call.search, parsed, call.filters, Undefined, call.n)
  {
    var r := BuildRequest(call.logbookId, call.search, parsed, call.filters, call.offset, call.n);
    if Truthy(call.offset) then r
    else
      FalsyOffsetIsFreshLoad(call.logbookId, call.search, parsed, call.filters, call.offset, call.n);
      r
  }

  /** The update hook fetches when the route's logbook id or query string
      changed (strict `!==`), when the filter object was replaced, or when
      navigation asked for a reload. */
  predicate RefetchOnUpdate(current: Props, next: Props, filtersReplaced: bool)
    ensures next.logbookId != current.logbookId ==> RefetchOnUpdate(current, next, filtersReplaced)
    ensures next == current && !filtersReplaced ==>
              (RefetchOnUpdate(current, next, filtersReplaced) <==> next.reloadLogbook)
  {
    || next.logbookId != current.logbookId
    || next.search != current.search
    || filtersReplaced
    || next.reloadLogbook
  }

  class Logbook {
    var logbook: LogbookInfo
    var entries: seq<Entry>
    var count: JsVal
    var attributeFilters: Object
    var loading: bool

    /** The filter selections form a JavaScript object: no attribute twice. */
    predicate Valid()
      reads this
    {
      DistinctKeys(attributeFilters)
    }

    /** The view starts with an empty logbook, no entries, no filters and
        no request in flight. */
    constructor ()
      ensures logbook == LogbookInfo(Undefined, Undefined)
      ensures entries == [] && count == Undefined
      ensures attributeFilters == [] && !loading
      ensures Valid()
    {
      logbook := LogbookInfo(Undefined, Undefined);
      entries := [];
      count := Undefined;
      attributeFilters := [];
      loading := false;
    }

    /** Starts a fetch: the spinner goes on and the call is issued. */
    method BeginFetch(logbookId: JsVal, search: string, filters: Object,
                      offset: JsVal, n: JsVal) returns (call: FetchCall)
      modifies this`loading
      ensures loading
      ensures call == FetchCall(logbookId, search, filters, offset, n)
    {
      call := FetchCall(logbookId, search, filters, offset, n);
      loading := true;
    }

    /** Handles the answer to a fetch made with `offset`: the spinner goes
        off; a truthy offset appends the new entries and keeps the logbook
        and the count, otherwise the response replaces all three. */
    method ApplyResponse(offset: JsVal, response: Response)
      modifies this`loading, this`logbook, this`entries, this`count
      ensures !loading
      ensures Truthy(offset) ==>
                && entries == old(entries) + response.entries
                && logbook == old(logbook)
                && count == old(count)
      ensures !Truthy(offset) ==>
                && logbook == response.logbook
                && entries == response.entries
                && count == Num(response.count)
    {
      loading := false;
      if Truthy(offset) {
        entries := entries + response.entries;
      } else {
        logbook, entries, count := response.logbook, response.entries, Num(response.count);
      }
    }

    /** The first fetch, made before the view is first shown. */
    method Mount(props: Props) returns (call: FetchCall)
      modifies this`loading
      ensures loading
      ensures call == FetchCall(props.logbookId, props.search, attributeFilters, Undefined, Undefined)
    {
      call := BeginFetch(props.logbookId, props.search, attributeFilters, Undefined, Undefined);
    }

    /** The update hook, run when the view receives `next` props and the
        pending filter object `nextFilters`: it fetches with the new props and
        filters when `RefetchOnUpdate` holds, the pending filters become the
        current ones, and moving to another logbook then clears them. */
    method WillUpdate(current: Props, next: Props, nextFilters: Object,
                      filtersReplaced: bool) returns (call: Option<FetchCall>)
      requires DistinctKeys(nextFilters)
      modifies this`loading, this`attributeFilters
      ensures Valid()
      ensures call.Some? <==> RefetchOnUpdate(current, next, filtersReplaced)
      ensures call.Some? ==>
                && loading
                && call.value == FetchCall(next.logbookId, next.search, nextFilters, Undefined, Undefined)
      ensures call.None? ==> loading == old(loading)
      ensures attributeFilters == if next.logbookId != current.logbookId then [] else nextFilters
    {
      call := None;
      if RefetchOnUpdate(current, next, filtersReplaced) {
        var c := BeginFetch(next.logbookId, next.search, nextFilters, Undefined, Undefined);
        call := Some(c);
      }
      attributeFilters := nextFilters;
      if next.logbookId != current.logbookId {
        attributeFilters := [];
      }
    }

    /** A "logbook reloaded" notification refetches only when its id loosely
        equals the id of the logbook on display. */
    method Reload(notifiedId: JsVal, props: Props) returns (call: Option<FetchCall>)
      modifies this`loading
      ensures call.Some? <==> LooseEquals(notifiedId, logbook.id)
      ensures call.Some? ==>
                && loading
                && call.value == FetchCall(props.logbookId, props.search, attributeFilters,
                                           Undefined, Undefined)
      ensures call.None? ==> loading == old(loading)
    {
      call := None;
      if LooseEquals(notifiedId, logbook.id) {
        var c := BeginFetch(props.logbookId, props.search, attributeFilters, Undefined, Undefined);
        call := Some(c);
      }
    }

    /** Choosing in an attribute's selector: the placeholder (index 0) clears
        that attribute's filter, any other choice sets it to the chosen value;
        no other attribute's filter changes. */
    method ChangeAttributeFilter(attribute: string, selectedIndex: int, value: string)
      requires Valid()
      modifies this`attributeFilters
      ensures Valid()
      ensures attributeFilters ==
                Put(old(attributeFilters), attribute, if selectedIndex == 0 then Undefined else Str(value))
      ensures Get(attributeFilters, attribute) == if selectedIndex == 0 then Undefined else Str(value)
      ensures forall k :: k != attribute ==> Get(attributeFilters, k) == Get(old(attributeFilters), k)
      ensures selectedIndex == 0 ==>
                ActiveFilters(attributeFilters) == Without(ActiveFilters(old(attributeFilters)), attribute)
      ensures selectedIndex != 0 && value != "" && attribute !in Keys(old(attributeFilters)) ==>
                ActiveFilters(attributeFilters) == ActiveFilters(old(attributeFilters)) + [attribute]
      ensures selectedIndex != 0 && value != "" ==>
                forall i :: 0 <= i < |old(attributeFilters)| && Keys(old(attributeFilters))[i] == attribute ==>
                  ActiveFilters(attributeFilters)
                  == TruthyKeys(old(attributeFilters), Keys(old(attributeFilters))[..i]) + [attribute]
                     + TruthyKeys(old(attributeFilters), Keys(old(attributeFilters))[i + 1..])
      ensures NoDuplicates(ActiveFilters(attributeFilters))
    {
      PutKeepsKeysDistinct(attributeFilters, attribute, if selectedIndex == 0 then Undefined else Str(value));
      if selectedIndex == 0 {
        ClearedFilterDropsOut(attributeFilters, attribute);
        attributeFilters := Put(attributeFilters, attribute, Undefined);
      } else {
        if value != "" {
          SetFilterPosition(attributeFilters, attribute, Str(value));
          forall i | 0 <= i < |attributeFilters| && Keys(attributeFilters)[i] == attribute
            ensures ActiveFilters(Put(attributeFilters, attribute, Str(value)))
                    == TruthyKeys(attributeFilters, Keys(attributeFilters)[..i]) + [attribute]
                       + TruthyKeys(attributeFilters, Keys(attributeFilters)[i + 1..])
          {
            SetFilterKeepsPlace(attributeFilters, attribute, Str(value), i);
          }
        }
        attributeFilters := Put(attributeFilters, attribute, Str(value));
      }
      ActiveFiltersDistinct(attributeFilters);
    }

    /** "Load more" fetches from the number of entries already shown. */
    method LoadMore(props: Props) returns (call: FetchCall)
      modifies this`loading
      ensures loading
      ensures call == FetchCall(props.logbookId, props.search, attributeFilters, Num(|entries|), Undefined)
    {
      call := BeginFetch(props.logbookId, props.search, attributeFilters, Num(|entries|), Undefined);
    }
  }

  /** A first page of 50 entries followed by "load more": the second fetch
      asks for offset 50, and a 20-entry answer leaves 70 entries under the
      same logbook metadata. */
  method LoadMoreScenario(props: Props, first: Response, more: Response)
    returns (call: FetchCall, shown: nat, sameLogbook: bool)
    requires |first.entries| == 50 && |more.entries| == 20
    ensures call == FetchCall(props.logbookId, props.search, [], Num(50), Undefined)
    ensures shown == 70 && sameLogbook
  {
    var view := new Logbook();
    view.ApplyResponse(Undefined, first);
    var before := view.entries;
    call := view.LoadMore(props);
    view.ApplyResponse(Num(50), more);
    assert view.entries == before + more.entries;
    shown := |view.entries|;
    sameLogbook := view.logbook == first.logbook;
  }
}
