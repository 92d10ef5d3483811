# Logbook view of the elogy frontend, modelled in Dafny

elogy is a web logbook. Its React frontend shows one logbook at a time in
the `Logbook` view: a list of entries, selectors that filter entries by
attribute, and a "Load more" button. This project models the view's logic.

**The entries request.** `fetch` builds the request URL as follows:
- It starts from the query parameters of the browser URL.
- It sets the page size `n` to the caller's value, else the URL's value, else 50.
- It always sets `offset` to the caller's value or 0.
- It renders every property as `key=value`.
- It adds a mandatory `&`.
- It adds one `attribute=<name>:<value>` term for each attribute filter that is set.
- It puts all of this under `/api/logbooks/<id or 0>/entries/?`.

**The view state.** The state has five fields: `logbook`, `entries`, `count`, `attributeFilters` and `loading`. The transitions that change it are:
- starting a fetch;
- applying its response, which appends for a non-zero offset and replaces otherwise;
- the update hook, which decides whether to refetch and clears the filters when the logbook changes;
- the reload guard, which compares ids with JavaScript's loose `==`;
- changing one attribute filter;
- "load more", which fetches from the number of entries already shown.

The model is in six modules:
- `JsValues` covers the JavaScript value semantics the code depends on: truthiness, `||`, rendering a value in a template literal, and loose `==`.
- `JsObjects` models a plain object as its properties in insertion order. That is the order `Object.keys` reports.
- `Request` is the pure request builder.
- `RequestProperties` proves facts about the request builder.
- `RequestExamples` works out two requests in full.
- `LogbookView` holds the `Logbook` class and its transitions.

The asynchronous `fetch` is split into three parts:
- `Request.BuildRequest` is the URL.
- `Logbook.BeginFetch` turns the spinner on and issues the call. It returns a `FetchCall`, and `RequestOf` maps that call to its URL.
- `Logbook.ApplyResponse` handles the answer.

Each transition runs to completion before the next one starts.

## Model

| member | source | states |
|---|---|---|
| JsValues.Truthy | elogy/frontend/src/logbook.js:29-32 | A value is falsy exactly when it is `undefined`, `0` or `""`. |
| JsValues.Or | elogy/frontend/src/logbook.js:29-30 | `a \|\| b` is the left operand when that is truthy and the right operand otherwise. The result is truthy exactly when either operand is. |
| JsValues.NatToDecimal | elogy/frontend/src/logbook.js:36 | A number renders as a non-empty digit string with no leading zero: only 0 starts with `0`, and it renders as `0` alone. |
| JsValues.DecimalRoundTrip | elogy/frontend/src/logbook.js:91 | Reading back the decimal rendering of a number gives the number. |
| JsValues.ToStr | elogy/frontend/src/logbook.js:33-36 | In a template literal `undefined` renders as `undefined` and a string as itself. A non-negative number renders as a non-empty digit string with no leading zero (only 0 starts with `0`, and it renders as `0` alone), whose `Number()` value is the number. A negative number renders as `-` followed by such a digit string for its magnitude. |
| JsValues.StringToNumber | elogy/frontend/src/logbook.js:91 | `Number("")` is 0. Every digit string gives a number, and that number is non-negative. A string with any other character gives NaN. |
| JsValues.LooseEquals | elogy/frontend/src/logbook.js:91 | Two numbers, or two strings, are loosely equal exactly when they are equal. Loose `==` is reflexive, and `undefined` equals only `undefined`. |
| JsValues.LooseEqualsSymmetric | elogy/frontend/src/logbook.js:91 | Loose `==` does not depend on operand order. |
| JsValues.NumberEqualsItsDecimalString | elogy/frontend/src/logbook.js:91 | A numeric logbook id loosely equals its decimal string, in both orders. It equals no other number's string. |
| JsObjects.Keys | elogy/frontend/src/logbook.js:31 | `Object.keys` lists one key per property. |
| JsObjects.KeyAt | elogy/frontend/src/logbook.js:35 | The i-th key is the key of the i-th property. |
| JsObjects.Get | elogy/frontend/src/logbook.js:29 | Reading an absent key gives `undefined`. |
| JsObjects.GetFindsProperty | elogy/frontend/src/logbook.js:32-33 | In an object with distinct keys, reading a property's key gives that property's value. |
| JsObjects.Put | elogy/frontend/src/logbook.js:29-30 | An assignment changes the read of its key to the new value and leaves every other key's read alone. An existing key keeps its position; a new key is added last. |
| JsObjects.PutKeepsKeysDistinct | elogy/frontend/src/logbook.js:111 | Assigning a property never duplicates a key. |
| Request.UrlQuery | elogy/frontend/src/logbook.js:28 | With no search string the URL query has no keys. Otherwise it has the parser's keys in the parser's order. It has distinct keys whenever the parser's result does. |
| Request.UrlQueryReads | elogy/frontend/src/logbook.js:28 | With no search string every URL parameter reads as `undefined`. Otherwise each one reads as the parser gave it. |
| Request.PagedQuery | elogy/frontend/src/logbook.js:28-30 | Page size is the explicit `n` if truthy, else the URL's `n` if truthy, else 50. `offset` is the argument if truthy, else 0, whatever the URL held. Every other URL parameter is kept. Keys are the URL's, followed by `n` and `offset` when the URL lacked them. The URL query is empty when the search string is. |
| Request.PagedQueryKeysDistinct | elogy/frontend/src/logbook.js:28-30 | The paged query has distinct keys when the parsed URL query does. |
| Request.QueryTermsOf | elogy/frontend/src/logbook.js:35-36 | One `key=value` term per key, in the given order, holding that key's value. |
| Request.QueryTerms | elogy/frontend/src/logbook.js:35-36 | There is one term per query property, and every property `k` gives the term `k=<its value>`. |
| Request.TruthyKeys | elogy/frontend/src/logbook.js:31-32 | Keeps exactly the listed keys whose value is truthy. |
| Request.ActiveFilters | elogy/frontend/src/logbook.js:31-32 | Holds an attribute exactly when its filter value is truthy. |
| Request.AttributeTermsOf | elogy/frontend/src/logbook.js:33 | One `attribute=<name>:<value>` term per selected attribute, in order. |
| Request.AttributeTerms | elogy/frontend/src/logbook.js:31-33 | There is one term per set filter, and every set filter `k` gives `attribute=k:<its value>`. |
| Request.JoinHasTerm | elogy/frontend/src/logbook.js:34-36 | `join` keeps every element: each one occurs as a contiguous piece of the joined string. |
| Request.QueryString | elogy/frontend/src/logbook.js:35-37 | The query string is never empty. With no filter set it ends in the mandatory `&`. |
| Request.JoinedHalvesCarry | elogy/frontend/src/logbook.js:35-37 | Every term of either half occurs in the two halves joined around the mandatory `&`. |
| Request.QueryStringCarriesTerm | elogy/frontend/src/logbook.js:31-37 | Every query term and every attribute term occurs in the query string. |
| Request.EntriesPath | elogy/frontend/src/logbook.js:39 | The path is `/api/logbooks/<id>/entries/?` for a truthy id. Otherwise it is `/api/logbooks/0/entries/?`. |
| Request.BuildRequest | elogy/frontend/src/logbook.js:35-39 | The URL strictly extends the entries path, so the query string is never dropped. With no filter set it ends in `&`. |
| RequestProperties.TruthyKeysAppend | elogy/frontend/src/logbook.js:31-32 | Filtering keys distributes over concatenation, so it keeps their relative order. |
| RequestProperties.ActiveFiltersInKeyOrder | elogy/frontend/src/logbook.js:31-34 | At any split point, the selected attributes among the earlier keys precede those among the later keys. |
| RequestProperties.TruthyKeysAgree | elogy/frontend/src/logbook.js:31-32 | Two filter objects that agree on which keys are set select the same keys. |
| RequestProperties.Without | elogy/frontend/src/logbook.js:111 | Removing a key keeps exactly the other keys. |
| RequestProperties.TruthyKeysCleared | elogy/frontend/src/logbook.js:108-113 | Setting a key to `undefined` removes exactly that key from any filtered key list. |
| RequestProperties.WithoutAppend | elogy/frontend/src/logbook.js:111 | Removing a key distributes over concatenation. |
| RequestProperties.ClearedFilterDropsOut | elogy/frontend/src/logbook.js:108-113 | Clearing an attribute's filter removes exactly that attribute from the selected list. The others keep their order. |
| RequestProperties.SetFilterPosition | elogy/frontend/src/logbook.js:114-120 | Setting a truthy value leaves the selected list as it was for an attribute that was already set, and appends a new attribute last. |
| RequestProperties.SetFilterKeepsPlace | elogy/frontend/src/logbook.js:108-120 | Setting a truthy value on an attribute that has a key, cleared or not, selects it at its key's place: after the selected attributes with earlier keys and before those with later keys. A cleared attribute keeps its key, so re-selecting it does not move it last. |
| RequestProperties.TruthyKeysNoDuplicates | elogy/frontend/src/logbook.js:31-32 | Filtering a key list without duplicates gives a list without duplicates. |
| RequestProperties.ActiveFiltersDistinct | elogy/frontend/src/logbook.js:31-33 | Each attribute is sent at most once. |
| RequestProperties.SetFilterIsSerialised | elogy/frontend/src/logbook.js:31-39 | Every set filter occurs in the requested URL as `attribute=<name>:<value>`. |
| Request.AttributeTermFromSetFilter | elogy/frontend/src/logbook.js:31-34 | Every attribute term comes from a filter that is set, and carries its value. |
| RequestProperties.InRequest | elogy/frontend/src/logbook.js:39 | Whatever occurs in the query string occurs in the requested URL. |
| RequestProperties.RequestCarriesPaging | elogy/frontend/src/logbook.js:29-39 | The requested URL always contains `n=<n, else the URL's n, else 50>` and `offset=<offset, else 0>`. |
| RequestProperties.RequestCarriesUrlParameter | elogy/frontend/src/logbook.js:28-39 | Every browser-URL parameter other than `n` and `offset` occurs in the requested URL with its value unchanged. |
| RequestProperties.FalsyOffsetIsFreshLoad | elogy/frontend/src/logbook.js:30 | Any falsy offset requests the same URL as no offset at all. |
| RequestProperties.LoadMoreFromEmptyIsFreshLoad | elogy/frontend/src/logbook.js:124-128 | Offset 0 is falsy, so "load more" on an empty list requests the same URL as a fresh load. |
| RequestExamples.FreshLoadExample | elogy/frontend/src/logbook.js:25-39 | Logbook 5 with search `?title=test` and no filters requests `/api/logbooks/5/entries/?title=test&n=50&offset=0&`. |
| RequestExamples.UnescapedValuesCollide | elogy/frontend/src/logbook.js:33-37 | Values are not escaped. One filter whose value holds `&attribute=b:y` gives the same request as two separate filters. |
| LogbookView.RequestOf | elogy/frontend/src/logbook.js:39 | A fetch call requests a URL under its logbook's entries path. A call with a falsy offset requests the fresh-load URL. |
| LogbookView.RefetchOnUpdate | elogy/frontend/src/logbook.js:63-67 | A change of logbook id always refetches. With unchanged props and the same filter object, it refetches exactly when a reload was requested. |
| LogbookView.Logbook.constructor | elogy/frontend/src/logbook.js:14-22 | The view starts with an empty logbook, no entries, no filters and no request in flight. |
| LogbookView.Logbook.BeginFetch | elogy/frontend/src/logbook.js:38 | Starting a fetch turns `loading` on and issues the call with the given arguments. |
| LogbookView.Logbook.ApplyResponse | elogy/frontend/src/logbook.js:43-51 | `loading` turns off. A truthy offset appends the new entries after the old ones and keeps `logbook` and `count`. Otherwise `logbook`, `entries` and `count` are replaced by the response's. |
| LogbookView.Logbook.Mount | elogy/frontend/src/logbook.js:55-59 | The first fetch uses the route's id and search, the current filters, and no offset or page size. |
| LogbookView.Logbook.WillUpdate | elogy/frontend/src/logbook.js:61-77 | It fetches exactly when the id or search changed (strict `!==`), the filter object was replaced, or a reload was requested. The fetch uses the new props and the pending filters. A different logbook id clears the filters. The filters keep distinct keys. |
| LogbookView.Logbook.Reload | elogy/frontend/src/logbook.js:89-95 | It fetches exactly when the notified id loosely equals the displayed logbook's id. Otherwise nothing changes. |
| LogbookView.Logbook.ChangeAttributeFilter | elogy/frontend/src/logbook.js:105-122 | Index 0 clears the attribute's filter: it becomes `undefined` and drops out of the request. Any other index sets it to the selected value. A new attribute is serialised last, and an attribute that has a key, even a cleared one, is serialised at its key's place. No other attribute's filter changes, keys stay distinct, and no attribute is sent twice. |
| LogbookView.Logbook.LoadMore | elogy/frontend/src/logbook.js:124-128 | "Load more" fetches with the number of entries shown as offset. |
| LogbookView.LoadMoreScenario | elogy/frontend/src/logbook.js:124-128 | After a 50-entry first page, "load more" asks for offset 50. A 20-entry answer leaves 70 entries under the same logbook. |

## Left out

- Rendering (elogy/frontend/src/logbook.js:133-204) is not modelled: the JSX markup, filter chips, selectors and the "Load more" label change no state.
- Setting `document.title` and scrolling the entry list (lines 97-103) are DOM side effects and are not modelled.
- The HTTP request and JSON decoding (lines 39-41) are left out. A request is its URL string. A response is a `Response` value of logbook metadata, entries and count.
- The event-system subscribe and unsubscribe calls (lines 79-87) are left out. Only the `reload` guard is modelled.
- `parseQuery` comes from `util.js`, which is not part of this model. What it returns for the search string is the `parsed` input of `Request.BuildRequest`.
- Overlapping asynchronous responses are not modelled.
- React's `setState` batching is not modelled. This includes `update(this.state, ...)` copying fields that may be stale at the time it runs.
- The update hook's `setState` runs straight away in the model.
- LogbookView.Logbook.WillUpdate: whether the filter object was replaced depends on object identity under immutability-helper. The model takes it as the input `filtersReplaced` instead of comparing objects.
- LogbookView.Logbook.WillUpdate: `location.state.reloadLogbook` is taken as a boolean.
- JsObjects.Keys: JavaScript lists integer-like keys before the others, in numeric order. The model keeps plain insertion order.
- JsValues.Truthy: values are `undefined`, integers and strings only. `null`, `NaN`, booleans and non-integral numbers are left out, and so are numbers of 1e21 or more, which JavaScript renders in exponent form.
- JsValues.StringToNumber: only the empty string and plain digit strings are numbers. `Number()` also accepts surrounding whitespace, signs, decimals, exponents and hex forms.
- A JSON body may carry more fields than `logbook`, `entries` and `count`. The model keeps only those three, which are the state fields of the view.
- Everything in elogy/app.py is server configuration and I/O, and is not modelled.
