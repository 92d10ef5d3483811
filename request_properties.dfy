/** What the request built by `Logbook.fetch` carries: the paging values, the
    attribute filters in key order, and how a filter change shows up in it. */
module RequestProperties {
  import opened JsValues
  import opened JsObjects
  import opened Request

  /** Filtering a concatenation of key lists filters each part in turn, so
      keys keep their relative order. */
  lemma {:induction false} TruthyKeysAppend(f: Object, ks1: seq<string>, ks2: seq<string>)
    ensures TruthyKeys(f, ks1 + ks2) == TruthyKeys(f, ks1) + TruthyKeys(f, ks2)
  {
    if ks1 == [] {
      assert ks1 + ks2 == ks2;
    } else {
      var head := if Truthy(Get(f, ks1[0])) then [ks1[0]] else [];
      assert (ks1 + ks2)[0] == ks1[0];
      assert (ks1 + ks2)[1..] == ks1[1..] + ks2;
      TruthyKeysAppend(f, ks1[1..], ks2);
      calc {
        TruthyKeys(f, ks1 + ks2);
        head + TruthyKeys(f, ks1[1..] + ks2);
        head + (TruthyKeys(f, ks1[1..]) + TruthyKeys(f, ks2));
        (head + TruthyKeys(f, ks1[1..])) + TruthyKeys(f, ks2);
      }
    }
  }

  /** Attribute terms follow the key order of the filter object: the active
      filters among the first `j` keys come before all the others. */
  lemma ActiveFiltersInKeyOrder(f: Object, j: nat)
    requires j <= |f|
    ensures ActiveFilters(f) == TruthyKeys(f, Keys(f)[..j]) + TruthyKeys(f, Keys(f)[j..])
  {
    var ks := Keys(f);
    assert ks == ks[..j] + ks[j..];
    TruthyKeysAppend(f, ks[..j], ks[j..]);
  }

  /** Two filter objects that agree on which keys are set select the same
      keys from any key list. */
  lemma {:induction false} TruthyKeysAgree(f: Object, g: Object, ks: seq<string>)
    requires forall k :: k in ks ==> (Truthy(Get(f, k)) <==> Truthy(Get(g, k)))
    ensures TruthyKeys(f, ks) == TruthyKeys(g, ks)
  {
    if ks != [] {
      TruthyKeysAgree(f, g, ks[1..]);
    }
  }

  /** `ks` with every occurrence of `k` removed. */
  function Without(ks: seq<string>, k: string): (r: seq<string>)
    ensures forall x :: x in r <==> x in ks && x != k
  {
    if ks == [] then []
    else (if ks[0] == k then [] else [ks[0]]) + Without(ks[1..], k)
  }

  lemma {:induction false} TruthyKeysCleared(f: Object, k: string, ks: seq<string>)
    ensures TruthyKeys(Put(f, k, Undefined), ks) == Without(TruthyKeys(f, ks), k)
  {
    if ks != [] {
      TruthyKeysCleared(f, k, ks[1..]);
      var g := Put(f, k, Undefined);
      var head := if Truthy(Get(f, ks[0])) then [ks[0]] else [];
      assert TruthyKeys(f, ks) == head + TruthyKeys(f, ks[1..]);
      WithoutAppend(head, TruthyKeys(f, ks[1..]), k);
    }
  }

  lemma {:induction false} WithoutAppend(a: seq<string>, b: seq<string>, k: string)
    ensures Without(a + b, k) == Without(a, k) + Without(b, k)
  {
    if a == [] {
      assert a + b == b;
    } else {
      var head := if a[0] == k then [] else [a[0]];
      assert (a + b)[0] == a[0];
      assert (a + b)[1..] == a[1..] + b;
      WithoutAppend(a[1..], b, k);
      calc {
        Without(a + b, k);
        head + Without(a[1..] + b, k);
        head + (Without(a[1..], k) + Without(b, k));
        (head + Without(a[1..], k)) + Without(b, k);
      }
    }
  }

  /** Clearing a filter (selector index 0) removes exactly that attribute's
      term; the other terms keep their order. */
  lemma ClearedFilterDropsOut(f: Object, k: string)
    ensures ActiveFilters(Put(f, k, Undefined)) == Without(ActiveFilters(f), k)
  {
    var g := Put(f, k, Undefined);
    TruthyKeysCleared(f, k, Keys(f));
    if k !in Keys(f) {
      TruthyKeysAppend(g, Keys(f), [k]);
      assert TruthyKeys(g, [k]) == [];
    }
  }

  /** Giving an attribute a new truthy value: an attribute already present
      keeps its place in the request, a new one is serialised last. */
  lemma SetFilterPosition(f: Object, k: string, v: JsVal)
    requires Truthy(v)
    ensures k in Keys(f) && Truthy(Get(f, k)) ==> ActiveFilters(Put(f, k, v)) == ActiveFilters(f)
    ensures k !in Keys(f) ==> ActiveFilters(Put(f, k, v)) == ActiveFilters(f) + [k]
  {
    var g := Put(f, k, v);
    if k in Keys(f) && Truthy(Get(f, k)) {
      TruthyKeysAgree(f, g, Keys(f));
    } else if k !in Keys(f) {
      TruthyKeysAgree(f, g, Keys(f));
      TruthyKeysAppend(g, Keys(f), [k]);
      assert TruthyKeys(g, [k]) == [k];
    }
  }

  /** In a list without duplicates an element occurs only at its own place. */
  lemma OnlyAtItsPlace(ks: seq<string>, i: nat)
    requires NoDuplicates(ks) && i < |ks|
    ensures ks[i] !in ks[..i] && ks[i] !in ks[i + 1..]
    ensures ks == ks[..i] + ([ks[i]] + ks[i + 1..])
  {
    forall j | 0 <= j < i ensures ks[..i][j] != ks[i] {
      assert ks[j] != ks[i];
    }
    var post := ks[i + 1..];
    forall j | 0 <= j < |post| ensures post[j] != ks[i] {
      assert ks[i] != ks[i + 1 + j];
    }
  }

  /** Assigning a key changes no selection among the other keys. */
  lemma PutElsewhere(f: Object, k: string, v: JsVal, ks: seq<string>)
    requires k !in ks
    ensures TruthyKeys(Put(f, k, v), ks) == TruthyKeys(f, ks)
  {
    TruthyKeysAgree(f, Put(f, k, v), ks);
  }

  lemma SelectedBetween(g: Object, k: string, pre: seq<string>, post: seq<string>)
    requires Keys(g) == pre + ([k] + post) && Truthy(Get(g, k))
    ensures ActiveFilters(g) == TruthyKeys(g, pre) + ([k] + TruthyKeys(g, post))
  {
    TruthyKeysAppend(g, pre, [k] + post);
    TruthyKeysAppend(g, [k], post);
    assert TruthyKeys(g, [k]) == [k];
  }

  /** Setting an attribute that has a key, cleared or not, to a truthy value
      selects it in its own place: a cleared attribute keeps its key, so it
      comes back where it was rather than last. */
  lemma SetFilterKeepsPlace(f: Object, k: string, v: JsVal, i: nat)
    requires DistinctKeys(f) && i < |f| && Keys(f)[i] == k && Truthy(v)
    ensures ActiveFilters(Put(f, k, v))
         == TruthyKeys(f, Keys(f)[..i]) + [k] + TruthyKeys(f, Keys(f)[i + 1..])
  {
    var ks := Keys(f);
    OnlyAtItsPlace(ks, i);
    var pre, post := ks[..i], ks[i + 1..];
    SelectedBetween(Put(f, k, v), k, pre, post);
    PutElsewhere(f, k, v, pre);
    PutElsewhere(f, k, v, post);
  }

  /** Filtering a list without duplicates gives a list without duplicates. */
  lemma {:induction false} TruthyKeysNoDuplicates(f: Object, ks: seq<string>)
    requires NoDuplicates(ks)
    ensures NoDuplicates(TruthyKeys(f, ks))
  {
    if ks != [] {
      assert NoDuplicates(ks[1..]) by {
        forall i, j | 0 <= i < j < |ks[1..]| ensures ks[1..][i] != ks[1..][j] {
          assert ks[i + 1] != ks[j + 1];
        }
      }
      TruthyKeysNoDuplicates(f, ks[1..]);
      assert ks[0] !in ks[1..] by {
        forall j | 0 <= j < |ks[1..]| ensures ks[1..][j] != ks[0] {
          assert ks[0] != ks[j + 1];
        }
      }
      var rest := TruthyKeys(f, ks[1..]);
      assert ks[0] !in rest;
    }
  }

  /** Each attribute is sent at most once. */
  lemma ActiveFiltersDistinct(f: Object)
    requires DistinctKeys(f)
    ensures NoDuplicates(ActiveFilters(f))
  {
    TruthyKeysNoDuplicates(f, Keys(f));
  }

  /** A piece of the query string is a piece of the URL. */
  lemma InRequest(logbookId: JsVal, search: string, parsed: Object, f: Object,
                  offset: JsVal, n: JsVal, t: string)
    requires Infix(t, QueryString(search, parsed, f, offset, n))
    ensures Infix(t, BuildRequest(logbookId, search, parsed, f, offset, n))
  {
    InfixRight(t, EntriesPath(logbookId), QueryString(search, parsed, f, offset, n));
  }

  /** The URL always carries the page size term and the offset term, with
      the values the paging rules give them. */
  lemma RequestCarriesPaging(logbookId: JsVal, search: string, parsed: Object, f: Object,
                             offset: JsVal, n: JsVal)
    ensures Infix(QueryTerm("n", Or(n, Or(Get(UrlQuery(search, parsed), "n"), Num(DefaultPageSize)))),
                  BuildRequest(logbookId, search, parsed, f, offset, n))
    ensures Infix(QueryTerm("offset", Or(offset, Num(0))),
                  BuildRequest(logbookId, search, parsed, f, offset, n))
  {
    var q := PagedQuery(search, parsed, offset, n);
    assert "n" in Keys(q) && "offset" in Keys(q);
    var sizeTerm := QueryTerm("n", Get(q, "n"));
    var offsetTerm := QueryTerm("offset", Get(q, "offset"));
    QueryStringCarriesTerm(search, parsed, f, offset, n, sizeTerm);
    QueryStringCarriesTerm(search, parsed, f, offset, n, offsetTerm);
    InRequest(logbookId, search, parsed, f, offset, n, sizeTerm);
    InRequest(logbookId, search, parsed, f, offset, n, offsetTerm);
  }

  /** Every other parameter of the browser URL is passed on unchanged. */
  lemma RequestCarriesUrlParameter(logbookId: JsVal, search: string, parsed: Object, f: Object,
                                   offset: JsVal, n: JsVal, k: string)
    requires k in Keys(UrlQuery(search, parsed)) && k != "n" && k != "offset"
    ensures Infix(QueryTerm(k, Get(UrlQuery(search, parsed), k)),
                  BuildRequest(logbookId, search, parsed, f, offset, n))
  {
    var q := PagedQuery(search, parsed, offset, n);
    assert k in Keys(q);
    var t := QueryTerm(k, Get(q, k));
    QueryStringCarriesTerm(search, parsed, f, offset, n, t);
    InRequest(logbookId, search, parsed, f, offset, n, t);
  }

  /** Every set filter appears in the URL as `attribute=<name>:<value>`. */
  lemma SetFilterIsSerialised(logbookId: JsVal, search: string, parsed: Object, f: Object,
                              offset: JsVal, n: JsVal, k: string)
    requires Truthy(Get(f, k))
    ensures Infix(AttributeTerm(k, Get(f, k)), BuildRequest(logbookId, search, parsed, f, offset, n))
  {
    var t := AttributeTerm(k, Get(f, k));
    QueryStringCarriesTerm(search, parsed, f, offset, n, t);
    InRequest(logbookId, search, parsed, f, offset, n, t);
  }

  /** A falsy offset requests the same URL as no offset at all. */
  lemma FalsyOffsetIsFreshLoad(logbookId: JsVal, search: string, parsed: Object,
                               f: Object, offset: JsVal, n: JsVal)
    requires !Truthy(offset)
    ensures BuildRequest(logbookId, search, parsed, f, offset, n)
         == BuildRequest(logbookId, search, parsed, f, Undefined, n)
  {
  }

  /** Load-more on an empty list requests the same URL as a fresh load. */
  lemma LoadMoreFromEmptyIsFreshLoad(logbookId: JsVal, search: string, parsed: Object,
                                     f: Object, n: JsVal)
    ensures !Truthy(Num(0))
    ensures BuildRequest(logbookId, search, parsed, f, Num(0), n)
         == BuildRequest(logbookId, search, parsed, f, Undefined, n)
  {
    FalsyOffsetIsFreshLoad(logbookId, search, parsed, f, Num(0), n);
  }
}
