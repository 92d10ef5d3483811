/** The request that `Logbook.fetch` issues: the URL query merged with the
    paging parameters, followed by one `attribute=<name>:<value>` term per
    selected attribute filter, under the entries path of the logbook. */
module Request {
  import opened JsValues
  import opened JsObjects

  /** Page size used when neither the caller nor the URL gives one. */
  const DefaultPageSize: nat := 50

  /** `search ? parseQuery(search) : {}`, where `parsed` stands for what
      `parseQuery(search)` returns. The result is a proper object whenever
      the parser's is; what it reads is `UrlQueryReads`. */
  function UrlQuery(search: string, parsed: Object): (url: Object)
    ensures Keys(url) == if search == "" then [] else Keys(parsed)
    ensures DistinctKeys(parsed) ==> DistinctKeys(url)
  {
    if search == "" then [] else parsed
  }

  /** With no search string every URL parameter reads as `undefined`;
      otherwise each reads as the parser gave it. */
  lemma UrlQueryReads(search: string, parsed: Object, k: string)
    ensures Get(UrlQuery(search, parsed), k) == if search == "" then Undefined else Get(parsed, k)
  {
  }

  /** The query object after `n` and `offset` have been assigned. */
  function PagedQuery(search: string, parsed: Object, offset: JsVal, n: JsVal): (q: Object)
    ensures Get(q, "n") ==
      if Truthy(n) then n
      else if Truthy(Get(UrlQuery(search, parsed), "n")) then Get(UrlQuery(search, parsed), "n")
      else Num(DefaultPageSize)
    ensures Get(q, "offset") == if Truthy(offset) then offset else Num(0)
    ensures forall k :: k != "n" && k != "offset" ==> Get(q, k) == Get(UrlQuery(search, parsed), k)
    ensures Keys(q) == Keys(UrlQuery(search, parsed))
                       + (if "n" in Keys(UrlQuery(search, parsed)) then [] else ["n"])
                       + (if "offset" in Keys(UrlQuery(search, parsed)) then [] else ["offset"])
  {
    var url := UrlQuery(search, parsed);
    var sized := Put(url, "n", Or(n, Or(Get(url, "n"), Num(DefaultPageSize))));
    var q := Put(sized, "offset", Or(offset, Num(0)));
    assert "n" != "offset" by { assert |"n"| != |"offset"|; }
    assert "offset" in Keys(sized) <==> "offset" in Keys(url);
    q
  }

  /** Assigning the paging parameters keeps the query a proper object. */
  lemma PagedQueryKeysDistinct(search: string, parsed: Object, offset: JsVal, n: JsVal)
    requires DistinctKeys(parsed)
    ensures DistinctKeys(PagedQuery(search, parsed, offset, n))
  {
    var url := UrlQuery(search, parsed);
    var sized := Put(url, "n", Or(n, Or(Get(url, "n"), Num(DefaultPageSize))));
    PutKeepsKeysDistinct(url, "n", Or(n, Or(Get(url, "n"), Num(DefaultPageSize))));
    PutKeepsKeysDistinct(sized, "offset", Or(offset, Num(0)));
  }

  function QueryTerm(key: string, value: JsVal): string {
    key + "=" + ToStr(value)
  }

  /** `ks.map(key => `${key}=${q[key]}`)`. */
  function QueryTermsOf(q: Object, ks: seq<string>): (ts: seq<string>)
    ensures |ts| == |ks|
    ensures forall i :: 0 <= i < |ks| ==> ts[i] == QueryTerm(ks[i], Get(q, ks[i]))
  {
    if ks == [] then [] else [QueryTerm(ks[0], Get(q, ks[0]))] + QueryTermsOf(q, ks[1..])
  }

  /** One `key=value` term per property of the query, in key order: every
      property gives its term. */
  function QueryTerms(q: Object): (ts: seq<string>)
    ensures |ts| == |q|
    ensures forall k :: k in Keys(q) ==> QueryTerm(k, Get(q, k)) in ts
  {
    var ks, ts := Keys(q), QueryTermsOf(q, Keys(q));
    assert forall k :: k in ks ==> QueryTerm(k, Get(q, k)) in ts by {
      forall k | k in ks ensures QueryTerm(k, Get(q, k)) in ts {
        var i :| 0 <= i < |ks| && ks[i] == k;
        assert ts[i] == QueryTerm(k, Get(q, k));
      }
    }
    ts
  }

  /** The keys among `ks` whose value in `f` is truthy, in the order of `ks`. */
  function TruthyKeys(f: Object, ks: seq<string>): (r: seq<string>)
    ensures forall k :: k in r <==> k in ks && Truthy(Get(f, k))
    ensures |r| <= |ks|
  {
    if ks == [] then []
    else (if Truthy(Get(f, ks[0])) then [ks[0]] else []) + TruthyKeys(f, ks[1..])
  }

  /** `Object.keys(attributeFilters).filter(key => attributeFilters[key])`:
      the attributes whose filter is set to a truthy value. */
  function ActiveFilters(f: Object): (r: seq<string>)
    ensures forall k :: k in r <==> Truthy(Get(f, k))
    ensures |r| <= |f|
  {
    TruthyKeys(f, Keys(f))
  }

  function AttributeTerm(key: string, value: JsVal): string {
    "attribute=" + key + ":" + ToStr(value)
  }

  /** `ks.map(key => `attribute=${key}:${f[key]}`)`. */
  function AttributeTermsOf(f: Object, ks: seq<string>): (ts: seq<string>)
    ensures |ts| == |ks|
    ensures forall i :: 0 <= i < |ks| ==> ts[i] == AttributeTerm(ks[i], Get(f, ks[i]))
  {
    if ks == [] then [] else [AttributeTerm(ks[0], Get(f, ks[0]))] + AttributeTermsOf(f, ks[1..])
  }

  lemma SetFilterHasTerm(f: Object, k: string)
    requires Truthy(Get(f, k))
    ensures AttributeTerm(k, Get(f, k)) in AttributeTermsOf(f, ActiveFilters(f))
  {
    var ks := ActiveFilters(f);
    var i :| 0 <= i < |ks| && ks[i] == k;
    assert AttributeTermsOf(f, ks)[i] == AttributeTerm(k, Get(f, k));
  }

  /** One term per active attribute filter, in key order: every set filter
      gives `attribute=<name>:<value>`; that every term comes from a set
      filter is `AttributeTermFromSetFilter`. */
  function AttributeTerms(f: Object): (ts: seq<string>)
    ensures |ts| == |ActiveFilters(f)|
    ensures forall k :: Truthy(Get(f, k)) ==> AttributeTerm(k, Get(f, k)) in ts
  {
    var ts := AttributeTermsOf(f, ActiveFilters(f));
    assert forall k :: Truthy(Get(f, k)) ==> AttributeTerm(k, Get(f, k)) in ts by {
      forall k | Truthy(Get(f, k)) ensures AttributeTerm(k, Get(f, k)) in ts {
        SetFilterHasTerm(f, k);
      }
    }
    ts
  }

  /** Every attribute term of the request comes from a set filter. */
  lemma AttributeTermFromSetFilter(f: Object, t: string)
    requires t in AttributeTerms(f)
    ensures exists k :: Truthy(Get(f, k)) && t == AttributeTerm(k, Get(f, k))
  {
    var ks, ts := ActiveFilters(f), AttributeTerms(f);
    var i :| 0 <= i < |ts| && ts[i] == t;
    assert ks[i] in ks;
    assert Truthy(Get(f, ks[i])) && t == AttributeTerm(ks[i], Get(f, ks[i]));
  }

  /** `t` occurs in `s` as a contiguous piece. */
  predicate Infix(t: string, s: string) {
    exists i :: 0 <= i <= |s| && t <= s[i..]
  }

  lemma InfixSelf(t: string)
    ensures Infix(t, t)
  {
    assert t[0..] == t;
  }

  lemma InfixLeft(t: string, a: string, b: string)
    requires Infix(t, a)
    ensures Infix(t, a + b)
  {
    var i :| 0 <= i <= |a| && t <= a[i..];
    assert (a + b)[i..] == a[i..] + b;
  }

  lemma InfixRight(t: string, a: string, b: string)
    requires Infix(t, b)
    ensures Infix(t, a + b)
  {
    var i :| 0 <= i <= |b| && t <= b[i..];
    assert (a + b)[|a| + i..] == b[i..];
  }

  /** `xs.join(sep)`. */
  function Join(xs: seq<string>, sep: string): string {
    if xs == [] then ""
    else if |xs| == 1 then xs[0]
    else xs[0] + sep + Join(xs[1..], sep)
  }

  /** Every element of a list occurs in the list joined with any separator. */
  lemma {:induction false} JoinHasTerm(xs: seq<string>, sep: string, i: nat)
    requires i < |xs|
    ensures Infix(xs[i], Join(xs, sep))
  {
    if |xs| == 1 {
      InfixSelf(xs[0]);
    } else if i == 0 {
      InfixSelf(xs[0]);
      InfixLeft(xs[0], xs[0], sep + Join(xs[1..], sep));
      assert xs[0] + (sep + Join(xs[1..], sep)) == Join(xs, sep);
    } else {
      JoinHasTerm(xs[1..], sep, i - 1);
      InfixRight(xs[i], xs[0] + sep, Join(xs[1..], sep));
    }
  }

  /** `newSearch`: the query terms, a mandatory `&`, then the attribute terms. */
  function QueryString(search: string, parsed: Object, f: Object, offset: JsVal, n: JsVal): (s: string)
    ensures |s| > 0
    ensures ActiveFilters(f) == [] ==> LastChar(s) == Some('&')
  {
    Join(QueryTerms(PagedQuery(search, parsed, offset, n)), "&") + "&" + Join(AttributeTerms(f), "&")
  }

  /** An element of either list occurs in the two lists joined around `&`. */
  lemma JoinedHalvesCarry(t: string, xs: seq<string>, ys: seq<string>)
    requires t in xs || t in ys
    ensures Infix(t, Join(xs, "&") + "&" + Join(ys, "&"))
  {
    var left, right := Join(xs, "&"), Join(ys, "&");
    if t in xs {
      var i :| 0 <= i < |xs| && xs[i] == t;
      JoinHasTerm(xs, "&", i);
      InfixLeft(t, left, "&");
      InfixLeft(t, left + "&", right);
    } else {
      var i :| 0 <= i < |ys| && ys[i] == t;
      JoinHasTerm(ys, "&", i);
      InfixRight(t, left + "&", right);
    }
  }

  /** Every query term and every attribute term occurs in the query string. */
  lemma QueryStringCarriesTerm(search: string, parsed: Object, f: Object, offset: JsVal, n: JsVal,
                               t: string)
    requires t in QueryTerms(PagedQuery(search, parsed, offset, n)) || t in AttributeTerms(f)
    ensures Infix(t, QueryString(search, parsed, f, offset, n))
  {
    JoinedHalvesCarry(t, QueryTerms(PagedQuery(search, parsed, offset, n)), AttributeTerms(f));
  }

  /** The entries path of a logbook; 0 stands for all logbooks. */
  function EntriesPath(logbookId: JsVal): (p: string)
    ensures Truthy(logbookId) ==> p == "/api/logbooks/" + ToStr(logbookId) + "/entries/?"
    ensures !Truthy(logbookId) ==> p == "/api/logbooks/0/entries/?"
  {
    var id := Or(logbookId, Num(0));
    assert !Truthy(logbookId) ==> ToStr(id) == "0" by {
      assert NatToDecimal(0) == "0";
    }
    "/api/logbooks/" + ToStr(id) + "/entries/?"
  }

  /** The last character of a string, if any. */
  function LastChar(s: string): Option<char> {
    if s == [] then None else Some(s[|s| - 1])
  }

  lemma ConcatKeepsEnds(a: string, b: string)
    requires |b| > 0
    ensures a < a + b && LastChar(a + b) == LastChar(b)
  {
    assert (a + b)[..|a|] == a;
  }

  /** The URL that `fetch(logbookId, search, attributeFilters, offset, n)`
      requests: the entries path of the logbook followed by the query
      string, which is never empty, so `newSearch || ""` is `newSearch`
      itself. Without attribute filters the URL ends in the `&` that joins
      the two halves of the query. */
  function BuildRequest(logbookId: JsVal, search: string, parsed: Object, f: Object,
                        offset: JsVal, n: JsVal): (r: string)
    ensures EntriesPath(logbookId) < r
    ensures ActiveFilters(f) == [] ==> LastChar(r) == Some('&')
  {
    var path, query := EntriesPath(logbookId), QueryString(search, parsed, f, offset, n);
    ConcatKeepsEnds(path, query);
    path + query
  }
}
