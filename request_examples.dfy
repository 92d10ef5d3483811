/** Two requests worked out in full: a fresh load of logbook 5 searching for
    a title, and two different filter settings that the builder cannot tell
    apart because it does not escape values. The inputs are parameters pinned
    by `requires`, which keeps each proof step small. */
module RequestExamples {
  import opened JsValues
  import opened JsObjects
  import opened Request

  lemma ExamplePagedQuery(search: string, parsed: Object)
    requires search == "?title=test" && parsed == [Prop("title", Str("test"))]
    ensures PagedQuery(search, parsed, Undefined, Undefined)
         == [Prop("title", Str("test")), Prop("n", Num(50)), Prop("offset", Num(0))]
  {
    assert "title" != "n" && "title" != "offset" && "n" != "offset" by {
      assert |"title"| != |"n"| && |"title"| != |"offset"| && |"n"| != |"offset"|;
    }
    assert UrlQuery(search, parsed) == parsed;
    assert Get(parsed, "n") == Undefined by {
      assert Get(parsed[1..], "n") == Undefined;
    }
    var sized := Put(parsed, "n", Num(50));
    assert sized == [parsed[0]] + Put(parsed[1..], "n", Num(50));
    var tail := [Prop("n", Num(50))];
    assert sized == [Prop("title", Str("test"))] + tail;
    assert Put(tail, "offset", Num(0)) == tail + [Prop("offset", Num(0))] by {
      assert Put(tail[1..], "offset", Num(0)) == [Prop("offset", Num(0))];
    }
    assert sized[1..] == tail;
    assert Put(sized, "offset", Num(0)) == [sized[0]] + Put(tail, "offset", Num(0));
  }

  lemma ExampleQueryTerms(q: Object)
    requires q == [Prop("title", Str("test")), Prop("n", Num(50)), Prop("offset", Num(0))]
    ensures QueryTerms(q) == ["title=test", "n=50", "offset=0"]
  {
    assert "title" != "n" && "title" != "offset" && "n" != "offset" by {
      assert |"title"| != |"n"| && |"title"| != |"offset"| && |"n"| != |"offset"|;
    }
    assert Keys(q[2..]) == ["offset"];
    assert Keys(q[1..]) == ["n", "offset"];
    assert Keys(q) == ["title", "n", "offset"];
    assert Get(q, "title") == Str("test");
    assert Get(q, "n") == Num(50);
    assert Get(q[1..][1..], "offset") == Num(0);
    assert Get(q[1..], "offset") == Num(0);
    assert Get(q, "offset") == Num(0);
    RenderedTerms();
  }

  lemma RenderedTerms()
    ensures QueryTerm("title", Str("test")) == "title=test"
    ensures QueryTerm("n", Num(50)) == "n=50"
    ensures QueryTerm("offset", Num(0)) == "offset=0"
  {
    assert NatToDecimal(50) == "50" by {
      assert NatToDecimal(5) == "5";
      assert NatToDecimal(50) == NatToDecimal(5) + [DigitChar(0)];
    }
    assert NatToDecimal(0) == "0";
  }

  lemma ExampleJoin(ts: seq<string>)
    requires ts == ["title=test", "n=50", "offset=0"]
    ensures Join(ts, "&") + "&" + Join([], "&") == "title=test&n=50&offset=0&"
  {
    assert ts[1..] == ["n=50", "offset=0"];
    assert ts[1..][1..] == ["offset=0"];
    assert Join(ts[1..][1..], "&") == "offset=0";
    assert Join(ts[1..], "&") == "n=50" + "&" + "offset=0";
    assert Join(ts, "&") == "title=test" + "&" + ("n=50" + "&" + "offset=0");
    assert Join([], "&") == "";
  }

  lemma ExampleQueryString(search: string, parsed: Object)
    requires search == "?title=test" && parsed == [Prop("title", Str("test"))]
    ensures QueryString(search, parsed, [], Undefined, Undefined) == "title=test&n=50&offset=0&"
  {
    ExamplePagedQuery(search, parsed);
    ExampleQueryTerms(PagedQuery(search, parsed, Undefined, Undefined));
    assert AttributeTerms([]) == [];
    ExampleJoin(QueryTerms(PagedQuery(search, parsed, Undefined, Undefined)));
  }

  lemma ExampleEntriesPath(logbookId: JsVal)
    requires logbookId == Str("5")
    ensures EntriesPath(logbookId) == "/api/logbooks/5/entries/?"
  {
  }

  lemma ExamplePath(a: string, b: string)
    requires a == "/api/logbooks/5/entries/?"
    requires b == "title=test&n=50&offset=0&"
    ensures a + b == "/api/logbooks/5/entries/?title=test&n=50&offset=0&"
  {
  }

  /** Logbook 5, search `?title=test`, no attribute filters: the page size
      defaults to 50 and the offset to 0, and the query ends in the
      mandatory `&`. */
  lemma FreshLoadExample(logbookId: JsVal, search: string, parsed: Object)
    requires logbookId == Str("5") && search == "?title=test" && parsed == [Prop("title", Str("test"))]
    ensures BuildRequest(logbookId, search, parsed, [], Undefined, Undefined)
         == "/api/logbooks/5/entries/?title=test&n=50&offset=0&"
  {
    ExampleEntriesPath(logbookId);
    ExampleQueryString(search, parsed);
    ExamplePath(EntriesPath(logbookId), QueryString(search, parsed, [], Undefined, Undefined));
  }

  lemma RenderedAttributeTerms()
    ensures AttributeTerm("a", Str("x&attribute=b:y")) == "attribute=a:x&attribute=b:y"
    ensures AttributeTerm("a", Str("x")) == "attribute=a:x"
    ensures AttributeTerm("b", Str("y")) == "attribute=b:y"
  {
  }

  lemma OneFilterJoined(one: Object)
    requires one == [Prop("a", Str("x&attribute=b:y"))]
    ensures Join(AttributeTerms(one), "&") == "attribute=a:x&attribute=b:y"
  {
    RenderedAttributeTerms();
    assert Keys(one) == ["a"];
    assert ActiveFilters(one) == ["a"];
    assert AttributeTerms(one) == ["attribute=a:x&attribute=b:y"];
  }

  lemma TwoFiltersActive(two: Object)
    requires two == [Prop("a", Str("x")), Prop("b", Str("y"))]
    ensures ActiveFilters(two) == ["a", "b"]
    ensures Get(two, "a") == Str("x") && Get(two, "b") == Str("y")
  {
    assert "a" != "b";
    assert Keys(two[1..]) == ["b"];
    assert Keys(two) == ["a", "b"];
    assert Get(two[1..], "b") == Str("y");
    assert TruthyKeys(two, ["b"]) == ["b"];
  }

  lemma TwoTermsJoined(ts: seq<string>)
    requires ts == ["attribute=a:x", "attribute=b:y"]
    ensures Join(ts, "&") == "attribute=a:x&attribute=b:y"
  {
    assert ts[1..] == ["attribute=b:y"];
  }

  lemma TwoFiltersJoined(two: Object)
    requires two == [Prop("a", Str("x")), Prop("b", Str("y"))]
    ensures Join(AttributeTerms(two), "&") == "attribute=a:x&attribute=b:y"
  {
    TwoFiltersActive(two);
    RenderedAttributeTerms();
    TwoTermsJoined(AttributeTerms(two));
  }

  /** Filter values go into the request unescaped: a value holding `&`
      yields the same request as two separate filters. */
  lemma UnescapedValuesCollide(logbookId: JsVal, search: string, parsed: Object,
                               one: Object, two: Object, offset: JsVal, n: JsVal)
    requires one == [Prop("a", Str("x&attribute=b:y"))]
    requires two == [Prop("a", Str("x")), Prop("b", Str("y"))]
    ensures one != two
    ensures BuildRequest(logbookId, search, parsed, one, offset, n)
         == BuildRequest(logbookId, search, parsed, two, offset, n)
  {
    assert |one| != |two|;
    OneFilterJoined(one);
    TwoFiltersJoined(two);
  }
}
