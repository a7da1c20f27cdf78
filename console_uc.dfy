/** request/meli/user_controls/console_uc.py: the query string built from the marked
    filters, and the search URL `user_request` assembles from the keyword, the filter
    dialogue and the settings. */
module ConsoleControl {
  import opened Common
  import opened HttpRequest
  import opened FilterSelection
  import opened Settings

  /** The ids of the marked options, in their original order. */
  function SelectedIds(values: seq<FilterOption>): (r: seq<string>)
    ensures |r| <= |values|
    ensures r == [] <==> forall j :: 0 <= j < |values| ==> !values[j].selected
  {
    if values == [] then []
    else
      var last := values[|values| - 1];
      SelectedIds(values[..|values| - 1]) + (if last.selected then [last.id] else [])
  }

  /** What a filter with marked options adds: its id, `=`, and the marked option ids
      joined by commas. */
  function Contribution(f: FilterAttr): string
  {
    f.id + "=" + Join(",", SelectedIds(f.values))
  }

  /** One pass of the loop of `generate_query`: a filter with no marked option adds
      nothing; otherwise `&` is added first unless the query built so far ends in `?`. */
  function QueryStep(query: string, f: FilterAttr): (r: string)
    requires query != []
    ensures r != [] && r[0] == query[0]
  {
    if SelectedIds(f.values) == [] then query
    else (if query[|query| - 1] != '?' then query + "&" else query) + Contribution(f)
  }

  /** The query `generate_query` builds from these filters. */
  function QueryOf(filters: seq<FilterAttr>): (q: string)
    ensures q != [] && q[0] == '?'
  {
    if filters == [] then "?" else QueryStep(QueryOf(filters[..|filters| - 1]), filters[|filters| - 1])
  }

  /** `generate_query(filters)`. */
  method GenerateQuery(filters: seq<FilterAttr>) returns (query: string)
    ensures query == QueryOf(filters)
  {
    query := "?";
    for i := 0 to |filters|
      invariant query == QueryOf(filters[..i])
    {
      ghost var prev := query;
      var f := filters[i];
      var selectedIds := SelectedIds(f.values);
      if selectedIds != [] {
        if query[|query| - 1] != '?' {
          query := query + "&";
        }
        ghost var sep := query;
        query := query + f.id + "=";
        query := query + Join(",", selectedIds);
        assert query == sep + Contribution(f);
      }
      assert query == QueryStep(prev, f);
      assert filters[..i + 1][..i] == filters[..i];
    }
    assert filters[..|filters|] == filters;
  }

  // ---- the reference the query is meant to be ----

  /** The contributions of the filters that have marked options, in filter order. */
  function Contributions(filters: seq<FilterAttr>): (r: seq<string>)
    ensures |r| <= |filters|
  {
    if filters == [] then []
    else
      var last := filters[|filters| - 1];
      Contributions(filters[..|filters| - 1]) + (if SelectedIds(last.values) == [] then [] else [Contribution(last)])
  }

  /** The intended query: `?` and the contributions separated by `&`. */
  function IntendedQuery(filters: seq<FilterAttr>): string
  {
    "?" + Join("&", Contributions(filters))
  }

  /** No contribution ends in `?`, as holds unless an option id ends in `?`. */
  predicate NoTrailingQuestionMark(filters: seq<FilterAttr>)
  {
    forall c :: c in Contributions(filters) ==> c != [] && c[|c| - 1] != '?'
  }

  lemma ContributionNonEmpty(f: FilterAttr)
    ensures |Contribution(f)| > 0
  {
  }

  /** The query is exactly `?` when no filter has a marked option, and longer otherwise. */
  lemma {:induction false} BareQueryIffNothingMarked(filters: seq<FilterAttr>)
    ensures QueryOf(filters) == "?" <==> Contributions(filters) == []
    ensures |QueryOf(filters)| >= 1 + |Contributions(filters)|
  {
    if filters != [] {
      var init := filters[..|filters| - 1];
      var last := filters[|filters| - 1];
      BareQueryIffNothingMarked(init);
      if SelectedIds(last.values) != [] {
        ContributionNonEmpty(last);
      }
    }
  }

  /** The query ends in the last character of the last contribution. */
  lemma {:induction false} QueryEndsWithLastContribution(filters: seq<FilterAttr>)
    requires Contributions(filters) != []
    ensures var q := QueryOf(filters); var cs := Contributions(filters); var c := cs[|cs| - 1];
      c != [] && q[|q| - 1] == c[|c| - 1]
  {
    var init := filters[..|filters| - 1];
    var last := filters[|filters| - 1];
    ContributionNonEmpty(last);
    if SelectedIds(last.values) == [] {
      QueryEndsWithLastContribution(init);
    }
  }

  /** Each marked filter contributes `id=` and its marked option ids joined by `,`, in
      filter order, and `&` stands exactly between contributions. This holds unless some
      contribution itself ends in `?`. */
  lemma {:induction false} QueryIsIntended(filters: seq<FilterAttr>)
    requires NoTrailingQuestionMark(filters)
    ensures QueryOf(filters) == IntendedQuery(filters)
  {
    if filters != [] {
      var init := filters[..|filters| - 1];
      var last := filters[|filters| - 1];
      assert filters == init + [last];
      NoTrailingQuestionMarkInit(init, last);
      QueryIsIntended(init);
      if SelectedIds(last.values) != [] {
        AppendContribution(init, last);
      } else {
        SkipFilter(init, last);
      }
    } else {
      assert Contributions(filters) == [];
    }
  }

  /** A filter with no marked option changes neither the query nor the contributions. */
  lemma SkipFilter(init: seq<FilterAttr>, last: FilterAttr)
    requires SelectedIds(last.values) == []
    ensures QueryOf(init + [last]) == QueryOf(init)
    ensures Contributions(init + [last]) == Contributions(init)
  {
    assert (init + [last])[..|init|] == init;
  }

  /** Dropping the last filter keeps `NoTrailingQuestionMark`, and the last contribution
      of the rest does not end in `?`. */
  lemma NoTrailingQuestionMarkInit(init: seq<FilterAttr>, last: FilterAttr)
    requires NoTrailingQuestionMark(init + [last])
    ensures NoTrailingQuestionMark(init)
    ensures var cs := Contributions(init); cs != [] ==> cs[|cs| - 1] != [] && cs[|cs| - 1][|cs[|cs| - 1]| - 1] != '?'
  {
    var cs := Contributions(init);
    assert (init + [last])[..|init|] == init;
    assert forall c :: c in cs ==> c in Contributions(init + [last]);
    if cs != [] {
      assert cs[|cs| - 1] in cs;
    }
  }

  /** The step of `QueryIsIntended` for a last filter that has marked options. */
  lemma AppendContribution(init: seq<FilterAttr>, last: FilterAttr)
    requires QueryOf(init) == IntendedQuery(init)
    requires SelectedIds(last.values) != []
    requires var cs := Contributions(init); cs != [] ==> cs[|cs| - 1] != [] && cs[|cs| - 1][|cs[|cs| - 1]| - 1] != '?'
    ensures QueryOf(init + [last]) == IntendedQuery(init + [last])
  {
    var cs := Contributions(init);
    var c := Contribution(last);
    var q := QueryOf(init);
    assert (init + [last])[..|init|] == init;
    assert Contributions(init + [last]) == cs + [c];
    assert QueryOf(init + [last]) == QueryStep(q, last);
    JoinSnoc("&", cs, c);
    if cs != [] {
      assert q[|q| - 1] != '?' by {
        QueryEndsWithLastContribution(init);
      }
      ConcatRegroups("?", Join("&", cs), "&", c);
    } else {
      assert q == "?" by {
        BareQueryIffNothingMarked(init);
      }
    }
  }

  /** `(a + b + sep) + c` and `a + ((b + sep) + c)` are the same string. */
  lemma ConcatRegroups(a: string, b: string, sep: string, c: string)
    ensures a + b + sep + c == a + (b + sep + c)
  {
  }

  /** Two marked filters, the first with an option id ending in `?`. */
  function QuestionMarkExample(): seq<FilterAttr>
  {
    [FilterAttr("A", "a", [FilterOption("x?", "x", true)], false, true),
     FilterAttr("B", "b", [FilterOption("y", "y", true)], false, true)]
  }

  /** A marked option whose id ends in `?` makes the next contribution lose its `&`. */
  lemma QuestionMarkSwallowsSeparator()
    ensures QueryOf(QuestionMarkExample()) == "?A=x?B=y"
    ensures IntendedQuery(QuestionMarkExample()) == "?A=x?&B=y"
  {
    var fs := QuestionMarkExample();
    assert SelectedIds(fs[0].values) == ["x?"];
    assert SelectedIds(fs[1].values) == ["y"];
    var c0, c1 := Contribution(fs[0]), Contribution(fs[1]);
    assert c0 == "A=x?";
    assert c1 == "B=y";
    TwoMarkedFilters(fs);
    assert QueryOf(fs) == "?A=x?" + c1;
  }

  /** The query and the intended query of two filters that both have marked options. */
  lemma TwoMarkedFilters(fs: seq<FilterAttr>)
    requires |fs| == 2 && SelectedIds(fs[0].values) != [] && SelectedIds(fs[1].values) != []
    ensures QueryOf(fs) == QueryStep("?" + Contribution(fs[0]), fs[1])
    ensures IntendedQuery(fs) == "?" + (Contribution(fs[0]) + "&" + Contribution(fs[1]))
  {
    var first := fs[..1];
    assert first[..0] == [] && first[0] == fs[0];
    assert fs[..|fs| - 1] == first;
    assert QueryOf(first) == QueryStep(QueryOf([]), fs[0]);
    assert QueryStep("?", fs[0]) == "?" + Contribution(fs[0]);
    assert QueryOf(fs) == QueryStep(QueryOf(first), fs[1]);
    assert Contributions(first) == [Contribution(fs[0])];
    JoinSnoc("&", [Contribution(fs[0])], Contribution(fs[1]));
  }

  // ---- user_request ----

  /** The query part `user_request` adds for a keyword whose attributes are `attrs`: when
      the attributes are a non-empty list and the dialogue collected at least one filter,
      the query of all attributes after the dialogue; otherwise nothing. */
  function QueryPart(attrs: seq<FilterAttr>, lines: seq<string>): string
  {
    if |attrs| == 0 then ""
    else
      var o := ChooseLoop(attrs, lines);
      if o.rest.Some? && o.picked != [] then QueryOf(o.attrs) else ""
  }

  /** `user_request(request_settings)`, for one keyword. The first line read is the
      keyword: exactly `q` returns `(None, None)`; otherwise `attrs` is what `get_attrs`
      gives for it (null when it raised or found nothing), and the dialogue reads the
      lines after it. The settings URL is extended in place with the query part and
      `&q=` and the keyword, and then requested with the settings header. Any exception
      (the input running out, a failed GET) becomes SelectionError. The `while True` of
      the source never runs a second time: each pass returns or raises. */
  method UserRequest(settings: RequestSettings, input: seq<string>, attrs: array?<FilterAttr>, reply: Reply)
      returns (r: Result<Option<(Reply, string)>>, sent: Option<Request>)
    modifies settings, attrs
    ensures settings.credential == old(settings.credential)
    ensures input == [] ==> r == Err(SelectionError) && sent == None && settings.url == old(settings.url)
    ensures input != [] && input[0] == "q" ==> r == Ok(None) && sent == None && settings.url == old(settings.url)
    ensures input != [] && input[0] != "q" ==>
      var part := if attrs == null then "" else QueryPart(old(attrs[..]), input[1..]);
      && settings.url == old(settings.url) + part + "&q=" + input[0]
      && sent == Some(Request(settings.url, settings.credential, None, Bound(None), None))
      && r == (if reply.NetworkFault? then Err(SelectionError) else Ok(Some((reply, settings.url))))
  {
    var handler := new SelectionHandler();
    if input == [] {
      // EOFError
      return Err(SelectionError), None;
    }
    var keyword := input[0];
    if keyword == "q" {
      return Ok(None), None;
    }
    ghost var part := if attrs == null then "" else QueryPart(attrs[..], input[1..]);
    ghost var start := settings.url;
    if attrs != null && attrs.Length > 0 {
      ghost var o := ChooseLoop(attrs[..], input[1..]);
      var selection, _ := handler.Choose(attrs, input[1..]);
      assert selection.Some? <==> o.rest.Some?;
      if selection.Some? && selection.value != [] {
        var query := GenerateQuery(attrs[..]);
        settings.url := settings.url + query;
      }
    }
    assert settings.url == start + part;
    settings.url := settings.url + "&q=" + keyword;
    var request := Request(settings.url, settings.credential, None, Bound(None), None);
    sent := Some(request);
    if reply.NetworkFault? {
      return Err(SelectionError), sent;
    }
    r := Ok(Some((reply, settings.url)));
  }
}
