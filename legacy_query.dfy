/**
 * The older request builder of lib_vminfo (lib_vminfo/src/models/query.rs),
 * used by the expiry-gated REST client. Its request, options and response
 * types are the same records as the newer ones, and its template is the newer
 * template without the tags placeholder. It differs in case handling: the
 * first name is used as given, and only later names are lower-cased.
 */
module LegacyQuery {
  import opened Wrappers
  import opened Text
  import Query

  /** The names as the older builder renders them: the first as given, the rest lower-cased. */
  function Operands(queryItems: seq<string>): (r: seq<string>)
    ensures |r| == |queryItems|
    ensures |queryItems| > 0 ==> r[0] == queryItems[0]
    ensures forall i :: 1 <= i < |queryItems| ==> r[i] == ToLower(queryItems[i])
  {
    if |queryItems| == 0 then [] else [queryItems[0]] + LowerAll(queryItems[1..])
  }

  /** The operand after the operator: the first name verbatim, or the host list. */
  function SearchOperand(queryItems: seq<string>, matchRegex: bool): string
    requires matchRegex ==> |queryItems| > 0
  {
    if matchRegex then Query.Quoted(queryItems[0]) else Query.HostList(Operands(queryItems))
  }

  /**
   * The older `QueryRequest::make`, as a function of its arguments. The
   * template text is the newer one with the tags placeholder left empty.
   */
  function Build(
    queryItems: seq<string>, matchRegex: bool, showExtensions: bool,
    skip: Option<U64>, top: Option<U16>, subscriptions: Option<seq<string>>)
    : (r: Query.QueryRequest)
    requires matchRegex ==> |queryItems| > 0
    ensures r.options.skip == (if skip.Some? then skip.value else 0)
    ensures r.options.top == (if top.Some? then top.value else 1000)
    ensures r.options.skipToken.None?
    ensures r.subscriptions == subscriptions
  {
    Query.QueryRequest(
      Query.QueryText(Query.Operator(matchRegex), SearchOperand(queryItems, matchRegex), "", Query.ExtensionsFragment(showExtensions)),
      Query.QueryRequestOptions(UnwrapOr(skip, Query.DEFAULT_SKIP), None, UnwrapOr(top, Query.DEFAULT_TOP)),
      subscriptions)
  }

  /** The operator and operand part of the older `make`. */
  method RenderOperand(queryItems: seq<string>, matchRegex: bool)
    returns (comparisonOperator: string, searchQuery: string)
    requires matchRegex ==> |queryItems| > 0
    ensures comparisonOperator == Query.Operator(matchRegex)
    ensures searchQuery == SearchOperand(queryItems, matchRegex)
  {
    searchQuery := "";
    comparisonOperator := "in";

    if matchRegex {
      comparisonOperator := "matches regex";
      searchQuery := "'" + queryItems[0] + "'";
    } else {
      searchQuery := RenderList(queryItems);
    }
  }

  /**
   * The literal branch of the older `make`: the first name as given, then
   * each later name lower-cased, grown one at a time behind `(`.
   */
  method RenderList(queryItems: seq<string>) returns (searchQuery: string)
    ensures searchQuery == Query.HostList(Operands(queryItems))
  {
    ghost var names := Operands(queryItems);
    searchQuery := "(";
    var first := if |queryItems| > 0 then queryItems[0] else "";
    searchQuery := searchQuery + "'" + first + "'";
    var i := 1;
    while i < |queryItems|
      invariant |queryItems| > 0 ==> i <= |queryItems|
      invariant |queryItems| > 0 ==> searchQuery == "(" + Join(", ", Query.QuotedAll(names[..i]))
      invariant |queryItems| == 0 ==> searchQuery == "(''"
    {
      var vm := queryItems[i];
      assert names[i] == ToLower(vm);
      Query.ListSnoc(names, i);
      searchQuery := searchQuery + ", '" + ToLower(vm) + "'";
      i := i + 1;
    }
    if |queryItems| > 0 {
      assert names[..i] == names;
    }
    searchQuery := searchQuery + ")";
  }

  /** The imperative older `make`. */
  method Make(
    queryItems: seq<string>, matchRegex: bool, showExtensions: bool,
    skip: Option<U64>, top: Option<U16>, subscriptions: Option<seq<string>>)
    returns (r: Query.QueryRequest)
    requires matchRegex ==> |queryItems| > 0
    ensures r == Build(queryItems, matchRegex, showExtensions, skip, top, subscriptions)
  {
    var extensionsJoin := "";
    var skipParam := UnwrapOr(skip, 0);
    var topParam := UnwrapOr(top, 1000);

    var comparisonOperator, searchQuery := RenderOperand(queryItems, matchRegex);

    if showExtensions {
      extensionsJoin := Query.EXTENSIONS_JOIN;
    }

    var query := Query.QueryText(comparisonOperator, searchQuery, "", extensionsJoin);
    r := Query.QueryRequest(query, Query.QueryRequestOptions(skipParam, None, topParam), subscriptions);
  }

  // ---------------------------------------------------------------------
  // What the query says
  // ---------------------------------------------------------------------

  /** In literal mode the host list, first name as given, follows `in`. */
  lemma LiteralHostList(
    queryItems: seq<string>, showExtensions: bool,
    skip: Option<U64>, top: Option<U16>, subscriptions: Option<seq<string>>)
    ensures Contains(Build(queryItems, false, showExtensions, skip, top, subscriptions).query,
                     Query.LITERAL_OPERATOR + " " + Query.HostList(Operands(queryItems)))
  {
    Query.TemplateParts(Query.QUERY_HEAD, Query.LITERAL_OPERATOR, Query.HostList(Operands(queryItems)),
      Query.PROJECT_CLAUSE, "", Query.ExtensionsFragment(showExtensions), Query.QUERY_TAIL);
  }

  /** In regular-expression mode the first name, verbatim and quoted, follows `matches regex`. */
  lemma RegexOperand(
    queryItems: seq<string>, showExtensions: bool,
    skip: Option<U64>, top: Option<U16>, subscriptions: Option<seq<string>>)
    requires |queryItems| > 0
    ensures Contains(Build(queryItems, true, showExtensions, skip, top, subscriptions).query,
                     Query.REGEX_OPERATOR + " " + Query.Quoted(queryItems[0]))
  {
    Query.TemplateParts(Query.QUERY_HEAD, Query.REGEX_OPERATOR, Query.Quoted(queryItems[0]),
      Query.PROJECT_CLAUSE, "", Query.ExtensionsFragment(showExtensions), Query.QUERY_TAIL);
  }

  /** Asking for extensions puts the extensions join into the query. */
  lemma ExtensionsInserted(
    queryItems: seq<string>, matchRegex: bool,
    skip: Option<U64>, top: Option<U16>, subscriptions: Option<seq<string>>)
    requires matchRegex ==> |queryItems| > 0
    ensures Contains(Build(queryItems, matchRegex, true, skip, top, subscriptions).query, Query.EXTENSIONS_JOIN)
  {
    Query.TemplateParts(Query.QUERY_HEAD, Query.Operator(matchRegex), SearchOperand(queryItems, matchRegex),
      Query.PROJECT_CLAUSE, "", Query.EXTENSIONS_JOIN, Query.QUERY_TAIL);
  }

  /**
   * On names that are already lower-case the two builders agree: the older
   * request is the newer one without tags.
   */
  lemma AgreesWithNewer(
    queryItems: seq<string>, matchRegex: bool, showExtensions: bool,
    skip: Option<U64>, top: Option<U16>, subscriptions: Option<seq<string>>)
    requires matchRegex ==> |queryItems| > 0
    requires LowerAll(queryItems) == queryItems
    ensures Build(queryItems, matchRegex, showExtensions, skip, top, subscriptions)
         == Query.Build(queryItems, matchRegex, showExtensions, false, skip, top, subscriptions)
  {
    if |queryItems| > 0 {
      assert LowerAll(queryItems[1..]) == queryItems[1..];
      assert Operands(queryItems) == queryItems;
    } else {
      assert Operands(queryItems) == queryItems;
    }
    assert SearchOperand(queryItems, matchRegex) == Query.SearchOperand(LowerAll(queryItems), matchRegex);
    assert Query.TagsFragment(false) == "";
  }

  /** Unlike the newer builder, the older one keeps the case of the first name. */
  lemma FirstNameKeepsCase(showExtensions: bool)
    ensures Contains(Build(["Linux-01", "Linux-02"], false, showExtensions, None, None, None).query,
                     "in ('Linux-01', 'linux-02')")
  {
    var items := ["Linux-01", "Linux-02"];
    LiteralHostList(items, showExtensions, None, None, None);
    MixedCaseClause();
    ContainsEqual(Build(items, false, showExtensions, None, None, None).query,
      Query.LITERAL_OPERATOR + " " + Query.HostList(Operands(items)), "in ('Linux-01', 'linux-02')");
  }

  lemma MixedCaseOperands()
    ensures Operands(["Linux-01", "Linux-02"]) == ["Linux-01", "linux-02"]
  {
    assert ToLower("Linux-02") == "linux-02";
  }

  lemma MixedCaseClause()
    ensures Query.LITERAL_OPERATOR + " " + Query.HostList(Operands(["Linux-01", "Linux-02"])) == "in ('Linux-01', 'linux-02')"
  {
    MixedCaseOperands();
    var quoted := Query.QuotedAll(["Linux-01", "linux-02"]);
    assert quoted[0] == "'Linux-01'";
    assert quoted[1] == "'linux-02'";
    assert quoted == ["'Linux-01'", "'linux-02'"];
    assert quoted[1..] == ["'linux-02'"];
    assert Join(", ", quoted) == "'Linux-01'" + ", " + "'linux-02'";
    assert "in " + "(" + "'Linux-01'" == "in ('Linux-01'";
    assert "in ('Linux-01'" + ", " == "in ('Linux-01', ";
    assert "in ('Linux-01', " + "'linux-02'" == "in ('Linux-01', 'linux-02'";
  }
}

/** The unit tests of lib_vminfo/src/models/query.rs, as lemmas about the older `Build`. */
module LegacyQueryRequestTests {
  import opened Wrappers
  import opened Text
  import Query
  import QueryRequestTests
  import opened LegacyQuery

  lemma SingleHostnameQuery(showExtensions: bool)
    ensures var r := Build(["linux-01"], false, showExtensions, None, None, None);
      r.options.skip == 0 && r.options.top == 1000 && Contains(r.query, "in ('linux-01')")
  {
    assert ToLower("linux-01") == "linux-01";
    assert LowerAll(["linux-01"]) == ["linux-01"];
    AgreesWithNewer(["linux-01"], false, showExtensions, None, None, None);
    QueryRequestTests.SingleHostnameQuery(showExtensions, false);
  }

  lemma ManyHostnamesQuery(showExtensions: bool)
    ensures var r := Build(["linux-01", "linux-02", "windows-98", "ubuntu-test-04"], false, showExtensions, None, None, None);
      r.options.skip == 0 && r.options.top == 1000
      && Contains(r.query, "in ('linux-01', 'linux-02', 'windows-98', 'ubuntu-test-04')")
  {
    QueryRequestTests.ManyLower();
    AgreesWithNewer(["linux-01", "linux-02", "windows-98", "ubuntu-test-04"], false, showExtensions, None, None, None);
    QueryRequestTests.ManyHostnamesQuery(showExtensions, false);
  }

  lemma RegularExpressionMatching(showExtensions: bool)
    ensures var r := Build(["linux-[0-9]+"], true, showExtensions, None, None, None);
      r.options.skip == 0 && r.options.top == 1000 && Contains(r.query, Query.REGEX_OPERATOR)
  {
    var items := ["linux-[0-9]+"];
    RegexOperand(items, showExtensions, None, None, None);
    var q := Build(items, true, showExtensions, None, None, None).query;
    ContainsPrefix(q, Query.REGEX_OPERATOR + " ", Query.Quoted(items[0]));
    ContainsPrefix(q, Query.REGEX_OPERATOR, " ");
  }

  lemma QueryExtensions()
    ensures Contains(Build(["linux-01", "linux-02", "windows-98", "ubuntu-test-04"], false, true, None, None, None).query,
                     Query.EXTENSIONS_JOIN)
  {
    ExtensionsInserted(["linux-01", "linux-02", "windows-98", "ubuntu-test-04"], false, None, None, None);
  }

  lemma QueryWithCustomPageSize()
    ensures var r := Build([".*linux-[0-9]+$"], true, false, None, Some(150), None);
      r.options.skip == 0 && r.options.top == 150
  {
  }

  lemma QueryAPage()
    ensures var r := Build([".*linux-[0-9]+$"], true, false, Some(3000), Some(1000), None);
      r.options.skip == 3000 && r.options.top == 1000
  {
  }
}
