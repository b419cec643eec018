/**
 * The Resource Graph request and response bodies of lib_vminfo
 * (lib_vminfo/src/query.rs), the virtual-machine record they carry
 * (lib_vminfo/src/vm.rs), and `QueryRequest::make`, which templates the KQL
 * query for a list of host names or a regular expression.
 */
module Query {
  import opened Wrappers
  import opened Text

  /**
   * A virtual machine as the Resource Graph returns it: its resource id, its
   * name, and the remaining reported attributes (location, size, IP address,
   * ...) under their serialised names.
   */
  datatype VirtualMachine = VirtualMachine(
    vmId: Option<string>,
    vmName: Option<string>,
    attributes: map<string, string>)

  /** `QueryRequestOptions`: the `$skip`, `$skipToken` and `$top` paging options. */
  datatype QueryRequestOptions = QueryRequestOptions(skip: U64, skipToken: Option<string>, top: U16)

  const DEFAULT_SKIP: U64 := 0
  const DEFAULT_TOP: U16 := 1000

  /** `Default for QueryRequestOptions`. */
  function DefaultOptions(): (o: QueryRequestOptions)
    ensures o.skip == 0 && o.skipToken.None? && o.top == 1000
  {
    QueryRequestOptions(DEFAULT_SKIP, None, DEFAULT_TOP)
  }

  /** The request body: the KQL text, the paging options and the subscription filter. */
  datatype QueryRequest = QueryRequest(
    query: string,
    options: QueryRequestOptions,
    subscriptions: Option<seq<string>>)

  /** `QueryResponse`: the number of matching records and one page of them. */
  datatype QueryResponse = QueryResponse(totalResults: U64, data: seq<VirtualMachine>)

  /** `Default for QueryResponse`. */
  function DefaultResponse(): (r: QueryResponse)
    ensures r.totalResults == 0 && r.data == []
  {
    QueryResponse(0, [])
  }

  // ---------------------------------------------------------------------
  // Fragments of the KQL template
  // ---------------------------------------------------------------------

  // Each fragment is written as a concatenation of short literals, which the
  // verifier handles far more cheaply than one long literal.

  const QUERY_HEAD: string :=
      "Resources | where type =~"
    + " 'microsoft.compute/virtualmachines' | where"
    + " tolower(tostring(name)) "
  const PROJECT_CLAUSE: string :=
      " | extend"
    + " nics=array_length(properties.networkProfile.networkInterfaces)"
    + " | mv-expand"
    + " nic=properties.networkProfile.networkInterfaces | where"
    + " nics == 1 or nic.properties.primary =~ 'true' or"
    + " isempty(nic) | project subscriptionId, rg=resourceGroup,"
    + " vmId = id, vmName = name, location = tostring(location),"
    + " created = tostring(properties.timeCreated),"
    + " vmSize=tostring(properties.hardwareProfile.vmSize), nicId"
    + " = tostring(nic.id), osType ="
    + " tostring(properties.storageProfile.osDisk.osType), osName"
    + " = tostring(properties.extended.instanceView.osName),"
    + " osVersion ="
    + " tostring(properties.extended.instanceView.osVersion),"
    + " powerstate ="
    + " tostring(properties.extended.instanceView.powerState.code)"
  const QUERY_TAIL: string :=
      " | join kind=leftouter (ResourceContainers | where"
    + " type=='microsoft.resources/subscriptions'| project"
    + " sub=name, subscriptionId) on subscriptionId | join"
    + " kind=leftouter (Resources| where type =~"
    + " 'microsoft.network/networkinterfaces'| extend"
    + " ipConfigsCount=array_length(properties.ipConfigurations)|"
    + " extend subnetId ="
    + " tostring(properties.ipConfigurations[0].properties.subnet.id)|"
    + " extend virtualNetwork = split(substring(subnetId,"
    + " indexof(subnetId, '/virtualNetworks/') +"
    + " strlen('/virtualNetworks/')), '/')[0]| extend subnet ="
    + " substring(subnetId, indexof(subnetId, '/subnets/') +"
    + " strlen('/subnets/'))| mv-expand"
    + " ipconfig=properties.ipConfigurations| where ipConfigsCount"
    + " == 1 or ipconfig.properties.primary =~ 'true'| project"
    + " nicId = id, subnet, virtualNetwork, privateIp ="
    + " tostring(ipconfig.properties.privateIPAddress))on nicId|"
    + " order by subnet asc"
  const EXTENSIONS_JOIN: string :=
      "| join kind=leftouter(Resources | where type =~"
    + " 'microsoft.compute/virtualmachines/extensions' | extend"
    + " vmId = substring(id, 0, indexof(id, '/extensions')) |"
    + " extend d = pack('name', name, 'version',"
    + " properties.typeHandlerVersion) | summarize extensions ="
    + " make_list(d) by vmId) on vmId"

  const TAGS_JOIN: string := ", tags=tags"
  const LITERAL_OPERATOR: string := "in"
  const REGEX_OPERATOR: string := "matches regex"

  /** The KQL comparison operator for the chosen matching mode. */
  function Operator(matchRegex: bool): (op: string)
    ensures matchRegex <==> op == REGEX_OPERATOR
    ensures !matchRegex <==> op == LITERAL_OPERATOR
  {
    if matchRegex then REGEX_OPERATOR else LITERAL_OPERATOR
  }

  /** The extensions join, present exactly when extensions are asked for. */
  function ExtensionsFragment(showExtensions: bool): (f: string)
    ensures showExtensions <==> f == EXTENSIONS_JOIN
    ensures !showExtensions <==> f == ""
  {
    if showExtensions then EXTENSIONS_JOIN else ""
  }

  /** The tags projection, present exactly when tags are asked for. */
  function TagsFragment(showTags: bool): (f: string)
    ensures showTags <==> f == TAGS_JOIN
    ensures !showTags <==> f == ""
  {
    if showTags then TAGS_JOIN else ""
  }

  /** A KQL string literal. */
  function Quoted(s: string): string {
    "'" + s + "'"
  }

  function QuotedAll(xs: seq<string>): (r: seq<string>)
    ensures |r| == |xs|
    ensures forall i :: 0 <= i < |xs| ==> r[i] == Quoted(xs[i])
  {
    seq(|xs|, i requires 0 <= i < |xs| => Quoted(xs[i]))
  }

  /**
   * The parenthesised list of host names, `('a', 'b', ...)`; with no names
   * it is `('')`.
   */
  function HostList(xs: seq<string>): (h: string)
    ensures |h| >= 2 && h[0] == '(' && h[|h| - 1] == ')'
  {
    if |xs| == 0 then "('')" else "(" + Join(", ", QuotedAll(xs)) + ")"
  }

  /** The list loop's step: appending `, 'x'` to the open list adds `x` to the join. */
  lemma ListSnoc(names: seq<string>, i: nat)
    requires 0 < i < |names|
    ensures "(" + Join(", ", QuotedAll(names[..i])) + ", '" + names[i] + "'" == "(" + Join(", ", QuotedAll(names[..i + 1]))
  {
    var v := names[i];
    var j := Join(", ", QuotedAll(names[..i]));
    assert QuotedAll(names[..i + 1]) == QuotedAll(names[..i]) + [Quoted(v)];
    JoinSnoc(", ", QuotedAll(names[..i]), Quoted(v));
    ConcatAssoc("(", j + ", ", Quoted(v));
    ConcatAssoc("(", j, ", ");
    var a := "(" + j + ", ";
    ConcatAssoc(a, "'" + v, "'");
    ConcatAssoc(a, "'", v);
    ConcatAssoc("(" + j, ", ", "'");
  }

  /** Where the template's placeholders go. */
  function QueryText(op: string, search: string, tags: string, extensions: string): string {
    QUERY_HEAD + op + " " + search + PROJECT_CLAUSE + tags + " " + extensions + QUERY_TAIL
  }

  /** The operand after the operator: the first name as a literal, or the list of all. */
  function SearchOperand(names: seq<string>, matchRegex: bool): string
    requires matchRegex ==> |names| > 0
  {
    if matchRegex then Quoted(names[0]) else HostList(names)
  }

  /**
   * `QueryRequest::make`, as a function of its arguments: the names are
   * lower-cased, the operand is rendered for the mode, the optional
   * fragments inserted, and the paging options default to skip 0, top 1000.
   * Regular-expression mode indexes the first name, so it needs one.
   */
  function Build(
    queryItems: seq<string>, matchRegex: bool, showExtensions: bool, showTags: bool,
    skip: Option<U64>, top: Option<U16>, subscriptions: Option<seq<string>>)
    : (r: QueryRequest)
    requires matchRegex ==> |queryItems| > 0
    ensures r.options.skip == (if skip.Some? then skip.value else 0)
    ensures r.options.top == (if top.Some? then top.value else 1000)
    ensures r.options.skipToken.None?
    ensures r.subscriptions == subscriptions
  {
    var names := LowerAll(queryItems);
    QueryRequest(
      QueryText(Operator(matchRegex), SearchOperand(names, matchRegex), TagsFragment(showTags), ExtensionsFragment(showExtensions)),
      QueryRequestOptions(UnwrapOr(skip, DEFAULT_SKIP), None, UnwrapOr(top, DEFAULT_TOP)),
      subscriptions)
  }

  /**
   * The operator and operand part of `make`: the names are lower-cased, then
   * either the first is quoted as a regular expression, or the list is grown
   * one quoted name at a time behind an opening parenthesis.
   */
  method RenderOperand(queryItems: seq<string>, matchRegex: bool)
    returns (comparisonOperator: string, searchQuery: string)
    requires matchRegex ==> |queryItems| > 0
    ensures comparisonOperator == Operator(matchRegex)
    ensures searchQuery == SearchOperand(LowerAll(queryItems), matchRegex)
  {
    searchQuery := "";
    comparisonOperator := "in";
    var vmList := LowerAll(queryItems);

    if matchRegex {
      comparisonOperator := "matches regex";
      searchQuery := "'" + vmList[0] + "'";
    } else {
      searchQuery := searchQuery + "(";
      var first := if |vmList| > 0 then vmList[0] else "";
      searchQuery := searchQuery + "'" + first + "'";
      var i := 1;
      while i < |vmList|
        invariant |vmList| > 0 ==> i <= |vmList|
        invariant |vmList| > 0 ==> searchQuery == "(" + Join(", ", QuotedAll(vmList[..i]))
        invariant |vmList| == 0 ==> searchQuery == "(''"
      {
        var vm := vmList[i];
        ToLowerIdempotent(queryItems[i]);
        ListSnoc(vmList, i);
        searchQuery := searchQuery + ", '" + ToLower(vm) + "'";
        i := i + 1;
      }
      if |vmList| > 0 {
        assert vmList[..i] == vmList;
      }
      searchQuery := searchQuery + ")";
    }
  }

  /**
   * The imperative `make`: the operand is rendered, the optional fragments
   * are chosen by reassigning locals, and the template is filled in.
   */
  method Make(
    queryItems: seq<string>, matchRegex: bool, showExtensions: bool, showTags: bool,
    skip: Option<U64>, top: Option<U16>, subscriptions: Option<seq<string>>)
    returns (r: QueryRequest)
    requires matchRegex ==> |queryItems| > 0
    ensures r == Build(queryItems, matchRegex, showExtensions, showTags, skip, top, subscriptions)
  {
    var extensionsJoin := "";
    var tagsJoin := "";
    var skipParam := UnwrapOr(skip, 0);
    var topParam := UnwrapOr(top, 1000);

    var comparisonOperator, searchQuery := RenderOperand(queryItems, matchRegex);

    if showExtensions {
      extensionsJoin := EXTENSIONS_JOIN;
    }

    if showTags {
      tagsJoin := TAGS_JOIN;
    }

    var query := QueryText(comparisonOperator, searchQuery, tagsJoin, extensionsJoin);
    r := QueryRequest(query, QueryRequestOptions(skipParam, None, topParam), subscriptions);
  }

  // ---------------------------------------------------------------------
  // What the query says
  // ---------------------------------------------------------------------

  /**
   * How the template places its parts, for any fixed text: the operator and
   * operand sit right after the head, and each fragment occurs in the result.
   */
  lemma TemplateParts(head: string, op: string, search: string, project: string, tags: string, ext: string, tail: string)
    ensures var q := head + op + " " + search + project + tags + " " + ext + tail;
      |head| + |op| + 1 <= |q| && q[|head|..|head| + |op| + 1] == op + " "
      && Contains(q, op + " " + search) && Contains(q, tags) && Contains(q, ext)
  {
    var q := head + op + " " + search + project + tags + " " + ext + tail;
    assert q == head + (op + " " + search) + (project + tags + " " + ext + tail);
    ContainsMiddle(head, op + " " + search, project + tags + " " + ext + tail);
    assert q[|head|..|head| + |op| + 1] == op + " ";
    assert q == (head + op + " " + search + project) + tags + (" " + ext + tail);
    ContainsMiddle(head + op + " " + search + project, tags, " " + ext + tail);
    assert q == (head + op + " " + search + project + tags + " ") + ext + tail;
    ContainsMiddle(head + op + " " + search + project + tags + " ", ext, tail);
  }

  /** In any filled-in template, the operator and a space stand right after the head. */
  lemma OperatorAfterHead(op: string, search: string, tags: string, ext: string)
    ensures var q := QueryText(op, search, tags, ext);
      |QUERY_HEAD| + |op| + 1 <= |q| && q[|QUERY_HEAD|..|QUERY_HEAD| + |op| + 1] == op + " "
  {
    TemplateParts(QUERY_HEAD, op, search, PROJECT_CLAUSE, tags, ext, QUERY_TAIL);
  }

  /** The operator right after the head of the template is the mode's operator. */
  lemma OperatorFollowsHead(
    queryItems: seq<string>, matchRegex: bool, showExtensions: bool, showTags: bool,
    skip: Option<U64>, top: Option<U16>, subscriptions: Option<seq<string>>)
    requires matchRegex ==> |queryItems| > 0
    ensures var q := Build(queryItems, matchRegex, showExtensions, showTags, skip, top, subscriptions).query;
      var op := if matchRegex then REGEX_OPERATOR else LITERAL_OPERATOR;
      |QUERY_HEAD| + |op| + 1 <= |q| && q[|QUERY_HEAD|..|QUERY_HEAD| + |op| + 1] == op + " "
  {
    OperatorAfterHead(Operator(matchRegex), SearchOperand(LowerAll(queryItems), matchRegex),
      TagsFragment(showTags), ExtensionsFragment(showExtensions));
  }

  /** In literal mode the lower-cased host list follows `in`. */
  lemma LiteralHostList(
    queryItems: seq<string>, showExtensions: bool, showTags: bool,
    skip: Option<U64>, top: Option<U16>, subscriptions: Option<seq<string>>)
    ensures Contains(Build(queryItems, false, showExtensions, showTags, skip, top, subscriptions).query,
                     LITERAL_OPERATOR + " " + HostList(LowerAll(queryItems)))
  {
    TemplateParts(QUERY_HEAD, LITERAL_OPERATOR, HostList(LowerAll(queryItems)),
      PROJECT_CLAUSE, TagsFragment(showTags), ExtensionsFragment(showExtensions), QUERY_TAIL);
  }

  /** In regular-expression mode the first name, lower-cased and quoted, follows `matches regex`. */
  lemma RegexOperand(
    queryItems: seq<string>, showExtensions: bool, showTags: bool,
    skip: Option<U64>, top: Option<U16>, subscriptions: Option<seq<string>>)
    requires |queryItems| > 0
    ensures Contains(Build(queryItems, true, showExtensions, showTags, skip, top, subscriptions).query,
                     REGEX_OPERATOR + " " + Quoted(ToLower(queryItems[0])))
  {
    TemplateParts(QUERY_HEAD, REGEX_OPERATOR, Quoted(LowerAll(queryItems)[0]),
      PROJECT_CLAUSE, TagsFragment(showTags), ExtensionsFragment(showExtensions), QUERY_TAIL);
  }

  /** Asking for tags puts the tags projection into the query. */
  lemma TagsInserted(
    queryItems: seq<string>, matchRegex: bool, showExtensions: bool,
    skip: Option<U64>, top: Option<U16>, subscriptions: Option<seq<string>>)
    requires matchRegex ==> |queryItems| > 0
    ensures Contains(Build(queryItems, matchRegex, showExtensions, true, skip, top, subscriptions).query, TAGS_JOIN)
  {
    TemplateParts(QUERY_HEAD, Operator(matchRegex), SearchOperand(LowerAll(queryItems), matchRegex),
      PROJECT_CLAUSE, TAGS_JOIN, ExtensionsFragment(showExtensions), QUERY_TAIL);
  }

  /** Asking for extensions puts the extensions join into the query. */
  lemma ExtensionsInserted(
    queryItems: seq<string>, matchRegex: bool, showTags: bool,
    skip: Option<U64>, top: Option<U16>, subscriptions: Option<seq<string>>)
    requires matchRegex ==> |queryItems| > 0
    ensures Contains(Build(queryItems, matchRegex, true, showTags, skip, top, subscriptions).query, EXTENSIONS_JOIN)
  {
    TemplateParts(QUERY_HEAD, Operator(matchRegex), SearchOperand(LowerAll(queryItems), matchRegex),
      PROJECT_CLAUSE, TagsFragment(showTags), EXTENSIONS_JOIN, QUERY_TAIL);
  }

  /** Without tags or extensions both placeholders of the template stay empty. */
  lemma FragmentsOmitted(
    queryItems: seq<string>, matchRegex: bool,
    skip: Option<U64>, top: Option<U16>, subscriptions: Option<seq<string>>)
    requires matchRegex ==> |queryItems| > 0
    ensures Build(queryItems, matchRegex, false, false, skip, top, subscriptions).query
         == QueryText(Operator(matchRegex), SearchOperand(LowerAll(queryItems), matchRegex), "", "")
  {
  }

  /** The request does not depend on the case of the names: all of them are lower-cased. */
  lemma CaseInsensitive(
    queryItems: seq<string>, matchRegex: bool, showExtensions: bool, showTags: bool,
    skip: Option<U64>, top: Option<U16>, subscriptions: Option<seq<string>>)
    requires matchRegex ==> |queryItems| > 0
    ensures Build(LowerAll(queryItems), matchRegex, showExtensions, showTags, skip, top, subscriptions)
         == Build(queryItems, matchRegex, showExtensions, showTags, skip, top, subscriptions)
  {
    forall i | 0 <= i < |queryItems|
      ensures LowerAll(LowerAll(queryItems))[i] == LowerAll(queryItems)[i]
    {
      ToLowerIdempotent(queryItems[i]);
    }
    assert LowerAll(LowerAll(queryItems)) == LowerAll(queryItems);
  }

  /** An empty host list renders as the empty literal `('')`. */
  lemma EmptyHostList(
    showExtensions: bool, showTags: bool,
    skip: Option<U64>, top: Option<U16>, subscriptions: Option<seq<string>>)
    ensures Contains(Build([], false, showExtensions, showTags, skip, top, subscriptions).query, "in ('')")
  {
    LiteralHostList([], showExtensions, showTags, skip, top, subscriptions);
    EmptyClause();
    ContainsEqual(Build([], false, showExtensions, showTags, skip, top, subscriptions).query,
      LITERAL_OPERATOR + " " + HostList(LowerAll([])), "in ('')");
  }

  lemma EmptyClause()
    ensures LITERAL_OPERATOR + " " + HostList(LowerAll([])) == "in ('')"
  {
    assert LowerAll([]) == [];
  }
}

/**
 * The unit tests of lib_vminfo/src/query.rs, as lemmas about `Build`, each
 * stated for any extension and tag flags. The rendered comparison clauses
 * are proved apart from the query template, whose long text would otherwise
 * be in the way of the solver.
 */
module QueryRequestTests {
  import opened Wrappers
  import opened Text
  import opened Query

  lemma SingleClause()
    ensures LITERAL_OPERATOR + " " + HostList(LowerAll(["linux-01"])) == "in ('linux-01')"
  {
    var items := ["linux-01"];
    assert ToLower("linux-01") == "linux-01";
    assert LowerAll(items) == items;
    assert QuotedAll(items)[0] == "'linux-01'";
    assert QuotedAll(items) == ["'linux-01'"];
  }

  lemma ManyLower()
    ensures LowerAll(["linux-01", "linux-02", "windows-98", "ubuntu-test-04"]) == ["linux-01", "linux-02", "windows-98", "ubuntu-test-04"]
  {
    assert ToLower("linux-01") == "linux-01";
    assert ToLower("linux-02") == "linux-02";
    assert ToLower("windows-98") == "windows-98";
    assert ToLower("ubuntu-test-04") == "ubuntu-test-04";
  }

  lemma ManyQuoted()
    ensures QuotedAll(["linux-01", "linux-02", "windows-98", "ubuntu-test-04"]) == ["'linux-01'", "'linux-02'", "'windows-98'", "'ubuntu-test-04'"]
  {
    var quoted := QuotedAll(["linux-01", "linux-02", "windows-98", "ubuntu-test-04"]);
    assert quoted[0] == "'linux-01'";
    assert quoted[1] == "'linux-02'";
    assert quoted[2] == "'windows-98'";
    assert quoted[3] == "'ubuntu-test-04'";
  }

  /** A four-element join behind a prefix, written out. */
  lemma PrefixJoinFour(p: string, sep: string, a: string, b: string, c: string, d: string)
    ensures p + Join(sep, [a, b, c, d]) == p + a + sep + b + sep + c + sep + d
  {
    assert [a, b, c, d][1..] == [b, c, d];
    assert [b, c, d][1..] == [c, d];
    assert [c, d][1..] == [d];
    var x := c + sep + d;
    var y := b + sep + x;
    assert Join(sep, [c, d]) == x;
    assert Join(sep, [b, c, d]) == y;
    assert Join(sep, [a, b, c, d]) == a + sep + y;
    ConcatAssoc(p, a + sep, y);
    ConcatAssoc(p, a, sep);
    var p1 := p + a + sep;
    ConcatAssoc(p1, b + sep, x);
    ConcatAssoc(p1, b, sep);
    var p2 := p1 + b + sep;
    ConcatAssoc(p2, c + sep, d);
    ConcatAssoc(p2, c, sep);
  }

  /** The solver checks long string literals one short concatenation at a time. */
  lemma ManyJoined()
    ensures "in (" + Join(", ", ["'linux-01'", "'linux-02'", "'windows-98'", "'ubuntu-test-04'"]) + ")"
         == "in ('linux-01', 'linux-02', 'windows-98', 'ubuntu-test-04')"
  {
    PrefixJoinFour("in (", ", ", "'linux-01'", "'linux-02'", "'windows-98'", "'ubuntu-test-04'");
    assert "in (" + "'linux-01'" == "in ('linux-01'";
    assert "in ('linux-01'" + ", " == "in ('linux-01', ";
    assert "in ('linux-01', " + "'linux-02'" == "in ('linux-01', 'linux-02'";
    assert "in ('linux-01', 'linux-02'" + ", " == "in ('linux-01', 'linux-02', ";
    assert "in ('linux-01', 'linux-02', " + "'windows-98'" == "in ('linux-01', 'linux-02', 'windows-98'";
    assert "in ('linux-01', 'linux-02', 'windows-98'" + ", " == "in ('linux-01', 'linux-02', 'windows-98', ";
    assert "in ('linux-01', 'linux-02', 'windows-98', " + "'ubuntu-test-04'" == "in ('linux-01', 'linux-02', 'windows-98', 'ubuntu-test-04'";
  }

  lemma ManyClause()
    ensures LITERAL_OPERATOR + " " + HostList(LowerAll(["linux-01", "linux-02", "windows-98", "ubuntu-test-04"]))
         == "in ('linux-01', 'linux-02', 'windows-98', 'ubuntu-test-04')"
  {
    ManyLower();
    ManyQuoted();
    ManyJoined();
  }

  lemma SingleHostnameQuery(showExtensions: bool, showTags: bool)
    ensures var r := Build(["linux-01"], false, showExtensions, showTags, None, None, None);
      r.options.skip == 0 && r.options.top == 1000 && Contains(r.query, "in ('linux-01')")
  {
    LiteralHostList(["linux-01"], showExtensions, showTags, None, None, None);
    SingleClause();
    ContainsEqual(Build(["linux-01"], false, showExtensions, showTags, None, None, None).query,
      LITERAL_OPERATOR + " " + HostList(LowerAll(["linux-01"])), "in ('linux-01')");
  }

  lemma ManyHostnamesQuery(showExtensions: bool, showTags: bool)
    ensures var r := Build(["linux-01", "linux-02", "windows-98", "ubuntu-test-04"], false, showExtensions, showTags, None, None, None);
      r.options.skip == 0 && r.options.top == 1000
      && Contains(r.query, "in ('linux-01', 'linux-02', 'windows-98', 'ubuntu-test-04')")
  {
    var items := ["linux-01", "linux-02", "windows-98", "ubuntu-test-04"];
    LiteralHostList(items, showExtensions, showTags, None, None, None);
    ManyClause();
    ContainsEqual(Build(items, false, showExtensions, showTags, None, None, None).query,
      LITERAL_OPERATOR + " " + HostList(LowerAll(items)), "in ('linux-01', 'linux-02', 'windows-98', 'ubuntu-test-04')");
  }

  lemma RegularExpressionMatching(showExtensions: bool, showTags: bool)
    ensures var r := Build(["linux-[0-9]+"], true, showExtensions, showTags, None, None, None);
      r.options.skip == 0 && r.options.top == 1000 && Contains(r.query, REGEX_OPERATOR)
  {
    var items := ["linux-[0-9]+"];
    RegexOperand(items, showExtensions, showTags, None, None, None);
    var q := Build(items, true, showExtensions, showTags, None, None, None).query;
    ContainsPrefix(q, REGEX_OPERATOR + " ", Quoted(ToLower(items[0])));
    ContainsPrefix(q, REGEX_OPERATOR, " ");
  }

  lemma QueryWithCustomPageSize()
    ensures var r := Build([".*linux-[0-9]+$"], true, false, false, None, Some(150), None);
      r.options.skip == 0 && r.options.top == 150
  {
  }

  lemma QueryAPage()
    ensures var r := Build([".*linux-[0-9]+$"], true, false, false, Some(3000), Some(1000), None);
      r.options.skip == 3000 && r.options.top == 1000
  {
  }
}
