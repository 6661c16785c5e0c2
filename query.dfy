/** The discovery tool (query.js): command-line settings, the GraphQL document
    that looks components up by tag, and the driver that either fetches one
    transaction by id or runs the tag query and decodes its edges. The HTTPS
    transport is a `Transport` object whose replies are arbitrary and recorded. */
module Query {
  import opened Common
  import opened Tags

  /** The one publisher identity every search is restricted to (query.js:19). */
  const Owner: string := "A5Hzm1b3mtQfYfU6q5qvKeVJmoaReCvthwfHuZkBBdAQ"

  /** Where a transaction's content is shown to the user. */
  const ContentLink: string := "https://uploader.irys.xyz/"

  // ---------------------------------------------------------------------------
  // Command-line settings

  /** The settings record; `kind` is the `--type` value. */
  datatype Args = Args(
    kind: Option<string>,
    version: Option<string>,
    tag: string,
    limit: Limit,
    txid: Option<string>,
    help: bool,
    contentType: string)

  const Defaults: Args := Args(None, None, "istartproject", Count(5), None, false, "application/json")

  /** The flags that take a value, in the order the parser tests them. */
  datatype Flag = TypeFlag | VersionFlag | TagFlag | LimitFlag | TxidFlag | ContentTypeFlag

  function Prefix(f: Flag): (p: string)
    ensures |p| > 0 && p[|p| - 1] == '='
  {
    match f
    case TypeFlag => "--type="
    case VersionFlag => "--version="
    case TagFlag => "--tag="
    case LimitFlag => "--limit="
    case TxidFlag => "--txid="
    case ContentTypeFlag => "--content-type="
  }

  /** `arg.split('=')[1]` for an argument that starts with `Prefix(f)`. */
  function FlagValue(arg: string, f: Flag): string
    requires StartsWith(arg, Prefix(f))
  {
    assert arg[|Prefix(f)| - 1] == '=';
    SecondField(arg)
  }

  predicate IsHelp(arg: string)
  {
    arg == "--help" || arg == "-h"
  }

  /** One step of the argument loop: the first matching branch updates its field. */
  function ApplyArg(a: Args, arg: string): Args
  {
    if IsHelp(arg) then a.(help := true)
    else if StartsWith(arg, Prefix(TypeFlag)) then a.(kind := Some(FlagValue(arg, TypeFlag)))
    else if StartsWith(arg, Prefix(VersionFlag)) then a.(version := Some(FlagValue(arg, VersionFlag)))
    else if StartsWith(arg, Prefix(TagFlag)) then a.(tag := FlagValue(arg, TagFlag))
    else if StartsWith(arg, Prefix(LimitFlag)) then a.(limit := ParseInt(FlagValue(arg, LimitFlag)))
    else if StartsWith(arg, Prefix(TxidFlag)) then a.(txid := Some(FlagValue(arg, TxidFlag)))
    else if StartsWith(arg, Prefix(ContentTypeFlag)) then a.(contentType := FlagValue(arg, ContentTypeFlag))
    else a
  }

  /** The settings after reading all of `argv` from left to right. */
  function Settings(argv: seq<string>): Args
  {
    if argv == [] then Defaults else ApplyArg(Settings(argv[..|argv| - 1]), argv[|argv| - 1])
  }

  /** `parseArgs`: loops over the arguments after the script name and updates the record. */
  method ParseArgs(argv: seq<string>) returns (a: Args)
    ensures a == Settings(argv)
  {
    a := Defaults;
    var i := 0;
    while i < |argv|
      invariant 0 <= i <= |argv|
      invariant a == Settings(argv[..i])
    {
      assert argv[..i + 1][..i] == argv[..i];
      a := ApplyArg(a, argv[i]);
      i := i + 1;
    }
    assert argv[..|argv|] == argv;
  }

  /** A setting's value, as the text or number a flag sets. */
  datatype Setting = Text(text: Option<string>) | Number(number: Limit)

  function Get(a: Args, f: Flag): Setting
  {
    match f
    case TypeFlag => Text(a.kind)
    case VersionFlag => Text(a.version)
    case TagFlag => Text(Some(a.tag))
    case LimitFlag => Number(a.limit)
    case TxidFlag => Text(a.txid)
    case ContentTypeFlag => Text(Some(a.contentType))
  }

  /** The setting that flag `f` with value text `v` produces. */
  function FromText(f: Flag, v: string): Setting
  {
    if f == LimitFlag then Number(ParseInt(v)) else Text(Some(v))
  }

  /** `arg` is the last argument starting with `p`. */
  predicate LastWith(argv: seq<string>, i: int, p: string)
  {
    0 <= i < |argv| && StartsWith(argv[i], p) && forall j :: i < j < |argv| ==> !StartsWith(argv[j], p)
  }

  lemma PrefixesExclusive(arg: string, f: Flag, g: Flag)
    requires StartsWith(arg, Prefix(f)) && StartsWith(arg, Prefix(g))
    ensures f == g
  {
    assert arg[2] == Prefix(f)[2] == Prefix(g)[2];
    assert arg[3] == Prefix(f)[3] == Prefix(g)[3];
  }

  lemma PrefixNotHelp(arg: string, f: Flag)
    requires StartsWith(arg, Prefix(f))
    ensures !IsHelp(arg)
  {
    assert arg[2] == Prefix(f)[2] && arg[3] == Prefix(f)[3];
  }

  lemma ApplyArgSets(a: Args, arg: string, f: Flag)
    requires StartsWith(arg, Prefix(f))
    ensures Get(ApplyArg(a, arg), f) == FromText(f, FlagValue(arg, f))
  {
    PrefixNotHelp(arg, f);
    forall g | StartsWith(arg, Prefix(g)) ensures g == f {
      PrefixesExclusive(arg, f, g);
    }
  }

  lemma ApplyArgKeeps(a: Args, arg: string, f: Flag)
    requires !StartsWith(arg, Prefix(f))
    ensures Get(ApplyArg(a, arg), f) == Get(a, f)
  {
  }

  /** One step changes flag `f`'s setting exactly when the argument starts with its prefix. */
  lemma ApplyArgSetting(a: Args, arg: string, f: Flag)
    ensures StartsWith(arg, Prefix(f)) ==> Get(ApplyArg(a, arg), f) == FromText(f, FlagValue(arg, f))
    ensures !StartsWith(arg, Prefix(f)) ==> Get(ApplyArg(a, arg), f) == Get(a, f)
  {
    if StartsWith(arg, Prefix(f)) {
      ApplyArgSets(a, arg, f);
    } else {
      ApplyArgKeeps(a, arg, f);
    }
  }

  lemma {:induction false} FlagNeverSet(argv: seq<string>, f: Flag)
    requires forall i :: 0 <= i < |argv| ==> !StartsWith(argv[i], Prefix(f))
    ensures Get(Settings(argv), f) == Get(Defaults, f)
  {
    if argv != [] {
      var n := |argv| - 1;
      var init := argv[..n];
      assert forall i :: 0 <= i < n ==> init[i] == argv[i];
      ApplyArgSetting(Settings(init), argv[n], f);
      FlagNeverSet(init, f);
    }
  }

  lemma {:induction false} FlagLast(argv: seq<string>, f: Flag, i: int)
    requires LastWith(argv, i, Prefix(f))
    ensures Get(Settings(argv), f) == FromText(f, FlagValue(argv[i], f))
  {
    var n := |argv| - 1;
    var init := argv[..n];
    ApplyArgSetting(Settings(init), argv[n], f);
    if i != n {
      assert init[i] == argv[i];
      forall j | i < j < |init| ensures !StartsWith(init[j], Prefix(f)) {
        assert init[j] == argv[j];
      }
      FlagLast(init, f, i);
    }
  }

  /** The last occurrence of a flag wins, and a flag that never occurs keeps its default. */
  lemma LastFlagWins(argv: seq<string>, f: Flag)
    ensures (forall i :: 0 <= i < |argv| ==> !StartsWith(argv[i], Prefix(f))) ==>
      Get(Settings(argv), f) == Get(Defaults, f)
    ensures forall i :: LastWith(argv, i, Prefix(f)) ==> Get(Settings(argv), f) == FromText(f, FlagValue(argv[i], f))
  {
    if forall i :: 0 <= i < |argv| ==> !StartsWith(argv[i], Prefix(f)) {
      FlagNeverSet(argv, f);
    }
    forall i | LastWith(argv, i, Prefix(f))
      ensures Get(Settings(argv), f) == FromText(f, FlagValue(argv[i], f))
    {
      FlagLast(argv, f, i);
    }
  }


  /** An argument that is neither help nor a known flag changes nothing. */
  lemma UnknownArgumentIgnored(a: Args, arg: string)
    requires !IsHelp(arg)
    requires forall f: Flag :: !StartsWith(arg, Prefix(f))
    ensures ApplyArg(a, arg) == a
  {
    assert !StartsWith(arg, Prefix(TypeFlag)) && !StartsWith(arg, Prefix(VersionFlag));
    assert !StartsWith(arg, Prefix(TagFlag)) && !StartsWith(arg, Prefix(LimitFlag));
    assert !StartsWith(arg, Prefix(TxidFlag)) && !StartsWith(arg, Prefix(ContentTypeFlag));
  }

  /** Only a help switch turns `help` on, and nothing turns it off. */
  lemma ApplyArgHelp(a: Args, arg: string)
    ensures ApplyArg(a, arg).help == (a.help || IsHelp(arg))
  {
  }

  lemma SettingsHelpStep(argv: seq<string>)
    requires argv != []
    ensures Settings(argv).help == (Settings(argv[..|argv| - 1]).help || IsHelp(argv[|argv| - 1]))
  {
    ApplyArgHelp(Settings(argv[..|argv| - 1]), argv[|argv| - 1]);
  }

  /** Help is shown exactly when some argument is `--help` or `-h`, wherever it stands. */
  lemma {:induction false} HelpRequested(argv: seq<string>)
    ensures Settings(argv).help <==> exists i :: 0 <= i < |argv| && IsHelp(argv[i])
  {
    if argv != [] {
      var n := |argv| - 1;
      var init := argv[..n];
      HelpRequested(init);
      SettingsHelpStep(argv);
      if exists i :: 0 <= i < |init| && IsHelp(init[i]) {
        var i :| 0 <= i < |init| && IsHelp(init[i]);
        assert argv[i] == init[i];
      }
      if exists i :: 0 <= i < |argv| && IsHelp(argv[i]) {
        var i :| 0 <= i < |argv| && IsHelp(argv[i]);
        if i < n {
          assert init[i] == argv[i];
        }
      }
    }
  }

  /** The value stops at a second '=': `--type=a=b` sets the type to `a`. */
  lemma ValueStopsAtSecondEq(v: string, w: string)
    requires '=' !in v
    ensures Settings(["--type=" + v + "=" + w]).kind == Some(v)
  {
    var arg := "--type=" + v + "=" + w;
    assert [arg][..0] == [];
    assert arg == "--type=" + (v + "=" + w) && arg == "--type" + "=" + v + "=" + w;
    ApplyArgSets(Defaults, arg, TypeFlag);
    SecondFieldStops("--type", v, w);
  }

  // ---------------------------------------------------------------------------
  // The query document

  /** `contentType && contentType !== 'any'` */
  predicate FiltersContentType(a: Args)
  {
    a.contentType != "" && a.contentType != "any"
  }

  function OneIf(b: bool): nat
  {
    if b then 1 else 0
  }

  /** The filters `buildQuery` pushes: Content-Type, then the discovery tag, then
      Version, each only when its setting is set. */
  function FilterList(a: Args): (r: seq<Filter>)
    ensures |r| == OneIf(FiltersContentType(a)) + OneIf(Truthy(a.kind)) + OneIf(Truthy(a.version))
    ensures FiltersContentType(a) ==> r[0] == Filter("Content-Type", [a.contentType])
    ensures Truthy(a.kind) ==> r[OneIf(FiltersContentType(a))] == Filter(a.tag, [a.kind.value])
    ensures Truthy(a.version) ==>
      r[OneIf(FiltersContentType(a)) + OneIf(Truthy(a.kind))] == Filter("Version", [a.version.value])
  {
    (if FiltersContentType(a) then [Filter("Content-Type", [a.contentType])] else [])
    + (if Truthy(a.kind) then [Filter(a.tag, [a.kind.value])] else [])
    + (if Truthy(a.version) then [Filter("Version", [a.version.value])] else [])
  }

  /** With `any` or an empty content type no filter is on Content-Type, unless the
      discovery tag itself is named Content-Type. */
  lemma NoContentTypeFilterForAny(a: Args)
    requires a.contentType == "any" || a.contentType == ""
    ensures forall f :: f in FilterList(a) && f.name == "Content-Type" ==> a.tag == "Content-Type"
  {
  }

  /** The discovery filter is named by the configured tag and has the single value
      of the type; with no flags that tag is `istartproject` and, no type being
      set, there is no discovery filter at all. */
  lemma DiscoveryFilter(a: Args)
    ensures forall f :: f in FilterList(a) && f.name != "Content-Type" && f.name != "Version" ==>
      f == Filter(a.tag, [a.kind.value])
    ensures FilterList(Defaults) == [Filter("Content-Type", ["application/json"])]
  {
  }

  /** `JSON.stringify` of an array of strings. */
  function JsonArray(vs: seq<string>): string
  {
    "[" + JoinQuoted(vs) + "]"
  }

  function JoinQuoted(vs: seq<string>): string
  {
    if vs == [] then ""
    else if |vs| == 1 then Quote(vs[0])
    else Quote(vs[0]) + "," + JoinQuoted(vs[1..])
  }

  /** One filter as written into the document; the name is inserted unescaped. */
  function FilterText(f: Filter): string
  {
    "{ name: \"" + f.name + "\", values: " + JsonArray(f.values) + " }"
  }

  const FilterSeparator: string := ",\n                "

  function JoinFilters(fs: seq<Filter>): string
  {
    if fs == [] then ""
    else if |fs| == 1 then FilterText(fs[0])
    else FilterText(fs[0]) + FilterSeparator + JoinFilters(fs[1..])
  }

  /** The node selection that closes every document. */
  const Selection: string :=
    "                edges {\n"
    + "                    node {\n"
    + "                        id\n"
    + "                        tags {\n"
    + "                            name\n"
    + "                            value\n"
    + "                        }\n"
    + "                    }\n"
    + "                }\n"
    + "            }\n"
    + "        }"

  /** The text of the owner line, the limit line and the ordering line. */
  function OwnerLine(owner: string): string
  {
    "owners: [\"" + owner + "\"],"
  }

  function LimitLine(limit: Limit): string
  {
    "first: " + LimitText(limit) + ","
  }

  const OrderLine: string := "order: DESC"

  /** The start of a line inside `transactions(...)`. */
  const LineBreak: string := "\n                "

  /** Everything before the owner line. */
  function Opening(fs: seq<Filter>): string
  {
    "{\n            transactions(\n                tags: [\n                    "
    + JoinFilters(fs) + "\n                ]," + LineBreak
  }

  /** Everything after the ordering line. */
  const Closing: string := "\n            ) {\n" + Selection

  /** The template string `buildQuery` returns. */
  function Render(fs: seq<Filter>, owner: string, limit: Limit): string
  {
    Opening(fs) + OwnerLine(owner) + LineBreak + LimitLine(limit) + LineBreak + OrderLine + Closing
  }

  /** The document for settings `a`, searching the transactions of `owner`. */
  function QueryDocument(a: Args, owner: string): string
  {
    Render(FilterList(a), owner, a.limit)
  }

  /** `buildQuery`: pushes the filters onto a local list, then renders the document. */
  method BuildQuery(a: Args, owner: string) returns (doc: string)
    ensures doc == QueryDocument(a, owner)
  {
    var tags: seq<Filter> := [];
    if a.contentType != "" && a.contentType != "any" {
      tags := tags + [Filter("Content-Type", [a.contentType])];
    }
    if Truthy(a.kind) {
      tags := tags + [Filter(a.tag, [a.kind.value])];
    }
    if Truthy(a.version) {
      tags := tags + [Filter("Version", [a.version.value])];
    }
    assert tags == FilterList(a);
    doc := Render(tags, owner, a.limit);
  }

  lemma {:induction false} ScopeLinesOccur(p: string, o: string, b1: string, l: string, b2: string, d: string, c: string)
    ensures Occurs(o, p + o + b1 + l + b2 + d + c)
    ensures Occurs(l, p + o + b1 + l + b2 + d + c)
    ensures Occurs(d, p + o + b1 + l + b2 + d + c)
  {
    var doc := p + o + b1 + l + b2 + d + c;
    assert doc == p + o + (b1 + l + b2 + d + c);
    OccursBetween(p, o, b1 + l + b2 + d + c);
    assert doc == (p + o + b1) + l + (b2 + d + c);
    OccursBetween(p + o + b1, l, b2 + d + c);
    assert doc == (p + o + b1 + l + b2) + d + c;
    OccursBetween(p + o + b1 + l + b2, d, c);
  }

  /** Every document names the owner, carries the result limit and asks for
      newest-first order. */
  lemma DocumentScope(fs: seq<Filter>, owner: string, limit: Limit)
    ensures Occurs(OwnerLine(owner), Render(fs, owner, limit))
    ensures Occurs(LimitLine(limit), Render(fs, owner, limit))
    ensures Occurs(OrderLine, Render(fs, owner, limit))
  {
    ScopeLinesOccur(Opening(fs), OwnerLine(owner), LineBreak, LimitLine(limit), LineBreak, OrderLine, Closing);
  }

  /** The document depends on the query settings and the owner only: the id and
      the help switch do not change it. */
  lemma DocumentDeterministic(a: Args, b: Args, owner: string)
    requires a.contentType == b.contentType && a.kind == b.kind && a.tag == b.tag
    requires a.version == b.version && a.limit == b.limit
    ensures QueryDocument(a, owner) == QueryDocument(b, owner)
  {
    assert FilterList(a) == FilterList(b);
  }

  /** A filter's value can be read back from the text written for it. */
  lemma FilterValueReadable(name: string, v: string)
    ensures var t := FilterText(Filter(name, [v]));
      var k := |"{ name: \""| + |name| + |"\", values: ["|;
      k <= |t| - 3 && Unquote(t[k..|t| - 3]) == Some(v)
  {
    var t := FilterText(Filter(name, [v]));
    var k := |"{ name: \""| + |name| + |"\", values: ["|;
    assert t == "{ name: \"" + name + "\", values: [" + Quote(v) + "] }";
    assert t[k..|t| - 3] == Quote(v);
    QuoteRoundTrip(v);
  }

  // ---------------------------------------------------------------------------
  // The transport and the driver

  /** A transaction edge of the query result. */
  datatype Edge = Edge(id: string, tags: seq<Tag>)

  /** The decoded response: `data.transactions.edges`, None when any link of that
      path is missing. */
  datatype Response = Response(edges: Option<seq<Edge>>)

  /** A request made over the network, with the reply it got. */
  datatype Request =
    | ContentRequest(txid: string, content: Result<string>)
    | SearchRequest(doc: string, response: Result<Response>)

  /** The HTTPS side of the tool; every reply is arbitrary, and all requests are recorded. */
  class Transport {
    ghost var requests: seq<Request>

    constructor ()
      ensures requests == []
    {
      requests := [];
    }

    /** `fetchContent`: GET of the transaction's content. */
    method FetchContent(txid: string) returns (r: Result<string>)
      modifies this
      ensures requests == old(requests) + [ContentRequest(txid, r)]
    {
      r :| true;
      requests := requests + [ContentRequest(txid, r)];
    }

    /** `fetchGraphQL`: POST of the document. The reply is arbitrary; a failed
        request and a reply that does not parse as JSON are among its `Err` cases. */
    method FetchGraphQL(doc: string) returns (r: Result<Response>)
      modifies this
      ensures requests == old(requests) + [SearchRequest(doc, r)]
    {
      r :| true;
      requests := requests + [SearchRequest(doc, r)];
    }
  }

  /** What one edge shows: id, the discovery tag's value, the Version, the raw
      Unix-Time when present, and the content link. */
  datatype Row = Row(id: string, kind: string, version: string, unixTime: Option<string>, link: string)

  function RowOf(tag: string, e: Edge): Row
  {
    var m := TagMap(e.tags);
    Row(e.id, Shown(m, tag), Shown(m, "Version"),
        if "Unix-Time" in m && m["Unix-Time"] != "" then Some(m["Unix-Time"]) else None,
        ContentLink + e.id)
  }

  /** The rows shown for a list of edges, one per edge and in the same order. */
  function RowsOf(tag: string, edges: seq<Edge>): (rows: seq<Row>)
    ensures |rows| == |edges|
    ensures forall i :: 0 <= i < |edges| ==> rows[i] == RowOf(tag, edges[i])
  {
    seq(|edges|, i requires 0 <= i < |edges| => RowOf(tag, edges[i]))
  }

  /** The loop over the edges, decoding each edge's tags into a dictionary. */
  method DecodeEdges(tag: string, edges: seq<Edge>) returns (rows: seq<Row>)
    ensures rows == RowsOf(tag, edges)
  {
    rows := [];
    var i := 0;
    while i < |edges|
      invariant 0 <= i <= |edges|
      invariant |rows| == i
      invariant forall j :: 0 <= j < i ==> rows[j] == RowOf(tag, edges[j])
    {
      var tx := edges[i];
      var m := DecodeTags(tx.tags);
      var time := if "Unix-Time" in m && m["Unix-Time"] != "" then Some(m["Unix-Time"]) else None;
      rows := rows + [Row(tx.id, Shown(m, tag), Shown(m, "Version"), time, ContentLink + tx.id)];
      i := i + 1;
    }
    assert rows == RowsOf(tag, edges);
  }

  /** What a run of the tool reports. */
  datatype Report =
    | HelpShown
    | Content(txid: string, body: string, asJson: bool, link: string)
    | FetchFailed(message: string)
    | TypeRequired
    | NoMatches
    | Found(rows: seq<Row>)
    | QueryFailed(message: string)

  /** The process exit status: only a missing type and a failed search exit with 1. */
  function ExitCode(r: Report): nat
  {
    if r.TypeRequired? || r.QueryFailed? then 1 else 0
  }

  /** `result.data?.transactions?.edges?.length` is falsy. */
  predicate NoEdges(resp: Response)
  {
    resp.edges.None? || |resp.edges.value| == 0
  }

  /** The requests a run makes and the report it gives, for settings `a` whose
      search document is `doc`; `isJson` tells whether fetched content parses as
      JSON (it is then pretty-printed). */
  predicate IsRun(a: Args, doc: string, isJson: string -> bool, t: seq<Request>, r: Report)
  {
    if a.help then t == [] && r == HelpShown
    else if Truthy(a.txid) then
      |t| == 1 && t[0].ContentRequest? && t[0].txid == a.txid.value &&
      r == match t[0].content
           case Ok(body) => Content(a.txid.value, body, isJson(body), ContentLink + a.txid.value)
           case Err(msg) => FetchFailed(msg)
    else if !Truthy(a.kind) then t == [] && r == TypeRequired
    else IsSearch(a, doc, t, r)
  }

  /** `query()`: help, then a direct fetch by id, then the type check, then the tag search. */
  method Run(tr: Transport, a: Args, isJson: string -> bool) returns (r: Report)
    modifies tr
    ensures old(tr.requests) <= tr.requests
    ensures IsRun(a, QueryDocument(a, Owner), isJson, tr.requests[|old(tr.requests)|..], r)
  {
    ghost var before := tr.requests;
    if a.help {
      r := HelpShown;
      assert tr.requests[|before|..] == [];
      return;
    }
    if Truthy(a.txid) {
      var content := tr.FetchContent(a.txid.value);
      match content {
        case Ok(body) =>
          r := Content(a.txid.value, body, isJson(body), ContentLink + a.txid.value);
        case Err(msg) =>
          r := FetchFailed(msg);
      }
      assert tr.requests[|before|..] == [ContentRequest(a.txid.value, content)];
      return;
    }
    if !Truthy(a.kind) {
      r := TypeRequired;
      assert tr.requests[|before|..] == [];
      return;
    }
    var doc := BuildQuery(a, Owner);
    r := Search(tr, a, doc);
  }

  /** The outcome of posting document `doc` for settings `a`. */
  predicate IsSearch(a: Args, doc: string, t: seq<Request>, r: Report)
  {
    |t| == 1 && t[0].SearchRequest? && t[0].doc == doc &&
    r == match t[0].response
         case Err(msg) => QueryFailed(msg)
         case Ok(resp) => if NoEdges(resp) then NoMatches else Found(RowsOf(a.tag, resp.edges.value))
  }

  /** The search branch of `query()`: post the document, decode the edges. */
  method Search(tr: Transport, a: Args, doc: string) returns (r: Report)
    modifies tr
    ensures old(tr.requests) <= tr.requests
    ensures IsSearch(a, doc, tr.requests[|old(tr.requests)|..], r)
  {
    ghost var before := tr.requests;
    var result := tr.FetchGraphQL(doc);
    assert tr.requests[|before|..] == [SearchRequest(doc, result)];
    if result.Err? {
      return QueryFailed(result.message);
    }
    if NoEdges(result.value) {
      return NoMatches;
    }
    var rows := DecodeEdges(a.tag, result.value.edges.value);
    r := Found(rows);
  }

  /** An id takes precedence: its content is fetched directly, no search document
      is sent and no type is needed; success or failure, the exit status is 0. */
  lemma TxidBypassesSearch(a: Args, doc: string, isJson: string -> bool, t: seq<Request>, r: Report)
    requires IsRun(a, doc, isJson, t, r)
    requires !a.help && Truthy(a.txid)
    ensures t == [ContentRequest(a.txid.value, t[0].content)]
    ensures forall q :: q in t ==> !q.SearchRequest?
    ensures r.Content? || r.FetchFailed?
    ensures ExitCode(r) == 0
  {
  }

  /** With neither an id nor a type (null or empty) the run stops with status 1
      before any request. */
  lemma MissingTypeStopsEarly(a: Args, doc: string, isJson: string -> bool, t: seq<Request>, r: Report)
    requires IsRun(a, doc, isJson, t, r)
    requires !a.help && !Truthy(a.txid) && !Truthy(a.kind)
    ensures t == [] && r == TypeRequired && ExitCode(r) == 1
  {
  }

  /** A search whose reply has no edges, or no edge list at all, reports no
      matches and exits with 0; a search that fails exits with 1. */
  lemma EmptyResultIsNoMatch(a: Args, doc: string, isJson: string -> bool, t: seq<Request>, r: Report)
    requires IsRun(a, doc, isJson, t, r)
    requires !a.help && !Truthy(a.txid) && Truthy(a.kind)
    ensures |t| == 1 && t[0].SearchRequest? && t[0].doc == doc
    ensures t[0].response.Ok? && NoEdges(t[0].response.value) ==> r == NoMatches && ExitCode(r) == 0
    ensures t[0].response.Err? <==> ExitCode(r) == 1
  {
  }

  /** A found result lists every edge, in the order the service returned them
      (newest first), with the tag dictionary's values. */
  lemma FoundRows(a: Args, doc: string, isJson: string -> bool, t: seq<Request>, r: Report)
    requires IsRun(a, doc, isJson, t, r)
    requires r.Found?
    ensures t[0].SearchRequest? && t[0].response.Ok? && t[0].response.value.edges.Some?
    ensures var edges := t[0].response.value.edges.value;
      |r.rows| == |edges| > 0 &&
      forall i :: 0 <= i < |edges| ==>
        r.rows[i].id == edges[i].id &&
        r.rows[i].kind == Shown(TagMap(edges[i].tags), a.tag) &&
        r.rows[i].version == Shown(TagMap(edges[i].tags), "Version")
  {
  }
}
