/**
 * The endpoint description (RavenEndpoint.swift): an immutable record of one
 * API operation, its three initialisers, and resolution against a base URL
 * (`url(fromBase:)`): the relative path is trimmed of '/' on both ends and
 * joined to the base address, and the parameter dictionary is expanded into
 * query items.
 */
module Endpoints {
  import opened Wrappers
  import opened Values

  /** The HTTP verbs an endpoint may use. HTTPMethod itself is not part of
      this model; these cases are the model's choice of verbs. */
  datatype HttpMethod = Get | Post | Put | Patch | Delete | Head | Options

  /** The two body forms: a dictionary body, serialised by JSONSerialization,
      or an Encodable value, encoded by the delegate's JSON encoder. */
  datatype RequestBody = Dict(dictionary: BodyValue) | Encodable(encodable: EncodableValue)

  /** The expected response type, replacing the runtime type tests on the
      generic parameter: EmptyResponse, an Optional type, or any other type. */
  datatype Expectation = ExpectEmpty | ExpectOptional | ExpectValue

  /** The value of one URL parameter: nil, a list of describable values
      (by their descriptions) or any other describable value (its description). */
  datatype ParamValue = Absent | Scalar(description: string) | List(elements: seq<string>)

  /** One entry of the parameter dictionary, in the dictionary's iteration order. */
  datatype Parameter = Parameter(key: string, value: ParamValue)

  datatype Endpoint = Endpoint(
    httpMethod: HttpMethod,
    requestBody: Option<RequestBody>,
    relativePath: string,
    urlParameters: seq<Parameter>,
    responseDataType: Expectation)

  // ---------------------------------------------------------------------------
  // The three initialisers

  /** The initialiser taking a dictionary body. */
  function WithDictionaryBody(httpMethod: HttpMethod, path: string, requestBody: BodyValue,
                              urlParameters: seq<Parameter> := [],
                              responseDataType: Expectation := ExpectEmpty): (e: Endpoint)
    ensures e.requestBody == Some(Dict(requestBody))
    ensures e.httpMethod == httpMethod && e.relativePath == path
    ensures e.urlParameters == urlParameters && e.responseDataType == responseDataType
  {
    Endpoint(httpMethod, Some(Dict(requestBody)), path, urlParameters, responseDataType)
  }

  /** The initialiser without a body. */
  function WithoutBody(httpMethod: HttpMethod, path: string,
                       urlParameters: seq<Parameter> := [],
                       responseDataType: Expectation := ExpectEmpty): (e: Endpoint)
    ensures e.requestBody == None
    ensures e.httpMethod == httpMethod && e.relativePath == path
    ensures e.urlParameters == urlParameters && e.responseDataType == responseDataType
  {
    Endpoint(httpMethod, None, path, urlParameters, responseDataType)
  }

  /** The initialiser taking an Encodable body. */
  function WithEncodableBody(httpMethod: HttpMethod, path: string, requestBody: EncodableValue,
                             urlParameters: seq<Parameter> := [],
                             responseDataType: Expectation := ExpectEmpty): (e: Endpoint)
    ensures e.requestBody == Some(Encodable(requestBody))
    ensures e.httpMethod == httpMethod && e.relativePath == path
    ensures e.urlParameters == urlParameters && e.responseDataType == responseDataType
  {
    Endpoint(httpMethod, Some(Encodable(requestBody)), path, urlParameters, responseDataType)
  }

  /** Left to their defaults, all three initialisers expect EmptyResponse and
      carry no URL parameters. */
  lemma InitialisersDefaultToEmptyResponse(m: HttpMethod, path: string, body: BodyValue,
                                           encodable: EncodableValue)
    ensures WithDictionaryBody(m, path, body).responseDataType == ExpectEmpty
    ensures WithoutBody(m, path).responseDataType == ExpectEmpty
    ensures WithEncodableBody(m, path, encodable).responseDataType == ExpectEmpty
    ensures WithDictionaryBody(m, path, body).urlParameters == []
    ensures WithoutBody(m, path).urlParameters == []
    ensures WithEncodableBody(m, path, encodable).urlParameters == []
  {
  }

  // ---------------------------------------------------------------------------
  // Trimming '/' from both ends of the relative path

  ghost predicate AllSlashes(s: string) {
    forall i :: 0 <= i < |s| ==> s[i] == '/'
  }

  /** Neither the first nor the last character is '/'. */
  ghost predicate NoBorderSlash(s: string) {
    |s| > 0 ==> s[0] != '/' && s[|s| - 1] != '/'
  }

  /** The length of the run of '/' that starts the string. */
  function LeadingSlashes(s: string): (n: nat)
    ensures n <= |s|
    ensures AllSlashes(s[..n])
    ensures n < |s| ==> s[n] != '/'
  {
    if |s| > 0 && s[0] == '/' then
      var n := 1 + LeadingSlashes(s[1..]);
      assert s[..n] == [s[0]] + s[1..][..n - 1];
      n
    else 0
  }

  /** The length of the run of '/' that ends the string. */
  function TrailingSlashes(s: string): (n: nat)
    ensures n <= |s|
    ensures AllSlashes(s[|s| - n..])
    ensures n < |s| ==> s[|s| - 1 - n] != '/'
  {
    if |s| > 0 && s[|s| - 1] == '/' then
      var n := 1 + TrailingSlashes(s[..|s| - 1]);
      assert s[|s| - n..] == s[..|s| - 1][|s| - n..] + [s[|s| - 1]];
      n
    else 0
  }

  /** `trimmingCharacters(in: "/")`: the path without its leading and trailing '/'. */
  function Trim(s: string): (r: string)
    ensures NoBorderSlash(r)
    ensures |r| <= |s|
  {
    var rest := s[LeadingSlashes(s)..];
    rest[..|rest| - TrailingSlashes(rest)]
  }

  /** Trimming keeps an infix of the path, in order, and removes only '/'. */
  lemma TrimKeepsInterior(s: string)
    ensures exists a, b :: 0 <= a <= b <= |s| && Trim(s) == s[a..b] && AllSlashes(s[..a]) && AllSlashes(s[b..])
  {
    var a := LeadingSlashes(s);
    var rest := s[a..];
    var b := a + |rest| - TrailingSlashes(rest);
    assert Trim(s) == s[a..b];
    assert s[b..] == rest[|rest| - TrailingSlashes(rest)..];
  }

  lemma {:induction false} LeadingSlashesOfPrefix(p: string, t: string)
    requires AllSlashes(p) && (t == [] || t[0] != '/')
    ensures LeadingSlashes(p + t) == |p|
  {
    if p != [] {
      assert (p + t)[1..] == p[1..] + t;
      LeadingSlashesOfPrefix(p[1..], t);
    } else {
      assert p + t == t;
    }
  }

  lemma {:induction false} TrailingSlashesOfSuffix(t: string, q: string)
    requires AllSlashes(q) && (t == [] || t[|t| - 1] != '/')
    ensures TrailingSlashes(t + q) == |q|
  {
    if q != [] {
      assert (t + q)[..|t + q| - 1] == t + q[..|q| - 1];
      TrailingSlashesOfSuffix(t, q[..|q| - 1]);
    } else {
      assert t + q == t;
    }
  }

  /** Trimming is determined by its promise: whatever surrounds a string with no
      border '/' by runs of '/', trimming gives back exactly that string. */
  lemma TrimUnique(p: string, r: string, q: string)
    requires AllSlashes(p) && AllSlashes(q) && NoBorderSlash(r)
    ensures Trim(p + r + q) == r
  {
    var s := p + r + q;
    if r == [] {
      assert s == (p + q) + [];
      LeadingSlashesOfPrefix(p + q, []);
    } else {
      assert s == p + (r + q);
      LeadingSlashesOfPrefix(p, r + q);
      var rest := s[|p|..];
      assert rest == r + q;
      TrailingSlashesOfSuffix(r, q);
      assert rest[..|rest| - |q|] == r;
    }
  }

  /** Trimming a trimmed path changes nothing. */
  lemma TrimIdempotent(s: string)
    ensures Trim(Trim(s)) == Trim(s)
  {
    var r := Trim(s);
    assert [] + r + [] == r;
    TrimUnique([], r, []);
  }

  // ---------------------------------------------------------------------------
  // Path joining: `appendingPathComponent`

  /** Appends a path component to an address, with exactly one '/' between them. */
  function AppendingPathComponent(address: string, component: string): (r: string)
    ensures |address| + |component| <= |r| <= |address| + 1 + |component|
    ensures r[..|address|] == address
    ensures r[|r| - |component|..] == component
  {
    if |address| > 0 && address[|address| - 1] == '/' then address + component
    else address + "/" + component
  }

  /** The address without one trailing '/', if it has one. */
  function WithoutTrailingSlash(address: string): string {
    if |address| > 0 && address[|address| - 1] == '/' then address[..|address| - 1] else address
  }

  /** Joining a trimmed path puts exactly one '/' between the base address
      (less one trailing '/') and the path, which itself starts with no '/'. */
  lemma JoinedPathHasOneSeparator(address: string, path: string)
    ensures AppendingPathComponent(address, Trim(path)) == WithoutTrailingSlash(address) + "/" + Trim(path)
    ensures Trim(path) == [] || Trim(path)[0] != '/'
  {
    if |address| > 0 && address[|address| - 1] == '/' {
      assert address == address[..|address| - 1] + "/";
    }
  }

  // ---------------------------------------------------------------------------
  // Query items: filter out nil values, then flat-map each entry

  /** The strings one parameter value contributes, in order. */
  function Expansion(value: ParamValue): seq<string> {
    match value
    case Absent => []
    case Scalar(d) => [d]
    case List(vs) => vs
  }

  /** The query items one dictionary entry contributes (the flatMap body). */
  function ItemsFor(name: string, value: ParamValue): (items: seq<QueryItem>)
    requires !value.Absent?
    ensures value.Scalar? ==> items == [QueryItem(name, value.description)]
    ensures value.List? ==> |items| == |value.elements|
    ensures value.List? ==> forall i :: 0 <= i < |items| ==> items[i] == QueryItem(name, value.elements[i])
  {
    match value
    case List(vs) => seq(|vs|, i requires 0 <= i < |vs| => QueryItem(name, vs[i]))
    case Scalar(d) => [QueryItem(name, d)]
  }

  /** The entries whose value is not nil (the `filter` step). */
  function Present(params: seq<Parameter>): (ps: seq<Parameter>)
    ensures forall i :: 0 <= i < |ps| ==> !ps[i].value.Absent?
    ensures forall p :: p in ps ==> p in params
    ensures forall p :: p in params && !p.value.Absent? ==> p in ps
  {
    if params == [] then []
    else if params[0].value.Absent? then Present(params[1..])
    else [params[0]] + Present(params[1..])
  }

  /** The concatenated items of present entries (the `flatMap` step). */
  function FlatMapItems(ps: seq<Parameter>): seq<QueryItem>
    requires forall i :: 0 <= i < |ps| ==> !ps[i].value.Absent?
  {
    if ps == [] then [] else ItemsFor(ps[0].key, ps[0].value) + FlatMapItems(ps[1..])
  }

  /** The query items produced from the parameter dictionary. */
  function QueryItems(params: seq<Parameter>): (items: seq<QueryItem>)
    ensures forall k :: 0 <= k < |items| ==> items[k].name in PresentKeys(params)
  {
    FlatMapNames(Present(params));
    PresentKeysOfPresent(params);
    FlatMapItems(Present(params))
  }

  /** How many items an entry contributes: none for nil, one per element for a
      list, and one otherwise. */
  function Contribution(value: ParamValue): nat {
    match value
    case Absent => 0
    case Scalar(_) => 1
    case List(vs) => |vs|
  }

  function TotalContribution(params: seq<Parameter>): nat {
    if params == [] then 0 else Contribution(params[0].value) + TotalContribution(params[1..])
  }

  /** The number of query items is the sum of the entries' contributions. */
  lemma {:induction false} QueryItemsCount(params: seq<Parameter>)
    ensures |QueryItems(params)| == TotalContribution(params)
  {
    if params != [] {
      QueryItemsCount(params[1..]);
      if !params[0].value.Absent? {
        assert Present(params) == [params[0]] + Present(params[1..]);
        assert Present(params)[1..] == Present(params[1..]);
      }
    }
  }

  /** An entry whose value is nil contributes no query item, wherever it stands. */
  lemma {:induction false} AbsentContributesNothing(before: seq<Parameter>, key: string, after: seq<Parameter>)
    ensures QueryItems(before + [Parameter(key, Absent)] + after) == QueryItems(before + after)
  {
    PresentAppend(before + [Parameter(key, Absent)], after);
    PresentAppend(before, [Parameter(key, Absent)]);
    PresentAppend(before, after);
    assert [Parameter(key, Absent)][1..] == [];
    assert Present([Parameter(key, Absent)]) == [];
    assert Present(before) + [] == Present(before);
    assert Present(before + [Parameter(key, Absent)] + after) == Present(before + after);
  }

  lemma {:induction false} PresentAppend(xs: seq<Parameter>, ys: seq<Parameter>)
    ensures Present(xs + ys) == Present(xs) + Present(ys)
  {
    if xs == [] {
      assert xs + ys == ys;
    } else {
      assert (xs + ys)[1..] == xs[1..] + ys;
      PresentAppend(xs[1..], ys);
    }
  }

  ghost function Keys(params: seq<Parameter>): set<string> {
    set i | 0 <= i < |params| :: params[i].key
  }

  ghost function PresentKeys(params: seq<Parameter>): set<string> {
    set i | 0 <= i < |params| && !params[i].value.Absent? :: params[i].key
  }

  lemma {:induction false} FlatMapNames(ps: seq<Parameter>)
    requires forall i :: 0 <= i < |ps| ==> !ps[i].value.Absent?
    ensures forall k :: 0 <= k < |FlatMapItems(ps)| ==> FlatMapItems(ps)[k].name in PresentKeys(ps)
  {
    if ps != [] {
      FlatMapNames(ps[1..]);
      var head := ItemsFor(ps[0].key, ps[0].value);
      assert FlatMapItems(ps) == head + FlatMapItems(ps[1..]);
      forall k | 0 <= k < |FlatMapItems(ps)|
        ensures FlatMapItems(ps)[k].name in PresentKeys(ps)
      {
        if k < |head| {
          assert head[k].name == ps[0].key;
        } else {
          var name := FlatMapItems(ps[1..])[k - |head|].name;
          var j :| 0 <= j < |ps[1..]| && !ps[1..][j].value.Absent? && ps[1..][j].key == name;
          assert ps[j + 1].key == name;
        }
      }
    }
  }

  lemma PresentKeysOfPresent(params: seq<Parameter>)
    ensures PresentKeys(Present(params)) <= PresentKeys(params)
  {
    forall k | k in PresentKeys(Present(params)) ensures k in PresentKeys(params) {
      var j :| 0 <= j < |Present(params)| && !Present(params)[j].value.Absent? && Present(params)[j].key == k;
      assert Present(params)[j] in Present(params);
      var i :| 0 <= i < |params| && params[i] == Present(params)[j];
      assert params[i].key == k;
    }
  }

  /** Every query item is named by a key of the parameter dictionary. */
  lemma QueryItemNamesAreKeys(params: seq<Parameter>)
    ensures forall k :: 0 <= k < |QueryItems(params)| ==> QueryItems(params)[k].name in Keys(params)
  {
    assert PresentKeys(params) <= Keys(params);
  }

  // ---------------------------------------------------------------------------
  // Per-key order of query items

  /** The values of the items named `name`, in order. */
  function ValuesNamed(items: seq<QueryItem>, name: string): seq<string> {
    if items == [] then []
    else (if items[0].name == name then [items[0].value] else []) + ValuesNamed(items[1..], name)
  }

  /** The expansions of the entries with key `name`, in dictionary order. */
  function ExpansionsOf(params: seq<Parameter>, name: string): seq<string> {
    if params == [] then []
    else (if params[0].key == name then Expansion(params[0].value) else []) + ExpansionsOf(params[1..], name)
  }

  lemma {:induction false} ValuesNamedAppend(xs: seq<QueryItem>, ys: seq<QueryItem>, name: string)
    ensures ValuesNamed(xs + ys, name) == ValuesNamed(xs, name) + ValuesNamed(ys, name)
  {
    if xs == [] {
      assert xs + ys == ys;
    } else {
      assert (xs + ys)[1..] == xs[1..] + ys;
      ValuesNamedAppend(xs[1..], ys, name);
    }
  }

  lemma {:induction false} ValuesNamedOfItems(key: string, value: ParamValue, name: string)
    requires !value.Absent?
    ensures ValuesNamed(ItemsFor(key, value), name) == if key == name then Expansion(value) else []
    decreases Contribution(value)
  {
    var items := ItemsFor(key, value);
    match value
    case Scalar(d) =>
      assert items[1..] == [];
    case List(vs) =>
      if vs != [] {
        var tail := List(vs[1..]);
        assert items[1..] == ItemsFor(key, tail);
        ValuesNamedOfItems(key, tail, name);
      }
  }

  lemma {:induction false} ValuesNamedOfQueryItems(params: seq<Parameter>, name: string)
    ensures ValuesNamed(QueryItems(params), name) == ExpansionsOf(params, name)
  {
    if params != [] {
      ValuesNamedOfQueryItems(params[1..], name);
      if !params[0].value.Absent? {
        var head := ItemsFor(params[0].key, params[0].value);
        assert Present(params) == [params[0]] + Present(params[1..]);
        assert Present(params)[1..] == Present(params[1..]);
        assert QueryItems(params) == head + QueryItems(params[1..]);
        ValuesNamedAppend(head, QueryItems(params[1..]), name);
        ValuesNamedOfItems(params[0].key, params[0].value, name);
      }
    }
  }

  /** The dictionary property: no key occurs twice. */
  ghost predicate UniqueKeys(params: seq<Parameter>) {
    forall i, j :: 0 <= i < j < |params| ==> params[i].key != params[j].key
  }

  lemma {:induction false} ExpansionsOfOther(params: seq<Parameter>, name: string)
    requires forall i :: 0 <= i < |params| ==> params[i].key != name
    ensures ExpansionsOf(params, name) == []
  {
    if params != [] {
      ExpansionsOfOther(params[1..], name);
    }
  }

  lemma {:induction false} ExpansionsOfUnique(params: seq<Parameter>, j: nat)
    requires UniqueKeys(params) && j < |params|
    ensures ExpansionsOf(params, params[j].key) == Expansion(params[j].value)
  {
    var name := params[j].key;
    if j == 0 {
      ExpansionsOfOther(params[1..], name);
    } else {
      ExpansionsOfUnique(params[1..], j - 1);
    }
  }

  /** Per key, the query items appear exactly as that key's value expands: none
      for nil, its description for a scalar, and one per list element in list
      order; a name that is not a key has no items. */
  lemma QueryItemsPerKey(params: seq<Parameter>, name: string)
    requires UniqueKeys(params)
    ensures forall j :: 0 <= j < |params| && params[j].key == name ==>
      ValuesNamed(QueryItems(params), name) == Expansion(params[j].value)
    ensures name !in Keys(params) ==> ValuesNamed(QueryItems(params), name) == []
  {
    ValuesNamedOfQueryItems(params, name);
    forall j | 0 <= j < |params| && params[j].key == name
      ensures ValuesNamed(QueryItems(params), name) == Expansion(params[j].value)
    {
      ExpansionsOfUnique(params, j);
    }
    if name !in Keys(params) {
      forall i | 0 <= i < |params| ensures params[i].key != name {
        assert params[i].key in Keys(params);
      }
      ExpansionsOfOther(params, name);
    }
  }

  // ---------------------------------------------------------------------------
  // url(fromBase:)

  /** Resolves the endpoint against a base URL. `componentsAccept` stands for
      URLComponents and its `url` property, which may reject the joined
      address and query; that rejection is the only failure. Assigning the
      query items replaces any query the base URL had. */
  function UrlFromBase(e: Endpoint, baseUrl: Url, componentsAccept: Url -> bool): (r: Option<Url>)
    ensures r.Some? <==> componentsAccept(Url(AppendingPathComponent(baseUrl.address, Trim(e.relativePath)), QueryItems(e.urlParameters)))
    ensures r.Some? ==> r.value.address == AppendingPathComponent(baseUrl.address, Trim(e.relativePath))
    ensures r.Some? ==> r.value.queryItems == QueryItems(e.urlParameters)
  {
    var fullAddress := AppendingPathComponent(baseUrl.address, Trim(e.relativePath));
    var url := Url(fullAddress, QueryItems(e.urlParameters));
    if componentsAccept(url) then Some(url) else None
  }

  /** The path-joining example: base "https://api.example.com/" and path
      "/login/" give "https://api.example.com/login". */
  lemma LoginPathExample()
    ensures AppendingPathComponent("https://api.example.com/", Trim("/login/")) == "https://api.example.com/login"
  {
    TrimUnique("/", "login", "/");
    assert "/" + "login" + "/" == "/login/";
  }
}
