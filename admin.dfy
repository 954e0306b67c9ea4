/**
 * The project-creation call (SonarQube.createProject): a POST to
 * /api/projects/create?key=<enc key>&name=<enc key>, true exactly on status 200.
 * The form encoder (URLEncoder.encode with UTF-8) and the transport are parameters.
 */
module Admin {
  import opened Wrappers
  import opened Http

  const CREATE_PATH := "/api/projects/create"

  /** The IOException that opening the connection or reading the status can throw. */
  datatype IoError = IoError

  /** The request path and query; both parameters carry the encoded key, the name is not used. */
  function CreateTarget(encode: string -> string, key: string, name: string): (r: string)
    ensures FormSafe(encode(key)) ==>
      ParseTarget(r) == (CREATE_PATH, [("key", encode(key)), ("name", encode(key))])
  {
    QueryReadBack(encode(key));
    CREATE_PATH + "?" + ("key=" + encode(key) + "&" + "name=" + encode(key))
  }

  /** A transport failure propagates as an exception; a response means success exactly on 200. */
  function CreateProjectResult(response: HttpOutcome): (r: Result<bool, IoError>)
    ensures r.Success? <==> response.Response?
    ensures r.Success? ==> (r.value <==> response.status == HTTP_OK)
  {
    match response
    case TransportFailure => Failure(IoError)
    case Response(status) => Success(status == HTTP_OK)
  }

  /** createProject: send the POST for the assembled path and interpret what comes back. */
  function CreateProject(encode: string -> string, send: string -> HttpOutcome, key: string, name: string): (r: Result<bool, IoError>)
    ensures r.Failure? <==> send(CreateTarget(encode, key, name)).TransportFailure?
    ensures r.Success? ==> (r.value <==> send(CreateTarget(encode, key, name)).status == HTTP_OK)
  {
    CreateProjectResult(send(CreateTarget(encode, key, name)))
  }

  /** The name argument never reaches the server. */
  lemma NameIsIgnored(encode: string -> string, send: string -> HttpOutcome, key: string, n1: string, n2: string)
    ensures CreateTarget(encode, key, n1) == CreateTarget(encode, key, n2)
    ensures CreateProject(encode, send, key, n1) == CreateProject(encode, send, key, n2)
  {
  }

  // ---------------------------------------------------------------------------
  // Reading a request target back: path, then '&'-separated name=value pairs

  /** The index of the first c in s, or |s| when there is none. */
  function IndexOf(s: string, c: char): (i: nat)
    ensures i <= |s|
    ensures i < |s| ==> s[i] == c
    ensures forall j :: 0 <= j < i ==> s[j] != c
  {
    if s == [] then 0 else if s[0] == c then 0 else 1 + IndexOf(s[1..], c)
  }

  /** s cut at every c. */
  function SplitOn(s: string, c: char): (parts: seq<string>)
    ensures parts != []
    decreases |s|
  {
    var i := IndexOf(s, c);
    if i == |s| then [s] else [s[..i]] + SplitOn(s[i + 1..], c)
  }

  /** One name=value pair, cut at its first '='. */
  function Field(pair: string): (string, string)
  {
    var i := IndexOf(pair, '=');
    if i == |pair| then (pair, "") else (pair[..i], pair[i + 1..])
  }

  function Fields(pairs: seq<string>): (r: seq<(string, string)>)
    ensures |r| == |pairs|
  {
    if pairs == [] then [] else [Field(pairs[0])] + Fields(pairs[1..])
  }

  /** A request target read back as its path and its query parameters in order. */
  function ParseTarget(target: string): (string, seq<(string, string)>)
  {
    var q := IndexOf(target, '?');
    if q == |target| then (target, [])
    else (target[..q], Fields(SplitOn(target[q + 1..], '&')))
  }

  /** What form encoding guarantees of its output: none of the query's delimiters. */
  predicate FormSafe(s: string)
  {
    forall i :: 0 <= i < |s| ==> s[i] != '&' && s[i] != '=' && s[i] != '?'
  }

  lemma {:induction false} IndexOfAt(a: string, c: char, b: string)
    requires forall j :: 0 <= j < |a| ==> a[j] != c
    ensures IndexOf(a + [c] + b, c) == |a|
  {
    if a != [] {
      assert (a + [c] + b)[1..] == a[1..] + [c] + b;
      IndexOfAt(a[1..], c, b);
    }
  }

  lemma IndexOfAbsent(s: string, c: char)
    requires forall j :: 0 <= j < |s| ==> s[j] != c
    ensures IndexOf(s, c) == |s|
  {
  }

  lemma FieldOf(name: string, value: string)
    requires forall j :: 0 <= j < |name| ==> name[j] != '='
    ensures Field(name + "=" + value) == (name, value)
  {
    IndexOfAt(name, '=', value);
    var pair := name + "=" + value;
    assert pair[..|name|] == name;
    assert pair[|name| + 1..] == value;
  }

  lemma SplitTwo(first: string, second: string)
    requires forall j :: 0 <= j < |first| ==> first[j] != '&'
    requires forall j :: 0 <= j < |second| ==> second[j] != '&'
    ensures SplitOn(first + "&" + second, '&') == [first, second]
  {
    var query := first + "&" + second;
    IndexOfAt(first, '&', second);
    assert query[..|first|] == first && query[|first| + 1..] == second;
    IndexOfAbsent(second, '&');
  }

  lemma ParseTargetOf(path: string, query: string)
    requires forall j :: 0 <= j < |path| ==> path[j] != '?'
    ensures ParseTarget(path + "?" + query) == (path, Fields(SplitOn(query, '&')))
  {
    var target := path + "?" + query;
    IndexOfAt(path, '?', query);
    assert target[..|path|] == path;
    assert target[|path| + 1..] == query;
  }

  /** One parameter name=v, with a name free of delimiters, reads back as (name, v) and holds no '&'. */
  lemma ParamField(name: string, v: string)
    requires forall j :: 0 <= j < |name| ==> name[j] != '=' && name[j] != '&'
    requires FormSafe(v)
    ensures Field(name + "=" + v) == (name, v)
    ensures forall j :: 0 <= j < |name + "=" + v| ==> (name + "=" + v)[j] != '&'
  {
    FieldOf(name, v);
    var pair := name + "=" + v;
    assert forall j :: |name| < j < |pair| ==> pair[j] == v[j - |name| - 1];
  }

  lemma CreatePathHasNoQuery()
    ensures forall j :: 0 <= j < |CREATE_PATH| ==> CREATE_PATH[j] != '?'
  {
  }

  /**
   * Read back, the create target with value v has the create path and exactly
   * the two parameters key and name, both holding v.
   */
  lemma QueryReadBack(v: string)
    ensures FormSafe(v) ==>
      ParseTarget(CREATE_PATH + "?" + ("key=" + v + "&" + "name=" + v)) ==
        (CREATE_PATH, [("key", v), ("name", v)])
  {
    if FormSafe(v) {
      var first, second := "key=" + v, "name=" + v;
      var query := "key=" + v + "&" + "name=" + v;
      assert query == first + "&" + second;
      KeyParams(v);
      CreatePathHasNoQuery();
      ParseTargetOf(CREATE_PATH, query);
    }
  }

  lemma KeyParams(v: string)
    requires FormSafe(v)
    ensures Fields(SplitOn(("key=" + v) + "&" + ("name=" + v), '&')) == [("key", v), ("name", v)]
  {
    var first, second := "key=" + v, "name=" + v;
    assert first == "key" + "=" + v && second == "name" + "=" + v;
    ParamField("key", v);
    ParamField("name", v);
    SplitTwo(first, second);
    assert Fields([first, second]) == [Field(first)] + Fields([second]);
  }

  /** The pinned example: key "my project" is sent as both parameters, never the name. */
  lemma CreateProjectExample(encode: string -> string)
    requires encode("my project") == "my+project"
    ensures CreateTarget(encode, "my project", "n") ==
      "/api/projects/create?key=my+project&name=my+project"
  {
  }
}
