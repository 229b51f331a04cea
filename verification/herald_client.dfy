/**
 * The Herald backend client (src/client.ts): every operation is one HTTP
 * request built from the client's base URL and token, and one decision on the
 * response status. Sending the request is left to the caller: each operation
 * is modelled as the request it would send.
 */
module HeraldClient {
  import opened Wrappers
  import opened Text
  import opened FormUrlEncoded

  const DefaultUrl := "http://herald:8765"

  /** `url` and `token` are fixed when the client is built and never change. */
  datatype Client = Client(url: string, token: string)

  /**
   * `new HeraldClient()` with `HERALD_URL` and `HERALD_API_TOKEN` read from the
   * environment: `??` falls back only for an unset variable, so a variable set
   * to the empty string is kept as it is.
   */
  function NewClient(urlEnv: Option<string>, tokenEnv: Option<string>): (c: Client)
    ensures urlEnv.None? ==> c.url == DefaultUrl
    ensures tokenEnv.None? ==> c.token == ""
    ensures urlEnv.Some? ==> c.url == urlEnv.value
    ensures tokenEnv.Some? ==> c.token == tokenEnv.value
  {
    Client(urlEnv.GetOr(DefaultUrl), tokenEnv.GetOr(""))
  }

  datatype Verb = Get | Post | Delete

  datatype Header = Header(name: string, value: string)

  /** The one request body a client operation sends: `{stack, out_path}` for sync,
      before `JSON.stringify` (which drops an undefined `out_path`). */
  datatype Body = MaterializeBody(stack: string, outPath: Option<string>)

  /** The `RequestInit` an operation passes to `fetch`: an absent method means GET. */
  datatype Init = Init(verb: Option<Verb>, body: Option<Body>)

  datatype Request = Request(verb: Verb, url: string, headers: seq<Header>, body: Option<Body>)

  predicate HasHeader(hs: seq<Header>, name: string)
  {
    exists k :: 0 <= k < |hs| && hs[k].name == name
  }

  /** The header record built on every call, in insertion order. */
  function Headers(token: string): (hs: seq<Header>)
    ensures |hs| >= 1 && hs[0] == Header("Content-Type", "application/json")
    ensures HasHeader(hs, "Authorization") <==> token != ""
    ensures token != "" ==> Header("Authorization", "Bearer " + token) in hs
    ensures forall k :: 0 <= k < |hs| && hs[k].name == "Authorization" ==> hs[k].value == "Bearer " + token
    ensures |hs| == (if token != "" then 2 else 1)
  {
    var hs := [Header("Content-Type", "application/json")]
      + (if token != "" then [Header("Authorization", "Bearer " + token)] else []);
    assert token != "" ==> hs[1].name == "Authorization";
    hs
  }

  /** The request `fetch` receives for `path`: the base URL and the path concatenated
      with no separator, the operation's method and body, and the client's headers. */
  function Fetch(c: Client, path: string, init: Init): Request
  {
    Request(init.verb.GetOr(Get), c.url + path, Headers(c.token), init.body)
  }

  /** The URL is the base URL followed directly by the path: both can be read back from it. */
  lemma FetchUrl(c: Client, path: string, init: Init)
    ensures var u := Fetch(c, path, init).url;
      |u| == |c.url| + |path| && u[..|c.url|] == c.url && u[|c.url|..] == path
    ensures Fetch(c, path, init).headers == Headers(c.token)
    ensures init.verb.None? ==> Fetch(c, path, init).verb == Get
  {
  }

  // ---- the response ----

  datatype Response = Response(status: nat, text: string)

  /** `resp.ok`: a status in the range 200 to 299. */
  predicate IsOk(status: nat)
  {
    200 <= status <= 299
  }

  /** What `fetch<T>` settles with: the body to decode, or the thrown error's message. */
  datatype FetchResult = Decoded(text: string) | ApiError(message: string)

  const ErrorPrefix := "Herald API error: "

  function ErrorMessage(status: nat, text: string): string
  {
    ErrorPrefix + NatToDecimal(status) + " " + text
  }

  /** A non-ok status becomes the error `Herald API error: <status> <body>`; an ok status hands the body on. */
  function Check(resp: Response): (r: FetchResult)
    ensures r.Decoded? <==> IsOk(resp.status)
    ensures r.Decoded? ==> r.text == resp.text
    ensures r.ApiError? ==> r.message == ErrorMessage(resp.status, resp.text)
  {
    if IsOk(resp.status) then Decoded(resp.text) else ApiError(ErrorMessage(resp.status, resp.text))
  }

  /** Reads the status and body back out of an error message. */
  function ParseErrorMessage(msg: string): Option<(nat, string)>
  {
    var p := |ErrorPrefix|;
    if |msg| < p || msg[..p] != ErrorPrefix then None
    else
      var rest := msg[p..];
      var n := DigitSpan(rest);
      if n == 0 || n == |rest| || rest[n] != ' ' then None
      else Some((DecimalValue(rest[..n]), rest[n + 1..]))
  }

  /** The error message loses nothing: its status and body can be recovered from it. */
  lemma ErrorMessageRoundTrip(status: nat, text: string)
    ensures ParseErrorMessage(ErrorMessage(status, text)) == Some((status, text))
  {
    var d := NatToDecimal(status);
    var msg := ErrorMessage(status, text);
    var rest := msg[|ErrorPrefix|..];
    assert msg[..|ErrorPrefix|] == ErrorPrefix;
    assert rest == d + (" " + text);
    DigitSpanOf(d, " " + text);
    assert rest[..|d|] == d;
    assert rest[|d| + 1..] == text;
    DecimalRoundTrip(status);
  }

  // ---- the operations ----

  const NoInit := Init(None, None)

  function HealthRequest(c: Client): Request
  {
    Fetch(c, "/v1/health", NoInit)
  }

  function InventoryRequest(c: Client): Request
  {
    Fetch(c, "/v1/inventory", NoInit)
  }

  /** `health` and `inventory` send a GET with no body to their fixed paths. */
  lemma ReadRequests(c: Client)
    ensures HealthRequest(c) == Request(Get, c.url + "/v1/health", Headers(c.token), None)
    ensures InventoryRequest(c) == Request(Get, c.url + "/v1/inventory", Headers(c.token), None)
  {
  }

  /** The `audit` parameters; `hours` is an integer number of hours. */
  datatype AuditFilter = AuditFilter(stack: Option<string>, secret: Option<string>, hours: Option<int>)

  /** JavaScript truthiness of an optional number: present and non-zero. */
  predicate TruthyNumber(n: Option<int>)
  {
    n.Some? && n.value != 0
  }

  /** The query parameters `audit` sends: `stack`, `secret`, `hours`, in that order,
      each only when truthy. */
  function AuditParams(f: AuditFilter): seq<Pair>
  {
    (if Truthy(f.stack) then [("stack", f.stack.value)] else [])
    + (if Truthy(f.secret) then [("secret", f.secret.value)] else [])
    + (if TruthyNumber(f.hours) then [("hours", IntToDecimal(f.hours.value))] else [])
  }

  function Rank(name: string): int
  {
    if name == "stack" then 0 else if name == "secret" then 1 else if name == "hours" then 2 else 3
  }

  /** Each parameter is present exactly when its field is truthy, carries the field's
      text, and the parameters come in the fixed order with no name twice. */
  lemma AuditParamsSpec(f: AuditFilter)
    ensures var ps := AuditParams(f);
      && (HasName(ps, "stack") <==> Truthy(f.stack))
      && (HasName(ps, "secret") <==> Truthy(f.secret))
      && (HasName(ps, "hours") <==> TruthyNumber(f.hours))
      && (Truthy(f.stack) ==> ("stack", f.stack.value) in ps)
      && (Truthy(f.secret) ==> ("secret", f.secret.value) in ps)
      && (TruthyNumber(f.hours) ==> ("hours", IntToDecimal(f.hours.value)) in ps)
      && (forall k :: 0 <= k < |ps| ==> Rank(ps[k].0) < 3)
      && (forall i, j :: 0 <= i < j < |ps| ==> Rank(ps[i].0) < Rank(ps[j].0))
  {
    var a := if Truthy(f.stack) then [("stack", f.stack.value)] else [];
    var b := if Truthy(f.secret) then [("secret", f.secret.value)] else [];
    var h := if TruthyNumber(f.hours) then [("hours", IntToDecimal(f.hours.value))] else [];
    assert AuditParams(f) == a + b + h;
    ThreeParams(a, b, h);
  }

  /** At most one `stack`, then at most one `secret`, then at most one `hours`: each name is
      present iff its part is, each part's pair is in the list, and ranks strictly increase. */
  lemma ThreeParams(a: seq<Pair>, b: seq<Pair>, h: seq<Pair>)
    requires |a| <= 1 && |b| <= 1 && |h| <= 1
    requires forall k :: 0 <= k < |a| ==> a[k].0 == "stack"
    requires forall k :: 0 <= k < |b| ==> b[k].0 == "secret"
    requires forall k :: 0 <= k < |h| ==> h[k].0 == "hours"
    ensures var ps := a + b + h;
      && (HasName(ps, "stack") <==> a != [])
      && (HasName(ps, "secret") <==> b != [])
      && (HasName(ps, "hours") <==> h != [])
      && (a != [] ==> a[0] in ps) && (b != [] ==> b[0] in ps) && (h != [] ==> h[0] in ps)
      && (forall k :: 0 <= k < |ps| ==> Rank(ps[k].0) < 3)
      && (forall i, j :: 0 <= i < j < |ps| ==> Rank(ps[i].0) < Rank(ps[j].0))
  {
    var ps := a + b + h;
    HasNameConcat(a, b, "stack");
    HasNameConcat(a, b, "secret");
    HasNameConcat(a, b, "hours");
    HasNameConcat(a + b, h, "stack");
    HasNameConcat(a + b, h, "secret");
    HasNameConcat(a + b, h, "hours");
    if a != [] { assert ps[0] == a[0]; }
    if b != [] { assert ps[|a|] == b[0]; }
    if h != [] { assert ps[|a| + |b|] == h[0]; }
    forall k | 0 <= k < |ps|
      ensures Rank(ps[k].0) == (if k < |a| then 0 else if k < |a| + |b| then 1 else 2)
    {
      if k < |a| { assert ps[k] == a[k]; }
      else if k < |a| + |b| { assert ps[k] == b[k - |a|]; }
      else { assert ps[k] == h[k - |a| - |b|]; }
    }
  }

  lemma HasNameConcat(x: seq<Pair>, y: seq<Pair>, name: string)
    ensures HasName(x + y, name) <==> HasName(x, name) || HasName(y, name)
  {
    if HasName(y, name) {
      var k :| 0 <= k < |y| && y[k].0 == name;
      assert (x + y)[|x| + k] == y[k];
    }
    if HasName(x, name) {
      var k :| 0 <= k < |x| && x[k].0 == name;
      assert (x + y)[k] == x[k];
    }
    if HasName(x + y, name) {
      var k :| 0 <= k < |x + y| && (x + y)[k].0 == name;
      if k < |x| { assert x[k].0 == name; } else { assert y[k - |x|].0 == name; }
    }
  }

  function AuditPath(f: AuditFilter): string
  {
    "/v1/audit?" + Serialize(AuditParams(f))
  }

  function AuditRequest(c: Client, f: AuditFilter): Request
  {
    Fetch(c, AuditPath(f), NoInit)
  }

  /** `audit` as written: an empty `URLSearchParams` filled by conditional `set` calls. */
  method Audit(c: Client, f: AuditFilter) returns (r: Request)
    ensures r == AuditRequest(c, f)
  {
    var qs: seq<Pair> := [];
    if Truthy(f.stack) {
      qs := SetParam(qs, "stack", f.stack.value);
    }
    assert forall k :: 0 <= k < |qs| ==> qs[k].0 == "stack";
    if Truthy(f.secret) {
      qs := SetParam(qs, "secret", f.secret.value);
    }
    assert forall k :: 0 <= k < |qs| ==> qs[k].0 == "stack" || qs[k].0 == "secret";
    if TruthyNumber(f.hours) {
      qs := SetParam(qs, "hours", IntToDecimal(f.hours.value));
    }
    assert qs == AuditParams(f);
    r := Fetch(c, "/v1/audit?" + Serialize(qs), NoInit);
  }

  /** The audit path always starts with `/v1/audit?` and is exactly that when no parameter is truthy. */
  lemma AuditPathShape(f: AuditFilter)
    ensures |AuditPath(f)| >= 10 && AuditPath(f)[..10] == "/v1/audit?"
    ensures AuditPath(f) == "/v1/audit?" <==> !Truthy(f.stack) && !Truthy(f.secret) && !TruthyNumber(f.hours)
  {
    SerializeEmpty(AuditParams(f));
    assert AuditPath(f) == "/v1/audit?" + Serialize(AuditParams(f));
  }

  /** The query of an audit path parses back into the encoded parameters. */
  lemma AuditQueryParses(f: AuditFilter)
    ensures Parse(AuditPath(f)[10..]) == Encoded(AuditParams(f))
  {
    assert AuditPath(f)[10..] == Serialize(AuditParams(f));
    ParseSerialize(AuditParams(f));
  }

  /** A decimal rendering is written into a query as it is. */
  lemma DecimalIsPlain(i: int)
    ensures Plain(IntToDecimal(i))
  {
    var d := IntToDecimal(i);
    forall k | 0 <= k < |d| ensures Unreserved(d[k]) {
      if i >= 0 || k > 0 {
        assert d[k] in "0123456789" by {
          if i < 0 { assert d[k] == d[1..][k - 1]; }
        }
      }
    }
  }

  /** Auditing a stack with a plain name over a number of hours queries exactly
      `stack=<stack>&hours=<hours>`, with no `secret`: stack "prod" over 24 hours
      gives `/v1/audit?stack=prod&hours=24`. */
  lemma AuditStackAndHours(stack: string, hours: int)
    requires stack != "" && Plain(stack) && hours != 0
    ensures AuditPath(AuditFilter(Some(stack), None, Some(hours)))
         == "/v1/audit?stack=" + stack + "&hours=" + IntToDecimal(hours)
  {
    StackAndHoursQuery(stack, hours);
    StackAndHoursText(stack, IntToDecimal(hours));
  }

  lemma StackAndHoursText(s: string, h: string)
    ensures "/v1/audit?" + ("stack" + "=" + s + "&" + "hours" + "=" + h) == "/v1/audit?stack=" + s + "&hours=" + h
  {
    Regroup("/v1/audit?", "stack", s, "hours", h);
    assert "/v1/audit?" + "stack" + "=" == "/v1/audit?stack=";
    assert "&" + "hours" + "=" == "&hours=";
  }

  lemma Regroup(p: string, n1: string, v1: string, n2: string, v2: string)
    ensures p + (n1 + "=" + v1 + "&" + n2 + "=" + v2) == (p + n1 + "=") + v1 + ("&" + n2 + "=") + v2
  {
  }

  lemma StackAndHoursQuery(stack: string, hours: int)
    requires stack != "" && Plain(stack) && hours != 0
    ensures Serialize(AuditParams(AuditFilter(Some(stack), None, Some(hours))))
         == "stack" + "=" + stack + "&" + "hours" + "=" + IntToDecimal(hours)
  {
    StackAndHoursParams(stack, hours);
    DecimalIsPlain(hours);
    assert Plain("stack") && Plain("hours");
    SerializeTwoPlain("stack", stack, "hours", IntToDecimal(hours));
  }

  lemma StackAndHoursParams(stack: string, hours: int)
    requires stack != "" && hours != 0
    ensures AuditParams(AuditFilter(Some(stack), None, Some(hours))) == [("stack", stack), ("hours", IntToDecimal(hours))]
  {
  }

  /** `DELETE /v1/cache/<stack>`, the stack interpolated as it is. */
  function RotateCacheRequest(c: Client, stack: string): Request
  {
    Fetch(c, "/v1/cache/" + stack, Init(Some(Delete), None))
  }

  /** `POST /v1/rotate/<itemId>`, the item id interpolated as it is. */
  function RotateRequest(c: Client, itemId: string): Request
  {
    Fetch(c, "/v1/rotate/" + itemId, Init(Some(Post), None))
  }

  /** `POST /v1/materialize/env` with a body of `stack` and `out_path` only. */
  function SyncRequest(c: Client, stack: string, outPath: Option<string>): Request
  {
    Fetch(c, "/v1/materialize/env", Init(Some(Post), Some(MaterializeBody(stack, outPath))))
  }

  /** The purge is a DELETE whose URL ends with the stack, unescaped, right after the
      fixed prefix: the stack can be read back from the URL, so distinct stacks give
      distinct URLs. */
  lemma RotateCachePath(c: Client, stack: string)
    ensures var r := RotateCacheRequest(c, stack);
      && r.verb == Delete && r.body.None? && r.headers == Headers(c.token)
      && r.url[..|c.url| + 10] == c.url + "/v1/cache/"
      && r.url[|c.url| + 10..] == stack
  {
    var u := RotateCacheRequest(c, stack).url;
    assert u == (c.url + "/v1/cache/") + stack;
  }

  /** Rotation is a POST whose URL ends with the item id, unescaped, right after the
      fixed prefix. */
  lemma RotatePath(c: Client, itemId: string)
    ensures var r := RotateRequest(c, itemId);
      && r.verb == Post && r.body.None? && r.headers == Headers(c.token)
      && r.url[..|c.url| + 11] == c.url + "/v1/rotate/"
      && r.url[|c.url| + 11..] == itemId
  {
    var u := RotateRequest(c, itemId).url;
    assert u == (c.url + "/v1/rotate/") + itemId;
  }

  /** A stack name holding `/` or `..` reaches the URL unescaped. */
  lemma StackNotEscaped(c: Client)
    ensures RotateCacheRequest(c, "a/../b").url == c.url + "/v1/cache/a/../b"
  {
  }

  /** The sync request posts to its fixed path, and its body names the stack and output path it was given. */
  lemma SyncRequestShape(c: Client, stack: string, outPath: Option<string>)
    ensures var r := SyncRequest(c, stack, outPath);
      r.verb == Post && r.url == c.url + "/v1/materialize/env"
      && r.body == Some(MaterializeBody(stack, outPath))
  {
  }
}
