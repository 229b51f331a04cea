/**
 * The seven tools the MCP server registers (src/index.ts:13-122): which backend
 * requests each one sends, and the text it returns built from the decoded
 * backend replies. Backend replies are inputs: each is either the decoded JSON
 * value with its pretty-printed text, or the error the client threw.
 */
module HeraldTools {
  import opened Wrappers
  import opened Text
  import opened HeraldClient
  import opened FormUrlEncoded

  // ---- the declared tool surface ----

  datatype ParamKind = StringParam | NumberParam | BooleanParam | CategoryParam | FieldsParam

  datatype Param = Param(name: string, kind: ParamKind, optional: bool)

  datatype ToolSpec = ToolSpec(name: string, params: seq<Param>)

  /** The tool names and their declared parameters, in registration order. */
  const Catalogue: seq<ToolSpec> := [
    ToolSpec("herald_health", []),
    ToolSpec("herald_inventory", []),
    ToolSpec("herald_audit", [Param("stack", StringParam, true), Param("secret", StringParam, true),
                              Param("hours", NumberParam, true)]),
    ToolSpec("herald_rotate_cache", [Param("stack", StringParam, false)]),
    ToolSpec("herald_sync", [Param("stack", StringParam, false), Param("env_content", StringParam, false),
                             Param("out_path", StringParam, true), Param("bypass_cache", BooleanParam, true)]),
    ToolSpec("herald_rotate", [Param("item_id", StringParam, false)]),
    ToolSpec("herald_provision_secret", [Param("vault", StringParam, false), Param("item", StringParam, false),
                                         Param("category", CategoryParam, true), Param("fields", FieldsParam, false)])
  ]

  /** The first catalogue entry with the given name. */
  function ToolNamed(tools: seq<ToolSpec>, name: string): (r: Option<ToolSpec>)
    ensures r.Some? <==> exists k :: 0 <= k < |tools| && tools[k].name == name
    ensures r.Some? ==> r.value.name == name && r.value in tools
  {
    if tools == [] then None
    else if tools[0].name == name then Some(tools[0])
    else ToolNamed(tools[1..], name)
  }

  // ---- decoded backend records ----

  /**
   * One entry of `providers` as the tools read it. The `HealthResponse`
   * interface of the client declares only `name`, `status`, `latency_ms` and
   * `error`; the tools also read `type` and `rate_limited_since`.
   */
  datatype Provider = Provider(
    name: string, status: string, latencyMs: Option<int>, error: Option<string>,
    kind: Option<string>, rateLimitedSince: Option<string>)

  /** The health reply; `provisioner` is read by the tools but not declared by the client. */
  datatype Health = Health(status: string, providers: seq<Provider>, uptimeSeconds: int, provisioner: Option<string>)

  /** The provisioning reply: the item id and one `op://` reference per field, in property order. */
  datatype Provisioned = Provisioned(itemId: string, refs: seq<(string, string)>)

  /** A decoded reply and its `JSON.stringify(data, null, 2)` text. */
  datatype Reply<T> = Reply(data: T, pretty: string)

  datatype Content = TextBlock(text: string)

  /** What a handler settles with: one text block, or the error it let escape. */
  datatype ToolResult = Success(content: seq<Content>) | Failure(message: string)

  function Respond(text: string): ToolResult
  {
    Success([TextBlock(text)])
  }

  // ---- herald_health ----

  const ConnectServerLabel := "Connect (local, no rate limits)"
  const ServiceAccountLabel := "Service Account (cloud API, rate-limited)"

  /** `connect_server` and `service_account` get fixed labels; any other type is shown
      as it is, even when empty; a missing type is `unknown`. */
  function TypeLabel(kind: Option<string>): (text: string)
    ensures kind == Some("connect_server") ==> text == ConnectServerLabel
    ensures kind == Some("service_account") ==> text == ServiceAccountLabel
    ensures kind.None? ==> text == "unknown"
    ensures kind.Some? && kind.value != "connect_server" && kind.value != "service_account" ==> text == kind.value
  {
    if kind == Some("connect_server") then ConnectServerLabel
    else if kind == Some("service_account") then ServiceAccountLabel
    else kind.GetOr("unknown")
  }

  /** A template part `${field ? `<lead><field>` : ''}`: present only when the field is a non-empty string. */
  function WhenTruthy(lead: string, field: Option<string>): (r: string)
    ensures r == "" <==> !Truthy(field)
    ensures Truthy(field) ==> r == lead + field.value
  {
    if Truthy(field) then lead + field.value else ""
  }

  /** The provider's line: name, type label, status, then the `: <error>` suffix and the
      rate-limit note, each only when its field is non-empty. */
  function ProviderLine(p: Provider): string
  {
    "  " + p.name + " [" + TypeLabel(p.kind) + "] \U{2014} " + p.status
      + WhenTruthy(": ", p.error) + WhenTruthy(" \U{26A0} rate-limited since ", p.rateLimitedSince)
  }

  function ProviderLines(ps: seq<Provider>): (lines: seq<string>)
    ensures |lines| == |ps|
    ensures forall k :: 0 <= k < |ps| ==> lines[k] == ProviderLine(ps[k])
  {
    if ps == [] then [] else [ProviderLine(ps[0])] + ProviderLines(ps[1..])
  }

  const ConnectProvisionerLabel := "Connect (local REST API, no rate limits)"
  const SdkProvisionerLabel := "SDK service account (cloud API, rate-limited)"

  /** `connect` and `sdk` get fixed labels; anything else, including a missing field, is `unavailable`. */
  function ProvisionerLabel(provisioner: Option<string>): (text: string)
    ensures provisioner == Some("connect") <==> text == ConnectProvisionerLabel
    ensures provisioner == Some("sdk") <==> text == SdkProvisionerLabel
    ensures provisioner != Some("connect") && provisioner != Some("sdk") <==> text == "unavailable"
  {
    if provisioner == Some("connect") then ConnectProvisionerLabel
    else if provisioner == Some("sdk") then SdkProvisionerLabel
    else "unavailable"
  }

  /** The five lines before the provider list: status, uptime, provisioner, a blank line, a heading. */
  function HealthHeading(h: Health): (lines: seq<string>)
    ensures |lines| == 5
  {
    [ "Status: " + h.status,
      "Uptime: " + IntToDecimal(h.uptimeSeconds) + "s",
      "Provisioner: " + ProvisionerLabel(h.provisioner),
      "",
      "Read providers (priority order):"
    ]
  }

  /** The summary lines: the heading, then one line per provider. */
  function HealthLines(h: Health): seq<string>
  {
    HealthHeading(h) + ProviderLines(h.providers)
  }

  function HealthText(r: Reply<Health>): string
  {
    Join(HealthLines(r.data), '\n') + "\n\n" + r.pretty
  }

  function HealthTool(r: Outcome<Reply<Health>>): (t: ToolResult)
    ensures r.Ok? ==> t == Respond(HealthText(r.value))
    ensures r.Err? ==> t == Failure(r.message)
  {
    match r
    case Err(m) => Failure(m)
    case Ok(reply) => Respond(HealthText(reply))
  }

  /** Providers keep their priority order in the summary: line 5 + k is provider k's line. */
  lemma HealthLinesOrder(h: Health)
    ensures |HealthLines(h)| == 5 + |h.providers|
    ensures forall k :: 0 <= k < |h.providers| ==> HealthLines(h)[5 + k] == ProviderLine(h.providers[k])
  {
    var head := HealthHeading(h);
    var pl := ProviderLines(h.providers);
    assert HealthLines(h) == head + pl;
    assert HealthLines(h)[|head|..] == pl;
  }

  /**
   * The health text is the summary, a blank line, then the pretty JSON: when
   * no summary line holds a line break, cutting the text at line breaks before
   * the JSON gives the summary lines back.
   */
  lemma HealthTextLayout(r: Reply<Health>)
    requires FreeOf(HealthLines(r.data), '\n')
    ensures var t := HealthText(r); var s := Join(HealthLines(r.data), '\n');
      && t[..|s|] == s
      && t[|s|..|s| + 2] == "\n\n"
      && t[|s| + 2..] == r.pretty
      && Split(s, '\n') == HealthLines(r.data)
  {
    var s := Join(HealthLines(r.data), '\n');
    SplitJoin(HealthLines(r.data), '\n');
    BlankLineBetween(s, r.pretty);
  }

  lemma BlankLineBetween(s: string, p: string)
    ensures var t := s + "\n\n" + p;
      t[..|s|] == s && t[|s|..|s| + 2] == "\n\n" && t[|s| + 2..] == p
  {
  }

  // ---- herald_inventory, herald_audit, herald_rotate_cache, herald_sync ----

  /** Tools whose text is the pretty JSON of the reply, unchanged. */
  function PassThroughTool(r: Outcome<string>): (t: ToolResult)
    ensures r.Ok? ==> t == Respond(r.value)
    ensures r.Err? ==> t == Failure(r.message)
  {
    match r
    case Err(m) => Failure(m)
    case Ok(pretty) => Respond(pretty)
  }

  /** The purge reply is awaited but not shown: the text names the stack. */
  function RotateCacheTool(stack: string, r: Outcome<string>): (t: ToolResult)
    ensures r.Ok? ==> t == Respond("Cache cleared for stack: " + stack)
    ensures r.Err? ==> t == Failure(r.message)
  {
    match r
    case Err(m) => Failure(m)
    case Ok(_) => Respond("Cache cleared for stack: " + stack)
  }

  // ---- Promise.all over two backend calls ----

  /**
   * `Promise.all([a, b])`: fulfilled with both values when both fulfil;
   * otherwise rejected with the error of the call that fails first in time.
   * `aFirst` says whether `a` settles before `b`; it matters only when both fail.
   */
  function All<A, B>(a: Outcome<A>, b: Outcome<B>, aFirst: bool): (r: Outcome<(A, B)>)
    ensures r.Ok? <==> a.Ok? && b.Ok?
    ensures r.Ok? ==> r.value == (a.value, b.value)
    ensures a.Err? && b.Ok? ==> r == Err(a.message)
    ensures a.Ok? && b.Err? ==> r == Err(b.message)
    ensures a.Err? && b.Err? ==> r == Err(if aFirst then a.message else b.message)
    ensures r.Err? ==> (a.Err? && r.message == a.message) || (b.Err? && r.message == b.message)
  {
    if a.Ok? && b.Ok? then Ok((a.value, b.value))
    else if a.Err? && (b.Ok? || aFirst) then Err(a.message)
    else Err(b.message)
  }

  // ---- herald_rotate ----

  predicate IsReadyConnect(p: Provider)
  {
    p.kind == Some("connect_server") && p.status == "ok"
  }

  /** Provider `k` is the first Connect server provider whose status is `ok`. */
  predicate FirstReady(ps: seq<Provider>, k: nat)
  {
    k < |ps| && IsReadyConnect(ps[k]) && forall j :: 0 <= j < k ==> !IsReadyConnect(ps[j])
  }

  /** `providers.find(...)`: the position of the first Connect server provider whose status is `ok`. */
  function ConnectProvider(ps: seq<Provider>): (r: Option<nat>)
    ensures r.None? <==> forall k :: 0 <= k < |ps| ==> !IsReadyConnect(ps[k])
    ensures r.Some? ==> FirstReady(ps, r.value)
  {
    if ps == [] then None
    else if IsReadyConnect(ps[0]) then Some(0)
    else
      var r := ConnectProvider(ps[1..]);
      assert forall k :: 1 <= k < |ps| ==> ps[k] == ps[1..][k - 1];
      if r.None? then None else Some(r.value + 1)
  }

  /** At most one provider is the first ready one. */
  lemma FirstReadyUnique(ps: seq<Provider>, k: nat, k': nat)
    requires FirstReady(ps, k) && FirstReady(ps, k')
    ensures k == k'
  {
  }

  const GenericHint := "To update the secret value: use the 1Password web UI or CLI, then run herald_rotate again."

  function ConnectHint(name: string): string
  {
    "To update the secret value: use the 1Password Connect REST API (" + name
      + ") or the 1Password web UI, then run herald_rotate again."
  }

  /** Names the first ready Connect server provider when there is one, otherwise the generic hint. */
  function UpdateHint(ps: seq<Provider>): (hint: string)
    ensures (forall k :: 0 <= k < |ps| ==> !IsReadyConnect(ps[k])) ==> hint == GenericHint
    ensures forall k: nat :: FirstReady(ps, k) ==> hint == ConnectHint(ps[k].name)
  {
    match ConnectProvider(ps)
    case Some(i) =>
      forall k: nat | FirstReady(ps, k) ensures k == i {
        FirstReadyUnique(ps, k, i);
      }
      ConnectHint(ps[i].name)
    case None => GenericHint
  }

  const RotationTriggered := "Rotation triggered: cache invalidated and affected stacks redeployed."

  function RotateLines(health: Health, rotated: string): seq<string>
  {
    [RotationTriggered, UpdateHint(health.providers), "", rotated]
  }

  /** Both calls are awaited together; either failure fails the tool. */
  function RotateTool(health: Outcome<Reply<Health>>, rotated: Outcome<string>, healthFirst: bool): (t: ToolResult)
    ensures t.Success? <==> health.Ok? && rotated.Ok?
    ensures t.Success? ==> t == Respond(Join(RotateLines(health.value.data, rotated.value), '\n'))
    ensures health.Err? && (rotated.Ok? || healthFirst) ==> t == Failure(health.message)
    ensures rotated.Err? && (health.Ok? || !healthFirst) ==> t == Failure(rotated.message)
  {
    match All(health, rotated, healthFirst)
    case Err(m) => Failure(m)
    case Ok((h, pretty)) => Respond(Join(RotateLines(h.data, pretty), '\n'))
  }

  // ---- herald_provision_secret ----

  const ConnectNote := "Provisioned via Connect server (local REST API, no rate limits).\n\U{26A0} Upsert limitation: if the item already existed, only new fields were added \U{2014} existing field values were NOT updated. To update an existing field value, delete the item in 1Password and re-provision."
  const SdkNote := "Provisioned via SDK service account (cloud API). Upsert limitation applies equally: existing field values are never overwritten."

  /** The provisioner defaults to `unknown`; `connect` and `sdk` get fixed notes, anything else is named. */
  function ProvisionerNote(provisioner: Option<string>): (note: string)
    ensures provisioner == Some("connect") ==> note == ConnectNote
    ensures provisioner == Some("sdk") ==> note == SdkNote
    ensures provisioner.None? ==> note == "Provisioner: unknown"
    ensures provisioner.Some? && provisioner.value != "connect" && provisioner.value != "sdk"
            ==> note == "Provisioner: " + provisioner.value
  {
    var p := provisioner.GetOr("unknown");
    if p == "connect" then ConnectNote
    else if p == "sdk" then SdkNote
    else "Provisioner: " + p
  }

  /** One `  field=ref` line per reference, in entry order. */
  function RefLines(refs: seq<(string, string)>): (lines: seq<string>)
    ensures |lines| == |refs|
    ensures forall k :: 0 <= k < |refs| ==> lines[k] == "  " + refs[k].0 + "=" + refs[k].1
  {
    if refs == [] then [] else ["  " + refs[0].0 + "=" + refs[0].1] + RefLines(refs[1..])
  }

  function ProvisionLines(vault: string, item: string, result: Provisioned, provisioner: Option<string>): seq<string>
  {
    [ "Created/updated item \"" + item + "\" in vault \"" + vault + "\"",
      "Item ID: " + result.itemId,
      "",
      "op:// references (use these in extra.env):"
    ] + RefLines(result.refs) + ["", ProvisionerNote(provisioner)]
  }

  /** The text has four heading lines, then the reference lines in entry order, a blank line and the note. */
  lemma ProvisionLinesLayout(vault: string, item: string, result: Provisioned, provisioner: Option<string>)
    ensures var lines := ProvisionLines(vault, item, result, provisioner);
      && |lines| == 6 + |result.refs|
      && lines[1] == "Item ID: " + result.itemId
      && (forall k :: 0 <= k < |result.refs| ==> lines[4 + k] == "  " + result.refs[k].0 + "=" + result.refs[k].1)
      && lines[4 + |result.refs|] == ""
      && lines[5 + |result.refs|] == ProvisionerNote(provisioner)
  {
  }

  function ProvisionTool(vault: string, item: string, health: Outcome<Reply<Health>>,
                         provisioned: Outcome<Provisioned>, healthFirst: bool): (t: ToolResult)
    ensures t.Success? <==> health.Ok? && provisioned.Ok?
    ensures t.Success? ==> t == Respond(Join(ProvisionLines(vault, item, provisioned.value,
                                                            health.value.data.provisioner), '\n'))
    ensures health.Err? && (provisioned.Ok? || healthFirst) ==> t == Failure(health.message)
    ensures provisioned.Err? && (health.Ok? || !healthFirst) ==> t == Failure(provisioned.message)
  {
    match All(health, provisioned, healthFirst)
    case Err(m) => Failure(m)
    case Ok((h, result)) => Respond(Join(ProvisionLines(vault, item, result, h.data.provisioner), '\n'))
  }

  // ---- the backend requests each tool sends ----

  datatype Category = Login | ApiCredentials | SecureNote

  datatype FieldSpec = FieldSpec(value: Option<string>, concealed: Option<bool>)

  /** A validated call of one of the seven tools. */
  datatype ToolCall =
    | HealthCall
    | InventoryCall
    | AuditCall(filter: AuditFilter)
    | RotateCacheCall(stack: string)
    | SyncCall(stack: string, envContent: string, outPath: Option<string>, bypassCache: Option<bool>)
    | RotateCall(itemId: string)
    | ProvisionCall(vault: string, item: string, category: Option<Category>, fields: seq<(string, FieldSpec)>)

  function CallName(call: ToolCall): string
  {
    match call
    case HealthCall => "herald_health"
    case InventoryCall => "herald_inventory"
    case AuditCall(_) => "herald_audit"
    case RotateCacheCall(_) => "herald_rotate_cache"
    case SyncCall(_, _, _, _) => "herald_sync"
    case RotateCall(_) => "herald_rotate"
    case ProvisionCall(_, _, _, _) => "herald_provision_secret"
  }

  /** Every call is of a registered tool. */
  lemma CallsAreRegistered(call: ToolCall)
    ensures ToolNamed(Catalogue, CallName(call)).Some?
  {
    var name := CallName(call);
    var k := match call
      case HealthCall => 0
      case InventoryCall => 1
      case AuditCall(_) => 2
      case RotateCacheCall(_) => 3
      case SyncCall(_, _, _, _) => 4
      case RotateCall(_) => 5
      case ProvisionCall(_, _, _, _) => 6;
    assert Catalogue[k].name == name;
  }

  /** The `client.sync` call as written: four arguments to a method that takes
      `(stack, outPath)`, so `env_content` is received as the output path. */
  function SyncCallAsWritten(c: Client, stack: string, envContent: string, outPath: Option<string>,
                             bypassCache: Option<bool>): Request
  {
    SyncRequest(c, stack, Some(envContent))
  }

  /** As written, the backend is told to write to a path equal to the env file contents,
      and the caller's `out_path` never reaches it. */
  lemma SyncCallAsWrittenMisplacesContent(c: Client, stack: string, envContent: string, outPath: Option<string>,
                                          bypassCache: Option<bool>)
    ensures SyncCallAsWritten(c, stack, envContent, outPath, bypassCache).body
         == Some(MaterializeBody(stack, Some(envContent)))
    ensures outPath != Some(envContent) ==>
              SyncCallAsWritten(c, stack, envContent, outPath, bypassCache).body != Some(MaterializeBody(stack, outPath))
  {
  }

  /** The call aligned with the client's signature: the caller's `out_path` is the output path. */
  function SyncCallAligned(c: Client, stack: string, outPath: Option<string>): (r: Request)
    ensures r.body == Some(MaterializeBody(stack, outPath))
    ensures r.verb == Post && r.url == c.url + "/v1/materialize/env"
  {
    SyncRequest(c, stack, outPath)
  }

  /**
   * The backend requests a call sends, in issue order, as the handlers are
   * written (so `herald_sync` sends its `env_content` as the output path).
   * The provisioning request itself is not part of this model:
   * `herald_provision_secret` is shown sending only its health request.
   */
  function Requests(c: Client, call: ToolCall): (rs: seq<Request>)
    ensures |rs| >= 1
    ensures forall r :: r in rs ==> r.headers == Headers(c.token) && c.url <= r.url
    ensures |rs| == 2 <==> call.RotateCall?
    ensures call.HealthCall? ==> rs == [HealthRequest(c)]
    ensures call.InventoryCall? ==> rs == [InventoryRequest(c)]
    ensures call.AuditCall? ==> rs == [AuditRequest(c, call.filter)]
    ensures call.RotateCacheCall? ==> rs == [RotateCacheRequest(c, call.stack)]
    ensures call.ProvisionCall? ==> rs == [HealthRequest(c)]
    ensures call.SyncCall? ==> rs == [SyncRequest(c, call.stack, Some(call.envContent))]
    ensures call.RotateCall? ==> rs == [HealthRequest(c), RotateRequest(c, call.itemId)]
    ensures call.SyncCall? ==>
              |rs| == 1 && rs[0].verb == Post && rs[0].body == Some(MaterializeBody(call.stack, Some(call.envContent)))
  {
    match call
    case HealthCall => [HealthRequest(c)]
    case InventoryCall => [InventoryRequest(c)]
    case AuditCall(filter) => [AuditRequest(c, filter)]
    case RotateCacheCall(stack) => [RotateCacheRequest(c, stack)]
    case SyncCall(stack, envContent, outPath, bypassCache) => [SyncCallAsWritten(c, stack, envContent, outPath, bypassCache)]
    case RotateCall(itemId) => [HealthRequest(c), RotateRequest(c, itemId)]
    case ProvisionCall(_, _, _, _) => [HealthRequest(c)]
  }

  /** A `herald_audit` call for a plain stack over a non-zero number of hours sends one
      GET whose query is exactly `stack=<stack>&hours=<hours>`: stack `prod` over 24 hours
      queries `/v1/audit?stack=prod&hours=24`, with no `secret`. */
  lemma AuditToolEndToEnd(c: Client, stack: string, hours: int)
    requires stack != "" && Plain(stack) && hours != 0
    ensures Requests(c, AuditCall(AuditFilter(Some(stack), None, Some(hours))))
         == [Request(Get, c.url + ("/v1/audit?stack=" + stack + "&hours=" + IntToDecimal(hours)), Headers(c.token), None)]
  {
    var f := AuditFilter(Some(stack), None, Some(hours));
    assert Requests(c, AuditCall(f)) == [AuditRequest(c, f)];
    AuditStackAndHours(stack, hours);
    assert AuditRequest(c, f) == Request(Get, c.url + AuditPath(f), Headers(c.token), None);
  }
}
