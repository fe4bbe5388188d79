/**
  The inputs of the MCP, A2A, LLM and hook digests that a caller and a worker compare: canonical
  forms of the configuration, and what equal inputs imply. Hashing and JSON are not modelled; an
  input stands for its digest.
*/
module Fingerprints {
  import opened Wrappers
  import opened StringOrder
  import opened Digests
  import opened Filters
  import Names

  const DEFAULT_TIMEOUT_NS: int := 30_000_000_000
  const DEFAULT_RETRIES: int := 1

  function OrDefault(value: int, default: int): int {
    if value == 0 then default else value
  }

  /** Two settings mean the same once zero stands for the default: they are equal, or each is zero or the default. */
  predicate SameSetting(x: int, y: int, default: int) {
    x == y || ((x == 0 || x == default) && (y == 0 || y == default))
  }

  // ----- MCP

  datatype OAuth = OAuth(clientId: string, clientSecret: string, tokenUrl: string, scopes: seq<string>, endpointParams: map<string, seq<string>>)

  datatype Transport =
    | NoTransport
    | Stdio(command: string, args: seq<string>, env: map<string, string>)
    | Http(url: string, token: string, oauth: Option<OAuth>, headers: map<string, string>, skipTls: bool)
    | Loopback
    | OtherTransport

  datatype McpServer = McpServer(transport: Transport, timeoutNs: int, retries: int, filter: Filter)

  datatype TransportRow =
    | NoTransportRow
    | StdioRow(command: string, args: seq<string>, envKeys: seq<string>)
    | HttpRow(url: string, auth: string, hasToken: bool, tokenUrl: string, scopes: seq<string>, hasSecret: bool,
              endpointKeys: seq<string>, headerKeys: seq<string>)
    | LoopbackRow
    | UnknownRow

  datatype McpRow = McpRow(transport: TransportRow, timeoutNs: int, retries: int, allow: seq<string>, block: seq<string>)

  predicate Blank(s: string) {
    Names.TrimSpace(s) == ""
  }

  predicate AnyOAuth(o: OAuth) {
    !Blank(o.clientId) || !Blank(o.clientSecret) || !Blank(o.tokenUrl) || o.scopes != [] || o.endpointParams != map[]
  }

  /** `MCPStreamableHTTP.Validate`. */
  predicate HttpValid(t: Transport)
    requires t.Http?
  {
    && !Blank(t.url)
    && (t.oauth.Some? && AnyOAuth(t.oauth.value) ==>
        !Blank(t.oauth.value.clientId) && !Blank(t.oauth.value.clientSecret) && !Blank(t.oauth.value.tokenUrl) && Blank(t.token))
  }

  function AuthLabel(t: Transport): string
    requires t.Http?
  {
    if !HttpValid(t) then "invalid"
    else if t.oauth.Some? && AnyOAuth(t.oauth.value) then "oauth2_client_credentials"
    else if !Blank(t.token) then "bearer_token"
    else "none"
  }

  /** No OAuth settings show as empty ones. */
  function OAuthOf(t: Transport): OAuth
    requires t.Http?
  {
    match t.oauth case Some(o) => o case None => OAuth("", "", "", [], map[])
  }

  ghost function TransportRowOf(t: Transport): TransportRow {
    match t
    case NoTransport => NoTransportRow
    case Stdio(command, args, env) => StdioRow(command, args, SortedKeys(env.Keys))
    case Http(url, token, _, headers, _) =>
      var o := OAuthOf(t);
      HttpRow(Names.TrimSpace(url), AuthLabel(t), !Blank(token), Names.TrimSpace(o.tokenUrl), SortedOf(multiset(o.scopes)),
        !Blank(o.clientSecret), SortedOf(TrimmedAll(o.endpointParams.Keys)), SortedOf(TrimmedAll(headers.Keys)))
    case Loopback => LoopbackRow
    case OtherTransport => UnknownRow
  }

  ghost function McpRowOf(s: McpServer): McpRow {
    McpRow(TransportRowOf(s.transport), OrDefault(s.timeoutNs, DEFAULT_TIMEOUT_NS), OrDefault(s.retries, DEFAULT_RETRIES),
      SortedOf(multiset(s.filter.allow)), SortedOf(multiset(s.filter.block)))
  }

  ghost function McpRows(servers: map<string, McpServer>): map<string, McpRow> {
    map k | k in servers :: McpRowOf(servers[k])
  }

  ghost function McpInput(servers: map<string, McpServer>, extra: seq<string>): Input<McpRow> {
    InputOf(McpRows(servers), extra)
  }

  /** What an HTTP row shows: trimmed addresses, whether there is a token and a secret, scopes and trimmed keys in order. */
  lemma HttpRowTells(t: Transport)
    requires t.Http?
    ensures var row, o := TransportRowOf(t), OAuthOf(t);
      && row.HttpRow? && row.url == Names.TrimSpace(t.url) && row.tokenUrl == Names.TrimSpace(o.tokenUrl)
      && (row.hasToken <==> Names.TrimSpace(t.token) != "") && (row.hasSecret <==> Names.TrimSpace(o.clientSecret) != "")
      && Sorted(row.scopes) && multiset(row.scopes) == multiset(o.scopes)
      && Sorted(row.headerKeys) && multiset(row.headerKeys) == TrimmedAll(t.headers.Keys)
      && Sorted(row.endpointKeys) && multiset(row.endpointKeys) == TrimmedAll(o.endpointParams.Keys)
  {
    var o := OAuthOf(t);
    SortsAll(multiset(o.scopes));
    SortsAll(TrimmedAll(t.headers.Keys));
    SortsAll(TrimmedAll(o.endpointParams.Keys));
  }

  lemma SortsAll(m: multiset<string>)
    ensures Sorted(SortedOf(m)) && multiset(SortedOf(m)) == m
  {
    SortedOfIsSorted(m);
    SortedOfKeepsElements(m);
  }

  method MakeTransportRow(t: Transport) returns (row: TransportRow)
    ensures row == TransportRowOf(t)
  {
    match t
    case NoTransport => return NoTransportRow;
    case Stdio(command, args, env) =>
      var envKeys := CollectSortedKeys(env.Keys);
      return StdioRow(command, args, envKeys);
    case Http(url, token, oauth, headers, _) =>
      var headerKeys := SortedTrimmedKeys(headers.Keys);
      var tokenUrl, hasSecret := "", false;
      var scopes, endpointKeys: seq<string> := [], [];
      if oauth.Some? {
        var o := oauth.value;
        tokenUrl := Names.TrimSpace(o.tokenUrl);
        hasSecret := !Blank(o.clientSecret);
        scopes := SortStrings(o.scopes);
        endpointKeys := SortedTrimmedKeys(o.endpointParams.Keys);
      }
      return HttpRow(Names.TrimSpace(url), AuthLabel(t), !Blank(token), tokenUrl, scopes, hasSecret, endpointKeys, headerKeys);
    case Loopback => return LoopbackRow;
    case OtherTransport => return UnknownRow;
  }

  method MakeMcpRow(s: McpServer) returns (row: McpRow)
    ensures row == McpRowOf(s)
  {
    var allow := SortStrings(s.filter.allow);
    var block := SortStrings(s.filter.block);
    var transport := MakeTransportRow(s.transport);
    row := McpRow(transport, OrDefault(s.timeoutNs, DEFAULT_TIMEOUT_NS), OrDefault(s.retries, DEFAULT_RETRIES), allow, block);
  }

  method AppendMcpRow(servers: map<string, McpServer>, k: string, shot: seq<(string, McpRow)>, ghost rows: map<string, McpRow>)
      returns (r: seq<(string, McpRow)>)
    requires rows == McpRows(servers) && k in servers
    ensures k in rows && r == shot + [(k, rows[k])]
  {
    var row := MakeMcpRow(servers[k]);
    r := shot + [(k, row)];
  }

  /** Built from a map in any iteration order, the input is the same. */
  method McpConfigInput(servers: map<string, McpServer>, extra: seq<string>) returns (r: Input<McpRow>)
    ensures r == McpInput(servers, extra)
  {
    ghost var rows := McpRows(servers);
    assert rows.Keys == servers.Keys && |rows| == |rows.Keys| && |servers| == |servers.Keys|;
    if |servers| == 0 && |extra| == 0 {
      return NoInput;
    }
    var keys := CollectSortedKeys(servers.Keys);
    SortedKeysAreTheKeys(servers.Keys);
    var shot := McpShotRows(servers, keys, rows);
    var names := SortStrings(extra);
    return Shot(shot, names);
  }

  method McpShotRows(servers: map<string, McpServer>, keys: seq<string>, ghost rows: map<string, McpRow>) returns (shot: seq<(string, McpRow)>)
    requires rows == McpRows(servers) && forall k :: k in keys ==> k in servers && k in rows
    ensures shot == RowsFor(keys, rows)
  {
    shot := [];
    for i := 0 to |keys|
      invariant shot == RowsFor(keys[..i], rows)
    {
      assert keys[..i + 1][..i] == keys[..i];
      shot := AppendMcpRow(servers, keys[i], shot, rows);
    }
    assert keys[..|keys|] == keys;
  }

  lemma McpRowsAgreeIff(a: map<string, McpServer>, b: map<string, McpServer>)
    ensures McpRows(a) == McpRows(b) <==> a.Keys == b.Keys && forall k :: k in a && k in b ==> McpRowOf(a[k]) == McpRowOf(b[k])
  {
    var ra, rb := McpRows(a), McpRows(b);
    assert ra.Keys == a.Keys && rb.Keys == b.Keys;
    assert forall k :: k in a ==> ra[k] == McpRowOf(a[k]);
    assert forall k :: k in b ==> rb[k] == McpRowOf(b[k]);
    MapsAgreeIff(ra, rb);
  }

  /** Two configurations get the same input exactly when they have the same server keys with the same rows and the same extra clients. */
  lemma McpInputsAgreeIff(a: map<string, McpServer>, x: seq<string>, b: map<string, McpServer>, y: seq<string>)
    ensures McpInput(a, x) == McpInput(b, y) <==>
      a.Keys == b.Keys && multiset(x) == multiset(y) && forall k :: k in a && k in b ==> McpRowOf(a[k]) == McpRowOf(b[k])
  {
    InputsAgreeIff(McpRows(a), x, McpRows(b), y);
    McpRowsAgreeIff(a, b);
  }

  /** Equal MCP inputs: every server key is on both sides, filters every tool list alike and has the same settings. */
  lemma EqualMcpInputsActAlike(a: map<string, McpServer>, x: seq<string>, b: map<string, McpServer>, y: seq<string>, k: string, specs: seq<Spec>)
    requires McpInput(a, x) == McpInput(b, y)
    ensures k in a <==> k in b
    ensures k in a ==> Passing(a[k].filter, specs, Exact) == Passing(b[k].filter, specs, Exact)
    ensures k in a && a[k].timeoutNs != b[k].timeoutNs ==> a[k].timeoutNs in {0, 30_000_000_000} && b[k].timeoutNs in {0, 30_000_000_000}
    ensures k in a && a[k].retries != b[k].retries ==> a[k].retries in {0, 1} && b[k].retries in {0, 1}
    ensures k in a ==> SameEndpoint(a[k].transport, b[k].transport)
  {
    McpInputsAgreeIff(a, x, b, y);
    assert k in a <==> k in a.Keys;
    assert k in b <==> k in b.Keys;
    if k in a {
      McpServerRowsAgreeIff(a[k], b[k]);
      SameListsSamePassing(a[k].filter, b[k].filter, specs, Exact);
    }
  }

  /** The same process with the same environment keys, or the same address with the same kinds of credentials and header keys. */
  ghost predicate SameEndpoint(t: Transport, u: Transport) {
    match t
    case NoTransport => u.NoTransport?
    case Stdio(command, args, env) => u.Stdio? && u.command == command && u.args == args && u.env.Keys == env.Keys
    case Http(url, token, _, headers, _) =>
      && u.Http? && Names.TrimSpace(u.url) == Names.TrimSpace(url) && (Blank(u.token) <==> Blank(token)) && AuthLabel(u) == AuthLabel(t)
      && TrimmedAll(u.headers.Keys) == TrimmedAll(headers.Keys) && SameOAuth(OAuthOf(t), OAuthOf(u))
    case Loopback => u.Loopback?
    case OtherTransport => u.OtherTransport?
  }

  ghost predicate SameOAuth(a: OAuth, b: OAuth) {
    && Names.TrimSpace(a.tokenUrl) == Names.TrimSpace(b.tokenUrl) && (Blank(a.clientSecret) <==> Blank(b.clientSecret))
    && multiset(a.scopes) == multiset(b.scopes) && TrimmedAll(a.endpointParams.Keys) == TrimmedAll(b.endpointParams.Keys)
  }

  lemma SortedKeysAgreeIff(a: set<string>, b: set<string>)
    ensures SortedKeys(a) == SortedKeys(b) <==> a == b
  {
    SortedKeysAreTheKeys(a);
    SortedKeysAreTheKeys(b);
  }

  /** Two transports have the same row exactly when they lead to the same place in the same way. */
  lemma TransportRowsAgreeIff(t: Transport, u: Transport)
    ensures TransportRowOf(t) == TransportRowOf(u) <==> SameEndpoint(t, u)
  {
    match t
    case NoTransport =>
    case Stdio(_, _, env) =>
      if u.Stdio? {
        SortedKeysAgreeIff(env.Keys, u.env.Keys);
      }
    case Http(_, _, _, headers, _) =>
      if u.Http? {
        var a, b := OAuthOf(t), OAuthOf(u);
        SortedOfIsInjective(TrimmedAll(headers.Keys), TrimmedAll(u.headers.Keys));
        SortedOfIsInjective(multiset(a.scopes), multiset(b.scopes));
        SortedOfIsInjective(TrimmedAll(a.endpointParams.Keys), TrimmedAll(b.endpointParams.Keys));
      }
    case Loopback =>
    case OtherTransport =>
  }

  /**
    What the auth label tells of an HTTP transport: OAuth settings count when any is given, and then
    need an id, a secret and a token URL and exclude a bearer token.
  */
  lemma AuthLabelTells(t: Transport)
    requires t.Http?
    ensures var o, b := OAuthOf(t), (s: string) => Names.TrimSpace(s) == "";
      var any := !b(o.clientId) || !b(o.clientSecret) || !b(o.tokenUrl) || o.scopes != [] || o.endpointParams != map[];
      var complete := !b(o.clientId) && !b(o.clientSecret) && !b(o.tokenUrl);
      && (AuthLabel(t) == "invalid" <==> b(t.url) || (any && (!complete || !b(t.token))))
      && (AuthLabel(t) == "oauth2_client_credentials" <==> !b(t.url) && complete && b(t.token))
      && (AuthLabel(t) == "bearer_token" <==> !b(t.url) && !any && !b(t.token))
      && (AuthLabel(t) == "none" <==> !b(t.url) && !any && b(t.token))
  {
    assert Blank("") by {
      Names.TrimKeeps("", Names.IsSpace);
    }
  }

  /** Two HTTP transports that differ only in TLS verification have one row. */
  lemma TlsFlagIsNotShown(url: string, token: string, oauth: Option<OAuth>, headers: map<string, string>)
    ensures Http(url, token, oauth, headers, true) != Http(url, token, oauth, headers, false)
    ensures TransportRowOf(Http(url, token, oauth, headers, true)) == TransportRowOf(Http(url, token, oauth, headers, false))
  {
    TransportRowsAgreeIff(Http(url, token, oauth, headers, true), Http(url, token, oauth, headers, false));
  }

  /** What an MCP row shows of a server: neither the order of its lists nor whether a default is written out. */
  ghost predicate McpAlike(s: McpServer, t: McpServer) {
    && multiset(s.filter.allow) == multiset(t.filter.allow) && multiset(s.filter.block) == multiset(t.filter.block)
    && SameSetting(s.timeoutNs, t.timeoutNs, 30_000_000_000) && SameSetting(s.retries, t.retries, 1)
    && SameEndpoint(s.transport, t.transport)
  }

  lemma McpServerRowsAgreeIff(s: McpServer, t: McpServer)
    ensures McpRowOf(s) == McpRowOf(t) <==> McpAlike(s, t)
  {
    SortedOfIsInjective(multiset(s.filter.allow), multiset(t.filter.allow));
    SortedOfIsInjective(multiset(s.filter.block), multiset(t.filter.block));
    TransportRowsAgreeIff(s.transport, t.transport);
  }

  /** Two configurations get the same input exactly when they have the same extra clients and key by key look alike. */
  lemma McpInputsAgreeIffAlike(a: map<string, McpServer>, x: seq<string>, b: map<string, McpServer>, y: seq<string>)
    ensures McpInput(a, x) == McpInput(b, y) <==>
      a.Keys == b.Keys && multiset(x) == multiset(y) && forall k :: k in a && k in b ==> McpAlike(a[k], b[k])
  {
    McpInputsAgreeIff(a, x, b, y);
    forall k | k in a && k in b ensures McpRowOf(a[k]) == McpRowOf(b[k]) <==> McpAlike(a[k], b[k]) {
      McpServerRowsAgreeIff(a[k], b[k]);
    }
  }

  // ----- A2A

  datatype A2aServer = A2aServer(url: string, token: string, headers: map<string, string>, timeoutNs: int, skipTls: bool, filter: Filter)

  datatype A2aRow = A2aRow(url: string, auth: string, hasToken: bool, headerKeys: seq<string>, timeoutNs: int, skipTls: bool,
                           allow: seq<string>, block: seq<string>)

  function TokenLabel(token: string): string {
    if Blank(token) then "none" else "bearer_token"
  }

  ghost function A2aRowOf(s: A2aServer): A2aRow {
    A2aRow(Names.TrimSpace(s.url), TokenLabel(s.token), !Blank(s.token), SortedOf(TrimmedAll(s.headers.Keys)),
      OrDefault(s.timeoutNs, DEFAULT_TIMEOUT_NS), s.skipTls, SortedOf(multiset(s.filter.allow)), SortedOf(multiset(s.filter.block)))
  }

  /** What an A2A row shows, field by field; a zero timeout shows as the default. */
  lemma A2aRowTells(s: A2aServer)
    ensures var row := A2aRowOf(s);
      && row.url == Names.TrimSpace(s.url) && row.skipTls == s.skipTls
      && (row.hasToken <==> Names.TrimSpace(s.token) != "") && row.auth == (if row.hasToken then "bearer_token" else "none")
      && row.timeoutNs == (if s.timeoutNs != 0 then s.timeoutNs else 30_000_000_000)
      && Sorted(row.headerKeys) && multiset(row.headerKeys) == TrimmedAll(s.headers.Keys)
      && Sorted(row.allow) && multiset(row.allow) == multiset(s.filter.allow)
      && Sorted(row.block) && multiset(row.block) == multiset(s.filter.block)
  {
    SortsAll(TrimmedAll(s.headers.Keys));
    SortsAll(multiset(s.filter.allow));
    SortsAll(multiset(s.filter.block));
  }

  ghost function A2aRows(servers: map<string, A2aServer>): map<string, A2aRow> {
    map k | k in servers :: A2aRowOf(servers[k])
  }

  ghost function A2aInput(servers: map<string, A2aServer>, extra: seq<string>): Input<A2aRow> {
    InputOf(A2aRows(servers), extra)
  }

  method AppendA2aRow(servers: map<string, A2aServer>, k: string, shot: seq<(string, A2aRow)>, ghost rows: map<string, A2aRow>)
      returns (r: seq<(string, A2aRow)>)
    requires rows == A2aRows(servers) && k in servers
    ensures k in rows && r == shot + [(k, rows[k])]
  {
    var s := servers[k];
    var headerKeys := SortedTrimmedKeys(s.headers.Keys);
    var allow := SortStrings(s.filter.allow);
    var block := SortStrings(s.filter.block);
    r := shot + [(k, A2aRow(Names.TrimSpace(s.url), TokenLabel(s.token), !Blank(s.token), headerKeys,
                    OrDefault(s.timeoutNs, DEFAULT_TIMEOUT_NS), s.skipTls, allow, block))];
  }

  method A2aConfigInput(servers: map<string, A2aServer>, extra: seq<string>) returns (r: Input<A2aRow>)
    ensures r == A2aInput(servers, extra)
  {
    ghost var rows := A2aRows(servers);
    assert rows.Keys == servers.Keys && |rows| == |rows.Keys| && |servers| == |servers.Keys|;
    if |servers| == 0 && |extra| == 0 {
      return NoInput;
    }
    var keys := CollectSortedKeys(servers.Keys);
    SortedKeysAreTheKeys(servers.Keys);
    var shot := A2aShotRows(servers, keys, rows);
    var names := SortStrings(extra);
    return Shot(shot, names);
  }

  method A2aShotRows(servers: map<string, A2aServer>, keys: seq<string>, ghost rows: map<string, A2aRow>) returns (shot: seq<(string, A2aRow)>)
    requires rows == A2aRows(servers) && forall k :: k in keys ==> k in servers && k in rows
    ensures shot == RowsFor(keys, rows)
  {
    shot := [];
    for i := 0 to |keys|
      invariant shot == RowsFor(keys[..i], rows)
    {
      assert keys[..i + 1][..i] == keys[..i];
      shot := AppendA2aRow(servers, keys[i], shot, rows);
    }
    assert keys[..|keys|] == keys;
  }

  /** What an A2A row shows of a server. */
  ghost predicate A2aAlike(s: A2aServer, t: A2aServer) {
    && multiset(s.filter.allow) == multiset(t.filter.allow) && multiset(s.filter.block) == multiset(t.filter.block)
    && Names.TrimSpace(s.url) == Names.TrimSpace(t.url) && (Blank(s.token) <==> Blank(t.token))
    && TrimmedAll(s.headers.Keys) == TrimmedAll(t.headers.Keys) && s.skipTls == t.skipTls
    && SameSetting(s.timeoutNs, t.timeoutNs, 30_000_000_000)
  }

  lemma A2aRowsAgreeIff(s: A2aServer, t: A2aServer)
    ensures A2aRowOf(s) == A2aRowOf(t) <==> A2aAlike(s, t)
  {
    SortedOfIsInjective(multiset(s.filter.allow), multiset(t.filter.allow));
    SortedOfIsInjective(multiset(s.filter.block), multiset(t.filter.block));
    SortedOfIsInjective(TrimmedAll(s.headers.Keys), TrimmedAll(t.headers.Keys));
  }

  /** Two A2A configurations get the same input exactly when key by key they look alike and the extra clients are the same. */
  lemma A2aInputsAgreeIff(a: map<string, A2aServer>, x: seq<string>, b: map<string, A2aServer>, y: seq<string>)
    ensures A2aInput(a, x) == A2aInput(b, y) <==>
      a.Keys == b.Keys && multiset(x) == multiset(y) && forall k :: k in a && k in b ==> A2aAlike(a[k], b[k])
  {
    InputsAgreeIff(A2aRows(a), x, A2aRows(b), y);
    A2aRowMapsAgreeIff(a, b);
    forall k | k in a && k in b ensures A2aRowOf(a[k]) == A2aRowOf(b[k]) <==> A2aAlike(a[k], b[k]) {
      A2aRowsAgreeIff(a[k], b[k]);
    }
  }

  lemma A2aRowMapsAgreeIff(a: map<string, A2aServer>, b: map<string, A2aServer>)
    ensures A2aRows(a) == A2aRows(b) <==> a.Keys == b.Keys && forall k :: k in a && k in b ==> A2aRowOf(a[k]) == A2aRowOf(b[k])
  {
    var ra, rb := A2aRows(a), A2aRows(b);
    assert ra.Keys == a.Keys && rb.Keys == b.Keys;
    assert forall k :: k in a ==> ra[k] == A2aRowOf(a[k]);
    assert forall k :: k in b ==> rb[k] == A2aRowOf(b[k]);
    MapsAgreeIff(ra, rb);
  }

  /** Equal A2A inputs: every server key filters every skill list alike. */
  lemma EqualA2aInputsFilterAlike(a: map<string, A2aServer>, x: seq<string>, b: map<string, A2aServer>, y: seq<string>, k: string, specs: seq<Spec>)
    requires A2aInput(a, x) == A2aInput(b, y)
    ensures k in a <==> k in b
    ensures k in a ==> Passing(a[k].filter, specs, Names.TrimSpace) == Passing(b[k].filter, specs, Names.TrimSpace)
  {
    A2aInputsAgreeIff(a, x, b, y);
    assert k in a <==> k in a.Keys;
    assert k in b <==> k in b.Keys;
    if k in a {
      SameListsSamePassing(a[k].filter, b[k].filter, specs, Names.TrimSpace);
    }
  }

  // ----- extra LLM clients and hook groups

  datatype Llm = Llm(model: string, provider: string)

  /** A nil client shows as an empty model and provider. */
  function LlmRow(client: Option<Llm>): Llm {
    match client case Some(c) => c case None => Llm("", "")
  }

  ghost function LlmRows(named: map<string, Option<Llm>>): map<string, Llm> {
    map k | k in named :: LlmRow(named[k])
  }

  ghost function LlmInput(named: map<string, Option<Llm>>): Option<seq<(string, Llm)>> {
    if |named| == 0 then None else Some(Table(LlmRows(named)))
  }

  method NamedLlmInput(named: map<string, Option<Llm>>) returns (r: Option<seq<(string, Llm)>>)
    ensures r == LlmInput(named)
  {
    if |named| == 0 {
      return None;
    }
    var keys := CollectSortedKeys(named.Keys);
    ghost var rows := LlmRows(named);
    SortedKeysAreTheKeys(named.Keys);
    assert rows.Keys == named.Keys;
    var shot: seq<(string, Llm)> := [];
    for i := 0 to |keys|
      invariant shot == RowsFor(keys[..i], rows)
    {
      assert keys[..i + 1][..i] == keys[..i];
      assert keys[i] in keys;
      shot := shot + [(keys[i], LlmRow(named[keys[i]]))];
    }
    assert keys[..|keys|] == keys;
    return Some(shot);
  }

  /** The same model and provider; a nil client looks like one with neither. */
  predicate SameLlm(x: Option<Llm>, y: Option<Llm>) {
    x == y || ((x == None || x == Some(Llm("", ""))) && (y == None || y == Some(Llm("", ""))))
  }

  /** Equal LLM inputs mean the same names with the same model and provider, nil clients aside. */
  lemma LlmInputsAgreeIff(a: map<string, Option<Llm>>, b: map<string, Option<Llm>>)
    ensures LlmInput(a) == LlmInput(b) <==> a.Keys == b.Keys && forall k :: k in a && k in b ==> SameLlm(a[k], b[k])
  {
    LlmRowsAgreeIff(a, b);
    forall k | k in a && k in b ensures LlmRow(a[k]) == LlmRow(b[k]) <==> SameLlm(a[k], b[k]) {
    }
  }

  lemma LlmRowsAgreeIff(a: map<string, Option<Llm>>, b: map<string, Option<Llm>>)
    ensures LlmInput(a) == LlmInput(b) <==> a.Keys == b.Keys && forall k :: k in a && k in b ==> LlmRow(a[k]) == LlmRow(b[k])
  {
    TableIsInjective(LlmRows(a), LlmRows(b));
    assert LlmRows(a).Keys == a.Keys && LlmRows(b).Keys == b.Keys;
    assert |a| == |a.Keys| && |b| == |b.Keys|;
    assert |a| == 0 <==> a.Keys == {};
    assert |b| == 0 <==> b.Keys == {};
    if LlmRows(a) == LlmRows(b) {
      forall k | k in a && k in b ensures LlmRow(a[k]) == LlmRow(b[k]) {
        assert LlmRows(a)[k] == LlmRows(b)[k];
      }
    }
  }

  /** Hook groups are known by their names, in any order. */
  method HookGroupsInput(names: seq<string>) returns (r: Option<seq<string>>)
    ensures r == HookNames(names)
  {
    if |names| == 0 {
      return None;
    }
    var sorted := SortStrings(names);
    return Some(sorted);
  }

  ghost function HookNames(names: seq<string>): Option<seq<string>> {
    if names == [] then None else Some(SortedOf(multiset(names)))
  }

  lemma HookInputsAgreeIff(a: seq<string>, b: seq<string>)
    ensures HookNames(a) == HookNames(b) <==> multiset(a) == multiset(b)
  {
    SortedOfIsInjective(multiset(a), multiset(b));
    if multiset(a) == multiset(b) {
      assert |multiset(a)| == |multiset(b)|;
    }
  }
}
