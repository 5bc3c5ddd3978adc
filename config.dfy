/**
 * The client constructor `New` of client/client.go: it reads the endpoint and the
 * token from the process environment, validates them and derives the dial address.
 */
module Config {
  import opened Wrappers

  /** The process environment; `os.Getenv` reads an unset variable as "". */
  type Env = map<string, string>

  const EndpointVar: string := "GRPC_ENDPOINT"
  const TokenVar: string := "GRPC_TOKEN"

  const EmptyEndpointError: string := "empty GRPC_ENDPOINT environment variable"
  const EmptyTokenError: string := "empty GRPC_TOKEN environment variable"
  const InvalidAddressPrefix: string := "Invalid GRPC address provided: "
  const MissingHostnameHint: string := "Please provide URL format endpoint e.g. http(s)://<endpoint>:<port>"

  /** The port always appended to the endpoint's hostname. */
  const PlaintextPortSuffix: string := ":80"

  /** Outcome of parsing the endpoint as a URL: the parse error, or the URL's hostname. */
  datatype ParsedUrl = ParseError(message: string) | Url(hostname: string)

  /** The fields of the Go `Client` struct (the handler is represented by the session's trace). */
  datatype Client = Client(address: string, token: string, accounts: seq<string>, owners: seq<string>)

  /**
   * What `New` gives back: a client, a returned error, or a `log.Fatalf` that ends the
   * process with the logged message (no client in either failure case).
   */
  datatype NewResult = Created(client: Client) | Failed(error: string) | Fatal(message: string)

  function Getenv(env: Env, key: string): string
  {
    if key in env then env[key] else ""
  }

  /** True when the endpoint parses as a URL with a non-empty hostname. */
  predicate HasHostname(parseUrl: string -> ParsedUrl, endpoint: string)
  {
    parseUrl(endpoint).Url? && parseUrl(endpoint).hostname != ""
  }

  /**
   * `New`, as written: the second check re-tests the endpoint, so the token is never
   * validated. `parseUrl` stands for `url.Parse` followed by `Hostname()`.
   */
  function New(env: Env, parseUrl: string -> ParsedUrl, accounts: seq<string>, owners: seq<string>): (r: NewResult)
    ensures r.Failed? <==> Getenv(env, EndpointVar) == ""
    ensures r.Failed? ==> r.error == EmptyEndpointError
    ensures r.Created? <==> Getenv(env, EndpointVar) != "" && HasHostname(parseUrl, Getenv(env, EndpointVar))
    ensures r.Created? ==>
      r.client.address == parseUrl(Getenv(env, EndpointVar)).hostname + PlaintextPortSuffix &&
      r.client.token == Getenv(env, TokenVar) &&
      r.client.accounts == accounts && r.client.owners == owners
  {
    var grpcAddr := Getenv(env, EndpointVar);
    if grpcAddr == "" then Failed(EmptyEndpointError)
    else
      var token := Getenv(env, TokenVar);
      if grpcAddr == "" then Failed(EmptyTokenError)
      else
        match parseUrl(grpcAddr)
        case ParseError(e) => Fatal(InvalidAddressPrefix + e)
        case Url(hostname) =>
          if hostname == "" then Fatal(MissingHostnameHint)
          else Created(Client(hostname + PlaintextPortSuffix, token, accounts, owners))
  }

  /** The token check is dead: an empty or unset token never makes `New` fail. */
  lemma TokenNeverRejected(env: Env, parseUrl: string -> ParsedUrl, accounts: seq<string>, owners: seq<string>, t: string)
    ensures New(env, parseUrl, accounts, owners) != Failed(EmptyTokenError)
    ensures New(env[TokenVar := t], parseUrl, accounts, owners).Created? <==> New(env, parseUrl, accounts, owners).Created?
    ensures New(env[TokenVar := t], parseUrl, accounts, owners).Created? ==>
      New(env[TokenVar := t], parseUrl, accounts, owners).client ==
      New(env, parseUrl, accounts, owners).client.(token := t)
  {
    assert Getenv(env[TokenVar := t], EndpointVar) == Getenv(env, EndpointVar);
  }

  /** `New` reads only the two variables: environments that agree on them give the same outcome. */
  lemma OnlyTwoVariablesRead(env: Env, env': Env, parseUrl: string -> ParsedUrl, accounts: seq<string>, owners: seq<string>)
    requires Getenv(env, EndpointVar) == Getenv(env', EndpointVar)
    requires Getenv(env, TokenVar) == Getenv(env', TokenVar)
    ensures New(env, parseUrl, accounts, owners) == New(env', parseUrl, accounts, owners)
  {
  }

  /**
   * The dial address ignores the endpoint's scheme and port: only the hostname matters,
   * and the address is a non-empty hostname followed by ":80".
   */
  lemma AddressDependsOnlyOnHostname(env: Env, env': Env, parseUrl: string -> ParsedUrl, accounts: seq<string>, owners: seq<string>)
    requires New(env, parseUrl, accounts, owners).Created? && New(env', parseUrl, accounts, owners).Created?
    requires parseUrl(Getenv(env, EndpointVar)).hostname == parseUrl(Getenv(env', EndpointVar)).hostname
    ensures New(env, parseUrl, accounts, owners).client.address == New(env', parseUrl, accounts, owners).client.address
    ensures |New(env, parseUrl, accounts, owners).client.address| > |PlaintextPortSuffix|
    ensures var a := New(env, parseUrl, accounts, owners).client.address;
      a[|a| - |PlaintextPortSuffix|..] == PlaintextPortSuffix
  {
  }

  /** A concrete input: no GRPC_TOKEN at all, and `New` still returns a client with an empty token. */
  lemma UnsetTokenAccepted()
    ensures
      var env := map[EndpointVar := "http://node.example:10000"];
      var parseUrl := (s: string) => Url("node.example");
      TokenVar !in env &&
      New(env, parseUrl, [], []) == Created(Client("node.example:80", "", [], []))
  {
  }

  /**
   * `New` as its error message evidently intends: an empty (or unset) token is rejected
   * after the endpoint check and before the URL is parsed.
   */
  function NewChecked(env: Env, parseUrl: string -> ParsedUrl, accounts: seq<string>, owners: seq<string>): (r: NewResult)
    ensures r.Failed? <==> Getenv(env, EndpointVar) == "" || Getenv(env, TokenVar) == ""
    ensures r.Failed? ==> r.error == (if Getenv(env, EndpointVar) == "" then EmptyEndpointError else EmptyTokenError)
    ensures r.Created? ==> r.client.token != ""
    ensures !r.Failed? ==> r == New(env, parseUrl, accounts, owners)
  {
    var grpcAddr := Getenv(env, EndpointVar);
    if grpcAddr == "" then Failed(EmptyEndpointError)
    else if Getenv(env, TokenVar) == "" then Failed(EmptyTokenError)
    else New(env, parseUrl, accounts, owners)
  }
}
