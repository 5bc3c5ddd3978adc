# yellowstone-tritonone subscription client, modelled in Dafny

A model of the Go package `client` (client/client.go) of the yellowstone-tritonone
gRPC subscription client. The client reads its endpoint and access token from the
environment in `New`. `Run` dials the endpoint and opens one bidirectional Geyser
`Subscribe` stream. It sends a single `SubscribeRequest` that asks for the configured
accounts and owners, and passes every received `SubscribeUpdate` to the caller's handler,
synchronously and in order, until the stream reports `EOF` (success) or an error.

Modules, one per concern of the file:

- `Wrappers` (wrappers.dfy): `Option`, which also stands for a Go `nil` map or slice.
- `Config` (config.dfy): `New` as written, its properties, and the corrected `NewChecked`.
  The environment is a `map<string, string>` in which a missing key reads as `""`.
  URL parsing with `Hostname()` is a function parameter. `log.Fatalf` is the `Fatal`
  outcome, which gives no client.
- `Subscription` (subscription.dfy): the request builder of `grpc_subscribe`, written step
  by step as the source does it, and the call context that carries `x-token`.
- `Receive` (receive.dfy): a stream is the sequence of results of successive `Recv` calls:
  `Update(u)`, `Eof` or `RecvError(e)`. `Delivered` is what reaches the handler and
  `StreamOutcome` is how the loop ends. A sequence that runs out without `EOF` or an error
  stands for a `Recv` that is still blocking (`Blocked`).
- `Sessions` (session.dfy): class `Session` holds the `Client` value and four pieces of
  state: the connection state, the metadata of each opened stream, the requests sent and
  the handler trace. `Run`, `Subscribe` (the body of `grpc_subscribe`) and `ReceiveLoop`
  (its `for` loop) are methods. The outside world's answers (dial, marshal, subscribe and
  send errors, then the `Recv` results) are a `Network` parameter.

## Model

| member | source | states |
|---|---|---|
| `Config.New` | client/client.go:36-70 | Fails with the GRPC_ENDPOINT error exactly when the endpoint variable is empty or unset. Returns a client exactly when the endpoint also parses with a non-empty hostname, and otherwise ends fatally. The returned client's address is the hostname followed by ":80", and its token and lists are the inputs, unchanged. |
| `Config.TokenNeverRejected` | client/client.go:46-49 | The GRPC_TOKEN error is never returned. Changing or removing the token never changes whether a client is created, and only changes the stored token. |
| `Config.OnlyTwoVariablesRead` | client/client.go:41-46 | The outcome depends on the environment only through GRPC_ENDPOINT and GRPC_TOKEN. |
| `Config.AddressDependsOnlyOnHostname` | client/client.go:56-61 | Two endpoints with the same hostname give the same dial address, whatever their scheme or port. The address ends in ":80" and is longer than that suffix. |
| `Config.UnsetTokenAccepted` | client/client.go:46-49 | With GRPC_TOKEN unset, `New` returns a client whose token is empty. |
| `Config.NewChecked` | client/client.go:46-49 | Corrected `New`: fails exactly when the endpoint or the token is empty, with the matching message. A client it creates has a non-empty token. In every other case it agrees with `New`. |
| `Subscription.BuildRequest` | client/client.go:107-123 | The account-filter map stays nil exactly when both lists are empty. Otherwise its only key is "account_sub". That group's `Account` is the accounts list when non-empty and unset otherwise, and the same holds for `Owner` and the owners list. No other request field is filled in. |
| `Subscription.BuildRequestRoundTrip` | client/client.go:116-122 | Reading the watched accounts and owners back from the request gives exactly the input lists, with the same elements in the same order. |
| `Subscription.BuildRequestInjective` | client/client.go:109-122 | Different list pairs always give different requests. |
| `Subscription.AuthContext` | client/client.go:132-136 | The outgoing metadata holds "x-token" exactly when the token is non-empty, it holds no other key, and the value is the token. |
| `Receive.DeliveredIsUpdatePrefix` | client/client.go:147-157 | The handler sees a prefix of the results. Each result in the prefix is an update, and the handler sees them in received order. The prefix stops at the first result that is not an update. |
| `Receive.OutcomeAtFirstEnd` | client/client.go:147-154 | The loop ends at the first non-update: `EOF` gives success, any other error is returned, and a stream that has only sent updates is still blocked in `Recv`. |
| `Receive.DeliveredAfterUpdates` | client/client.go:147-157 | Updates at the head of the stream are all delivered, ahead of whatever the rest delivers, and they do not change how the loop ends. |
| `Receive.UpdatesThenEof` | client/client.go:147-151 | N updates followed by `EOF` give exactly those N handler calls, in order, and success. |
| `Receive.UpdatesThenError` | client/client.go:147-156 | N updates followed by an error give exactly those N handler calls and return that error. |
| `Receive.NothingAfterEnd` | client/client.go:148-153 | After the first `EOF` or error, later results reach neither the handler nor the outcome. |
| `Receive.BlockedDeliversAll` | client/client.go:147-148 | While the loop is still blocked, every result received so far was an update and was delivered. |
| `Sessions.Session.ProcessSub` | client/client.go:156 | One handler call appends its update to the trace and changes nothing else. |
| `Sessions.Session.Run` | client/client.go:72-80 | A dial error is returned with nothing else done. After a successful dial the connection is released on every path that returns. A run still blocked in `Recv` has not returned and still holds the connection. Any setup error (dial, marshal, subscribe, send) is returned before any handler call. Otherwise the result and the new trace are the stream's outcome and its delivered updates. Metadata and request are recorded once, only when the stream was opened. |
| `Sessions.Session.Subscribe` | client/client.go:103-146 | Returns a marshal, subscribe or send error in that order, leaving the trace unchanged. The stream is opened with the auth context's metadata, and exactly the built request is sent. Then the receive loop runs. |
| `Sessions.Session.ReceiveLoop` | client/client.go:147-157 | Returns the stream's outcome, and the new trace is the old one followed by the delivered updates. |

## Left out

- Dialing, plaintext versus system-certificate TLS, and the keepalive parameters
  (client/client.go:22-26, 82-101) are library configuration. A dial is modelled only by
  its error.
- `url.Parse` and `Hostname()` are not modelled. They are the `parseUrl` parameter of
  `New`, and a fatal log stands for `log.Fatalf`, which ends the process.
- JSON marshalling and the request log line (client/client.go:125-129) are modelled only
  as a possible error that is returned before the stream is opened.
- The generated protobuf types and `pb.NewGeyserClient` are not modelled. The request keeps
  only the account filter map and one map of all other filter groups. A filter group keeps
  only `Account` and `Owner`.
- The handler is represented by the trace of the updates passed to it. What the handler
  does with an update is application code (example/main.go) and is not modelled. The
  handler is assumed non-nil and to return. `New` accepts a nil `processSub`, which panics
  at client/client.go:156 on the first update; a handler that panics or blocks is not
  modelled.
- `Recv` blocking forever is modelled as a finite result sequence ending in `Blocked`.
- example/main.go is not modelled. It is glue around dotenv, logging and base58, and it
  calls `New` with four arguments where `New` takes three.
- Sessions.Session.Run: `Run` does not require that it is called only once. `Valid` only
  demands that no connection is held between runs.
- The client has no signer or transaction filter group, no `Close()` and no closed flag,
  and it does not reject an unset GRPC_TOKEN (see ## Findings). The model has none of
  these either.
- An empty `accounts` or `owners` list leaves that field of the group unset (nil),
  client/client.go:116-122, and the model does the same.

## Findings

| source | as written | input that shows it | evidently intended | confidence | as-written member | corrected member |
|---|---|---|---|---|---|---|
| client/client.go:47 | the guard before the "empty GRPC_TOKEN" error re-tests `grpcAddr`, which is already non-empty, so the error is never returned | GRPC_ENDPOINT = "http://node.example:10000", GRPC_TOKEN unset: `New` returns a client with an empty token | test `token == ""`, so that an empty token is rejected with that message | medium, not executed (the stream code also handles an empty token at line 133) | `Config.UnsetTokenAccepted` | `Config.NewChecked` |

The session works from a `Client` value. Every client that `NewChecked` creates is also
one that `New` creates, so the session properties hold for clients from either.
