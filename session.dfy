/**
 * The session side of client/client.go: `Run` obtains the connection, hands it to
 * `grpc_subscribe` and releases it on the way out; `grpc_subscribe` builds and logs the
 * request, opens the stream with the auth context, sends the request once and then
 * passes every received update to the handler until `EOF` or an error.
 */
module Sessions {
  import opened Wrappers
  import opened Config
  import opened Subscription
  import opened Receive

  /** The session's connection: never obtained, held, or released by the deferred close. */
  datatype ConnState = NotConnected | Open(address: string) | Released(address: string)

  /**
   * What the outside world answers, in call order: an error (or none) from dialing,
   * from JSON-marshalling the request, from opening the stream and from sending the
   * request, then the results of the successive `Recv` calls.
   */
  datatype Network = Network(
    dial: Option<string>,
    marshal: Option<string>,
    subscribe: Option<string>,
    send: Option<string>,
    stream: seq<RecvResult>)

  /** The first failure before the receive loop starts, in the order the client meets them. */
  function SetupError(net: Network): Option<string>
  {
    if net.dial.Some? then net.dial
    else if net.marshal.Some? then net.marshal
    else if net.subscribe.Some? then net.subscribe
    else net.send
  }

  class Session {
    /** The client this session runs, as `New` built it. */
    const client: Client
    var conn: ConnState
    /** Outgoing metadata of each call that opened a stream, in order. */
    var streamMetadata: seq<map<string, string>>
    /** Every request passed to `Send`, in order. */
    var sent: seq<SubscribeRequest>
    /** Every update passed to the handler, in order. */
    var trace: seq<SubscribeUpdate>

    /** No connection is held between runs. */
    predicate Valid()
      reads this
    {
      !conn.Open?
    }

    constructor (c: Client)
      ensures Valid()
      ensures client == c && conn == NotConnected
      ensures streamMetadata == [] && sent == [] && trace == []
    {
      client := c;
      conn := NotConnected;
      streamMetadata, sent, trace := [], [], [];
    }

    /** The handler, called synchronously with one update. */
    method ProcessSub(u: SubscribeUpdate)
      modifies this
      ensures trace == old(trace) + [u]
      ensures conn == old(conn) && streamMetadata == old(streamMetadata) && sent == old(sent)
    {
      trace := trace + [u];
    }

    /**
     * `Run`: a dial failure is returned with nothing else done; otherwise the session
     * runs and the deferred close releases the connection on every path that returns.
     * A run that is still blocked in `Recv` has not returned, so it still holds it.
     */
    method Run(net: Network) returns (result: Outcome)
      requires Valid()
      modifies this
      ensures !result.Blocked? ==> Valid()
      ensures conn ==
        if net.dial.Some? then old(conn)
        else if result.Blocked? then Open(client.address)
        else Released(client.address)
      ensures SetupError(net).Some? ==> result == Error(SetupError(net).value) && trace == old(trace)
      ensures SetupError(net).None? ==>
        result == StreamOutcome(net.stream) && trace == old(trace) + Delivered(net.stream)
      ensures streamMetadata == old(streamMetadata) +
        (if net.dial.None? && net.marshal.None? && net.subscribe.None?
         then [OutgoingMetadata(AuthContext(client.token))] else [])
      ensures sent == old(sent) +
        (if net.dial.None? && net.marshal.None? && net.subscribe.None?
         then [BuildRequest(client.accounts, client.owners)] else [])
    {
      if net.dial.Some? {
        return Error(net.dial.value);
      }
      conn := Open(client.address);
      result := Subscribe(net);
      if !result.Blocked? {
        conn := Released(client.address);
      }
    }

    /** `grpc_subscribe`, on a connection that `Run` holds. */
    method Subscribe(net: Network) returns (result: Outcome)
      requires conn.Open? && net.dial.None?
      modifies this
      ensures conn == old(conn)
      ensures SetupError(net).Some? ==> result == Error(SetupError(net).value) && trace == old(trace)
      ensures SetupError(net).None? ==>
        result == StreamOutcome(net.stream) && trace == old(trace) + Delivered(net.stream)
      ensures streamMetadata == old(streamMetadata) +
        (if net.marshal.None? && net.subscribe.None? then [OutgoingMetadata(AuthContext(client.token))] else [])
      ensures sent == old(sent) +
        (if net.marshal.None? && net.subscribe.None? then [BuildRequest(client.accounts, client.owners)] else [])
    {
      var subscription := BuildRequest(client.accounts, client.owners);
      if net.marshal.Some? {
        return Error(net.marshal.value);
      }
      var ctx := AuthContext(client.token);
      if net.subscribe.Some? {
        return Error(net.subscribe.value);
      }
      streamMetadata := streamMetadata + [OutgoingMetadata(ctx)];
      sent := sent + [subscription];
      if net.send.Some? {
        return Error(net.send.value);
      }
      result := ReceiveLoop(net.stream);
    }

    /** The `for` loop of `grpc_subscribe`: receive, stop on `EOF` or an error, else handle. */
    method ReceiveLoop(stream: seq<RecvResult>) returns (result: Outcome)
      modifies this
      ensures result == StreamOutcome(stream)
      ensures trace == old(trace) + Delivered(stream)
      ensures conn == old(conn) && streamMetadata == old(streamMetadata) && sent == old(sent)
    {
      DeliveredIsUpdatePrefix(stream);
      OutcomeAtFirstEnd(stream);
      var i := 0;
      while i < |stream|
        invariant i <= |Delivered(stream)|
        invariant trace == old(trace) + Delivered(stream)[..i]
        invariant conn == old(conn) && streamMetadata == old(streamMetadata) && sent == old(sent)
      {
        match stream[i]
        case Eof =>
          return Success;
        case RecvError(e) =>
          return Error(e);
        case Update(u) =>
          ProcessSub(u);
          i := i + 1;
      }
      result := Blocked;
    }
  }
}
