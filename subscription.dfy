/**
 * The subscribe request and the call context that `grpc_subscribe` in client/client.go
 * prepares before opening the stream.
 */
module Subscription {
  import opened Wrappers

  /** Name of the one account filter group the client ever creates. */
  const AccountSubKey: string := "account_sub"

  /** Metadata key that carries the access token. */
  const TokenKey: string := "x-token"

  /** One account filter group; `None` is a field left unset (a nil slice). */
  datatype AccountFilter = AccountFilter(account: Option<seq<string>>, owner: Option<seq<string>>)

  /**
   * The subscribe request. `accounts` is the account filter map (`None` while nil);
   * `others` holds, by field name, every other filter group of the request
   * (slots, transactions, blocks, ...), which the client never fills in.
   */
  datatype SubscribeRequest = SubscribeRequest(accounts: Option<map<string, AccountFilter>>, others: map<string, seq<string>>)

  /** The zero value of the request, as declared by `var subscription pb.SubscribeRequest`. */
  const ZeroRequest: SubscribeRequest := SubscribeRequest(None, map[])

  /** Stores `group` under `key` in the (already allocated) account filter map. */
  function PutGroup(req: SubscribeRequest, key: string, group: AccountFilter): SubscribeRequest
    requires req.accounts.Some?
  {
    req.(accounts := Some(req.accounts.value[key := group]))
  }

  /** Assigns the `Account` field of the group stored under `key`. */
  function SetAccount(req: SubscribeRequest, key: string, accounts: seq<string>): SubscribeRequest
    requires req.accounts.Some? && key in req.accounts.value
  {
    PutGroup(req, key, req.accounts.value[key].(account := Some(accounts)))
  }

  /** Assigns the `Owner` field of the group stored under `key`. */
  function SetOwner(req: SubscribeRequest, key: string, owners: seq<string>): SubscribeRequest
    requires req.accounts.Some? && key in req.accounts.value
  {
    PutGroup(req, key, req.accounts.value[key].(owner := Some(owners)))
  }

  /**
   * The request built step by step from the client's account and owner lists: the map is
   * allocated only when some list is non-empty, one empty group is stored under
   * "account_sub", and each list is assigned to it only when non-empty.
   */
  function BuildRequest(accounts: seq<string>, owners: seq<string>): (r: SubscribeRequest)
    ensures r.accounts.None? <==> |accounts| + |owners| == 0
    ensures r.accounts.Some? ==> r.accounts.value.Keys == {AccountSubKey}
    ensures r.accounts.Some? ==>
      r.accounts.value[AccountSubKey].account == (if |accounts| > 0 then Some(accounts) else None) &&
      r.accounts.value[AccountSubKey].owner == (if |owners| > 0 then Some(owners) else None)
    ensures r.others == ZeroRequest.others
  {
    var subscription := ZeroRequest;
    if |accounts| + |owners| > 0 then
      var withMap := if subscription.accounts.None? then subscription.(accounts := Some(map[])) else subscription;
      var grouped := PutGroup(withMap, AccountSubKey, AccountFilter(None, None));
      var withAccounts := if |accounts| > 0 then SetAccount(grouped, AccountSubKey, accounts) else grouped;
      if |owners| > 0 then SetOwner(withAccounts, AccountSubKey, owners) else withAccounts
    else
      subscription
  }

  /** The lists the server is asked to watch, read back from a request (empty when absent). */
  function WatchedAccounts(req: SubscribeRequest): seq<string>
  {
    if req.accounts.Some? && AccountSubKey in req.accounts.value
    then match req.accounts.value[AccountSubKey].account
      case Some(a) => a
      case None => []
    else []
  }

  function WatchedOwners(req: SubscribeRequest): seq<string>
  {
    if req.accounts.Some? && AccountSubKey in req.accounts.value
    then match req.accounts.value[AccountSubKey].owner
      case Some(o) => o
      case None => []
    else []
  }

  /** Reading the request back gives exactly the client's lists, whichever of them are empty. */
  lemma BuildRequestRoundTrip(accounts: seq<string>, owners: seq<string>)
    ensures WatchedAccounts(BuildRequest(accounts, owners)) == accounts
    ensures WatchedOwners(BuildRequest(accounts, owners)) == owners
  {
  }

  /** The request depends on the two lists only through what they contain, and never drops a list. */
  lemma BuildRequestInjective(accounts: seq<string>, owners: seq<string>, accounts': seq<string>, owners': seq<string>)
    requires BuildRequest(accounts, owners) == BuildRequest(accounts', owners')
    ensures accounts == accounts' && owners == owners'
  {
    BuildRequestRoundTrip(accounts, owners);
    BuildRequestRoundTrip(accounts', owners');
  }

  /** A gRPC call context: the background context, or one carrying outgoing metadata. */
  datatype Context = Background | WithOutgoing(parent: Context, md: map<string, string>)

  /** The metadata a call made with `ctx` sends; a newer outgoing context replaces the older one. */
  function OutgoingMetadata(ctx: Context): map<string, string>
  {
    match ctx
    case Background => map[]
    case WithOutgoing(_, md) => md
  }

  /**
   * The context the stream is opened with: the token is attached as "x-token" when it
   * is non-empty, and no metadata is attached otherwise.
   */
  function AuthContext(token: string): (ctx: Context)
    ensures TokenKey in OutgoingMetadata(ctx) <==> token != ""
    ensures OutgoingMetadata(ctx).Keys <= {TokenKey}
    ensures token != "" ==> OutgoingMetadata(ctx)[TokenKey] == token
  {
    var ctx := Background;
    if token != "" then WithOutgoing(ctx, map[TokenKey := token]) else ctx
  }
}
