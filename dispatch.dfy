/**
 * CoinSocket's JSON-RPC request handler, `requestCallback`: one request from
 * one connection is answered by exactly one response sent back to that
 * connection. The vault it queries is an external collaborator; each of its
 * queries is modelled by the value it would return or the message of the
 * exception it would raise.
 */
module Dispatch {
  import opened Wrappers

  /** The json_spirit values that requests and responses are made of. */
  datatype Json =
    | JNull
    | JBool(b: bool)
    | JInt(i: int)
    | JString(s: string)
    | JArray(items: seq<Json>)
    | JObject(members: seq<(string, Json)>)

  /** The outcome of one vault query: its value, or the `what()` of the exception it throws. */
  datatype Query<T> = Ok(value: T) | Fail(message: string)

  datatype AccountInfo = AccountInfo(name: string, id: nat)

  /** What the vault answers to each query `requestCallback` may make. */
  datatype Vault = Vault(
    name: Query<string>,
    schemaVersion: Query<nat>,
    horizonTimestamp: Query<nat>,
    accounts: Query<seq<AccountInfo>>)

  /** A JSON-RPC request: method name, positional parameters and request id. */
  datatype Request = Request(methodName: string, params: seq<Json>, id: Json)

  /**
   * A `JsonRpc::Response` as the handler leaves it: a result, an error with
   * the request id, or neither (nothing was set).
   */
  datatype Response = Result(result: Json) | Error(message: string, id: Json) | Empty

  /** An opaque handle on a client connection. */
  datatype Connection = Connection(handle: nat)

  /** One message handed to the server: its recipient and the response. */
  datatype Sent = Sent(to: Connection, response: Response)

  const InvalidParameters := "Invalid parameters."
  const InvalidMethod := "Invalid method."

  // ---------------------------------------------------------------------------
  // Decimal rendering, what `stringstream << n` writes for an unsigned integer.

  function DigitChar(d: nat): (c: char)
    requires d < 10
    ensures '0' <= c <= '9'
  {
    (48 + d) as char
  }

  predicate AllDigits(s: string)
  {
    forall i :: 0 <= i < |s| ==> '0' <= s[i] <= '9'
  }

  /** The decimal digits of `n`, most significant first. */
  function Decimal(n: nat): (s: string)
    ensures |s| > 0 && AllDigits(s)
    decreases n
  {
    if n < 10 then [DigitChar(n)] else Decimal(n / 10) + [DigitChar(n % 10)]
  }

  /** The number a string of decimal digits denotes. */
  function DecimalValue(s: string): nat
    requires AllDigits(s)
  {
    if s == [] then 0
    else 10 * DecimalValue(s[..|s| - 1]) + (s[|s| - 1] as int - 48)
  }

  /** Reading back the rendered digits gives the number. */
  lemma {:induction false} DecimalRoundTrip(n: nat)
    ensures DecimalValue(Decimal(n)) == n
    decreases n
  {
    if n >= 10 {
      DecimalRoundTrip(n / 10);
      var s := Decimal(n);
      assert s[..|s| - 1] == Decimal(n / 10);
    }
  }

  /** No leading zero: only zero itself is rendered starting with '0'. */
  lemma {:induction false} DecimalNoLeadingZero(n: nat)
    ensures Decimal(n)[0] == '0' <==> n == 0
    decreases n
  {
    if n >= 10 {
      DecimalNoLeadingZero(n / 10);
    }
  }

  /** Distinct numbers are rendered as distinct strings. */
  lemma DecimalInjective(m: nat, n: nat)
    ensures Decimal(m) == Decimal(n) ==> m == n
  {
    DecimalRoundTrip(m);
    DecimalRoundTrip(n);
  }

  // ---------------------------------------------------------------------------
  // The response objects.

  function Keys(members: seq<(string, Json)>): seq<string>
  {
    seq(|members|, i requires 0 <= i < |members| => members[i].0)
  }

  /** The `status` result: `{name, schema, horizon}`, numbers as decimal strings. */
  function StatusObject(name: string, schemaVersion: nat, horizonTimestamp: nat): Json
  {
    JObject([
      ("name", JString(name)),
      ("schema", JString(Decimal(schemaVersion))),
      ("horizon", JString(Decimal(horizonTimestamp)))])
  }

  /** One entry of the `listaccounts` result: `{name, id}`, the id as a decimal string. */
  function AccountObject(account: AccountInfo): Json
  {
    JObject([("name", JString(account.name)), ("id", JString(Decimal(account.id)))])
  }

  function AccountObjects(accounts: seq<AccountInfo>): seq<Json>
  {
    seq(|accounts|, i requires 0 <= i < |accounts| => AccountObject(accounts[i]))
  }

  /**
   * The response `requestCallback` builds for `req`. A vault query that
   * throws and each `runtime_error` the handler throws become an error that
   * carries the request id; `subscribe` sets nothing.
   */
  function Dispatch(vault: Vault, req: Request): (r: Response)
    ensures r.Error? ==> r.id == req.id
    ensures r.Empty? <==> req.methodName == "subscribe"
    ensures r.Result? ==> req.methodName == "status" || req.methodName == "listaccounts"
  {
    if req.methodName == "status" then
      if vault.name.Fail? then Error(vault.name.message, req.id)
      else if vault.schemaVersion.Fail? then Error(vault.schemaVersion.message, req.id)
      else if vault.horizonTimestamp.Fail? then Error(vault.horizonTimestamp.message, req.id)
      else Result(StatusObject(vault.name.value, vault.schemaVersion.value, vault.horizonTimestamp.value))
    else if req.methodName == "listaccounts" then
      if |req.params| > 0 then Error(InvalidParameters, req.id)
      else if vault.accounts.Fail? then Error(vault.accounts.message, req.id)
      else Result(JObject([("accounts", JArray(AccountObjects(vault.accounts.value)))]))
    else if req.methodName == "subscribe" then Empty
    else Error(InvalidMethod, req.id)
  }

  /**
   * `requestCallback`: the try block, the loop that collects the account
   * objects, the catch that turns an exception into an error response, and
   * the send to the requesting connection.
   */
  method RequestCallback(vault: Vault, conn: Connection, req: Request) returns (sent: Sent)
    ensures sent.to == conn
    ensures sent.response == Dispatch(vault, req)
  {
    var response := Empty;
    var thrown: Option<string> := None;
    if req.methodName == "status" {
      if vault.name.Fail? {
        thrown := Some(vault.name.message);
      } else if vault.schemaVersion.Fail? {
        thrown := Some(vault.schemaVersion.message);
      } else if vault.horizonTimestamp.Fail? {
        thrown := Some(vault.horizonTimestamp.message);
      } else {
        var result := [("name", JString(vault.name.value))];
        result := result + [("schema", JString(Decimal(vault.schemaVersion.value)))];
        result := result + [("horizon", JString(Decimal(vault.horizonTimestamp.value)))];
        assert JObject(result) == StatusObject(vault.name.value, vault.schemaVersion.value, vault.horizonTimestamp.value);
        response := Result(JObject(result));
      }
    } else if req.methodName == "listaccounts" {
      if |req.params| > 0 {
        thrown := Some(InvalidParameters);
      } else if vault.accounts.Fail? {
        thrown := Some(vault.accounts.message);
      } else {
        var accounts := vault.accounts.value;
        var accountObjects: seq<Json> := [];
        for k := 0 to |accounts|
          invariant |accountObjects| == k
          invariant forall j :: 0 <= j < k ==> accountObjects[j] == AccountObject(accounts[j])
        {
          accountObjects := accountObjects + [AccountObject(accounts[k])];
        }
        assert accountObjects == AccountObjects(accounts);
        response := Result(JObject([("accounts", JArray(accountObjects))]));
      }
    } else if req.methodName == "subscribe" {
    } else {
      thrown := Some(InvalidMethod);
    }
    if thrown.Some? {
      response := Error(thrown.value, req.id);
    }
    sent := Sent(conn, response);
  }

  // ---------------------------------------------------------------------------
  // What each method promises.

  /**
   * `status` with every query answered: an object with keys name, schema and
   * horizon in that order, whose numbers read back as the vault's.
   */
  lemma StatusReportsVault(vault: Vault, req: Request)
    requires req.methodName == "status"
    requires vault.name.Ok? && vault.schemaVersion.Ok? && vault.horizonTimestamp.Ok?
    ensures Dispatch(vault, req).Result?
    ensures Dispatch(vault, req).result.JObject?
    ensures var members := Dispatch(vault, req).result.members;
      && Keys(members) == ["name", "schema", "horizon"]
      && members[0].1 == JString(vault.name.value)
      && members[1].1.JString? && AllDigits(members[1].1.s)
      && DecimalValue(members[1].1.s) == vault.schemaVersion.value
      && members[2].1.JString? && AllDigits(members[2].1.s)
      && DecimalValue(members[2].1.s) == vault.horizonTimestamp.value
  {
    DecimalRoundTrip(vault.schemaVersion.value);
    DecimalRoundTrip(vault.horizonTimestamp.value);
  }

  /** A failing vault query answers `status` with that query's message, the first failure winning. */
  lemma StatusReportsFirstFailure(vault: Vault, req: Request)
    requires req.methodName == "status"
    ensures vault.name.Fail? ==> Dispatch(vault, req) == Error(vault.name.message, req.id)
    ensures vault.name.Ok? && vault.schemaVersion.Fail? ==>
      Dispatch(vault, req) == Error(vault.schemaVersion.message, req.id)
    ensures vault.name.Ok? && vault.schemaVersion.Ok? && vault.horizonTimestamp.Fail? ==>
      Dispatch(vault, req) == Error(vault.horizonTimestamp.message, req.id)
  {
  }

  /** `listaccounts` with parameters is refused before the vault is asked anything. */
  lemma ListAccountsRejectsParameters(vault: Vault, req: Request)
    requires req.methodName == "listaccounts" && |req.params| > 0
    ensures Dispatch(vault, req) == Error(InvalidParameters, req.id)
    ensures forall other: Vault :: Dispatch(other, req) == Dispatch(vault, req)
  {
  }

  /**
   * `listaccounts` without parameters: `{accounts: [...]}` with one
   * `{name, id}` object per vault account, in the vault's order, each id
   * reading back as the account's.
   */
  lemma ListAccountsListsVault(vault: Vault, req: Request)
    requires req.methodName == "listaccounts" && req.params == []
    requires vault.accounts.Ok?
    ensures Dispatch(vault, req).Result?
    ensures var result := Dispatch(vault, req).result;
      && result.JObject? && Keys(result.members) == ["accounts"]
      && result.members[0].1.JArray?
      && |result.members[0].1.items| == |vault.accounts.value|
    ensures var items := Dispatch(vault, req).result.members[0].1.items;
      forall i :: 0 <= i < |items| ==>
        && items[i].JObject?
        && Keys(items[i].members) == ["name", "id"]
        && items[i].members[0].1 == JString(vault.accounts.value[i].name)
        && items[i].members[1].1.JString? && AllDigits(items[i].members[1].1.s)
        && DecimalValue(items[i].members[1].1.s) == vault.accounts.value[i].id
  {
    var accounts := vault.accounts.value;
    forall i | 0 <= i < |accounts|
      ensures DecimalValue(Decimal(accounts[i].id)) == accounts[i].id
    {
      DecimalRoundTrip(accounts[i].id);
    }
  }

  /** A failing account query answers `listaccounts` with its message. */
  lemma ListAccountsReportsFailure(vault: Vault, req: Request)
    requires req.methodName == "listaccounts" && req.params == []
    requires vault.accounts.Fail?
    ensures Dispatch(vault, req) == Error(vault.accounts.message, req.id)
  {
  }

  /** `subscribe` sets neither a result nor an error and asks the vault nothing. */
  lemma SubscribeAnswersEmpty(vault: Vault, req: Request)
    requires req.methodName == "subscribe"
    ensures Dispatch(vault, req) == Empty
    ensures forall other: Vault :: Dispatch(other, req) == Empty
  {
  }

  /** Any other method is an "Invalid method." error carrying the request id. */
  lemma UnknownMethodIsError(vault: Vault, req: Request)
    requires req.methodName != "status" && req.methodName != "listaccounts" && req.methodName != "subscribe"
    ensures Dispatch(vault, req) == Error(InvalidMethod, req.id)
    ensures forall other: Vault :: Dispatch(other, req) == Dispatch(vault, req)
  {
  }
}
