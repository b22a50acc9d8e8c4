/**
 * Types shared by the three account-policy contracts: the message data of
 * the smart-account package, the host's coin, address, time and response
 * types, and the contracts' common error type.
 */
module SmartAccount {
  import opened Wrappers

  const UINT64_LIMIT: nat := 0x1_0000_0000_0000_0000
  const UINT128_LIMIT: nat := 0x1_0000_0000_0000_0000_0000_0000_0000_0000

  type Byte = b: nat | b < 256
  type Uint64 = x: nat | x < UINT64_LIMIT
  /** Unsigned 128-bit amount; arithmetic on it is checked, never wrapping. */
  type Uint128 = x: nat | x < UINT128_LIMIT

  /** Block time in nanoseconds since the Unix epoch, held in a u64. */
  type Timestamp = Uint64

  /** A bech32 account or contract address, compared as a string. */
  type Addr = string

  /** An amount of one denomination, as the bank module reports balances. */
  datatype Coin = Coin(denom: string, amount: Uint128)

  /** One message of the account's transaction: its type URL and its payload. */
  datatype MsgData = MsgData(typeUrl: string, value: string)

  /** The part of the execution environment the contracts read. */
  datatype Env = Env(blockTime: Timestamp, contractAddress: Addr)

  /** The caller of an execute entry point. */
  datatype MessageInfo = MessageInfo(sender: Addr)

  datatype Attribute = Attribute(key: string, value: string)

  /** A successful response, described by its attributes in order. */
  datatype Response = Response(attributes: seq<Attribute>)

  /** The host's standard errors that the contracts propagate with `?`. */
  datatype StdError =
    | NotFound(kind: string)
    | ParseErr(target: string)
    | GenericErr(msg: string)

  /**
   * The contracts' error type. `Panic` stands for an aborting `unwrap` or a
   * checked arithmetic failure: the host aborts the call just as for `Err`.
   */
  datatype ContractError =
    | Std(std: StdError)
    | Unauthorized
    | CustomError(val: string)
    | Panic(reason: string)

  /** The response carrying the single attribute `action`. */
  function ActionResponse(action: string): Response {
    Response([Attribute("action", action)])
  }

  /** The instantiate response: attributes `method` and `owner`. */
  function InstantiateResponse(sender: Addr): Response {
    Response([Attribute("method", "instantiate"), Attribute("owner", sender)])
  }

  /**
   * The hooks' only authentication: the caller is the account contract
   * itself, re-entered by the host while it executes the account's transaction.
   */
  predicate IsSelfCall(env: Env, info: MessageInfo) {
    info.sender == env.contractAddress
  }

  /** The numeric value of a string of decimal digits. */
  function DigitsValue(s: string): nat
    requires forall i :: 0 <= i < |s| ==> '0' <= s[i] <= '9'
  {
    if s == [] then 0
    else DigitsValue(s[..|s| - 1]) * 10 + (s[|s| - 1] as int - '0' as int)
  }

  /** Decimal rendering of an amount, as `Uint128` displays in attributes. */
  function DecimalString(n: nat): (s: string)
    ensures |s| >= 1
    ensures forall i :: 0 <= i < |s| ==> '0' <= s[i] <= '9'
    ensures s[0] == '0' ==> s == "0" && n == 0
    ensures DigitsValue(s) == n
  {
    var digit := ('0' as int + n % 10) as char;
    if n < 10 then [digit]
    else
      var prefix := DecimalString(n / 10);
      assert (prefix + [digit])[..|prefix + [digit]| - 1] == prefix;
      prefix + [digit]
  }
}
