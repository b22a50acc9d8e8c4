/**
 * The recovery account module: instantiation stores a recovery public key;
 * the hooks are self-call guards; the privileged `sudo` entry accepts a
 * recovery request exactly when the host's secp256k1 verifier accepts the
 * signature over the SHA-256 digest of the proposed public key.
 */
module Recovery {
  import opened Wrappers
  import opened SmartAccount
  import Hex

  /**
   * The `NotFound` kind of the `RECOVER_KEY` item: the short name of the
   * stored type, where the host reports the full `alloc::vec::Vec<u8>`.
   */
  const RECOVER_KEY_KIND: string := "Vec<u8>"
  const CREDENTIALS_TYPE: string := "recovery::msg::Credentials"
  const INVALID_SIGNATURE: string := "Invalid signature for recovery"

  datatype InstantiateMsg = InstantiateMsg(recoverKey: string)

  datatype ExecuteMsg =
    | AfterExecute(msgs: seq<MsgData>)
    | PreExecute(msgs: seq<MsgData>)

  /** The `Recover` request: the proposed public key and encoded credentials. */
  datatype SudoMsg = Recover(pubKey: seq<Byte>, credentials: seq<Byte>)

  datatype Credentials = Credentials(signature: seq<Byte>)

  /**
   * What the contract takes from outside: the SHA-256 digest, the host's
   * `secp256k1_verify(message_hash, signature, public_key)`, which may fail
   * with a verification error, and the JSON decoding of `Credentials`.
   */
  datatype Host = Host(
    sha256: seq<Byte> -> seq<Byte>,
    secp256k1Verify: (seq<Byte>, seq<Byte>, seq<Byte>) -> Result<bool, string>,
    fromBinary: seq<Byte> -> Option<Credentials>)

  /** The contract's storage: the `RECOVER_KEY` item. */
  class RecoveryContract {
    var recoverKey: Option<seq<Byte>>

    /** Storage before instantiation: nothing saved. */
    constructor ()
      ensures recoverKey == None
    {
      recoverKey := None;
    }

    /**
     * `instantiate`: stores the hex-decoded recovery key. Malformed hex makes
     * the `unwrap` panic, and nothing is stored.
     */
    method Instantiate(env: Env, info: MessageInfo, msg: InstantiateMsg)
      returns (r: Result<Response, ContractError>)
      modifies this
      ensures Hex.Decode(msg.recoverKey).Ok? ==>
        recoverKey == Some(Hex.Decode(msg.recoverKey).value) && r == Ok(InstantiateResponse(info.sender))
      ensures Hex.Decode(msg.recoverKey).Err? ==>
        recoverKey == old(recoverKey) && r.Err? && r.error.Panic?
    {
      var decoded := Hex.Decode(msg.recoverKey);
      if decoded.Err? {
        return Err(Panic("called `Result::unwrap()` on an `Err` value"));
      }
      recoverKey := Some(decoded.value);
      r := Ok(InstantiateResponse(info.sender));
    }

    /**
     * `sudo_recover`: digest the new public key, load the stored recovery
     * key, decode the credentials, then verify. It reads storage and writes
     * nothing: neither the recovery key nor the new public key is saved.
     */
    function SudoRecover(host: Host, env: Env, pubKey: seq<Byte>, credentials: seq<Byte>)
      : (r: Result<Response, ContractError>)
      reads this
      ensures recoverKey.None? ==> r == Err(Std(NotFound(RECOVER_KEY_KIND)))
      ensures recoverKey.Some? && host.fromBinary(credentials).None? ==>
        r == Err(Std(ParseErr(CREDENTIALS_TYPE)))
      ensures r.Ok? <==>
        && recoverKey.Some?
        && host.fromBinary(credentials).Some?
        && host.secp256k1Verify(host.sha256(pubKey), host.fromBinary(credentials).value.signature,
                                recoverKey.value) == Ok(true)
      ensures r.Ok? ==> r.value == ActionResponse("recover")
      ensures recoverKey.Some? && host.fromBinary(credentials).Some? ==>
        var verdict := host.secp256k1Verify(host.sha256(pubKey),
                                            host.fromBinary(credentials).value.signature, recoverKey.value);
        && (verdict == Ok(false) ==> r == Err(CustomError(INVALID_SIGNATURE)))
        && (verdict.Err? ==> r.Err? && r.error.Panic?)
    {
      var keyBytesHash := host.sha256(pubKey);
      match recoverKey
      case None => Err(Std(NotFound(RECOVER_KEY_KIND)))
      case Some(key) =>
        match host.fromBinary(credentials)
        case None => Err(Std(ParseErr(CREDENTIALS_TYPE)))
        case Some(creds) =>
          match host.secp256k1Verify(keyBytesHash, creds.signature, key)
          case Err(_) => Err(Panic("called `Result::unwrap()` on an `Err` value"))
          case Ok(valid) =>
            if !valid then Err(CustomError(INVALID_SIGNATURE))
            else Ok(ActionResponse("recover"))
    }

    /** `sudo`: the `Recover` request goes to `sudo_recover`. */
    function Sudo(host: Host, env: Env, msg: SudoMsg): (r: Result<Response, ContractError>)
      reads this
      ensures r == SudoRecover(host, env, msg.pubKey, msg.credentials)
    {
      match msg
      case Recover(pubKey, credentials) => SudoRecover(host, env, pubKey, credentials)
    }
  }

  /** `execute_after_execute`: fails with `Unauthorized` exactly when the caller is not the account. */
  function ExecuteAfterExecute(env: Env, info: MessageInfo, msgs: seq<MsgData>)
    : (r: Result<Response, ContractError>)
    ensures r.Err? <==> !IsSelfCall(env, info)
    ensures r.Err? ==> r.error == Unauthorized
    ensures r.Ok? ==> r.value == ActionResponse("after_execute")
  {
    if info.sender != env.contractAddress then Err(Unauthorized)
    else Ok(ActionResponse("after_execute"))
  }

  /** `execute_pre_execute`: the same guard, with the `pre_execute` action. */
  function ExecutePreExecute(env: Env, info: MessageInfo, msgs: seq<MsgData>)
    : (r: Result<Response, ContractError>)
    ensures r.Err? <==> !IsSelfCall(env, info)
    ensures r.Err? ==> r.error == Unauthorized
    ensures r.Ok? ==> r.value == ActionResponse("pre_execute")
  {
    if info.sender != env.contractAddress then Err(Unauthorized)
    else Ok(ActionResponse("pre_execute"))
  }

  /** `execute`: each hook message goes to its own handler. */
  function Execute(env: Env, info: MessageInfo, msg: ExecuteMsg): (r: Result<Response, ContractError>)
    ensures msg.AfterExecute? ==> r == ExecuteAfterExecute(env, info, msg.msgs)
    ensures msg.PreExecute? ==> r == ExecutePreExecute(env, info, msg.msgs)
  {
    match msg
    case AfterExecute(msgs) => ExecuteAfterExecute(env, info, msgs)
    case PreExecute(msgs) => ExecutePreExecute(env, info, msgs)
  }
}
