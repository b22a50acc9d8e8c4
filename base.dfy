/**
 * The base account module: instantiation records the owner, and the two
 * hooks only check that the account contract is calling itself.
 */
module Base {
  import opened Wrappers
  import opened SmartAccount

  datatype InstantiateMsg = InstantiateMsg

  datatype ExecuteMsg =
    | AfterExecute(msgs: seq<MsgData>)
    | PreExecute(msgs: seq<MsgData>)

  /** The contract's storage: the `OWNER` item. */
  class BaseContract {
    var owner: Option<Addr>

    /** Storage before instantiation: nothing saved. */
    constructor ()
      ensures owner == None
    {
      owner := None;
    }

    /** `instantiate`: the caller becomes the owner. */
    method Instantiate(env: Env, info: MessageInfo, msg: InstantiateMsg)
      returns (r: Result<Response, ContractError>)
      modifies this
      ensures owner == Some(info.sender)
      ensures r == Ok(InstantiateResponse(info.sender))
    {
      owner := Some(info.sender);
      r := Ok(InstantiateResponse(info.sender));
    }
  }

  /**
   * `execute_after_execute`: fails with `Unauthorized` exactly when the
   * caller is not the account itself. It reads no storage, so it changes none.
   */
  function ExecuteAfterExecute(env: Env, info: MessageInfo, msgs: seq<MsgData>)
    : (r: Result<Response, ContractError>)
    ensures r.Err? <==> !IsSelfCall(env, info)
    ensures r.Err? ==> r.error == Unauthorized
    ensures r.Ok? ==> r.value == ActionResponse("after_execute")
  {
    if info.sender != env.contractAddress then Err(Unauthorized)
    else Ok(ActionResponse("after_execute"))
  }

  /** `execute_pre_execute`: the same guard, with the `pre_execute` action. */
  function ExecutePreExecute(env: Env, info: MessageInfo, msgs: seq<MsgData>)
    : (r: Result<Response, ContractError>)
    ensures r.Err? <==> !IsSelfCall(env, info)
    ensures r.Err? ==> r.error == Unauthorized
    ensures r.Ok? ==> r.value == ActionResponse("pre_execute")
  {
    if info.sender != env.contractAddress then Err(Unauthorized)
    else Ok(ActionResponse("pre_execute"))
  }

  /** `execute`: each hook message goes to its own handler. */
  function Execute(env: Env, info: MessageInfo, msg: ExecuteMsg): (r: Result<Response, ContractError>)
    ensures msg.AfterExecute? ==> r == ExecuteAfterExecute(env, info, msg.msgs)
    ensures msg.PreExecute? ==> r == ExecutePreExecute(env, info, msg.msgs)
  {
    match msg
    case AfterExecute(msgs) => ExecuteAfterExecute(env, info, msgs)
    case PreExecute(msgs) => ExecutePreExecute(env, info, msgs)
  }

  /** The outcome of either hook does not depend on the messages passed in. */
  lemma HooksIgnoreMessages(env: Env, info: MessageInfo, msgs1: seq<MsgData>, msgs2: seq<MsgData>)
    ensures Execute(env, info, AfterExecute(msgs1)) == Execute(env, info, AfterExecute(msgs2))
    ensures Execute(env, info, PreExecute(msgs1)) == Execute(env, info, PreExecute(msgs2))
  {
  }
}
