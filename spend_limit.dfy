/**
 * The spend-limit account module's entry points over its storage: the
 * `OWNER` item, the `LIMITS` map from denomination to record, and the
 * `BALANCES` snapshot slot written before and read after each transaction.
 */
module SpendLimit {
  import opened Wrappers
  import opened SmartAccount
  import opened SpendLimitLedger

  /**
   * The `NotFound` kinds of the `OWNER` and `BALANCES` items. The host reports
   * the full Rust `type_name` of the stored type, with its module path; the
   * model keeps only the type's short name.
   */
  const OWNER_KIND: string := "Addr"
  const BALANCES_KIND: string := "Vec<Coin>"

  datatype InstantiateMsg = InstantiateMsg(owner: string)

  datatype ExecuteMsg =
    | SetSpendLimit(denom: string, amount: Uint128)
    | PreExecute(msgs: seq<MsgData>)
    | AfterExecute(msgs: seq<MsgData>)

  /** The host's address validation, which returns the validated address or an error. */
  datatype Api = Api(addrValidate: string -> Result<Addr, StdError>)

  function SetSpendLimitResponse(denom: string, amount: Uint128): Response {
    Response([Attribute("action", "set_spend_limit"), Attribute("denom", denom),
              Attribute("amount", DecimalString(amount))])
  }

  /**
   * What `execute_set_spend_limit` does to `LIMITS`: only the stored owner
   * may call it, and it replaces the denomination's record by a fresh one,
   * with nothing used and the window starting now.
   */
  predicate SetSpendLimitDone(
    owner: Option<Addr>, before: map<string, Limit>, after: map<string, Limit>,
    env: Env, info: MessageInfo, denom: string, amount: Uint128, r: Result<Response, ContractError>)
  {
    if owner.None? then r == Err(Std(NotFound(OWNER_KIND))) && after == before
    else if info.sender != owner.value then r == Err(Unauthorized) && after == before
    else r == Ok(SetSpendLimitResponse(denom, amount)) && after == before[denom := Limit(amount, 0, env.blockTime)]
  }

  /** What `execute_pre_execute` does to `BALANCES`: a self-call overwrites it with the current balances. */
  predicate PreExecuteDone(
    before: Option<seq<Coin>>, after: Option<seq<Coin>>,
    env: Env, info: MessageInfo, bankBalances: seq<Coin>, r: Result<Response, ContractError>)
  {
    if !IsSelfCall(env, info) then r == Err(Unauthorized) && after == before
    else r == Ok(ActionResponse("pre_execute")) && after == Some(bankBalances)
  }

  /**
   * What `execute_after_execute` does to `LIMITS`: after the guard and the
   * snapshot load, the charges of `ChargeAll` are kept on success, and on
   * any error the host discards every write of the call.
   */
  predicate AfterExecuteDone(
    snapshot: Option<seq<Coin>>, before: map<string, Limit>, after: map<string, Limit>,
    env: Env, info: MessageInfo, bankBalances: seq<Coin>, r: Result<Response, ContractError>)
  {
    if !IsSelfCall(env, info) then r == Err(Unauthorized) && after == before
    else if snapshot.None? then r == Err(Std(NotFound(BALANCES_KIND))) && after == before
    else
      match ChargeAll(before, snapshot.value, bankBalances, env.blockTime)
      case Ok(charged) => r == Ok(ActionResponse("after_execute")) && after == charged
      case Err(e) => r == Err(e) && after == before
  }

  class SpendLimitContract {
    var owner: Option<Addr>
    var limits: map<string, Limit>
    var balances: Option<seq<Coin>>

    /** Storage before instantiation: nothing saved. */
    constructor ()
      ensures owner == None && limits == map[] && balances == None
    {
      owner, limits, balances := None, map[], None;
    }

    /**
     * `instantiate`: the owner named in the message, once validated, is
     * stored. The response reports the caller under `owner`.
     */
    method Instantiate(api: Api, env: Env, info: MessageInfo, msg: InstantiateMsg)
      returns (r: Result<Response, ContractError>)
      modifies this`owner
      ensures api.addrValidate(msg.owner).Ok? ==>
        owner == Some(api.addrValidate(msg.owner).value) && r == Ok(InstantiateResponse(info.sender))
      ensures api.addrValidate(msg.owner).Err? ==>
        owner == old(owner) && r == Err(Std(api.addrValidate(msg.owner).error))
    {
      var validated := api.addrValidate(msg.owner);
      if validated.Err? {
        return Err(Std(validated.error));
      }
      owner := Some(validated.value);
      r := Ok(InstantiateResponse(info.sender));
    }

    /** `execute_set_spend_limit`. */
    method ExecuteSetSpendLimit(env: Env, info: MessageInfo, denom: string, amount: Uint128)
      returns (r: Result<Response, ContractError>)
      modifies this`limits
      ensures SetSpendLimitDone(owner, old(limits), limits, env, info, denom, amount, r)
    {
      if owner.None? {
        return Err(Std(NotFound(OWNER_KIND)));
      }
      if info.sender != owner.value {
        return Err(Unauthorized);
      }
      var limit := Limit(amount, 0, env.blockTime);
      limits := limits[denom := limit];
      r := Ok(SetSpendLimitResponse(denom, amount));
    }

    /** `execute_pre_execute`; `bankBalances` is the account's `AllBalances` query result. */
    method ExecutePreExecute(env: Env, info: MessageInfo, msgs: seq<MsgData>, bankBalances: seq<Coin>)
      returns (r: Result<Response, ContractError>)
      modifies this`balances
      ensures PreExecuteDone(old(balances), balances, env, info, bankBalances, r)
    {
      if info.sender != env.contractAddress {
        return Err(Unauthorized);
      }
      balances := Some(bankBalances);
      r := Ok(ActionResponse("pre_execute"));
    }

    /**
     * `execute_after_execute`; `bankBalances` is the account's balances once
     * the transaction has run. The loop saves each charged record in place;
     * an error restores the records the call started from, as the host's
     * rollback does.
     */
    method ExecuteAfterExecute(env: Env, info: MessageInfo, msgs: seq<MsgData>, bankBalances: seq<Coin>)
      returns (r: Result<Response, ContractError>)
      modifies this`limits
      ensures AfterExecuteDone(balances, old(limits), limits, env, info, bankBalances, r)
      ensures r.Ok? && WithinLimit(old(limits), env.blockTime) ==> WithinLimit(limits, env.blockTime)
    {
      if info.sender != env.contractAddress {
        return Err(Unauthorized);
      }
      if balances.None? {
        return Err(Std(NotFound(BALANCES_KIND)));
      }
      var preBalances := balances.value;
      var afterBalances := bankBalances;
      var saved := limits;
      for i := 0 to |preBalances|
        invariant ChargeAll(saved, preBalances, afterBalances, env.blockTime)
               == ChargeAll(limits, preBalances[i..], afterBalances, env.blockTime)
      {
        var preBalance := preBalances[i];
        assert preBalances[i..][0] == preBalance && preBalances[i..][1..] == preBalances[i + 1..];
        if preBalance.denom in limits {
          var limit := limits[preBalance.denom];
          var amount := BalanceOf(afterBalances, preBalance.denom);
          if preBalance.amount > amount {
            var usedAmount: Uint128 := preBalance.amount - amount;
            if env.blockTime < HOUR_NANOS {
              limits := saved;
              return Err(Panic(SUBTRACT_OVERFLOW));
            }
            if !CheckLimit(limit, usedAmount, env.blockTime) {
              limits := saved;
              return Err(LimitExceeded(preBalance.denom));
            }
            if limit.used + usedAmount >= UINT128_LIMIT {
              limits := saved;
              return Err(Panic(UNWRAP_OVERFLOW));
            }
            limit := limit.(used := limit.used + usedAmount);
            limits := limits[preBalance.denom := limit];
          }
        }
      }
      r := Ok(ActionResponse("after_execute"));
      if WithinLimit(saved, env.blockTime) {
        ChargeAllKeepsWithinLimit(saved, preBalances, afterBalances, env.blockTime);
      }
    }

    /**
     * One transaction of the account as the host runs it: the pre-execute
     * hook sees the balances `before`, the transaction moves funds (outside
     * this model), and the after-execute hook sees the balances `after`.
     * The unit is atomic, so a failing after-execute also undoes the snapshot.
     */
    method RunTransaction(env: Env, before: seq<Coin>, after: seq<Coin>)
      returns (r: Result<Response, ContractError>)
      modifies this`limits, this`balances
      ensures match ChargeAll(old(limits), before, after, env.blockTime)
        case Ok(charged) => r == Ok(ActionResponse("after_execute")) && limits == charged && balances == Some(before)
        case Err(e) => r == Err(e) && limits == old(limits) && balances == old(balances)
    {
      var self := MessageInfo(env.contractAddress);
      var savedBalances := balances;
      r := ExecutePreExecute(env, self, [], before);
      r := ExecuteAfterExecute(env, self, [], after);
      if r.Err? {
        balances := savedBalances;
      }
    }

    /** `execute`: each message goes to its own handler. */
    method Execute(env: Env, info: MessageInfo, msg: ExecuteMsg, bankBalances: seq<Coin>)
      returns (r: Result<Response, ContractError>)
      modifies this`limits, this`balances
      ensures msg.SetSpendLimit? ==>
        SetSpendLimitDone(owner, old(limits), limits, env, info, msg.denom, msg.amount, r) &&
        balances == old(balances)
      ensures msg.PreExecute? ==>
        PreExecuteDone(old(balances), balances, env, info, bankBalances, r) && limits == old(limits)
      ensures msg.AfterExecute? ==>
        AfterExecuteDone(balances, old(limits), limits, env, info, bankBalances, r) &&
        balances == old(balances)
    {
      match msg
      case SetSpendLimit(denom, amount) =>
        r := ExecuteSetSpendLimit(env, info, denom, amount);
      case PreExecute(msgs) =>
        r := ExecutePreExecute(env, info, msgs, bankBalances);
      case AfterExecute(msgs) =>
        r := ExecuteAfterExecute(env, info, msgs, bankBalances);
    }
  }

  /** Setting the same limit twice at the same time leaves the same records and response. */
  lemma SetSpendLimitIdempotent(
    owner: Option<Addr>, m0: map<string, Limit>, m1: map<string, Limit>, m2: map<string, Limit>,
    env: Env, info: MessageInfo, denom: string, amount: Uint128,
    r1: Result<Response, ContractError>, r2: Result<Response, ContractError>)
    requires SetSpendLimitDone(owner, m0, m1, env, info, denom, amount, r1)
    requires SetSpendLimitDone(owner, m1, m2, env, info, denom, amount, r2)
    ensures m2 == m1 && r2 == r1
  {
  }

  /** Setting a limit keeps every running window within its cap. */
  lemma SetSpendLimitKeepsWithinLimit(
    owner: Option<Addr>, before: map<string, Limit>, after: map<string, Limit>,
    env: Env, info: MessageInfo, denom: string, amount: Uint128, r: Result<Response, ContractError>,
    now: Timestamp)
    requires SetSpendLimitDone(owner, before, after, env, info, denom, amount, r)
    requires WithinLimit(before, now)
    ensures WithinLimit(after, now)
  {
  }

  /** A pass over a one-coin snapshot is that coin's charge. */
  lemma ChargeAllSingle(m: map<string, Limit>, c: Coin, after: seq<Coin>, now: Timestamp)
    ensures ChargeAll(m, [c], after, now) == ChargeCoin(m, c, after, now)
  {
    assert [c][1..] == [];
  }

  const SCENARIO_START: Timestamp := 1_700_000_000_000_000_000
  const SCENARIO_ACCOUNT: Addr := "aura1account"
  const SCENARIO_OWNER: Addr := "aura1owner"

  /** The three charges of the scenario below, evaluated on their own. */
  lemma ScenarioCharges()
    ensures ChargeAll(map["uaura" := Limit(1000, 0, SCENARIO_START)], [Coin("uaura", 5000)], [Coin("uaura", 4400)],
                      SCENARIO_START + 100 * NANOS_PER_SECOND)
         == Ok(map["uaura" := Limit(1000, 600, SCENARIO_START)])
    ensures ChargeAll(map["uaura" := Limit(1000, 600, SCENARIO_START)], [Coin("uaura", 4400)], [Coin("uaura", 3900)],
                      SCENARIO_START + 200 * NANOS_PER_SECOND)
         == Err(LimitExceeded("uaura"))
    ensures ChargeAll(map["uaura" := Limit(1000, 600, SCENARIO_START)], [Coin("uaura", 4400)], [Coin("uaura", 3900)],
                      SCENARIO_START + 4000 * NANOS_PER_SECOND)
         == Ok(map["uaura" := Limit(1000, 1100, SCENARIO_START)])
  {
    var start := SCENARIO_START;
    var l0, l1 := Limit(1000, 0, start), Limit(1000, 600, start);
    ChargeAllSingle(map["uaura" := l0], Coin("uaura", 5000), [Coin("uaura", 4400)], start + 100 * NANOS_PER_SECOND);
    assert BalanceOf([Coin("uaura", 4400)], "uaura") == 4400;
    assert BalanceOf([Coin("uaura", 3900)], "uaura") == 3900;
    assert ChargeRecord("uaura", l0, 600, start + 100 * NANOS_PER_SECOND) == Ok(l1);
    assert map["uaura" := l0]["uaura" := l1] == map["uaura" := l1];
    ChargeAllSingle(map["uaura" := l1], Coin("uaura", 4400), [Coin("uaura", 3900)], start + 200 * NANOS_PER_SECOND);
    assert !Expired(l1, start + 200 * NANOS_PER_SECOND);
    ChargeAllSingle(map["uaura" := l1], Coin("uaura", 4400), [Coin("uaura", 3900)], start + 4000 * NANOS_PER_SECOND);
    assert Expired(l1, start + 4000 * NANOS_PER_SECOND);
    assert ChargeRecord("uaura", l1, 500, start + 4000 * NANOS_PER_SECOND) == Ok(Limit(1000, 1100, start));
    assert map["uaura" := l1]["uaura" := Limit(1000, 1100, start)] == map["uaura" := Limit(1000, 1100, start)];
  }

  /** The scenario's account: instantiated, and capped by its owner at 1000 "uaura". */
  method ScenarioSetUp() returns (c: SpendLimitContract)
    ensures fresh(c)
    ensures c.limits == map["uaura" := Limit(1000, 0, SCENARIO_START)]
  {
    var env := Env(SCENARIO_START, SCENARIO_ACCOUNT);
    c := new SpendLimitContract();
    var r := c.Instantiate(Api(a => Ok(a)), env, MessageInfo(SCENARIO_OWNER), InstantiateMsg(SCENARIO_OWNER));
    r := c.ExecuteSetSpendLimit(env, MessageInfo(SCENARIO_ACCOUNT), "uaura", 1000);
    assert r == Err(Unauthorized) && c.limits == map[];
    r := c.ExecuteSetSpendLimit(env, MessageInfo(SCENARIO_OWNER), "uaura", 1000);
  }

  /**
   * A client of the entry points: the owner caps "uaura" at 1000; the
   * account spends 600 inside the hour, is refused 500 more inside the
   * hour, and is allowed the same 500 once the hour has passed.
   */
  method SpendWithinHourScenario()
  {
    var c := ScenarioSetUp();
    ScenarioCharges();
    var r := c.RunTransaction(Env(SCENARIO_START + 100 * NANOS_PER_SECOND, SCENARIO_ACCOUNT),
                              [Coin("uaura", 5000)], [Coin("uaura", 4400)]);
    assert r.Ok? && c.limits == map["uaura" := Limit(1000, 600, SCENARIO_START)];
    r := c.RunTransaction(Env(SCENARIO_START + 200 * NANOS_PER_SECOND, SCENARIO_ACCOUNT),
                          [Coin("uaura", 4400)], [Coin("uaura", 3900)]);
    assert r == Err(LimitExceeded("uaura")) && c.limits == map["uaura" := Limit(1000, 600, SCENARIO_START)];
    r := c.RunTransaction(Env(SCENARIO_START + 4000 * NANOS_PER_SECOND, SCENARIO_ACCOUNT),
                          [Coin("uaura", 4400)], [Coin("uaura", 3900)]);
    assert r.Ok? && c.limits == map["uaura" := Limit(1000, 1100, SCENARIO_START)];
  }
}
